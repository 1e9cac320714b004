/** Pump selection from the ESP catalog (`__get_esp_model_stages` in
    pipesim_model.py): the first catalog entry, in document order, whose
    nominal rate equals the requested one gives the pump, and the head its
    curve gives at that rate gives the number of stages. There is no
    nearest-match fallback: no exact match is an error. */
module EspCatalog {
  import opened Wrappers

  /** One catalog entry: the nominal rate and the head curve, as parallel lists. */
  datatype EspEntry = EspEntry(rateNomSm3day: real, ratePoints: seq<real>, headPoints: seq<real>)

  /** The catalog in the order its keys appear in the catalog document. */
  type Catalog = seq<(string, EspEntry)>

  /** What selection returns: the catalog key of the pump and its stage count. */
  datatype PumpSelection = PumpSelection(espId: string, stages: int)

  /** Why selection fails; each is an exception the search raises. */
  datatype PumpError =
    | NotFound            // no entry has the requested nominal rate
    | RateNotOnCurve      // the nominal rate is not among the entry's rate points
    | HeadIndexOutOfRange // the head list is shorter than the rate list
    | ZeroHead            // the per-stage head is zero, so the division fails

  /** Python's int() on a number: truncation toward zero. */
  function TruncateToInt(x: real): (n: int)
    ensures 0.0 <= x ==> 0 <= n && n as real <= x < n as real + 1.0
    ensures x < 0.0 ==> n <= 0 && n as real - 1.0 < x <= n as real
  {
    if x >= 0.0 then x.Floor else -((-x).Floor)
  }

  /** Python's floor division `a // b` on numbers. */
  function FloorDiv(a: real, b: real): (q: int)
    requires b != 0.0
    ensures 0.0 < b ==> q as real * b <= a < (q as real + 1.0) * b
    ensures b < 0.0 ==> (q as real + 1.0) * b < a <= q as real * b
  {
    FloorOfQuotient(a, b);
    (a / b).Floor
  }

  lemma FloorOfQuotient(a: real, b: real)
    requires b != 0.0
    ensures var q := (a / b).Floor;
      (0.0 < b ==> q as real * b <= a < (q as real + 1.0) * b) &&
      (b < 0.0 ==> (q as real + 1.0) * b < a <= q as real * b)
  {
    assert (a / b) * b == a;
    BracketByFactor(a, b, a / b, (a / b).Floor as real);
  }

  /** A number q within 1 below x brackets a = x * b between consecutive
      multiples of b. Stated for any such q, so that no integer floor
      enters the nonlinear reasoning. */
  lemma BracketByFactor(a: real, b: real, x: real, q: real)
    requires b != 0.0 && x * b == a && q <= x < q + 1.0
    ensures 0.0 < b ==> q * b <= a < (q + 1.0) * b
    ensures b < 0.0 ==> (q + 1.0) * b < a <= q * b
  {
    if 0.0 < b {
      MulLe(q, x, b);
      var r := q + 1.0;
      MulLt(x, r, b);
      assert x * b < r * b;
      assert a < r * b;
    } else {
      MulLeNegative(q, x, b);
      var r := q + 1.0;
      MulLtNegative(x, r, b);
      assert r * b < x * b;
      assert r * b < a;
    }
  }

  /** Scaling both sides of `x <= y` by a positive `b`. */
  lemma MulLe(x: real, y: real, b: real)
    requires 0.0 < b && x <= y
    ensures x * b <= y * b
  {
  }

  /** Scaling both sides of `x <= y` by a negative `b` reverses it. */
  lemma MulLeNegative(x: real, y: real, b: real)
    requires b < 0.0 && x <= y
    ensures y * b <= x * b
  {
  }

  /** A product with a positive factor is positive only if the other factor is. */
  lemma PositiveFactor(x: real, b: real)
    requires 0.0 < b && 0.0 < x * b
    ensures 0.0 < x
  {
    if x <= 0.0 {
      MulLe(x, 0.0, b);
    }
  }

  /** Scaling both sides of `x < y` by a positive `b`. */
  lemma MulLt(x: real, y: real, b: real)
    requires 0.0 < b && x < y
    ensures x * b < y * b
  {
  }

  /** Scaling both sides of `x < y` by a negative `b` reverses it. */
  lemma MulLtNegative(x: real, y: real, b: real)
    requires b < 0.0 && x < y
    ensures y * b < x * b
  {
  }

  /** The position of the first catalog entry whose nominal rate equals `rate`. */
  function FirstMatch(catalog: Catalog, rate: real): (r: Option<nat>)
    ensures r.None? <==> forall k :: 0 <= k < |catalog| ==> catalog[k].1.rateNomSm3day != rate
    ensures r.Some? ==> r.value < |catalog| && catalog[r.value].1.rateNomSm3day == rate
    ensures r.Some? ==> forall k :: 0 <= k < r.value ==> catalog[k].1.rateNomSm3day != rate
  {
    if catalog == [] then None
    else if catalog[0].1.rateNomSm3day == rate then Some(0)
    else
      match FirstMatch(catalog[1..], rate)
      case None => None
      case Some(k) => Some(k + 1)
  }

  /** The position of the first occurrence of `x` in `s` (Python's list.index). */
  function IndexOf(s: seq<real>, x: real): (r: Option<nat>)
    ensures r.None? <==> x !in s
    ensures r.Some? ==> r.value < |s| && s[r.value] == x
    ensures r.Some? ==> forall j :: 0 <= j < r.value ==> s[j] != x
  {
    if s == [] then None
    else if s[0] == x then Some(0)
    else
      match IndexOf(s[1..], x)
      case None => None
      case Some(j) => Some(j + 1)
  }

  /** Stage count for a matched entry: the per-stage head is read from the
      head curve at the first position of the entry's truncated nominal rate. */
  function EntryStages(key: string, entry: EspEntry, headNom: real): (r: Result<PumpSelection, PumpError>)
    ensures r.Ok? ==> r.value.espId == key
    ensures r != Err(NotFound)
    ensures r == Err(RateNotOnCurve) <==> TruncateToInt(entry.rateNomSm3day) as real !in entry.ratePoints
    ensures var idx := IndexOf(entry.ratePoints, TruncateToInt(entry.rateNomSm3day) as real);
      (r == Err(HeadIndexOutOfRange) <==> idx.Some? && idx.value >= |entry.headPoints|) &&
      (r == Err(ZeroHead) <==> idx.Some? && idx.value < |entry.headPoints| && entry.headPoints[idx.value] == 0.0) &&
      (r.Ok? ==> (idx.Some? && idx.value < |entry.headPoints| && entry.headPoints[idx.value] != 0.0 &&
                  r.value.stages == FloorDiv(headNom, entry.headPoints[idx.value]) + 1))
  {
    match IndexOf(entry.ratePoints, TruncateToInt(entry.rateNomSm3day) as real)
    case None => Err(RateNotOnCurve)
    case Some(i) =>
      if i >= |entry.headPoints| then Err(HeadIndexOutOfRange)
      else if entry.headPoints[i] == 0.0 then Err(ZeroHead)
      else Ok(PumpSelection(key, FloorDiv(headNom, entry.headPoints[i]) + 1))
  }

  /** Pump selection as a function of the catalog and the duty point. */
  function SelectPump(catalog: Catalog, rateNom: real, headNom: real): (r: Result<PumpSelection, PumpError>)
    ensures r.Ok? ==> exists k :: 0 <= k < |catalog| && catalog[k].0 == r.value.espId && catalog[k].1.rateNomSm3day == rateNom
    ensures r.Err? && r.error != NotFound ==> exists k :: 0 <= k < |catalog| && catalog[k].1.rateNomSm3day == rateNom
  {
    match FirstMatch(catalog, rateNom)
    case None => Err(NotFound)
    case Some(k) => EntryStages(catalog[k].0, catalog[k].1, headNom)
  }

  /** The catalog search: scans the entries in order and stops at the first
      whose nominal rate equals `rateNom`. */
  method GetEspModelStages(catalog: Catalog, rateNom: real, headNom: real)
    returns (r: Result<PumpSelection, PumpError>)
    ensures r == SelectPump(catalog, rateNom, headNom)
    ensures r == Err(NotFound) <==> forall k :: 0 <= k < |catalog| ==> catalog[k].1.rateNomSm3day != rateNom
    ensures r.Ok? ==> exists k :: 0 <= k < |catalog| && catalog[k].0 == r.value.espId && catalog[k].1.rateNomSm3day == rateNom
  {
    var i := 0;
    while i < |catalog|
      invariant 0 <= i <= |catalog|
      invariant forall k :: 0 <= k < i ==> catalog[k].1.rateNomSm3day != rateNom
    {
      var (key, esp) := catalog[i];
      if rateNom == esp.rateNomSm3day {
        var index := IndexOf(esp.ratePoints, TruncateToInt(esp.rateNomSm3day) as real);
        if index.None? {
          r := Err(RateNotOnCurve);
        } else if index.value >= |esp.headPoints| {
          r := Err(HeadIndexOutOfRange);
        } else {
          var headNomEsp := esp.headPoints[index.value];
          if headNomEsp == 0.0 {
            r := Err(ZeroHead);
          } else {
            r := Ok(PumpSelection(key, FloorDiv(headNom, headNomEsp) + 1));
          }
        }
        return;
      }
      i := i + 1;
    }
    r := Err(NotFound);
  }

  /** Selection fails with NotFound exactly when no entry has the requested
      nominal rate; any other failure comes from the matched entry itself. */
  lemma NotFoundIff(catalog: Catalog, rateNom: real, headNom: real)
    ensures SelectPump(catalog, rateNom, headNom) == Err(NotFound) <==>
      forall k :: 0 <= k < |catalog| ==> catalog[k].1.rateNomSm3day != rateNom
  {
  }

  /** The entry at `k`, the first with the requested nominal rate, decides the
      outcome alone: entries before it do not match and entries after it are
      never looked at. */
  lemma FirstMatchDecides(catalog: Catalog, rateNom: real, headNom: real, k: nat)
    requires k < |catalog| && catalog[k].1.rateNomSm3day == rateNom
    requires forall j :: 0 <= j < k ==> catalog[j].1.rateNomSm3day != rateNom
    ensures SelectPump(catalog, rateNom, headNom) == EntryStages(catalog[k].0, catalog[k].1, headNom)
  {
  }

  /** Appending entries to a catalog that already has a match changes nothing:
      later matches are ignored. */
  lemma LaterEntriesIgnored(catalog: Catalog, more: Catalog, rateNom: real, headNom: real)
    requires exists k :: 0 <= k < |catalog| && catalog[k].1.rateNomSm3day == rateNom
    ensures SelectPump(catalog + more, rateNom, headNom) == SelectPump(catalog, rateNom, headNom)
  {
    var k := FirstMatch(catalog, rateNom).value;
    FirstMatchDecides(catalog + more, rateNom, headNom, k);
  }

  /** The per-stage head is the head point at the first position of the
      entry's truncated nominal rate on its rate curve. */
  lemma HeadFromFirstRatePoint(key: string, entry: EspEntry, headNom: real, i: nat)
    requires i < |entry.ratePoints| && i < |entry.headPoints|
    requires entry.ratePoints[i] == TruncateToInt(entry.rateNomSm3day) as real
    requires forall j :: 0 <= j < i ==> entry.ratePoints[j] != entry.ratePoints[i]
    requires entry.headPoints[i] != 0.0
    ensures EntryStages(key, entry, headNom) == Ok(PumpSelection(key, FloorDiv(headNom, entry.headPoints[i]) + 1))
  {
    var found := IndexOf(entry.ratePoints, entry.ratePoints[i]);
    assert found.Some?;
    assert found.value == i;
  }

  /** A matched entry whose truncated nominal rate is not on its own rate
      curve makes selection fail; no other entry is tried. */
  lemma RateOffCurveFails(catalog: Catalog, rateNom: real, headNom: real, k: nat)
    requires k < |catalog| && catalog[k].1.rateNomSm3day == rateNom
    requires forall j :: 0 <= j < k ==> catalog[j].1.rateNomSm3day != rateNom
    requires TruncateToInt(rateNom) as real !in catalog[k].1.ratePoints
    ensures SelectPump(catalog, rateNom, headNom) == Err(RateNotOnCurve)
  {
    FirstMatchDecides(catalog, rateNom, headNom, k);
  }

  /** The meaning of the stage count: with a positive per-stage head h, the
      selected number of stages n satisfies (n - 1) * h <= head_nom < n * h,
      so n stages deliver more than the nominal head and n - 1 do not exceed
      it; with a non-negative nominal head there is at least one stage. */
  lemma StagesCoverHead(key: string, entry: EspEntry, headNom: real, i: nat)
    requires i < |entry.ratePoints| && i < |entry.headPoints|
    requires entry.ratePoints[i] == TruncateToInt(entry.rateNomSm3day) as real
    requires forall j :: 0 <= j < i ==> entry.ratePoints[j] != entry.ratePoints[i]
    requires entry.headPoints[i] > 0.0
    ensures EntryStages(key, entry, headNom).Ok?
    ensures var n := EntryStages(key, entry, headNom).value.stages;
      (n as real - 1.0) * entry.headPoints[i] <= headNom < n as real * entry.headPoints[i]
    ensures 0.0 <= headNom ==> EntryStages(key, entry, headNom).value.stages >= 1
  {
    HeadFromFirstRatePoint(key, entry, headNom, i);
    var h := entry.headPoints[i];
    var q := FloorDiv(headNom, h);
    if 0.0 <= headNom {
      PositiveFactor(q as real + 1.0, h);
    }
  }

  /** The worked case: nominal rate 50 with rate points [10, 30, 50] and head
      points [5, 8, 12]; a nominal head of 30 gives a per-stage head of 12
      and 30 // 12 + 1 = 3 stages. */
  lemma WorkedExample()
    ensures SelectPump([("ESP-50", EspEntry(50.0, [10.0, 30.0, 50.0], [5.0, 8.0, 12.0]))], 50.0, 30.0)
      == Ok(PumpSelection("ESP-50", 3))
  {
    var entry := EspEntry(50.0, [10.0, 30.0, 50.0], [5.0, 8.0, 12.0]);
    assert TruncateToInt(50.0) == 50;
    assert IndexOf(entry.ratePoints, 50.0) == Some(2);
    assert FloorDiv(30.0, 12.0) == 2;
  }
}
