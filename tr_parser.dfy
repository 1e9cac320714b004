/** The technological-regime report parser (tr_parser.py): after a fixed
    block of header rows, every row of the sheet becomes one well record whose
    33 values are read from fixed column offsets, unchanged and unfiltered. */
module TrParser {
  import opened Wrappers

  /** One spreadsheet cell as read from the sheet. Blank is an empty cell (NaN). */
  datatype Cell = Blank | Number(x: real) | Text(s: string)

  type Row = seq<Cell>

  /** The 33 keys of a well record, in the order the parser writes them. */
  datatype Key =
    | WellName | Field | DCas | DTub | DCh | HPerf | ExtHPerf | AlType | EspType
    | RateNom | HeadNom | Freq | KSep | HTub | PWh | PFl | PRes | PIn | PWf
    | QLiq | Wct | Rp | Pb | Rsb | TRes | Muob | Bob | GammaOil | GammaWat
    | ExtHTub | Regime | WorkType | Pi

  /** A well record: the dictionary the parser builds for one row, one
      field per key. */
  datatype WellRecord = WellRecord(
    wellName: Cell,
    field: Cell,
    dCas: Cell,
    dTub: Cell,
    dCh: Cell,
    hPerf: Cell,
    extHPerf: Cell,
    alType: Cell,
    espType: Cell,
    rateNom: Cell,
    headNom: Cell,
    freq: Cell,
    kSep: Cell,
    hTub: Cell,
    pWh: Cell,
    pFl: Cell,
    pRes: Cell,
    pIn: Cell,
    pWf: Cell,
    qLiq: Cell,
    wct: Cell,
    rp: Cell,
    pb: Cell,
    rsb: Cell,
    tRes: Cell,
    muob: Cell,
    bob: Cell,
    gammaOil: Cell,
    gammaWat: Cell,
    extHTub: Cell,
    regime: Cell,
    workType: Cell,
    pi: Cell)

  /** The value a record holds under a key. */
  function Get(r: WellRecord, k: Key): Cell {
    match k
    case WellName => r.wellName
    case Field => r.field
    case DCas => r.dCas
    case DTub => r.dTub
    case DCh => r.dCh
    case HPerf => r.hPerf
    case ExtHPerf => r.extHPerf
    case AlType => r.alType
    case EspType => r.espType
    case RateNom => r.rateNom
    case HeadNom => r.headNom
    case Freq => r.freq
    case KSep => r.kSep
    case HTub => r.hTub
    case PWh => r.pWh
    case PFl => r.pFl
    case PRes => r.pRes
    case PIn => r.pIn
    case PWf => r.pWf
    case QLiq => r.qLiq
    case Wct => r.wct
    case Rp => r.rp
    case Pb => r.pb
    case Rsb => r.rsb
    case TRes => r.tRes
    case Muob => r.muob
    case Bob => r.bob
    case GammaOil => r.gammaOil
    case GammaWat => r.gammaWat
    case ExtHTub => r.extHTub
    case Regime => r.regime
    case WorkType => r.workType
    case Pi => r.pi
  }

  /** Number of leading rows that are headers, not data. */
  const HeaderRows: nat := 10

  /** A row must have this many cells for every offset to exist. */
  const RowWidth: nat := 174

  /** The zero-based column each key is read from. */
  function ColumnOf(k: Key): nat {
    match k
    case WellName => 4
    case Field => 2
    case DCas => 9
    case DTub => 10
    case DCh => 11
    case HPerf => 12
    case ExtHPerf => 13
    case AlType => 14
    case EspType => 15
    case RateNom => 16
    case HeadNom => 17
    case Freq => 18
    case KSep => 19
    case HTub => 20
    case PWh => 21
    case PFl => 22
    case PRes => 24
    case PIn => 27
    case PWf => 28
    case QLiq => 30
    case Wct => 31
    case Rp => 33
    case Pb => 35
    case Rsb => 36
    case TRes => 37
    case Muob => 42
    case Bob => 45
    case GammaOil => 46
    case GammaWat => 47
    case ExtHTub => 161
    case Regime => 173
    case WorkType => 120
    case Pi => 51
  }

  /** The dictionary key the parser writes for each record key. */
  function KeyName(k: Key): string {
    match k
    case WellName => "well_name"
    case Field => "field"
    case DCas => "d_cas"
    case DTub => "d_tub"
    case DCh => "d_ch"
    case HPerf => "h_perf"
    case ExtHPerf => "ext_h_perf"
    case AlType => "al_type"
    case EspType => "esp_type"
    case RateNom => "rate_nom"
    case HeadNom => "head_nom"
    case Freq => "freq"
    case KSep => "k_sep"
    case HTub => "h_tub"
    case PWh => "p_wh"
    case PFl => "p_fl"
    case PRes => "p_res"
    case PIn => "p_in"
    case PWf => "p_wf"
    case QLiq => "q_liq"
    case Wct => "wct"
    case Rp => "rp"
    case Pb => "pb"
    case Rsb => "rsb"
    case TRes => "t_res"
    case Muob => "muob"
    case Bob => "bob"
    case GammaOil => "gamma_oil"
    case GammaWat => "gamma_wat"
    case ExtHTub => "ext_h_tub"
    case Regime => "regime"
    case WorkType => "work_type"
    case Pi => "pi"
  }

  /** The record key written under a dictionary key name, if any: the name
      table read backwards. */
  function KeyNamed(name: string): Option<Key> {
    match name
    case "well_name" => Some(WellName)
    case "field" => Some(Field)
    case "d_cas" => Some(DCas)
    case "d_tub" => Some(DTub)
    case "d_ch" => Some(DCh)
    case "h_perf" => Some(HPerf)
    case "ext_h_perf" => Some(ExtHPerf)
    case "al_type" => Some(AlType)
    case "esp_type" => Some(EspType)
    case "rate_nom" => Some(RateNom)
    case "head_nom" => Some(HeadNom)
    case "freq" => Some(Freq)
    case "k_sep" => Some(KSep)
    case "h_tub" => Some(HTub)
    case "p_wh" => Some(PWh)
    case "p_fl" => Some(PFl)
    case "p_res" => Some(PRes)
    case "p_in" => Some(PIn)
    case "p_wf" => Some(PWf)
    case "q_liq" => Some(QLiq)
    case "wct" => Some(Wct)
    case "rp" => Some(Rp)
    case "pb" => Some(Pb)
    case "rsb" => Some(Rsb)
    case "t_res" => Some(TRes)
    case "muob" => Some(Muob)
    case "bob" => Some(Bob)
    case "gamma_oil" => Some(GammaOil)
    case "gamma_wat" => Some(GammaWat)
    case "ext_h_tub" => Some(ExtHTub)
    case "regime" => Some(Regime)
    case "work_type" => Some(WorkType)
    case "pi" => Some(Pi)
    case _ => None
  }

  /** The key names are distinct: reading back the name of a key gives that
      key. */
  lemma KeyNameRoundTrip(k: Key)
    ensures KeyNamed(KeyName(k)) == Some(k)
  {
    match k
    case WellName =>
    case Field =>
    case DCas =>
    case DTub =>
    case DCh =>
    case HPerf =>
    case ExtHPerf =>
    case AlType =>
    case EspType =>
    case RateNom =>
    case HeadNom =>
    case Freq =>
    case KSep =>
    case HTub =>
    case PWh =>
    case PFl =>
    case PRes =>
    case PIn =>
    case PWf =>
    case QLiq =>
    case Wct =>
    case Rp =>
    case Pb =>
    case Rsb =>
    case TRes =>
    case Muob =>
    case Bob =>
    case GammaOil =>
    case GammaWat =>
    case ExtHTub =>
    case Regime =>
    case WorkType =>
    case Pi =>
  }

  /** The key read from a column, if any: the column table read backwards. */
  function KeyAtColumn(col: nat): Option<Key> {
    match col
    case 4 => Some(WellName)
    case 2 => Some(Field)
    case 9 => Some(DCas)
    case 10 => Some(DTub)
    case 11 => Some(DCh)
    case 12 => Some(HPerf)
    case 13 => Some(ExtHPerf)
    case 14 => Some(AlType)
    case 15 => Some(EspType)
    case 16 => Some(RateNom)
    case 17 => Some(HeadNom)
    case 18 => Some(Freq)
    case 19 => Some(KSep)
    case 20 => Some(HTub)
    case 21 => Some(PWh)
    case 22 => Some(PFl)
    case 24 => Some(PRes)
    case 27 => Some(PIn)
    case 28 => Some(PWf)
    case 30 => Some(QLiq)
    case 31 => Some(Wct)
    case 33 => Some(Rp)
    case 35 => Some(Pb)
    case 36 => Some(Rsb)
    case 37 => Some(TRes)
    case 42 => Some(Muob)
    case 45 => Some(Bob)
    case 46 => Some(GammaOil)
    case 47 => Some(GammaWat)
    case 161 => Some(ExtHTub)
    case 173 => Some(Regime)
    case 120 => Some(WorkType)
    case 51 => Some(Pi)
    case _ => None
  }

  /** Every column read lies below RowWidth, the highest being the regime
      column. */
  lemma ColumnsBelowWidth(k: Key)
    ensures ColumnOf(k) < RowWidth
    ensures ColumnOf(Regime) == RowWidth - 1
  {
  }

  /** The column table is invertible: reading back the column of a key gives
      that key. */
  lemma ColumnRoundTrip(k: Key)
    ensures KeyAtColumn(ColumnOf(k)) == Some(k)
  {
    match k
    case WellName =>
    case Field =>
    case DCas =>
    case DTub =>
    case DCh =>
    case HPerf =>
    case ExtHPerf =>
    case AlType =>
    case EspType =>
    case RateNom =>
    case HeadNom =>
    case Freq =>
    case KSep =>
    case HTub =>
    case PWh =>
    case PFl =>
    case PRes =>
    case PIn =>
    case PWf =>
    case QLiq =>
    case Wct =>
    case Rp =>
    case Pb =>
    case Rsb =>
    case TRes =>
    case Muob =>
    case Bob =>
    case GammaOil =>
    case GammaWat =>
    case ExtHTub =>
    case Regime =>
    case WorkType =>
    case Pi =>
  }

  /** No two keys read the same column. */
  lemma ColumnsDistinct(k1: Key, k2: Key)
    ensures ColumnOf(k1) == ColumnOf(k2) ==> k1 == k2
  {
    ColumnRoundTrip(k1);
    ColumnRoundTrip(k2);
  }

  /** No two keys share a dictionary key name. */
  lemma KeyNamesDistinct(k1: Key, k2: Key)
    ensures KeyName(k1) == KeyName(k2) ==> k1 == k2
  {
    KeyNameRoundTrip(k1);
    KeyNameRoundTrip(k2);
  }

  /** The record built from one data row: each field is the cell at its
      key's column. */
  function RowToRecord(row: Row): (r: WellRecord)
    requires |row| >= RowWidth
    ensures forall k :: ColumnOf(k) < |row| && Get(r, k) == row[ColumnOf(k)]
  {
    WellRecord(
      row[4],
      row[2],
      row[9],
      row[10],
      row[11],
      row[12],
      row[13],
      row[14],
      row[15],
      row[16],
      row[17],
      row[18],
      row[19],
      row[20],
      row[21],
      row[22],
      row[24],
      row[27],
      row[28],
      row[30],
      row[31],
      row[33],
      row[35],
      row[36],
      row[37],
      row[42],
      row[45],
      row[46],
      row[47],
      row[161],
      row[173],
      row[120],
      row[51])
  }

  /** A column that no key reads has no effect on the record: overwriting it
      leaves the record as it was. */
  lemma UnreadColumnIgnored(row: Row, col: nat, v: Cell)
    requires |row| >= RowWidth && col < |row|
    requires KeyAtColumn(col) == None
    ensures RowToRecord(row[col := v]) == RowToRecord(row)
  {
  }

  /** Overwriting the column of a key changes exactly that key's value. */
  lemma ReadColumnCaptured(row: Row, k: Key, v: Cell)
    requires |row| >= RowWidth
    ensures ColumnOf(k) < |row|
    ensures Get(RowToRecord(row[ColumnOf(k) := v]), k) == v
    ensures forall k' :: k' != k ==> Get(RowToRecord(row[ColumnOf(k) := v]), k') == Get(RowToRecord(row), k')
  {
    var row' := row[ColumnOf(k) := v];
    var before, after := RowToRecord(row), RowToRecord(row');
    forall k' | k' != k
      ensures Get(after, k') == Get(before, k')
    {
      ColumnsDistinct(k, k');
      assert row'[ColumnOf(k')] == row[ColumnOf(k')];
    }
  }

  /** A blank row is not dropped: it gives a record whose every value is blank. */
  lemma BlankRowGivesBlankRecord(row: Row)
    requires |row| >= RowWidth
    requires forall i :: 0 <= i < |row| ==> row[i] == Blank
    ensures forall k :: Get(RowToRecord(row), k) == Blank
  {
    forall k ensures Get(RowToRecord(row), k) == Blank {
    }
  }

  /** Why parsing a sheet fails. */
  datatype ParseError =
    /** The data row at this index (counted after the header rows) lacks a
        column the parser reads. */
    | MissingColumn(dataRow: nat)

  /** The rows of a sheet that carry data: everything after the header block. */
  function DataRows(sheet: seq<Row>): (data: seq<Row>)
    ensures |sheet| >= HeaderRows ==> |data| == |sheet| - HeaderRows
    ensures |sheet| <= HeaderRows ==> data == []
    ensures forall i :: 0 <= i < |data| ==> data[i] == sheet[HeaderRows + i]
  {
    if |sheet| <= HeaderRows then [] else sheet[HeaderRows..]
  }

  /** Parses a sheet: one record per data row, in row order, with no row
      filtered; fails on the first data row too short to hold every column. */
  method ParseTr(sheet: seq<Row>) returns (result: Result<seq<WellRecord>, ParseError>)
    ensures result.Err? <==> exists i :: 0 <= i < |DataRows(sheet)| && |DataRows(sheet)[i]| < RowWidth
    ensures result.Err? ==> var i := result.error.dataRow;
      i < |DataRows(sheet)| && |DataRows(sheet)[i]| < RowWidth &&
      forall j :: 0 <= j < i ==> |DataRows(sheet)[j]| >= RowWidth
    ensures result.Ok? ==> |result.value| == |DataRows(sheet)|
    ensures result.Ok? ==> forall i :: 0 <= i < |result.value| ==>
      |sheet[HeaderRows + i]| >= RowWidth && result.value[i] == RowToRecord(sheet[HeaderRows + i])
  {
    var data := DataRows(sheet);
    var records: seq<WellRecord> := [];
    var i := 0;
    while i < |data|
      invariant 0 <= i <= |data|
      invariant |records| == i
      invariant forall j :: 0 <= j < i ==> |data[j]| >= RowWidth && records[j] == RowToRecord(data[j])
    {
      var row := data[i];
      if |row| < RowWidth {
        return Err(MissingColumn(i));
      }
      records := records + [RowToRecord(row)];
      i := i + 1;
    }
    return Ok(records);
  }
}
