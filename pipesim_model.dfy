/** The model builder (`__define_model` and `make_pipesim_model` in
    pipesim_model.py): a fixed, ordered sequence of calls against a simulator
    session that creates a well model — well, tubing, casing, trajectory,
    black-oil fluid, completion and, for wells lifted by an ESP, the pump —
    and persists it. The calls are specified by BuildCalls; the lemmas below
    state the order, the derived parameter values and the pump branch. */
module PipesimModel {
  import opened Wrappers
  import opened Engine
  import opened EspCatalog

  /** The artificial-lift type that marks a well lifted by an ESP. */
  const EspMarker: string := "ЭЦН"

  /** The factor the builder multiplies some pressures by (atm to bar). */
  const AtmToBar: real := 1.01325

  const TubingWall: real := 5.5
  const CasingWall: real := 8.5
  const PipeRoughness: real := 0.001
  const GasSpecificGravityValue: real := 0.7
  const FluidName: string := "Black Oil"
  const CompletionName: string := "Vert Comp 1"

  /** The values of a well record the builder reads, already typed. */
  datatype WellData = WellData(
    wellName: string,
    alType: string,
    dCas: real, dTub: real,
    hPerf: real, extHPerf: real, hTub: real, extHTub: real,
    rateNom: real, headNom: real, freq: real,
    rp: real, wct: real, gammaOil: real, gammaWat: real,
    bob: real, pb: real, tRes: real, rsb: real, muob: real,
    pRes: real, pi: real)

  predicate IsEsp(w: WellData) {
    w.alType == EspMarker
  }

  /** Creating a model: create it, save and close it so that the metric unit
      system sticks, and open it again. */
  function DefineModelCalls(path: string): seq<Call> {
    [NewModel(path, Metric, true), SaveModel, CloseModel, OpenModel(path, Metric)]
  }

  function WellParams(): ParamMap {
    map[SurveyType := Str("TwoDimensional")]
  }

  function TubingParams(w: WellData): ParamMap {
    map[
      TopMeasuredDepth := Num(0.0),
      Length := Num(w.hTub),
      InnerDiameter := Num(w.dTub - 2.0 * TubingWall),
      Roughness := Num(PipeRoughness),
      WallThickness := Num(TubingWall)]
  }

  function CasingParams(w: WellData): ParamMap {
    map[
      TopMeasuredDepth := Num(0.0),
      Length := Num(w.hPerf),
      InnerDiameter := Num(w.dCas),
      Roughness := Num(PipeRoughness),
      WallThickness := Num(CasingWall)]
  }

  /** True vertical depths of the three survey points. */
  function TrajectoryTvd(w: WellData): seq<real> {
    [0.0, w.hTub - w.extHTub, w.hPerf - w.extHPerf]
  }

  /** Measured depths of the three survey points. */
  function TrajectoryMd(w: WellData): seq<real> {
    [0.0, w.hTub, w.hPerf]
  }

  function FluidParams(w: WellData): ParamMap {
    map[
      Gor := Num(w.rp),
      WaterCut := Num(w.wct),
      UseDeadOilDensity := Flag(true),
      DeadOilDensity := Num(w.gammaOil * 1000.0),
      WaterSpecificGravity := Num(w.gammaWat),
      GasSpecificGravity := Num(GasSpecificGravityValue),
      OfvfValue := Num(w.bob),
      OfvfPressure := Num(w.pb * AtmToBar),
      OfvfTemperature := Num(w.tRes),
      SatGasValue := Num(w.rsb),
      SatGasPressure := Num(w.pb * AtmToBar),
      SatGasTemperature := Num(w.tRes),
      ViscosityValue := Num(w.muob),
      ViscosityTemperature := Num(w.tRes),
      ViscosityPressure := Num(w.pb),
      CalibrationViscosityCorrelation := Str("BeggsAndRobinson"),
      LiveOilViscosityCorrelation := Str("BeggsAndRobinson"),
      SolutionGasCorrelation := Str("Standing")]
  }

  function CompletionParams(w: WellData): ParamMap {
    map[
      TopMeasuredDepth := Num(w.hPerf),
      FluidEntryType := Const(SinglePointEntry),
      GeometryProfileType := Const(Vertical),
      IprModel := Const(PiModel),
      ReservoirPressure := Num(w.pRes * AtmToBar),
      LiquidPi := Num(w.pi),
      ReservoirTemperature := Num(w.tRes),
      AssociatedBlackOilFluid := Str(FluidName),
      UseVogelBelowBubblePoint := Flag(true)]
  }

  function EspParams(w: WellData, espId: string): ParamMap {
    map[
      TopMeasuredDepth := Num(w.hTub),
      OperatingFrequency := Num(w.freq),
      Manufacturer := Str("Unifloc"),
      PumpModel := Str(espId)]
  }

  /** The component calls every well gets, after the model is opened. */
  function ComponentCalls(w: WellData): seq<Call> {
    [ Add(Well, w.wellName, None, WellParams()),
      Add(Tubing, "Tubing", Some(w.wellName), TubingParams(w)),
      Add(Casing, "Casing", Some(w.wellName), CasingParams(w)),
      SetTrajectory(w.wellName, TrajectoryTvd(w), TrajectoryMd(w)),
      Add(BlackOilFluid, FluidName, None, FluidParams(w)),
      Add(Completion, CompletionName, Some(w.wellName), CompletionParams(w)) ]
  }

  /** The pump is added first and its stage count set by a separate call. */
  function EspCalls(w: WellData, sel: PumpSelection): seq<Call> {
    [ Add(Esp, "Esp", Some(w.wellName), EspParams(w, sel.espId)),
      SetValue(w.wellName, NumberStages, Num(sel.stages as real)) ]
  }

  /** Every call the builder makes, in order. A failed pump selection aborts
      the build after the completion, before anything is saved. */
  function BuildCalls(w: WellData, path: string, catalog: Catalog): (calls: seq<Call>)
    ensures DefineModelCalls(path) + ComponentCalls(w) <= calls
    ensures calls[|calls| - 1] == CloseModel <==> BuildOutcome(w, catalog).Pass?
  {
    var setup := DefineModelCalls(path) + ComponentCalls(w);
    if !IsEsp(w) then setup + [SaveModel, CloseModel]
    else
      match SelectPump(catalog, w.rateNom, w.headNom)
      case Ok(sel) => setup + EspCalls(w, sel) + [SaveModel, CloseModel]
      case Err(_) => setup
  }

  /** Whether the build completes, and if not, why. */
  function BuildOutcome(w: WellData, catalog: Catalog): (r: Outcome<PumpError>)
    ensures !IsEsp(w) ==> r == Pass
    ensures r.Fail? ==> SelectPump(catalog, w.rateNom, w.headNom) == Err(r.error)
    ensures IsEsp(w) && SelectPump(catalog, w.rateNom, w.headNom).Err? ==>
      r == Fail(SelectPump(catalog, w.rateNom, w.headNom).error)
  {
    if !IsEsp(w) then Pass
    else
      match SelectPump(catalog, w.rateNom, w.headNom)
      case Ok(_) => Pass
      case Err(e) => Fail(e)
  }

  /** Creates a fresh model at `path` and reopens it in metric units. */
  method DefineModel(session: Session, path: string)
    modifies session
    ensures session.log == old(session.log) + DefineModelCalls(path)
  {
    session.New(path, Metric, true);
    session.Save();
    session.Close();
    session.Open(path, Metric);
  }

  /** Adds the well and its tubing, casing, trajectory, fluid and completion. */
  method AddComponents(session: Session, w: WellData)
    modifies session
    ensures session.log == old(session.log) + ComponentCalls(w)
  {
    session.AddComponent(Well, w.wellName, None, WellParams());
    session.AddComponent(Tubing, "Tubing", Some(w.wellName), TubingParams(w));
    session.AddComponent(Casing, "Casing", Some(w.wellName), CasingParams(w));
    session.SetWellTrajectory(w.wellName, TrajectoryTvd(w), TrajectoryMd(w));
    session.AddComponent(BlackOilFluid, FluidName, None, FluidParams(w));
    session.AddComponent(Completion, CompletionName, Some(w.wellName), CompletionParams(w));
  }

  /** Builds the model of one well at `path`; the pump is chosen from `catalog`. */
  method MakePipesimModel(session: Session, w: WellData, path: string, catalog: Catalog)
    returns (outcome: Outcome<PumpError>)
    modifies session
    ensures session.log == old(session.log) + BuildCalls(w, path, catalog)
    ensures outcome == BuildOutcome(w, catalog)
  {
    DefineModel(session, path);
    AddComponents(session, w);
    ghost var setup := old(session.log) + DefineModelCalls(path) + ComponentCalls(w);
    assert session.log == setup;
    if w.alType == EspMarker {
      var selection := GetEspModelStages(catalog, w.rateNom, w.headNom);
      if selection.Err? {
        assert BuildCalls(w, path, catalog) == DefineModelCalls(path) + ComponentCalls(w);
        return Fail(selection.error);
      }
      var sel := selection.value;
      session.AddComponent(Esp, "Esp", Some(w.wellName), EspParams(w, sel.espId));
      session.SetParameter(w.wellName, NumberStages, Num(sel.stages as real));
      assert session.log == setup + EspCalls(w, sel);
      assert BuildCalls(w, path, catalog) == DefineModelCalls(path) + ComponentCalls(w) + EspCalls(w, sel) + [SaveModel, CloseModel];
    } else {
      assert BuildCalls(w, path, catalog) == DefineModelCalls(path) + ComponentCalls(w) + [SaveModel, CloseModel];
    }
    session.Save();
    session.Close();
    outcome := Pass;
  }

  /** The kind of a call, without its arguments. */
  datatype CallKind =
    | NewKind | OpenKind | SaveKind | CloseKind
    | AddKind(component: Component) | TrajectoryKind | SetValueKind(param: Param) | RunKind

  function KindOf(c: Call): CallKind {
    match c
    case NewModel(_, _, _) => NewKind
    case OpenModel(_, _) => OpenKind
    case SaveModel => SaveKind
    case CloseModel => CloseKind
    case Add(component, _, _, _) => AddKind(component)
    case SetTrajectory(_, _, _) => TrajectoryKind
    case SetValue(_, param, _) => SetValueKind(param)
    case RunPtProfile(_, _) => RunKind
  }

  function Kinds(calls: seq<Call>): (ks: seq<CallKind>)
    ensures |ks| == |calls|
    ensures forall i :: 0 <= i < |calls| ==> ks[i] == KindOf(calls[i])
  {
    if calls == [] then [] else [KindOf(calls[0])] + Kinds(calls[1..])
  }

  lemma KindsAppend(a: seq<Call>, b: seq<Call>)
    ensures Kinds(a + b) == Kinds(a) + Kinds(b)
  {
  }

  /** A call that belongs to the pump branch. */
  predicate IsPumpCall(c: Call) {
    (c.Add? && c.component == Esp) || c.SetValue?
  }

  /** The call order: create, save, close, reopen; then well, tubing, casing,
      trajectory, fluid, completion; then the pump and its stage count only
      for an ESP well whose pump was found; then save and close, unless the
      pump search failed. */
  lemma CallOrder(w: WellData, path: string, catalog: Catalog)
    ensures !IsEsp(w) ==>
      (Kinds(BuildCalls(w, path, catalog)) ==
         [NewKind, SaveKind, CloseKind, OpenKind,
          AddKind(Well), AddKind(Tubing), AddKind(Casing), TrajectoryKind,
          AddKind(BlackOilFluid), AddKind(Completion), SaveKind, CloseKind])
    ensures IsEsp(w) && SelectPump(catalog, w.rateNom, w.headNom).Ok? ==>
      (Kinds(BuildCalls(w, path, catalog)) ==
         [NewKind, SaveKind, CloseKind, OpenKind,
          AddKind(Well), AddKind(Tubing), AddKind(Casing), TrajectoryKind,
          AddKind(BlackOilFluid), AddKind(Completion),
          AddKind(Esp), SetValueKind(NumberStages), SaveKind, CloseKind])
    ensures IsEsp(w) && SelectPump(catalog, w.rateNom, w.headNom).Err? ==>
      (Kinds(BuildCalls(w, path, catalog)) ==
         [NewKind, SaveKind, CloseKind, OpenKind,
          AddKind(Well), AddKind(Tubing), AddKind(Casing), TrajectoryKind,
          AddKind(BlackOilFluid), AddKind(Completion)])
  {
    var selection := SelectPump(catalog, w.rateNom, w.headNom);
    if !IsEsp(w) {
      PlainBuildKinds(w, path, catalog);
    } else if selection.Ok? {
      assert BuildCalls(w, path, catalog) ==
        DefineModelCalls(path) + ComponentCalls(w) + EspCalls(w, selection.value) + [SaveModel, CloseModel];
      PumpBuildKinds(w, path, selection.value);
    } else {
      assert BuildCalls(w, path, catalog) == DefineModelCalls(path) + ComponentCalls(w);
      SetupKinds(w, path);
    }
  }

  lemma PlainBuildKinds(w: WellData, path: string, catalog: Catalog)
    requires !IsEsp(w)
    ensures Kinds(BuildCalls(w, path, catalog)) ==
      [NewKind, SaveKind, CloseKind, OpenKind,
       AddKind(Well), AddKind(Tubing), AddKind(Casing), TrajectoryKind,
       AddKind(BlackOilFluid), AddKind(Completion), SaveKind, CloseKind]
  {
    var setup, tail := DefineModelCalls(path) + ComponentCalls(w), [SaveModel, CloseModel];
    assert BuildCalls(w, path, catalog) == setup + tail;
    SetupKinds(w, path);
    assert Kinds(tail) == [SaveKind, CloseKind];
    KindsAppend(setup, tail);
  }

  lemma PumpBuildKinds(w: WellData, path: string, sel: PumpSelection)
    ensures Kinds(DefineModelCalls(path) + ComponentCalls(w) + EspCalls(w, sel) + [SaveModel, CloseModel]) ==
      [NewKind, SaveKind, CloseKind, OpenKind,
       AddKind(Well), AddKind(Tubing), AddKind(Casing), TrajectoryKind,
       AddKind(BlackOilFluid), AddKind(Completion),
       AddKind(Esp), SetValueKind(NumberStages), SaveKind, CloseKind]
  {
    var setup, pump, tail := DefineModelCalls(path) + ComponentCalls(w), EspCalls(w, sel), [SaveModel, CloseModel];
    SetupKinds(w, path);
    assert Kinds(pump) == [AddKind(Esp), SetValueKind(NumberStages)];
    assert Kinds(tail) == [SaveKind, CloseKind];
    KindsAppend(setup, pump);
    KindsAppend(setup + pump, tail);
  }

  lemma SetupKinds(w: WellData, path: string)
    ensures Kinds(DefineModelCalls(path) + ComponentCalls(w)) ==
      [NewKind, SaveKind, CloseKind, OpenKind,
       AddKind(Well), AddKind(Tubing), AddKind(Casing), TrajectoryKind,
       AddKind(BlackOilFluid), AddKind(Completion)]
  {
    KindsAppend(DefineModelCalls(path), ComponentCalls(w));
    assert Kinds(DefineModelCalls(path)) == [NewKind, SaveKind, CloseKind, OpenKind];
    ComponentKinds(w);
  }

  lemma ComponentKinds(w: WellData)
    ensures Kinds(ComponentCalls(w)) == [AddKind(Well), AddKind(Tubing), AddKind(Casing), TrajectoryKind,
       AddKind(BlackOilFluid), AddKind(Completion)]
  {
    var ks := Kinds(ComponentCalls(w));
    assert |ks| == 6;
    assert ks[0] == AddKind(Well) && ks[1] == AddKind(Tubing) && ks[2] == AddKind(Casing);
    assert ks[3] == TrajectoryKind && ks[4] == AddKind(BlackOilFluid) && ks[5] == AddKind(Completion);
  }

  /** The pump branch: a pump call is made exactly when the well is an ESP
      well and a pump was selected. */
  lemma PumpCallsIff(w: WellData, path: string, catalog: Catalog)
    ensures (exists i :: 0 <= i < |BuildCalls(w, path, catalog)| && IsPumpCall(BuildCalls(w, path, catalog)[i]))
      <==> IsEsp(w) && SelectPump(catalog, w.rateNom, w.headNom).Ok?
  {
    var calls := BuildCalls(w, path, catalog);
    if IsEsp(w) && SelectPump(catalog, w.rateNom, w.headNom).Ok? {
      assert IsPumpCall(calls[10]);
    } else {
      var setup := DefineModelCalls(path) + ComponentCalls(w);
      assert forall i :: 0 <= i < |setup| ==> !IsPumpCall(setup[i]);
      if IsEsp(w) {
        assert calls == setup;
      } else {
        assert calls == setup + [SaveModel, CloseModel];
      }
    }
  }

  /** The pump call carries the selected catalog key as the pump model and
      is placed at the tubing shoe; the following call sets the selected
      stage count on the well. */
  lemma PumpCallsCarrySelection(w: WellData, path: string, catalog: Catalog)
    requires IsEsp(w) && SelectPump(catalog, w.rateNom, w.headNom).Ok?
    ensures var calls := BuildCalls(w, path, catalog);
      var sel := SelectPump(catalog, w.rateNom, w.headNom).value;
      |calls| == 14 &&
      calls[10].Add? && calls[10].component == Esp && calls[10].context == Some(w.wellName) &&
      calls[10].params[PumpModel] == Str(sel.espId) &&
      calls[10].params[TopMeasuredDepth] == Num(w.hTub) &&
      calls[10].params[OperatingFrequency] == Num(w.freq) &&
      calls[11] == SetValue(w.wellName, NumberStages, Num(sel.stages as real))
  {
  }

  /** When the pump search fails the model is left half built: after it is
      reopened nothing saves or closes it, and the last call is the
      completion. */
  lemma FailedSelectionLeavesModelOpen(w: WellData, path: string, catalog: Catalog)
    requires IsEsp(w) && SelectPump(catalog, w.rateNom, w.headNom).Err?
    ensures var calls := BuildCalls(w, path, catalog);
      |calls| == 10 && calls[9].Add? && calls[9].component == Completion &&
      forall i :: 4 <= i < |calls| ==> !calls[i].SaveModel? && !calls[i].CloseModel?
  {
  }

  /** Tubing and casing geometry: the tubing's inner diameter is its outer
      diameter less two walls of 5.5; the casing's inner diameter is the
      record's casing diameter; both start at the surface, share the
      roughness, and reach the tubing shoe and the perforations. */
  lemma PipeGeometry(w: WellData, path: string, catalog: Catalog)
    ensures var calls := BuildCalls(w, path, catalog);
      var tubing := calls[5].params;
      var casing := calls[6].params;
      calls[5].Add? && calls[5].component == Tubing && calls[5].context == Some(w.wellName) &&
      calls[6].Add? && calls[6].component == Casing && calls[6].context == Some(w.wellName) &&
      tubing[InnerDiameter].x + 2.0 * tubing[WallThickness].x == w.dTub &&
      tubing[WallThickness] == Num(5.5) &&
      casing[InnerDiameter] == Num(w.dCas) && casing[WallThickness] == Num(8.5) &&
      tubing[Roughness] == casing[Roughness] == Num(0.001) &&
      tubing[TopMeasuredDepth] == casing[TopMeasuredDepth] == Num(0.0) &&
      tubing[Length] == Num(w.hTub) && casing[Length] == Num(w.hPerf)
  {
  }

  /** The trajectory has three points, surface, tubing shoe and
      perforations; measured and vertical depth lists have equal length, both
      start at 0, and at each point the measured depth exceeds the vertical
      depth by the record's elongation. */
  lemma TrajectoryShape(w: WellData, path: string, catalog: Catalog)
    ensures var calls := BuildCalls(w, path, catalog);
      var tvd := calls[7].tvd;
      var md := calls[7].md;
      calls[7].SetTrajectory? && calls[7].wellContext == w.wellName &&
      |tvd| == |md| == 3 && tvd[0] == md[0] == 0.0 &&
      md == [0.0, w.hTub, w.hPerf] &&
      md[1] - tvd[1] == w.extHTub && md[2] - tvd[2] == w.extHPerf
  {
  }

  /** Pressure conversion is asymmetric: the bubble-point pressure of the
      OFVF and saturated-gas calibrations and the reservoir pressure of the
      completion are multiplied by 1.01325, but the viscosity calibration gets
      the bubble-point pressure as given, so for any non-zero bubble-point
      pressure the two calibration pressures differ. */
  lemma PressureConversion(w: WellData, path: string, catalog: Catalog)
    ensures var calls := BuildCalls(w, path, catalog);
      var fluid := calls[8].params;
      var completion := calls[9].params;
      calls[8].Add? && calls[8].component == BlackOilFluid &&
      calls[9].Add? && calls[9].component == Completion &&
      fluid[OfvfPressure] == fluid[SatGasPressure] == Num(w.pb * 1.01325) &&
      fluid[ViscosityPressure] == Num(w.pb) &&
      completion[ReservoirPressure] == Num(w.pRes * 1.01325) &&
      (w.pb != 0.0 ==> fluid[OfvfPressure] != fluid[ViscosityPressure])
  {
  }

  /** Every component other than the well and the fluid is attached to the
      well by its name, as is the trajectory, and the completion refers to
      the fluid by the fluid's name. */
  lemma ComponentsReferToWell(w: WellData, path: string, catalog: Catalog)
    ensures var calls := BuildCalls(w, path, catalog);
      (forall i :: 0 <= i < |calls| && calls[i].Add? && calls[i].component != Well && calls[i].component != BlackOilFluid
        ==> calls[i].context == Some(w.wellName)) &&
      (forall i :: 0 <= i < |calls| && calls[i].SetTrajectory? ==> calls[i].wellContext == w.wellName) &&
      calls[4] == Add(Well, w.wellName, None, WellParams()) &&
      calls[9].params[AssociatedBlackOilFluid] == Str(calls[8].name)
  {
  }
}
