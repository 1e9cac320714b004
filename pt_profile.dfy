/** The profile runner (`calc_pt_profile` in pipesim_model.py): resolves the
    run parameters, opens the persisted model, runs the PT-profile task for
    one producer and reshapes the engine's three result groups into tables,
    one per simulation case for the node and profile groups. Tables stay
    opaque: a Frame records the engine table it was built from and the
    orientation it was built with. */
module PtProfile {
  import opened Wrappers
  import opened Engine

  /** How a table is read from a nested mapping: outer keys as rows
      (by index) or as columns. */
  datatype Orientation = ByIndex | ByColumns

  datatype Frame = Frame(source: RawTable, orient: Orientation)

  /** An optional number as the engine receives it: None stays None. */
  function OptionalNum(x: Option<real>): Value {
    match x
    case Some(v) => Num(v)
    case None => Missing
  }

  /** The parameters of a run: the caller's map when one is given (even an
      empty one), verbatim; otherwise the four defaults built from the
      wellhead pressure and the liquid rate. */
  function ResolveParameters(parameters: Option<ParamMap>, pWh: Option<real>, qLiq: Option<real>): (p: ParamMap)
    ensures parameters.Some? ==> p == parameters.value
    ensures parameters.None? ==>
      p.Keys == {OutletPressure, LiquidFlowRate, FlowRateType, CalculatedVariable} &&
      p[OutletPressure] == OptionalNum(pWh) &&
      p[LiquidFlowRate] == OptionalNum(qLiq) &&
      p[FlowRateType] == Const(LiquidFlowRateType) &&
      p[CalculatedVariable] == Const(InletPressureVariable)
  {
    match parameters
    case Some(given) => given
    case None =>
      map[
        OutletPressure := OptionalNum(pWh),
        LiquidFlowRate := OptionalNum(qLiq),
        FlowRateType := Const(LiquidFlowRateType),
        CalculatedVariable := Const(InletPressureVariable)]
  }

  /** One table per case, built with the given orientation, keyed by exactly
      the engine's case identifiers. */
  method ReshapeCases(cases: map<CaseId, RawTable>, orient: Orientation)
    returns (frames: map<CaseId, Frame>)
    ensures frames.Keys == cases.Keys
    ensures forall c :: c in frames ==> frames[c] == Frame(cases[c], orient)
  {
    frames := map[];
    var pending := cases.Keys;
    while pending != {}
      invariant pending <= cases.Keys
      invariant frames.Keys == cases.Keys - pending
      invariant forall c :: c in frames ==> frames[c] == Frame(cases[c], orient)
      decreases pending
    {
      var c :| c in pending;
      frames := frames[c := Frame(cases[c], orient)];
      pending := pending - {c};
    }
  }

  /** The calls a profile run makes: open the model in metric units and run
      the PT-profile task. */
  function ProfileCalls(modelPath: string, modelName: string, params: ParamMap): seq<Call> {
    [OpenModel(modelPath, Metric), RunPtProfile(modelName, params)]
  }

  /** A profile run only reads the model: it never saves it, and it never
      closes it either. */
  lemma ProfileRunLeavesModelOpen(modelPath: string, modelName: string, params: ParamMap)
    ensures forall c :: c in ProfileCalls(modelPath, modelName, params) ==> !c.SaveModel? && !c.CloseModel?
    ensures ProfileCalls(modelPath, modelName, params)[0].OpenModel?
  {
  }

  /** Runs the PT profile of `modelName` in the model at `modelPath`. */
  method CalcPtProfile(session: Session, modelPath: string, modelName: string,
                       parameters: Option<ParamMap>, pWh: Option<real>, qLiq: Option<real>)
    returns (system: Frame, nodal: map<CaseId, Frame>, profile: map<CaseId, Frame>)
    modifies session
    ensures session.log == old(session.log) + ProfileCalls(modelPath, modelName, ResolveParameters(parameters, pWh, qLiq))
    ensures var raw := session.simulator(old(session.log) + [OpenModel(modelPath, Metric)],
                                         modelName, ResolveParameters(parameters, pWh, qLiq));
      system == Frame(raw.system, ByIndex) &&
      nodal.Keys == raw.node.Keys && profile.Keys == raw.profile.Keys &&
      (forall c :: c in nodal ==> nodal[c] == Frame(raw.node[c], ByIndex)) &&
      (forall c :: c in profile ==> profile[c] == Frame(raw.profile[c], ByColumns))
  {
    var params := ResolveParameters(parameters, pWh, qLiq);
    session.Open(modelPath, Metric);
    var results := session.RunProfile(modelName, params);
    system := Frame(results.system, ByIndex);
    nodal := ReshapeCases(results.node, ByIndex);
    profile := ReshapeCases(results.profile, ByColumns);
  }
}
