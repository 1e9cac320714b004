/** The simulator's scripting interface as this project sees it: an opaque
    session that records every call made against it, in order. The
    simulator's own semantics (unit handling, file effects, the PT solver)
    are not modelled; the solver is a function the session is created with. */
module Engine {
  import opened Wrappers

  /** The unit system a model is created or opened with. */
  datatype Units = Metric

  /** Kinds of model component the builder adds. */
  datatype Component = Well | Tubing | Casing | BlackOilFluid | Completion | Esp

  /** The engine's enumerated constants that the builder and the runner pass. */
  datatype EngineConstant =
    | SinglePointEntry      // CompletionFluidEntry.SINGLEPOINT
    | Vertical              // Orientation.VERTICAL
    | PiModel               // IPRModels.IPRPIMODEL
    | LiquidFlowRateType    // FlowRateType.LIQUIDFLOWRATE
    | InletPressureVariable // CalculatedVariable.INLETPRESSURE

  /** Parameter names. One name stands for the same-named parameter of every
      component (the tubing's, casing's, completion's and pump's top depth
      are all TopMeasuredDepth); the component of the call tells them apart. */
  datatype Param =
    | SurveyType
    | TopMeasuredDepth | Length | InnerDiameter | Roughness | WallThickness
    | Gor | WaterCut | UseDeadOilDensity | DeadOilDensity
    | WaterSpecificGravity | GasSpecificGravity
    | OfvfValue | OfvfPressure | OfvfTemperature
    | SatGasValue | SatGasPressure | SatGasTemperature
    | ViscosityValue | ViscosityTemperature | ViscosityPressure
    | CalibrationViscosityCorrelation | LiveOilViscosityCorrelation | SolutionGasCorrelation
    | FluidEntryType | GeometryProfileType | IprModel
    | ReservoirPressure | LiquidPi | ReservoirTemperature
    | AssociatedBlackOilFluid | UseVogelBelowBubblePoint
    | OperatingFrequency | Manufacturer | PumpModel | NumberStages
    | OutletPressure | LiquidFlowRate | FlowRateType | CalculatedVariable

  /** A parameter value; Missing is Python's None. */
  datatype Value = Num(x: real) | Str(s: string) | Flag(b: bool) | Const(c: EngineConstant) | Missing

  type ParamMap = map<Param, Value>

  /** Simulation case identifier, as the engine keys its results. */
  type CaseId = string

  /** A table as the engine returns it, kept opaque: column or row name to values. */
  type RawTable = map<string, seq<Value>>

  /** The three result groups of a PT-profile run. */
  datatype SimResults = SimResults(
    system: RawTable,
    node: map<CaseId, RawTable>,
    profile: map<CaseId, RawTable>)

  /** One call against the engine. */
  datatype Call =
    | NewModel(path: string, units: Units, overwrite: bool)
    | OpenModel(path: string, units: Units)
    | SaveModel
    | CloseModel
    | Add(component: Component, name: string, context: Option<string>, params: ParamMap)
    | SetTrajectory(wellContext: string, tvd: seq<real>, md: seq<real>)
    | SetValue(well: string, param: Param, value: Value)
    | RunPtProfile(producer: string, params: ParamMap)

  /** A simulator session. Every operation appends the call it stands for to
      `log` and changes nothing else. */
  class Session {
    var log: seq<Call>
    const simulator: (seq<Call>, string, ParamMap) -> SimResults

    constructor (simulator: (seq<Call>, string, ParamMap) -> SimResults)
      ensures log == [] && this.simulator == simulator
    {
      log := [];
      this.simulator := simulator;
    }

    method New(path: string, units: Units, overwrite: bool)
      modifies this
      ensures log == old(log) + [NewModel(path, units, overwrite)]
    {
      log := log + [NewModel(path, units, overwrite)];
    }

    method Open(path: string, units: Units)
      modifies this
      ensures log == old(log) + [OpenModel(path, units)]
    {
      log := log + [OpenModel(path, units)];
    }

    method Save()
      modifies this
      ensures log == old(log) + [SaveModel]
    {
      log := log + [SaveModel];
    }

    method Close()
      modifies this
      ensures log == old(log) + [CloseModel]
    {
      log := log + [CloseModel];
    }

    method AddComponent(component: Component, name: string, context: Option<string>, params: ParamMap)
      modifies this
      ensures log == old(log) + [Add(component, name, context, params)]
    {
      log := log + [Add(component, name, context, params)];
    }

    method SetWellTrajectory(context: string, tvd: seq<real>, md: seq<real>)
      modifies this
      ensures log == old(log) + [SetTrajectory(context, tvd, md)]
    {
      log := log + [SetTrajectory(context, tvd, md)];
    }

    method SetParameter(well: string, param: Param, value: Value)
      modifies this
      ensures log == old(log) + [SetValue(well, param, value)]
    {
      log := log + [SetValue(well, param, value)];
    }

    /** Runs the PT-profile task; the answer is whatever the simulator gives
        for the session's history so far (which model was opened, and what
        was done to it), the producer and the parameters. */
    method RunProfile(producer: string, params: ParamMap) returns (results: SimResults)
      modifies this
      ensures log == old(log) + [RunPtProfile(producer, params)]
      ensures results == simulator(old(log), producer, params)
    {
      results := simulator(log, producer, params);
      log := log + [RunPtProfile(producer, params)];
    }
  }
}
