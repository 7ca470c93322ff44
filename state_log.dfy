/**
 * `StateLog`: the recorder that one simulation run feeds after every trade,
 * and that reduces its records to tables and metrics when the run ends.
 * The pool, the controller and the metric objects are collaborators whose
 * code lies outside this model; the state extractors, the parameter
 * snapshots and `Metric.compute` are supplied as opaque functions.
 */
module StateLogs {
  import opened Wrappers
  import opened Values
  import opened SimModes
  import opened LogTables

  /** The simulated pool, seen through its current observable state. */
  class Pool {
    var state: Value

    constructor(state: Value)
      ensures this.state == state
    {
      this.state := state;
    }
  }

  /** The simulated loan controller, seen through its current observable state. */
  class Controller {
    var state: Value

    constructor(state: Value)
      ensures this.state == state
    {
      this.state := state;
    }
  }

  /**
   * A metric. A pool metric (`PoolMetric`) computes from the pool it is
   * bound to by `set_pool`, which is why `compute` also receives `pool`.
   */
  class Metric {
    const isPoolMetric: bool
    const compute: (Logs, Pool?) -> MetricOutput
    var pool: Pool?

    constructor(isPoolMetric: bool, compute: (Logs, Pool?) -> MetricOutput)
      ensures this.isPoolMetric == isPoolMetric && this.compute == compute && pool == null
    {
      this.isPoolMetric := isPoolMetric;
      this.compute := compute;
      pool := null;
    }
  }

  /**
   * The functions the recorder delegates to: the per-trade state extractors
   * (`get_pool_state`, `get_controller_state`) and the per-run parameter
   * snapshots (`get_pool_parameters`, `get_controller_parameters`,
   * `get_N_parameters`), each applied to the current state of its argument.
   */
  datatype Extractors = Extractors(
    poolState: Value -> Value,
    controllerState: (Value, Value) -> Value,
    poolParameters: Value -> Value,
    controllerParameters: Value -> Value,
    nParameters: Value -> Value)

  /** What an extractor sees of an optional controller (`None` stays `None`). */
  function ControllerView(c: Controller?): Value
    reads c
  {
    if c == null then NoneValue else c.state
  }

  /** The run-parameter snapshot `get_parameters_func[sim_mode]` takes; `None` when the mode is unrecognised. */
  function RunParameters(simMode: string, ex: Extractors, pool: Value, controller: Value, parameters: Value): (snapshot: Option<Value>)
    ensures snapshot.Some? <==> ParseMode(simMode).Some?
    ensures ParseMode(simMode) == Some(PoolMode) ==> snapshot == Some(ex.poolParameters(pool))
    ensures ParseMode(simMode) == Some(ControllerMode) ==> snapshot == Some(ex.controllerParameters(controller))
    ensures ParseMode(simMode) == Some(NMode) ==> snapshot == Some(ex.nParameters(parameters))
  {
    match ParseMode(simMode)
    case Some(PoolMode) => Some(ex.poolParameters(pool))
    case Some(ControllerMode) => Some(ex.controllerParameters(controller))
    case Some(NMode) => Some(ex.nParameters(parameters))
    case None => None
  }

  /** The `state_data` one `update` records; `None` when the mode is unrecognised. */
  function StateData(simMode: string, ex: Extractors, pool: Value, controller: Value): (data: Option<Value>)
    ensures data.Some? <==> ParseMode(simMode).Some?
    ensures ParseMode(simMode) == Some(PoolMode) ==> data == Some(ex.poolState(pool))
    ensures ParseMode(simMode) in {Some(ControllerMode), Some(NMode)} ==> data == Some(ex.controllerState(pool, controller))
  {
    match ParseMode(simMode)
    case Some(PoolMode) => Some(ex.poolState(pool))
    case Some(_) => Some(ex.controllerState(pool, controller))
    case None => None
  }

  /**
   * `prepare_metrics`: binds every pool metric to `pool` and returns the
   * same list; other metrics are left untouched.
   */
  method PrepareMetrics(metrics: seq<Metric>, pool: Pool) returns (prepared: seq<Metric>)
    modifies metrics
    ensures prepared == metrics
    ensures forall m :: m in metrics ==> m.pool == (if m.isPoolMetric then pool else old(m.pool))
  {
    for i := 0 to |metrics|
      invariant forall m :: m in metrics ==>
        m.pool == (if m.isPoolMetric && m in metrics[..i] then pool else old(m.pool))
    {
      var metric := metrics[i];
      if metric.isPoolMetric {
        metric.pool := pool;
      }
    }
    prepared := metrics;
  }

  /** Every metric's result over `logs`, in metric order. */
  function Outputs(metrics: seq<Metric>, logs: Logs): (outputs: seq<MetricOutput>)
    reads metrics
    ensures |outputs| == |metrics|
    ensures forall i :: 0 <= i < |metrics| ==> outputs[i] == metrics[i].compute(logs, metrics[i].pool)
  {
    if |metrics| == 0 then []
    else [metrics[0].compute(logs, metrics[0].pool)] + Outputs(metrics[1..], logs)
  }

  class StateLog {
    const pool: Pool
    const controller: Controller?
    const metrics: seq<Metric>
    const simMode: string
    const extractors: Extractors
    /** `state_per_run`: `None` while the attribute is unassigned. */
    const statePerRun: Option<Value>
    /** `state_per_trade`: one record per `update`, oldest first. */
    var statePerTrade: seq<Record>

    /**
     * Every record carries `state_data`, the parameter snapshot exists
     * exactly in a recognised mode, and nothing is recorded in any other mode.
     */
    ghost predicate Valid()
      reads this
    {
      && (forall i :: 0 <= i < |statePerTrade| ==> StateDataKey in statePerTrade[i])
      && (statePerRun.Some? <==> ParseMode(simMode).Some?)
      && (ParseMode(simMode).None? ==> statePerTrade == [])
    }

    constructor(pool: Pool, controller: Controller?, metrics: seq<Metric>, parameters: Value,
                simMode: string, extractors: Extractors)
      modifies metrics
      ensures Valid()
      ensures this.pool == pool && this.controller == controller && this.metrics == metrics
      ensures this.simMode == simMode && this.extractors == extractors
      ensures statePerTrade == []
      ensures statePerRun == RunParameters(simMode, extractors, pool.state, ControllerView(controller), parameters)
      ensures forall m :: m in metrics ==> m.pool == (if m.isPoolMetric then pool else old(m.pool))
    {
      var prepared := PrepareMetrics(metrics, pool);
      this.pool := pool;
      this.controller := controller;
      this.metrics := prepared;
      this.simMode := simMode;
      this.extractors := extractors;
      statePerTrade := [];
      statePerRun := RunParameters(simMode, extractors, pool.state, ControllerView(controller), parameters);
    }

    /** `update(**kwargs)`: records the current state together with the caller's keyword arguments. */
    method Update(kwargs: map<string, Value>)
      requires Valid()
      modifies this`statePerTrade
      ensures Valid()
      ensures var data := StateData(simMode, extractors, pool.state, ControllerView(controller));
        statePerTrade == old(statePerTrade) + (if data.Some? then [MakeRecord(data.value, kwargs)] else [])
    {
      if simMode == "pool" {
        statePerTrade := statePerTrade + [MakeRecord(extractors.poolState(pool.state), kwargs)];
      } else if simMode == "controller" {
        statePerTrade := statePerTrade + [MakeRecord(extractors.controllerState(pool.state, ControllerView(controller)), kwargs)];
      }
      if simMode == "N" {
        statePerTrade := statePerTrade + [MakeRecord(extractors.controllerState(pool.state, ControllerView(controller)), kwargs)];
      }
    }

    /** `get_logs()`: a function of the records and the snapshot, so it changes nothing. */
    function GetLogs(): Result<Logs, LogError>
      reads this
    {
      LogTables.GetLogs(statePerTrade, statePerRun)
    }

    /**
     * `compute_metrics()`: the parameter table, every metric's per-trade
     * result and summary in metric order, and the `state_data` table.
     */
    function ComputeMetrics(): (r: Result<RunMetrics, LogError>)
      reads this, metrics
      ensures GetLogs().Err? ==> r == Err(GetLogs().error)
      ensures GetLogs().Ok? && |metrics| == 0 ==> r == Err(NoMetrics)
      ensures Valid() && GetLogs().Ok? && |metrics| > 0 ==>
        (r.Ok? <==> |statePerTrade| > 0) && (r.Err? ==> r.error == NoStateData)
      ensures r.Ok? ==>
        && r.value.parameters == GetLogs().value[SimParametersKey]
        && |r.value.perTrade| == |metrics| && |r.value.summary| == |metrics|
        && (forall i :: 0 <= i < |metrics| ==>
              && r.value.perTrade[i] == metrics[i].compute(GetLogs().value, metrics[i].pool).perTrade
              && r.value.summary[i] == metrics[i].compute(GetLogs().value, metrics[i].pool).summary)
        && Tabulates(r.value.stateData, statePerTrade, StateDataKey)
    {
      match GetLogs()
      case Err(e) => Err(e)
      case Ok(logs) =>
        var outputs := Outputs(metrics, logs);
        ColumnsMembers(statePerTrade);
        var r := Summarize(logs, outputs);
        if r.Ok? then
          assert Unzip(outputs) == (r.value.perTrade, r.value.summary) by { ZipUnzip(outputs); }
          r
        else r
    }
  }
}
