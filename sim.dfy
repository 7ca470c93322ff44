/**
 * The entry point of a simulation sweep: `autosim` checks that a pool was
 * named, obtains the pool's metadata, and `_parse_arguments` turns the
 * caller's keyword arguments into the swept parameters of the chosen mode
 * and picks the band-placement strategy that seeds the pool.
 */
module Sim {
  import opened Wrappers
  import opened Values
  import opened SimModes

  /** The band-placement strategies a mode selects (their code is not part of this model). */
  datatype BandsStrategy = InitYBandsStrategy | UserLoansStrategy | OneUserBandsStrategy

  /** `input_args`: the keyword arguments a mode sweeps over, in declaration order. */
  function InputArgs(simMode: string): (args: seq<string>)
    ensures |args| > 0 <==> ParseMode(simMode).Some?
  {
    match ParseMode(simMode)
    case Some(PoolMode) => ["A", "fee", "admin_fee"]
    case Some(ControllerMode) => ["loan_discount", "liquidation_discount"]
    case Some(NMode) => ["N"]
    case None => []
  }

  /** `bands_strategy`: the strategy a mode selects, `None` for an unrecognised mode. */
  function BandsStrategyFor(simMode: string): (strategy: Option<BandsStrategy>)
    ensures strategy.Some? <==> ParseMode(simMode).Some?
  {
    match ParseMode(simMode)
    case Some(PoolMode) => Some(InitYBandsStrategy)
    case Some(ControllerMode) => Some(UserLoansStrategy)
    case Some(NMode) => Some(OneUserBandsStrategy)
    case None => None
  }

  /** No argument is swept in two modes, so an accepted key determines the mode and its strategy. */
  lemma AcceptedKeyDeterminesMode(key: string, mode1: string, mode2: string)
    requires key in InputArgs(mode1) && key in InputArgs(mode2)
    ensures ParseMode(mode1) == ParseMode(mode2)
    ensures BandsStrategyFor(mode1) == BandsStrategyFor(mode2)
  {
  }

  /** The two ways the check on an accepted argument raises `TypeError`. */
  datatype TypeError =
    | NotIterable(key: string)     // iterating the value itself fails
    | NonIntElement(key: string)   // the explicit raise: some element is not an int

  /** `all(isinstance(v, int) for v in val)` runs to completion and is true. */
  predicate IntIterable(val: Value)
  {
    match val
    case List(items) => forall i :: 0 <= i < |items| ==> IsInt(items[i])
    case Str(s) => s == ""           // iterating a string yields strings
    case Dict(entries) => entries == map[]   // iterating a dict yields its string keys
    case _ => false
  }

  function Rejection(key: string, val: Value): TypeError
    requires !IntIterable(val)
  {
    if Iterable(val) then NonIntElement(key) else NotIterable(key)
  }

  /** Python keyword arguments never repeat a name. */
  predicate DistinctKeys(kwargs: seq<(string, Value)>)
  {
    forall i, j :: 0 <= i < j < |kwargs| ==> kwargs[i].0 != kwargs[j].0
  }

  /** Argument `j` is the first accepted argument that fails the check. */
  ghost predicate FirstRejected(simMode: string, kwargs: seq<(string, Value)>, j: int)
  {
    && 0 <= j < |kwargs|
    && kwargs[j].0 in InputArgs(simMode) && !IntIterable(kwargs[j].1)
    && forall i :: 0 <= i < j && kwargs[i].0 in InputArgs(simMode) ==> IntIterable(kwargs[i].1)
  }

  /**
   * `_parse_arguments`: keeps the keyword arguments the mode sweeps over,
   * drops every other one, and raises on the first kept argument that is
   * not an iterable of ints. Returns the swept parameters and the strategy.
   */
  method ParseArguments(simMode: string, kwargs: seq<(string, Value)>)
    returns (r: Result<(map<string, Value>, Option<BandsStrategy>), TypeError>)
    requires DistinctKeys(kwargs)
    ensures r.Ok? <==> forall j :: 0 <= j < |kwargs| && kwargs[j].0 in InputArgs(simMode) ==> IntIterable(kwargs[j].1)
    ensures forall j :: FirstRejected(simMode, kwargs, j) ==> r == Err(Rejection(kwargs[j].0, kwargs[j].1))
    ensures r.Ok? ==> r.value.1 == BandsStrategyFor(simMode)
    ensures r.Ok? ==> forall k :: k in r.value.0 ==>
      k in InputArgs(simMode) && exists j :: 0 <= j < |kwargs| && kwargs[j] == (k, r.value.0[k])
    ensures r.Ok? ==> forall j :: 0 <= j < |kwargs| && kwargs[j].0 in InputArgs(simMode) ==>
      kwargs[j].0 in r.value.0 && r.value.0[kwargs[j].0] == kwargs[j].1
    ensures ParseMode(simMode).None? ==> r == Ok((map[], None))
  {
    var inputArgs := InputArgs(simMode);
    var variableParams: map<string, Value> := map[];
    for i := 0 to |kwargs|
      invariant forall j :: 0 <= j < i && kwargs[j].0 in inputArgs ==> IntIterable(kwargs[j].1)
      invariant forall k :: k in variableParams ==>
        k in inputArgs && exists j :: 0 <= j < i && kwargs[j] == (k, variableParams[k])
      invariant forall j :: 0 <= j < i && kwargs[j].0 in inputArgs ==>
        kwargs[j].0 in variableParams && variableParams[kwargs[j].0] == kwargs[j].1
    {
      var (key, val) := kwargs[i];
      if key in inputArgs {
        if IntIterable(val) {
          variableParams := variableParams[key := val];
        } else {
          assert FirstRejected(simMode, kwargs, i);
          return Err(Rejection(key, val));
        }
      }
    }
    if ParseMode(simMode).None? {
      assert variableParams == map[];
    }
    return Ok((variableParams, BandsStrategyFor(simMode)));
  }

  /** What `autosim` hands to the simulation pipeline. */
  datatype RunPlan = RunPlan(
    poolMetadata: Value,
    simMode: string,
    variableParams: map<string, Value>,
    bandsStrategy: Option<BandsStrategy>)

  datatype AutosimError =
    | PoolOrMetadataRequired        // the entry assertion: neither a pool nor its metadata given
    | InvalidArgument(cause: TypeError)

  /**
   * `autosim` up to the pipeline call. `getMetadata` stands for
   * `get_metadata(pool, save_dir=save_dir)`, which fetches data.
   */
  method Autosim(pool: Value, poolMetadata: Value, simMode: string, kwargs: seq<(string, Value)>,
                 getMetadata: Value -> Value)
    returns (r: Result<RunPlan, AutosimError>)
    requires DistinctKeys(kwargs)
    ensures r == Err(PoolOrMetadataRequired) <==> !Truthy(pool) && !Truthy(poolMetadata)
    ensures (Truthy(pool) || Truthy(poolMetadata)) ==>
      (r.Ok? <==> forall j :: 0 <= j < |kwargs| && kwargs[j].0 in InputArgs(simMode) ==> IntIterable(kwargs[j].1))
    ensures forall j :: (Truthy(pool) || Truthy(poolMetadata)) && FirstRejected(simMode, kwargs, j) ==>
      r == Err(InvalidArgument(Rejection(kwargs[j].0, kwargs[j].1)))
    ensures r.Ok? ==>
      && r.value.poolMetadata == (if Truthy(poolMetadata) then poolMetadata else getMetadata(pool))
      && r.value.simMode == simMode
      && r.value.bandsStrategy == BandsStrategyFor(simMode)
      && (forall k :: k in r.value.variableParams ==>
            k in InputArgs(simMode) && exists j :: 0 <= j < |kwargs| && kwargs[j] == (k, r.value.variableParams[k]))
      && (forall j :: 0 <= j < |kwargs| && kwargs[j].0 in InputArgs(simMode) ==>
            kwargs[j].0 in r.value.variableParams && r.value.variableParams[kwargs[j].0] == kwargs[j].1)
  {
    if !(Truthy(pool) || Truthy(poolMetadata)) {
      return Err(PoolOrMetadataRequired);
    }
    var metadata := if Truthy(poolMetadata) then poolMetadata else getMetadata(pool);
    var parsed := ParseArguments(simMode, kwargs);
    match parsed
    case Err(e) =>
      r := Err(InvalidArgument(e));
    case Ok((variableParams, bandsStrategy)) =>
      r := Ok(RunPlan(metadata, simMode, variableParams, bandsStrategy));
  }
}
