/**
 * The reductions performed when a simulation run is finalised: the list of
 * per-trade records is transposed into one time-indexed table per record key
 * (`get_logs`), and the metrics' `(per_trade, summary)` pairs are transposed
 * into two side-by-side collections (`compute_metrics`). A table is
 * abstracted to its index and its rows.
 */
module LogTables {
  import opened Wrappers
  import opened Values

  /** One observation: the dictionary appended by each `update`. */
  type Record = map<string, Value>

  /** A table: one row per index entry; `None` is the NaN of a missing key. */
  datatype Frame = Frame(index: seq<Value>, rows: seq<Option<Value>>)

  /** The result of `get_logs`: a table per key. */
  type Logs = map<string, Frame>

  /** What one metric's `compute` returns. */
  datatype MetricOutput = MetricOutput(perTrade: Value, summary: Value)

  /** The 4-tuple returned by `compute_metrics`. */
  datatype RunMetrics = RunMetrics(
    parameters: Frame,
    perTrade: seq<Value>,
    summary: seq<Value>,
    stateData: Frame)

  /** The exceptions the reductions raise. */
  datatype LogError =
    | MissingPriceSample(record: nat)   // KeyError on "price_sample"
    | MissingTimestamp(record: nat)     // the price sample has no `timestamp`
    | ParametersUnset                   // `state_per_run` was never assigned
    | NoMetrics                         // transposing zero metric results
    | NoStateData                       // KeyError on "state_data"

  const StateDataKey := "state_data"
  const PriceSampleKey := "price_sample"
  const SimParametersKey := "sim_parameters"
  const TimestampAttr := "timestamp"

  /** `{"state_data": stateData, **kwargs}`: later entries win. */
  function MakeRecord(stateData: Value, kwargs: map<string, Value>): (r: Record)
    ensures r.Keys == kwargs.Keys + {StateDataKey}
    ensures forall k :: k in kwargs ==> r[k] == kwargs[k]
    ensures StateDataKey !in kwargs ==> r[StateDataKey] == stateData
  {
    map[StateDataKey := stateData] + kwargs
  }

  /** `state["price_sample"].timestamp` can be evaluated. */
  predicate HasTimestamp(r: Record)
  {
    PriceSampleKey in r && r[PriceSampleKey].Object? && TimestampAttr in r[PriceSampleKey].attrs
  }

  function Timestamp(r: Record): Value
    requires HasTimestamp(r)
  {
    r[PriceSampleKey].attrs[TimestampAttr]
  }

  /** The exception raised for record `i` when its timestamp cannot be read. */
  function TimestampError(r: Record, i: nat): LogError
    requires !HasTimestamp(r)
  {
    if PriceSampleKey in r then MissingTimestamp(i) else MissingPriceSample(i)
  }

  /** Record `j` is the first whose timestamp cannot be read. */
  ghost predicate FirstWithoutTimestamp(rs: seq<Record>, j: int)
  {
    0 <= j < |rs| && !HasTimestamp(rs[j]) && forall i :: 0 <= i < j ==> HasTimestamp(rs[i])
  }

  /** The comprehension building the index: left to right, failing at the first bad record. */
  function Timestamps(rs: seq<Record>): (r: Result<seq<Value>, LogError>)
    ensures r.Ok? <==> forall i :: 0 <= i < |rs| ==> HasTimestamp(rs[i])
    ensures r.Ok? ==> |r.value| == |rs| && forall i :: 0 <= i < |rs| ==> r.value[i] == Timestamp(rs[i])
    ensures r.Err? ==> exists j :: FirstWithoutTimestamp(rs, j) && r.error == TimestampError(rs[j], j)
  {
    if |rs| == 0 then Ok([])
    else
      var n := |rs| - 1;
      assert forall i :: 0 <= i < n ==> rs[..n][i] == rs[i];
      match Timestamps(rs[..n])
      case Err(e) => Err(e)
      case Ok(ts) =>
        if HasTimestamp(rs[n]) then Ok(ts + [Timestamp(rs[n])])
        else
          assert FirstWithoutTimestamp(rs, n);
          Err(TimestampError(rs[n], n))
  }

  /** The columns of `DataFrame(records)`: every key of every record. */
  function Columns(rs: seq<Record>): set<string>
  {
    if |rs| == 0 then {} else Columns(rs[..|rs| - 1]) + rs[|rs| - 1].Keys
  }

  /** A key is a column exactly when some record has it. */
  lemma {:induction false} ColumnsMembers(rs: seq<Record>)
    ensures forall k :: k in Columns(rs) <==> exists i :: 0 <= i < |rs| && k in rs[i]
  {
    if |rs| > 0 {
      var n := |rs| - 1;
      ColumnsMembers(rs[..n]);
      assert forall i :: 0 <= i < n ==> rs[..n][i] == rs[i];
    }
  }

  /** A record's entry for `key`, or NaN. */
  function Lookup(r: Record, key: string): Option<Value>
  {
    if key in r then Some(r[key]) else None
  }

  /** `df[key].to_list()`: one entry per record, in record order. */
  function Column(rs: seq<Record>, key: string): seq<Option<Value>>
  {
    seq(|rs|, i requires 0 <= i < |rs| => Lookup(rs[i], key))
  }

  /** `f` is the time-indexed table of `key` over `rs`: row `i` is record `i`'s entry, indexed by its timestamp. */
  ghost predicate Tabulates(f: Frame, rs: seq<Record>, key: string)
  {
    && |f.index| == |rs|
    && |f.rows| == |rs|
    && forall i :: 0 <= i < |rs| ==>
         HasTimestamp(rs[i]) && f.index[i] == Timestamp(rs[i]) && f.rows[i] == Lookup(rs[i], key)
  }

  /** The single-row parameter table, indexed by 0. */
  function ParameterTable(parameters: Value): Frame
  {
    Frame([Int(0)], [Some(parameters)])
  }

  /** One table per column, all sharing the index `times`. */
  function Tables(rs: seq<Record>, times: seq<Value>): Logs
  {
    map k | k in Columns(rs) :: Frame(times, Column(rs, k))
  }

  /**
   * `get_logs` over the record list `rs` and the run's parameter snapshot
   * (`None` when it was never assigned). A record key "sim_parameters"
   * replaces the parameter table, since `**state_per_trade` comes last.
   */
  function GetLogs(rs: seq<Record>, parameters: Option<Value>): (r: Result<Logs, LogError>)
    ensures r.Ok? <==> parameters.Some? && forall i :: 0 <= i < |rs| ==> HasTimestamp(rs[i])
    ensures forall j :: FirstWithoutTimestamp(rs, j) ==> r == Err(TimestampError(rs[j], j))
    ensures parameters.None? && (forall i :: 0 <= i < |rs| ==> HasTimestamp(rs[i])) ==> r == Err(ParametersUnset)
    ensures r.Ok? ==> r.value.Keys == {SimParametersKey} + Columns(rs)
    ensures r.Ok? ==> forall k :: k in Columns(rs) ==> Tabulates(r.value[k], rs, k)
    ensures r.Ok? && SimParametersKey !in Columns(rs) ==> r.value[SimParametersKey] == ParameterTable(parameters.value)
  {
    match Timestamps(rs)
    case Err(e) => Err(e)
    case Ok(times) =>
      if parameters.None? then Err(ParametersUnset)
      else Ok(map[SimParametersKey := ParameterTable(parameters.value)] + Tables(rs, times))
  }

  /** With no record logged the logs hold the parameter table and nothing else. */
  lemma EmptyRunLogs(parameters: Value)
    ensures GetLogs([], Some(parameters)) == Ok(map[SimParametersKey := ParameterTable(parameters)])
  {
    var t := Tables([], []);
    var m := map[SimParametersKey := ParameterTable(parameters)];
    assert m + t == m;
  }

  lemma LogsTables(rs: seq<Record>, parameters: Option<Value>)
    requires GetLogs(rs, parameters).Ok?
    ensures forall k :: k in Columns(rs) ==>
      GetLogs(rs, parameters).value[k] == Frame(Timestamps(rs).value, Column(rs, k))
  {
  }

  lemma TimestampsAppend(rs: seq<Record>, r: Record)
    requires Timestamps(rs).Ok? && HasTimestamp(r)
    ensures Timestamps(rs + [r]) == Ok(Timestamps(rs).value + [Timestamp(r)])
  {
    assert (rs + [r])[..|rs|] == rs;
  }

  lemma ColumnsAppend(rs: seq<Record>, r: Record)
    ensures Columns(rs + [r]) == Columns(rs) + r.Keys
  {
    assert (rs + [r])[..|rs|] == rs;
  }

  lemma ColumnAppend(rs: seq<Record>, r: Record, k: string)
    ensures Column(rs + [r], k) == Column(rs, k) + [Lookup(r, k)]
  {
    assert forall i :: 0 <= i < |rs| ==> (rs + [r])[i] == rs[i];
  }

  /** After an append, every table is the old index and column extended by the new record's entry. */
  lemma AppendTables(rs: seq<Record>, r: Record, parameters: Option<Value>)
    requires GetLogs(rs, parameters).Ok? && HasTimestamp(r)
    ensures GetLogs(rs + [r], parameters).Ok?
    ensures forall k :: k in Columns(rs + [r]) ==>
      GetLogs(rs + [r], parameters).value[k]
        == Frame(Timestamps(rs).value + [Timestamp(r)], Column(rs, k) + [Lookup(r, k)])
  {
    var rs' := rs + [r];
    TimestampsAppend(rs, r);
    var after := GetLogs(rs', parameters).value;
    LogsTables(rs', parameters);
    forall k | k in Columns(rs')
      ensures after[k] == Frame(Timestamps(rs).value + [Timestamp(r)], Column(rs, k) + [Lookup(r, k)])
    {
      ColumnAppend(rs, r, k);
    }
  }

  /** Appending one record adds exactly that record's keys to the logs. */
  lemma {:induction false} AppendKeys(rs: seq<Record>, r: Record, parameters: Option<Value>)
    requires GetLogs(rs, parameters).Ok? && HasTimestamp(r)
    ensures GetLogs(rs + [r], parameters).Ok?
    ensures GetLogs(rs + [r], parameters).value.Keys == GetLogs(rs, parameters).value.Keys + r.Keys
  {
    TimestampsAppend(rs, r);
    ColumnsAppend(rs, r);
  }

  /**
   * Appending one record (what `update` does) extends every existing table
   * by exactly one row, indexed by the new record's timestamp, and leaves
   * the earlier rows and index entries as they were.
   */
  lemma {:induction false} AppendRecord(rs: seq<Record>, r: Record, parameters: Option<Value>)
    requires GetLogs(rs, parameters).Ok? && HasTimestamp(r)
    ensures GetLogs(rs + [r], parameters).Ok?
    ensures forall k :: k in Columns(rs) ==>
      && GetLogs(rs + [r], parameters).value[k].index == GetLogs(rs, parameters).value[k].index + [Timestamp(r)]
      && GetLogs(rs + [r], parameters).value[k].rows == GetLogs(rs, parameters).value[k].rows + [Lookup(r, k)]
  {
    AppendTables(rs, r, parameters);
    ColumnsAppend(rs, r);
    LogsTables(rs, parameters);
  }

  /** A key first seen in an appended record gets NaN for every earlier record. */
  lemma {:induction false} AppendNewKey(rs: seq<Record>, r: Record, parameters: Option<Value>, k: string)
    requires GetLogs(rs, parameters).Ok? && HasTimestamp(r)
    requires k in r && k !in Columns(rs)
    ensures GetLogs(rs + [r], parameters).Ok?
    ensures var after := GetLogs(rs + [r], parameters).value;
      && k in after
      && |after[k].rows| == |rs| + 1
      && after[k].rows[|rs|] == Some(r[k])
      && forall i :: 0 <= i < |rs| ==> after[k].rows[i] == None
  {
    AppendTables(rs, r, parameters);
    ColumnsAppend(rs, r);
    ColumnsMembers(rs);
    forall i | 0 <= i < |rs|
      ensures Column(rs, k)[i] == None
    {
      assert k !in rs[i];
    }
  }

  /** `zip`: pairs up two equally long collections. */
  function Zip(perTrade: seq<Value>, summary: seq<Value>): (outputs: seq<MetricOutput>)
    requires |perTrade| == |summary|
    ensures |outputs| == |perTrade|
  {
    if |perTrade| == 0 then []
    else [MetricOutput(perTrade[0], summary[0])] + Zip(perTrade[1..], summary[1..])
  }

  /** `zip(*outputs)`: the per-trade results and the summaries, each in metric order. */
  function Unzip(outputs: seq<MetricOutput>): (columns: (seq<Value>, seq<Value>))
    ensures |columns.0| == |outputs| && |columns.1| == |outputs|
    ensures forall i :: 0 <= i < |outputs| ==>
      columns.0[i] == outputs[i].perTrade && columns.1[i] == outputs[i].summary
  {
    if |outputs| == 0 then ([], [])
    else
      var rest := Unzip(outputs[1..]);
      ([outputs[0].perTrade] + rest.0, [outputs[0].summary] + rest.1)
  }

  /** The transposition loses nothing: zipping the two halves gives back the metric results. */
  lemma {:induction false} ZipUnzip(outputs: seq<MetricOutput>)
    ensures Zip(Unzip(outputs).0, Unzip(outputs).1) == outputs
  {
    if |outputs| > 0 {
      ZipUnzip(outputs[1..]);
    }
  }

  /**
   * The tail of `compute_metrics`, given the logs and every metric's result
   * in metric order.
   */
  function Summarize(logs: Logs, outputs: seq<MetricOutput>): (r: Result<RunMetrics, LogError>)
    requires SimParametersKey in logs
    ensures |outputs| == 0 ==> r == Err(NoMetrics)
    ensures |outputs| > 0 ==> (r.Ok? <==> StateDataKey in logs)
    ensures |outputs| > 0 && StateDataKey !in logs ==> r == Err(NoStateData)
    ensures r.Ok? ==>
      && r.value.parameters == logs[SimParametersKey]
      && r.value.stateData == logs[StateDataKey]
      && |r.value.perTrade| == |outputs| == |r.value.summary|
      && Zip(r.value.perTrade, r.value.summary) == outputs
  {
    if |outputs| == 0 then Err(NoMetrics)
    else
      var columns := Unzip(outputs);
      ZipUnzip(outputs);
      if StateDataKey !in logs then Err(NoStateData)
      else Ok(RunMetrics(logs[SimParametersKey], columns.0, columns.1, logs[StateDataKey]))
  }
}
