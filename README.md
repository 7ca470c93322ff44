# crvusdsim: the run recorder and the sweep-argument parser

A model of two pieces of the crvUSD simulator (a simulator of the LLAMMA
market maker and its loan controller):

* **`StateLog`**, the recorder that one simulation run feeds after every
  trade. At construction it binds every pool metric to the pool and takes a
  run-parameter snapshot chosen by the simulation mode (`"pool"`,
  `"controller"` or `"N"`). Each `update(**kwargs)` appends the record
  `{"state_data": <extracted state>, **kwargs}`. At the end of the run,
  `get_logs` turns the records into one table per record key, indexed by each
  record's `price_sample.timestamp`. `compute_metrics` runs every metric over
  those tables and transposes the metrics' `(per_trade, summary)` pairs.
* **`autosim`'s argument handling**: the check that a pool or its metadata
  was given, and `_parse_arguments`. That function maps the mode to the
  keyword arguments it sweeps and to a band-placement strategy. It keeps the
  accepted arguments whose values are iterables of ints, drops the rest, and
  raises `TypeError` on the first accepted argument that fails the check.

Layout, one module per file:

* `wrappers.dfy` (`Wrappers`): `Option` and `Result`. An `Err` stands for an
  exception escaping the call.
* `values.dfy` (`Values`): the Python values involved. A bool counts as an int,
  as `isinstance` has it. `List` stands for every list, tuple or range.
* `sim_mode.dfy` (`SimModes`): the three mode names. Any other name is
  accepted by the code and means "no mode".
* `log_tables.dfy` (`LogTables`): the records, and the pure reductions done by
  `get_logs` and `compute_metrics`. A pandas table is abstracted to an index
  sequence and a row sequence. A missing key (NaN) is `None`.
* `state_log.dfy` (`StateLogs`): the `StateLog` class, `prepare_metrics`, and
  small stand-ins for the pool, the controller and the metric objects. The
  extractors, the parameter snapshots and `Metric.compute` are opaque
  function values.
* `sim.dfy` (`Sim`): the mode table, `_parse_arguments` (a loop over the
  keyword arguments) and `autosim` up to the pipeline call.

`get_logs` and `compute_metrics` are Dafny functions. They read only the
recorder and the metric objects (which pool each metric is bound to). So they
cannot change the record list, and two calls on the same state give equal
results.

Where the behaviour of the code differs from what one might expect, the model
follows the code:

* With no record logged, `get_logs` does not fail. It returns the parameter
  table alone (`LogTables.EmptyRunLogs`). Only `compute_metrics` fails then,
  on the missing `"state_data"` table (`NoStateData`).
* `get_logs` fails when the mode was unrecognised, because `state_per_run`
  was never assigned (`ParametersUnset`). It also fails on the first record
  without a readable `price_sample.timestamp`.
* A keyword argument named `sim_parameters`, passed to `update`, replaces the
  parameter table in the logs. This is because the record tables come last in
  the dict literal.
* A bare int for a swept argument (`A=100`) is rejected with `TypeError`,
  since iterating an int fails (`NotIterable`). The docstring, however,
  describes these arguments as "int or iterable of int". Documented keyword
  arguments that `_parse_arguments` does not know (`test`, `days`, `ncpu`,
  ...) are dropped silently.

## Model

| member | source | states |
|---|---|---|
| `SimModes.ParseMode` | crvusdsim/sim/__init__.py:125-137 | a name selects a mode exactly when it is that mode's name ("pool", "controller", "N"); every other name selects none |
| `LogTables.MakeRecord` | crvusdsim/metrics/state_log/state_log.py:48-52 | the record has exactly the caller's keys plus `state_data`; every keyword value is kept; the extracted state is kept unless a keyword named `state_data` overrides it |
| `LogTables.Timestamps` | crvusdsim/metrics/state_log/state_log.py:59 | the index succeeds exactly when every record has a price sample with a timestamp; it then has one entry per record, in record order; otherwise the error names the first bad record, as a missing key or a missing attribute |
| `LogTables.ColumnsMembers` | crvusdsim/metrics/state_log/state_log.py:57-60 | a key is a column of the record table exactly when some record has it |
| `LogTables.GetLogs` | crvusdsim/metrics/state_log/state_log.py:54-65 | succeeds exactly when the snapshot is set and every timestamp is readable; timestamp errors take precedence; the keys are `sim_parameters` plus every record key; each key's table has one row per record, in order, indexed by the records' timestamps, NaN where a record lacks the key; the parameter table is one row indexed by 0 unless a record key replaces it |
| `LogTables.EmptyRunLogs` | crvusdsim/metrics/state_log/state_log.py:57-65 | with no records, the logs are the parameter table alone; in particular there is no `state_data` entry |
| `LogTables.AppendKeys` | crvusdsim/metrics/state_log/state_log.py:44-60 | after one more record the logs still succeed, and their keys grow by exactly that record's keys |
| `LogTables.AppendRecord` | crvusdsim/metrics/state_log/state_log.py:44-60 | after one more record, every existing table keeps its earlier rows and index entries and gains exactly one row, the new record's entry at the new record's timestamp |
| `LogTables.AppendNewKey` | crvusdsim/metrics/state_log/state_log.py:57-60 | a key first seen in the new record gets NaN rows for every earlier record and the record's value in the last row |
| `LogTables.Unzip` | crvusdsim/metrics/state_log/state_log.py:72 | the transposition gives the per-trade results and the summaries, each with one entry per metric, in metric order |
| `LogTables.ZipUnzip` | crvusdsim/metrics/state_log/state_log.py:72 | the transposition loses nothing: zipping its two halves gives back the metric results |
| `LogTables.Summarize` | crvusdsim/metrics/state_log/state_log.py:70-79 | no metric results fail (`NoMetrics`); otherwise the result exists exactly when the logs hold `state_data`; it carries the parameter table, the `state_data` table, and per-trade results and summaries that zip back to the metric results |
| `StateLogs.RunParameters` | crvusdsim/metrics/state_log/state_log.py:37-42 | the snapshot exists exactly in a recognised mode; it comes from the pool in "pool" mode, the controller in "controller" mode, and the run parameters in "N" mode |
| `StateLogs.StateData` | crvusdsim/metrics/state_log/state_log.py:47-52 | the recorded state exists exactly in a recognised mode; it is the pool state in "pool" mode and the controller state (of pool and controller) in "controller" and "N" modes |
| `StateLogs.PrepareMetrics` | crvusdsim/metrics/state_log/state_log.py:82-90 | returns the same list; every pool metric is bound to the pool; every other metric keeps its binding |
| `StateLogs.Outputs` | crvusdsim/metrics/state_log/state_log.py:71 | one result per metric, in metric order, each computed over the logs and that metric's bound pool |
| `StateLogs.StateLog.constructor` | crvusdsim/metrics/state_log/state_log.py:31-42 | the record list starts empty; the metrics are the given list, with pool metrics bound to the pool; the snapshot is the mode's parameter snapshot, unset in an unrecognised mode; the invariant holds |
| `StateLogs.StateLog.Update` | crvusdsim/metrics/state_log/state_log.py:44-52 | in a recognised mode the record list grows by exactly one record, the mode's state merged with the keywords, and earlier records are unchanged; in any other mode nothing is appended; the invariant (every record has `state_data`) is kept |
| `StateLogs.StateLog.ComputeMetrics` | crvusdsim/metrics/state_log/state_log.py:67-79 | `get_logs` errors propagate; zero metrics fail; with metrics, the result exists exactly when a record was logged; it holds the parameter table, each metric's per-trade result and summary in metric order, and the time-indexed `state_data` table of the records |
| `Sim.InputArgs` | crvusdsim/sim/__init__.py:122-137 | a mode sweeps some argument exactly when it is recognised ("pool": A, fee, admin_fee; "controller": loan_discount, liquidation_discount; "N": N) |
| `Sim.BandsStrategyFor` | crvusdsim/sim/__init__.py:123-137 | a strategy is selected exactly for a recognised mode ("pool": init_y, "controller": user_loans, "N": one_user) |
| `Sim.AcceptedKeyDeterminesMode` | crvusdsim/sim/__init__.py:125-137 | no argument is swept by two modes, so an accepted argument determines the mode and its strategy |
| `Sim.ParseArguments` | crvusdsim/sim/__init__.py:121-149 | succeeds exactly when every accepted argument is an iterable of ints (an empty one included); the first failing accepted argument decides the error; the result holds exactly the accepted arguments, with their values unchanged; unknown arguments are dropped; the strategy is the mode's; an unrecognised mode gives an empty map and no strategy |
| `Sim.Autosim` | crvusdsim/sim/__init__.py:106-118 | fails on its assertion exactly when neither pool nor metadata is truthy; otherwise uses the given metadata, or fetches it when that is falsy, and succeeds or fails exactly as the argument parse does, handing on the parsed parameters (exactly the accepted keyword arguments that were passed, values unchanged) and the mode's strategy |

## Left out

- pandas: column order, dtypes, and the expansion of dict-valued rows into
  columns. A table is an index and a list of rows, and the logs are a map
  with no key order. So pandas' own failures when building a table are not
  modelled either. For example, a dict-valued keyword in the first record
  that a later record lacks gives a column mixing dicts and NaN, on which
  `DataFrame(...)` raises; `LogTables.GetLogs` returns a table there.
- `Metric.compute` is a function of the logs and of which pool the metric is
  bound to, not of that pool's current state. A pool metric that reads its
  pool's state when computing is therefore modelled only up to the pool's
  identity.
- The default `sim_mode="pool"` of `StateLog.__init__` and of `autosim`:
  Dafny has no default arguments, so the mode is always passed explicitly.
- The extractors `get_pool_state`, `get_controller_state`,
  `get_pool_parameters`, `get_controller_parameters` and `get_N_parameters`,
  and `Metric.compute`. They are not part of this model and appear as opaque
  function values. The pool, controller and metric classes are stand-ins
  holding only what the recorder touches.
- The band-placement strategies (`init_y_bands_strategy`,
  `user_loans_strategy`, `one_user_bands_strategy`) are not part of this
  model: only which one a mode selects is modelled. So are their bracketing
  and active-band guarantees, and `SimAggregateStablePrice.prepare_for_run`
  (float-to-fixed-point and datetime conversion).
- `autosim` beyond argument handling: `get_metadata` (network and file
  access) is a parameter, and `pipeline` (parallel simulation runs) is not
  modelled. `Autosim` returns what would be handed to it.
- Logging (`get_logger`).
- `Sim.ParseArguments`: does not model one-shot iterators. A generator passed
  as a swept value is consumed by the `all(...)` check. Iterables other than
  lists, tuples, ranges, strings and dicts are treated as non-iterable, and
  numpy integer types are not distinguished from ints. The unused
  `pool_metadata` parameter is omitted.
- `StateLogs.StateLog.Update`: the statement that n updates give n records
  is the per-call growth by one, together with the empty start.
