# kubeflink `slot_count_impact`: the benchmark sweep and its metrics correlator

`slot_count_impact` compares two ways of spending the same resources on a Flink
cluster on Kubernetes. One uses eight TaskManagers with one slot each (`tm8x1`).
The other uses two TaskManagers with four slots each (`tm2x4`). Two scripts do
the work, and this project models both:

- **The benchmark runner** (`flink_benchmark_runner.py`) sweeps benchmark ×
  configuration × input rate. For each point it:
  - rewrites the FlinkDeployment manifest;
  - applies the manifest;
  - polls `kubectl get pods` until every TaskManager is `Running` and `1/1` ready, or gives up after 300 s;
  - waits 10 minutes to stabilise, then records for 10 minutes;
  - deletes the deployment (unless `IndexError` escaped the readiness check,
    which skips the rest of the run; see "## Findings");
  - appends a two-line ledger entry (`<start> - Starting config: <label>` and
    `<end> - Finished config: <label>`) to
    `logs/<benchmark>_<label>_<rps>_log.txt`.
- **The correlator** (`get_metrics.py`) reads those ledgers back and pairs the
  lines into entries. For each entry it queries InfluxDB for ten metrics over
  the recorded window, averages the per-second buckets, and writes one CSV row
  per entry to `logs/<benchmark>_<label>_<rps>_results.csv`.

The model is split into these modules:

| module | file | what it models |
|---|---|---|
| `Optional`, `PyText` | `pytext.dfy` | the Python text primitives the scripts rely on: `str.isspace`, `strip()`, `split(sep)`, `split()`, `str(n)`, `int(digits)`, and the lazy `(.*?)` prefix of a regular expression |
| `Ledger` | `ledger.dfy` | the ledger format: the text the runner appends, and `parse_log_file` (a loop over `readlines()` in steps of two) as a method proved against its specification function |
| `Labels` | `labels.dfy` | `parse_config_label` and the regular expression `tm(\d+)x(\d+)-(\d+)k` |
| `Metrics` | `metrics.dfy` | the metric tables, the choice of query per metric, and the averaging of per-second buckets |
| `Correlator` | `correlator.dfy` | the CSV header and rows, the row-building loop, the file paths, and the correlator's `main` loop over its own sweep tables |
| `Manifest` | `manifest.dfy` | the manifest as a YAML tree, `update_config` as a set of path writes, and a `Descriptor` class whose document is updated in place |
| `Readiness` | `readiness.dfy` | `are_taskmanagers_ready` as a method with a loop, and the polling of `wait_for_ready` over a clock |
| `Runner` | `runner.dfy` | `run_benchmark` and the runner's `main` as methods of a `Testbed` class, whose fields are the clock, the actions sent to the cluster, and the log files |

External effects are parameters:

- The answers of `kubectl get pods` form an oracle `pods: nat -> PodQuery`, indexed by the clock in seconds.
- The UTC timestamps form an oracle `stamp: nat -> string`.
- InfluxDB is an oracle that maps a query, a metric and a time window to the per-second points it returns.
- The base manifest is a value `base`.

Two things are proved about the sweep as a whole:

- The corrected sweep appends exactly one readable entry to each point's ledger (`Runner.SweepLedger`).
- The correlator's tables do not match the runner's. The runner sweeps only `WindowJoin` at 5000 and 10000 requests per second. The correlator starts with `StateMachine` at 10000, a ledger the runner never writes. So from an empty `logs/` directory the correlator stops at its first point with `FileNotFoundError` and writes no CSV (`Runner.ReaderMissesSweepLedgers`).

## Model

| member | source | states |
|---|---|---|
| `PyText.StripSpec` | slot_count_impact/flink_benchmark_runner.py:93 | `strip()` removes only leading and trailing whitespace, and all of it: the result is an infix of the input with whitespace on either side and is not padded itself |
| `PyText.SplitOn` | slot_count_impact/flink_benchmark_runner.py:93 | `split("\n")` returns at least one piece; no piece holds a line break; joining the pieces with line breaks gives the input back |
| `PyText.Words` | slot_count_impact/flink_benchmark_runner.py:98 | `split()` returns non-empty runs that hold no whitespace, and a single word when the input is one |
| `PyText.WordsAllSpace` | slot_count_impact/flink_benchmark_runner.py:98 | `split()` of text that is all whitespace gives no words |
| `PyText.WordsCons` | slot_count_impact/flink_benchmark_runner.py:98 | `split()` skips the leading whitespace, takes the maximal run of non-whitespace that follows as the first word, and splits the rest: the words are the maximal runs, in order |
| `PyText.NatToString` | slot_count_impact/flink_benchmark_runner.py:152 | `str(n)` is a non-empty run of digits that `int` reads back as `n` |
| `PyText.FindSpec` | slot_count_impact/get_metrics.py:61-62 | the lazy prefix of a regular expression stops at the first occurrence of the literal after it, and fails only when there is none |
| `Ledger.LedgerTextAppend` | slot_count_impact/flink_benchmark_runner.py:156-162 | appending one entry to a ledger adds that entry's two lines at the end of its text |
| `Ledger.UniversalNewlines` | slot_count_impact/get_metrics.py:53-54 | reading in text mode leaves no carriage return, and changes nothing in a text without one |
| `Ledger.UniversalNewlinesSteps` | slot_count_impact/get_metrics.py:53-54 | text-mode reading turns `\r\n` into one `\n`, turns a lone `\r` into `\n`, and keeps every other character |
| `Ledger.LoneReturnBreaksLine` | slot_count_impact/get_metrics.py:53-54 | a lone `\r` ends a line: `x\ry` is read as the two lines `x\n` and `y` |
| `Ledger.SplitLinesConcat` | slot_count_impact/get_metrics.py:54 | the lines `readlines()` returns concatenate to the text |
| `Ledger.SplitLinesBreaks` | slot_count_impact/get_metrics.py:54 | every line from `readlines()` is non-empty, holds a line break only at its end, and every line but the last ends in `\n` |
| `Ledger.MatchRecordSpec` | slot_count_impact/get_metrics.py:61-62 | a match of `(.*?) - <marker>(.*)` is anchored at the line's start: group 1 is the text before the first occurrence of the marker, group 2 the text after it up to the next line break or the end, and neither holds a line break |
| `Ledger.MatchRecordComplete` | slot_count_impact/get_metrics.py:61-62 | a line matches exactly when the marker occurs in it with no line break before it |
| `Ledger.MatchWritten` | slot_count_impact/get_metrics.py:61-62 | a line written as stamp, marker and label matches with exactly that stamp and label, provided the stamp holds no whitespace |
| `Ledger.ParseLogFile` | slot_count_impact/get_metrics.py:52-70 | the loop over the lines in steps of two returns exactly the entries of the specification `Parsed` |
| `Ledger.ParseBound` | slot_count_impact/get_metrics.py:57 | a ledger of `n` lines yields at most `n/2` entries |
| `Ledger.ParseAppend` | slot_count_impact/get_metrics.py:57-69 | after an even number of lines, the entries of the rest are simply added to those before |
| `Ledger.TrailingLineDropped` | slot_count_impact/get_metrics.py:59-64 | an unpaired last line adds no entry |
| `Ledger.ParseOrigin` | slot_count_impact/get_metrics.py:57-69 | an entry is parsed exactly when it comes from a matching pair of lines at an even offset (both directions) |
| `Ledger.FinishedLabelIgnored` | slot_count_impact/get_metrics.py:64-69 | the label on the finish line is never compared with the start line's; the entry takes the start line's label |
| `Ledger.LinesRoundTrip` | slot_count_impact/get_metrics.py:57-69 | matching and pairing the lines the runner writes gives back its entries |
| `Ledger.LedgerRoundTrip` | slot_count_impact/get_metrics.py:52-70 | parsing a ledger the runner wrote gives back exactly the entries written, in order |
| `Ledger.AppendOneRun` | slot_count_impact/flink_benchmark_runner.py:156-162 | appending one well-formed entry to a ledger the reader parses as `es` makes it parse as `es + [e]` |
| `Ledger.SentinelEntryKept` | slot_count_impact/flink_benchmark_runner.py:129 | a run that never became ready writes start `-1`, and the reader keeps that entry rather than dropping it |
| `Ledger.PartialWriteDropped` | slot_count_impact/get_metrics.py:59-64 | a half-written last line after complete entries is ignored |
| `Ledger.NoResync` | slot_count_impact/get_metrics.py:57-64 | one stray start line shifts the pairing: the entry after it is lost because the reader never re-synchronises |
| `Labels.MatchLabelSpec` | slot_count_impact/get_metrics.py:148 | the label matches `tm(\d+)x(\d+)-(\d+)k` with given groups exactly when it is shaped as those digit groups with the literals between (both directions) |
| `Labels.ParseConfigLabel` | slot_count_impact/get_metrics.py:143-160 | the three fields are all present or all absent, and the input is a multiple of 1000 |
| `Labels.ParseConfigLabelAccepts` | slot_count_impact/get_metrics.py:149-154 | a matching label gives the TaskManager count, the slots per TaskManager, and the thousands times 1000 |
| `Labels.ParseConfigLabelRejects` | slot_count_impact/get_metrics.py:155-160 | a label that does not match gives three `None` fields |
| `Labels.ParseConfigLabelRoundTrip` | slot_count_impact/get_metrics.py:143-160 | a label built as `tm<a>x<b>-<c>k…` parses back to `a`, `b` and `c*1000`, whatever follows |
| `Labels.ParseConfigLabelExamples` | slot_count_impact/get_metrics.py:145 | labels of the documented `tm8x1-40k` form decode as intended: `tm8x4-50k` gives 8, 4 and 50000, and `tm8x1-40k-run2` gives 8, 1 and 40000 because the match is a prefix match |
| `Labels.RunnerLabelsUndecoded` | slot_count_impact/flink_benchmark_runner.py:11-20 | the runner's own labels `tm8x1` and `tm2x4` have no `-<n>k` part, so all three decoded fields are empty |
| `Metrics.MetricsTable` | slot_count_impact/get_metrics.py:13-24 | the metric table has ten distinct keys, in order, and every metric is in it |
| `Metrics.DispatchAgreesWithTables` | slot_count_impact/get_metrics.py:26-49 | the query chosen for each metric agrees with the field tag it is listed under; every summed metric uses a sum query; only `jvm_cpu_load` is missing from the field table, and it falls to the value sum |
| `Metrics.DispatchSpec` | slot_count_impact/get_metrics.py:238-245 | `backpressure` is the only mean query; `throughput` and `input_rate` use the rate sum; `remote_bytes_per_sec` uses the count sum; every other metric uses the value sum (each an if-and-only-if) |
| `Metrics.PresentSpec` | slot_count_impact/get_metrics.py:104 | the kept values are exactly the buckets whose sum is not `None` |
| `Metrics.PresentCount` | slot_count_impact/get_metrics.py:104 | each value is kept as many times as buckets carry it, so the average weighs it by its multiplicity |
| `Metrics.PresentAppend` | slot_count_impact/get_metrics.py:104 | the kept values keep the buckets' order: those of a concatenation are those of each part, in turn |
| `Metrics.QueryValue` | slot_count_impact/get_metrics.py:72-141 | only the mean query can return `None`; every sum query returns a number |
| `Metrics.AbsentBucketIgnored` | slot_count_impact/get_metrics.py:104-105 | an empty bucket does not change the average |
| `Metrics.NoValuesAverageZero` | slot_count_impact/get_metrics.py:105 | with no non-empty bucket the average is 0 |
| `Metrics.AverageBounds` | slot_count_impact/get_metrics.py:104-105 | when some bucket is non-empty, the average lies between the smallest and the largest bucket sum |
| `Metrics.BucketAverageExample` | slot_count_impact/get_metrics.py:104-105 | buckets 10, empty and 30 average to 20 |
| `Correlator.HeaderFromMetrics` | slot_count_impact/get_metrics.py:212-213 | the header is the four config columns, then the metric keys in table order, then the two time columns |
| `Correlator.HeaderDistinct` | slot_count_impact/get_metrics.py:212-213 | no column appears twice in the header |
| `Correlator.HeaderSpec` | slot_count_impact/get_metrics.py:212-213 | every column a row can hold is in the header |
| `Correlator.BuildRow` | slot_count_impact/get_metrics.py:225-251 | the loop over the metrics builds exactly the row the specification `RowOf` describes |
| `Correlator.RowFields` | slot_count_impact/get_metrics.py:225-251 | every row has every column; a metric's cell is the value its dispatched query returns, or empty when there is none; only `backpressure` can be empty |
| `Correlator.RowsOf` | slot_count_impact/get_metrics.py:219-252 | one row per ledger entry, in ledger order |
| `Correlator.Correlate` | slot_count_impact/get_metrics.py:219-252 | the loop over the entries returns one row per entry, in order |
| `Correlator.FirstMissing` | slot_count_impact/get_metrics.py:205-207 | the first point whose ledger file does not exist: every point before it has a ledger |
| `Correlator.RunSpec` | slot_count_impact/get_metrics.py:195-252 | the correlator writes a table for every point before the first missing ledger, then stops with that ledger's path, or finishes when none is missing |
| `Correlator.CorrelatePoints` | slot_count_impact/get_metrics.py:197-252 | the loop over the points computes the specification `Run` |
| `Correlator.CorrelateAll` | slot_count_impact/get_metrics.py:195-252 | the correlator's `main` runs over its own tables in benchmark, rate, configuration order |
| `Manifest.PutGet` | slot_count_impact/flink_benchmark_runner.py:61-73 | after writing a value at a path inside existing mappings, reading that path gives the value |
| `Manifest.PutFrame` | slot_count_impact/flink_benchmark_runner.py:61-73 | a write at one path leaves every unrelated path unchanged |
| `Manifest.PutPut` | slot_count_impact/flink_benchmark_runner.py:61-73 | writing one path twice leaves the last value |
| `Manifest.PutCommute` | slot_count_impact/flink_benchmark_runner.py:61-73 | writes at unrelated paths can be done in either order |
| `Manifest.ApplyIdempotent` | slot_count_impact/flink_benchmark_runner.py:60-73 | applying a set of writes to unrelated paths twice is the same as applying it once |
| `Manifest.WritesLayout` | slot_count_impact/flink_benchmark_runner.py:60-73 | the six fields `update_config` writes are pairwise unrelated paths, each inside or apart from the three sections it reads |
| `Manifest.ConfiguredFields` | slot_count_impact/flink_benchmark_runner.py:60-73 | after the update, the tags are `config=<label>`, the slot count is `str(task_slots)`, the jar is the benchmark's, the args are `--<input var>` and `str(rps)`, and the cpu and memory are the configuration's |
| `Manifest.ConfiguredFrame` | slot_count_impact/flink_benchmark_runner.py:60-73 | the update changes no other field of the manifest |
| `Manifest.ConfiguredIdempotent` | slot_count_impact/flink_benchmark_runner.py:60-73 | updating a manifest twice for the same point gives the same manifest as updating it once |
| `Manifest.ConfiguredSections` | slot_count_impact/flink_benchmark_runner.py:60-73 | the updated manifest still has the three sections the update needs |
| `Manifest.Descriptor.UpdateConfig` | slot_count_impact/flink_benchmark_runner.py:60-73 | the loaded document is updated in place to the configured manifest |
| `Readiness.AreTaskmanagersReady` | slot_count_impact/flink_benchmark_runner.py:87-107 | the loop over the listing lines returns exactly the verdict of the specification `Verdict` |
| `Readiness.ReadySpec` | slot_count_impact/flink_benchmark_runner.py:87-107 | ready exactly when the listing succeeded, has at least the expected number of lines, and every line is `Running` with ready count starting `1/1` |
| `Readiness.NotReadyShort` | slot_count_impact/flink_benchmark_runner.py:94-95 | a failed `kubectl` call or a listing shorter than the expected replicas is not ready |
| `Readiness.ScanFirstFailure` | slot_count_impact/flink_benchmark_runner.py:97-102 | the verdict is decided by the first line that is not ready: `IndexError` when it has fewer than three columns, not ready otherwise |
| `Readiness.IndexErrorSpec` | slot_count_impact/flink_benchmark_runner.py:97-100 | `IndexError` escapes exactly when a line with fewer than three columns is reached before any line that is not ready (both directions) |
| `Readiness.EmptyListing` | slot_count_impact/flink_benchmark_runner.py:93-99 | an empty listing still splits into one empty line: not ready when two or more replicas are expected, `IndexError` otherwise |
| `Readiness.PrefixReadyAccepted` | slot_count_impact/flink_benchmark_runner.py:101 | the ready test is a prefix test, so `1/10` passes as `1/1` |
| `Readiness.Polls` | slot_count_impact/flink_benchmark_runner.py:111 | `range(timeout // 5)` makes no poll exactly when the timeout is under 5 s, and never polls longer than the timeout |
| `Readiness.WaitFirstDecisive` | slot_count_impact/flink_benchmark_runner.py:111-114 | the wait returns at the first poll that is ready or raises, at that poll's time |
| `Readiness.WaitTimesOut` | slot_count_impact/flink_benchmark_runner.py:111-116 | when no poll is ready, the wait gives up after all polls, 5 s apart |
| `Readiness.WaitReadySpec` | slot_count_impact/flink_benchmark_runner.py:109-116 | the wait succeeds exactly when some poll is ready and every earlier poll is not; it then ends within the timeout |
| `Readiness.WaitBounded` | slot_count_impact/flink_benchmark_runner.py:109-116 | the wait takes at most 5 s per poll |
| `Readiness.ShortTimeout` | slot_count_impact/flink_benchmark_runner.py:111-116 | a timeout under 5 s gives up at once without polling |
| `Runner.RunTimesSpec` | slot_count_impact/flink_benchmark_runner.py:127-142 | a run has a start stamp exactly when the wait succeeded; it crashes exactly when the wait raised; the start is at least 600 s after the apply and the end 600 s after the start; a run without a start ends within the 300 s timeout |
| `Runner.BenchSpec` | slot_count_impact/flink_benchmark_runner.py:118-143 | a run leaves the log files alone; the clock does not go back; the configured manifest is applied first; a completed run deletes that manifest and stamps its end at the final clock; a run that never became ready reports start `-1` |
| `Runner.CrashLeavesDeployment` | slot_count_impact/flink_benchmark_runner.py:97-143 | the deployment is applied and never deleted exactly when `IndexError` escapes the readiness check |
| `Runner.TeardownAlways` | slot_count_impact/flink_benchmark_runner.py:139-140 | with the teardown guarded by `finally`, every run applies and then deletes its document, with the same result, clock and ledgers |
| `Runner.LogFileShared` | slot_count_impact/flink_benchmark_runner.py:152 | the runner names a point's ledger as the correlator does |
| `Runner.LogFileInjective` | slot_count_impact/flink_benchmark_runner.py:152 | labels of one length and distinct rates give distinct ledger files |
| `Runner.SweepOrder` | slot_count_impact/flink_benchmark_runner.py:148-150 | the sweep visits `WindowJoin` with `tm8x1` at 5000 and 10000, then `tm2x4` at 5000 and 10000 |
| `Runner.SweepPointsWellFormed` | slot_count_impact/flink_benchmark_runner.py:27-45 | every swept benchmark has a jar and an input variable, and no two points share a ledger |
| `Runner.SweepOnlyAppends` | slot_count_impact/flink_benchmark_runner.py:161-162 | the sweep only appends: no ledger is removed, and each old text is a prefix of the new one |
| `Runner.SweepFrame` | slot_count_impact/flink_benchmark_runner.py:146-162 | a file that is no point's ledger is left as it was |
| `Runner.SweepAppendsOne` | slot_count_impact/flink_benchmark_runner.py:146-162 | after a completed sweep, each point's ledger is its old text plus exactly one entry carrying that point's label |
| `Runner.SweepLedger` | slot_count_impact/flink_benchmark_runner.py:146-162 | after a completed sweep, the correlator parses each point's ledger as its old entries plus one new entry with the point's label |
| `Runner.ReaderMissesSweepLedgers` | slot_count_impact/get_metrics.py:163-207 | from an empty `logs/` directory, the correlator run over the sweep's ledgers stops at `logs/StateMachine_tm8x1_10000_log.txt` and writes no CSV |
| `Runner.SweepSkipsStateMachine` | slot_count_impact/flink_benchmark_runner.py:27-32 | the sweep never writes the ledger the correlator reads first |
| `Runner.AsWrittenLogsNothing` | slot_count_impact/flink_benchmark_runner.py:161 | the main loop as written never changes a log file, and stops with `AttributeError` exactly when the first run completes |
| `Runner.AttributeErrorLosesEntry` | slot_count_impact/flink_benchmark_runner.py:161-162 | where the corrected sweep lengthens the first point's ledger, the sweep as written leaves it unchanged |
| `Runner.Testbed.WaitForReady` | slot_count_impact/flink_benchmark_runner.py:109-116 | the polling loop ends at the result and time of the specification `WaitFrom`, with the cluster and the logs unchanged |
| `Runner.Testbed.RunBenchmark` | slot_count_impact/flink_benchmark_runner.py:118-143 | one run moves the testbed to the state and result of the specification `Bench` |
| `Runner.Testbed.RunPoint` | slot_count_impact/flink_benchmark_runner.py:152-162 | one sweep point runs the benchmark and appends its entry, as `Step` specifies |
| `Runner.Testbed.Sweep` | slot_count_impact/flink_benchmark_runner.py:146-162 | the corrected main loop moves the testbed as `SweepFrom` specifies over the sweep's points |
| `Runner.Testbed.SweepAsWritten` | slot_count_impact/flink_benchmark_runner.py:146-164 | the main loop as written moves the testbed as `SweepAsWrittenFrom` specifies |

## Left out

- Output from `print`, and the progress messages, are not modelled. They have no effect on state.
- `kubectl apply` and `kubectl delete` always succeed here. With `check=True` a failing call would raise `CalledProcessError` out of the sweep; the model has no such failure.
- `kubectl get pods` failing is modelled as the `CallFailed` answer. Its label selector and `--no-headers` flag are fixed and not modelled.
- `load_yaml`, `save_yaml` and the `/tmp/flink_benchmark_<label>.yaml` file are not modelled. The base manifest is a value, and the applied manifest is recorded in the cluster trace as a value.
- `os.makedirs` is not modelled. The log directory is taken to exist.
- `YAML_PATH`, `CONFIG_LABELS` and `FLINK_DEPLOYMENT_NAME` are not modelled. They are constants that are never compared or changed. `wait_for_ready` ignores its name argument.
- YAML parsing and emission, and any YAML alias structure, are not modelled. The manifest is a tree value; `update_config`'s in-place writes through nested dict aliases become path writes on that tree.
- Runner.Testbed.RunBenchmark: requires that the base manifest has the `flinkConfiguration`, `job` and `taskManager.resource` sections. Without them the source raises `KeyError`; that path is not modelled.
- Runner.Testbed.Sweep: the three nested loops are flattened into one loop over the sequence of points in the same order (`Runner.SweepOrder`).
- Time is whole seconds. `kubectl` calls take no time. UTC timestamps come from an oracle, so the exact ISO 8601 rendering is not modelled; the ledger round trip requires only that a stamp is non-empty and has no whitespace.
- InfluxDB is an oracle. The InfluxQL query text, the client connection and the network are not modelled.
- Python floats are modelled as `real`. Rounding, NaN and the difference between the `int` 0 and `0.0` on an empty result are not modelled.
- The first `query_value_sum` (get_metrics.py:82-90) is not modelled. The second definition at 126-141 replaces it before `main` runs.
- CSV formatting is not modelled: quoting, the `:.2f` messages and the file writes. A CSV file is modelled as a header plus a sequence of rows.
- `\d` in the label pattern is modelled as ASCII digits. Python's `\d` also matches other Unicode decimal digits.
- The `StateMachine`, `WordCount` and `SessionWindow` entries commented out in the runner's tables are not modelled. The `RPS` rows for benchmarks that are not swept are kept in the table.
- `plot_results.py` is not part of this model.

## Findings

| source | as written | input that shows it | evidently intended | confidence | as-written member | corrected member |
|---|---|---|---|---|---|---|
| slot_count_impact/flink_benchmark_runner.py:161 | `log_file` is a `str`, and `str` has no `open` method. So `log_file.open("a")` raises `AttributeError` as soon as the first benchmark run returns. The sweep stops there, and no ledger entry is ever written. | any sweep whose first run completes, e.g. the first point `WindowJoin` / `tm8x1` / 5000 with pods that become ready | open the file for append and add the two-line entry for every point | not executed | `Runner.Testbed.SweepAsWritten`, `Runner.AsWrittenLogsNothing` | `Runner.Testbed.Sweep`, `Runner.SweepAppendsOne`, `Runner.SweepLedger` |
| slot_count_impact/flink_benchmark_runner.py:100 | `columns[2]` raises `IndexError` on a pod line with fewer than three columns. Only `CalledProcessError` is caught, so the error escapes `wait_for_ready` and `run_benchmark` before `delete_deployment`, and the deployment stays applied. | `tm2x4` (two replicas) with the listing `x` / `a 1/1 Running` | delete the deployment on every path, as in a `finally` clause | not executed | `Runner.CrashLeavesDeployment`, `Readiness.IndexErrorSpec` | `Runner.FinishGuarded`, `Runner.TeardownAlways` |
