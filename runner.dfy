/** The sweep controller of flink_benchmark_runner.py: `wait_for_ready`
    (lines 109-116), `run_benchmark` (lines 118-143) and the sweep in `main`
    (lines 146-162). The testbed is a class whose state is what the runner
    changes: the clock, the deployment commands sent to the cluster, and the
    ledger files under logs/. `kubectl get pods`, the wall clock's ISO 8601
    text and the base YAML document are fixed oracles of the testbed. */
module Runner {
  import opened Optional
  import opened PyText
  import opened Manifest
  import opened Readiness
  import Ledger
  import Correlator

  /** `wait_for_ready`'s default timeout, in seconds. */
  const TIMEOUT: int := 300
  /** The stabilisation sleep before `start` is taken, and the recording
      sleep after it (`time.sleep(10 * 60)` both). */
  const STABILISE: nat := 600
  const RECORD: nat := 600

  /** A deployment command: `kubectl apply` or `kubectl delete` on the
      document the runner saved. */
  datatype Action = Applied(doc: Yaml) | Deleted(doc: Yaml)

  /** Everything the runner changes. */
  datatype World = World(clock: nat, cluster: seq<Action>, logs: map<string, string>)

  /** What `run_benchmark` returns, or that `IndexError` escaped from it. */
  datatype RunResult = Stamped(start: string, end: string) | RaisedIndexError

  /** How a sweep ended. */
  datatype Outcome = Completed | SweepIndexError | SweepAttributeError

  /** One point of the sweep. */
  datatype Point = Point(benchmark: string, config: Config, rps: nat)

  // ---------------------------------------------------------------------------
  // Timing of one run

  /** The readiness verdict at every second, for `replicas` expected pods. */
  function Answers(pods: nat -> PodQuery, replicas: int): nat -> Check {
    (t: nat) => Verdict(pods(t), replicas)
  }

  /** A run's times on the clock: the start (absent when the deployment never
      became ready) and the end; or the second `IndexError` escaped. */
  datatype Times = Ran(start: Option<nat>, end: nat) | Crashed(at: nat)

  /** The times of a run whose deployment was applied at second `t0`. */
  function RunTimes(pods: nat -> PodQuery, t0: nat, replicas: int): Times {
    AfterWait(WaitFrom(Answers(pods, replicas), t0, Polls(TIMEOUT)))
  }

  /** The times of a run once its wait ended as `w`. */
  function AfterWait(w: Wait): Times {
    match w.result
    case IndexError => Crashed(w.at)
    case Checked(ready) =>
      if ready then Ran(Some(w.at + STABILISE), w.at + STABILISE + RECORD) else Ran(None, w.at)
  }

  /** A ready run starts after the stabilisation sleep and ends a recording
      period later; a run that never became ready has no start and ends as
      soon as the wait gives up, within the timeout; the start is present
      exactly when the wait succeeded. */
  lemma RunTimesSpec(pods: nat -> PodQuery, t0: nat, replicas: int)
    ensures var r := RunTimes(pods, t0, replicas);
      var w := WaitFrom(Answers(pods, replicas), t0, Polls(TIMEOUT));
      (r.Ran? && r.start.Some? <==> w.result == Checked(true)) &&
      (r.Crashed? <==> w.result == IndexError) &&
      (r.Ran? && r.start.Some? ==> t0 + STABILISE <= r.start.value && r.end == r.start.value + RECORD) &&
      (r.Ran? && r.start.None? ==> t0 <= r.end <= t0 + TIMEOUT)
  {
    WaitBounded(Answers(pods, replicas), t0, Polls(TIMEOUT));
  }

  /** The text of `start` in the ledger: `str(-1)` or the ISO stamp. */
  function StartText(stamp: nat -> string, start: Option<nat>): string {
    if start.None? then "-1" else stamp(start.value)
  }

  // ---------------------------------------------------------------------------
  // One run and the sweep, as functions of the world

  /** `run_benchmark(config, YAML_PATH, benchmark, rps)` on world `w`: apply
      the configured descriptor, wait, sleep and stamp when ready, delete,
      stamp the end. An escaping `IndexError` skips the rest. */
  function Bench(pods: nat -> PodQuery, stamp: nat -> string, base: Yaml, w: World, p: Point): (World, RunResult)
    requires p.benchmark in BENCHMARKS && p.benchmark in INPUT_VAR
  {
    Finish(stamp, Configured(base, p.config, p.benchmark, p.rps), w, RunTimes(pods, w.clock, p.config.replicas))
  }

  /** The world and result of a run that applied `doc` to world `w` and
      whose times were `t`. */
  function Finish(stamp: nat -> string, doc: Yaml, w: World, t: Times): (World, RunResult) {
    match t
    case Crashed(at) => (World(at, w.cluster + [Applied(doc)], w.logs), RaisedIndexError)
    case Ran(start, end) =>
      (World(end, w.cluster + [Applied(doc), Deleted(doc)], w.logs), Stamped(StartText(stamp, start), stamp(end)))
  }

  /** `run_benchmark` always applies first; unless `IndexError` escapes it
      deletes the same document before `end` is stamped, whether or not the
      deployment became ready; `start` stays "-1" unless the wait succeeded;
      it writes no ledger. */
  lemma BenchSpec(pods: nat -> PodQuery, stamp: nat -> string, base: Yaml, w: World, p: Point)
    requires p.benchmark in BENCHMARKS && p.benchmark in INPUT_VAR
    ensures var (w', r) := Bench(pods, stamp, base, w, p);
      var doc := Configured(base, p.config, p.benchmark, p.rps);
      var wait := WaitFrom(Answers(pods, p.config.replicas), w.clock, Polls(TIMEOUT));
      w'.logs == w.logs && w.clock <= w'.clock &&
      |w'.cluster| > |w.cluster| && w'.cluster[..|w.cluster| + 1] == w.cluster + [Applied(doc)] &&
      (r.RaisedIndexError? <==> wait.result == IndexError) &&
      (r.Stamped? ==> w'.cluster == w.cluster + [Applied(doc), Deleted(doc)] && r.end == stamp(w'.clock)) &&
      (r.Stamped? && wait.result == Checked(false) ==> r.start == "-1")
  {
    RunTimesSpec(pods, w.clock, p.config.replicas);
    WaitBounded(Answers(pods, p.config.replicas), w.clock, Polls(TIMEOUT));
    var (w', r) := Bench(pods, stamp, base, w, p);
    if r.Stamped? {
      assert w'.cluster[..|w.cluster| + 1] == w.cluster + [Applied(Configured(base, p.config, p.benchmark, p.rps))];
    }
  }

  /** `run_benchmark`'s effect once its wait ended with `c` at second `u`. */
  lemma BenchAfterWait(pods: nat -> PodQuery, stamp: nat -> string, base: Yaml, w: World, p: Point, c: Check, u: nat)
    requires p.benchmark in BENCHMARKS && p.benchmark in INPUT_VAR
    requires WaitFrom(Answers(pods, p.config.replicas), w.clock, Polls(TIMEOUT)) == Wait(c, u)
    ensures Bench(pods, stamp, base, w, p) ==
      Finish(stamp, Configured(base, p.config, p.benchmark, p.rps), w, AfterWait(Wait(c, u)))
  {
    assert RunTimes(pods, w.clock, p.config.replicas) == AfterWait(Wait(c, u));
  }

  lemma FinishAfterWait(stamp: nat -> string, doc: Yaml, w: World, c: Check, u: nat)
    ensures Finish(stamp, doc, w, AfterWait(Wait(c, u))) ==
      if c == IndexError then (World(u, w.cluster + [Applied(doc)], w.logs), RaisedIndexError)
      else if c == Checked(true) then
        (World(u + STABILISE + RECORD, w.cluster + [Applied(doc), Deleted(doc)], w.logs),
         Stamped(stamp(u + STABILISE), stamp(u + STABILISE + RECORD)))
      else (World(u, w.cluster + [Applied(doc), Deleted(doc)], w.logs), Stamped("-1", stamp(u)))
  {
  }

  /** The deployment is left standing, applied and never deleted, exactly
      when `IndexError` escapes the wait. */
  lemma CrashLeavesDeployment(pods: nat -> PodQuery, stamp: nat -> string, base: Yaml, w: World, p: Point)
    requires p.benchmark in BENCHMARKS && p.benchmark in INPUT_VAR
    ensures var (w', r) := Bench(pods, stamp, base, w, p);
      var doc := Configured(base, p.config, p.benchmark, p.rps);
      r.RaisedIndexError? <==> w'.cluster == w.cluster + [Applied(doc)]
  {
    var (w', r) := Bench(pods, stamp, base, w, p);
    if r.Stamped? {
      assert |w'.cluster| == |w.cluster| + 2;
    }
  }

  /** A run whose teardown sits in a `finally` clause: the deployment is
      deleted whether or not `IndexError` escapes. */
  function FinishGuarded(stamp: nat -> string, doc: Yaml, w: World, t: Times): (World, RunResult) {
    match t
    case Crashed(at) => (World(at, w.cluster + [Applied(doc), Deleted(doc)], w.logs), RaisedIndexError)
    case Ran(_, _) => Finish(stamp, doc, w, t)
  }

  /** With the guarded teardown every run, crashed or not, applies and then
      deletes its document; the result and the ledgers are those of the run
      as written. */
  lemma TeardownAlways(stamp: nat -> string, doc: Yaml, w: World, t: Times)
    ensures var (w', r) := FinishGuarded(stamp, doc, w, t);
      w'.cluster == w.cluster + [Applied(doc), Deleted(doc)] && w'.logs == w.logs &&
      r == Finish(stamp, doc, w, t).1 && w'.clock == Finish(stamp, doc, w, t).0.clock
  {
  }

  /** The runner's ledger file for a point. */
  function LogFile(p: Point): string {
    "logs/" + p.benchmark + "_" + p.config.name + "_" + NatToString(p.rps) + "_log.txt"
  }

  /** The correlator reads a point's ledger from the file the runner writes. */
  lemma LogFileShared(p: Point)
    ensures LogFile(p) == Correlator.LogPath(p.benchmark, p.config.name, p.rps)
  {
    assert Correlator.LOG_DIR == "logs/";
  }

  /** Points of one benchmark whose labels have the same length share a
      ledger only when they share the label and the rate: `str(rps)` is read
      back by `int`. */
  lemma LogFileInjective(p: Point, q: Point)
    requires p.benchmark == q.benchmark && |p.config.name| == |q.config.name|
    requires LogFile(p) == LogFile(q)
    ensures p.config.name == q.config.name && p.rps == q.rps
  {
    var pre := "logs/" + p.benchmark + "_";
    var sp, sq := NatToString(p.rps), NatToString(q.rps);
    var tp, tq := "_" + sp + "_log.txt", "_" + sq + "_log.txt";
    assert LogFile(p) == (pre + p.config.name) + tp;
    assert LogFile(q) == (pre + q.config.name) + tq;
    ConcatCancel(pre + p.config.name, tp, pre + q.config.name, tq);
    ConcatCancel(pre, p.config.name, pre, q.config.name);
    ConcatCancel("_" + sp, "_log.txt", "_" + sq, "_log.txt");
    ConcatCancel("_", sp, "_", sq);
  }

  /** Equal concatenations whose first parts have the same length have equal
      parts. */
  lemma ConcatCancel(a: string, b: string, c: string, d: string)
    requires a + b == c + d && |a| == |c|
    ensures a == c && b == d
  {
    assert a == (a + b)[..|a|] && c == (c + d)[..|c|];
    assert b == (a + b)[|a|..] && d == (c + d)[|c|..];
  }

  /** The ledger entry of a finished run. */
  function EntryOf(p: Point, r: RunResult): Ledger.Entry
    requires r.Stamped?
  {
    Ledger.Entry(p.config.name, r.start, r.end)
  }

  /** `logs[path]` with `text` appended; a missing file starts empty. */
  function Append(logs: map<string, string>, path: string, text: string): map<string, string> {
    logs[path := (if path in logs then logs[path] else "") + text]
  }

  /** One iteration of the sweep with the append it evidently intends. */
  function Step(pods: nat -> PodQuery, stamp: nat -> string, base: Yaml, w: World, p: Point): (World, Outcome)
    requires p.benchmark in BENCHMARKS && p.benchmark in INPUT_VAR
  {
    var (w', r) := Bench(pods, stamp, base, w, p);
    if r.RaisedIndexError? then (w', SweepIndexError)
    else (World(w'.clock, w'.cluster, Append(w'.logs, LogFile(p), Ledger.EntryText(EntryOf(p, r)))), Completed)
  }

  predicate Runnable(pts: seq<Point>) {
    forall p :: p in pts ==> p.benchmark in BENCHMARKS && p.benchmark in INPUT_VAR
  }

  /** The sweep over `pts` from world `w`, stopping at an escaping
      `IndexError`. */
  function SweepFrom(pods: nat -> PodQuery, stamp: nat -> string, base: Yaml, w: World, pts: seq<Point>): (World, Outcome)
    requires Runnable(pts)
    decreases |pts|
  {
    if pts == [] then (w, Completed)
    else
      var (w', o) := Step(pods, stamp, base, w, pts[0]);
      if o != Completed then (w', o) else SweepFrom(pods, stamp, base, w', pts[1..])
  }

  /** The sweep as the source writes it: `log_file.open("a")` is called on a
      `str`, so `AttributeError` ends the sweep right after the first run and
      nothing is appended. */
  function SweepAsWrittenFrom(pods: nat -> PodQuery, stamp: nat -> string, base: Yaml, w: World, pts: seq<Point>): (World, Outcome)
    requires Runnable(pts)
  {
    if pts == [] then (w, Completed)
    else
      var (w', r) := Bench(pods, stamp, base, w, pts[0]);
      (w', if r.RaisedIndexError? then SweepIndexError else SweepAttributeError)
  }

  // ---------------------------------------------------------------------------
  // The sweep's points

  /** `BENCHMARKS`' keys in insertion order, and `RPS`. */
  const BENCHMARK_ORDER: seq<string> := ["WindowJoin"]
  const RPS: map<string, seq<nat>> := map[
    "StateMachine" := [10000, 50000, 100000, 200000, 400000],
    "WindowJoin" := [5000, 10000],
    "WordCount" := [10000, 50000, 100000, 200000, 400000],
    "SessionWindow" := [10000, 50000, 100000, 200000, 400000]]

  lemma BenchmarkOrderKeys()
    ensures forall b :: b in BENCHMARK_ORDER <==> b in BENCHMARKS
  {
  }

  /** `for rps in rs` inside one configuration. */
  function ForRates(b: string, c: Config, rs: seq<nat>): (ps: seq<Point>)
    ensures |ps| == |rs|
    ensures forall j :: 0 <= j < |rs| ==> ps[j] == Point(b, c, rs[j])
  {
    if rs == [] then [] else [Point(b, c, rs[0])] + ForRates(b, c, rs[1..])
  }

  /** `for config in cs: for rps in rs` inside one benchmark. */
  function ForConfigs(b: string, cs: seq<Config>, rs: seq<nat>): seq<Point> {
    if cs == [] then [] else ForRates(b, cs[0], rs) + ForConfigs(b, cs[1..], rs)
  }

  /** `for benchmark in bs: for config in CONFIGS: for rps in RPS[benchmark]`. */
  function ForBenchmarks(bs: seq<string>): seq<Point>
    requires forall b :: b in bs ==> b in RPS
  {
    if bs == [] then [] else ForConfigs(bs[0], CONFIGS, RPS[bs[0]]) + ForBenchmarks(bs[1..])
  }

  function SweepPoints(): seq<Point> {
    ForBenchmarks(BENCHMARK_ORDER)
  }

  /** The sweep runs `WindowJoin` on `tm8x1` at 5000 and 10000 requests per
      second, then on `tm2x4` at the same two rates: configurations are the
      outer loop and rates the inner one. */
  lemma SweepOrder()
    ensures SweepPoints() == [Point("WindowJoin", CONFIGS[0], 5000), Point("WindowJoin", CONFIGS[0], 10000),
                              Point("WindowJoin", CONFIGS[1], 5000), Point("WindowJoin", CONFIGS[1], 10000)]
  {
    var rs: seq<nat> := [5000, 10000];
    var first := ForRates("WindowJoin", CONFIGS[0], rs);
    var second := ForRates("WindowJoin", CONFIGS[1], rs);
    assert ForBenchmarks([]) == [];
    assert SweepPoints() == ForConfigs("WindowJoin", CONFIGS, rs);
    assert CONFIGS[1..][1..] == [];
    assert ForConfigs("WindowJoin", CONFIGS[1..], rs) == second + [];
    assert ForConfigs("WindowJoin", CONFIGS, rs) == first + second;
    assert first == [Point("WindowJoin", CONFIGS[0], 5000), Point("WindowJoin", CONFIGS[0], 10000)];
    assert second == [Point("WindowJoin", CONFIGS[1], 5000), Point("WindowJoin", CONFIGS[1], 10000)];
  }

  predicate SweepPointsReady() {
    Runnable(SweepPoints())
  }

  /** The sweep's points are runnable and write four different ledgers. */
  lemma SweepPointsWellFormed()
    ensures Runnable(SweepPoints()) && DistinctLedgers(SweepPoints())
  {
    SweepOrder();
    DistinctLedgersOf(SweepPoints());
  }

  /** Points of one benchmark whose labels have one length and which differ
      in label or rate have distinct ledgers. */
  lemma DistinctLedgersOf(pts: seq<Point>)
    requires forall a, b :: 0 <= a < b < |pts| ==>
      pts[a].benchmark == pts[b].benchmark && |pts[a].config.name| == |pts[b].config.name| &&
      (pts[a].config.name != pts[b].config.name || pts[a].rps != pts[b].rps)
    ensures DistinctLedgers(pts)
  {
    forall a, b | 0 <= a < b < |pts|
      ensures LogFile(pts[a]) != LogFile(pts[b])
    {
      if LogFile(pts[a]) == LogFile(pts[b]) {
        LogFileInjective(pts[a], pts[b]);
      }
    }
  }

  // ---------------------------------------------------------------------------
  // What the sweep does to the ledgers

  /** The sweep only appends: every ledger keeps its old text as a prefix,
      and no file disappears. */
  lemma {:induction false} SweepOnlyAppends(pods: nat -> PodQuery, stamp: nat -> string, base: Yaml, w: World, pts: seq<Point>)
    requires Runnable(pts)
    ensures var w' := SweepFrom(pods, stamp, base, w, pts).0;
      forall path :: path in w.logs ==> path in w'.logs && w.logs[path] <= w'.logs[path]
    decreases |pts|
  {
    if pts != [] {
      var (w1, o) := Step(pods, stamp, base, w, pts[0]);
      assert pts[0] in pts;
      assert forall path :: path in w.logs ==> path in w1.logs && w.logs[path] <= w1.logs[path];
      if o == Completed {
        assert Runnable(pts[1..]) by {
          assert forall p :: p in pts[1..] ==> p in pts;
        }
        SweepOnlyAppends(pods, stamp, base, w1, pts[1..]);
      }
    }
  }

  /** A ledger no remaining point writes keeps its text. */
  lemma {:induction false} SweepFrame(pods: nat -> PodQuery, stamp: nat -> string, base: Yaml, w: World, pts: seq<Point>, path: string)
    requires Runnable(pts)
    requires forall p :: p in pts ==> LogFile(p) != path
    ensures var w' := SweepFrom(pods, stamp, base, w, pts).0;
      (path in w'.logs <==> path in w.logs) && (path in w.logs ==> w'.logs[path] == w.logs[path])
    decreases |pts|
  {
    if pts != [] {
      var (w1, o) := Step(pods, stamp, base, w, pts[0]);
      assert pts[0] in pts;
      if o == Completed {
        assert forall p :: p in pts[1..] ==> p in pts;
        SweepFrame(pods, stamp, base, w1, pts[1..], path);
      }
    }
  }

  /** The text of a ledger before the sweep, empty if it does not exist. */
  function Text(logs: map<string, string>, path: string): string {
    if path in logs then logs[path] else ""
  }

  /** The entry's timestamps are the sentinel or readings of the clock. */
  ghost predicate FromClock(stamp: nat -> string, e: Ledger.Entry) {
    (e.start == "-1" || exists t :: e.start == stamp(t)) && exists t :: e.end == stamp(t)
  }

  /** One step appends one entry of the point's label, stamped by the clock,
      to the point's ledger when the run finishes, and leaves the ledgers
      alone when `IndexError` escapes. */
  lemma StepLogs(pods: nat -> PodQuery, stamp: nat -> string, base: Yaml, w: World, p: Point)
    requires p.benchmark in BENCHMARKS && p.benchmark in INPUT_VAR
    ensures var (w1, o) := Step(pods, stamp, base, w, p);
      (o == Completed ==>
         exists e: Ledger.Entry :: e.config == p.config.name && FromClock(stamp, e) &&
           w1.logs == Append(w.logs, LogFile(p), Ledger.EntryText(e))) &&
      (o != Completed ==> o == SweepIndexError && w1.logs == w.logs)
  {
    var (w0, r) := Bench(pods, stamp, base, w, p);
    if r.Stamped? {
      var e := EntryOf(p, r);
      assert FromClock(stamp, e);
    }
  }

  /** No two points share a ledger file. */
  predicate DistinctLedgers(pts: seq<Point>) {
    forall a, b :: 0 <= a < b < |pts| ==> LogFile(pts[a]) != LogFile(pts[b])
  }

  lemma DistinctTail(pts: seq<Point>)
    requires pts != [] && DistinctLedgers(pts) && Runnable(pts)
    ensures DistinctLedgers(pts[1..]) && Runnable(pts[1..])
    ensures forall p :: p in pts[1..] ==> LogFile(p) != LogFile(pts[0])
  {
    forall a, b | 0 <= a < b < |pts[1..]|
      ensures LogFile(pts[1..][a]) != LogFile(pts[1..][b])
    {
      assert pts[1..][a] == pts[a + 1] && pts[1..][b] == pts[b + 1];
    }
    forall p | p in pts[1..]
      ensures LogFile(p) != LogFile(pts[0]) && p in pts
    {
      var k :| 0 <= k < |pts[1..]| && pts[1..][k] == p;
      assert pts[k + 1] == p;
    }
  }

  /** Ledger `path` of `after` holds its text in `before` followed by one
      clock-stamped entry labelled `name`. */
  ghost predicate GainedOne(stamp: nat -> string, before: map<string, string>, after: map<string, string>, path: string, name: string) {
    path in after &&
    exists e: Ledger.Entry :: e.config == name && FromClock(stamp, e) &&
      after[path] == Text(before, path) + Ledger.EntryText(e)
  }

  /** A gain survives when the ledger is then left as it was. */
  lemma GainedKept(stamp: nat -> string, before: map<string, string>, mid: map<string, string>, after: map<string, string>, path: string, name: string)
    requires GainedOne(stamp, before, mid, path, name)
    requires path in after && after[path] == mid[path]
    ensures GainedOne(stamp, before, after, path, name)
  {
    var e: Ledger.Entry :| e.config == name && FromClock(stamp, e) &&
      mid[path] == Text(before, path) + Ledger.EntryText(e);
    assert after[path] == Text(before, path) + Ledger.EntryText(e);
  }

  /** A gain made after an earlier step that left the ledger's text alone
      is a gain over the world before that step. */
  lemma GainedAfter(stamp: nat -> string, before: map<string, string>, mid: map<string, string>, after: map<string, string>, path: string, name: string)
    requires GainedOne(stamp, mid, after, path, name)
    requires Text(mid, path) == Text(before, path)
    ensures GainedOne(stamp, before, after, path, name)
  {
    var e: Ledger.Entry :| e.config == name && FromClock(stamp, e) &&
      after[path] == Text(mid, path) + Ledger.EntryText(e);
    assert after[path] == Text(before, path) + Ledger.EntryText(e);
  }

  /** A completed step gains one entry in its own ledger and leaves every
      other ledger's text as it was. */
  lemma StepGains(pods: nat -> PodQuery, stamp: nat -> string, base: Yaml, w: World, p: Point, path: string)
    requires p.benchmark in BENCHMARKS && p.benchmark in INPUT_VAR
    requires Step(pods, stamp, base, w, p).1 == Completed
    ensures var w1 := Step(pods, stamp, base, w, p).0;
      GainedOne(stamp, w.logs, w1.logs, LogFile(p), p.config.name) &&
      (path != LogFile(p) ==> (path in w1.logs <==> path in w.logs) && Text(w1.logs, path) == Text(w.logs, path))
  {
    StepLogs(pods, stamp, base, w, p);
    var w1 := Step(pods, stamp, base, w, p).0;
    var e: Ledger.Entry :| e.config == p.config.name && FromClock(stamp, e) &&
      w1.logs == Append(w.logs, LogFile(p), Ledger.EntryText(e));
    assert w1.logs[LogFile(p)] == Text(w.logs, LogFile(p)) + Ledger.EntryText(e);
  }

  /** A completed sweep is a completed first step followed by a completed
      sweep of the rest. */
  lemma SweepUnfold(pods: nat -> PodQuery, stamp: nat -> string, base: Yaml, w: World, pts: seq<Point>)
    requires Runnable(pts) && pts != []
    requires SweepFrom(pods, stamp, base, w, pts).1 == Completed
    ensures pts[0].benchmark in BENCHMARKS && pts[0].benchmark in INPUT_VAR
    ensures var (w1, o) := Step(pods, stamp, base, w, pts[0]);
      o == Completed && SweepFrom(pods, stamp, base, w, pts) == SweepFrom(pods, stamp, base, w1, pts[1..])
  {
    assert pts[0] in pts;
  }

  /** The first point's ledger gains one entry over a completed sweep: the
      later points write other ledgers. */
  lemma SweepAppendsFirst(pods: nat -> PodQuery, stamp: nat -> string, base: Yaml, w: World, pts: seq<Point>)
    requires Runnable(pts) && DistinctLedgers(pts) && pts != []
    requires SweepFrom(pods, stamp, base, w, pts).1 == Completed
    ensures GainedOne(stamp, w.logs, SweepFrom(pods, stamp, base, w, pts).0.logs, LogFile(pts[0]), pts[0].config.name)
  {
    var w1 := Step(pods, stamp, base, w, pts[0]).0;
    var path := LogFile(pts[0]);
    DistinctTail(pts);
    SweepUnfold(pods, stamp, base, w, pts);
    StepGains(pods, stamp, base, w, pts[0], path);
    SweepFrame(pods, stamp, base, w1, pts[1..], path);
    GainedKept(stamp, w.logs, w1.logs, SweepFrom(pods, stamp, base, w1, pts[1..]).0.logs, path, pts[0].config.name);
  }

  /** When the sweep completes over points with distinct ledgers, each
      point's ledger gained exactly one two-line entry, labelled with that
      point's configuration. */
  lemma {:induction false} SweepAppendsOne(pods: nat -> PodQuery, stamp: nat -> string, base: Yaml, w: World, pts: seq<Point>, i: nat)
    requires Runnable(pts) && DistinctLedgers(pts) && i < |pts|
    requires SweepFrom(pods, stamp, base, w, pts).1 == Completed
    ensures GainedOne(stamp, w.logs, SweepFrom(pods, stamp, base, w, pts).0.logs, LogFile(pts[i]), pts[i].config.name)
    decreases |pts|
  {
    if i == 0 {
      SweepAppendsFirst(pods, stamp, base, w, pts);
    } else {
      var w1 := Step(pods, stamp, base, w, pts[0]).0;
      var path := LogFile(pts[i]);
      DistinctTail(pts);
      SweepUnfold(pods, stamp, base, w, pts);
      assert pts[1..][i - 1] == pts[i];
      assert path != LogFile(pts[0]);
      StepGains(pods, stamp, base, w, pts[0], path);
      SweepAppendsOne(pods, stamp, base, w1, pts[1..], i - 1);
      GainedAfter(stamp, w.logs, w1.logs, SweepFrom(pods, stamp, base, w1, pts[1..]).0.logs, path, pts[i].config.name);
    }
  }

  /** Read back, that ledger holds the entries it held before and then the
      new run, whatever the timestamps, as long as the clock's text has no
      whitespace and the label reads back unchanged. */
  lemma SweepLedger(pods: nat -> PodQuery, stamp: nat -> string, base: Yaml, w: World, pts: seq<Point>, i: nat, es: seq<Ledger.Entry>)
    requires Runnable(pts) && DistinctLedgers(pts) && i < |pts|
    requires SweepFrom(pods, stamp, base, w, pts).1 == Completed
    requires forall t :: Ledger.StampOk(stamp(t))
    requires Ledger.LabelOk(pts[i].config.name)
    requires forall e :: e in es ==> Ledger.Writable(e)
    requires Text(w.logs, LogFile(pts[i])) == Ledger.LedgerText(es)
    ensures var w' := SweepFrom(pods, stamp, base, w, pts).0;
      LogFile(pts[i]) in w'.logs &&
      exists e: Ledger.Entry :: e.config == pts[i].config.name &&
        Ledger.Parsed(w'.logs[LogFile(pts[i])]) == es + [e]
  {
    SweepAppendsOne(pods, stamp, base, w, pts, i);
    var w' := SweepFrom(pods, stamp, base, w, pts).0;
    var e: Ledger.Entry :| e.config == pts[i].config.name && FromClock(stamp, e) &&
      w'.logs[LogFile(pts[i])] == Text(w.logs, LogFile(pts[i])) + Ledger.EntryText(e);
    AppendedEntryReads(stamp, es, e);
  }

  /** A clock-stamped entry appended to a ledger of readable entries reads
      back after them. */
  lemma AppendedEntryReads(stamp: nat -> string, es: seq<Ledger.Entry>, e: Ledger.Entry)
    requires forall t :: Ledger.StampOk(stamp(t))
    requires FromClock(stamp, e) && Ledger.LabelOk(e.config)
    requires forall x :: x in es ==> Ledger.Writable(x)
    ensures Ledger.Parsed(Ledger.LedgerText(es) + Ledger.EntryText(e)) == es + [e]
  {
    assert NoSpace("-1");
    assert Ledger.Writable(e);
    Ledger.AppendOneRun(es, e);
  }

  /** The correlator's tables disagree with the runner's: its first ledger,
      `StateMachine` on `tm8x1` at 10000, is one no sweep point writes. So
      after a sweep that started without ledgers, the correlator stops at
      once with `FileNotFoundError` on that path and writes no CSV. */
  lemma ReaderMissesSweepLedgers(pods: nat -> PodQuery, stamp: nat -> string, base: Yaml, w: World, influx: Correlator.Influx)
    requires w.logs == map[]
    ensures SweepPointsReady()
    ensures var logs := SweepFrom(pods, stamp, base, w, SweepPoints()).0.logs;
      Correlator.Run(logs, influx, Correlator.ReaderPoints(), map[]) ==
        (map[], Some(Correlator.LogPath("StateMachine", "tm8x1", 10000)))
  {
    SweepPointsWellFormed();
    ReaderFirstPoint();
    SweepSkipsStateMachine();
    SweepFrame(pods, stamp, base, w, SweepPoints(), Correlator.LogPath("StateMachine", "tm8x1", 10000));
  }

  lemma ReaderFirstPoint()
    ensures Correlator.ReaderPoints() != []
    ensures Correlator.ReaderPoints()[0] == Correlator.Point("StateMachine", "tm8x1", 10000)
  {
    var cs := Correlator.READER_CONFIGS;
    var rs := Correlator.ReaderRps("StateMachine");
    assert Correlator.ReaderPoints() == Correlator.ForRates("StateMachine", rs, cs) + Correlator.ForBenchmarks(["WindowJoin"], cs);
    assert Correlator.ForRates("StateMachine", rs, cs) == Correlator.ForConfigs("StateMachine", 10000, cs) + Correlator.ForRates("StateMachine", rs[1..], cs);
  }

  lemma SweepSkipsStateMachine()
    ensures forall p :: p in SweepPoints() ==> LogFile(p) != Correlator.LogPath("StateMachine", "tm8x1", 10000)
  {
    SweepOrder();
    assert forall p :: p in SweepPoints() ==> p.benchmark == "WindowJoin";
    LogPathInitial("StateMachine", "tm8x1", 10000);
    forall p | p in SweepPoints()
      ensures LogFile(p) != Correlator.LogPath("StateMachine", "tm8x1", 10000)
    {
      LogFileShared(p);
      LogPathInitial(p.benchmark, p.config.name, p.rps);
    }
  }

  /** A ledger path's sixth character is its benchmark's first. */
  lemma LogPathInitial(b: string, c: string, r: nat)
    requires b != []
    ensures Correlator.LogPath(b, c, r)[5] == b[0]
  {
  }

  /** As written, the sweep never finishes and never writes a ledger: it
      stops with `AttributeError` after the first run, or with `IndexError`
      during it. */
  lemma AsWrittenLogsNothing(pods: nat -> PodQuery, stamp: nat -> string, base: Yaml, w: World, pts: seq<Point>)
    requires Runnable(pts) && pts != []
    ensures var (w', o) := SweepAsWrittenFrom(pods, stamp, base, w, pts);
      w'.logs == w.logs && o != Completed &&
      (o == SweepAttributeError <==> Step(pods, stamp, base, w, pts[0]).1 == Completed)
  {
    assert pts[0] in pts;
  }

  /** Where the corrected sweep completes, the first point's ledger grows by
      its entry, and the sweep as written leaves that ledger as it was. */
  lemma AttributeErrorLosesEntry(pods: nat -> PodQuery, stamp: nat -> string, base: Yaml, w: World, pts: seq<Point>)
    requires Runnable(pts) && DistinctLedgers(pts) && pts != []
    requires SweepFrom(pods, stamp, base, w, pts).1 == Completed
    ensures var path := LogFile(pts[0]);
      |Text(SweepFrom(pods, stamp, base, w, pts).0.logs, path)| > |Text(w.logs, path)| &&
      Text(SweepAsWrittenFrom(pods, stamp, base, w, pts).0.logs, path) == Text(w.logs, path)
  {
    SweepAppendsOne(pods, stamp, base, w, pts, 0);
    AsWrittenLogsNothing(pods, stamp, base, w, pts);
  }

  // ---------------------------------------------------------------------------
  // The runner, step by step

  /** The testbed the runner drives. `pods(t)` is what `kubectl get pods`
      answers at second `t`, `stamp(t)` what
      `datetime.now(timezone.utc).isoformat()` gives (with "Z" for "+00:00")
      at second `t`, and `base` the document `load_yaml(YAML_PATH)` reads. */
  class Testbed {
    const pods: nat -> PodQuery
    const stamp: nat -> string
    const base: Yaml
    var clock: nat
    var cluster: seq<Action>
    var logs: map<string, string>

    constructor (pods: nat -> PodQuery, stamp: nat -> string, base: Yaml, clock: nat, logs: map<string, string>)
      ensures this.pods == pods && this.stamp == stamp && this.base == base
      ensures this.clock == clock && cluster == [] && this.logs == logs
    {
      this.pods := pods;
      this.stamp := stamp;
      this.base := base;
      this.clock := clock;
      cluster := [];
      this.logs := logs;
    }

    function State(): World
      reads this
    {
      World(clock, cluster, logs)
    }

    /** `wait_for_ready(name, replicas, timeout)`: up to `timeout // 5` polls,
        five seconds apart. */
    method WaitForReady(replicas: int, timeout: int) returns (c: Check)
      modifies this
      ensures Wait(c, clock) == WaitFrom(Answers(pods, replicas), old(clock), Polls(timeout))
      ensures cluster == old(cluster) && logs == old(logs)
    {
      var n := Polls(timeout);
      var i := 0;
      while i < n
        invariant 0 <= i <= n
        invariant WaitFrom(Answers(pods, replicas), old(clock), n) == WaitFrom(Answers(pods, replicas), clock, n - i)
        invariant cluster == old(cluster) && logs == old(logs)
      {
        c := AreTaskmanagersReady(pods(clock), replicas);
        if c != Checked(false) {
          return;
        }
        clock := clock + 5;
        i := i + 1;
      }
      c := Checked(false);
    }

    /** The first half of `run_benchmark`: load the base document, update it
        for the point, and apply it. */
    method Deploy(config: Config, benchmark: string, rps: nat) returns (doc: Yaml)
      requires benchmark in BENCHMARKS && benchmark in INPUT_VAR && Sections(base)
      modifies this
      ensures doc == Configured(base, config, benchmark, rps)
      ensures clock == old(clock) && cluster == old(cluster) + [Applied(doc)] && logs == old(logs)
    {
      var descriptor := new Descriptor(base);
      descriptor.UpdateConfig(config, benchmark, rps);
      doc := descriptor.doc;
      cluster := cluster + [Applied(doc)];
    }

    /** `run_benchmark(config, YAML_PATH, benchmark, rps)`. The base document
        must have the three sections `update_config` writes into. */
    method RunBenchmark(config: Config, benchmark: string, rps: nat) returns (r: RunResult)
      requires benchmark in BENCHMARKS && benchmark in INPUT_VAR && Sections(base)
      modifies this
      ensures (State(), r) == Bench(pods, stamp, base, old(State()), Point(benchmark, config, rps))
    {
      ghost var w0 := State();
      var doc := Deploy(config, benchmark, rps);
      var ready := WaitForReady(config.replicas, TIMEOUT);
      BenchAfterWait(pods, stamp, base, w0, Point(benchmark, config, rps), ready, clock);
      r := Conclude(w0, doc, ready);
    }

    /** The second half of `run_benchmark`, once the wait for `doc` (applied
        to world `w0`) returned `ready`: sleep and stamp the start when ready,
        delete, stamp the end; an escaping `IndexError` skips all of it. */
    method Conclude(ghost w0: World, doc: Yaml, ready: Check) returns (r: RunResult)
      requires cluster == w0.cluster + [Applied(doc)] && logs == w0.logs
      modifies this
      ensures (State(), r) == Finish(stamp, doc, w0, AfterWait(Wait(ready, old(clock))))
    {
      FinishAfterWait(stamp, doc, w0, ready, clock);
      if ready == IndexError {
        return RaisedIndexError;
      }
      var start := "-1";
      if ready == Checked(true) {
        clock := clock + STABILISE;
        start := stamp(clock);
        clock := clock + RECORD;
      }
      cluster := cluster + [Deleted(doc)];
      assert cluster == w0.cluster + [Applied(doc), Deleted(doc)];
      r := Stamped(start, stamp(clock));
    }

    /** One iteration of `main`'s loop with the append it evidently
        intends: run the point, then add its two lines to its ledger. */
    method RunPoint(p: Point) returns (o: Outcome)
      requires p.benchmark in BENCHMARKS && p.benchmark in INPUT_VAR && Sections(base)
      modifies this
      ensures (State(), o) == Step(pods, stamp, base, old(State()), p)
    {
      var r := RunBenchmark(p.config, p.benchmark, p.rps);
      if r.RaisedIndexError? {
        return SweepIndexError;
      }
      var entry := Ledger.EntryText(Ledger.Entry(p.config.name, r.start, r.end));
      logs := Append(logs, LogFile(p), entry);
      o := Completed;
    }

    /** `main` with the append it evidently intends: every point's entry goes
        to the end of its ledger. */
    method Sweep() returns (o: Outcome)
      requires Sections(base)
      modifies this
      ensures SweepPointsReady() && (State(), o) == SweepFrom(pods, stamp, base, old(State()), SweepPoints())
    {
      SweepPointsWellFormed();
      var pts := SweepPoints();
      var i := 0;
      while i < |pts|
        invariant 0 <= i <= |pts|
        invariant SweepFrom(pods, stamp, base, old(State()), pts) == SweepFrom(pods, stamp, base, State(), pts[i..])
      {
        assert pts[i] in pts;
        assert Runnable(pts[i..]) by {
          assert forall p :: p in pts[i..] ==> p in pts;
        }
        o := RunPoint(pts[i]);
        if o != Completed {
          return;
        }
        assert pts[i..][1..] == pts[i + 1..];
        i := i + 1;
      }
      o := Completed;
    }

    /** `main` as written: the first run happens, and then
        `log_file.open("a")` on a `str` raises `AttributeError`, so the loop
        never reaches a second point. */
    method SweepAsWritten() returns (o: Outcome)
      requires Sections(base)
      modifies this
      ensures SweepPointsReady() && (State(), o) == SweepAsWrittenFrom(pods, stamp, base, old(State()), SweepPoints())
    {
      SweepPointsWellFormed();
      var pts := SweepPoints();
      if pts == [] {
        return Completed;
      }
      var p := pts[0];
      assert p in pts;
      var r := RunBenchmark(p.config, p.benchmark, p.rps);
      o := if r.RaisedIndexError? then SweepIndexError else SweepAttributeError;
    }
  }
}
