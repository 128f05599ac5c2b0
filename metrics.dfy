/** The metric side of get_metrics.py: the table of metrics (lines 13-24),
    the rule that picks a query for each metric (lines 238-245), and what the
    queries make of the points InfluxDB returns (lines 72-80 and 92-141).
    The database is not modelled: a query's answer is the sequence of the
    values its points carry, `None` where a point has no value. */
module Metrics {
  import opened Optional

  /** The metrics of the result rows, one per key of `METRICS`. */
  datatype Metric =
    | Backpressure | Throughput | InputRate | JvmCpuLoad | JvmCpuTime
    | JvmGcTime | JvmHeapUsed | JvmThreads | ShuffleNettyUsedSegments | RemoteBytesPerSec

  /** The metric's key in `METRICS`, which is also its CSV column name. */
  function Key(m: Metric): string {
    match m
    case Backpressure => "backpressure"
    case Throughput => "throughput"
    case InputRate => "input_rate"
    case JvmCpuLoad => "jvm_cpu_load"
    case JvmCpuTime => "jvm_cpu_time"
    case JvmGcTime => "jvm_gc_time"
    case JvmHeapUsed => "jvm_heap_used"
    case JvmThreads => "jvm_threads"
    case ShuffleNettyUsedSegments => "shuffle_netty_used_segments"
    case RemoteBytesPerSec => "remote_bytes_per_sec"
  }

  /** The InfluxDB measurement the metric is read from. */
  function Measurement(m: Metric): string {
    match m
    case Backpressure => "taskmanager_job_task_backPressuredTimeMsPerSecond"
    case Throughput => "taskmanager_job_task_numRecordsOutPerSecond"
    case InputRate => "taskmanager_job_task_numRecordsInPerSecond"
    case JvmCpuLoad => "taskmanager_Status_JVM_CPU_Load"
    case JvmCpuTime => "taskmanager_Status_JVM_CPU_Time"
    case JvmGcTime => "taskmanager_Status_JVM_GarbageCollector_All_Time"
    case JvmHeapUsed => "taskmanager_Status_JVM_Memory_Heap_Used"
    case JvmThreads => "taskmanager_Status_JVM_Threads_Count"
    case ShuffleNettyUsedSegments => "taskmanager_Status_Shuffle_Netty_UsedMemorySegments"
    case RemoteBytesPerSec => "taskmanager_job_task_Shuffle_Netty_Input_numBytesInRemote"
  }

  /** The keys of `METRICS` in the dict's insertion order, which is the
      column order. */
  const METRICS: seq<Metric> := [
    Backpressure, Throughput, InputRate, JvmCpuLoad, JvmCpuTime,
    JvmGcTime, JvmHeapUsed, JvmThreads, ShuffleNettyUsedSegments, RemoteBytesPerSec
  ]

  /** `METRIC_TO_FIELD`, a table the script declares but never consults. */
  const METRIC_TO_FIELD: map<Metric, string> := map[
    Backpressure := "mean",
    Throughput := "rate",
    InputRate := "rate",
    JvmCpuTime := "value",
    JvmGcTime := "value",
    JvmHeapUsed := "value",
    JvmThreads := "value",
    ShuffleNettyUsedSegments := "value",
    RemoteBytesPerSec := "count"
  ]

  const AGG_METRICS_MEAN: set<Metric> := {Backpressure}

  /** `AGG_METRICS_SUM`, also declared and never consulted. */
  const AGG_METRICS_SUM: set<Metric> := {
    JvmHeapUsed, JvmGcTime, JvmCpuTime, JvmThreads, ShuffleNettyUsedSegments, RemoteBytesPerSec
  }

  /** The metric's position in `METRICS`. */
  function Index(m: Metric): (i: nat)
    ensures i < |METRICS| && METRICS[i] == m
  {
    match m
    case Backpressure => 0
    case Throughput => 1
    case InputRate => 2
    case JvmCpuLoad => 3
    case JvmCpuTime => 4
    case JvmGcTime => 5
    case JvmHeapUsed => 6
    case JvmThreads => 7
    case ShuffleNettyUsedSegments => 8
    case RemoteBytesPerSec => 9
  }

  lemma IndexOfEntry(i: nat)
    requires i < |METRICS|
    ensures Index(METRICS[i]) == i
  {
  }

  /** Every metric appears once in `METRICS`, and no two keys are equal. */
  lemma MetricsTable()
    ensures forall m: Metric :: m in METRICS
    ensures forall i, j :: 0 <= i < j < |METRICS| ==> METRICS[i] != METRICS[j]
    ensures forall m, m' :: Key(m) == Key(m') ==> m == m'
  {
    forall m: Metric
      ensures m in METRICS
    {
      match m
      case Backpressure => assert METRICS[0] == m;
      case Throughput => assert METRICS[1] == m;
      case InputRate => assert METRICS[2] == m;
      case JvmCpuLoad => assert METRICS[3] == m;
      case JvmCpuTime => assert METRICS[4] == m;
      case JvmGcTime => assert METRICS[5] == m;
      case JvmHeapUsed => assert METRICS[6] == m;
      case JvmThreads => assert METRICS[7] == m;
      case ShuffleNettyUsedSegments => assert METRICS[8] == m;
      case RemoteBytesPerSec => assert METRICS[9] == m;
    }
  }

  /** The four queries: `query_mean_metric` (`MEAN("value")`), and
      `query_rate_sum`, `query_count_sum`, `query_value_sum` (the second
      definition, line 126), which sum `rate`, `count` and `value` per
      one-second bucket. */
  datatype Query = MeanQuery | RateSum | CountSum | ValueSum

  /** The per-metric choice of query in the correlator's loop; the script
      tests the metric's key, and keys name metrics one to one. */
  function Dispatch(m: Metric): Query {
    if m == Throughput || m == InputRate then RateSum
    else if m == RemoteBytesPerSec then CountSum
    else if m in AGG_METRICS_MEAN then MeanQuery
    else ValueSum
  }

  /** The word `METRIC_TO_FIELD` uses for a query: the aggregate for the
      mean query, the summed field for the others. */
  function FieldTag(q: Query): string {
    match q
    case MeanQuery => "mean"
    case RateSum => "rate"
    case CountSum => "count"
    case ValueSum => "value"
  }

  /** The dispatch rule sends every metric the unused `METRIC_TO_FIELD`
      table lists to the query that table names, and every metric of the
      unused `AGG_METRICS_SUM` set to a sum query; the one metric the table
      leaves out, `jvm_cpu_load`, gets the value sum. */
  lemma DispatchAgreesWithTables()
    ensures forall m :: m in METRIC_TO_FIELD ==> FieldTag(Dispatch(m)) == METRIC_TO_FIELD[m]
    ensures forall m :: m in AGG_METRICS_SUM ==> Dispatch(m) != MeanQuery
    ensures forall m :: m !in METRIC_TO_FIELD <==> m == JvmCpuLoad
    ensures Dispatch(JvmCpuLoad) == ValueSum
  {
  }

  /** Which keys each query serves: the mean query `backpressure` alone, the
      rate sum `throughput` and `input_rate`, the count sum
      `remote_bytes_per_sec`, and the value sum every other key. */
  lemma DispatchSpec(m: Metric)
    ensures Dispatch(m) == MeanQuery <==> Key(m) == "backpressure"
    ensures Dispatch(m) == RateSum <==> Key(m) == "throughput" || Key(m) == "input_rate"
    ensures Dispatch(m) == CountSum <==> Key(m) == "remote_bytes_per_sec"
    ensures Dispatch(m) == ValueSum <==>
      Key(m) !in {"backpressure", "throughput", "input_rate", "remote_bytes_per_sec"}
  {
  }

  /** The values of the points that have one: `[p["sum"] for p in points if
      p.get("sum") is not None]`. */
  function Present(points: seq<Option<real>>): (vs: seq<real>)
    ensures |vs| <= |points|
  {
    if points == [] then []
    else (if points[0].Some? then [points[0].value] else []) + Present(points[1..])
  }

  /** The comprehension keeps exactly the values that some point carries. */
  lemma {:induction false} PresentSpec(points: seq<Option<real>>, v: real)
    ensures v in Present(points) <==> Some(v) in points
  {
    if points != [] {
      PresentSpec(points[1..], v);
      assert points == [points[0]] + points[1..];
    }
  }

  /** Each value is kept as many times as points carry it, so the average
      weighs it by its multiplicity. */
  lemma {:induction false} PresentCount(points: seq<Option<real>>, v: real)
    ensures multiset(Present(points))[v] == multiset(points)[Some(v)]
  {
    if points != [] {
      PresentCount(points[1..], v);
      assert points == [points[0]] + points[1..];
      var h := if points[0].Some? then [points[0].value] else [];
      assert Present(points) == h + Present(points[1..]);
      assert multiset(Present(points)) == multiset(h) + multiset(Present(points[1..]));
      assert multiset(points) == multiset([points[0]]) + multiset(points[1..]);
    }
  }

  lemma {:induction false} PresentNone(points: seq<Option<real>>)
    requires forall i :: 0 <= i < |points| ==> points[i].None?
    ensures Present(points) == []
  {
    if points != [] {
      PresentNone(points[1..]);
    }
  }

  lemma {:induction false} PresentAppend(a: seq<Option<real>>, b: seq<Option<real>>)
    ensures Present(a + b) == Present(a) + Present(b)
  {
    if a != [] {
      assert (a + b)[0] == a[0];
      assert (a + b)[1..] == a[1..] + b;
      PresentAppend(a[1..], b);
      var h := if a[0].Some? then [a[0].value] else [];
      assert Present(a + b) == h + (Present(a[1..]) + Present(b));
      assert h + (Present(a[1..]) + Present(b)) == (h + Present(a[1..])) + Present(b);
    } else {
      assert a + b == b;
    }
  }

  function Sum(vs: seq<real>): real {
    if vs == [] then 0.0 else vs[0] + Sum(vs[1..])
  }

  lemma {:induction false} SumAppend(a: seq<real>, b: seq<real>)
    ensures Sum(a + b) == Sum(a) + Sum(b)
  {
    if a != [] {
      assert (a + b)[0] == a[0];
      assert (a + b)[1..] == a[1..] + b;
      SumAppend(a[1..], b);
    } else {
      assert a + b == b;
    }
  }

  /** The averaging shared by the three sum queries:
      `sum(values) / len(values) if values else 0`. */
  function BucketAverage(points: seq<Option<real>>): real {
    var vs := Present(points);
    if |vs| == 0 then 0.0 else Sum(vs) / (|vs| as real)
  }

  /** A query's result: the mean query returns its first point's value, or
      `None` when there is no point; the sum queries always return a number. */
  function QueryValue(q: Query, points: seq<Option<real>>): (r: Option<real>)
    ensures q != MeanQuery ==> r.Some?
  {
    if q == MeanQuery then (if points == [] then None else points[0])
    else Some(BucketAverage(points))
  }

  /** A bucket without a value changes nothing: it is left out, not counted
      as zero. */
  lemma AbsentBucketIgnored(a: seq<Option<real>>, b: seq<Option<real>>)
    ensures BucketAverage(a + [None] + b) == BucketAverage(a + b)
  {
    PresentAppend(a + [None], b);
    PresentAppend(a, [None]);
    PresentAppend(a, b);
    assert Present([None]) == [];
    assert Present(a) + [] == Present(a);
  }

  /** With no value in any bucket the average is zero, not `None`. */
  lemma NoValuesAverageZero(points: seq<Option<real>>)
    requires forall i :: 0 <= i < |points| ==> points[i].None?
    ensures BucketAverage(points) == 0.0
  {
    PresentNone(points);
  }

  lemma {:induction false} SumBounds(vs: seq<real>, lo: real, hi: real)
    requires forall i :: 0 <= i < |vs| ==> lo <= vs[i] <= hi
    ensures (|vs| as real) * lo <= Sum(vs)
    ensures Sum(vs) <= (|vs| as real) * hi
  {
    if vs != [] {
      SumBounds(vs[1..], lo, hi);
      assert (|vs| as real) * lo == lo + ((|vs| - 1) as real) * lo;
      assert (|vs| as real) * hi == hi + ((|vs| - 1) as real) * hi;
    }
  }

  lemma DivideBounds(s: real, n: real, lo: real, hi: real)
    requires n > 0.0 && n * lo <= s <= n * hi
    ensures lo <= s / n <= hi
  {
    var q := s / n;
    assert s == n * q;
  }

  lemma {:induction false} PresentBounded(points: seq<Option<real>>, lo: real, hi: real)
    requires forall i :: 0 <= i < |points| && points[i].Some? ==> lo <= points[i].value <= hi
    ensures forall j :: 0 <= j < |Present(points)| ==> lo <= Present(points)[j] <= hi
  {
    if points != [] {
      PresentBounded(points[1..], lo, hi);
    }
  }

  /** The average lies between the least and the greatest value present. */
  lemma AverageBounds(points: seq<Option<real>>, lo: real, hi: real)
    requires forall i :: 0 <= i < |points| && points[i].Some? ==> lo <= points[i].value <= hi
    requires exists i :: 0 <= i < |points| && points[i].Some?
    ensures lo <= BucketAverage(points) <= hi
  {
    var vs := Present(points);
    assert |vs| > 0 by {
      var i :| 0 <= i < |points| && points[i].Some?;
      PresentSpec(points, points[i].value);
      assert points[i] == Some(points[i].value);
    }
    assert (|vs| as real) * lo <= Sum(vs) <= (|vs| as real) * hi by {
      PresentBounded(points, lo, hi);
      SumBounds(vs, lo, hi);
    }
    DivideBounds(Sum(vs), |vs| as real, lo, hi);
  }

  /** Buckets `[10, None, 30]` average to 20. */
  lemma BucketAverageExample()
    ensures BucketAverage([Some(10.0), None, Some(30.0)]) == 20.0
  {
    var points := [Some(10.0), None, Some(30.0)];
    assert points[1..] == [None, Some(30.0)];
    assert points[1..][1..] == [Some(30.0)];
    assert Present(points) == [10.0, 30.0];
    assert [10.0, 30.0][1..] == [30.0];
  }
}
