/** The correlator of get_metrics.py (`main`, lines 195-252): for every
    sweep point it reads the point's ledger, builds one result row per
    ledger entry, and writes the rows under a fixed header to the point's
    CSV file. InfluxDB is a parameter: what each query returns for a
    measurement and a time window. */
module Correlator {
  import opened Optional
  import opened PyText
  import Ledger
  import opened Labels
  import opened Metrics

  /** A value of a result row as `csv.DictWriter` receives it: a string, an
      int, a float, or `None`. */
  datatype Cell = Text(s: string) | Int(n: int) | Real(x: real) | Null

  /** The fields of a result row. */
  datatype Column = Config | NumTms | SlotsPerTm | Input | Of(metric: Metric) | TimeStart | TimeEnd

  /** A field's name in the CSV header. */
  function Name(c: Column): string {
    match c
    case Config => "config"
    case NumTms => "num_tms"
    case SlotsPerTm => "slots_per_tm"
    case Input => "input"
    case Of(m) => Key(m)
    case TimeStart => "time_start"
    case TimeEnd => "time_end"
  }

  type Row = map<Column, Cell>

  /** The CSV file a sweep point produces: its header and its rows. */
  datatype Table = Table(header: seq<Column>, rows: seq<Row>)

  /** InfluxDB's answer to a query of kind `q` on the measurement of metric
      `m` (the measurement named `Measurement(m)`) between two timestamps:
      the value each returned point carries in the queried column. */
  type Influx = (Query, Metric, string, string) -> seq<Option<real>>

  /** The CSV field names: the label, its three decoded fields, one column
      per metric, and the time window. */
  function Header(): seq<Column> {
    [Config, NumTms, SlotsPerTm, Input,
     Of(Backpressure), Of(Throughput), Of(InputRate), Of(JvmCpuLoad), Of(JvmCpuTime),
     Of(JvmGcTime), Of(JvmHeapUsed), Of(JvmThreads), Of(ShuffleNettyUsedSegments), Of(RemoteBytesPerSec),
     TimeStart, TimeEnd]
  }

  /** The metric columns come in `METRICS` order, between the decoded label
      fields and the time window. */
  lemma HeaderFromMetrics()
    ensures |Header()| == |METRICS| + 6
    ensures Header()[..4] == [Config, NumTms, SlotsPerTm, Input]
    ensures forall i :: 0 <= i < |METRICS| ==> Header()[4 + i] == Of(METRICS[i])
    ensures Header()[4 + |METRICS|..] == [TimeStart, TimeEnd]
  {
  }

  /** No field appears twice in the header. */
  lemma HeaderDistinct()
    ensures forall i, j :: 0 <= i < j < |Header()| ==> Header()[i] != Header()[j]
  {
  }

  /** The header names every field. */
  lemma HeaderSpec()
    ensures forall c :: c in Header()
  {
    forall c | true
      ensures c in Header()
    {
      if c.Of? {
        match c.metric {
          case Backpressure => assert Header()[4] == c;
          case Throughput => assert Header()[5] == c;
          case InputRate => assert Header()[6] == c;
          case JvmCpuLoad => assert Header()[7] == c;
          case JvmCpuTime => assert Header()[8] == c;
          case JvmGcTime => assert Header()[9] == c;
          case JvmHeapUsed => assert Header()[10] == c;
          case JvmThreads => assert Header()[11] == c;
          case ShuffleNettyUsedSegments => assert Header()[12] == c;
          case RemoteBytesPerSec => assert Header()[13] == c;
        }
      }
    }
  }

  function OptCell(o: Option<nat>): Cell {
    match o
    case None => Null
    case Some(n) => Int(n)
  }

  /** What the dispatched query makes of InfluxDB's answer for one metric
      over the entry's window; `None` is stored as an empty cell. */
  function MetricCell(m: Metric, e: Ledger.Entry, influx: Influx): Cell {
    var q := Dispatch(m);
    match QueryValue(q, influx(q, m, e.start, e.end))
    case None => Null
    case Some(x) => Real(x)
  }

  /** What the row holds in field `c`, given the fields `f` decoded from the
      entry's label. */
  function CellOf(c: Column, e: Ledger.Entry, f: ConfigFields, influx: Influx): Cell {
    match c
    case Config => Text(e.config)
    case NumTms => OptCell(f.numTms)
    case SlotsPerTm => OptCell(f.slotsPerTm)
    case Input => OptCell(f.input)
    case Of(m) => MetricCell(m, e, influx)
    case TimeStart => Text(e.start)
    case TimeEnd => Text(e.end)
  }

  /** The row `main` writes for a ledger entry: a value for every field of
      the header. */
  function RowOf(e: Ledger.Entry, influx: Influx): Row {
    RowFrom(e, ParseConfigLabel(e.config), influx)
  }

  /** The row for entry `e` whose label decodes to `f`. */
  function RowFrom(e: Ledger.Entry, f: ConfigFields, influx: Influx): Row {
    map c | c in Header() :: CellOf(c, e, f, influx)
  }

  /** The row after the first `n` metrics of `METRICS` are filled in: the
      label and time window, the fields decoded from the label, and those
      metrics' fields. */
  function PartialRow(e: Ledger.Entry, f: ConfigFields, influx: Influx, n: nat): Row
    requires n <= |METRICS|
  {
    if n == 0 then
      map[Config := Text(e.config), TimeStart := Text(e.start), TimeEnd := Text(e.end),
          NumTms := OptCell(f.numTms), SlotsPerTm := OptCell(f.slotsPerTm), Input := OptCell(f.input)]
    else
      PartialRow(e, f, influx, n - 1)[Of(METRICS[n - 1]) := MetricCell(METRICS[n - 1], e, influx)]
  }

  /** After `n` metrics the row has the non-metric fields and the first `n`
      metrics' fields, each holding the value the finished row has. */
  lemma {:induction false} PartialRowFields(e: Ledger.Entry, f: ConfigFields, influx: Influx, n: nat, c: Column)
    requires n <= |METRICS|
    ensures c in PartialRow(e, f, influx, n) <==> !c.Of? || Index(c.metric) < n
    ensures c in PartialRow(e, f, influx, n) ==> PartialRow(e, f, influx, n)[c] == CellOf(c, e, f, influx)
  {
    if n > 0 {
      PartialRowFields(e, f, influx, n - 1, c);
      IndexOfEntry(n - 1);
      if c.Of? {
        assert c == Of(METRICS[n - 1]) <==> Index(c.metric) == n - 1;
      }
    }
  }

  /** Once every metric is filled in, the row is the whole row. */
  lemma PartialRowComplete(e: Ledger.Entry, f: ConfigFields, influx: Influx)
    ensures PartialRow(e, f, influx, |METRICS|) == RowFrom(e, f, influx)
  {
    var p := PartialRow(e, f, influx, |METRICS|);
    var r := RowFrom(e, f, influx);
    HeaderSpec();
    forall c | true
      ensures c in p && p[c] == r[c]
    {
      PartialRowFields(e, f, influx, |METRICS|, c);
    }
    assert p == r;
  }

  /** The row assembly of the correlator's inner loop: a dict with the label
      and window, updated with the decoded label, then one metric after
      another. */
  method BuildRow(e: Ledger.Entry, influx: Influx) returns (row: Row)
    ensures row == RowOf(e, influx)
  {
    row := map[Config := Text(e.config), TimeStart := Text(e.start), TimeEnd := Text(e.end)];
    var f := ParseConfigLabel(e.config);
    row := row[NumTms := OptCell(f.numTms)][SlotsPerTm := OptCell(f.slotsPerTm)][Input := OptCell(f.input)];
    var i := 0;
    while i < |METRICS|
      invariant 0 <= i <= |METRICS|
      invariant row == PartialRow(e, f, influx, i)
    {
      var m := METRICS[i];
      var q := Dispatch(m);
      var avg := QueryValue(q, influx(q, m, e.start, e.end));
      if avg.Some? {
        row := row[Of(m) := Real(avg.value)];
      } else {
        row := row[Of(m) := Null];
      }
      i := i + 1;
    }
    PartialRowComplete(e, f, influx);
  }

  /** Every row has a value for every field, and each metric's field holds
      the value of the query the dispatch rule picks: empty exactly when that
      query returned `None`, which only the mean query, for `backpressure`,
      can do. */
  lemma RowFields(e: Ledger.Entry, influx: Influx, m: Metric)
    ensures forall c :: c in RowOf(e, influx)
    ensures var q := Dispatch(m);
      var v := QueryValue(q, influx(q, m, e.start, e.end));
      RowOf(e, influx)[Of(m)] == (if v.Some? then Real(v.value) else Null) &&
      (RowOf(e, influx)[Of(m)] == Null ==> Key(m) == "backpressure")
  {
    HeaderSpec();
    DispatchSpec(m);
  }

  /** The rows of the entries `es`, one per entry, in order. */
  function RowsOf(es: seq<Ledger.Entry>, influx: Influx): (rows: seq<Row>)
    ensures |rows| == |es|
    ensures forall i :: 0 <= i < |es| ==> rows[i] == RowOf(es[i], influx)
  {
    if es == [] then [] else [RowOf(es[0], influx)] + RowsOf(es[1..], influx)
  }

  /** One row per ledger entry, in ledger order. */
  method Correlate(entries: seq<Ledger.Entry>, influx: Influx) returns (rows: seq<Row>)
    ensures rows == RowsOf(entries, influx)
  {
    rows := [];
    for i := 0 to |entries|
      invariant |rows| == i
      invariant forall j :: 0 <= j < i ==> rows[j] == RowOf(entries[j], influx)
    {
      var row := BuildRow(entries[i], influx);
      rows := rows + [row];
    }
  }

  const LOG_DIR: string := "logs/"

  /** The ledger a sweep point is read from. */
  function LogPath(benchmark: string, config: string, rps: nat): string {
    LOG_DIR + benchmark + "_" + config + "_" + NatToString(rps) + "_log.txt"
  }

  /** The CSV file a sweep point's rows go to. */
  function CsvPath(benchmark: string, config: string, rps: nat): string {
    LOG_DIR + benchmark + "_" + config + "_" + NatToString(rps) + "_results.csv"
  }

  /** A sweep point: a benchmark, a configuration label and an input rate. */
  datatype Point = Point(benchmark: string, config: string, rps: nat)

  /** The correlator's own copies of the sweep tables, which differ from the
      runner's: two benchmarks, and other rates for `WindowJoin`. */
  const READER_BENCHMARKS: seq<string> := ["StateMachine", "WindowJoin"]
  const READER_CONFIGS: seq<string> := ["tm8x1", "tm2x4"]

  function ReaderRps(benchmark: string): seq<nat> {
    if benchmark == "StateMachine" then [10000, 50000, 100000, 200000, 400000]
    else if benchmark == "WindowJoin" then [1, 3, 5, 7, 9, 11, 19, 25, 50, 100, 200, 500, 1000]
    else []
  }

  function ForConfigs(b: string, r: nat, cs: seq<string>): (ps: seq<Point>)
    ensures |ps| == |cs|
    ensures forall i :: 0 <= i < |cs| ==> ps[i] == Point(b, cs[i], r)
  {
    if cs == [] then [] else [Point(b, cs[0], r)] + ForConfigs(b, r, cs[1..])
  }

  function ForRates(b: string, rs: seq<nat>, cs: seq<string>): seq<Point> {
    if rs == [] then [] else ForConfigs(b, rs[0], cs) + ForRates(b, rs[1..], cs)
  }

  function ForBenchmarks(bs: seq<string>, cs: seq<string>): seq<Point> {
    if bs == [] then [] else ForRates(bs[0], ReaderRps(bs[0]), cs) + ForBenchmarks(bs[1..], cs)
  }

  /** The correlator's loop order: benchmark, then rate, then configuration. */
  function ReaderPoints(): seq<Point> {
    ForBenchmarks(READER_BENCHMARKS, READER_CONFIGS)
  }

  /** The table written for a point whose ledger has text `text`. */
  function TableFor(text: string, influx: Influx): Table {
    Table(Header(), RowsOf(Ledger.Parsed(text), influx))
  }

  /** The correlator's run over `pts` on the ledgers in `files`, starting
      from the CSV files `out`: a point whose ledger is missing raises
      `FileNotFoundError`, which ends the run with its path. */
  function Run(files: map<string, string>, influx: Influx, pts: seq<Point>, out: map<string, Table>): (map<string, Table>, Option<string>) {
    if pts == [] then (out, None)
    else
      var p := pts[0];
      var log := LogPath(p.benchmark, p.config, p.rps);
      if log !in files then (out, Some(log))
      else Run(files, influx, pts[1..], out[CsvPath(p.benchmark, p.config, p.rps) := TableFor(files[log], influx)])
  }

  /** The correlator's loop over the sweep points `pts`. */
  method CorrelatePoints(files: map<string, string>, influx: Influx, pts: seq<Point>)
    returns (csvs: map<string, Table>, missing: Option<string>)
    ensures (csvs, missing) == Run(files, influx, pts, map[])
  {
    csvs := map[];
    missing := None;
    var i := 0;
    while i < |pts|
      invariant 0 <= i <= |pts|
      invariant Run(files, influx, pts[i..], csvs) == Run(files, influx, pts, map[])
    {
      var p := pts[i];
      var logPath := LogPath(p.benchmark, p.config, p.rps);
      if logPath !in files {
        missing := Some(logPath);
        return;
      }
      var entries := Ledger.ParseLogFile(files[logPath]);
      var rows := Correlate(entries, influx);
      assert rows == TableFor(files[logPath], influx).rows;
      csvs := csvs[CsvPath(p.benchmark, p.config, p.rps) := Table(Header(), rows)];
      assert pts[i..][1..] == pts[i + 1..];
      i := i + 1;
    }
  }

  /** The correlator's `main` over the ledgers in `files`: the CSV files it
      writes, and the ledger path it fails on, if any. */
  method CorrelateAll(files: map<string, string>, influx: Influx) returns (csvs: map<string, Table>, missing: Option<string>)
    ensures (csvs, missing) == Run(files, influx, ReaderPoints(), map[])
  {
    csvs, missing := CorrelatePoints(files, influx, ReaderPoints());
  }

  /** Index of the first point whose ledger is missing, `|pts|` if none is. */
  function FirstMissing(files: map<string, string>, pts: seq<Point>): (j: nat)
    ensures j <= |pts|
    ensures forall i :: 0 <= i < j ==> LogPath(pts[i].benchmark, pts[i].config, pts[i].rps) in files
    ensures j < |pts| ==> LogPath(pts[j].benchmark, pts[j].config, pts[j].rps) !in files
  {
    if pts == [] then 0
    else if LogPath(pts[0].benchmark, pts[0].config, pts[0].rps) !in files then 0
    else 1 + FirstMissing(files, pts[1..])
  }

  /** The CSV files written for the points of `pts`, one after another. */
  function Written(files: map<string, string>, influx: Influx, pts: seq<Point>, out: map<string, Table>): map<string, Table>
    requires forall i :: 0 <= i < |pts| ==> LogPath(pts[i].benchmark, pts[i].config, pts[i].rps) in files
  {
    if pts == [] then out
    else
      var p := pts[0];
      Written(files, influx, pts[1..], out[CsvPath(p.benchmark, p.config, p.rps) := TableFor(files[LogPath(p.benchmark, p.config, p.rps)], influx)])
  }

  /** The run writes the points before the first missing ledger and fails on
      that ledger's path; with every ledger present it fails on none. */
  lemma {:induction false} RunSpec(files: map<string, string>, influx: Influx, pts: seq<Point>, out: map<string, Table>)
    ensures var j := FirstMissing(files, pts);
      Run(files, influx, pts, out) ==
        (Written(files, influx, pts[..j], out),
         if j < |pts| then Some(LogPath(pts[j].benchmark, pts[j].config, pts[j].rps)) else None)
  {
    if pts != [] {
      var p := pts[0];
      var log := LogPath(p.benchmark, p.config, p.rps);
      if log in files {
        var out' := out[CsvPath(p.benchmark, p.config, p.rps) := TableFor(files[log], influx)];
        var j := FirstMissing(files, pts);
        var j' := FirstMissing(files, pts[1..]);
        assert j == 1 + j';
        RunSpec(files, influx, pts[1..], out');
        assert Run(files, influx, pts, out) == Run(files, influx, pts[1..], out');
        assert Written(files, influx, pts[..j], out) == Written(files, influx, pts[1..][..j'], out') by {
          assert pts[..j][0] == p;
          assert pts[..j][1..] == pts[1..][..j'];
        }
        assert j < |pts| ==> pts[j] == pts[1..][j'];
      }
    }
  }
}
