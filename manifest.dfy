/** The deployment descriptor of flink_benchmark_runner.py: the YAML tree of
    the FlinkDeployment loaded from the base file, and `update_config`
    (lines 60-73), which overwrites six fields of it in place. */
module Manifest {
  import opened Optional
  import opened PyText

  /** A value of a document loaded by `yaml.safe_load`. */
  datatype Yaml = Null | Bool(b: bool) | Int(i: int) | Str(s: string) | List(items: seq<Yaml>) | Dict(fields: map<string, Yaml>)

  /** A chain of dictionary keys from the document root. */
  type Path = seq<string>

  /** The value at `p`, if every key on the way is present in a dictionary. */
  function Get(y: Yaml, p: Path): Option<Yaml>
    decreases |p|
  {
    if p == [] then Some(y)
    else
      match y
      case Dict(m) => if p[0] in m then Get(m[p[0]], p[1..]) else None
      case _ => None
  }

  /** The value at `p` is a dictionary. */
  predicate IsDictAt(y: Yaml, p: Path) {
    Get(y, p).Some? && Get(y, p).value.Dict?
  }

  /** Python's `parent[key] = v`, where `parent` is the dictionary reached by
      all keys of `p` but the last and `key` is the last one. Where the parent
      is missing the document is left as it is; `update_config` is only
      called where it exists. */
  function Put(y: Yaml, p: Path, v: Yaml): Yaml
    decreases |p|
  {
    if p == [] then v
    else
      match y
      case Dict(m) =>
        if |p| == 1 then Dict(m[p[0] := v])
        else if p[0] in m then Dict(m[p[0] := Put(m[p[0]], p[1..], v)])
        else y
      case _ => y
  }

  /** Neither path leads through the other. */
  predicate Apart(p: Path, q: Path) {
    !(p <= q) && !(q <= p)
  }

  /** The value written is found at its path when its parent dictionary
      exists. */
  lemma {:induction false} PutGet(y: Yaml, p: Path, v: Yaml)
    requires p != [] && IsDictAt(y, p[..|p| - 1])
    ensures Get(Put(y, p, v), p) == Some(v)
    decreases |p|
  {
    if |p| > 1 {
      assert p[..|p| - 1][0] == p[0] && p[..|p| - 1][1..] == p[1..][..|p| - 2];
      PutGet(y.fields[p[0]], p[1..], v);
    }
  }

  /** A write changes nothing at a path apart from its own. */
  lemma {:induction false} PutFrame(y: Yaml, p: Path, v: Yaml, q: Path)
    requires Apart(p, q)
    ensures Get(Put(y, p, v), q) == Get(y, q)
    decreases |p|
  {
    if y.Dict? && p[0] == q[0] && |p| > 1 && p[0] in y.fields {
      assert Apart(p[1..], q[1..]) by {
        assert p <= q <==> p[1..] <= q[1..];
        assert q <= p <==> q[1..] <= p[1..];
      }
      PutFrame(y.fields[p[0]], p[1..], v, q[1..]);
    }
  }

  /** A write below a dictionary leaves it a dictionary. */
  lemma {:induction false} PutKeepsDict(y: Yaml, p: Path, v: Yaml, q: Path)
    requires q < p && IsDictAt(y, q)
    ensures IsDictAt(Put(y, p, v), q)
    decreases |q|
  {
    if q != [] {
      assert q[1..] < p[1..];
      PutKeepsDict(y.fields[p[0]], p[1..], v, q[1..]);
    }
  }

  /** The second of two writes to one path wins. */
  lemma {:induction false} PutPut(y: Yaml, p: Path, v: Yaml, w: Yaml)
    ensures Put(Put(y, p, v), p, w) == Put(y, p, w)
    decreases |p|
  {
    if p != [] && y.Dict? {
      var m, k := y.fields, p[0];
      if |p| == 1 {
        assert m[k := v][k := w] == m[k := w];
      } else if k in m {
        var inner := Put(m[k], p[1..], v);
        assert Put(y, p, v) == Dict(m[k := inner]);
        assert Put(Dict(m[k := inner]), p, w) == Dict(m[k := inner][k := Put(inner, p[1..], w)]);
        PutPut(m[k], p[1..], v, w);
        assert m[k := inner][k := Put(m[k], p[1..], w)] == m[k := Put(m[k], p[1..], w)];
      }
    }
  }

  /** Writes to paths apart from each other can be made in either order. */
  lemma {:induction false} PutCommute(y: Yaml, p: Path, v: Yaml, q: Path, w: Yaml)
    requires Apart(p, q)
    ensures Put(Put(y, p, v), q, w) == Put(Put(y, q, w), p, v)
    decreases |p|
  {
    if y.Dict? {
      var m := y.fields;
      var a, b := p[0], q[0];
      if a != b {
        CommuteKeys(m, p, v, q, w);
      } else {
        assert Apart(p[1..], q[1..]) by {
          assert p <= q <==> p[1..] <= q[1..];
          assert q <= p <==> q[1..] <= p[1..];
        }
        if a in m {
          PutCommute(m[a], p[1..], v, q[1..], w);
          CommuteBelow(m, p, v, q, w);
        }
      }
    }
  }

  /** Writes below one key of a dictionary commute when they commute in the
      value at that key. */
  lemma CommuteBelow(m: map<string, Yaml>, p: Path, v: Yaml, q: Path, w: Yaml)
    requires |p| > 1 && |q| > 1 && p[0] == q[0] && p[0] in m
    requires Put(Put(m[p[0]], p[1..], v), q[1..], w) == Put(Put(m[p[0]], q[1..], w), p[1..], v)
    ensures Put(Put(Dict(m), p, v), q, w) == Put(Put(Dict(m), q, w), p, v)
  {
    var a := p[0];
    var x := m[a];
    assert Put(Dict(m), p, v) == Dict(m[a := Put(x, p[1..], v)]);
    assert Put(Dict(m), q, w) == Dict(m[a := Put(x, q[1..], w)]);
    assert m[a := Put(x, p[1..], v)][a := Put(Put(x, p[1..], v), q[1..], w)] == m[a := Put(Put(x, p[1..], v), q[1..], w)];
    assert m[a := Put(x, q[1..], w)][a := Put(Put(x, q[1..], w), p[1..], v)] == m[a := Put(Put(x, q[1..], w), p[1..], v)];
  }

  /** Writes below two different keys of a dictionary commute. */
  lemma CommuteKeys(m: map<string, Yaml>, p: Path, v: Yaml, q: Path, w: Yaml)
    requires p != [] && q != [] && p[0] != q[0]
    ensures Put(Put(Dict(m), p, v), q, w) == Put(Put(Dict(m), q, w), p, v)
  {
    var a, b := p[0], q[0];
    PutOtherKey(m, p, v, b);
    PutOtherKey(m, q, w, a);
    var m1 := Put(Dict(m), p, v).fields;
    var m2 := Put(Dict(m), q, w).fields;
    PutOtherKey(m1, q, w, a);
    PutOtherKey(m2, p, v, b);
    var l := Put(Dict(m1), q, w).fields;
    var r := Put(Dict(m2), p, v).fields;
    forall k | true
      ensures (k in l <==> k in r) && (k in l ==> l[k] == r[k])
    {
      if k != a && k != b {
        PutOtherKey(m, p, v, k);
        PutOtherKey(m, q, w, k);
        PutOtherKey(m1, q, w, k);
        PutOtherKey(m2, p, v, k);
      }
    }
    assert l == r;
  }

  /** A write below key `p[0]` of a dictionary leaves it a dictionary, with
      the same value at every other key. */
  lemma PutOtherKey(m: map<string, Yaml>, p: Path, v: Yaml, k: string)
    requires p != [] && k != p[0]
    ensures Put(Dict(m), p, v).Dict?
    ensures k in Put(Dict(m), p, v).fields <==> k in m
    ensures k in m ==> Put(Dict(m), p, v).fields[k] == m[k]
  {
  }

  /** One assignment of `update_config`. */
  datatype Write = Write(path: Path, value: Yaml)

  /** The assignments `ws` made one after another. */
  function ApplyAll(y: Yaml, ws: seq<Write>): Yaml
    decreases |ws|
  {
    if ws == [] then y else ApplyAll(Put(y, ws[0].path, ws[0].value), ws[1..])
  }

  predicate PairwiseApart(ws: seq<Write>) {
    forall i, j :: 0 <= i < j < |ws| ==> Apart(ws[i].path, ws[j].path)
  }

  /** A write whose path is apart from all later ones can be made last. */
  lemma {:induction false} ApplyPast(y: Yaml, w: Write, rest: seq<Write>)
    requires forall r :: r in rest ==> Apart(w.path, r.path)
    ensures ApplyAll(Put(y, w.path, w.value), rest) == Put(ApplyAll(y, rest), w.path, w.value)
    decreases |rest|
  {
    if rest != [] {
      var r := rest[0];
      assert r in rest;
      PutCommute(y, w.path, w.value, r.path, r.value);
      assert forall x :: x in rest[1..] ==> x in rest;
      ApplyPast(Put(y, r.path, r.value), w, rest[1..]);
    }
  }

  /** Making writes to pairwise apart paths a second time changes nothing:
      every value written is independent of what was there before. */
  lemma {:induction false} ApplyIdempotent(y: Yaml, ws: seq<Write>)
    requires PairwiseApart(ws)
    ensures ApplyAll(ApplyAll(y, ws), ws) == ApplyAll(y, ws)
    decreases |ws|
  {
    if ws != [] {
      var w, rest := ws[0], ws[1..];
      assert forall r :: r in rest ==> Apart(w.path, r.path) by {
        forall r | r in rest
          ensures Apart(w.path, r.path)
        {
          var k :| 0 <= k < |rest| && rest[k] == r;
          assert ws[k + 1] == r;
        }
      }
      assert PairwiseApart(rest) by {
        forall i, j | 0 <= i < j < |rest|
          ensures Apart(rest[i].path, rest[j].path)
        {
          assert rest[i] == ws[i + 1] && rest[j] == ws[j + 1];
        }
      }
      var a := ApplyAll(y, rest);
      ApplyPast(y, w, rest);
      assert ApplyAll(y, ws) == Put(a, w.path, w.value);
      ApplyPast(Put(a, w.path, w.value), w, rest);
      PutPut(ApplyAll(a, rest), w.path, w.value, w.value);
      ApplyIdempotent(y, rest);
      ApplyPast(a, w, rest);
    }
  }

  /** A path apart from every written one keeps its value. */
  lemma {:induction false} ApplyFrame(y: Yaml, ws: seq<Write>, q: Path)
    requires forall w :: w in ws ==> Apart(w.path, q)
    ensures Get(ApplyAll(y, ws), q) == Get(y, q)
    decreases |ws|
  {
    if ws != [] {
      assert ws[0] in ws;
      PutFrame(y, ws[0].path, ws[0].value, q);
      assert forall w :: w in ws[1..] ==> w in ws;
      ApplyFrame(Put(y, ws[0].path, ws[0].value), ws[1..], q);
    }
  }

  /** A dictionary that every write is apart from or lies below stays a
      dictionary. */
  lemma {:induction false} ApplyKeepsDict(y: Yaml, ws: seq<Write>, q: Path)
    requires IsDictAt(y, q)
    requires forall w :: w in ws ==> Apart(w.path, q) || q < w.path
    ensures IsDictAt(ApplyAll(y, ws), q)
    decreases |ws|
  {
    if ws != [] {
      var w := ws[0];
      assert w in ws;
      if Apart(w.path, q) {
        PutFrame(y, w.path, w.value, q);
      } else {
        PutKeepsDict(y, w.path, w.value, q);
      }
      assert forall x :: x in ws[1..] ==> x in ws;
      ApplyKeepsDict(Put(y, w.path, w.value), ws[1..], q);
    }
  }

  // ---------------------------------------------------------------------------
  // The runner's tables and update_config

  /** One entry of the runner's `CONFIGS`. */
  datatype Config = Config(name: string, taskSlots: nat, cpu: nat, memory: string, replicas: nat)

  const CONFIGS: seq<Config> := [
    Config("tm8x1", 1, 1, "2048m", 8),
    Config("tm2x4", 4, 4, "8192m", 2)
  ]

  /** The runner's `BENCHMARKS`: the job jar of each benchmark it runs. */
  const BENCHMARKS: map<string, string> := map["WindowJoin" := "local:///opt/flink/examples/streaming/WindowJoin.jar"]

  /** The runner's `input_var`: the name of each benchmark's rate argument. */
  const INPUT_VAR: map<string, string> := map["StateMachine" := "rps", "WindowJoin" := "rate"]

  const FLINK_CONF: Path := ["spec", "flinkConfiguration"]
  const JOB: Path := ["spec", "job"]
  const TM_RESOURCE: Path := ["spec", "taskManager", "resource"]

  const TAGS_PATH: Path := FLINK_CONF + ["metrics.reporter.influxdb.tags"]
  const SLOTS_PATH: Path := FLINK_CONF + ["taskmanager.numberOfTaskSlots"]
  const JAR_PATH: Path := JOB + ["jarURI"]
  const ARGS_PATH: Path := JOB + ["args"]
  const CPU_PATH: Path := TM_RESOURCE + ["cpu"]
  const MEMORY_PATH: Path := TM_RESOURCE + ["memory"]

  /** The six paths `update_config` assigns, in source order. */
  const WRITTEN: seq<Path> := [TAGS_PATH, SLOTS_PATH, JAR_PATH, ARGS_PATH, CPU_PATH, MEMORY_PATH]

  /** The three dictionaries `update_config` indexes into exist. */
  predicate Sections(y: Yaml) {
    IsDictAt(y, FLINK_CONF) && IsDictAt(y, JOB) && IsDictAt(y, TM_RESOURCE)
  }

  /** The assignments of `update_config`, in source order. */
  function Writes(config: Config, benchmark: string, rps: nat): seq<Write>
    requires benchmark in BENCHMARKS && benchmark in INPUT_VAR
  {
    [Write(TAGS_PATH, Str("config=" + config.name)),
     Write(SLOTS_PATH, Str(NatToString(config.taskSlots))),
     Write(JAR_PATH, Str(BENCHMARKS[benchmark])),
     Write(ARGS_PATH, List([Str("--" + INPUT_VAR[benchmark]), Str(NatToString(rps))])),
     Write(CPU_PATH, Int(config.cpu)),
     Write(MEMORY_PATH, Str(config.memory))]
  }

  /** The descriptor after `update_config(y, config, benchmark, rps)`. */
  function Configured(y: Yaml, config: Config, benchmark: string, rps: nat): Yaml
    requires benchmark in BENCHMARKS && benchmark in INPUT_VAR
  {
    ApplyAll(y, Writes(config, benchmark, rps))
  }

  /** Paths that differ at some position lie apart. */
  lemma DifferAt(p: Path, q: Path, i: nat)
    requires i < |p| && i < |q| && p[i] != q[i]
    ensures Apart(p, q)
  {
  }

  /** The six written paths lie apart from each other, and each lies below
      one of the three sections and apart from the other two. */
  lemma WrittenLayout()
    ensures forall i, j :: 0 <= i < j < |WRITTEN| ==> Apart(WRITTEN[i], WRITTEN[j])
    ensures forall i :: 0 <= i < |WRITTEN| ==> Apart(WRITTEN[i], FLINK_CONF) || FLINK_CONF < WRITTEN[i]
    ensures forall i :: 0 <= i < |WRITTEN| ==> Apart(WRITTEN[i], JOB) || JOB < WRITTEN[i]
    ensures forall i :: 0 <= i < |WRITTEN| ==> Apart(WRITTEN[i], TM_RESOURCE) || TM_RESOURCE < WRITTEN[i]
  {
    assert "flinkConfiguration"[0] != "job"[0] && "flinkConfiguration"[0] != "taskManager"[0] && "job"[0] != "taskManager"[0];
    assert "metrics.reporter.influxdb.tags"[0] != "taskmanager.numberOfTaskSlots"[0];
    assert "jarURI"[0] != "args"[0];
    assert "cpu"[0] != "memory"[0];
    forall i, j | 0 <= i < j < |WRITTEN|
      ensures Apart(WRITTEN[i], WRITTEN[j])
    {
      if i / 2 == j / 2 {
        DifferAt(WRITTEN[i], WRITTEN[j], |WRITTEN[i]| - 1);
      } else {
        DifferAt(WRITTEN[i], WRITTEN[j], 1);
      }
    }
    forall i | 0 <= i < |WRITTEN|
      ensures Apart(WRITTEN[i], FLINK_CONF) || FLINK_CONF < WRITTEN[i]
      ensures Apart(WRITTEN[i], JOB) || JOB < WRITTEN[i]
      ensures Apart(WRITTEN[i], TM_RESOURCE) || TM_RESOURCE < WRITTEN[i]
    {
      if i >= 2 { DifferAt(WRITTEN[i], FLINK_CONF, 1); }
      if i < 2 || i >= 4 { DifferAt(WRITTEN[i], JOB, 1); }
      if i < 4 { DifferAt(WRITTEN[i], TM_RESOURCE, 1); }
    }
  }

  /** `ws` assigns the paths of `WRITTEN`, in order. */
  predicate AtWritten(ws: seq<Write>) {
    |ws| == |WRITTEN| && forall i :: 0 <= i < |ws| ==> ws[i].path == WRITTEN[i]
  }

  /** Writes to the paths of `WRITTEN` lie apart and below the sections. */
  lemma AtWrittenLayout(ws: seq<Write>)
    requires AtWritten(ws)
    ensures PairwiseApart(ws)
    ensures forall w :: w in ws ==> Apart(w.path, FLINK_CONF) || FLINK_CONF < w.path
    ensures forall w :: w in ws ==> Apart(w.path, JOB) || JOB < w.path
    ensures forall w :: w in ws ==> Apart(w.path, TM_RESOURCE) || TM_RESOURCE < w.path
  {
    WrittenLayout();
    forall w | w in ws
      ensures Apart(w.path, FLINK_CONF) || FLINK_CONF < w.path
      ensures Apart(w.path, JOB) || JOB < w.path
      ensures Apart(w.path, TM_RESOURCE) || TM_RESOURCE < w.path
    {
      var i :| 0 <= i < |ws| && ws[i] == w;
    }
  }

  /** The written paths are `WRITTEN`, so they too lie apart and below the
      sections. */
  lemma WritesLayout(config: Config, benchmark: string, rps: nat)
    requires benchmark in BENCHMARKS && benchmark in INPUT_VAR
    ensures var ws := Writes(config, benchmark, rps);
      PairwiseApart(ws) &&
      (forall w :: w in ws ==> Apart(w.path, FLINK_CONF) || FLINK_CONF < w.path) &&
      (forall w :: w in ws ==> Apart(w.path, JOB) || JOB < w.path) &&
      (forall w :: w in ws ==> Apart(w.path, TM_RESOURCE) || TM_RESOURCE < w.path)
  {
    AtWrittenLayout(Writes(config, benchmark, rps));
  }

  /** `update_config` writes the configuration's label, task slots, cpu and
      memory, the benchmark's jar and its rate argument, whatever the
      descriptor held before. */
  lemma ConfiguredFields(y: Yaml, config: Config, benchmark: string, rps: nat)
    requires benchmark in BENCHMARKS && benchmark in INPUT_VAR && Sections(y)
    ensures var d := Configured(y, config, benchmark, rps);
      Get(d, TAGS_PATH) == Some(Str("config=" + config.name)) &&
      Get(d, SLOTS_PATH) == Some(Str(NatToString(config.taskSlots))) &&
      Get(d, JAR_PATH) == Some(Str(BENCHMARKS[benchmark])) &&
      Get(d, ARGS_PATH) == Some(List([Str("--" + INPUT_VAR[benchmark]), Str(NatToString(rps))])) &&
      Get(d, CPU_PATH) == Some(Int(config.cpu)) &&
      Get(d, MEMORY_PATH) == Some(Str(config.memory))
  {
    var ws := Writes(config, benchmark, rps);
    assert AtWritten(ws);
    WrittenAt(y, ws, 0);
    WrittenAt(y, ws, 1);
    WrittenAt(y, ws, 2);
    WrittenAt(y, ws, 3);
    WrittenAt(y, ws, 4);
    WrittenAt(y, ws, 5);
  }

  /** Among writes to pairwise apart paths, write `k` is what its path holds
      at the end, provided its parent dictionary existed when it was made. */
  lemma ApplyLastWins(y: Yaml, ws: seq<Write>, k: nat)
    requires PairwiseApart(ws) && k < |ws| && ws[k].path != []
    requires IsDictAt(ApplyAll(y, ws[..k]), ws[k].path[..|ws[k].path| - 1])
    ensures Get(ApplyAll(y, ws), ws[k].path) == Some(ws[k].value)
  {
    var w := ws[k];
    var before := ApplyAll(y, ws[..k]);
    ApplySplit(y, ws, k);
    PutGet(before, w.path, w.value);
    assert forall x :: x in ws[k + 1..] ==> Apart(x.path, w.path) by {
      forall x | x in ws[k + 1..]
        ensures Apart(x.path, w.path)
      {
        var j :| 0 <= j < |ws[k + 1..]| && ws[k + 1..][j] == x;
        assert ws[k + 1 + j] == x;
      }
    }
    ApplyFrame(Put(before, w.path, w.value), ws[k + 1..], w.path);
  }

  /** The value of write `k` of `update_config` survives the later writes. */
  lemma WrittenAt(y: Yaml, ws: seq<Write>, k: nat)
    requires AtWritten(ws) && Sections(y) && k < 6
    ensures Get(ApplyAll(y, ws), WRITTEN[k]) == Some(ws[k].value)
  {
    AtWrittenLayout(ws);
    var parent := if k < 2 then FLINK_CONF else if k < 4 then JOB else TM_RESOURCE;
    assert ws[k].path == parent + [ws[k].path[|parent|]];
    assert ws[k].path[..|ws[k].path| - 1] == parent;
    assert forall x :: x in ws[..k] ==> x in ws;
    ApplyKeepsDict(y, ws[..k], parent);
    ApplyLastWins(y, ws, k);
  }

  /** Applying a list of writes is applying its first `k`, then write `k`,
      then the rest. */
  lemma {:induction false} ApplySplit(y: Yaml, ws: seq<Write>, k: nat)
    requires k < |ws|
    ensures ApplyAll(y, ws) == ApplyAll(Put(ApplyAll(y, ws[..k]), ws[k].path, ws[k].value), ws[k + 1..])
    decreases k
  {
    if k > 0 {
      ApplySplit(Put(y, ws[0].path, ws[0].value), ws[1..], k - 1);
      assert ws[1..][..k - 1] == ws[..k][1..];
      assert ws[1..][k - 1] == ws[k] && ws[1..][k..] == ws[k + 1..];
    }
  }

  /** Every field apart from the six written ones keeps its value. */
  lemma ConfiguredFrame(y: Yaml, config: Config, benchmark: string, rps: nat, q: Path)
    requires benchmark in BENCHMARKS && benchmark in INPUT_VAR
    requires forall w :: w in Writes(config, benchmark, rps) ==> Apart(w.path, q)
    ensures Get(Configured(y, config, benchmark, rps), q) == Get(y, q)
  {
    ApplyFrame(y, Writes(config, benchmark, rps), q);
  }

  /** Updating an updated descriptor again with the same arguments changes
      nothing. */
  lemma ConfiguredIdempotent(y: Yaml, config: Config, benchmark: string, rps: nat)
    requires benchmark in BENCHMARKS && benchmark in INPUT_VAR
    ensures Configured(Configured(y, config, benchmark, rps), config, benchmark, rps) == Configured(y, config, benchmark, rps)
  {
    WritesLayout(config, benchmark, rps);
    ApplyIdempotent(y, Writes(config, benchmark, rps));
  }

  /** The three sections survive the update, so the result can be updated
      again. */
  lemma ConfiguredSections(y: Yaml, config: Config, benchmark: string, rps: nat)
    requires benchmark in BENCHMARKS && benchmark in INPUT_VAR && Sections(y)
    ensures Sections(Configured(y, config, benchmark, rps))
  {
    var ws := Writes(config, benchmark, rps);
    WritesLayout(config, benchmark, rps);
    ApplyKeepsDict(y, ws, FLINK_CONF);
    ApplyKeepsDict(y, ws, JOB);
    ApplyKeepsDict(y, ws, TM_RESOURCE);
  }

  /** The document `load_yaml` returns, which `update_config` changes in
      place. */
  class Descriptor {
    var doc: Yaml

    constructor (base: Yaml)
      ensures doc == base
    {
      doc := base;
    }

    /** `update_config(yaml_data, config, benchmark, rps)`: `BENCHMARKS` and
        `input_var` must know the benchmark and the descriptor must have the
        three sections, or the source raises `KeyError`. */
    method UpdateConfig(config: Config, benchmark: string, rps: nat)
      requires benchmark in BENCHMARKS && benchmark in INPUT_VAR && Sections(doc)
      modifies this
      ensures doc == Configured(old(doc), config, benchmark, rps)
    {
      ghost var ws := Writes(config, benchmark, rps);
      ghost var y0 := doc;
      doc := Put(doc, TAGS_PATH, Str("config=" + config.name));
      doc := Put(doc, SLOTS_PATH, Str(NatToString(config.taskSlots)));
      assert ApplyAll(y0, ws) == ApplyAll(doc, ws[2..]);
      doc := Put(doc, JAR_PATH, Str(BENCHMARKS[benchmark]));
      doc := Put(doc, ARGS_PATH, List([Str("--" + INPUT_VAR[benchmark]), Str(NatToString(rps))]));
      assert ApplyAll(y0, ws) == ApplyAll(doc, ws[4..]);
      doc := Put(doc, CPU_PATH, Int(config.cpu));
      doc := Put(doc, MEMORY_PATH, Str(config.memory));
      assert ApplyAll(y0, ws) == ApplyAll(doc, ws[6..]);
    }
  }
}
