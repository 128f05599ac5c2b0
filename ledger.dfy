/** The run ledger: the two lines the sweep appends per run
    (slot_count_impact/flink_benchmark_runner.py:156-157) and the reader that
    pairs them back up (`parse_log_file`, slot_count_impact/get_metrics.py:52-70). */
module Ledger {
  import opened Optional
  import opened PyText

  const StartMarker: string := " - Starting config: "
  const FinishMarker: string := " - Finished config: "

  /** One ledger record: the configuration label and the two timestamps, as
      text ("-1" for a run that never became ready). */
  datatype Entry = Entry(config: string, start: string, end: string)

  // ---------------------------------------------------------------------------
  // Writing

  function StartLine(e: Entry): string {
    e.start + StartMarker + e.config
  }

  function FinishLine(e: Entry): string {
    e.end + FinishMarker + e.config
  }

  /** The text one run appends to its ledger file. */
  function EntryText(e: Entry): string {
    StartLine(e) + "\n" + FinishLine(e) + "\n"
  }

  /** The content of a ledger file after the given runs were appended to an
      empty file, in order. */
  function LedgerText(es: seq<Entry>): string {
    if es == [] then [] else EntryText(es[0]) + LedgerText(es[1..])
  }

  lemma {:induction false} LedgerTextAppend(es: seq<Entry>, e: Entry)
    ensures LedgerText(es + [e]) == LedgerText(es) + EntryText(e)
    decreases |es|
  {
    if es != [] {
      assert (es + [e])[1..] == es[1..] + [e];
      LedgerTextAppend(es[1..], e);
    } else {
      assert LedgerText([e]) == EntryText(e) + LedgerText([]);
    }
  }

  /** A label the reader recovers unchanged: no line breaks inside and nothing
      that `strip()` would cut off the end of its line. */
  predicate LabelOk(config: string) {
    config != [] && !IsSpace(config[|config| - 1]) && '\n' !in config && '\r' !in config
  }

  /** A timestamp text the reader recovers unchanged: non-empty and free of
      whitespace, as both ISO 8601 stamps and the sentinel "-1" are. */
  predicate StampOk(t: string) {
    t != [] && NoSpace(t)
  }

  /** An entry whose two lines read back as the same entry. */
  predicate Writable(e: Entry) {
    LabelOk(e.config) && StampOk(e.start) && StampOk(e.end)
  }

  // ---------------------------------------------------------------------------
  // Reading the file into lines

  /** Python's text-mode reading: "\r\n" and a lone "\r" become "\n". */
  function UniversalNewlines(s: string): (r: string)
    ensures '\r' !in r
    ensures '\r' !in s ==> r == s
    decreases |s|
  {
    if s == [] then []
    else if s[0] == '\r' then "\n" + UniversalNewlines(if |s| > 1 && s[1] == '\n' then s[2..] else s[1..])
    else
      assert '\r' !in s ==> '\r' !in s[1..];
      assert s == [s[0]] + s[1..];
      [s[0]] + UniversalNewlines(s[1..])
  }

  /** The translation, one step at a time: "\r\n" and a lone "\r" each
      become one "\n", and every other character is kept. */
  lemma UniversalNewlinesSteps(s: string)
    ensures UniversalNewlines("\r\n" + s) == "\n" + UniversalNewlines(s)
    ensures s == [] || s[0] != '\n' ==> UniversalNewlines("\r" + s) == "\n" + UniversalNewlines(s)
    ensures forall c :: c != '\r' ==> UniversalNewlines([c] + s) == [c] + UniversalNewlines(s)
  {
    assert ("\r\n" + s)[2..] == s;
    assert ("\r" + s)[1..] == s;
    forall c | c != '\r'
      ensures UniversalNewlines([c] + s) == [c] + UniversalNewlines(s)
    {
      assert ([c] + s)[1..] == s;
    }
  }

  /** A lone "\r" breaks a line as "\n" does: "x\ry" reads as two lines,
      not as one. */
  lemma LoneReturnBreaksLine(x: char, y: char)
    requires x != '\r' && x != '\n' && y != '\r' && y != '\n'
    ensures ReadLines([x, '\r', y]) == [[x, '\n'], [y]]
  {
    LoneReturnTranslated(x, y);
    TwoLinesSplit(x, y);
  }

  lemma LoneReturnTranslated(x: char, y: char)
    requires x != '\r' && y != '\r' && y != '\n'
    ensures UniversalNewlines([x, '\r', y]) == [x, '\n', y]
  {
    assert [x, '\r', y] == [x] + ("\r" + [y]);
    UniversalNewlinesSteps("\r" + [y]);
    UniversalNewlinesSteps([y]);
    assert '\r' !in [y];
    assert [x] + ("\n" + [y]) == [x, '\n', y];
  }

  lemma TwoLinesSplit(x: char, y: char)
    requires x != '\n' && y != '\n'
    ensures SplitLines([x, '\n', y]) == [[x, '\n'], [y]]
  {
    assert [x, '\n', y] == [x] + "\n" + [y];
    SplitLinesCons([x], [y]);
    assert '\n' !in [y];
    LineLengthWhole([y]);
    assert [y][..1] == [y] && [y][1..] == [];
    assert SplitLines([y]) == [[y]] + SplitLines([]);
    assert [x] + "\n" == [x, '\n'];
  }

  function Concat(lines: seq<string>): string {
    if lines == [] then [] else lines[0] + Concat(lines[1..])
  }

  /** Length of the first line of `s`: up to and including the first "\n",
      or all of `s` when it has none. */
  function LineLength(s: string): (n: nat)
    ensures s != [] ==> 1 <= n <= |s|
  {
    if s == [] then 0 else if s[0] == '\n' then 1 else 1 + LineLength(s[1..])
  }

  /** The first line stops at the first break and holds no earlier one. */
  lemma {:induction false} LineLengthSpec(s: string)
    requires s != []
    ensures '\n' !in s[..LineLength(s) - 1]
    ensures LineLength(s) < |s| ==> s[LineLength(s) - 1] == '\n'
  {
    if s[0] != '\n' && |s| > 1 {
      LineLengthSpec(s[1..]);
      assert s[..LineLength(s) - 1] == [s[0]] + s[1..][..LineLength(s[1..]) - 1];
    }
  }

  lemma {:induction false} LineLengthOf(l: string, rest: string)
    requires '\n' !in l
    ensures LineLength(l + "\n" + rest) == |l| + 1
  {
    if l != [] {
      assert (l + "\n" + rest)[1..] == l[1..] + "\n" + rest;
      assert l[0] in l;
      LineLengthOf(l[1..], rest);
    }
  }

  /** Text without a break is a single line. */
  lemma {:induction false} LineLengthWhole(s: string)
    requires '\n' !in s
    ensures LineLength(s) == |s|
  {
    if s != [] {
      assert s[0] in s;
      assert '\n' !in s[1..] by {
        assert forall c :: c in s[1..] ==> c in s;
      }
      LineLengthWhole(s[1..]);
    }
  }

  /** `readlines()` on text whose line breaks are already "\n". */
  function SplitLines(s: string): (lines: seq<string>)
    decreases |s|
  {
    if s == [] then []
    else
      var n := LineLength(s);
      [s[..n]] + SplitLines(s[n..])
  }

  /** Together the lines are the whole text. */
  lemma {:induction false} SplitLinesConcat(s: string)
    ensures Concat(SplitLines(s)) == s
    decreases |s|
  {
    if s != [] {
      var n := LineLength(s);
      var a := s[..n];
      var rest := SplitLines(s[n..]);
      assert SplitLines(s) == [a] + rest;
      assert Concat(rest) == s[n..] by {
        SplitLinesConcat(s[n..]);
      }
      assert Concat([a] + rest) == a + Concat(rest) by {
        assert ([a] + rest)[0] == a && ([a] + rest)[1..] == rest;
      }
      assert s == a + s[n..];
    }
  }

  /** Every line is non-empty and holds no break before its last character,
      so only the last line can lack its "\n". */
  lemma {:induction false} SplitLinesBreaks(s: string)
    ensures forall l :: l in SplitLines(s) ==> l != [] && '\n' !in l[..|l| - 1]
    ensures forall k :: 0 <= k < |SplitLines(s)| - 1 ==> SplitLines(s)[k][|SplitLines(s)[k]| - 1] == '\n'
    decreases |s|
  {
    if s != [] {
      var n := LineLength(s);
      var a := s[..n];
      var rest := SplitLines(s[n..]);
      var ls := SplitLines(s);
      assert ls == [a] + rest;
      assert a[..|a| - 1] == s[..n - 1];
      LineLengthSpec(s);
      SplitLinesBreaks(s[n..]);
      forall k | 0 <= k < |ls| - 1
        ensures ls[k][|ls[k]| - 1] == '\n'
      {
        if k == 0 {
          assert rest != [];
          assert s[n..] != [];
          assert ls[0] == a && |a| == n && a[n - 1] == s[n - 1];
          assert s[n - 1] == '\n';
        } else {
          assert ls[k] == rest[k - 1] && k - 1 < |rest| - 1;
        }
      }
    }
  }

  /** `open(path).readlines()` on a file holding `text`. */
  function ReadLines(text: string): seq<string> {
    SplitLines(UniversalNewlines(text))
  }

  lemma SplitLinesCons(l: string, rest: string)
    requires '\n' !in l
    ensures SplitLines(l + "\n" + rest) == [l + "\n"] + SplitLines(rest)
  {
    var s := l + "\n" + rest;
    LineLengthOf(l, rest);
    assert s[..|l| + 1] == l + "\n";
    assert s[|l| + 1..] == rest;
  }

  // ---------------------------------------------------------------------------
  // Matching one line

  /** The text of `s` up to its first line break (all of it if it has none). */
  function UpToNewline(s: string): (r: string)
    ensures r <= s && '\n' !in r
    ensures '\n' !in s ==> r == s
    ensures |r| == |s| || s[|r|] == '\n'
  {
    if '\n' in s then s[..IndexOf(s, '\n')] else s
  }

  /** `re.match(r"(.*?)<marker>(.*)", line)`: the match is anchored at the
      start of the line, the lazy first group ends at the first occurrence of
      the marker, neither group crosses a line break, and the second group runs
      to the end of the line. Returns both groups. */
  function MatchRecord(line: string, marker: string): (m: Option<(string, string)>)
  {
    match Find(line, marker)
    case None => None
    case Some(p) =>
      if '\n' in line[..p] then None
      else Some((line[..p], UpToNewline(line[p + |marker|..])))
  }

  /** A match is anchored at the start of the line: the first group is the
      text before the FIRST occurrence of the marker, the second group is the
      text after the marker up to the next line break or the end, and neither
      group holds a line break. */
  lemma MatchRecordSpec(line: string, marker: string)
    ensures var m := MatchRecord(line, marker);
      m.Some? ==>
        var p := |m.value.0|;
        var q := p + |marker| + |m.value.1|;
        OccursAt(line, marker, p) && line[..p] == m.value.0 &&
        (forall j :: 0 <= j < p ==> !OccursAt(line, marker, j)) &&
        q <= |line| && line[p + |marker|..q] == m.value.1 && (q == |line| || line[q] == '\n') &&
        '\n' !in m.value.0 && '\n' !in m.value.1
  {
    var m := MatchRecord(line, marker);
    if m.Some? {
      FindSpec(line, marker);
      var p := Find(line, marker).value;
      assert |m.value.0| == p;
      GroupTwoSpan(line, p + |marker|);
    }
  }

  /** The text from `start` up to the next line break sits in the line right
      before that break or the end. */
  lemma GroupTwoSpan(line: string, start: nat)
    requires start <= |line|
    ensures var g := UpToNewline(line[start..]);
      var q := start + |g|;
      q <= |line| && line[start..q] == g && (q == |line| || line[q] == '\n')
  {
    var rest := line[start..];
    var g := UpToNewline(rest);
    assert g == rest[..|g|];
    assert start + |g| < |line| ==> line[start + |g|] == rest[|g|];
  }

  /** The line matches exactly when the marker occurs with no line break
      before it. */
  lemma MatchRecordComplete(line: string, marker: string)
    ensures MatchRecord(line, marker).Some? <==> exists p :: OccursAt(line, marker, p) && '\n' !in line[..p]
  {
    FindSpec(line, marker);
    if MatchRecord(line, marker).Some? {
      var p := Find(line, marker).value;
      assert OccursAt(line, marker, p) && '\n' !in line[..p];
    }
    if p :| OccursAt(line, marker, p) && '\n' !in line[..p] {
      var p0 := Find(line, marker).value;
      assert p0 <= p;
    }
  }

  /** A line the writer produced is matched back into its own timestamp and
      label: a whitespace-free timestamp cannot hide an earlier occurrence of a
      marker that starts with a blank. */
  lemma MatchWritten(t: string, marker: string, config: string)
    requires NoSpace(t) && marker != [] && marker[0] == ' ' && '\n' !in config
    ensures MatchRecord(t + marker + config, marker) == Some((t, config))
  {
    var line := t + marker + config;
    FindSpec(line, marker);
    assert OccursAt(line, marker, |t|) by {
      assert line[|t|..|t| + |marker|] == marker;
    }
    var p := Find(line, marker).value;
    assert p == |t|;
    assert line[..p] == t;
    assert line[p + |marker|..] == config;
    assert '\n' !in t by {
      forall i | 0 <= i < |t| ensures t[i] != '\n' {
        assert !IsSpace(t[i]);
      }
    }
  }

  // ---------------------------------------------------------------------------
  // Pairing lines

  /** The two regular-expression matches `parse_log_file` may try on one line
      after `strip()`: as a Starting line, and as a Finished line (the latter
      only for a non-empty line, as the loop tests `if end_line`). */
  datatype LineMatch = LineMatch(starting: Option<(string, string)>, finishing: Option<(string, string)>)

  function MatchLine(raw: string): LineMatch {
    var line := Strip(raw);
    LineMatch(MatchRecord(line, StartMarker), if line != [] then MatchRecord(line, FinishMarker) else None)
  }

  function MatchLines(lines: seq<string>): (ms: seq<LineMatch>)
    ensures |ms| == |lines|
  {
    if lines == [] then [] else [MatchLine(lines[0])] + MatchLines(lines[1..])
  }

  lemma {:induction false} MatchLinesAt(lines: seq<string>, k: nat)
    requires k < |lines|
    ensures MatchLines(lines)[k] == MatchLine(lines[k])
    decreases k
  {
    if k > 0 {
      MatchLinesAt(lines[1..], k - 1);
    }
  }

  lemma {:induction false} MatchLinesAppend(a: seq<string>, b: seq<string>)
    ensures MatchLines(a + b) == MatchLines(a) + MatchLines(b)
    decreases |a|
  {
    if a == [] {
      assert a + b == b;
    } else {
      assert (a + b)[1..] == a[1..] + b;
      MatchLinesAppend(a[1..], b);
    }
  }

  /** What one pass of the loop of `parse_log_file` makes of lines `i` and
      `i + 1`: an entry only when line `i` matches the Starting pattern and a
      line `i + 1` exists and matches the Finished pattern. Start time and label
      come from line `i`, end time from line `i + 1`; the label on line `i + 1`
      plays no part. */
  function Pair(ms: seq<LineMatch>, i: nat): (r: Option<Entry>)
    requires i < |ms|
    ensures r.Some? <==> i + 1 < |ms| && ms[i].starting.Some? && ms[i + 1].finishing.Some?
    ensures r.Some? ==> ms[i].starting == Some((r.value.start, r.value.config))
    ensures r.Some? ==> ms[i + 1].finishing.value.0 == r.value.end
  {
    if i + 1 < |ms| && ms[i].starting.Some? && ms[i + 1].finishing.Some? then
      Some(Entry(ms[i].starting.value.1, ms[i].starting.value.0, ms[i + 1].finishing.value.0))
    else None
  }

  function AsSeq(o: Option<Entry>): seq<Entry> {
    if o.Some? then [o.value] else []
  }

  /** The entries the loop of `parse_log_file` collects from line `i` on,
      stepping by two. */
  function ParseFrom(ms: seq<LineMatch>, i: nat): seq<Entry>
    decreases |ms| - i
  {
    if i >= |ms| then [] else AsSeq(Pair(ms, i)) + ParseFrom(ms, i + 2)
  }

  /** The entries read from a ledger file holding `text`. */
  function Parsed(text: string): seq<Entry> {
    ParseFrom(MatchLines(ReadLines(text)), 0)
  }

  lemma AppendAssoc(a: seq<Entry>, b: seq<Entry>, c: seq<Entry>)
    ensures a + (b + c) == (a + b) + c
  {
  }

  /** `parse_log_file` on a file holding `text`. */
  method ParseLogFile(text: string) returns (entries: seq<Entry>)
    ensures entries == Parsed(text)
  {
    var lines := ReadLines(text);
    ghost var ms := MatchLines(lines);
    entries := [];
    var i := 0;
    while i < |lines|
      invariant entries + ParseFrom(ms, i) == ParseFrom(ms, 0)
      decreases |lines| - i
    {
      var startLine := Strip(lines[i]);
      var endLine: Option<string> := None;
      if i + 1 < |lines| {
        endLine := Some(Strip(lines[i + 1]));
      }
      var startMatch := MatchRecord(startLine, StartMarker);
      var endMatch: Option<(string, string)> := None;
      if endLine.Some? && endLine.value != [] {
        endMatch := MatchRecord(endLine.value, FinishMarker);
      }
      MatchLinesAt(lines, i);
      assert startMatch == ms[i].starting;
      if i + 1 < |lines| {
        MatchLinesAt(lines, i + 1);
        assert endMatch == ms[i + 1].finishing;
      }
      ghost var rest := ParseFrom(ms, i + 2);
      assert ParseFrom(ms, i) == AsSeq(Pair(ms, i)) + rest;
      if startMatch.Some? && endMatch.Some? {
        var e := Entry(startMatch.value.1, startMatch.value.0, endMatch.value.0);
        assert Pair(ms, i) == Some(e);
        AppendAssoc(entries, [e], rest);
        entries := entries + [e];
      } else {
        assert Pair(ms, i) == None;
        assert [] + rest == rest;
      }
      assert entries + rest == ParseFrom(ms, 0);
      i := i + 2;
    }
  }

  // ---------------------------------------------------------------------------
  // Properties of the reader

  /** At most one entry per two lines: a trailing odd line never counts. */
  lemma {:induction false} ParseBound(ms: seq<LineMatch>, i: nat)
    requires i <= |ms|
    ensures |ParseFrom(ms, i)| <= (|ms| - i) / 2
    decreases |ms| - i
  {
    if i < |ms| && i + 2 <= |ms| {
      ParseBound(ms, i + 2);
    }
  }

  lemma {:induction false} ParseShift(p: seq<LineMatch>, ms: seq<LineMatch>, j: nat)
    ensures ParseFrom(p + ms, |p| + j) == ParseFrom(ms, j)
    decreases |ms| - j
  {
    if j < |ms| {
      var all := p + ms;
      assert all[|p| + j] == ms[j];
      assert |p| + j + 1 < |all| ==> all[|p| + j + 1] == ms[j + 1];
      ParseShift(p, ms, j + 2);
    }
  }

  /** Pairs are taken strictly at even offsets, so a ledger cut after a whole
      number of pairs parses as its two halves, in file order. */
  lemma {:induction false} ParseAppend(a: seq<LineMatch>, b: seq<LineMatch>, i: nat)
    requires i <= |a| && (|a| - i) % 2 == 0
    ensures ParseFrom(a + b, i) == ParseFrom(a, i) + ParseFrom(b, 0)
    decreases |a| - i
  {
    if i == |a| {
      ParseShift(a, b, 0);
    } else {
      var p := Pair(a, i);
      assert Pair(a + b, i) == p by {
        assert (a + b)[i] == a[i] && (a + b)[i + 1] == a[i + 1];
      }
      ParseAppend(a, b, i + 2);
      calc {
        ParseFrom(a + b, i);
        AsSeq(p) + ParseFrom(a + b, i + 2);
        AsSeq(p) + (ParseFrom(a, i + 2) + ParseFrom(b, 0));
        (AsSeq(p) + ParseFrom(a, i + 2)) + ParseFrom(b, 0);
        ParseFrom(a, i) + ParseFrom(b, 0);
      }
    }
  }

  /** A trailing unpaired line yields no entry and leaves the entries before
      it alone. */
  lemma TrailingLineDropped(lines: seq<string>, x: string)
    requires |lines| % 2 == 0
    ensures ParseFrom(MatchLines(lines + [x]), 0) == ParseFrom(MatchLines(lines), 0)
  {
    MatchLinesAppend(lines, [x]);
    var ms := MatchLines(lines);
    var tail := MatchLines([x]);
    assert ParseFrom(tail, 0) == [];
    ParseAppend(ms, tail, 0);
    assert ParseFrom(ms + tail, 0) == ParseFrom(ms, 0);
  }

  /** Every entry collected from line `j` on comes from a matching pair at
      an even offset from `j`. */
  lemma {:induction false} ParseOriginSound(ms: seq<LineMatch>, j: nat, e: Entry) returns (i: nat)
    requires e in ParseFrom(ms, j)
    ensures j <= i < |ms| && (i - j) % 2 == 0 && Pair(ms, i) == Some(e)
    decreases |ms| - j
  {
    assert ParseFrom(ms, j) == AsSeq(Pair(ms, j)) + ParseFrom(ms, j + 2);
    if Pair(ms, j) == Some(e) {
      i := j;
    } else {
      assert e in ParseFrom(ms, j + 2);
      var k := ParseOriginSound(ms, j + 2, e);
      EvenStep(k - (j + 2));
      i := k;
    }
  }

  lemma EvenStep(d: nat)
    requires d % 2 == 0
    ensures (d + 2) % 2 == 0
  {
  }

  /** Every matching pair at an even offset from `j` yields its entry. */
  lemma {:induction false} ParseOriginComplete(ms: seq<LineMatch>, j: nat, i: nat, e: Entry)
    requires j <= i < |ms| && (i - j) % 2 == 0 && Pair(ms, i) == Some(e)
    ensures e in ParseFrom(ms, j)
    decreases i - j
  {
    assert ParseFrom(ms, j) == AsSeq(Pair(ms, j)) + ParseFrom(ms, j + 2);
    if i != j {
      ParseOriginComplete(ms, j + 2, i, e);
    }
  }

  /** An entry is emitted exactly for the matching pairs at even offsets, and
      for nothing else: a malformed pair is skipped as a whole and the reader
      does not re-align on the next Starting line. */
  lemma ParseOrigin(ms: seq<LineMatch>, j: nat, e: Entry)
    ensures e in ParseFrom(ms, j) <==>
      exists i :: j <= i < |ms| && (i - j) % 2 == 0 && Pair(ms, i) == Some(e)
  {
    if e in ParseFrom(ms, j) {
      var i := ParseOriginSound(ms, j, e);
    }
    if exists i :: j <= i < |ms| && (i - j) % 2 == 0 && Pair(ms, i) == Some(e) {
      var i :| j <= i < |ms| && (i - j) % 2 == 0 && Pair(ms, i) == Some(e);
      ParseOriginComplete(ms, j, i, e);
    }
  }

  /** A Starting line followed by a Finished line whose label differs: the
      entry takes the Starting line's label. */
  lemma PairWritten(e: Entry, otherConfig: string)
    requires Writable(e) && LabelOk(otherConfig)
    ensures MatchLine(StartLine(e) + "\n").starting == Some((e.start, e.config))
    ensures MatchLine(e.end + FinishMarker + otherConfig + "\n").finishing == Some((e.end, otherConfig))
  {
    var s := StartLine(e);
    var f := e.end + FinishMarker + otherConfig;
    assert Unpadded(s) && Unpadded(f);
    StripLineBreak(s);
    StripLineBreak(f);
    MatchWritten(e.start, StartMarker, e.config);
    MatchWritten(e.end, FinishMarker, otherConfig);
  }

  lemma FinishedLabelIgnored(e: Entry, otherConfig: string)
    requires Writable(e) && LabelOk(otherConfig)
    ensures ParseFrom(MatchLines([StartLine(e) + "\n", e.end + FinishMarker + otherConfig + "\n"]), 0) == [e]
  {
    var lines := [StartLine(e) + "\n", e.end + FinishMarker + otherConfig + "\n"];
    PairWritten(e, otherConfig);
    MatchLinesAt(lines, 0);
    MatchLinesAt(lines, 1);
  }

  /** No whitespace means no line breaks either. */
  lemma NoSpaceNoBreak(t: string)
    requires NoSpace(t)
    ensures '\n' !in t && '\r' !in t
  {
    forall i | 0 <= i < |t| ensures t[i] != '\n' && t[i] != '\r' {
      assert !IsSpace(t[i]);
    }
  }

  lemma WritableLines(e: Entry)
    requires Writable(e)
    ensures '\n' !in StartLine(e) && '\n' !in FinishLine(e)
    ensures '\r' !in StartLine(e) && '\r' !in FinishLine(e)
  {
    NoSpaceNoBreak(e.start);
    NoSpaceNoBreak(e.end);
  }

  /** The lines `readlines()` yields for a ledger of written entries. */
  function LinesOf(es: seq<Entry>): (lines: seq<string>)
    ensures |lines| == 2 * |es| && |lines| % 2 == 0
  {
    if es == [] then [] else [StartLine(es[0]) + "\n", FinishLine(es[0]) + "\n"] + LinesOf(es[1..])
  }

  lemma Regroup(s: string, f: string, r: string, t: string)
    ensures (s + "\n" + f + "\n" + r) + t == s + "\n" + (f + "\n" + (r + t))
  {
  }

  lemma RegroupLines(a: string, b: string, l: seq<string>, r: seq<string>)
    ensures [a] + ([b] + (l + r)) == ([a, b] + l) + r
  {
  }

  lemma {:induction false} SplitLedger(es: seq<Entry>, tail: string)
    requires forall e :: e in es ==> Writable(e)
    ensures '\r' !in LedgerText(es)
    ensures SplitLines(LedgerText(es) + tail) == LinesOf(es) + SplitLines(tail)
    decreases |es|
  {
    if es == [] {
      assert LedgerText(es) + tail == tail;
    } else {
      var e := es[0];
      assert e in es;
      WritableLines(e);
      var later := LedgerText(es[1..]);
      SplitLedger(es[1..], tail);
      assert LedgerText(es) == StartLine(e) + "\n" + FinishLine(e) + "\n" + later;
      Regroup(StartLine(e), FinishLine(e), later, tail);
      SplitLinesCons(StartLine(e), FinishLine(e) + "\n" + (later + tail));
      SplitLinesCons(FinishLine(e), later + tail);
      RegroupLines(StartLine(e) + "\n", FinishLine(e) + "\n", LinesOf(es[1..]), SplitLines(tail));
    }
  }

  /** A written entry's two lines, followed by any matched lines, give that
      entry and then whatever those lines give. */
  /** The matches of a written entry's two lines. */
  lemma WrittenMatches(e: Entry)
    requires Writable(e)
    ensures var m2 := MatchLines([StartLine(e) + "\n", FinishLine(e) + "\n"]);
      m2[0].starting == Some((e.start, e.config)) && m2[1].finishing == Some((e.end, e.config))
  {
    var two := [StartLine(e) + "\n", FinishLine(e) + "\n"];
    PairWritten(e, e.config);
    MatchLinesAt(two, 0);
    MatchLinesAt(two, 1);
  }

  /** Two matches that pair into `e`, followed by any matched lines, give
      that entry and then whatever those lines give. */
  lemma PairedFirst(m2: seq<LineMatch>, ml: seq<LineMatch>, e: Entry)
    requires |m2| == 2 && m2[0].starting == Some((e.start, e.config))
    requires m2[1].finishing.Some? && m2[1].finishing.value.0 == e.end
    ensures ParseFrom(m2 + ml, 0) == [e] + ParseFrom(ml, 0)
  {
    var all := m2 + ml;
    assert all[0] == m2[0] && all[1] == m2[1];
    assert Pair(all, 0) == Some(e);
    assert ParseFrom(all, 2) == ParseFrom(ml, 0) by {
      ParseShift(m2, ml, 0);
    }
    assert ParseFrom(all, 0) == AsSeq(Pair(all, 0)) + ParseFrom(all, 2);
  }

  lemma WrittenPairFirst(e: Entry, ml: seq<LineMatch>)
    requires Writable(e)
    ensures ParseFrom(MatchLines([StartLine(e) + "\n", FinishLine(e) + "\n"]) + ml, 0) == [e] + ParseFrom(ml, 0)
  {
    WrittenMatches(e);
    PairedFirst(MatchLines([StartLine(e) + "\n", FinishLine(e) + "\n"]), ml, e);
  }

  lemma {:induction false} LinesRoundTrip(es: seq<Entry>)
    requires forall e :: e in es ==> Writable(e)
    ensures ParseFrom(MatchLines(LinesOf(es)), 0) == es
    decreases |es|
  {
    if es != [] {
      var e := es[0];
      var two := [StartLine(e) + "\n", FinishLine(e) + "\n"];
      var later := LinesOf(es[1..]);
      assert MatchLines(LinesOf(es)) == MatchLines(two) + MatchLines(later) by {
        assert LinesOf(es) == two + later;
        MatchLinesAppend(two, later);
      }
      assert e in es;
      WrittenPairFirst(e, MatchLines(later));
      LinesRoundTrip(es[1..]);
      assert es == [e] + es[1..];
    }
  }

  /** Reading back what the writer appended gives exactly the runs written, in
      order: N well-formed runs read as N entries. */
  lemma LedgerRoundTrip(es: seq<Entry>)
    requires forall e :: e in es ==> Writable(e)
    ensures Parsed(LedgerText(es)) == es
  {
    SplitLedger(es, []);
    assert LedgerText(es) + [] == LedgerText(es);
    assert SplitLines([]) == [];
    assert LinesOf(es) + [] == LinesOf(es);
    LinesRoundTrip(es);
  }

  /** Appending one run's two lines adds exactly that entry after the ones
      already in the file. */
  lemma AppendOneRun(es: seq<Entry>, e: Entry)
    requires forall x :: x in es ==> Writable(x)
    requires Writable(e)
    ensures Parsed(LedgerText(es) + EntryText(e)) == es + [e]
  {
    LedgerTextAppend(es, e);
    LedgerRoundTrip(es + [e]);
  }

  /** A run whose deployment never became ready is still read back as an
      ordinary entry, with the sentinel "-1" as its start. */
  lemma SentinelEntryKept(config: string, end: string)
    requires LabelOk(config) && StampOk(end)
    ensures Parsed(EntryText(Entry(config, "-1", end))) == [Entry(config, "-1", end)]
  {
    var e := Entry(config, "-1", end);
    assert NoSpace("-1");
    assert Writable(e);
    assert LedgerText([e]) == EntryText(e) by {
      assert LedgerText([e]) == EntryText(e) + LedgerText([]);
    }
    LedgerRoundTrip([e]);
  }

  /** A half-written last line after complete runs is dropped without
      disturbing the runs before it. */
  lemma PartialWriteDropped(es: seq<Entry>, partial: string)
    requires forall e :: e in es ==> Writable(e)
    requires '\n' !in partial && '\r' !in partial
    ensures Parsed(LedgerText(es) + partial) == es
  {
    var text := LedgerText(es) + partial;
    SplitLedger(es, partial);
    assert '\r' !in text;
    assert ReadLines(text) == SplitLines(text);
    var lines := LinesOf(es);
    LinesRoundTrip(es);
    if partial == [] {
      assert SplitLines(partial) == [];
      assert ReadLines(text) == lines;
    } else {
      assert SplitLines(partial) == [partial] by {
        LineLengthWhole(partial);
        assert partial[..|partial|] == partial;
      }
      assert ReadLines(text) == lines + [partial];
      TrailingLineDropped(lines, partial);
    }
  }

  /** Text without carriage returns is read as it stands. */
  lemma ReadLinesPlain(text: string)
    requires '\r' !in text
    ensures ReadLines(text) == SplitLines(text)
  {
  }

  /** Three lines without line breaks, each ended by one, split into those
      three lines. */
  lemma SplitThreeLines(a: string, b: string, c: string)
    requires '\n' !in a && '\n' !in b && '\n' !in c
    ensures SplitLines(a + "\n" + (b + "\n" + (c + "\n"))) == [a + "\n", b + "\n", c + "\n"]
  {
    var last := c + "\n";
    var tail := b + "\n" + last;
    assert SplitLines(a + "\n" + tail) == [a + "\n"] + SplitLines(tail) by {
      SplitLinesCons(a, tail);
    }
    assert SplitLines(tail) == [b + "\n"] + SplitLines(last) by {
      SplitLinesCons(b, last);
    }
    assert SplitLines(last) == [last] by {
      SplitLinesCons(c, []);
      assert c + "\n" + [] == last;
    }
  }

  /** Three lines without line breaks, each ended by one, read back as
      those three lines. */
  lemma ReadThreeLines(a: string, b: string, c: string)
    requires '\n' !in a && '\n' !in b && '\n' !in c
    requires '\r' !in a && '\r' !in b && '\r' !in c
    ensures ReadLines(a + "\n" + (b + "\n" + (c + "\n"))) == [a + "\n", b + "\n", c + "\n"]
  {
    ReadLinesPlain(a + "\n" + (b + "\n" + (c + "\n")));
    SplitThreeLines(a, b, c);
  }

  lemma ReadStrayThenEntry(stray: Entry, e: Entry)
    requires Writable(stray) && Writable(e)
    ensures ReadLines(StartLine(stray) + "\n" + EntryText(e)) ==
      [StartLine(stray) + "\n", StartLine(e) + "\n", FinishLine(e) + "\n"]
  {
    WritableLines(stray);
    WritableLines(e);
    var a, b, c := StartLine(stray), StartLine(e), FinishLine(e);
    assert StartLine(stray) + "\n" + EntryText(e) == a + "\n" + (b + "\n" + (c + "\n"));
    ReadThreeLines(a, b, c);
  }

  /** No re-synchronisation: after a stray Starting line, a complete record
      that follows is paired off by one and lost, although its two lines are
      well formed. */
  lemma NoResync(stray: Entry, e: Entry)
    requires Writable(stray) && Writable(e)
    requires MatchLine(StartLine(e) + "\n").finishing.None?
    ensures Parsed(StartLine(stray) + "\n" + EntryText(e)) == []
  {
    var lines := [StartLine(stray) + "\n", StartLine(e) + "\n", FinishLine(e) + "\n"];
    ReadStrayThenEntry(stray, e);
    var ms := MatchLines(lines);
    MatchLinesAt(lines, 1);
    assert Pair(ms, 0) == None;
    assert Pair(ms, 2) == None;
    assert ParseFrom(ms, 2) == [];
  }
}
