/** The configuration-name decoder of get_metrics.py (`parse_config_label`,
    lines 143-160): `re.match(r"tm(\d+)x(\d+)-(\d+)k", name)` anchored at
    the start of the name only, the three digit groups read with `int`, and
    the third one scaled by 1000. */
module Labels {
  import opened Optional
  import opened PyText

  /** The three decoded fields of a result row; each one is Python's `None`
      when the name does not match. */
  datatype ConfigFields = ConfigFields(numTms: Option<nat>, slotsPerTm: Option<nat>, input: Option<nat>)

  /** The three digit groups of a match and the text after the final `k`. */
  datatype Groups = Groups(tms: string, slots: string, kilo: string, tail: string)

  /** A regular-expression group `(\d+)`: one digit or more. */
  predicate Group(d: string) {
    d != [] && AllDigits(d)
  }

  /** `name` is `tm<tms>x<slots>-<kilo>k<tail>` with three digit groups. */
  predicate Shaped(name: string, g: Groups) {
    Group(g.tms) && Group(g.slots) && Group(g.kilo) &&
    name == "tm" + g.tms + "x" + g.slots + "-" + g.kilo + "k" + g.tail
  }

  /** Length of the run of digits at the front of `s`. */
  function DigitRun(s: string): (n: nat)
    ensures n <= |s|
  {
    if s == [] || !IsDigit(s[0]) then 0 else 1 + DigitRun(s[1..])
  }

  lemma {:induction false} DigitRunSpec(s: string)
    ensures AllDigits(s[..DigitRun(s)])
    ensures DigitRun(s) < |s| ==> !IsDigit(s[DigitRun(s)])
  {
    if s != [] && IsDigit(s[0]) {
      DigitRunSpec(s[1..]);
      assert s[..DigitRun(s)] == [s[0]] + s[1..][..DigitRun(s[1..])];
    }
  }

  /** A run of digits ends where a non-digit begins. */
  lemma {:induction false} DigitRunOf(d: string, t: string)
    requires AllDigits(d)
    requires t == [] || !IsDigit(t[0])
    ensures DigitRun(d + t) == |d|
  {
    if d != [] {
      assert (d + t)[1..] == d[1..] + t;
      DigitRunOf(d[1..], t);
    }
  }

  /** `(\d+)` followed by the literal `sep`: the greedy digit run, which is
      the only run that can be followed by a non-digit, and what is left
      after `sep`. */
  function TakeGroup(s: string, sep: char): Option<(string, string)> {
    var n := DigitRun(s);
    if n == 0 || n >= |s| || s[n] != sep then None else Some((s[..n], s[n + 1..]))
  }

  lemma TakeGroupSpec(s: string, sep: char, d: string, r: string)
    requires !IsDigit(sep)
    ensures TakeGroup(s, sep) == Some((d, r)) ==> Group(d) && s == d + [sep] + r
    ensures Group(d) && s == d + [sep] + r ==> TakeGroup(s, sep) == Some((d, r))
  {
    if Group(d) && s == d + [sep] + r {
      DigitRunOf(d, [sep] + r);
      assert s == d + ([sep] + r);
      assert DigitRun(s) == |d| && s[|d|] == sep;
      assert s[..|d|] == d;
      assert s[|d| + 1..] == r;
    }
    if TakeGroup(s, sep) == Some((d, r)) {
      var n := DigitRun(s);
      DigitRunSpec(s);
      assert d == s[..n] && r == s[n + 1..] && n > 0 && s[n] == sep;
      assert AllDigits(d);
      assert s == s[..n] + [sep] + s[n + 1..];
    }
  }

  /** `re.match(r"tm(\d+)x(\d+)-(\d+)k", name)`: the groups of the match at
      the start of the name, if there is one. */
  function MatchLabel(name: string): Option<Groups> {
    if |name| < 2 || name[..2] != "tm" then None
    else
      match TakeGroup(name[2..], 'x')
      case None => None
      case Some((a, r1)) =>
        match TakeGroup(r1, '-')
        case None => None
        case Some((b, r2)) =>
          match TakeGroup(r2, 'k')
          case None => None
          case Some((c, tail)) => Some(Groups(a, b, c, tail))
  }

  lemma Regroup(a: string, b: string, c: string, tail: string)
    ensures "tm" + a + "x" + b + "-" + c + "k" + tail == "tm" + (a + ['x'] + (b + ['-'] + (c + ['k'] + tail)))
  {
  }

  /** Every label of the shape is matched, with its own groups. */
  lemma MatchLabelComplete(name: string, g: Groups)
    requires Shaped(name, g)
    ensures MatchLabel(name) == Some(g)
  {
    var r2 := g.kilo + ['k'] + g.tail;
    var r1 := g.slots + ['-'] + r2;
    var r0 := g.tms + ['x'] + r1;
    Regroup(g.tms, g.slots, g.kilo, g.tail);
    assert name == "tm" + r0;
    assert name[..2] == "tm" && name[2..] == r0;
    TakeGroupSpec(r0, 'x', g.tms, r1);
    TakeGroupSpec(r1, '-', g.slots, r2);
    TakeGroupSpec(r2, 'k', g.kilo, g.tail);
  }

  /** What the matcher returns are the groups of a label of that shape. */
  lemma MatchLabelSound(name: string, g: Groups)
    requires MatchLabel(name) == Some(g)
    ensures Shaped(name, g)
  {
    var r0 := name[2..];
    var (a, r1) := TakeGroup(r0, 'x').value;
    var (b, r2) := TakeGroup(r1, '-').value;
    var (c, tail) := TakeGroup(r2, 'k').value;
    assert g == Groups(a, b, c, tail);
    TakeGroupSpec(r0, 'x', a, r1);
    TakeGroupSpec(r1, '-', b, r2);
    TakeGroupSpec(r2, 'k', c, tail);
    assert name == name[..2] + r0;
    Regroup(a, b, c, tail);
  }

  /** The three groups of a match are digit runs. */
  lemma MatchLabelGroups(name: string)
    ensures MatchLabel(name).Some? ==>
      Group(MatchLabel(name).value.tms) && Group(MatchLabel(name).value.slots) && Group(MatchLabel(name).value.kilo)
  {
    if MatchLabel(name).Some? {
      MatchLabelSound(name, MatchLabel(name).value);
    }
  }

  /** The matcher finds the groups exactly when the name has that shape, so
      the match is unique and anything after the `k` is accepted. */
  lemma MatchLabelSpec(name: string, g: Groups)
    ensures MatchLabel(name) == Some(g) <==> Shaped(name, g)
  {
    if Shaped(name, g) {
      MatchLabelComplete(name, g);
    }
    if MatchLabel(name) == Some(g) {
      MatchLabelSound(name, g);
    }
  }

  /** `parse_config_label`: the three fields from the groups, the third one
      times 1000, or all three `None` when the name does not match. */
  function ParseConfigLabel(name: string): (f: ConfigFields)
    ensures f.numTms.Some? == f.slotsPerTm.Some? == f.input.Some?
    ensures f.input.Some? ==> f.input.value % 1000 == 0
  {
    match MatchLabel(name)
    case None => ConfigFields(None, None, None)
    case Some(g) =>
      MatchLabelGroups(name);
      ConfigFields(Some(DigitsValue(g.tms)), Some(DigitsValue(g.slots)), Some(DigitsValue(g.kilo) * 1000))
  }

  /** A name of the shape `tm<a>x<b>-<c>k...` decodes to `(a, b, c * 1000)`,
      whatever follows the `k`. */
  lemma ParseConfigLabelAccepts(name: string, g: Groups)
    requires Shaped(name, g)
    ensures ParseConfigLabel(name) ==
      ConfigFields(Some(DigitsValue(g.tms)), Some(DigitsValue(g.slots)), Some(DigitsValue(g.kilo) * 1000))
  {
    MatchLabelSpec(name, g);
  }

  /** Any name not of that shape decodes to three `None`s. */
  lemma ParseConfigLabelRejects(name: string)
    requires forall g :: !Shaped(name, g)
    ensures ParseConfigLabel(name) == ConfigFields(None, None, None)
  {
    if MatchLabel(name).Some? {
      MatchLabelSpec(name, MatchLabel(name).value);
    }
  }

  /** Decoding reads back the numbers a name was written with. */
  lemma ParseConfigLabelRoundTrip(a: nat, b: nat, c: nat, tail: string)
    ensures ParseConfigLabel("tm" + NatToString(a) + "x" + NatToString(b) + "-" + NatToString(c) + "k" + tail) ==
      ConfigFields(Some(a), Some(b), Some(c * 1000))
  {
    ParseConfigLabelAccepts("tm" + NatToString(a) + "x" + NatToString(b) + "-" + NatToString(c) + "k" + tail,
      Groups(NatToString(a), NatToString(b), NatToString(c), tail));
  }

  lemma DigitsExamples()
    ensures DigitsValue("8") == 8 && DigitsValue("4") == 4 && DigitsValue("1") == 1
    ensures DigitsValue("50") == 50 && DigitsValue("40") == 40
  {
    assert "8"[..0] == "4"[..0] == "1"[..0] == "5"[..0] == [];
    assert "50"[..1] == "5" && "40"[..1] == "4";
  }

  lemma MatchExample()
    ensures MatchLabel("tm8x4-50k") == Some(Groups("8", "4", "50", ""))
  {
    assert "tm8x4-50k" == "tm" + "8" + "x" + "4" + "-" + "50" + "k" + "";
    MatchLabelComplete("tm8x4-50k", Groups("8", "4", "50", ""));
  }

  lemma MatchTailExample()
    ensures MatchLabel("tm8x1-40k-run2") == Some(Groups("8", "1", "40", "-run2"))
  {
    assert "tm8x1-40k-run2" == "tm" + "8" + "x" + "1" + "-" + "40" + "k" + "-run2";
    MatchLabelComplete("tm8x1-40k-run2", Groups("8", "1", "40", "-run2"));
  }

  /** The docstring's example, and one with text after the `k`, which is
      accepted and ignored. */
  lemma ParseConfigLabelExamples()
    ensures ParseConfigLabel("tm8x4-50k") == ConfigFields(Some(8), Some(4), Some(50000))
    ensures ParseConfigLabel("tm8x1-40k-run2") == ConfigFields(Some(8), Some(1), Some(40000))
  {
    DigitsExamples();
    MatchExample();
    MatchTailExample();
  }

  /** The two labels the runner's configurations carry have no `-<c>k`
      part, so every decoded field of their rows is `None`. */
  lemma RunnerLabelsUndecoded()
    ensures ParseConfigLabel("tm8x1") == ConfigFields(None, None, None)
    ensures ParseConfigLabel("tm2x4") == ConfigFields(None, None, None)
  {
    assert "tm8x1"[..2] == "tm" && "tm8x1"[2..] == "8x1";
    assert "8x1"[..1] == "8" && "8x1"[2..] == "1";
    assert DigitRun("8x1") == 1 && TakeGroup("8x1", 'x') == Some(("8", "1"));
    assert DigitRun("1") == 1 && TakeGroup("1", '-') == None;
    assert "tm2x4"[..2] == "tm" && "tm2x4"[2..] == "2x4";
    assert "2x4"[..1] == "2" && "2x4"[2..] == "4";
    assert DigitRun("2x4") == 1 && TakeGroup("2x4", 'x') == Some(("2", "4"));
    assert DigitRun("4") == 1 && TakeGroup("4", '-') == None;
  }
}
