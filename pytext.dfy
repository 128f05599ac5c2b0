/** The Option datatype shared by every module of the model. */
module Optional {
  datatype Option<+T> = None | Some(value: T)
}

/** Python's text primitives, as the benchmark scripts use them: `str.isspace`,
    `str.strip()`, `str.split(sep)`, `str.split()`, `str.startswith`, `str(n)`
    on a non-negative int, and `int(s)` on a run of ASCII digits. */
module PyText {
  import opened Optional

  /** Python's `str.isspace()` on one character. */
  predicate IsSpace(c: char) {
    c == ' ' || ('\t' <= c <= '\r') || ('\U{1c}' <= c <= '\U{1f}') ||
    c == '\U{85}' || c == '\U{a0}' || c == '\U{1680}' || ('\U{2000}' <= c <= '\U{200a}') ||
    c == '\U{2028}' || c == '\U{2029}' || c == '\U{202f}' || c == '\U{205f}' || c == '\U{3000}'
  }

  predicate NoSpace(s: string) {
    forall i :: 0 <= i < |s| ==> !IsSpace(s[i])
  }

  /** Neither end of `s` is whitespace (trivially so for the empty string). */
  predicate Unpadded(s: string) {
    s == [] || (!IsSpace(s[0]) && !IsSpace(s[|s| - 1]))
  }

  function LeadingSpaces(s: string): (k: nat)
    ensures k <= |s|
  {
    if s == [] || !IsSpace(s[0]) then 0 else 1 + LeadingSpaces(s[1..])
  }

  lemma {:induction false} LeadingSpacesSpec(s: string)
    ensures forall i :: 0 <= i < LeadingSpaces(s) ==> IsSpace(s[i])
    ensures LeadingSpaces(s) < |s| ==> !IsSpace(s[LeadingSpaces(s)])
  {
    if s != [] && IsSpace(s[0]) {
      LeadingSpacesSpec(s[1..]);
    }
  }

  function TrailingSpaces(s: string): (k: nat)
    ensures k <= |s|
  {
    if s == [] || !IsSpace(s[|s| - 1]) then 0 else 1 + TrailingSpaces(s[..|s| - 1])
  }

  lemma {:induction false} TrailingSpacesSpec(s: string)
    ensures forall i :: |s| - TrailingSpaces(s) <= i < |s| ==> IsSpace(s[i])
    ensures TrailingSpaces(s) < |s| ==> !IsSpace(s[|s| - 1 - TrailingSpaces(s)])
  {
    if s != [] && IsSpace(s[|s| - 1]) {
      TrailingSpacesSpec(s[..|s| - 1]);
    }
  }

  /** `r` is `s` with only whitespace cut off: its first `i` characters and
      everything after `r`. */
  predicate TrimmedAt(s: string, r: string, i: int) {
    0 <= i <= |s| - |r| && r == s[i..i + |r|] &&
    (forall k :: 0 <= k < i ==> IsSpace(s[k])) &&
    (forall k :: i + |r| <= k < |s| ==> IsSpace(s[k]))
  }

  /** Python's `s.strip()`. */
  function Strip(s: string): (r: string)
    ensures |r| <= |s|
  {
    var k := LeadingSpaces(s);
    var t := s[k..];
    t[..|t| - TrailingSpaces(t)]
  }

  /** `strip()` cuts only whitespace, and all of it: what is left neither
      starts nor ends with whitespace. */
  lemma StripSpec(s: string)
    ensures Unpadded(Strip(s))
    ensures exists i :: TrimmedAt(s, Strip(s), i)
  {
    var k := LeadingSpaces(s);
    var t := s[k..];
    var n := TrailingSpaces(t);
    LeadingSpacesSpec(s);
    TrailingSpacesSpec(t);
    assert t[..|t| - n] == s[k..k + (|t| - n)];
    assert TrimmedAt(s, t[..|t| - n], k);
  }

  lemma StripUnpadded(s: string)
    requires Unpadded(s)
    ensures Strip(s) == s
  {
    var k := LeadingSpaces(s);
    assert k == 0;
    assert s[k..] == s;
  }

  /** Stripping a line that ends in its line break gives the line back when the
      line itself is unpadded. */
  lemma {:induction false} StripLineBreak(s: string)
    requires Unpadded(s)
    ensures Strip(s + "\n") == s
  {
    var t := s + "\n";
    LeadingSpacesSpec(t);
    if s == [] {
      assert LeadingSpaces(t) == 1;
    } else {
      assert !IsSpace(t[0]);
      assert LeadingSpaces(t) == 0;
      assert t[0..] == t;
      assert t[..|t| - 1] == s;
      assert !IsSpace(s[|s| - 1]);
      assert TrailingSpaces(s) == 0;
      assert TrailingSpaces(t) == 1 + TrailingSpaces(s);
    }
  }

  /** Index of the first `c` in `s`. */
  function IndexOf(s: string, c: char): (i: nat)
    requires c in s
    ensures i < |s| && s[i] == c && c !in s[..i]
  {
    if s[0] == c then 0 else 1 + IndexOf(s[1..], c)
  }

  function JoinWith(parts: seq<string>, sep: char): string
    requires |parts| >= 1
  {
    if |parts| == 1 then parts[0] else parts[0] + [sep] + JoinWith(parts[1..], sep)
  }

  /** Python's `s.split(sep)` for a one-character separator: never empty,
      no piece holds the separator, and joining the pieces gives `s` back. */
  function SplitOn(s: string, sep: char): (parts: seq<string>)
    ensures |parts| >= 1
    ensures forall p :: p in parts ==> sep !in p
    ensures JoinWith(parts, sep) == s
    decreases |s|
  {
    if sep !in s then [s]
    else
      var i := IndexOf(s, sep);
      var rest := SplitOn(s[i + 1..], sep);
      assert s == s[..i] + [sep] + s[i + 1..];
      [s[..i]] + rest
  }

  /** Number of leading characters of `s` that are not whitespace. */
  function WordLength(s: string): (n: nat)
    ensures 0 < |s| && !IsSpace(s[0]) ==> n > 0
    ensures n <= |s| && NoSpace(s[..n])
    ensures n < |s| ==> IsSpace(s[n])
  {
    if s == [] || IsSpace(s[0]) then 0 else 1 + WordLength(s[1..])
  }

  /** Python's `s.split()` with no argument: the maximal runs of
      non-whitespace characters, in order. */
  function Words(s: string): (ws: seq<string>)
    ensures forall w :: w in ws ==> w != [] && NoSpace(w)
    ensures NoSpace(s) && s != [] ==> ws == [s]
    decreases |s|
  {
    var k := LeadingSpaces(s);
    LeadingSpacesSpec(s);
    if k == |s| then []
    else
      var t := s[k..];
      var n := WordLength(t);
      assert NoSpace(s) && s != [] ==> k == 0 && t == s && n == |s| && t[..n] == s && Words(t[n..]) == [];
      [t[..n]] + Words(t[n..])
  }

  predicate AllSpace(s: string) {
    forall i :: 0 <= i < |s| ==> IsSpace(s[i])
  }

  lemma {:induction false} LeadingSpacesOf(sp: string, t: string)
    requires AllSpace(sp) && (t == [] || !IsSpace(t[0]))
    ensures LeadingSpaces(sp + t) == |sp|
    decreases |sp|
  {
    if sp != [] {
      assert (sp + t)[0] == sp[0] && (sp + t)[1..] == sp[1..] + t;
      LeadingSpacesOf(sp[1..], t);
    } else {
      assert sp + t == t;
    }
  }

  lemma {:induction false} WordLengthOf(w: string, rest: string)
    requires NoSpace(w) && (rest == [] || IsSpace(rest[0]))
    ensures WordLength(w + rest) == |w|
    decreases |w|
  {
    if w != [] {
      assert (w + rest)[0] == w[0] && (w + rest)[1..] == w[1..] + rest;
      WordLengthOf(w[1..], rest);
    } else {
      assert w + rest == rest;
    }
  }

  /** `split()` on text that is all whitespace gives no words. */
  lemma WordsAllSpace(s: string)
    requires AllSpace(s)
    ensures Words(s) == []
  {
    LeadingSpacesOf(s, []);
    assert s + [] == s;
  }

  /** `split()` takes the whitespace before the first word, then that word
      up to the next whitespace (or the end), then splits the rest: the words
      are the maximal runs of non-whitespace, in order. */
  lemma WordsCons(sp: string, w: string, rest: string)
    requires AllSpace(sp) && w != [] && NoSpace(w)
    requires rest == [] || IsSpace(rest[0])
    ensures Words(sp + w + rest) == [w] + Words(rest)
  {
    var s := sp + w + rest;
    assert s == sp + (w + rest);
    LeadingSpacesOf(sp, w + rest);
    var t := s[|sp|..];
    assert t == w + rest;
    WordLengthOf(w, rest);
    assert t[..|w|] == w && t[|w|..] == rest;
  }

  predicate IsDigit(c: char) {
    '0' <= c <= '9'
  }

  predicate AllDigits(s: string) {
    forall i :: 0 <= i < |s| ==> IsDigit(s[i])
  }

  /** Python's `int(s)` on a string of ASCII digits (leading zeros allowed). */
  function DigitsValue(s: string): nat
    requires AllDigits(s)
  {
    if s == [] then 0
    else 10 * DigitsValue(s[..|s| - 1]) + ((s[|s| - 1] as int) - ('0' as int))
  }

  function DigitChar(d: nat): (c: char)
    requires d < 10
    ensures IsDigit(c) && (c as int) - ('0' as int) == d
  {
    (('0' as int) + d) as char
  }

  /** Python's `str(n)` for a non-negative int; `int` reads it back. */
  function NatToString(n: nat): (s: string)
    ensures s != [] && AllDigits(s) && DigitsValue(s) == n
    decreases n
  {
    if n < 10 then [DigitChar(n)]
    else
      var s := NatToString(n / 10) + [DigitChar(n % 10)];
      assert s[..|s| - 1] == NatToString(n / 10);
      s
  }

  /** `pat` occurs in `s` at index `j`. */
  predicate OccursAt(s: string, pat: string, j: int) {
    0 <= j && j + |pat| <= |s| && s[j..j + |pat|] == pat
  }

  function FindFrom(s: string, pat: string, from: nat): (r: Option<nat>)
    requires from <= |s|
    ensures r.Some? ==> from <= r.value && r.value + |pat| <= |s|
    decreases |s| - from
  {
    if from + |pat| > |s| then None
    else if s[from..from + |pat|] == pat then Some(from)
    else FindFrom(s, pat, from + 1)
  }

  lemma {:induction false} FindFromSpec(s: string, pat: string, from: nat)
    requires from <= |s|
    ensures var r := FindFrom(s, pat, from);
      (r.Some? ==> OccursAt(s, pat, r.value) && forall j :: from <= j < r.value ==> !OccursAt(s, pat, j)) &&
      (r.None? ==> forall j :: from <= j ==> !OccursAt(s, pat, j))
    decreases |s| - from
  {
    if from + |pat| <= |s| && s[from..from + |pat|] != pat {
      FindFromSpec(s, pat, from + 1);
    }
  }

  /** The index of the first occurrence of `pat` in `s`, where a regular
      expression's lazy `(.*?)` prefix stops. */
  function Find(s: string, pat: string): (r: Option<nat>)
    ensures r.Some? ==> r.value + |pat| <= |s|
  {
    FindFrom(s, pat, 0)
  }

  /** `Find` returns the first occurrence, and `None` only when there is none. */
  lemma FindSpec(s: string, pat: string)
    ensures var r := Find(s, pat);
      (r.Some? ==> OccursAt(s, pat, r.value) && forall j :: 0 <= j < r.value ==> !OccursAt(s, pat, j)) &&
      (r.None? ==> forall j :: !OccursAt(s, pat, j))
  {
    FindFromSpec(s, pat, 0);
  }
}
