/** The runner's readiness test (`are_taskmanagers_ready`,
    slot_count_impact/flink_benchmark_runner.py:87-107) and the poll schedule
    of `wait_for_ready` (lines 109-116). `kubectl get pods` is an oracle: what
    it printed, or that it failed. */
module Readiness {
  import opened PyText

  /** What one `kubectl get pods --no-headers` call gave: its standard
      output, or a non-zero exit (`CalledProcessError`). */
  datatype PodQuery = Listed(stdout: string) | CallFailed

  /** What `are_taskmanagers_ready` does: return a verdict, or raise
      `IndexError` on a listing line with fewer than three columns. */
  datatype Check = Checked(ready: bool) | IndexError

  /** `output.strip().split("\n")`. */
  function PodLines(out: string): (lines: seq<string>)
    ensures |lines| >= 1
  {
    SplitOn(Strip(out), '\n')
  }

  /** One listing line: its status column (index 2) must be "Running" and its
      ready column (index 1) must start with "1/1". */
  function LineCheck(line: string): Check {
    var cols := Words(line);
    if |cols| < 3 then IndexError
    else Checked(cols[2] == "Running" && "1/1" <= cols[1])
  }

  /** A line that passes. */
  predicate LineReady(line: string) {
    var cols := Words(line);
    |cols| >= 3 && cols[2] == "Running" && "1/1" <= cols[1]
  }

  /** The `for line in lines` loop: the first line that does not pass decides. */
  function ScanLines(lines: seq<string>): Check {
    if lines == [] then Checked(true)
    else if LineCheck(lines[0]) == Checked(true) then ScanLines(lines[1..])
    else LineCheck(lines[0])
  }

  /** The value `are_taskmanagers_ready` returns (or the exception it raises)
      for the oracle's answer `q`. */
  function Verdict(q: PodQuery, expected: int): Check {
    match q
    case CallFailed => Checked(false)
    case Listed(out) =>
      var lines := PodLines(out);
      if |lines| < expected then Checked(false) else ScanLines(lines)
  }

  /** `are_taskmanagers_ready(expected_replicas=expected)` on the answer `q`. */
  method AreTaskmanagersReady(q: PodQuery, expected: int) returns (c: Check)
    ensures c == Verdict(q, expected)
  {
    if q.CallFailed? {
      return Checked(false);
    }
    var lines := PodLines(q.stdout);
    if |lines| < expected {
      return Checked(false);
    }
    var i := 0;
    while i < |lines|
      invariant 0 <= i <= |lines|
      invariant ScanLines(lines) == ScanLines(lines[i..])
    {
      var cols := Words(lines[i]);
      if |cols| < 3 {
        return IndexError;
      }
      if cols[2] != "Running" || !("1/1" <= cols[1]) {
        return Checked(false);
      }
      assert lines[i..][1..] == lines[i + 1..];
      i := i + 1;
    }
    c := Checked(true);
  }

  /** The scan passes exactly when every line passes. */
  lemma {:induction false} ScanAllReady(lines: seq<string>)
    ensures ScanLines(lines) == Checked(true) <==> forall l :: l in lines ==> LineReady(l)
    decreases |lines|
  {
    if lines != [] {
      ScanAllReady(lines[1..]);
      assert LineCheck(lines[0]) == Checked(true) <==> LineReady(lines[0]);
      assert forall l :: l in lines <==> l == lines[0] || l in lines[1..];
    }
  }

  /** Otherwise the first line that does not pass decides: `False` when it has
      three columns, `IndexError` when it has fewer. */
  lemma {:induction false} ScanFirstFailure(lines: seq<string>, i: nat)
    requires i < |lines| && !LineReady(lines[i])
    requires forall j :: 0 <= j < i ==> LineReady(lines[j])
    ensures ScanLines(lines) == (if |Words(lines[i])| < 3 then IndexError else Checked(false))
    decreases i
  {
    if i > 0 {
      ScanFirstFailure(lines[1..], i - 1);
    }
  }

  /** `are_taskmanagers_ready` returns `True` exactly when `kubectl` answered,
      with at least `expected` lines, each of which has status "Running" and a
      ready column starting with "1/1". */
  lemma ReadySpec(q: PodQuery, expected: int)
    ensures Verdict(q, expected) == Checked(true) <==>
      q.Listed? && |PodLines(q.stdout)| >= expected &&
      forall l :: l in PodLines(q.stdout) ==> LineReady(l)
  {
    if q.Listed? {
      ScanAllReady(PodLines(q.stdout));
    }
  }

  /** It never reports ready with fewer lines than expected, and a failed
      `kubectl` call reads as not ready. */
  lemma NotReadyShort(q: PodQuery, expected: int)
    requires q.CallFailed? || |PodLines(q.stdout)| < expected
    ensures Verdict(q, expected) == Checked(false)
  {
  }

  /** A scan that raises `IndexError` has reached a line with fewer than
      three columns after only lines that pass. */
  lemma ScanIndexErrorSound(lines: seq<string>) returns (i: nat)
    requires ScanLines(lines) == IndexError
    ensures i < |lines| && |Words(lines[i])| < 3 && forall j :: 0 <= j < i ==> LineReady(lines[j])
  {
    if forall l :: l in lines ==> LineReady(l) {
      ScanAllReady(lines);
      assert false;
    }
    var k :| 0 <= k < |lines| && !LineReady(lines[k]);
    i := FirstNotReady(lines, k);
    ScanFirstFailure(lines, i);
  }

  /** A line with fewer than three columns after only lines that pass makes
      the scan raise `IndexError`. */
  lemma ScanIndexErrorComplete(lines: seq<string>, i: nat)
    requires i < |lines| && |Words(lines[i])| < 3 && forall j :: 0 <= j < i ==> LineReady(lines[j])
    ensures ScanLines(lines) == IndexError
  {
    ScanFirstFailure(lines, i);
  }

  /** The scan raises `IndexError` exactly when its first failing line has
      fewer than three columns. */
  lemma ScanIndexError(lines: seq<string>)
    ensures ScanLines(lines) == IndexError <==>
      exists i :: 0 <= i < |lines| && |Words(lines[i])| < 3 &&
        forall j :: 0 <= j < i ==> LineReady(lines[j])
  {
    if ScanLines(lines) == IndexError {
      var i := ScanIndexErrorSound(lines);
    }
    forall i | 0 <= i < |lines| && |Words(lines[i])| < 3 && (forall j :: 0 <= j < i ==> LineReady(lines[j]))
      ensures ScanLines(lines) == IndexError
    {
      ScanIndexErrorComplete(lines, i);
    }
  }

  /** `IndexError` escapes only from a listing with enough lines whose first
      failing line has fewer than three columns. */
  lemma IndexErrorSpec(q: PodQuery, expected: int)
    ensures Verdict(q, expected) == IndexError <==>
      q.Listed? && |PodLines(q.stdout)| >= expected &&
      exists i :: 0 <= i < |PodLines(q.stdout)| && |Words(PodLines(q.stdout)[i])| < 3 &&
        forall j :: 0 <= j < i ==> LineReady(PodLines(q.stdout)[j])
  {
    if q.Listed? {
      ScanIndexError(PodLines(q.stdout));
    }
  }

  /** Index of the first line that does not pass, given some line `k` that
      does not. */
  ghost function FirstNotReady(lines: seq<string>, k: nat): (i: nat)
    requires k < |lines| && !LineReady(lines[k])
    ensures i <= k && !LineReady(lines[i])
    ensures forall j :: 0 <= j < i ==> LineReady(lines[j])
  {
    if !LineReady(lines[0]) then 0 else 1 + FirstNotReady(lines[1..], k - 1)
  }

  /** An empty listing strips to one empty line: not ready when two or more
      replicas are expected, and `IndexError` otherwise. */
  lemma EmptyListing(expected: int)
    ensures Verdict(Listed(""), expected) == if expected >= 2 then Checked(false) else IndexError
  {
    assert Strip("") == "";
    assert PodLines("") == [""];
    assert Words("") == [];
  }

  // ---------------------------------------------------------------------------
  // wait_for_ready's schedule

  /** `range(timeout // 5)` has this many iterations: Python's floor division
      and Dafny's agree for a positive divisor, and a negative count is an
      empty range. */
  function Polls(timeout: int): (n: nat)
    ensures n * 5 <= timeout || n == 0
    ensures timeout < 5 <==> n == 0
  {
    if timeout < 0 then 0 else timeout / 5
  }

  /** The outcome of a wait, and the clock when it ended. */
  datatype Wait = Wait(result: Check, at: nat)

  /** `wait_for_ready` starting at second `t` with `n` polls left: poll, stop
      at a ready listing or an escaping `IndexError`, otherwise sleep five
      seconds. `answer(t)` is what `are_taskmanagers_ready` gives at second
      `t`. */
  function WaitFrom(answer: nat -> Check, t: nat, n: nat): Wait
    decreases n
  {
    if n == 0 then Wait(Checked(false), t)
    else
      var v := answer(t);
      if v == Checked(false) then WaitFrom(answer, t + 5, n - 1) else Wait(v, t)
  }

  /** Poll `i` of a wait started at `t` happens at second `t + 5 * i`. */
  function PollAt(answer: nat -> Check, t: nat, i: nat): Check {
    answer(t + 5 * i)
  }

  /** Poll `j + 1` of a wait is poll `j` of the wait that starts five seconds
      later. */
  lemma PollShift(answer: nat -> Check, t: nat, j: nat)
    ensures PollAt(answer, t, j + 1) == PollAt(answer, t + 5, j)
    ensures t + 5 * (j + 1) == t + 5 + 5 * j
  {
  }

  /** The first poll that is not a plain "not ready" decides the wait, at the
      second it was made. */
  lemma {:induction false} WaitFirstDecisive(answer: nat -> Check, t: nat, n: nat, i: nat)
    requires i < n && PollAt(answer, t, i) != Checked(false)
    requires forall j :: 0 <= j < i ==> PollAt(answer, t, j) == Checked(false)
    ensures WaitFrom(answer, t, n) == Wait(PollAt(answer, t, i), t + 5 * i)
    decreases i
  {
    if i > 0 {
      assert PollAt(answer, t, 0) == Checked(false);
      var t1 := t + 5;
      forall j | 0 <= j < i - 1
        ensures PollAt(answer, t1, j) == Checked(false)
      {
        PollShift(answer, t, j);
      }
      PollShift(answer, t, i - 1);
      WaitFirstDecisive(answer, t1, n - 1, i - 1);
    }
  }

  /** When every poll says "not ready" the wait gives up after `n` polls and
      `5 * n` seconds. */
  lemma {:induction false} WaitTimesOut(answer: nat -> Check, t: nat, n: nat)
    requires forall j :: 0 <= j < n ==> PollAt(answer, t, j) == Checked(false)
    ensures WaitFrom(answer, t, n) == Wait(Checked(false), t + 5 * n)
    decreases n
  {
    if n > 0 {
      assert PollAt(answer, t, 0) == Checked(false);
      var t1 := t + 5;
      forall j | 0 <= j < n - 1
        ensures PollAt(answer, t1, j) == Checked(false)
      {
        PollShift(answer, t, j);
      }
      WaitTimesOut(answer, t1, n - 1);
    }
  }

  /** Index of the first poll that is not a plain "not ready". */
  function FirstDecisive(answer: nat -> Check, t: nat, n: nat): (i: nat)
    requires exists j :: 0 <= j < n && PollAt(answer, t, j) != Checked(false)
    ensures i < n && PollAt(answer, t, i) != Checked(false)
    ensures forall j :: 0 <= j < i ==> PollAt(answer, t, j) == Checked(false)
  {
    var j :| 0 <= j < n && PollAt(answer, t, j) != Checked(false);
    FirstBelow(answer, t, j)
  }

  function FirstBelow(answer: nat -> Check, t: nat, j: nat): (i: nat)
    requires PollAt(answer, t, j) != Checked(false)
    ensures i <= j && PollAt(answer, t, i) != Checked(false)
    ensures forall k :: 0 <= k < i ==> PollAt(answer, t, k) == Checked(false)
  {
    if exists k :: 0 <= k < j && PollAt(answer, t, k) != Checked(false) then
      var k :| 0 <= k < j && PollAt(answer, t, k) != Checked(false);
      FirstBelow(answer, t, k)
    else j
  }

  /** `wait_for_ready` returns `True` exactly when one of its `n` polls finds
      the task managers ready and every poll before it found them not ready;
      it then returns at that poll, before the time limit. */
  lemma WaitReadySpec(answer: nat -> Check, t: nat, n: nat)
    ensures WaitFrom(answer, t, n).result == Checked(true) <==>
      exists i :: 0 <= i < n && PollAt(answer, t, i) == Checked(true) &&
        forall j :: 0 <= j < i ==> PollAt(answer, t, j) == Checked(false)
    ensures WaitFrom(answer, t, n).result == Checked(true) ==>
      t <= WaitFrom(answer, t, n).at < t + 5 * n
  {
    if exists j :: 0 <= j < n && PollAt(answer, t, j) != Checked(false) {
      var i := FirstDecisive(answer, t, n);
      WaitFirstDecisive(answer, t, n, i);
    } else {
      WaitTimesOut(answer, t, n);
    }
  }

  /** Any wait ends within `5 * n` seconds of its start. */
  lemma {:induction false} WaitBounded(answer: nat -> Check, t: nat, n: nat)
    ensures t <= WaitFrom(answer, t, n).at <= t + 5 * n
    decreases n
  {
    if n > 0 {
      WaitBounded(answer, t + 5, n - 1);
    }
  }

  /** A timeout below five seconds polls nothing: the wait returns `False` at
      once. */
  lemma ShortTimeout(answer: nat -> Check, t: nat, timeout: int)
    requires timeout < 5
    ensures WaitFrom(answer, t, Polls(timeout)) == Wait(Checked(false), t)
  {
  }

  /** The ready test is a prefix test: a pod showing "1/10" ready containers
      passes it. */
  lemma PrefixReadyAccepted(line: string, name: string, rest: seq<string>)
    requires Words(line) == [name, "1/10", "Running"] + rest
    ensures LineReady(line) && LineCheck(line) == Checked(true)
  {
  }
}
