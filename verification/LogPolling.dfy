/**
 Reading a growing log a piece at a time (`tool_call_delta` and
 `context_tokens_delta` in lib/audit_helpers.py).  A poll takes the bytes past
 its offset, uses the complete lines among them and returns the offset of what
 is left.  What a line is worth is a parameter: the source's classifiers look at
 one event at a time.
 */
module LogPolling {
  import opened Common

  newtype Byte = b: int | 0 <= b < 256
  type Bytes = seq<Byte>

  const LF: Byte := 10
  const CR: Byte := 13

  // ------------------------------------------------------------ lines

  predicate BreaksAt(s: Bytes, i: int) {
    0 <= i < |s| && (s[i] == LF || s[i] == CR)
  }

  predicate FeedsAt(s: Bytes, i: int) {
    0 <= i < |s| && s[i] == LF
  }

  function FirstBreak(s: Bytes): (k: nat)
    ensures k <= |s|
    ensures forall i :: 0 <= i < k ==> !BreaksAt(s, i)
    ensures k < |s| ==> BreaksAt(s, k)
  {
    if s == [] || BreaksAt(s, 0) then 0
    else
      var k := FirstBreak(s[1..]);
      assert forall i :: 1 <= i ==> (BreaksAt(s, i) <==> BreaksAt(s[1..], i - 1));
      1 + k
  }

  /** How many bytes the first line and its ending take. */
  function FirstSpan(s: Bytes): (n: nat)
    requires s != []
    ensures 0 < n <= |s|
  {
    var k := FirstBreak(s);
    if k == |s| then k
    else if s[k] == CR && k + 1 < |s| && s[k + 1] == LF then k + 2
    else k + 1
  }

  /** `bytes.splitlines`: a line ends at a line feed, a carriage return, or both. */
  function Lines(s: Bytes): seq<Bytes> {
    if s == [] then [] else [s[..FirstBreak(s)]] + Lines(s[FirstSpan(s)..])
  }

  /** The length of the part of `s` that ends with its last line feed. */
  function Complete(s: Bytes): (n: nat)
    ensures n <= |s|
    ensures n > 0 ==> FeedsAt(s, n - 1)
    ensures forall i :: n <= i ==> !FeedsAt(s, i)
  {
    if s == [] then 0
    else if s[|s| - 1] == LF then |s|
    else
      assert forall i :: i != |s| - 1 ==> (FeedsAt(s, i) <==> FeedsAt(s[..|s| - 1], i));
      Complete(s[..|s| - 1])
  }

  predicate Unbroken(line: Bytes) {
    forall i :: 0 <= i < |line| ==> line[i] != 10 && line[i] != 13
  }

  lemma FirstBreakIs(s: Bytes, k: nat)
    requires k <= |s| && (k < |s| ==> BreaksAt(s, k)) && forall i :: 0 <= i < k ==> !BreaksAt(s, i)
    ensures FirstBreak(s) == k
  {
    assert FirstBreak(s) < |s| ==> BreaksAt(s, FirstBreak(s));
  }

  /** A text without a break is one line, if it is anything at all. */
  lemma LastLine(line: Bytes)
    requires Unbroken(line)
    ensures Lines(line) == if line == [] then [] else [line]
  {
    FirstBreakIs(line, |line|);
    if line != [] {
      LinesUnfold(line, |line|, |line|);
      assert line[..|line|] == line && line[|line|..] == [];
    }
  }

  /** A line feed, a carriage return or the two together end a line. */
  lemma LineEnds(line: Bytes, ending: Bytes, rest: Bytes)
    requires Unbroken(line) && ending in {[10], [13], [13, 10]} && (ending == [13] && rest != [] ==> rest[0] != 10)
    ensures Lines(line + ending + rest) == [line] + Lines(rest)
  {
    var s := line + ending + rest;
    FirstBreakIs(s, |line|);
    assert s[..|line|] == line && s[|line| + |ending|..] == rest;
    assert |ending| == 1 && ending[0] == 13 && rest != [] ==> s[|line| + 1] == rest[0];
    LinesUnfold(s, |line|, |line| + |ending|);
  }

  predicate EndsLine(s: Bytes) {
    s == [] || s[|s| - 1] == LF
  }

  lemma FirstLineHere(a: Bytes, b: Bytes)
    requires a != [] && EndsLine(a)
    ensures FirstBreak(a + b) == FirstBreak(a) < |a|
    ensures FirstSpan(a + b) == FirstSpan(a)
  {
    var k := FirstBreak(a);
    assert BreaksAt(a, |a| - 1);
    forall i | 0 <= i < k ensures !BreaksAt(a + b, i) { assert !BreaksAt(a, i); }
    assert BreaksAt(a + b, k);
  }

  lemma LinesUnfold(s: Bytes, k: nat, n: nat)
    requires s != [] && k == FirstBreak(s) && n == FirstSpan(s)
    ensures Lines(s) == [s[..k]] + Lines(s[n..])
  {
  }

  lemma TailOfConcat(a: Bytes, b: Bytes, k: nat, n: nat)
    requires k <= |a| && n <= |a|
    ensures (a + b)[n..] == a[n..] + b && (a + b)[..k] == a[..k]
  {
  }

  lemma FirstLineOff(a: Bytes, b: Bytes)
    requires a != [] && EndsLine(a)
    requires Lines(a[FirstSpan(a)..] + b) == Lines(a[FirstSpan(a)..]) + Lines(b)
    ensures Lines(a + b) == Lines(a) + Lines(b)
  {
    FirstLineHere(a, b);
    var k, n := FirstBreak(a), FirstSpan(a);
    TailOfConcat(a, b, k, n);
    var tail, more := Lines(a[n..]), Lines(b);
    assert Lines(a + b) == [a[..k]] + (tail + more) by { LinesUnfold(a + b, k, n); }
    assert Lines(a) == [a[..k]] + tail by { LinesUnfold(a, k, n); }
    Associates([a[..k]], tail, more);
  }

  /** Lines can be taken from a text cut anywhere after a line feed. */
  lemma {:induction false} LinesOfConcat(a: Bytes, b: Bytes)
    requires EndsLine(a)
    ensures Lines(a + b) == Lines(a) + Lines(b)
    decreases |a|
  {
    if a == [] {
      assert a + b == b;
    } else {
      LinesOfConcat(a[FirstSpan(a)..], b);
      FirstLineOff(a, b);
    }
  }

  lemma CompleteIsLast(s: Bytes, n: nat)
    requires n <= |s| && (n > 0 ==> FeedsAt(s, n - 1)) && forall i :: n <= i ==> !FeedsAt(s, i)
    ensures Complete(s) == n
  {
    assert Complete(s) > 0 ==> FeedsAt(s, Complete(s) - 1);
  }

  /** The complete part of a grown log is what was complete before and what is
      complete in the rest. */
  lemma FeedsInRest(log: Bytes, offset: nat, i: nat)
    requires offset <= |log| && offset <= i
    ensures FeedsAt(log, i) <==> FeedsAt(log[offset..], i - offset)
  {
  }

  lemma CompleteGrows(log: Bytes, offset: nat)
    requires offset <= |log| && EndsLine(log[..offset])
    ensures Complete(log) == offset + Complete(log[offset..])
  {
    var rest := log[offset..];
    var n := Complete(rest);
    forall i | offset <= i ensures FeedsAt(log, i) <==> FeedsAt(rest, i - offset) { FeedsInRest(log, offset, i); }
    if n == 0 && offset > 0 { assert log[offset - 1] == log[..offset][offset - 1]; }
    CompleteIsLast(log, offset + n);
  }

  lemma LinesGrow(log: Bytes, offset: nat)
    requires offset <= |log| && EndsLine(log[..offset])
    ensures Lines(log[..Complete(log)]) == Lines(log[..offset]) + Lines(log[offset..][..Complete(log[offset..])])
  {
    CompleteGrows(log, offset);
    var part := log[offset..][..Complete(log[offset..])];
    assert log[..Complete(log)] == log[..offset] + part;
    LinesOfConcat(log[..offset], part);
  }

  // ------------------------------------------------------------ what lines are worth

  /** The sum of `worth` over the lines that are not empty. */
  function Sum(worth: Bytes -> int, lines: seq<Bytes>): int {
    if lines == [] then 0
    else
      var line := lines[|lines| - 1];
      Sum(worth, lines[..|lines| - 1]) + if line == [] then 0 else worth(line)
  }

  /** The largest `worth` of a line that is not empty, and at least 0. */
  function Largest(worth: Bytes -> int, lines: seq<Bytes>): (m: int)
    ensures m >= 0
  {
    if lines == [] then 0
    else
      var before := Largest(worth, lines[..|lines| - 1]);
      var line := lines[|lines| - 1];
      if line != [] && worth(line) > before then worth(line) else before
  }

  function Max(a: int, b: int): int {
    if a < b then b else a
  }

  lemma {:induction false} SumOfConcat(worth: Bytes -> int, a: seq<Bytes>, b: seq<Bytes>)
    ensures Sum(worth, a + b) == Sum(worth, a) + Sum(worth, b)
  {
    if b == [] {
      assert a + b == a;
    } else {
      SumOfConcat(worth, a, b[..|b| - 1]);
      assert (a + b)[..|a + b| - 1] == a + b[..|b| - 1];
    }
  }

  lemma {:induction false} LargestOfConcat(worth: Bytes -> int, a: seq<Bytes>, b: seq<Bytes>)
    ensures Largest(worth, a + b) == Max(Largest(worth, a), Largest(worth, b))
  {
    if b == [] {
      assert a + b == a;
    } else {
      LargestOfConcat(worth, a, b[..|b| - 1]);
      assert (a + b)[..|a + b| - 1] == a + b[..|b| - 1];
    }
  }

  /** A line counts for what it is worth, and an empty one for nothing. */
  lemma OneLine(worth: Bytes -> int, line: Bytes)
    ensures Sum(worth, []) == 0 && Sum(worth, [line]) == if line == [] then 0 else worth(line)
  {
    assert [line][..0] == [];
  }

  /** The largest is a bound, and unless it is 0 some line is worth that much. */
  lemma {:induction false} LargestIsTheGreatest(worth: Bytes -> int, lines: seq<Bytes>)
    ensures forall line :: line in lines && line != [] ==> worth(line) <= Largest(worth, lines)
    ensures Largest(worth, lines) == 0 || exists line :: line in lines && line != [] && worth(line) == Largest(worth, lines)
  {
    if lines != [] {
      SplitLast(lines);
      LargestIsTheGreatest(worth, lines[..|lines| - 1]);
      assert lines[|lines| - 1] in lines;
    }
  }

  // ------------------------------------------------------------ one poll

  /** Where a poll starts reading: a log shorter than the offset is read anew. */
  function StartOf(log: Bytes, offset: int): (n: nat)
    ensures n <= |log|
  {
    if offset < 0 || offset > |log| then 0 else offset
  }

  /** The lines a poll of `log` takes. */
  function Taken(log: Bytes, offset: int): seq<Bytes> {
    var chunk := log[StartOf(log, offset)..];
    Lines(chunk[..Complete(chunk)])
  }

  function NextOffset(log: Option<Bytes>, offset: int): nat {
    if log.None? then (if offset < 0 then 0 else offset)
    else
      var start := StartOf(log.value, offset);
      start + Complete(log.value[start..])
  }

  function LinesOf(log: Option<Bytes>, offset: int): seq<Bytes> {
    if log.None? then [] else Taken(log.value, offset)
  }

  /** A poll takes the lines from its offset, or from the start of a log that has
      become shorter, to the last line feed; one that cannot read takes none. */
  lemma PollTakes(log: Option<Bytes>, offset: int)
    ensures log.None? ==> LinesOf(log, offset) == [] && NextOffset(log, offset) == if offset < 0 then 0 else offset
    ensures log.Some? ==>
      var start, next := if 0 <= offset <= |log.value| then offset else 0, NextOffset(log, offset);
      && start <= next <= |log.value| && (next > start ==> log.value[next - 1] == 10)
      && (forall i :: next <= i < |log.value| ==> log.value[i] != 10)
      && LinesOf(log, offset) == Lines(log.value[start..next])
  {
    if log.Some? {
      var start := if 0 <= offset <= |log.value| then offset else 0;
      var chunk := log.value[start..];
      forall i | start + Complete(chunk) <= i < |log.value| ensures log.value[i] != 10 {
        assert !FeedsAt(chunk, i - start);
      }
      assert chunk[..Complete(chunk)] == log.value[start..start + Complete(chunk)];
    }
  }

  /** `tool_call_delta`; a log that cannot be read is `None`. */
  method ToolCallDelta(log: Option<Bytes>, offset: int, completed: Bytes -> int) returns (count: int, next: nat)
    ensures count == Sum(completed, LinesOf(log, offset))
    ensures next == NextOffset(log, offset)
  {
    var from: nat := if offset < 0 then 0 else offset;
    count, next := 0, from;
    if log.None? { return; }
    var text := log.value;
    if from > |text| { from := 0; }
    var chunk := text[from..];
    if chunk == [] { return 0, from; }
    var end := Complete(chunk);
    if end == 0 { return 0, from; }
    next := from + end;
    var lines := Lines(chunk[..end]);
    for i := 0 to |lines|
      invariant count == Sum(completed, lines[..i])
    {
      assert lines[..i + 1][..i] == lines[..i];
      if lines[i] == [] { continue; }
      count := count + completed(lines[i]);
    }
    assert lines[..|lines|] == lines;
  }

  /** `context_tokens_delta`. */
  method ContextTokensDelta(log: Option<Bytes>, offset: int, context: Bytes -> int, dispatched: Bytes -> int)
      returns (largest: int, inflight: int, next: nat)
    ensures largest == Largest(context, LinesOf(log, offset))
    ensures inflight == Sum(dispatched, LinesOf(log, offset))
    ensures next == NextOffset(log, offset)
  {
    var from: nat := if offset < 0 then 0 else offset;
    largest, inflight, next := 0, 0, from;
    if log.None? { return; }
    var text := log.value;
    if from > |text| { from := 0; }
    var chunk := text[from..];
    var end := Complete(chunk);
    if end == 0 { return 0, 0, from; }
    next := from + end;
    var lines := Lines(chunk[..end]);
    for i := 0 to |lines|
      invariant largest == Largest(context, lines[..i])
      invariant inflight == Sum(dispatched, lines[..i])
    {
      assert lines[..i + 1][..i] == lines[..i];
      if lines[i] == [] { continue; }
      if context(lines[i]) > largest { largest := context(lines[i]); }
      inflight := inflight + dispatched(lines[i]);
    }
    assert lines[..|lines|] == lines;
  }

  // ------------------------------------------------------------ any sequence of polls

  /** The log only grows from one reading to the next; `None` is a poll that
      could not read it. */
  ghost predicate AppendOnly(polls: seq<Option<Bytes>>) {
    forall i, j :: 0 <= i < j < |polls| && polls[i].Some? && polls[j].Some? ==> polls[i].value <= polls[j].value
  }

  /** The offset after all polls, each starting where the last one left off. */
  function FinalOffset(polls: seq<Option<Bytes>>): nat {
    if polls == [] then 0
    else NextOffset(polls[|polls| - 1], FinalOffset(polls[..|polls| - 1]))
  }

  /** The lines that poll `i` takes. */
  function PollLines(polls: seq<Option<Bytes>>, i: nat): seq<Bytes>
    requires i < |polls|
  {
    LinesOf(polls[i], FinalOffset(polls[..i]))
  }

  function TotalOver(worth: Bytes -> int, polls: seq<Option<Bytes>>): int {
    if polls == [] then 0
    else TotalOver(worth, polls[..|polls| - 1]) + Sum(worth, PollLines(polls, |polls| - 1))
  }

  function LargestOver(worth: Bytes -> int, polls: seq<Option<Bytes>>): int {
    if polls == [] then 0
    else Max(LargestOver(worth, polls[..|polls| - 1]), Largest(worth, PollLines(polls, |polls| - 1)))
  }

  /** The log as last read; empty if no poll could read it. */
  function LastRead(polls: seq<Option<Bytes>>): Bytes {
    if polls == [] then []
    else if polls[|polls| - 1].Some? then polls[|polls| - 1].value
    else LastRead(polls[..|polls| - 1])
  }

  lemma {:induction false} LastReadIsLongest(polls: seq<Option<Bytes>>, log: Bytes)
    requires AppendOnly(polls + [Some(log)])
    ensures LastRead(polls) <= log
  {
    if polls != [] {
      var n := |polls| - 1;
      if polls[n].Some? {
        assert (polls + [Some(log)])[n] == polls[n] && (polls + [Some(log)])[|polls|] == Some(log);
      } else {
        assert AppendOnly(polls[..n] + [Some(log)]) by {
          forall i, j | 0 <= i < j < |polls[..n] + [Some(log)]| && (polls[..n] + [Some(log)])[i].Some? && (polls[..n] + [Some(log)])[j].Some?
            ensures (polls[..n] + [Some(log)])[i].value <= (polls[..n] + [Some(log)])[j].value
          {
            assert (polls + [Some(log)])[i] == (polls[..n] + [Some(log)])[i];
            assert (polls + [Some(log)])[if j == n then n + 1 else j] == (polls[..n] + [Some(log)])[j];
          }
        }
        LastReadIsLongest(polls[..n], log);
      }
    }
  }

  /** Whatever the polls and however the log grew between them, they add up to
      one reading of the complete lines of the log as last seen; the offset ends
      just past the last line feed. */
  lemma {:induction false} PollingEqualsOnePass(worth: Bytes -> int, polls: seq<Option<Bytes>>)
    requires AppendOnly(polls)
    ensures var log := LastRead(polls);
      && FinalOffset(polls) == Complete(log)
      && TotalOver(worth, polls) == Sum(worth, Lines(log[..Complete(log)]))
      && LargestOver(worth, polls) == Largest(worth, Lines(log[..Complete(log)]))
  {
    if polls != [] {
      var n := |polls| - 1;
      var before, last := polls[..n], polls[n];
      assert before + [last] == polls;
      PollingEqualsOnePass(worth, before);
      if last.Some? {
        LastReadIsLongest(before, last.value);
        OnePollMore(worth, LastRead(before), last.value);
      }
    }
  }

  lemma OnePollMore(worth: Bytes -> int, seen: Bytes, log: Bytes)
    requires seen <= log
    ensures var offset := Complete(seen);
      && NextOffset(Some(log), offset) == Complete(log)
      && Sum(worth, Lines(log[..Complete(log)])) == Sum(worth, Lines(seen[..offset])) + Sum(worth, Taken(log, offset))
      && Largest(worth, Lines(log[..Complete(log)])) == Max(Largest(worth, Lines(seen[..offset])), Largest(worth, Taken(log, offset)))
  {
    var offset := Complete(seen);
    assert log[..offset] == seen[..offset];
    assert EndsLine(log[..offset]);
    CompleteGrows(log, offset);
    LinesGrow(log, offset);
    SumOfConcat(worth, Lines(log[..offset]), Taken(log, offset));
    LargestOfConcat(worth, Lines(log[..offset]), Taken(log, offset));
  }
}
