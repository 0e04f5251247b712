/** Vocabulary shared by the other modules. */
module Common {
  datatype Option<+T> = None | Some(value: T) {
    function UnwrapOr(default: T): T {
      if Some? then value else default
    }
  }

  /** The elements of `s` that satisfy `p`, in order. */
  function Filter<T(!new)>(p: T -> bool, s: seq<T>): (r: seq<T>)
    ensures forall x :: x in r <==> x in s && p(x)
    ensures |r| <= |s|
  {
    if s == [] then []
    else Filter(p, s[..|s| - 1]) + (if p(s[|s| - 1]) then [s[|s| - 1]] else [])
  }

  /** Extending a filtered sequence by one element, the step of every filtering loop. */
  lemma FilterStep<T(!new)>(p: T -> bool, s: seq<T>, i: nat)
    requires i < |s|
    ensures Filter(p, s[..i + 1]) == Filter(p, s[..i]) + (if p(s[i]) then [s[i]] else [])
  {
    assert s[..i + 1][..i] == s[..i];
  }

  ghost predicate Rising(at: seq<nat>) {
    forall k, l :: 0 <= k < l < |at| ==> at[k] < at[l]
  }

  lemma RisingOn(at: seq<nat>, n: nat)
    requires Rising(at) && forall k :: 0 <= k < |at| ==> at[k] < n
    ensures Rising(at + [n]) && forall i :: i in at + [n] <==> i in at || i == n
  {
  }

  /** `kept` is what stands in `s` at the positions `at`, all of them below `m`. */
  ghost predicate Picks<T(!new)>(at: seq<nat>, kept: seq<T>, s: seq<T>, m: nat) {
    |at| == |kept| && m <= |s| && forall k :: 0 <= k < |at| ==> at[k] < m && kept[k] == s[at[k]]
  }

  lemma PicksOn<T(!new)>(at: seq<nat>, kept: seq<T>, s: seq<T>, n: nat)
    requires Rising(at) && Picks(at, kept, s, n) && n < |s|
    ensures Rising(at + [n]) && Picks(at + [n], kept + [s[n]], s, n + 1)
    ensures forall i :: i in at + [n] <==> i in at || i == n
  {
    RisingOn(at, n);
  }

  /** A filtered sequence is what is left at the positions that qualify, in order. */
  lemma {:induction false} FilterIsASubsequence<T(!new)>(p: T -> bool, s: seq<T>) returns (at: seq<nat>)
    ensures |at| == |Filter(p, s)| && forall k :: 0 <= k < |at| ==> at[k] < |s| && Filter(p, s)[k] == s[at[k]]
    ensures Rising(at) && forall i: nat :: i < |s| ==> (i in at <==> p(s[i]))
  {
    at := [];
    if s != [] {
      var n := |s| - 1;
      var before := FilterIsASubsequence(p, s[..n]);
      at := before;
      if p(s[n]) {
        RisingOn(before, n);
        at := before + [n];
      }
    }
  }

  lemma {:induction false} SameFilter<T(!new)>(p: T -> bool, q: T -> bool, s: seq<T>)
    requires forall x :: x in s ==> (p(x) <==> q(x))
    ensures Filter(p, s) == Filter(q, s)
  {
    if s != [] {
      SplitLast(s);
      SameFilter(p, q, s[..|s| - 1]);
    }
  }

  /** How many elements of `s` satisfy `p`. */
  function Count<T>(p: T -> bool, s: seq<T>): nat {
    if s == [] then 0 else Count(p, s[..|s| - 1]) + if p(s[|s| - 1]) then 1 else 0
  }

  lemma CountStep<T>(p: T -> bool, s: seq<T>, i: nat)
    requires i < |s|
    ensures Count(p, s[..i + 1]) == Count(p, s[..i]) + if p(s[i]) then 1 else 0
  {
    assert s[..i + 1][..i] == s[..i];
  }

  lemma CountAppend<T>(p: T -> bool, s: seq<T>, x: T)
    ensures Count(p, s + [x]) == Count(p, s) + if p(x) then 1 else 0
  {
    Append(s, x);
  }

  lemma {:induction false} CountFiltered<T(!new)>(p: T -> bool, q: T -> bool, both: T -> bool, s: seq<T>)
    requires forall x :: both(x) <==> q(x) && p(x)
    ensures Count(p, Filter(q, s)) == Count(both, s)
  {
    if s != [] {
      var rest, x := s[..|s| - 1], s[|s| - 1];
      CountFiltered(p, q, both, rest);
      if q(x) {
        CountAppend(p, Filter(q, rest), x);
      } else {
        assert Filter(q, s) == Filter(q, rest) + [] == Filter(q, rest);
      }
    }
  }

  lemma {:induction false} CountComplement<T(!new)>(p: T -> bool, q: T -> bool, s: seq<T>)
    requires forall x :: q(x) <==> !p(x)
    ensures Count(p, s) + Count(q, s) == |s|
  {
    if s != [] { CountComplement(p, q, s[..|s| - 1]); }
  }

  ghost predicate Distinct<T>(s: seq<T>) {
    forall i, j :: 0 <= i < j < |s| ==> s[i] != s[j]
  }

  lemma Associates<T>(a: seq<T>, b: seq<T>, c: seq<T>)
    ensures a + (b + c) == (a + b) + c
  {
  }

  /** The last element of a sequence, and what precedes it. */
  lemma Append<T>(a: seq<T>, x: T)
    ensures (a + [x])[..|a + [x]| - 1] == a && (a + [x])[|a + [x]| - 1] == x
  {
  }

  /** A sequence without its last element, and that element. */
  lemma SplitLast<T>(s: seq<T>)
    requires s != []
    ensures s == s[..|s| - 1] + [s[|s| - 1]]
  {
  }

  lemma LastOfConcat<T>(a: seq<T>, b: seq<T>)
    requires b != []
    ensures (a + b)[..|a + b| - 1] == a + b[..|b| - 1] && (a + b)[|a + b| - 1] == b[|b| - 1]
  {
  }

  lemma PeelPrefix<T>(s: seq<T>, k: nat)
    requires 0 < k <= |s|
    ensures s[..k][0] == s[0] && s[..k][1..] == s[1..][..k - 1]
  {
  }

  /** The first element of a concatenation, and what follows it. */
  lemma Peel<T>(a: seq<T>, b: seq<T>)
    requires a != []
    ensures (a + b)[0] == a[0] && (a + b)[1..] == a[1..] + b
  {
  }
}
