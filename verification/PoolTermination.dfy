/** The cohort scheduler ends: a bound on its rounds from the epoch it has left. */
module PoolTermination {
  import opened Common
  import opened PoolRules
  import opened PoolRuns

  /** The clock readings of one round: time does not run back, a session that
      ends has taken time, and the epoch reading is positive only before the
      deadline. */
  ghost predicate Timed(p: Pool, now: nat, r: RoundInput, deadline: nat) {
    && now <= r.now && r.done != []
    && (forall f :: f in r.done && f in p.futures ==> p.futures[f].launchedAt < r.now)
    && (forall e :: e in r.ends && 0 < e.remaining ==> r.now < deadline)
  }

  function Left(now: nat, deadline: nat): nat {
    if now < deadline then deadline - now else 0
  }

  /** Sessions launched before `now`. */
  function Older(futures: map<nat, Session>, now: nat): set<nat> {
    set f | f in futures && futures[f].launchedAt < now
  }

  /** Epoch left first; within one instant, the sessions not launched at it. */
  function Weight(p: Pool, now: nat, deadline: nat, slots: nat): nat {
    Left(now, deadline) * (slots + 1) + (if Left(now, deadline) == 0 then |p.futures| else |Older(p.futures, now)|)
  }

  lemma SubsetSize<T>(a: set<T>, b: set<T>)
    requires a <= b
    ensures |a| <= |b|
    ensures a != b ==> |a| < |b|
  {
    if a != b {
      var x :| x in b && x !in a;
      SubsetSize(a, b - {x});
    } else {
      assert |a| == |b|;
    }
  }

  /** Refilling adds at most one session per slot that finished, all launched
      now, and none when no epoch reading is positive. */
  lemma {:induction false} RefillAddsOnlyNow(p: Pool, ends: seq<Ended>, cohort: bool, era: bool, policy: Policy, now: nat)
    requires forall f :: f in p.futures ==> f < p.next
    ensures var q := RefillAll(p, ends, cohort, era, policy, now);
      && |q.futures| <= |p.futures| + |ends|
      && (forall f :: f in q.futures ==> f < q.next)
      && Older(q.futures, now) == Older(p.futures, now)
      && ((forall e :: e in ends ==> e.remaining <= 0) ==> q.futures == p.futures)
  {
    if ends != [] {
      var last := |ends| - 1;
      RefillAddsOnlyNow(p, ends[..last], cohort, era, policy, now);
      assert ends[last] in ends;
      assert forall e :: e in ends[..last] ==> e in ends;
    }
  }

  lemma {:induction false} GatheredSize(s: seq<nat>)
    requires Distinct(s)
    ensures |Gathered(s)| == |s|
  {
    if s != [] {
      var rest, last := s[..|s| - 1], s[|s| - 1];
      GatheredSize(rest);
      forall x | x in rest ensures x != last {
        var i :| 0 <= i < |rest| && rest[i] == x;
        assert s[i] == x;
      }
      assert Gathered(s) == Gathered(rest) + {last} by { assert s == rest + [last]; }
    }
  }

  lemma RemovalSize<V>(m: map<nat, V>, gone: set<nat>)
    requires gone <= m.Keys
    ensures |m - gone| + |gone| == |m|
  {
    assert (m - gone).Keys == m.Keys - gone;
    assert |m.Keys - gone| == |m.Keys| - |gone|;
  }

  /** A round never grows the pool; it shrinks it when the epoch is spent, and
      within one instant it uses up a session launched before that instant. */
  lemma RoundFutures(p: Pool, now: nat, r: RoundInput, settings: Settings, deadline: nat)
    requires Coupled(p) && Reports(p, r) && Timed(p, now, r, deadline)
    ensures var q := Rounded(p, r, settings);
      && |q.futures| <= |p.futures|
      && (Left(now, deadline) == 0 ==> |q.futures| < |p.futures|)
      && (r.now == now ==> |Older(q.futures, now)| < |Older(p.futures, now)|)
  {
    var c, q := Collected(p, r), Rounded(p, r, settings);
    GatheredSize(r.done);
    RemovalSize(p.futures, Gathered(r.done));
    if Refills(c, settings) {
      RefillAddsOnlyNow(c, r.ends, CohortRunning(c.futures), EraRunning(c.futures), settings.policy, r.now);
    }
    if r.now == now {
      var f := r.done[0];
      assert f in Older(p.futures, now) && f !in Older(c.futures, now);
      SubsetSize(Older(c.futures, now), Older(p.futures, now));
    }
  }

  lemma RoundLosesWeight(p: Pool, now: nat, r: RoundInput, settings: Settings, deadline: nat, slots: nat)
    requires Coupled(p) && Reports(p, r) && Timed(p, now, r, deadline) && |p.futures| <= slots
    ensures var q := Rounded(p, r, settings);
      |q.futures| <= slots && Weight(q, r.now, deadline, slots) < Weight(p, now, deadline, slots)
  {
    RoundFutures(p, now, r, settings, deadline);
    var q := Rounded(p, r, settings);
    SubsetSize(Older(q.futures, r.now), q.futures.Keys);
    if Left(now, deadline) != 0 && now < r.now {
      LessEpochWeighsLess(Left(r.now, deadline), Left(now, deadline), slots);
    }
  }

  lemma LessEpochWeighsLess(lower: nat, left: nat, slots: nat)
    requires lower < left
    ensures lower * (slots + 1) + slots < left * (slots + 1)
  {
    assert (lower + 1) * (slots + 1) <= left * (slots + 1);
  }

  ghost predicate TimedRun(p: Pool, now: nat, rounds: seq<RoundInput>, settings: Settings, deadline: nat)
    decreases |rounds|
  {
    rounds == [] ||
    (Reports(p, rounds[0]) && Timed(p, now, rounds[0], deadline)
     && TimedRun(Rounded(p, rounds[0], settings), rounds[0].now, rounds[1..], settings, deadline))
  }

  /** No run of the pool is longer than its epoch times one more than its slots,
      plus its slots, whatever the sessions report. */
  lemma {:induction false} RunIsBounded(p: Pool, now: nat, rounds: seq<RoundInput>, settings: Settings, deadline: nat, slots: nat)
    requires Coupled(p) && |p.futures| <= slots && TimedRun(p, now, rounds, settings, deadline)
    ensures |rounds| <= Weight(p, now, deadline, slots) <= Left(now, deadline) * (slots + 1) + slots
    decreases |rounds|
  {
    SubsetSize(Older(p.futures, now), p.futures.Keys);
    if rounds != [] {
      RoundLosesWeight(p, now, rounds[0], settings, deadline, slots);
      RoundKeepsCoupled(p, rounds[0], settings);
      RunIsBounded(Rounded(p, rounds[0], settings), rounds[0].now, rounds[1..], settings, deadline, slots);
    }
  }
}
