/** What the cohort scheduler keeps over every run of its loop. */
module PoolRuns {
  import opened Common
  import opened GateRules
  import opened PoolRules

  // ------------------------------------------------------------ coupling with the gate

  /** Part way through a round: the slots of the sessions just collected still
      hold their chains, and those relaunched so far are in flight again. */
  ghost predicate MidRound(q: Pool, waiting: set<Slot>, free: set<Slot>) {
    && WellTicked(q.gate)
    && OneEach(q.futures)
    && (forall f :: f in q.futures ==> f < q.next)
    && waiting !! free
    && Agents(q.futures) == waiting + q.launchedNow * free
    && q.gate.chains.Keys == waiting + free
  }

  lemma OneMoreAgent(futures: map<nat, Session>, next: nat, s: Session)
    requires next !in futures
    ensures Agents(futures[next := s]) == Agents(futures) + {s.agent}
  {
    var more := futures[next := s];
    assert more[next] == s;
    forall x | x in Agents(futures) ensures x in Agents(more) {
      var f :| f in futures && futures[f].agent == x;
      assert f in more && more[f] == futures[f];
    }
  }

  lemma OneMoreEach(futures: map<nat, Session>, next: nat, s: Session)
    requires OneEach(futures) && s.agent !in Agents(futures)
    ensures OneEach(futures[next := s])
  {
    assert forall f :: f in futures ==> futures[f].agent in Agents(futures);
  }

  lemma LaunchingKeeps(g: Gate, agent: Slot, continuation: bool)
    requires WellTicked(g)
    ensures WellTicked(Launched(g, agent, continuation))
    ensures Launched(g, agent, continuation).chains.Keys == g.chains.Keys + {agent}
  {
    ApplyKeepsWellTicked(g, GateOp.Launch(agent, continuation));
  }

  /** What a launch of a slot that is not in flight does to the futures and the gate. */
  lemma SubmittingKeeps(p: Pool, s: Session, continuation: bool)
    requires WellTicked(p.gate) && OneEach(p.futures) && (forall f :: f in p.futures ==> f < p.next)
    requires s.agent !in Agents(p.futures)
    ensures var v := Submitted(p, s, continuation);
      && WellTicked(v.gate) && OneEach(v.futures) && (forall f :: f in v.futures ==> f < v.next)
      && Agents(v.futures) == Agents(p.futures) + {s.agent}
      && v.gate.chains.Keys == p.gate.chains.Keys + {s.agent}
  {
    OneMoreAgent(p.futures, p.next, s);
    OneMoreEach(p.futures, p.next, s);
    LaunchingKeeps(p.gate, s.agent, continuation);
  }

  lemma SubmitKeepsMidRound(q: Pool, s: Session, continuation: bool, waiting: set<Slot>, free: set<Slot>)
    requires MidRound(q, waiting, free) && s.agent in free && s.agent !in q.launchedNow
    ensures MidRound(Submitted(q, s, continuation), waiting, free)
  {
    SubmittingKeeps(q, s, continuation);
    assert (q.launchedNow + {s.agent}) * free == q.launchedNow * free + {s.agent};
  }

  lemma {:induction false} RefillKeepsMidRound(
      q: Pool, ends: seq<Ended>, cohort: bool, era: bool, policy: Policy, now: nat, waiting: set<Slot>, free: set<Slot>)
    requires MidRound(q, waiting, free) && q.launchedNow !! free
    requires forall i, j :: 0 <= i < j < |ends| ==> ends[i].agent != ends[j].agent
    requires EndedAgents(ends) <= free
    ensures var v := RefillAll(q, ends, cohort, era, policy, now);
      MidRound(v, waiting, free) && v.launchedNow <= q.launchedNow + EndedAgents(ends)
  {
    if ends != [] {
      var rest, e := ends[..|ends| - 1], ends[|ends| - 1];
      assert e in ends && e.agent in EndedAgents(ends);
      assert EndedAgents(rest) <= EndedAgents(ends) by {
        forall x | x in EndedAgents(rest) ensures x in EndedAgents(ends) {
          var y :| y in rest && y.agent == x;
          assert y in ends;
        }
      }
      forall y | y in rest ensures y.agent != e.agent {
        var i :| 0 <= i < |rest| && rest[i] == y;
        assert ends[i] == y;
      }
      RefillKeepsMidRound(q, rest, cohort, era, policy, now, waiting, free);
      var m := RefillAll(q, rest, cohort, era, policy, now);
      if Refillable(m, e, cohort, era, policy) {
        var outcome := RefillOutcome(e);
        var n := m.(retried := if outcome.Failed? then m.retried + {e.agent} else m.retried,
                    overtime := if cohort then m.overtime else m.overtime + {e.agent},
                    log := m.log + [Refill(e.agent, e.turnCapped, e.returnCode, cohort, era)]);
        assert MidRound(n, waiting, free);
        SubmitKeepsMidRound(n, Session(e.agent, false, cohort, now), outcome.Continue? || outcome.Failed?, waiting, free);
      }
    }
  }

  /** Launching an idle slot: it was neither in flight nor just collected. */
  lemma IdleLaunchKeepsMidRound(q: Pool, s: Session, waiting: set<Slot>, free: set<Slot>)
    requires MidRound(q, waiting, free) && s.agent !in waiting + free
    ensures MidRound(Submitted(q, s, false), waiting + {s.agent}, free)
  {
    SubmittingKeeps(q, s, false);
    assert (q.launchedNow + {s.agent}) * free == q.launchedNow * free;
  }

  lemma EndsAreDistinct(p: Pool, r: RoundInput)
    requires OneEach(p.futures) && Reports(p, r)
    ensures forall i, j :: 0 <= i < j < |r.ends| ==> r.ends[i].agent != r.ends[j].agent
  {
    forall i, j | 0 <= i < j < |r.ends| ensures r.ends[i].agent != r.ends[j].agent {
      assert r.done[i] != r.done[j];
    }
  }

  lemma EndedAgentsLeft(p: Pool, r: RoundInput)
    requires OneEach(p.futures) && Reports(p, r)
    ensures EndedAgents(r.ends) <= Agents(p.futures) && EndedAgents(r.ends) !! Agents(p.futures - Gathered(r.done))
  {
    var left := p.futures - Gathered(r.done);
    forall x | x in EndedAgents(r.ends) ensures x in Agents(p.futures) && x !in Agents(left) {
      var e :| e in r.ends && e.agent == x;
      var i :| 0 <= i < |r.ends| && r.ends[i] == e;
      assert r.done[i] in p.futures && p.futures[r.done[i]].agent == x;
      forall f | f in left ensures left[f].agent != x { assert f != r.done[i]; }
    }
  }

  lemma OtherAgentsStay(p: Pool, r: RoundInput)
    requires Reports(p, r)
    ensures Agents(p.futures) <= Agents(p.futures - Gathered(r.done)) + EndedAgents(r.ends)
    ensures Agents(p.futures - Gathered(r.done)) <= Agents(p.futures)
  {
    var left := p.futures - Gathered(r.done);
    forall x | x in Agents(p.futures) ensures x in Agents(left) + EndedAgents(r.ends) {
      var f :| f in p.futures && p.futures[f].agent == x;
      if f in r.done {
        var i :| 0 <= i < |r.done| && r.done[i] == f;
        assert r.ends[i] in r.ends && r.ends[i].agent == x;
      } else {
        assert f in left && left[f].agent == x;
      }
    }
    forall x | x in Agents(left) ensures x in Agents(p.futures) {
      var f :| f in left && left[f].agent == x;
      assert f in p.futures && p.futures[f].agent == x;
    }
  }

  lemma CollectingLeavesMidRound(p: Pool, r: RoundInput)
    requires Coupled(p) && Reports(p, r)
    ensures var q := Collected(p, r);
      && MidRound(q, Agents(q.futures), EndedAgents(r.ends))
      && forall i, j :: 0 <= i < j < |r.ends| ==> r.ends[i].agent != r.ends[j].agent
  {
    var q := Collected(p, r);
    AttributeAllKeeps(p.gate, r.ends);
    ApplyKeepsWellTicked(AttributeAll(p.gate, r.ends), Stamp(r.artifacts, r.unfinished));
    EndsAreDistinct(p, r);
    EndedAgentsLeft(p, r);
    OtherAgentsStay(p, r);
    assert p.gate.chains.Keys == Agents(q.futures) + EndedAgents(r.ends);
  }

  lemma RetiringEndsTheRound(q: Pool, ends: seq<Ended>, waiting: set<Slot>)
    requires MidRound(q, waiting, EndedAgents(ends))
    ensures Coupled(q.(gate := RetireAll(q.gate, ends, q.launchedNow)))
  {
    RetireAllKeeps(q.gate, ends, q.launchedNow);
    var free := EndedAgents(ends);
    assert waiting + free - (free - q.launchedNow) == waiting + q.launchedNow * free;
  }

  lemma FirstLaunchKeepsCoupled(p: Pool, s: Session)
    requires Coupled(p) && s.agent !in Agents(p.futures)
    ensures var q := Submitted(p, s, false); Coupled(q) && Agents(q.futures) == Agents(p.futures) + {s.agent}
  {
    SubmittingKeeps(p, s, false);
  }

  /** The loop is entered coupled: one initial session per agent of the cohort. */
  lemma {:induction false} CohortStartsCoupled(p: Pool, agents: seq<Slot>, now: nat)
    requires Coupled(p) && p.futures == map[] && Distinct(agents)
    ensures var q := Started(p, agents, now);
      && Coupled(q) && Agents(q.futures) == (set a | a in agents)
      && (forall f :: f in q.futures ==> q.futures[f] == Session(q.futures[f].agent, true, true, now))
      && q.log == p.log && q.retried == p.retried && q.overtime == p.overtime && q.halted == p.halted
  {
    if agents != [] {
      var rest, last := agents[..|agents| - 1], agents[|agents| - 1];
      CohortStartsCoupled(p, rest, now);
      LastIsApart(agents);
      FirstLaunchKeepsCoupled(Started(p, rest, now), Session(last, true, true, now));
    }
  }

  lemma LastIsApart(agents: seq<Slot>)
    requires Distinct(agents) && agents != []
    ensures var rest, last := agents[..|agents| - 1], agents[|agents| - 1];
      Distinct(rest) && last !in rest && (set a | a in agents) == (set a | a in rest) + {last}
  {
    var rest, last := agents[..|agents| - 1], agents[|agents| - 1];
    assert agents == rest + [last];
    forall x | x in rest ensures x != last {
      var i :| 0 <= i < |rest| && rest[i] == x;
      assert agents[i] == x;
    }
  }

  /** At every loop head the gate's chains are exactly the slots with a session
      in flight, one session each. */
  lemma RoundKeepsCoupled(p: Pool, r: RoundInput, settings: Settings)
    requires Coupled(p) && Reports(p, r)
    ensures Coupled(Rounded(p, r, settings))
  {
    var c := Collected(p, r);
    CollectingLeavesMidRound(p, r);
    var q := Refilled(c, r, settings);
    assert MidRound(q, Agents(c.futures), EndedAgents(r.ends)) by {
      if Refills(c, settings) {
        RefillKeepsMidRound(c, r.ends, CohortRunning(c.futures), EraRunning(c.futures), settings.policy, r.now,
          Agents(c.futures), EndedAgents(r.ends));
      }
    }
    RetiringEndsTheRound(q, r.ends, Agents(c.futures));
  }

  // ------------------------------------------------------------ what becomes of one finished session

  /** A launch of `agent`: its chain goes on, or takes the next tick. */
  ghost predicate ChainAfter(g: Gate, h: Gate, agent: Slot, continues: bool) {
    && h.firstSeen == g.firstSeen && h.touched == g.touched
    && (continues && agent in g.chains ==> h.chains == g.chains && h.clock == g.clock)
    && (!continues || agent !in g.chains ==> h.chains == g.chains[agent := g.clock + 1] && h.clock == g.clock + 1)
  }

  /** One more session of `e.agent` in flight, not of the cohort, and of its era
      exactly when one of the cohort is in flight; everything else but the
      retries stays. */
  ghost predicate Relaunched(p: Pool, q: Pool, e: Ended, cohort: bool, era: bool, now: nat, continues: bool) {
    && ChainAfter(p.gate, q.gate, e.agent, continues)
    && q.futures == p.futures[p.next := Session(e.agent, false, cohort, now)] && q.next == p.next + 1
    && q.launchedNow == p.launchedNow + {e.agent} && q.halted == p.halted
    && q.overtime == (if cohort then p.overtime else p.overtime + {e.agent})
    && q.log == p.log + [Refill(e.agent, e.turnCapped, e.returnCode, cohort, era)]
  }

  /** How a slot is reused, from what its session reports.  A capped session goes
      on; a clean one is followed by a fresh chain while work remains; any other
      exit is retried once, in the same chain; a session that ran out of time, or
      met trouble of the provider or the harness, is followed by none. */
  lemma ReuseOfASlot(p: Pool, e: Ended, cohort: bool, era: bool, policy: Policy, now: nat)
    ensures var q := RefillOne(p, e, cohort, era, policy, now);
      var leave := e.issue.NoIssue? && 0 < e.remaining && (cohort || (e.agent !in p.overtime && (era || policy.AnyPeer?)));
      if leave && e.turnCapped then
        Relaunched(p, q, e, cohort, era, now, true) && q.retried == p.retried
      else if leave && e.returnCode == 0 && !e.skipLaunch && e.didWork then
        Relaunched(p, q, e, cohort, era, now, false) && q.retried == p.retried
      else if leave && e.returnCode !in {0, 124} && e.agent !in p.retried then
        Relaunched(p, q, e, cohort, era, now, true) && q.retried == p.retried + {e.agent}
      else q == p
  {
  }

  lemma WhoHaltsTheProvider(e: Ended)
    ensures Halting(e) <==> e.issue in {CapacityLimited, TransientIssue, BackendRejected}
  {
  }

  /** A round refills nothing at the barrier, after a halt, or with refills turned
      off; otherwise every finished slot is decided on what was in flight as it
      began to refill. */
  lemma WhenARoundRefills(p: Pool, r: RoundInput, settings: Settings)
    ensures var left := map f | f in p.futures && f !in r.done :: p.futures[f];
      var halted := p.halted || exists e :: e in r.ends && e.issue in {CapacityLimited, TransientIssue, BackendRejected};
      var c, q := Collected(p, r), Rounded(p, r, settings);
      && c.futures == left && c.halted == halted && q.halted == halted
      && (left == map[] || halted || !settings.refillWorkers ==> q.futures == left && q.log == p.log && q.retried == p.retried && q.overtime == p.overtime)
      && (left != map[] && !halted && settings.refillWorkers ==>
            var v := RefillAll(c, r.ends, exists f :: f in left && left[f].initial, exists f :: f in left && left[f].era, settings.policy, r.now);
            q.futures == v.futures && q.log == v.log && q.retried == v.retried && q.overtime == v.overtime)
  {
    var left := map f | f in p.futures && f !in r.done :: p.futures[f];
    assert Collected(p, r).futures == left;
    RefillingKeepsHalt(Collected(p, r), r.ends, CohortRunning(left), EraRunning(left), settings.policy, r.now);
  }

  lemma {:induction false} RefillingKeepsHalt(p: Pool, ends: seq<Ended>, cohort: bool, era: bool, policy: Policy, now: nat)
    ensures RefillAll(p, ends, cohort, era, policy, now).halted == p.halted
  {
    if ends != [] { RefillingKeepsHalt(p, ends[..|ends| - 1], cohort, era, policy, now); }
  }

  // ------------------------------------------------------------ what the log shows

  const OVERTIME := (r: Refill) => !r.cohort
  const RETRY := (r: Refill) => !r.capped && r.returnCode != 0 && r.returnCode != 124

  /** `spent` holds the slots with a logged launch of the kind, and no slot has two. */
  ghost predicate SpentOnce(log: seq<Refill>, spent: set<Slot>, kind: Refill -> bool) {
    && (forall i, j :: 0 <= i < j < |log| && kind(log[i]) && kind(log[j]) ==> log[i].agent != log[j].agent)
    && (forall i :: 0 <= i < |log| && kind(log[i]) ==> log[i].agent in spent)
    && (forall a :: a in spent ==> exists i :: 0 <= i < |log| && kind(log[i]) && log[i].agent == a)
  }

  lemma SpendOne(log: seq<Refill>, spent: set<Slot>, kind: Refill -> bool, r: Refill)
    requires SpentOnce(log, spent, kind) && (kind(r) ==> r.agent !in spent)
    ensures SpentOnce(log + [r], if kind(r) then spent + {r.agent} else spent, kind)
  {
    var more, now := log + [r], if kind(r) then spent + {r.agent} else spent;
    assert more[|log|] == r;
    forall a | a in now ensures exists i :: 0 <= i < |more| && kind(more[i]) && more[i].agent == a {
      if a in spent {
        var i :| 0 <= i < |log| && kind(log[i]) && log[i].agent == a;
        assert more[i] == log[i];
      }
    }
  }

  /** The refill log agrees with the allowances: one overtime session per slot,
      one retry per slot, and overtime under `CohortEra` only beside the era. */
  ghost predicate Accounted(p: Pool, policy: Policy) {
    && SpentOnce(p.log, p.overtime, OVERTIME)
    && SpentOnce(p.log, p.retried, RETRY)
    && (policy.CohortEra? ==> forall i :: 0 <= i < |p.log| && !p.log[i].cohort ==> p.log[i].era)
    && (forall i :: 0 <= i < |p.log| ==> p.log[i].capped || p.log[i].returnCode != 124)
  }

  lemma RefillOneAccounted(p: Pool, e: Ended, cohort: bool, era: bool, policy: Policy, now: nat)
    requires Accounted(p, policy)
    ensures Accounted(RefillOne(p, e, cohort, era, policy, now), policy)
  {
    if Refillable(p, e, cohort, era, policy) {
      var r := Refill(e.agent, e.turnCapped, e.returnCode, cohort, era);
      SpendOne(p.log, p.overtime, OVERTIME, r);
      SpendOne(p.log, p.retried, RETRY, r);
    }
  }

  /** Refilling appends to the log, under the readings of this round only, and
      launches no initial session. */
  ghost predicate Appends(p: Pool, q: Pool, cohort: bool, era: bool) {
    && p.log <= q.log
    && (forall i :: |p.log| <= i < |q.log| ==> q.log[i].cohort == cohort && q.log[i].era == era)
    && (CohortRunning(q.futures) ==> CohortRunning(p.futures))
    && p.halted == q.halted
  }

  lemma {:induction false} RefillAllAccounted(p: Pool, ends: seq<Ended>, cohort: bool, era: bool, policy: Policy, now: nat)
    requires Accounted(p, policy)
    ensures var q := RefillAll(p, ends, cohort, era, policy, now); Accounted(q, policy) && Appends(p, q, cohort, era)
  {
    if ends != [] {
      var last := |ends| - 1;
      RefillAllAccounted(p, ends[..last], cohort, era, policy, now);
      var m := RefillAll(p, ends[..last], cohort, era, policy, now);
      RefillOneAccounted(m, ends[last], cohort, era, policy, now);
      RefillOneAppends(m, ends[last], cohort, era, policy, now);
    }
  }

  lemma RefillOneAppends(m: Pool, e: Ended, cohort: bool, era: bool, policy: Policy, now: nat)
    ensures Appends(m, RefillOne(m, e, cohort, era, policy, now), cohort, era)
  {
    var q := RefillOne(m, e, cohort, era, policy, now);
    if CohortRunning(q.futures) {
      var f :| f in q.futures && q.futures[f].initial;
      assert f in m.futures && m.futures[f].initial;
    }
  }

  lemma RoundAccounted(p: Pool, r: RoundInput, settings: Settings)
    requires Accounted(p, settings.policy)
    ensures var c, q := Collected(p, r), Rounded(p, r, settings);
      && Accounted(q, settings.policy)
      && Appends(c, q, CohortRunning(c.futures), EraRunning(c.futures))
      && (CohortRunning(c.futures) ==> CohortRunning(p.futures))
      && (q.halted <==> p.halted || AnyHalting(r.ends)) && (q.halted ==> q.log == p.log)
  {
    var c := Collected(p, r);
    assert Accounted(c, settings.policy);
    if Refills(c, settings) {
      RefillAllAccounted(c, r.ends, CohortRunning(c.futures), EraRunning(c.futures), settings.policy, r.now);
    }
    if CohortRunning(c.futures) {
      var f :| f in c.futures && c.futures[f].initial;
      assert f in p.futures;
    }
  }

  // ------------------------------------------------------------ runs

  ghost predicate RoundsFrom(p: Pool, rounds: seq<RoundInput>, settings: Settings)
    decreases |rounds|
  {
    rounds == [] || (Reports(p, rounds[0]) && RoundsFrom(Rounded(p, rounds[0], settings), rounds[1..], settings))
  }

  ghost function AfterRounds(p: Pool, rounds: seq<RoundInput>, settings: Settings): Pool
    decreases |rounds|
  {
    if rounds == [] then p else AfterRounds(Rounded(p, rounds[0], settings), rounds[1..], settings)
  }

  lemma {:induction false} EveryRunIsCoupled(p: Pool, rounds: seq<RoundInput>, settings: Settings)
    requires Coupled(p) && RoundsFrom(p, rounds, settings)
    ensures Coupled(AfterRounds(p, rounds, settings))
    decreases |rounds|
  {
    if rounds != [] {
      RoundKeepsCoupled(p, rounds[0], settings);
      EveryRunIsCoupled(Rounded(p, rounds[0], settings), rounds[1..], settings);
    }
  }

  lemma {:induction false} EveryRunIsAccounted(p: Pool, rounds: seq<RoundInput>, settings: Settings)
    requires Accounted(p, settings.policy)
    ensures var q := AfterRounds(p, rounds, settings);
      && Accounted(q, settings.policy) && p.log <= q.log
      && (!CohortRunning(p.futures) ==>
            !CohortRunning(q.futures) && forall i :: |p.log| <= i < |q.log| ==> !q.log[i].cohort)
      && (p.halted ==> q.log == p.log)
    decreases |rounds|
  {
    if rounds != [] {
      RoundAccounted(p, rounds[0], settings);
      EveryRunIsAccounted(Rounded(p, rounds[0], settings), rounds[1..], settings);
    }
  }

  /** Once no initial session is in flight, each slot launches at most once
      more, slots that already had their overtime never, and under `CohortEra`
      each such launch happens beside a session of the cohort's era. */
  lemma DrainedCohortLaunchesEachSlotOnce(p: Pool, rounds: seq<RoundInput>, settings: Settings)
    requires Accounted(p, settings.policy) && !CohortRunning(p.futures)
    ensures var q := AfterRounds(p, rounds, settings);
      && p.log <= q.log
      && (forall i, j :: |p.log| <= i < j < |q.log| ==> q.log[i].agent != q.log[j].agent)
      && (forall i :: |p.log| <= i < |q.log| ==> q.log[i].agent !in p.overtime)
      && (settings.policy.CohortEra? ==> forall i :: |p.log| <= i < |q.log| ==> q.log[i].era)
  {
    EveryRunIsAccounted(p, rounds, settings);
    var q := AfterRounds(p, rounds, settings);
    assert forall j :: 0 <= j < |p.log| ==> p.log[j] == q.log[j];
    assert forall i :: |p.log| <= i < |q.log| ==> OVERTIME(q.log[i]);
    assert forall i, j :: |p.log| <= i < |q.log| && 0 <= j < |p.log| && OVERTIME(p.log[j]) ==> p.log[j].agent != q.log[i].agent;
  }

  /** A slot is retried after a failure at most once in a run. */
  lemma FailedSlotsAreRetriedOnce(p: Pool, rounds: seq<RoundInput>, settings: Settings)
    requires Accounted(p, settings.policy)
    ensures var q := AfterRounds(p, rounds, settings);
      forall i, j | 0 <= i < j < |q.log| && !q.log[i].capped && q.log[i].returnCode !in {0, 124}
                    && !q.log[j].capped && q.log[j].returnCode !in {0, 124} :: q.log[i].agent != q.log[j].agent
  {
    EveryRunIsAccounted(p, rounds, settings);
    var q := AfterRounds(p, rounds, settings);
    assert forall i :: 0 <= i < |q.log| ==> (RETRY(q.log[i]) <==> !q.log[i].capped && q.log[i].returnCode !in {0, 124});
  }

  /** From the round in which any slot reports that the provider halted,
      nothing launches. */
  lemma HaltStopsLaunches(p: Pool, r: RoundInput, rounds: seq<RoundInput>, settings: Settings)
    requires Accounted(p, settings.policy) && AnyHalting(r.ends)
    ensures AfterRounds(Rounded(p, r, settings), rounds, settings).log == p.log
  {
    RoundAccounted(p, r, settings);
    EveryRunIsAccounted(Rounded(p, r, settings), rounds, settings);
  }

  /** From the launch of any cohort, every run of the loop stays coupled with
      its gate and accounts for every allowance it spends. */
  lemma EveryPoolRun(g: Gate, agents: seq<Slot>, now: nat, rounds: seq<RoundInput>, settings: Settings)
    requires WellTicked(g) && g.chains == map[] && Distinct(agents)
    requires RoundsFrom(Started(EmptyPool(g), agents, now), rounds, settings)
    ensures var p := AfterRounds(Started(EmptyPool(g), agents, now), rounds, settings);
      Coupled(p) && Accounted(p, settings.policy)
  {
    CohortStartsCoupled(EmptyPool(g), agents, now);
    EveryRunIsCoupled(Started(EmptyPool(g), agents, now), rounds, settings);
    EveryRunIsAccounted(Started(EmptyPool(g), agents, now), rounds, settings);
  }
}
