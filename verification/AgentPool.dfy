/** The cohort scheduler as the object that runs it (`run_agent_pool` and
    `_refill_finished_slots` in lib/audit_runner.py). */
module AgentPool {
  import opened GateRules
  import opened PoolRules
  import opened PoolRuns
  import opened SealedGate

  class Pooler {
    const gate: SealedGateWorker
    var futures: map<nat, Session>
    var next: nat
    var retried: set<Slot>
    var overtime: set<Slot>
    var halted: bool
    var launchedNow: set<Slot>
    ghost var log: seq<Refill>

    ghost function Value(): Pool
      reads this, gate
    {
      Pool(gate.Value(), futures, next, retried, overtime, halted, launchedNow, log)
    }

    /** A pool with nothing in flight, over the tree its gate first sees. */
    constructor (artifacts: set<Artifact>, unfinished: set<Artifact>)
      ensures fresh(gate)
      ensures Value() == EmptyPool(Stamped(EmptyGate, artifacts, unfinished))
    {
      gate := new SealedGateWorker(artifacts, unfinished);
      futures, next, retried, overtime, halted, launchedNow := map[], 0, {}, {}, false, {};
      log := [];
    }

    /** One initial session for each agent of the cohort. */
    method LaunchCohort(agents: seq<Slot>, now: nat)
      modifies this, gate`clock, gate`chains
      ensures Value() == Started(old(Value()), agents, now)
    {
      for i := 0 to |agents|
        invariant Value() == Started(old(Value()), agents[..i], now)
      {
        assert agents[..i + 1][..i] == agents[..i];
        Launch(Session(agents[i], true, true, now), false);
      }
      assert agents[..|agents|] == agents;
    }

    method Launch(s: Session, continuation: bool)
      modifies this`futures, this`next, this`launchedNow, gate`clock, gate`chains
      ensures Value() == Submitted(old(Value()), s, continuation)
    {
      gate.Launch(s.agent, continuation);
      launchedNow := launchedNow + {s.agent};
      futures, next := futures[next := s], next + 1;
    }

    /** Decide, for each slot that just finished, whether it launches again.
        What is in flight is read once, before any of these launches. */
    method RefillFinishedSlots(finished: seq<Ended>, policy: Policy, now: nat)
      modifies this, gate`clock, gate`chains
      ensures Value() == RefillAll(old(Value()), finished, CohortRunning(old(futures)), EraRunning(old(futures)), policy, now)
    {
      var cohort, era := CohortRunning(futures), EraRunning(futures);
      for i := 0 to |finished|
        invariant Value() == RefillAll(old(Value()), finished[..i], cohort, era, policy, now)
      {
        var e := finished[i];
        assert finished[..i + 1][..i] == finished[..i];
        RefillSlot(e, cohort, era, policy, now);
      }
      assert finished[..|finished|] == finished;
    }

    /** Decide for one finished slot, under the readings of this round. */
    method RefillSlot(e: Ended, cohort: bool, era: bool, policy: Policy, now: nat)
      modifies this, gate`clock, gate`chains
      ensures Value() == RefillOne(old(Value()), e, cohort, era, policy, now)
    {
      if !cohort && e.agent in overtime { return; }
      if !cohort && !era && policy.CohortEra? { return; }
      var outcome := RefillOutcome(e);
      if outcome.Provider? || outcome.Deadline? { return; }
      if outcome.Clean? {
        if e.skipLaunch { return; }
        if !e.didWork { return; }
      } else if outcome.Failed? && e.agent in retried {
        return;
      }
      if e.remaining <= 0 { return; }
      if outcome.Failed? { retried := retried + {e.agent}; }
      if !cohort { overtime := overtime + {e.agent}; }
      log := log + [Refill(e.agent, e.turnCapped, e.returnCode, cohort, era)];
      Launch(Session(e.agent, false, cohort, now), outcome.Continue? || outcome.Failed?);
    }

    /** One turn of the loop: collect what is done, name its writers, look at
        the tree, refill, then retire the slots that did not launch again. */
    method Round(r: RoundInput, settings: Settings)
      requires Reports(Value(), r)
      modifies this, gate`clock, gate`chains, gate`firstSeen, gate`touched
      ensures Value() == Rounded(old(Value()), r, settings)
      ensures old(Coupled(Value())) ==> Coupled(Value())
    {
      ghost var start := Value();
      Collect(r);
      assert Value() == Collected(start, r);
      if futures != map[] && !halted && settings.refillWorkers {
        RefillFinishedSlots(r.ends, settings.policy, r.now);
      }
      ghost var refilled := Value();
      assert refilled == Refilled(Collected(start, r), r, settings);
      RetireFinished(r.ends);
      if Coupled(start) { RoundKeepsCoupled(start, r, settings); }
    }

    method Collect(r: RoundInput)
      requires Reports(Value(), r)
      modifies this`futures, this`halted, this`launchedNow, gate`firstSeen, gate`touched
      ensures Value() == Collected(old(Value()), r)
    {
      launchedNow := {};
      PopDone(r.done, r.ends);
      NameWriters(r.ends);
      gate.Observe(r.artifacts, r.unfinished);
    }

    method PopDone(done: seq<nat>, ends: seq<Ended>)
      requires |done| == |ends|
      modifies this`futures, this`halted
      ensures futures == old(futures) - Gathered(done)
      ensures halted == (old(halted) || AnyHalting(ends))
    {
      for i := 0 to |done|
        invariant futures == old(futures) - Gathered(done[..i])
        invariant halted == (old(halted) || AnyHalting(ends[..i]))
      {
        assert done[..i + 1] == done[..i] + [done[i]] && ends[..i + 1] == ends[..i] + [ends[i]];
        assert Gathered(done[..i + 1]) == Gathered(done[..i]) + {done[i]};
        futures := futures - {done[i]};
        if Halting(ends[i]) && !halted { halted := true; }
        assert AnyHalting(ends[..i + 1]) <==> AnyHalting(ends[..i]) || Halting(ends[i]);
      }
      assert done[..|done|] == done && ends[..|ends|] == ends;
    }

    method NameWriters(ends: seq<Ended>)
      modifies gate`touched
      ensures gate.Value() == AttributeAll(old(gate.Value()), ends)
    {
      for i := 0 to |ends|
        invariant gate.Value() == AttributeAll(old(gate.Value()), ends[..i])
      {
        assert ends[..i + 1][..i] == ends[..i];
        gate.Attribute(ends[i].agent, ends[i].names);
      }
      assert ends[..|ends|] == ends;
    }

    method RetireFinished(ends: seq<Ended>)
      modifies gate`chains
      ensures Value() == old(Value()).(gate := RetireAll(old(gate.Value()), ends, old(launchedNow)))
    {
      for i := 0 to |ends|
        invariant gate.Value() == RetireAll(old(gate.Value()), ends[..i], launchedNow)
      {
        assert ends[..i + 1][..i] == ends[..i];
        if ends[i].agent !in launchedNow { gate.Retire(ends[i].agent); }
      }
      assert ends[..|ends|] == ends;
    }
  }
}
