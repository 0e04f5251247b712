/** The continuous scheduler as the object that runs it (`run_continuous` in
    lib/audit_runner.py). */
module ContinuousLoop {
  import opened Common
  import opened GateRules
  import opened PoolRules
  import opened PoolRuns
  import opened ContinuousRules
  import opened AgentPool

  class Looper {
    const pooler: Pooler
    var idle: set<Slot>
    var clean: map<Slot, nat>
    var stalled: bool

    ghost function Value(): Loop
      reads this, pooler, pooler.gate
    {
      Loop(pooler.Value(), idle, clean, stalled)
    }

    /** A loop over the tree its gate first sees, with a session for each slot
        that wants one. */
    constructor (wanting: seq<Slot>, artifacts: set<Artifact>, unfinished: set<Artifact>, now: nat)
      requires Distinct(wanting)
      ensures fresh(pooler) && fresh(pooler.gate)
      ensures Value() == StartedLoop(Stamped(EmptyGate, artifacts, unfinished), wanting, now)
      ensures Steady(Value()) && RetriedOnce(Value())
      ensures Slots(Value()) == (set a | a in wanting) && idle == {} && !stalled
    {
      pooler := new Pooler(artifacts, unfinished);
      idle, clean, stalled := {}, map[], false;
      new;
      ApplyKeepsWellTicked(EmptyGate, GateOp.Stamp(artifacts, unfinished));
      pooler.LaunchCohort(wanting, now);
      LoopStartsSteady(Stamped(EmptyGate, artifacts, unfinished), wanting, now);
    }

    /** The steward re-asks the idle slots, which may find work now. */
    method AskIdle(order: seq<Slot>, able: set<Slot>, ceiling: bool, now: nat)
      modifies this`idle, pooler`futures, pooler`next, pooler`launchedNow, pooler.gate`clock, pooler.gate`chains
      ensures Value() == AskAll(old(Value()), order, able, ceiling, now)
    {
      for i := 0 to |order|
        invariant Value() == AskAll(old(Value()), order[..i], able, ceiling, now)
      {
        assert order[..i + 1][..i] == order[..i];
        if !pooler.halted && !stalled && !ceiling && order[i] in able {
          idle := idle - {order[i]};
          pooler.Launch(Session(order[i], false, false, now), false);
        }
      }
      assert order[..|order|] == order;
    }

    /** `wants_launch` for a slot that just finished.  A slot that launches has
        spent its allowance for the outcome it launches on. */
    method WantsLaunch(e: Ended, ceiling: bool) returns (wants: bool)
      modifies this`clean, pooler`retried
      ensures wants == old(WantsRelaunch(Value(), e, ceiling))
      ensures clean == if wants && RefillOutcome(e).Clean? then old(clean[e.agent := CleanTaken(Value(), e.agent) + 1]) else old(clean)
      ensures pooler.retried == if wants && RefillOutcome(e).Failed? then old(pooler.retried) + {e.agent} else old(pooler.retried)
    {
      if pooler.halted || stalled { return false; }
      if e.remaining <= 0 { return false; }
      if ceiling { return false; }
      var outcome := RefillOutcome(e);
      match outcome
      case Provider => return false;
      case Deadline => return false;
      case Failed =>
        if e.agent in pooler.retried { return false; }
        pooler.retried := pooler.retried + {e.agent};
        return true;
      case Continue => return true;
      case Clean =>
        if e.skipLaunch || !e.didWork { return false; }
        var taken := if e.agent in clean then clean[e.agent] else 0;
        if CLEAN_RELAUNCH_CAP <= taken { return false; }
        clean := clean[e.agent := taken + 1];
        return true;
    }

    method Finish(ends: seq<Ended>, ceiling: bool, now: nat)
      modifies this, pooler, pooler.gate`clock, pooler.gate`chains
      ensures Value() == FinishAll(old(Value()), ends, ceiling, now)
    {
      for i := 0 to |ends|
        invariant Value() == FinishAll(old(Value()), ends[..i], ceiling, now)
      {
        assert ends[..i + 1][..i] == ends[..i];
        ghost var before := Value();
        var e := ends[i];
        var wants := WantsLaunch(e, ceiling);
        if wants {
          var outcome := RefillOutcome(e);
          pooler.log := pooler.log + [Refill(e.agent, e.turnCapped, e.returnCode, true, true)];
          pooler.Launch(Session(e.agent, false, false, now), outcome.Continue? || outcome.Failed?);
        } else {
          idle := idle + {e.agent};
        }
        assert Value() == FinishOne(before, e, ceiling, now);
      }
      assert ends[..|ends|] == ends;
    }

    method Gather(r: RoundInput)
      requires Reports(pooler.Value(), r)
      modifies pooler`futures, pooler`halted, pooler`launchedNow, pooler.gate`firstSeen, pooler.gate`touched
      ensures Value() == Gathering(old(Value()), r)
    {
      if r.done == [] {
        pooler.launchedNow := {};
      } else {
        pooler.Collect(r);
      }
    }

    /** The steward tick, when one is due. */
    method Steer(t: Turn)
      modifies this, pooler`futures, pooler`next, pooler`launchedNow, pooler.gate`clock, pooler.gate`chains, pooler.gate`firstSeen
      ensures Value() == Steered(old(Value()), t)
    {
      if t.due.Some? && !pooler.halted && !t.ceilingBefore {
        clean := map[];
        if t.due.value.stalled {
          stalled := true;
        } else {
          pooler.gate.Observe(t.due.value.artifacts, t.due.value.unfinished);
          AskIdle(t.due.value.order, t.due.value.able, t.ceilingAfter, t.input.now);
        }
      }
    }

    /** One turn of the loop. */
    method Turn(t: Turn)
      requires Told(Value(), t)
      modifies this, pooler, pooler.gate`clock, pooler.gate`chains, pooler.gate`firstSeen, pooler.gate`touched
      ensures Value() == Turned(old(Value()), t)
      ensures old(Steady(Value())) ==> Steady(Value()) && Slots(Value()) == old(Slots(Value()))
    {
      ghost var start := Value();
      Gather(t.input);
      Steer(t);
      Finish(t.input.ends, t.ceilingAfter, t.input.now);
      pooler.RetireFinished(t.input.ends);
      if Steady(start) { TurnKeepsSteady(start, t); }
    }
  }
}
