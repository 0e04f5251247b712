/**
 The schedulers as users of the sealed gate: what a round of `run_agent_pool`
 or a turn of `run_continuous` asks of the gate is, in order, a run of
 GateProtocol, however the sessions in flight write and end, and the gate's own
 thread looks, in between.
 */
module SchedulerRuns {
  import opened Common
  import opened GateRules
  import P = GateProtocol
  import opened PoolRules
  import opened PoolRuns
  import opened ContinuousRules

  /** What a scheduler still has to do before its next collection: sessions to
      attribute, slots to relaunch or retire; `flying` are the slots in flight. */
  datatype Plan = Plan(todo: map<Slot, set<Artifact>>, settled: set<Slot>, flying: set<Slot>)

  predicate Fits(op: GateOp, plan: Plan) {
    match op
    case Attribute(s, names) => s in plan.todo && plan.todo[s] == names
    case Stamp(_, _) => true
    case Launch(s, _) => plan.todo == map[] && (s in plan.settled || s !in plan.flying)
    case Retire(s) => plan.todo == map[] && s in plan.settled
  }

  function Advanced(plan: Plan, op: GateOp): Plan {
    match op
    case Attribute(s, _) => plan.(todo := plan.todo - {s}, settled := plan.settled + {s})
    case Stamp(_, _) => plan
    case Launch(s, _) => plan.(settled := plan.settled - {s}, flying := plan.flying + {s})
    case Retire(s) => plan.(settled := plan.settled - {s}, flying := plan.flying - {s})
  }

  predicate FitsAll(ops: seq<GateOp>, plan: Plan)
    decreases |ops|
  {
    ops == [] || (Fits(ops[0], plan) && FitsAll(ops[1..], Advanced(plan, ops[0])))
  }

  function AdvancedBy(plan: Plan, ops: seq<GateOp>): Plan
    decreases |ops|
  {
    if ops == [] then plan else AdvancedBy(Advanced(plan, ops[0]), ops[1..])
  }

  // ------------------------------------------------------------ a plan against the protocol

  /** The stages of the slots are what the plan says. */
  ghost predicate Pending(w: P.World, plan: Plan) {
    && w.stage.Keys == plan.flying
    && plan.todo.Keys <= plan.flying && plan.settled <= plan.flying
    && (forall s :: s in w.stage ==>
          && (w.stage[s].Reaped? <==> s in plan.todo)
          && (s in plan.todo ==> w.stage[s].names == plan.todo[s])
          && (w.stage[s].Settled? <==> s in plan.settled))
  }

  /** A look is true to the tree at its moment. */
  ghost predicate Truthful(w: P.World, op: GateOp) {
    op.Stamp? ==> P.Enabled(w, P.Gating(op))
  }

  lemma PlannedStepIsEnabled(w: P.World, plan: Plan, op: GateOp)
    requires Pending(w, plan) && Fits(op, plan) && Truthful(w, op)
    ensures P.Enabled(w, P.Gating(op))
    ensures Pending(P.Next(w, P.Gating(op)), Advanced(plan, op))
  {
    if plan.todo == map[] { assert P.BatchDone(w); }
  }

  /** What may happen beside the scheduler at any moment: steps of sessions and
      the harness, and looks of the gate's own thread. */
  predicate Beside(step: P.Step) {
    !step.Reap? && (step.Gating? ==> step.op.Stamp?)
  }

  /** The same clock, chains and touches.  When an artifact was first seen is
      the business of every look, the thread's as much as the scheduler's. */
  ghost predicate SameButForLooks(g: Gate, h: Gate) {
    g.clock == h.clock && g.chains == h.chains && g.touched == h.touched
  }

  lemma LooksLeaveTheRest(g: Gate, h: Gate, op: GateOp)
    requires SameButForLooks(g, h)
    ensures SameButForLooks(Apply(g, op), Apply(h, op))
    ensures op.Stamp? ==> SameButForLooks(Apply(g, op), h)
  {
  }

  lemma {:induction false} LooksLeaveAllTheRest(g: Gate, h: Gate, ops: seq<GateOp>)
    requires SameButForLooks(g, h)
    ensures SameButForLooks(ApplyAll(g, ops), ApplyAll(h, ops))
    decreases |ops|
  {
    if ops != [] {
      LooksLeaveTheRest(g, h, ops[0]);
      LooksLeaveAllTheRest(Apply(g, ops[0]), Apply(h, ops[0]), ops[1..]);
    }
  }

  /** The next step carries out the scheduler's next operation. */
  ghost predicate Carrying(w: P.World, step: P.Step, ops: seq<GateOp>) {
    step.Gating? && ops != [] && step.op == ops[0] && Truthful(w, step.op)
  }

  /** `steps` carries out `ops` in order, with anything beside the scheduler in
      between, each possible at its moment, and looks that are true. */
  ghost predicate Woven(w: P.World, steps: seq<P.Step>, ops: seq<GateOp>)
    decreases |steps|
  {
    if steps == [] then ops == []
    else
      || (Carrying(w, steps[0], ops) && (P.Enabled(w, steps[0]) ==> Woven(P.Next(w, steps[0]), steps[1..], ops[1..])))
      || (Beside(steps[0]) && P.Enabled(w, steps[0]) && Woven(P.Next(w, steps[0]), steps[1..], ops))
  }

  lemma SessionsKeepThePlan(w: P.World, plan: Plan, step: P.Step)
    requires Pending(w, plan) && P.Enabled(w, step) && !step.Gating? && !step.Reap?
    ensures Pending(P.Next(w, step), plan) && P.Next(w, step).gate == w.gate
  {
  }

  lemma LooksKeepThePlan(w: P.World, plan: Plan, look: GateOp)
    requires Pending(w, plan) && look.Stamp? && P.Enabled(w, P.Gating(look))
    ensures Pending(P.Next(w, P.Gating(look)), plan)
    ensures P.Next(w, P.Gating(look)).gate == Apply(w.gate, look)
  {
    assert P.Next(w, P.Gating(look)).stage == w.stage;
  }

  /** Nothing beside the scheduler gets in the way of the plan. */
  lemma OthersKeepThePlan(w: P.World, plan: Plan, step: P.Step)
    requires Pending(w, plan) && P.Enabled(w, step) && Beside(step)
    ensures Pending(P.Next(w, step), plan) && SameButForLooks(P.Next(w, step).gate, w.gate)
  {
    if step.Gating? {
      LooksKeepThePlan(w, plan, step.op);
      LooksLeaveTheRest(w.gate, w.gate, step.op);
    } else {
      SessionsKeepThePlan(w, plan, step);
    }
  }

  /** Operations that fit the plan run in the protocol under every weaving, the
      looks of the gate's own thread included. */
  lemma {:induction false} FittingOpsRun(w: P.World, steps: seq<P.Step>, ops: seq<GateOp>, plan: Plan)
    requires Pending(w, plan) && FitsAll(ops, plan) && Woven(w, steps, ops)
    ensures P.Runs(w, steps)
    ensures Pending(P.After(w, steps), AdvancedBy(plan, ops))
    ensures SameButForLooks(P.After(w, steps).gate, ApplyAll(w.gate, ops))
    decreases |steps|
  {
    if steps != [] {
      var step := steps[0];
      if Carrying(w, step, ops) && (P.Enabled(w, step) ==> Woven(P.Next(w, step), steps[1..], ops[1..])) {
        PlannedStepIsEnabled(w, plan, ops[0]);
        FittingOpsRun(P.Next(w, step), steps[1..], ops[1..], Advanced(plan, ops[0]));
      } else {
        OthersKeepThePlan(w, plan, step);
        FittingOpsRun(P.Next(w, step), steps[1..], ops, plan);
        LooksLeaveAllTheRest(P.Next(w, step).gate, w.gate, ops);
      }
    }
  }

  // ------------------------------------------------------------ concatenation

  lemma {:induction false} Concatenated(g: Gate, plan: Plan, a: seq<GateOp>, b: seq<GateOp>)
    ensures ApplyAll(g, a + b) == ApplyAll(ApplyAll(g, a), b)
    ensures AdvancedBy(plan, a + b) == AdvancedBy(AdvancedBy(plan, a), b)
    ensures FitsAll(a + b, plan) <==> FitsAll(a, plan) && FitsAll(b, AdvancedBy(plan, a))
    decreases |a|
  {
    if a == [] {
      assert a + b == b;
    } else {
      Peel(a, b);
      Concatenated(Apply(g, a[0]), Advanced(plan, a[0]), a[1..], b);
    }
  }

  /** One more operation behind the others. */
  lemma Extended(g: Gate, plan: Plan, ops: seq<GateOp>, op: GateOp)
    ensures ApplyAll(g, ops + [op]) == Apply(ApplyAll(g, ops), op)
    ensures AdvancedBy(plan, ops + [op]) == Advanced(AdvancedBy(plan, ops), op)
    ensures FitsAll(ops + [op], plan) <==> FitsAll(ops, plan) && Fits(op, AdvancedBy(plan, ops))
  {
    Concatenated(g, plan, ops, [op]);
  }

  // ------------------------------------------------------------ the operations of a round

  function AttributeOps(ends: seq<Ended>): seq<GateOp> {
    if ends == [] then []
    else
      var e := ends[|ends| - 1];
      AttributeOps(ends[..|ends| - 1]) + [Attribute(e.agent, e.names)]
  }

  function RetireOps(ends: seq<Ended>, launchedNow: set<Slot>): seq<GateOp> {
    if ends == [] then []
    else
      var e := ends[|ends| - 1];
      RetireOps(ends[..|ends| - 1], launchedNow) + if e.agent in launchedNow then [] else [Retire(e.agent)]
  }

  function RefillOps(p: Pool, ends: seq<Ended>, cohort: bool, era: bool, policy: Policy, now: nat): seq<GateOp> {
    if ends == [] then []
    else
      var rest, e := ends[..|ends| - 1], ends[|ends| - 1];
      var outcome := RefillOutcome(e);
      RefillOps(p, rest, cohort, era, policy, now) +
      if Refillable(RefillAll(p, rest, cohort, era, policy, now), e, cohort, era, policy)
      then [Launch(e.agent, outcome.Continue? || outcome.Failed?)] else []
  }

  /** What a round asks of the gate, in order. */
  function RoundOps(p: Pool, r: RoundInput, settings: Settings): seq<GateOp> {
    var q := Collected(p, r);
    var refills := if Refills(q, settings) then RefillOps(q, r.ends, CohortRunning(q.futures), EraRunning(q.futures), settings.policy, r.now) else [];
    AttributeOps(r.ends) + [Stamp(r.artifacts, r.unfinished)] + refills + RetireOps(r.ends, Refilled(q, r, settings).launchedNow)
  }

  ghost predicate DistinctAgents(ends: seq<Ended>) {
    forall i, j :: 0 <= i < j < |ends| ==> ends[i].agent != ends[j].agent
  }

  /** What the ended sessions leave to attribute. */
  ghost predicate Owed(todo: map<Slot, set<Artifact>>, ends: seq<Ended>) {
    && (forall e :: e in ends ==> e.agent in todo && todo[e.agent] == e.names)
    && todo.Keys == EndedAgents(ends)
  }

  lemma LastIsNew(ends: seq<Ended>)
    requires DistinctAgents(ends) && ends != []
    ensures ends[|ends| - 1].agent !in EndedAgents(ends[..|ends| - 1])
    ensures EndedAgents(ends) == EndedAgents(ends[..|ends| - 1]) + {ends[|ends| - 1].agent}
    ensures DistinctAgents(ends[..|ends| - 1])
    ensures ends == ends[..|ends| - 1] + [ends[|ends| - 1]]
  {
    var rest, last := ends[..|ends| - 1], ends[|ends| - 1];
    assert ends == rest + [last];
    forall e | e in rest ensures e.agent != last.agent {
      var i :| 0 <= i < |rest| && rest[i] == e;
      assert ends[i] == e;
    }
    forall x | x in EndedAgents(rest) + {last.agent} ensures x in EndedAgents(ends) {
      if x == last.agent { assert last in ends; } else { var e :| e in rest && e.agent == x; assert e in ends; }
    }
  }

  lemma {:induction false} AttributingFits(g: Gate, ends: seq<Ended>, plan: Plan)
    requires DistinctAgents(ends) && forall e :: e in ends ==> e.agent in plan.todo && plan.todo[e.agent] == e.names
    ensures FitsAll(AttributeOps(ends), plan)
    ensures AdvancedBy(plan, AttributeOps(ends)) ==
      plan.(todo := plan.todo - EndedAgents(ends), settled := plan.settled + EndedAgents(ends))
    ensures ApplyAll(g, AttributeOps(ends)) == AttributeAll(g, ends)
  {
    if ends != [] {
      LastIsNew(ends);
      var rest, e := ends[..|ends| - 1], ends[|ends| - 1];
      AttributingFits(g, rest, plan);
      assert e.agent in plan.todo && plan.todo[e.agent] == e.names;
      AttributeOne(g, plan, AttributeOps(rest), e, EndedAgents(rest));
    }
  }

  lemma AttributeOne(g: Gate, plan: Plan, ops: seq<GateOp>, e: Ended, named: set<Slot>)
    requires e.agent in plan.todo && plan.todo[e.agent] == e.names && e.agent !in named && FitsAll(ops, plan)
    requires AdvancedBy(plan, ops) == plan.(todo := plan.todo - named, settled := plan.settled + named)
    ensures var more := ops + [Attribute(e.agent, e.names)];
      && FitsAll(more, plan)
      && AdvancedBy(plan, more) == plan.(todo := plan.todo - (named + {e.agent}), settled := plan.settled + (named + {e.agent}))
      && ApplyAll(g, more) == Attributed(ApplyAll(g, ops), e.agent, e.names)
  {
    Extended(g, plan, ops, Attribute(e.agent, e.names));
    assert plan.todo - named - {e.agent} == plan.todo - (named + {e.agent});
    assert plan.settled + named + {e.agent} == plan.settled + (named + {e.agent});
  }

  function Without(plan: Plan, gone: set<Slot>): Plan {
    plan.(settled := plan.settled - gone, flying := plan.flying - gone)
  }

  lemma RetireOne(g: Gate, plan: Plan, ops: seq<GateOp>, s: Slot, gone: set<Slot>)
    requires plan.todo == map[] && s in plan.settled && s !in gone
    requires FitsAll(ops, plan) && AdvancedBy(plan, ops) == Without(plan, gone)
    ensures FitsAll(ops + [Retire(s)], plan) && AdvancedBy(plan, ops + [Retire(s)]) == Without(plan, gone + {s})
    ensures ApplyAll(g, ops + [Retire(s)]) == Retired(ApplyAll(g, ops), s)
  {
    Extended(g, plan, ops, Retire(s));
    assert plan.settled - gone - {s} == plan.settled - (gone + {s}) && plan.flying - gone - {s} == plan.flying - (gone + {s});
  }

  lemma {:induction false} RetiringFits(g: Gate, ends: seq<Ended>, launchedNow: set<Slot>, plan: Plan)
    requires DistinctAgents(ends) && plan.todo == map[] && EndedAgents(ends) - launchedNow <= plan.settled
    ensures FitsAll(RetireOps(ends, launchedNow), plan)
    ensures AdvancedBy(plan, RetireOps(ends, launchedNow)) == Without(plan, EndedAgents(ends) - launchedNow)
    ensures ApplyAll(g, RetireOps(ends, launchedNow)) == RetireAll(g, ends, launchedNow)
  {
    if ends == [] {
      assert Without(plan, {}) == plan;
    } else {
      LastIsNew(ends);
      var rest, e := ends[..|ends| - 1], ends[|ends| - 1];
      var gone := EndedAgents(rest) - launchedNow;
      RetiringFits(g, rest, launchedNow, plan);
      if e.agent !in launchedNow {
        assert EndedAgents(ends) - launchedNow == gone + {e.agent};
        RetireOne(g, plan, RetireOps(rest, launchedNow), e.agent, gone);
      } else {
        assert EndedAgents(ends) - launchedNow == gone;
        assert RetireOps(ends, launchedNow) == RetireOps(rest, launchedNow);
      }
    }
  }

  /** A relaunch: the slot is settled, so it stays in flight. */
  lemma RelaunchOne(g: Gate, plan: Plan, ops: seq<GateOp>, s: Slot, continuation: bool, launched: set<Slot>)
    requires plan.todo == map[] && s in plan.settled && s !in launched && plan.settled <= plan.flying
    requires FitsAll(ops, plan) && AdvancedBy(plan, ops) == plan.(settled := plan.settled - launched)
    ensures var op := Launch(s, continuation);
      && FitsAll(ops + [op], plan)
      && AdvancedBy(plan, ops + [op]) == plan.(settled := plan.settled - (launched + {s}))
      && ApplyAll(g, ops + [op]) == Launched(ApplyAll(g, ops), s, continuation)
  {
    Extended(g, plan, ops, Launch(s, continuation));
    assert plan.flying + {s} == plan.flying && plan.settled - launched - {s} == plan.settled - (launched + {s});
  }

  /** A batch of relaunches fits a plan and ends in the state `v`. */
  ghost predicate Relaunches(p: Pool, ops: seq<GateOp>, v: Pool, plan: Plan, agents: set<Slot>) {
    && FitsAll(ops, plan)
    && AdvancedBy(plan, ops) == plan.(settled := plan.settled - v.launchedNow)
    && ApplyAll(p.gate, ops) == v.gate
    && v.launchedNow <= p.launchedNow + agents
  }

  lemma {:induction false} RefillingFits(p: Pool, ends: seq<Ended>, cohort: bool, era: bool, policy: Policy, now: nat, plan: Plan)
    requires DistinctAgents(ends) && plan.todo == map[] && EndedAgents(ends) <= plan.settled && plan.settled <= plan.flying
    requires p.launchedNow !! plan.settled
    ensures Relaunches(p, RefillOps(p, ends, cohort, era, policy, now), RefillAll(p, ends, cohort, era, policy, now), plan, EndedAgents(ends))
  {
    if ends == [] {
      assert plan.settled - p.launchedNow == plan.settled;
    } else {
      LastIsNew(ends);
      var rest, e := ends[..|ends| - 1], ends[|ends| - 1];
      RefillingFits(p, rest, cohort, era, policy, now, plan);
      var m := RefillAll(p, rest, cohort, era, policy, now);
      var before := RefillOps(p, rest, cohort, era, policy, now);
      if Refillable(m, e, cohort, era, policy) {
        var outcome := RefillOutcome(e);
        RelaunchOne(p.gate, plan, before, e.agent, outcome.Continue? || outcome.Failed?, m.launchedNow);
      } else {
        assert RefillOps(p, ends, cohort, era, policy, now) == before;
      }
    }
  }

  /** The plan right after a collection, and once everything is settled. */
  function PlanFor(todo: map<Slot, set<Artifact>>, flying: set<Slot>): Plan {
    Plan(todo, {}, flying)
  }

  function AfterAttributing(ends: seq<Ended>, flying: set<Slot>): Plan {
    Plan(map[], EndedAgents(ends), flying)
  }

  /** The plan is done: nothing to attribute, and every slot launched or retired. */
  predicate Carried(plan: Plan) {
    plan.todo == map[] && plan.settled == {}
  }

  lemma AttributeThenLook(g: Gate, ends: seq<Ended>, todo: map<Slot, set<Artifact>>, flying: set<Slot>, look: GateOp)
    requires DistinctAgents(ends) && Owed(todo, ends) && look.Stamp?
    ensures var ops := AttributeOps(ends) + [look];
      && FitsAll(ops, PlanFor(todo, flying))
      && AdvancedBy(PlanFor(todo, flying), ops) == AfterAttributing(ends, flying)
      && ApplyAll(g, ops) == Apply(AttributeAll(g, ends), look)
  {
    var plan := PlanFor(todo, flying);
    AttributingFits(g, ends, plan);
    Extended(g, plan, AttributeOps(ends), look);
    assert todo - EndedAgents(ends) == map[];
  }

  /** The end of a round: retire what did not launch again. */
  lemma RetireTheRest(g: Gate, ops: seq<GateOp>, ends: seq<Ended>, launchedNow: set<Slot>, start: Plan)
    requires DistinctAgents(ends) && FitsAll(ops, start)
    requires var m := AdvancedBy(start, ops); m.todo == map[] && m.settled == EndedAgents(ends) - launchedNow
    ensures var all := ops + RetireOps(ends, launchedNow);
      && FitsAll(all, start) && Carried(AdvancedBy(start, all))
      && ApplyAll(g, all) == RetireAll(ApplyAll(g, ops), ends, launchedNow)
  {
    var retires := RetireOps(ends, launchedNow);
    RetiringFits(ApplyAll(g, ops), ends, launchedNow, AdvancedBy(start, ops));
    Concatenated(g, start, ops, retires);
  }

  /** A round of the cohort scheduler fits the plan its collection left, carries
      it out, and does to the gate exactly what `Rounded` says. */
  lemma RoundFits(p: Pool, r: RoundInput, settings: Settings, todo: map<Slot, set<Artifact>>, flying: set<Slot>)
    requires DistinctAgents(r.ends) && Owed(todo, r.ends) && EndedAgents(r.ends) <= flying
    ensures var ops := RoundOps(p, r, settings);
      && FitsAll(ops, PlanFor(todo, flying)) && Carried(AdvancedBy(PlanFor(todo, flying), ops))
      && ApplyAll(p.gate, ops) == Rounded(p, r, settings).gate
  {
    var start := PlanFor(todo, flying);
    var look := Stamp(r.artifacts, r.unfinished);
    AttributeThenLook(p.gate, r.ends, todo, flying, look);
    var first := AttributeOps(r.ends) + [look];
    var q := Collected(p, r);
    var v := Refilled(q, r, settings);
    if Refills(q, settings) {
      var cohort, era := CohortRunning(q.futures), EraRunning(q.futures);
      var refills := RefillOps(q, r.ends, cohort, era, settings.policy, r.now);
      RefillingFits(q, r.ends, cohort, era, settings.policy, r.now, AfterAttributing(r.ends, flying));
      Concatenated(p.gate, start, first, refills);
      RetireTheRest(p.gate, first + refills, r.ends, v.launchedNow, start);
    } else {
      assert first + [] == first;
      assert EndedAgents(r.ends) - {} == EndedAgents(r.ends);
      RetireTheRest(p.gate, first, r.ends, v.launchedNow, start);
    }
  }

  // ------------------------------------------------------------ the operations of a turn

  function AskOps(l: Loop, order: seq<Slot>, able: set<Slot>, ceiling: bool, now: nat): seq<GateOp> {
    if order == [] then []
    else
      var rest, a := order[..|order| - 1], order[|order| - 1];
      AskOps(l, rest, able, ceiling, now) +
      if MayLaunch(AskAll(l, rest, able, ceiling, now), ceiling) && a in able then [Launch(a, false)] else []
  }

  function FinishOps(l: Loop, ends: seq<Ended>, ceiling: bool, now: nat): seq<GateOp> {
    if ends == [] then []
    else
      var rest, e := ends[..|ends| - 1], ends[|ends| - 1];
      var outcome := RefillOutcome(e);
      FinishOps(l, rest, ceiling, now) +
      if WantsRelaunch(FinishAll(l, rest, ceiling, now), e, ceiling)
      then [Launch(e.agent, outcome.Continue? || outcome.Failed?)] else []
  }

  function GatherOps(r: RoundInput): seq<GateOp> {
    if r.done == [] then [] else AttributeOps(r.ends) + [Stamp(r.artifacts, r.unfinished)]
  }

  function SteerOps(l: Loop, t: Turn): seq<GateOp> {
    if !Steers(l, t) then []
    else
      var s := t.due.value;
      [Stamp(s.artifacts, s.unfinished)] + AskOps(Looked(l, s), s.order, s.able, t.ceilingAfter, t.input.now)
  }

  /** A batch of launches of idle slots fits a plan and ends in the state `v`. */
  ghost predicate IdleLaunches(l: Loop, ops: seq<GateOp>, v: Loop, plan: Plan, order: seq<Slot>) {
    && FitsAll(ops, plan)
    && AdvancedBy(plan, ops) == plan.(flying := plan.flying + (v.pool.launchedNow - l.pool.launchedNow))
    && ApplyAll(l.pool.gate, ops) == v.pool.gate
    && l.pool.launchedNow <= v.pool.launchedNow <= l.pool.launchedNow + set a | a in order
  }

  lemma {:induction false} AskingFits(l: Loop, order: seq<Slot>, able: set<Slot>, ceiling: bool, now: nat, plan: Plan)
    requires Distinct(order) && plan.todo == map[] && plan.settled <= plan.flying && l.pool.launchedNow == {}
    requires forall a :: a in order ==> a !in plan.flying
    ensures IdleLaunches(l, AskOps(l, order, able, ceiling, now), AskAll(l, order, able, ceiling, now), plan, order)
  {
    if order != [] {
      var rest, a := order[..|order| - 1], order[|order| - 1];
      LastIsApart(order);
      assert order == rest + [a];
      AskingFits(l, rest, able, ceiling, now, plan);
      AskOneFits(l, AskAll(l, rest, able, ceiling, now), AskOps(l, rest, able, ceiling, now), rest, a, able, ceiling, now, plan);
    } else {
      assert plan.flying + {} == plan.flying;
    }
  }

  lemma AskOneFits(l: Loop, m: Loop, before: seq<GateOp>, rest: seq<Slot>, a: Slot, able: set<Slot>, ceiling: bool, now: nat, plan: Plan)
    requires plan.todo == map[] && plan.settled <= plan.flying && l.pool.launchedNow == {}
    requires a !in plan.flying && a !in rest && IdleLaunches(l, before, m, plan, rest)
    ensures var ops := before + if MayLaunch(m, ceiling) && a in able then [Launch(a, false)] else [];
      IdleLaunches(l, ops, AskOne(m, a, able, ceiling, now), plan, rest + [a])
  {
    assert forall x :: x in rest + [a] <==> x in rest || x == a;
    if MayLaunch(m, ceiling) && a in able {
      LaunchIdle(l.pool.gate, plan, before, a, m.pool.launchedNow);
      assert AskOne(m, a, able, ceiling, now).pool.launchedNow == m.pool.launchedNow + {a};
    } else {
      assert before + [] == before;
    }
  }

  lemma LaunchIdle(g: Gate, plan: Plan, ops: seq<GateOp>, s: Slot, launched: set<Slot>)
    requires plan.todo == map[] && plan.settled <= plan.flying && s !in plan.flying && s !in launched
    requires FitsAll(ops, plan) && AdvancedBy(plan, ops) == plan.(flying := plan.flying + launched)
    ensures FitsAll(ops + [Launch(s, false)], plan)
    ensures AdvancedBy(plan, ops + [Launch(s, false)]) == plan.(flying := plan.flying + (launched + {s}))
    ensures ApplyAll(g, ops + [Launch(s, false)]) == Launched(ApplyAll(g, ops), s, false)
  {
    Extended(g, plan, ops, Launch(s, false));
    assert plan.settled - {s} == plan.settled && plan.flying + launched + {s} == plan.flying + (launched + {s});
  }

  lemma {:induction false} FinishingFits(l: Loop, ends: seq<Ended>, ceiling: bool, now: nat, plan: Plan)
    requires DistinctAgents(ends) && plan.todo == map[] && EndedAgents(ends) <= plan.settled && plan.settled <= plan.flying
    requires l.pool.launchedNow !! plan.settled
    ensures Relaunches(l.pool, FinishOps(l, ends, ceiling, now), FinishAll(l, ends, ceiling, now).pool, plan, EndedAgents(ends))
  {
    if ends == [] {
      assert plan.settled - l.pool.launchedNow == plan.settled;
    } else {
      LastIsNew(ends);
      var rest, e := ends[..|ends| - 1], ends[|ends| - 1];
      FinishingFits(l, rest, ceiling, now, plan);
      var m := FinishAll(l, rest, ceiling, now);
      var before := FinishOps(l, rest, ceiling, now);
      if WantsRelaunch(m, e, ceiling) {
        var outcome := RefillOutcome(e);
        RelaunchOne(l.pool.gate, plan, before, e.agent, outcome.Continue? || outcome.Failed?, m.pool.launchedNow);
      } else {
        assert FinishOps(l, ends, ceiling, now) == before;
      }
    }
  }

  lemma GatheringFits(l: Loop, r: RoundInput, todo: map<Slot, set<Artifact>>, flying: set<Slot>)
    requires DistinctAgents(r.ends) && Owed(todo, r.ends) && |r.done| == |r.ends|
    ensures var ops := GatherOps(r);
      && FitsAll(ops, PlanFor(todo, flying))
      && AdvancedBy(PlanFor(todo, flying), ops) == AfterAttributing(r.ends, flying)
      && ApplyAll(l.pool.gate, ops) == Gathering(l, r).pool.gate
  {
    if r.done == [] {
      assert EndedAgents(r.ends) == {} && todo == map[];
    } else {
      AttributeThenLook(l.pool.gate, r.ends, todo, flying, Stamp(r.artifacts, r.unfinished));
    }
  }

  lemma SteeringFits(g: Loop, t: Turn, plan: Plan)
    requires plan.todo == map[] && plan.settled <= plan.flying && g.pool.launchedNow == {}
    requires t.due.Some? ==> Distinct(t.due.value.order) && forall a :: a in t.due.value.order ==> a !in plan.flying
    ensures var ops, v := SteerOps(g, t), Steered(g, t);
      && FitsAll(ops, plan)
      && AdvancedBy(plan, ops) == plan.(flying := plan.flying + v.pool.launchedNow)
      && ApplyAll(g.pool.gate, ops) == v.pool.gate
      && v.pool.launchedNow !! plan.flying
  {
    if Steers(g, t) {
      var s := t.due.value;
      var look := Stamp(s.artifacts, s.unfinished);
      var asks := AskOps(Looked(g, s), s.order, s.able, t.ceilingAfter, t.input.now);
      AskingFits(Looked(g, s), s.order, s.able, t.ceilingAfter, t.input.now, plan);
      Concatenated(g.pool.gate, plan, [look], asks);
    } else {
      assert plan.flying + {} == plan.flying;
    }
  }

  /** The launches and retirements of a turn, after its collection. */
  lemma DecidingFits(s: Loop, t: Turn, plan: Plan)
    requires DistinctAgents(t.input.ends) && plan.todo == map[] && plan.settled == EndedAgents(t.input.ends) && plan.settled <= plan.flying
    requires s.pool.launchedNow !! plan.settled
    ensures var f := FinishAll(s, t.input.ends, t.ceilingAfter, t.input.now);
      var ops := FinishOps(s, t.input.ends, t.ceilingAfter, t.input.now) + RetireOps(t.input.ends, f.pool.launchedNow);
      && FitsAll(ops, plan) && Carried(AdvancedBy(plan, ops))
      && ApplyAll(s.pool.gate, ops) == RetireAll(f.pool.gate, t.input.ends, f.pool.launchedNow)
  {
    var f := FinishAll(s, t.input.ends, t.ceilingAfter, t.input.now);
    var launches := FinishOps(s, t.input.ends, t.ceilingAfter, t.input.now);
    FinishingFits(s, t.input.ends, t.ceilingAfter, t.input.now, plan);
    RetireTheRest(s.pool.gate, launches, t.input.ends, f.pool.launchedNow, plan);
  }

  /** Two batches of operations, one after the other. */
  lemma Chained(g: Gate, start: Plan, a: seq<GateOp>, middle: Plan, h: Gate, b: seq<GateOp>)
    requires FitsAll(a, start) && AdvancedBy(start, a) == middle && ApplyAll(g, a) == h && FitsAll(b, middle)
    ensures FitsAll(a + b, start) && AdvancedBy(start, a + b) == AdvancedBy(middle, b) && ApplyAll(g, a + b) == ApplyAll(h, b)
  {
    Concatenated(g, start, a, b);
  }

  /** What a turn asks of the gate once it has collected. */
  function DecideOps(g: Loop, t: Turn): seq<GateOp> {
    var s := Steered(g, t);
    var f := FinishAll(s, t.input.ends, t.ceilingAfter, t.input.now);
    SteerOps(g, t) + (FinishOps(s, t.input.ends, t.ceilingAfter, t.input.now) + RetireOps(t.input.ends, f.pool.launchedNow))
  }

  lemma SteeringAndDecidingFit(g: Loop, t: Turn, plan: Plan)
    requires DistinctAgents(t.input.ends) && plan.todo == map[] && plan.settled == EndedAgents(t.input.ends) && plan.settled <= plan.flying
    requires g.pool.launchedNow == {}
    requires t.due.Some? ==> Distinct(t.due.value.order) && forall a :: a in t.due.value.order ==> a !in plan.flying
    ensures var f := FinishAll(Steered(g, t), t.input.ends, t.ceilingAfter, t.input.now);
      && FitsAll(DecideOps(g, t), plan) && Carried(AdvancedBy(plan, DecideOps(g, t)))
      && ApplyAll(g.pool.gate, DecideOps(g, t)) == RetireAll(f.pool.gate, t.input.ends, f.pool.launchedNow)
  {
    var s := Steered(g, t);
    var f := FinishAll(s, t.input.ends, t.ceilingAfter, t.input.now);
    var middle := plan.(flying := plan.flying + s.pool.launchedNow);
    var rest := FinishOps(s, t.input.ends, t.ceilingAfter, t.input.now) + RetireOps(t.input.ends, f.pool.launchedNow);
    SteeringFits(g, t, plan);
    DecidingFits(s, t, middle);
    Chained(g.pool.gate, plan, SteerOps(g, t), middle, s.pool.gate, rest);
  }

  /** What a turn asks of the gate, in order. */
  function TurnOps(l: Loop, t: Turn): seq<GateOp> {
    GatherOps(t.input) + DecideOps(Gathering(l, t.input), t)
  }

  /** A turn of the continuous scheduler fits the plan its collection left. */
  lemma TurnFits(l: Loop, t: Turn, todo: map<Slot, set<Artifact>>, flying: set<Slot>)
    requires DistinctAgents(t.input.ends) && Owed(todo, t.input.ends) && EndedAgents(t.input.ends) <= flying
    requires |t.input.done| == |t.input.ends|
    requires t.due.Some? ==> Distinct(t.due.value.order) && forall a :: a in t.due.value.order ==> a !in flying
    ensures var ops := TurnOps(l, t);
      && FitsAll(ops, PlanFor(todo, flying)) && Carried(AdvancedBy(PlanFor(todo, flying), ops))
      && ApplyAll(l.pool.gate, ops) == Turned(l, t).pool.gate
  {
    var g := Gathering(l, t.input);
    var middle := AfterAttributing(t.input.ends, flying);
    GatheringFits(l, t.input, todo, flying);
    SteeringAndDecidingFit(g, t, middle);
    Chained(l.pool.gate, PlanFor(todo, flying), GatherOps(t.input), middle, g.pool.gate, DecideOps(g, t));
  }

  // ------------------------------------------------------------ whole runs

  /** Between two collections: nothing is left of the last one's plan. */
  ghost predicate AtRest(w: P.World) {
    Pending(w, PlanFor(map[], w.stage.Keys))
  }

  /** The sessions the scheduler collects now, with the names in their transcripts. */
  function Collectable(w: P.World): map<Slot, set<Artifact>> {
    map s | s in w.stage && w.stage[s].Ended? :: w.stage[s].names
  }

  predicate Outside(steps: seq<P.Step>) {
    forall i :: 0 <= i < |steps| ==> Beside(steps[i])
  }

  /** One turn of a scheduler's loop: what happens before it collects, and the
      weaving of its operations. */
  datatype Batch = Batch(before: seq<P.Step>, steps: seq<P.Step>)

  function StepsOf(b: Batch): seq<P.Step> {
    b.before + [P.Reap] + b.steps
  }

  lemma {:induction false} OutsideKeepsRest(w: P.World, steps: seq<P.Step>, plan: Plan)
    requires Pending(w, plan) && P.Runs(w, steps) && Outside(steps)
    ensures Pending(P.After(w, steps), plan) && SameButForLooks(P.After(w, steps).gate, w.gate)
    decreases |steps|
  {
    if steps != [] {
      assert Outside(steps[1..]) by {
        forall i | 0 <= i < |steps[1..]| ensures Beside(steps[1..][i]) { assert steps[1..][i] == steps[i + 1]; }
      }
      OthersKeepThePlan(w, plan, steps[0]);
      OutsideKeepsRest(P.Next(w, steps[0]), steps[1..], plan);
    }
  }

  /** What it takes to carry out `ops` as one batch from `w`. */
  ghost predicate Carries(w: P.World, b: Batch, ops: seq<GateOp>) {
    && P.Runs(w, b.before) && Outside(b.before)
    && var u := P.After(w, b.before);
    && AtRest(u)
    && P.Enabled(u, P.Reap) && Woven(P.Next(u, P.Reap), b.steps, ops)
  }

  lemma BatchRuns(w: P.World, b: Batch, ops: seq<GateOp>)
    requires AtRest(w) && Carries(w, b, ops)
    requires var u := P.After(w, b.before);
      FitsAll(ops, PlanFor(Collectable(u), u.stage.Keys)) && Carried(AdvancedBy(PlanFor(Collectable(u), u.stage.Keys), ops))
    ensures P.Runs(w, StepsOf(b))
    ensures AtRest(P.After(w, StepsOf(b))) && SameButForLooks(P.After(w, StepsOf(b)).gate, ApplyAll(w.gate, ops))
  {
    var u := P.After(w, b.before);
    OutsideKeepsRest(w, b.before, PlanFor(map[], w.stage.Keys));
    var v := P.Next(u, P.Reap);
    var plan := PlanFor(Collectable(u), u.stage.Keys);
    FittingOpsRun(v, b.steps, ops, plan);
    LooksLeaveAllTheRest(v.gate, w.gate, ops);
    P.RunsConcat(w, b.before, [P.Reap]);
    P.RunsConcat(w, b.before + [P.Reap], b.steps);
  }

  /** What the ended sessions report, against what the tree's history holds. */
  ghost predicate ReportsTruly(w: P.World, ends: seq<Ended>) {
    DistinctAgents(ends) && Owed(Collectable(w), ends)
  }

  function CohortOps(agents: seq<Slot>): seq<GateOp> {
    if agents == [] then [] else CohortOps(agents[..|agents| - 1]) + [Launch(agents[|agents| - 1], false)]
  }

  lemma LaunchOneMore(g: Gate, ops: seq<GateOp>, launched: set<Slot>, a: Slot)
    requires a !in launched && FitsAll(ops, PlanFor(map[], {})) && AdvancedBy(PlanFor(map[], {}), ops) == PlanFor(map[], launched)
    ensures FitsAll(ops + [Launch(a, false)], PlanFor(map[], {}))
    ensures AdvancedBy(PlanFor(map[], {}), ops + [Launch(a, false)]) == PlanFor(map[], launched + {a})
    ensures ApplyAll(g, ops + [Launch(a, false)]) == Launched(ApplyAll(g, ops), a, false)
  {
    Extended(g, PlanFor(map[], {}), ops, Launch(a, false));
    assert {} - {a} == {};
  }

  lemma {:induction false} CohortFits(p: Pool, agents: seq<Slot>, now: nat)
    requires Distinct(agents)
    ensures var ops := CohortOps(agents);
      && FitsAll(ops, PlanFor(map[], {}))
      && AdvancedBy(PlanFor(map[], {}), ops) == PlanFor(map[], set a | a in agents)
      && ApplyAll(p.gate, ops) == Started(p, agents, now).gate
  {
    if agents != [] {
      var rest, a := agents[..|agents| - 1], agents[|agents| - 1];
      CohortFits(p, rest, now);
      LaunchOneMore(p.gate, CohortOps(rest), (set b | b in rest), a);
    }
  }

  /** Launching the cohort over a fresh tree, its first sessions writing already,
      is a run of the protocol and leaves it ready for the first round. */
  lemma CohortStartsAProtocolRun(w: P.World, agents: seq<Slot>, now: nat, steps: seq<P.Step>)
    requires P.Fresh(w) && Distinct(agents) && Woven(w, steps, CohortOps(agents))
    ensures P.Runs(w, steps)
    ensures P.Inv(P.After(w, steps)) && AtRest(P.After(w, steps))
    ensures SameButForLooks(P.After(w, steps).gate, Started(EmptyPool(w.gate), agents, now).gate)
  {
    CohortFits(EmptyPool(w.gate), agents, now);
    FittingOpsRun(w, steps, CohortOps(agents), PlanFor(map[], {}));
    P.FreshHolds(w);
    P.EveryRunKeepsInv(w, steps);
  }

  datatype PlayedRound = PlayedRound(batch: Batch, input: RoundInput)

  /** The rounds of a pool, played against the protocol's world. */
  ghost predicate PoolPlays(w: P.World, p: Pool, rounds: seq<PlayedRound>, settings: Settings)
    decreases |rounds|
  {
    rounds == [] ||
    var r := rounds[0];
    && Carries(w, r.batch, RoundOps(p, r.input, settings))
    && ReportsTruly(P.After(w, r.batch.before), r.input.ends)
    && (P.Runs(w, StepsOf(r.batch)) ==> PoolPlays(P.After(w, StepsOf(r.batch)), Rounded(p, r.input, settings), rounds[1..], settings))
  }

  function PoolAfter(p: Pool, rounds: seq<PlayedRound>, settings: Settings): Pool
    decreases |rounds|
  {
    if rounds == [] then p else PoolAfter(Rounded(p, rounds[0].input, settings), rounds[1..], settings)
  }

  function AllSteps(rounds: seq<PlayedRound>): seq<P.Step>
    decreases |rounds|
  {
    if rounds == [] then [] else StepsOf(rounds[0].batch) + AllSteps(rounds[1..])
  }

  lemma PoolRoundRuns(w: P.World, p: Pool, r: PlayedRound, settings: Settings)
    requires AtRest(w) && SameButForLooks(w.gate, p.gate) && Carries(w, r.batch, RoundOps(p, r.input, settings))
    requires ReportsTruly(P.After(w, r.batch.before), r.input.ends)
    ensures P.Runs(w, StepsOf(r.batch)) && AtRest(P.After(w, StepsOf(r.batch)))
    ensures SameButForLooks(P.After(w, StepsOf(r.batch)).gate, Rounded(p, r.input, settings).gate)
  {
    var u := P.After(w, r.batch.before);
    RoundFits(p, r.input, settings, Collectable(u), u.stage.Keys);
    BatchRuns(w, r.batch, RoundOps(p, r.input, settings));
    LooksLeaveAllTheRest(w.gate, p.gate, RoundOps(p, r.input, settings));
  }

  /** Every run of the cohort scheduler, with sessions writing and ending and the
      gate's thread looking at any moment in between, is a run of the protocol,
      and the scheduler's clock, chains and touches are the protocol's: what
      GateProtocol proves of every run holds of it. */
  lemma {:induction false} EveryPoolRunIsAProtocolRun(w: P.World, p: Pool, rounds: seq<PlayedRound>, settings: Settings)
    requires P.Inv(w) && AtRest(w) && SameButForLooks(w.gate, p.gate) && PoolPlays(w, p, rounds, settings)
    ensures P.Runs(w, AllSteps(rounds))
    ensures var v := P.After(w, AllSteps(rounds));
      P.Inv(v) && AtRest(v) && SameButForLooks(v.gate, PoolAfter(p, rounds, settings).gate)
    decreases |rounds|
  {
    if rounds != [] {
      var r := rounds[0];
      PoolRoundRuns(w, p, r, settings);
      P.EveryRunKeepsInv(w, StepsOf(r.batch));
      EveryPoolRunIsAProtocolRun(P.After(w, StepsOf(r.batch)), Rounded(p, r.input, settings), rounds[1..], settings);
      P.RunsConcat(w, StepsOf(r.batch), AllSteps(rounds[1..]));
    }
  }

  /** Every moment of every run of the pool, from its first launch on, is a state
      the protocol reaches: what holds of those holds while the pool runs. */
  lemma EveryPoolMomentIsReached(
      start: P.World, agents: seq<Slot>, now: nat, launches: seq<P.Step>, rounds: seq<PlayedRound>, settings: Settings, k: nat)
    requires P.Fresh(start) && Distinct(agents) && Woven(start, launches, CohortOps(agents))
    requires P.Runs(start, launches) ==>
      PoolPlays(P.After(start, launches), Started(EmptyPool(start.gate), agents, now), rounds, settings)
    requires k <= |launches + AllSteps(rounds)|
    ensures var steps := (launches + AllSteps(rounds))[..k];
      P.Runs(start, steps) && P.Reached(start, steps, P.After(start, steps))
  {
    var p := Started(EmptyPool(start.gate), agents, now);
    CohortStartsAProtocolRun(start, agents, now, launches);
    EveryPoolRunIsAProtocolRun(P.After(start, launches), p, rounds, settings);
    P.RunsConcat(start, launches, AllSteps(rounds));
    P.RunsPrefix(start, launches + AllSteps(rounds), k);
  }

  datatype PlayedTurn = PlayedTurn(batch: Batch, turn: Turn)

  /** The turns of a continuous loop, played against the protocol's world: the
      idle slots it asks are not in flight. */
  ghost predicate LoopPlays(w: P.World, l: Loop, turns: seq<PlayedTurn>)
    decreases |turns|
  {
    turns == [] ||
    var t := turns[0];
    && Told(l, t.turn)
    && Carries(w, t.batch, TurnOps(l, t.turn))
    && ReportsTruly(P.After(w, t.batch.before), t.turn.input.ends)
    && (P.Runs(w, StepsOf(t.batch)) ==> LoopPlays(P.After(w, StepsOf(t.batch)), Turned(l, t.turn), turns[1..]))
  }

  function LoopAfter(l: Loop, turns: seq<PlayedTurn>): Loop
    decreases |turns|
  {
    if turns == [] then l else LoopAfter(Turned(l, turns[0].turn), turns[1..])
  }

  function AllTurnSteps(turns: seq<PlayedTurn>): seq<P.Step>
    decreases |turns|
  {
    if turns == [] then [] else StepsOf(turns[0].batch) + AllTurnSteps(turns[1..])
  }

  lemma LoopTurnRuns(w: P.World, l: Loop, t: PlayedTurn)
    requires P.Coupled(w) && AtRest(w) && SameButForLooks(w.gate, l.pool.gate) && Steady(l) && Told(l, t.turn)
    requires Carries(w, t.batch, TurnOps(l, t.turn))
    requires ReportsTruly(P.After(w, t.batch.before), t.turn.input.ends)
    ensures P.Runs(w, StepsOf(t.batch)) && AtRest(P.After(w, StepsOf(t.batch)))
    ensures SameButForLooks(P.After(w, StepsOf(t.batch)).gate, Turned(l, t.turn).pool.gate)
  {
    var u := P.After(w, t.batch.before);
    OutsideKeepsRest(w, t.batch.before, PlanFor(map[], w.stage.Keys));
    assert u.stage.Keys == w.stage.Keys == l.pool.gate.chains.Keys == Agents(l.pool.futures);
    TurnFits(l, t.turn, Collectable(u), u.stage.Keys);
    BatchRuns(w, t.batch, TurnOps(l, t.turn));
    LooksLeaveAllTheRest(w.gate, l.pool.gate, TurnOps(l, t.turn));
  }

  /** Every run of the continuous scheduler, the gate's thread beside it, is a
      run of the protocol too. */
  lemma {:induction false} EveryLoopRunIsAProtocolRun(w: P.World, l: Loop, turns: seq<PlayedTurn>)
    requires P.Inv(w) && AtRest(w) && SameButForLooks(w.gate, l.pool.gate) && Steady(l) && LoopPlays(w, l, turns)
    ensures P.Runs(w, AllTurnSteps(turns))
    ensures var v := P.After(w, AllTurnSteps(turns));
      P.Inv(v) && AtRest(v) && SameButForLooks(v.gate, LoopAfter(l, turns).pool.gate) && Steady(LoopAfter(l, turns))
    decreases |turns|
  {
    if turns != [] {
      var t := turns[0];
      LoopTurnRuns(w, l, t);
      TurnKeepsSteady(l, t.turn);
      P.EveryRunKeepsInv(w, StepsOf(t.batch));
      EveryLoopRunIsAProtocolRun(P.After(w, StepsOf(t.batch)), Turned(l, t.turn), turns[1..]);
      P.RunsConcat(w, StepsOf(t.batch), AllTurnSteps(turns[1..]));
    }
  }

  /** And every moment of every run of the continuous scheduler, from its first
      launches, which precede its loop. */
  lemma EveryLoopMomentIsReached(
      start: P.World, wanting: seq<Slot>, now: nat, launches: seq<P.Step>, turns: seq<PlayedTurn>, k: nat)
    requires P.Fresh(start) && Distinct(wanting) && Woven(start, launches, CohortOps(wanting))
    requires P.Runs(start, launches) ==> LoopPlays(P.After(start, launches), StartedLoop(start.gate, wanting, now), turns)
    requires k <= |launches + AllTurnSteps(turns)|
    ensures var steps := (launches + AllTurnSteps(turns))[..k];
      P.Runs(start, steps) && P.Reached(start, steps, P.After(start, steps))
  {
    P.FreshHolds(start);
    CohortStartsAProtocolRun(start, wanting, now, launches);
    LoopStartsSteady(start.gate, wanting, now);
    EveryLoopRunIsAProtocolRun(P.After(start, launches), StartedLoop(start.gate, wanting, now), turns);
    P.RunsConcat(start, launches, AllTurnSteps(turns));
    P.RunsPrefix(start, launches + AllTurnSteps(turns), k);
  }
}
