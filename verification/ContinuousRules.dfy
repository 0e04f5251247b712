/**
 The continuous scheduler (`run_continuous` in lib/audit_runner.py): a slot
 that finishes relaunches at once if it wants to, a steward tick re-asks the
 idle slots, and nothing waits at a barrier before the last slot drains.

 It shares the futures, the gate and the collecting and retiring of finished
 slots with the cohort scheduler, so its state contains a `Pool`.
 */
module ContinuousRules {
  import opened Common
  import opened GateRules
  import opened PoolRules
  import opened PoolRuns

  const CLEAN_RELAUNCH_CAP := 2

  datatype Loop = Loop(pool: Pool, idle: set<Slot>, clean: map<Slot, nat>, stalled: bool)

  /** One steward tick: whether the generation stalled, the idle slots in the
      order they are asked, those with work, and a second look at the tree. */
  datatype Steer = Steer(stalled: bool, order: seq<Slot>, able: set<Slot>, artifacts: set<Artifact>, unfinished: set<Artifact>)

  /** One turn of the loop.  `due` is the steward tick when its interval has
      elapsed; the ceiling on generations is read before and after it. */
  datatype Turn = Turn(input: RoundInput, due: Option<Steer>, ceilingBefore: bool, ceilingAfter: bool)

  /** The loop as it is entered: one session for each slot that wants one. */
  function StartedLoop(g: Gate, wanting: seq<Slot>, now: nat): Loop {
    Loop(Started(EmptyPool(g), wanting, now), {}, map[], false)
  }

  function CleanTaken(l: Loop, agent: Slot): nat {
    if agent in l.clean then l.clean[agent] else 0
  }

  predicate MayLaunch(l: Loop, ceiling: bool) {
    !l.pool.halted && !l.stalled && !ceiling
  }

  /** `wants_launch` for a slot whose session just ended. */
  predicate WantsRelaunch(l: Loop, e: Ended, ceiling: bool) {
    && MayLaunch(l, ceiling)
    && 0 < e.remaining
    && (match RefillOutcome(e)
        case Provider => false
        case Deadline => false
        case Failed => e.agent !in l.pool.retried
        case Continue => true
        case Clean => !e.skipLaunch && e.didWork && CleanTaken(l, e.agent) < CLEAN_RELAUNCH_CAP)
  }

  function FinishOne(l: Loop, e: Ended, ceiling: bool, now: nat): Loop {
    if !WantsRelaunch(l, e, ceiling) then l.(idle := l.idle + {e.agent})
    else
      var outcome := RefillOutcome(e);
      var p := l.pool.(retried := if outcome.Failed? then l.pool.retried + {e.agent} else l.pool.retried,
                       log := l.pool.log + [Refill(e.agent, e.turnCapped, e.returnCode, true, true)]);
      l.(clean := if outcome.Clean? then l.clean[e.agent := CleanTaken(l, e.agent) + 1] else l.clean,
         pool := Submitted(p, Session(e.agent, false, false, now), outcome.Continue? || outcome.Failed?))
  }

  function FinishAll(l: Loop, ends: seq<Ended>, ceiling: bool, now: nat): Loop {
    if ends == [] then l
    else FinishOne(FinishAll(l, ends[..|ends| - 1], ceiling, now), ends[|ends| - 1], ceiling, now)
  }

  function AskOne(l: Loop, agent: Slot, able: set<Slot>, ceiling: bool, now: nat): Loop {
    if MayLaunch(l, ceiling) && agent in able then
      l.(idle := l.idle - {agent}, pool := Submitted(l.pool, Session(agent, false, false, now), false))
    else l
  }

  function AskAll(l: Loop, order: seq<Slot>, able: set<Slot>, ceiling: bool, now: nat): Loop {
    if order == [] then l
    else AskOne(AskAll(l, order[..|order| - 1], able, ceiling, now), order[|order| - 1], able, ceiling, now)
  }

  /** Results collected, writers named, and the tree observed when anything
      finished. */
  function Gathering(l: Loop, r: RoundInput): Loop {
    l.(pool := if r.done == [] then l.pool.(launchedNow := {}) else Collected(l.pool, r))
  }

  function Steered(l: Loop, t: Turn): Loop {
    if t.due.None? || l.pool.halted || t.ceilingBefore then l
    else
      var s := t.due.value;
      if s.stalled then l.(clean := map[], stalled := true)
      else
        var m := l.(clean := map[], pool := l.pool.(gate := Stamped(l.pool.gate, s.artifacts, s.unfinished)));
        AskAll(m, s.order, s.able, t.ceilingAfter, t.input.now)
  }

  function Decided(l: Loop, t: Turn): Loop {
    FinishAll(Steered(Gathering(l, t.input), t), t.input.ends, t.ceilingAfter, t.input.now)
  }

  function Turned(l: Loop, t: Turn): Loop {
    var f := Decided(l, t);
    f.(pool := f.pool.(gate := RetireAll(f.pool.gate, t.input.ends, f.pool.launchedNow)))
  }

  // ------------------------------------------------------------ what holds at every loop head

  ghost predicate Steady(l: Loop) {
    && Coupled(l.pool)
    && Agents(l.pool.futures) !! l.idle
    && (forall a :: a in l.clean ==> l.clean[a] <= CLEAN_RELAUNCH_CAP)
  }

  lemma LoopStartsSteady(g: Gate, wanting: seq<Slot>, now: nat)
    requires WellTicked(g) && g.chains == map[] && Distinct(wanting)
    ensures var l := StartedLoop(g, wanting, now);
      Steady(l) && l.pool.log == [] && l.pool.retried == {} && Agents(l.pool.futures) == set a | a in wanting
  {
    CohortStartsCoupled(EmptyPool(g), wanting, now);
  }

  ghost predicate Told(l: Loop, t: Turn) {
    && Reports(l.pool, t.input)
    && (t.due.Some? ==> Distinct(t.due.value.order) && forall a :: a in t.due.value.order <==> a in l.idle)
  }

  /** Part way through a turn: `waiting` are the slots in flight throughout or
      launched from idle, `free` those collected this turn. */
  ghost predicate MidTurn(l: Loop, waiting: set<Slot>, free: set<Slot>, decided: set<Slot>) {
    && MidRound(l.pool, waiting, free)
    && l.idle !! waiting
    && decided <= free
    && (forall a :: a in free ==> (a in l.idle <==> a in decided && a !in l.pool.launchedNow))
    && (forall a :: a in free && a in l.pool.launchedNow ==> a in decided)
    && (forall a :: a in l.clean ==> l.clean[a] <= CLEAN_RELAUNCH_CAP)
  }

  /** The idle slots that launch when they are asked. */
  function Joining(l: Loop, order: seq<Slot>, able: set<Slot>, ceiling: bool): set<Slot> {
    if MayLaunch(l, ceiling) then set a | a in order && a in able else {}
  }

  /** Nothing but launches of idle slots lies between `l` and `m`. */
  ghost predicate OnlyJoined(l: Loop, m: Loop, joined: set<Slot>) {
    && m.idle == l.idle - joined
    && m.pool.log == l.pool.log && m.pool.retried == l.pool.retried && m.pool.halted == l.pool.halted && m.stalled == l.stalled
  }

  lemma {:induction false} AskingKeepsMidTurn(
      l: Loop, order: seq<Slot>, able: set<Slot>, ceiling: bool, now: nat, waiting: set<Slot>, free: set<Slot>)
    requires MidTurn(l, waiting, free, {}) && Distinct(order)
    requires forall a :: a in order ==> a in l.idle
    ensures var m, joined := AskAll(l, order, able, ceiling, now), Joining(l, order, able, ceiling);
      MidTurn(m, waiting + joined, free, {}) && OnlyJoined(l, m, joined)
  {
    if order != [] {
      var rest, a := order[..|order| - 1], order[|order| - 1];
      AskingKeepsMidTurn(l, rest, able, ceiling, now, waiting, free);
      LastAsked(order);
      var m, joined := AskAll(l, rest, able, ceiling, now), Joining(l, rest, able, ceiling);
      if MayLaunch(m, ceiling) && a in able {
        OneAskedKeepsMidTurn(l, m, a, able, ceiling, now, waiting + joined, joined, free);
        assert Joining(l, order, able, ceiling) == joined + {a};
        assert waiting + joined + {a} == waiting + (joined + {a});
      } else {
        assert Joining(l, order, able, ceiling) == joined;
      }
    } else {
      assert waiting + {} == waiting && l.idle - {} == l.idle;
    }
  }

  lemma OneAskedKeepsMidTurn(
      l: Loop, m: Loop, a: Slot, able: set<Slot>, ceiling: bool, now: nat, waiting: set<Slot>, joined: set<Slot>, free: set<Slot>)
    requires MidTurn(m, waiting, free, {}) && OnlyJoined(l, m, joined)
    requires a in m.idle && a in able && MayLaunch(m, ceiling)
    ensures var v := AskOne(m, a, able, ceiling, now); MidTurn(v, waiting + {a}, free, {}) && OnlyJoined(l, v, joined + {a})
  {
    IdleLaunchKeepsMidRound(m.pool, Session(a, false, false, now), waiting, free);
  }

  lemma LastAsked(order: seq<Slot>)
    requires Distinct(order) && order != []
    ensures var rest, a := order[..|order| - 1], order[|order| - 1];
      Distinct(rest) && a !in rest && forall x :: x in order <==> x in rest || x == a
  {
    var rest, a := order[..|order| - 1], order[|order| - 1];
    assert order == rest + [a];
    forall b | b in rest ensures b != a {
      var i :| 0 <= i < |rest| && rest[i] == b;
      assert order[i] == b;
    }
  }

  lemma FinishOneKeepsMidTurn(l: Loop, e: Ended, ceiling: bool, now: nat, waiting: set<Slot>, free: set<Slot>, decided: set<Slot>)
    requires MidTurn(l, waiting, free, decided) && e.agent in free && e.agent !in decided
    ensures MidTurn(FinishOne(l, e, ceiling, now), waiting, free, decided + {e.agent})
  {
    if WantsRelaunch(l, e, ceiling) {
      var outcome := RefillOutcome(e);
      var p := l.pool.(retried := if outcome.Failed? then l.pool.retried + {e.agent} else l.pool.retried,
                       log := l.pool.log + [Refill(e.agent, e.turnCapped, e.returnCode, true, true)]);
      assert MidRound(p, waiting, free);
      SubmitKeepsMidRound(p, Session(e.agent, false, false, now), outcome.Continue? || outcome.Failed?, waiting, free);
    }
  }

  lemma {:induction false} FinishingKeepsMidTurn(l: Loop, ends: seq<Ended>, ceiling: bool, now: nat, waiting: set<Slot>, free: set<Slot>)
    requires MidTurn(l, waiting, free, {}) && EndedAgents(ends) <= free
    requires forall i, j :: 0 <= i < j < |ends| ==> ends[i].agent != ends[j].agent
    ensures MidTurn(FinishAll(l, ends, ceiling, now), waiting, free, EndedAgents(ends))
  {
    if ends != [] {
      var rest, e := ends[..|ends| - 1], ends[|ends| - 1];
      assert ends == rest + [e] && e in ends;
      forall x | x in rest ensures x.agent != e.agent && x in ends {
        var i :| 0 <= i < |rest| && rest[i] == x;
        assert ends[i] == x;
      }
      assert EndedAgents(ends) == EndedAgents(rest) + {e.agent} by { assert e.agent in EndedAgents(ends); }
      FinishingKeepsMidTurn(l, rest, ceiling, now, waiting, free);
      FinishOneKeepsMidTurn(FinishAll(l, rest, ceiling, now), e, ceiling, now, waiting, free, EndedAgents(rest));
    }
  }

  lemma GatheringLeavesMidTurn(l: Loop, t: Turn)
    requires Steady(l) && Told(l, t)
    ensures var g := Gathering(l, t.input);
      && MidTurn(g, Agents(g.pool.futures), EndedAgents(t.input.ends), {})
      && Agents(g.pool.futures) + EndedAgents(t.input.ends) == Agents(l.pool.futures)
      && (forall i, j :: 0 <= i < j < |t.input.ends| ==> t.input.ends[i].agent != t.input.ends[j].agent)
      && g.pool.launchedNow == {}
  {
    var g := Gathering(l, t.input);
    if t.input.done == [] {
      assert EndedAgents(t.input.ends) == {};
    } else {
      CollectingLeavesMidRound(l.pool, t.input);
      AttributeAllKeeps(l.pool.gate, t.input.ends);
      assert g.pool.gate.chains == l.pool.gate.chains;
    }
  }

  predicate Steers(l: Loop, t: Turn) {
    t.due.Some? && !l.pool.halted && !t.ceilingBefore && !t.due.value.stalled
  }

  /** The state in which the idle slots are asked. */
  function Looked(l: Loop, s: Steer): Loop {
    l.(clean := map[], pool := l.pool.(gate := Stamped(l.pool.gate, s.artifacts, s.unfinished)))
  }

  /** The idle slots the steward tick brings back. */
  function Rejoining(l: Loop, t: Turn): set<Slot> {
    if Steers(l, t) then Joining(Looked(l, t.due.value), t.due.value.order, t.due.value.able, t.ceilingAfter) else {}
  }

  ghost predicate AsksTheIdle(l: Loop, t: Turn) {
    t.due.Some? ==> Distinct(t.due.value.order) && forall a :: a in t.due.value.order <==> a in l.idle
  }

  lemma LookingKeepsMidTurn(l: Loop, s: Steer, waiting: set<Slot>, free: set<Slot>)
    requires MidTurn(l, waiting, free, {})
    ensures MidTurn(Looked(l, s), waiting, free, {})
  {
    ApplyKeepsWellTicked(l.pool.gate, Stamp(s.artifacts, s.unfinished));
  }

  lemma SteeringKeepsMidTurn(l: Loop, t: Turn, waiting: set<Slot>, free: set<Slot>)
    requires MidTurn(l, waiting, free, {}) && AsksTheIdle(l, t)
    ensures MidTurn(Steered(l, t), waiting + Rejoining(l, t), free, {})
    ensures Rejoining(l, t) <= l.idle && Steered(l, t).idle == l.idle - Rejoining(l, t)
  {
    if Steers(l, t) {
      var s := t.due.value;
      LookingKeepsMidTurn(l, s, waiting, free);
      AskingKeepsMidTurn(Looked(l, s), s.order, s.able, t.ceilingAfter, t.input.now, waiting, free);
    } else {
      assert waiting + {} == waiting && l.idle - {} == l.idle;
    }
  }

  function Slots(l: Loop): set<Slot> {
    Agents(l.pool.futures) + l.idle
  }

  lemma EndingTheTurn(f: Loop, ends: seq<Ended>, waiting: set<Slot>)
    requires MidTurn(f, waiting, EndedAgents(ends), EndedAgents(ends))
    ensures Steady(f.(pool := f.pool.(gate := RetireAll(f.pool.gate, ends, f.pool.launchedNow))))
    ensures forall x :: x in Slots(f) <==> x in waiting || x in EndedAgents(ends) || x in f.idle
  {
    RetiringEndsTheRound(f.pool, ends, waiting);
    var free := EndedAgents(ends);
    forall x ensures x in Agents(f.pool.futures) <==> x in waiting || (x in f.pool.launchedNow && x in free) {}
  }

  lemma DecidingKeepsMidTurn(s: Loop, t: Turn, waiting: set<Slot>)
    requires MidTurn(s, waiting, EndedAgents(t.input.ends), {})
    requires forall i, j :: 0 <= i < j < |t.input.ends| ==> t.input.ends[i].agent != t.input.ends[j].agent
    ensures var f, free := FinishAll(s, t.input.ends, t.ceilingAfter, t.input.now), EndedAgents(t.input.ends);
      && MidTurn(f, waiting, free, free)
      && s.idle <= f.idle <= s.idle + free
  {
    FinishingKeepsMidTurn(s, t.input.ends, t.ceilingAfter, t.input.now, waiting, EndedAgents(t.input.ends));
    FinishingOnlyIdles(s, t.input.ends, t.ceilingAfter, t.input.now);
  }

  /** The slots in flight or collected that a turn does not end with as idle. */
  function Flying(l: Loop, t: Turn): set<Slot> {
    Agents(Gathering(l, t.input).pool.futures) + Rejoining(Gathering(l, t.input), t)
  }

  lemma DecidedIsMidTurn(l: Loop, t: Turn)
    requires Steady(l) && Told(l, t)
    ensures MidTurn(Decided(l, t), Flying(l, t), EndedAgents(t.input.ends), EndedAgents(t.input.ends))
    ensures forall x :: x in Flying(l, t) || x in EndedAgents(t.input.ends) || x in Decided(l, t).idle <==> x in Slots(l)
  {
    GatheringLeavesMidTurn(l, t);
    var g := Gathering(l, t.input);
    SteeringKeepsMidTurn(g, t, Agents(g.pool.futures), EndedAgents(t.input.ends));
    DecidingKeepsMidTurn(Steered(g, t), t, Flying(l, t));
  }

  /** At every loop head the gate's chains are exactly the slots in flight, one
      session each, and no idle slot is among them.  Slots are conserved: one
      that has run is in flight or idle for ever after, and a slot that found
      no work before the loop began never joins. */
  lemma TurnKeepsSteady(l: Loop, t: Turn)
    requires Steady(l) && Told(l, t)
    ensures Steady(Turned(l, t))
    ensures Slots(Turned(l, t)) == Slots(l)
  {
    DecidedIsMidTurn(l, t);
    var f := Decided(l, t);
    EndingTheTurn(f, t.input.ends, Flying(l, t));
    assert Slots(Turned(l, t)) == Slots(f);
    assert forall x :: x in Slots(f) <==> x in Slots(l);
  }

  lemma {:induction false} FinishingOnlyIdles(l: Loop, ends: seq<Ended>, ceiling: bool, now: nat)
    ensures var m := FinishAll(l, ends, ceiling, now);
      l.idle <= m.idle <= l.idle + EndedAgents(ends)
  {
    if ends != [] {
      var rest, e := ends[..|ends| - 1], ends[|ends| - 1];
      FinishingOnlyIdles(l, rest, ceiling, now);
      assert e in ends && forall x :: x in rest ==> x in ends;
    }
  }

  // ------------------------------------------------------------ what becomes of one slot

  /** How the loop reuses a slot, from what its session reports.  A capped session
      goes on; a clean one is followed by a fresh chain while work remains, at
      most twice between two steward ticks; any other exit is retried once, in
      the same chain; and every other slot turns idle. */
  lemma ReuseOfAFinishedSlot(l: Loop, e: Ended, ceiling: bool, now: nat)
    ensures var m := FinishOne(l, e, ceiling, now);
      var taken := if e.agent in l.clean then l.clean[e.agent] else 0;
      var leave := e.issue.NoIssue? && 0 < e.remaining && !l.pool.halted && !l.stalled && !ceiling;
      && m.stalled == l.stalled
      && if leave && e.turnCapped then
           Reflown(l, m, e, now, true) && m.pool.retried == l.pool.retried && m.clean == l.clean
         else if leave && e.returnCode == 0 && !e.skipLaunch && e.didWork && taken < 2 then
           Reflown(l, m, e, now, false) && m.pool.retried == l.pool.retried && m.clean == l.clean[e.agent := taken + 1]
         else if leave && e.returnCode !in {0, 124} && e.agent !in l.pool.retried then
           Reflown(l, m, e, now, true) && m.pool.retried == l.pool.retried + {e.agent} && m.clean == l.clean
         else m == l.(idle := l.idle + {e.agent})
  {
  }

  /** One more session of `e.agent` in flight. */
  ghost predicate Reflown(l: Loop, m: Loop, e: Ended, now: nat, continues: bool) {
    && ChainAfter(l.pool.gate, m.pool.gate, e.agent, continues)
    && m.idle == l.idle
    && m.pool.futures == l.pool.futures[l.pool.next := Session(e.agent, false, false, now)] && m.pool.next == l.pool.next + 1
    && m.pool.launchedNow == l.pool.launchedNow + {e.agent}
    && m.pool.halted == l.pool.halted && m.pool.overtime == l.pool.overtime
    && m.pool.log == l.pool.log + [Refill(e.agent, e.turnCapped, e.returnCode, true, true)]
  }

  /** A steward tick asks the idle slots: one with work launches a fresh chain
      unless a halt, a stall or the ceiling on generations forbids it. */
  lemma ReuseOfAnIdleSlot(l: Loop, agent: Slot, able: set<Slot>, ceiling: bool, now: nat)
    ensures var m := AskOne(l, agent, able, ceiling, now);
      if agent in able && !l.pool.halted && !l.stalled && !ceiling then
        && ChainAfter(l.pool.gate, m.pool.gate, agent, false)
        && m.idle == l.idle - {agent} && m.clean == l.clean && m.stalled == l.stalled
        && m.pool.futures == l.pool.futures[l.pool.next := Session(agent, false, false, now)] && m.pool.next == l.pool.next + 1
        && m.pool.launchedNow == l.pool.launchedNow + {agent}
        && m.pool.retried == l.pool.retried && m.pool.halted == l.pool.halted
      else m == l
  {
  }

  lemma {:induction false} AskingLaunches(l: Loop, order: seq<Slot>, able: set<Slot>, ceiling: bool, now: nat)
    ensures var m := AskAll(l, order, able, ceiling, now);
      var able := set a | a in order && a in able && !l.pool.halted && !l.stalled && !ceiling;
      && m.idle == l.idle - able && m.pool.launchedNow == l.pool.launchedNow + able
      && m.clean == l.clean && m.stalled == l.stalled && m.pool.halted == l.pool.halted
      && m.pool.gate.firstSeen == l.pool.gate.firstSeen && m.pool.gate.touched == l.pool.gate.touched
  {
    if order != [] {
      SplitLast(order);
      AskingLaunches(l, order[..|order| - 1], able, ceiling, now);
    }
  }

  /** A due tick does nothing after a halt or at the ceiling.  Otherwise the clean
      counts start again; a stall launches nothing and is remembered; and without
      one the tree is looked at, and exactly the idle slots with work launch. */
  lemma WhatATickDoes(l: Loop, t: Turn)
    ensures var m := Steered(l, t);
      if t.due.None? || l.pool.halted || t.ceilingBefore then m == l
      else
        && m.clean == map[] && m.stalled == (l.stalled || t.due.value.stalled)
        && (t.due.value.stalled ==> m.pool == l.pool && m.idle == l.idle)
        && (!t.due.value.stalled ==>
              var able := set a | a in t.due.value.order && a in t.due.value.able && !l.stalled && !t.ceilingAfter;
              && m.idle == l.idle - able && m.pool.launchedNow == l.pool.launchedNow + able
              && m.pool.gate.firstSeen == Stamped(l.pool.gate, t.due.value.artifacts, t.due.value.unfinished).firstSeen
              && m.pool.gate.touched == l.pool.gate.touched)
  {
    if t.due.Some? {
      AskingLaunches(Looked(l, t.due.value), t.due.value.order, t.due.value.able, t.ceilingAfter, t.input.now);
    }
  }

  // ------------------------------------------------------------ retries and halts

  /** No slot has two launches behind an exit that is neither clean, capped nor
      out of time. */
  ghost predicate RetriedOnce(l: Loop) {
    && (forall i, j :: 0 <= i < j < |l.pool.log| && RETRY(l.pool.log[i]) && RETRY(l.pool.log[j])
          ==> l.pool.log[i].agent != l.pool.log[j].agent)
    && (forall i :: 0 <= i < |l.pool.log| && RETRY(l.pool.log[i]) ==> l.pool.log[i].agent in l.pool.retried)
  }

  lemma {:induction false} FinishingRetriesOnce(l: Loop, ends: seq<Ended>, ceiling: bool, now: nat)
    requires RetriedOnce(l)
    ensures var m := FinishAll(l, ends, ceiling, now);
      && RetriedOnce(m) && m.pool.halted == l.pool.halted && m.stalled == l.stalled
      && (!MayLaunch(l, ceiling) ==> m.pool.log == l.pool.log && m.pool.futures == l.pool.futures)
  {
    if ends != [] {
      FinishingRetriesOnce(l, ends[..|ends| - 1], ceiling, now);
    }
  }

  lemma {:induction false} AskingNeedsLeave(l: Loop, order: seq<Slot>, able: set<Slot>, ceiling: bool, now: nat)
    ensures var m := AskAll(l, order, able, ceiling, now);
      && m.pool.log == l.pool.log && m.pool.retried == l.pool.retried && m.pool.halted == l.pool.halted && m.stalled == l.stalled
      && (!MayLaunch(l, ceiling) ==> m == l)
  {
    if order != [] {
      AskingNeedsLeave(l, order[..|order| - 1], able, ceiling, now);
    }
  }

  /** A failed slot is retried once in the whole run; a provider halt or a stall
      stops every launch, in the turn that reports it and in every later one. */
  lemma TurnRetriesOnceAndHonoursHalts(l: Loop, t: Turn)
    requires RetriedOnce(l)
    ensures var m := Turned(l, t);
      && RetriedOnce(m)
      && (l.pool.halted ==> m.pool.halted) && (l.stalled ==> m.stalled)
      && (t.input.done != [] && AnyHalting(t.input.ends) ==> m.pool.halted)
      && (m.pool.halted || m.stalled ==> m.pool.futures == Gathering(l, t.input).pool.futures && m.pool.log == l.pool.log)
  {
    var g := Gathering(l, t.input);
    if t.due.Some? && !g.pool.halted && !t.ceilingBefore && !t.due.value.stalled {
      var s := t.due.value;
      AskingNeedsLeave(Looked(g, s), s.order, s.able, t.ceilingAfter, t.input.now);
    }
    FinishingRetriesOnce(Steered(g, t), t.input.ends, t.ceilingAfter, t.input.now);
  }

  ghost predicate TurnsFrom(l: Loop, turns: seq<Turn>)
    decreases |turns|
  {
    turns == [] || (Told(l, turns[0]) && TurnsFrom(Turned(l, turns[0]), turns[1..]))
  }

  ghost function AfterTurns(l: Loop, turns: seq<Turn>): Loop
    decreases |turns|
  {
    if turns == [] then l else AfterTurns(Turned(l, turns[0]), turns[1..])
  }

  lemma {:induction false} EveryRunIsSteady(l: Loop, turns: seq<Turn>)
    requires Steady(l) && RetriedOnce(l) && TurnsFrom(l, turns)
    ensures var m := AfterTurns(l, turns);
      && Steady(m) && RetriedOnce(m)
      && (forall i, j | 0 <= i < j < |m.pool.log| && !m.pool.log[i].capped && m.pool.log[i].returnCode !in {0, 124}
                        && !m.pool.log[j].capped && m.pool.log[j].returnCode !in {0, 124} :: m.pool.log[i].agent != m.pool.log[j].agent)
      && Slots(m) == Slots(l)
      && (l.pool.halted || l.stalled ==> m.pool.log == l.pool.log && m.pool.futures.Keys <= l.pool.futures.Keys)
    decreases |turns|
  {
    if turns != [] {
      TurnKeepsSteady(l, turns[0]);
      TurnRetriesOnceAndHonoursHalts(l, turns[0]);
      EveryRunIsSteady(Turned(l, turns[0]), turns[1..]);
    }
  }
}
