/**
 The cohort scheduler (`run_agent_pool`, `_refill_finished_slots` and
 `_refill_outcome` in lib/audit_runner.py) as functions on its state: which
 finished slot launches again, and what a round does to the sealed gate.

 Readings the scheduler takes from outside, such as the work queue, the clock
 and what a session reports, are fields of `Ended` and `RoundInput`.
 */
module PoolRules {
  import opened Common
  import opened GateRules

  datatype Issue = NoIssue | CapacityLimited | TransientIssue | BackendRejected | Internal
  datatype Outcome = Provider | Continue | Clean | Deadline | Failed
  datatype Policy = CohortEra | AnyPeer

  const DEADLINE_RETURN_CODE := 124

  /** A session that ended: what it reports, the artifacts its transcript names,
      and the readings taken when its slot is considered again. */
  datatype Ended = Ended(
    agent: Slot, issue: Issue, turnCapped: bool, returnCode: int, names: set<Artifact>,
    skipLaunch: bool, didWork: bool, remaining: int)

  predicate Halting(e: Ended) {
    e.issue.CapacityLimited? || e.issue.TransientIssue? || e.issue.BackendRejected?
  }

  function RefillOutcome(e: Ended): Outcome {
    if !e.issue.NoIssue? then Provider
    else if e.turnCapped then Continue
    else if e.returnCode == 0 then Clean
    else if e.returnCode == DEADLINE_RETURN_CODE then Deadline
    else Failed
  }

  /** A session in flight. `initial` marks the cohort the pool started with,
      `era` a session launched while one of those was still running. */
  datatype Session = Session(agent: Slot, initial: bool, era: bool, launchedAt: nat)

  /** One refill launch: how the session it follows ended, and what was in flight. */
  datatype Refill = Refill(agent: Slot, capped: bool, returnCode: int, cohort: bool, era: bool)

  datatype Pool = Pool(
    gate: Gate,
    futures: map<nat, Session>,
    next: nat,
    retried: set<Slot>,
    overtime: set<Slot>,
    halted: bool,
    launchedNow: set<Slot>,
    log: seq<Refill>)

  function Submitted(p: Pool, s: Session, continuation: bool): Pool {
    p.(gate := Launched(p.gate, s.agent, continuation),
       futures := p.futures[p.next := s], next := p.next + 1,
       launchedNow := p.launchedNow + {s.agent})
  }

  function EmptyPool(g: Gate): Pool {
    Pool(g, map[], 0, {}, {}, false, {}, [])
  }

  /** The cohort: one initial session for each agent. */
  function Started(p: Pool, agents: seq<Slot>, now: nat): Pool {
    if agents == [] then p
    else
      var last := |agents| - 1;
      Submitted(Started(p, agents[..last], now), Session(agents[last], true, true, now), false)
  }

  /** Whether the pool may spend a launch on this slot at all. */
  predicate Refillable(p: Pool, e: Ended, cohort: bool, era: bool, policy: Policy) {
    && (!cohort ==> e.agent !in p.overtime && (era || policy.AnyPeer?))
    && (match RefillOutcome(e)
        case Provider => false
        case Deadline => false
        case Continue => true
        case Clean => !e.skipLaunch && e.didWork
        case Failed => e.agent !in p.retried)
    && 0 < e.remaining
  }

  function RefillOne(p: Pool, e: Ended, cohort: bool, era: bool, policy: Policy, now: nat): Pool {
    if !Refillable(p, e, cohort, era, policy) then p
    else
      var outcome := RefillOutcome(e);
      var q := p.(retried := if outcome.Failed? then p.retried + {e.agent} else p.retried,
                  overtime := if cohort then p.overtime else p.overtime + {e.agent},
                  log := p.log + [Refill(e.agent, e.turnCapped, e.returnCode, cohort, era)]);
      Submitted(q, Session(e.agent, false, cohort, now), outcome.Continue? || outcome.Failed?)
  }

  function RefillAll(p: Pool, finished: seq<Ended>, cohort: bool, era: bool, policy: Policy, now: nat): Pool {
    if finished == [] then p
    else
      var last := |finished| - 1;
      RefillOne(RefillAll(p, finished[..last], cohort, era, policy, now), finished[last], cohort, era, policy, now)
  }

  function AttributeAll(g: Gate, finished: seq<Ended>): Gate {
    if finished == [] then g
    else
      var e := finished[|finished| - 1];
      Attributed(AttributeAll(g, finished[..|finished| - 1]), e.agent, e.names)
  }

  function RetireAll(g: Gate, finished: seq<Ended>, launchedNow: set<Slot>): Gate {
    if finished == [] then g
    else
      var e := finished[|finished| - 1];
      var before := RetireAll(g, finished[..|finished| - 1], launchedNow);
      if e.agent in launchedNow then before else Retired(before, e.agent)
  }

  predicate CohortRunning(futures: map<nat, Session>) {
    exists f :: f in futures && futures[f].initial
  }

  predicate EraRunning(futures: map<nat, Session>) {
    exists f :: f in futures && futures[f].era
  }

  /** One turn of the pool's loop: the futures found done, in order, what each
      reports, and what the look at the tree finds. */
  datatype RoundInput = RoundInput(
    done: seq<nat>, ends: seq<Ended>, artifacts: set<Artifact>, unfinished: set<Artifact>, now: nat)

  datatype Settings = Settings(policy: Policy, refillWorkers: bool)

  predicate AnyHalting(ends: seq<Ended>) {
    exists e :: e in ends && Halting(e)
  }

  function Gathered(done: seq<nat>): set<nat> {
    set f | f in done
  }

  /** The state in which refills are decided: results collected, writers named,
      the tree observed. */
  function Collected(p: Pool, r: RoundInput): Pool {
    p.(gate := Stamped(AttributeAll(p.gate, r.ends), r.artifacts, r.unfinished),
       futures := p.futures - Gathered(r.done),
       halted := p.halted || AnyHalting(r.ends),
       launchedNow := {})
  }

  predicate Refills(q: Pool, settings: Settings) {
    q.futures != map[] && !q.halted && settings.refillWorkers
  }

  function Refilled(q: Pool, r: RoundInput, settings: Settings): Pool {
    if Refills(q, settings) then
      RefillAll(q, r.ends, CohortRunning(q.futures), EraRunning(q.futures), settings.policy, r.now)
    else q
  }

  function Rounded(p: Pool, r: RoundInput, settings: Settings): Pool {
    var q := Refilled(Collected(p, r), r, settings);
    q.(gate := RetireAll(q.gate, r.ends, q.launchedNow))
  }

  // ------------------------------------------------------------ what holds at every loop head

  function Agents(futures: map<nat, Session>): set<Slot> {
    set f | f in futures :: futures[f].agent
  }

  ghost predicate OneEach(futures: map<nat, Session>) {
    forall f, g :: f in futures && g in futures && f != g ==> futures[f].agent != futures[g].agent
  }

  ghost predicate Coupled(p: Pool) {
    && WellTicked(p.gate)
    && p.gate.chains.Keys == Agents(p.futures)
    && OneEach(p.futures)
    && (forall f :: f in p.futures ==> f < p.next)
  }

  /** What a turn of the loop reports about the futures it found done. */
  ghost predicate Reports(p: Pool, r: RoundInput) {
    && |r.done| == |r.ends|
    && Distinct(r.done)
    && (forall i :: 0 <= i < |r.done| ==> r.done[i] in p.futures && r.ends[i].agent == p.futures[r.done[i]].agent)
  }

  function EndedAgents(ends: seq<Ended>): set<Slot> {
    set e | e in ends :: e.agent
  }

  lemma AttributeAllKeeps(g: Gate, ends: seq<Ended>)
    requires WellTicked(g)
    ensures WellTicked(AttributeAll(g, ends))
    ensures AttributeAll(g, ends).chains == g.chains
  {
    if ends != [] {
      var e := ends[|ends| - 1];
      AttributeAllKeeps(g, ends[..|ends| - 1]);
      ApplyKeepsWellTicked(AttributeAll(g, ends[..|ends| - 1]), Attribute(e.agent, e.names));
    }
  }

  lemma RetireAllKeeps(g: Gate, ends: seq<Ended>, launchedNow: set<Slot>)
    requires WellTicked(g)
    ensures WellTicked(RetireAll(g, ends, launchedNow))
    ensures RetireAll(g, ends, launchedNow).chains.Keys == g.chains.Keys - (EndedAgents(ends) - launchedNow)
  {
    if ends != [] {
      var rest, e := ends[..|ends| - 1], ends[|ends| - 1];
      assert ends == rest + [e];
      RetireAllKeeps(g, rest, launchedNow);
      assert EndedAgents(ends) == EndedAgents(rest) + {e.agent} by {
        forall x | x in EndedAgents(rest) + {e.agent} ensures x in EndedAgents(ends) {
          if x == e.agent { assert e in ends; } else { var y :| y in rest && y.agent == x; assert y in ends; }
        }
      }
    }
  }
}
