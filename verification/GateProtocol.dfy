/**
 The sealed gate together with everything that moves around it: sessions that
 write artifacts, the scheduler loop that reaps ended sessions and relaunches
 or retires their slots (`run_agent_pool` and `run_continuous` in
 lib/audit_runner.py), and the looks of the gate thread.

 `World` is one state of all that.  `gate` is what the program keeps.  `actual`
 records the same events at the time they really happened: its clock moves at
 every step, a chain holds the time it began, first-seen the time of the look
 that stamped, and a touch the time it was recorded.  The other fields are the
 tree, the stage of each slot in flight, and history: when an artifact was
 first complete since a look last found it open, when it was last completed,
 and which chain filed a finding.

 Three hypotheses of the gate are guards of the steps:

   * an artifact name is never reused once it has left the tree (`gone`);
   * a session's transcript names every finding the session wrote;
   * a finding is written by the chain that filed it only, and no other
     session names it before the session that filed it has ended.
 */
module GateProtocol {
  import opened Common
  import opened GateRules

  /** The chain that filed a finding: a slot and the time its chain began. */
  datatype Filing = Filing(slot: Slot, began: nat)

  /** Where a slot in flight stands: its session is writing; has ended, with
      the names in its transcript; has been collected by the scheduler; or has
      been attributed and awaits a relaunch or retirement. */
  datatype Stage = Running(wrote: set<Artifact>) | Ended(names: set<Artifact>) | Reaped(names: set<Artifact>) | Settled

  datatype World = World(
    gate: Gate,
    actual: Gate,
    stage: map<Slot, Stage>,
    disk: map<Artifact, bool>,
    gone: set<Artifact>,
    completedAt: map<Artifact, nat>,
    latestAt: map<Artifact, nat>,
    foundOpenAt: map<Artifact, nat>,
    author: map<Artifact, Filing>,
    released: set<Artifact>)

  datatype Step =
    | Write(slot: Slot, a: Artifact, complete: bool)
    | Harness(a: Artifact, complete: bool)
    | Vanish(a: Artifact)
    | End(slot: Slot, names: set<Artifact>)
    | Reap
    | Gating(op: GateOp)

  predicate BatchDone(w: World) {
    forall s :: s in w.stage ==> !w.stage[s].Reaped?
  }

  /** Every guard but the last of the hypotheses. */
  predicate Possible(w: World, step: Step) {
    match step
    case Write(s, a, _) =>
      && s in w.stage && w.stage[s].Running? && s in w.actual.chains && a !in w.gone
      && (a.Finding? ==> if a in w.author then w.author[a] == Filing(s, w.actual.chains[s]) else a !in w.disk)
    case Harness(a, _) => a !in w.gone
    case Vanish(a) => a in w.disk
    case End(s, names) =>
      && s in w.stage && w.stage[s].Running?
      && (forall a :: a in w.stage[s].wrote && a.Finding? ==> a in names)
    case Reap => BatchDone(w) && forall s :: s in w.stage ==> !w.stage[s].Settled?
    case Gating(op) =>
      match op
      case Attribute(s, names) => s in w.stage && w.stage[s] == Reaped(names)
      case Stamp(arts, unf) => forall a :: a in arts ==> a in w.disk && (a in unf <==> !w.disk[a])
      case Launch(s, _) => BatchDone(w) && (s in w.stage ==> w.stage[s].Settled?)
      case Retire(s) => BatchDone(w) && s in w.stage && w.stage[s].Settled?
  }

  /** A session names only the findings it wrote itself and those whose filing
      session has ended. */
  predicate HeardOf(w: World, s: Slot, names: set<Artifact>)
    requires s in w.stage && w.stage[s].Running?
  {
    forall a :: a in names && a.Finding? ==> a in w.stage[s].wrote || a in w.released
  }

  predicate Enabled(w: World, step: Step) {
    Possible(w, step) && (step.End? ==> HeardOf(w, step.slot, step.names))
  }

  predicate Complete(w: World, a: Artifact) {
    a in w.disk && w.disk[a]
  }

  function Later(w: World): World {
    w.(actual := Tick(w.actual))
  }

  function Put(w: World, a: Artifact, complete: bool): World {
    Later(w).(disk := w.disk[a := complete],
              completedAt := if complete && a !in w.completedAt then w.completedAt[a := w.actual.clock + 1] else w.completedAt,
              latestAt := if complete && !Complete(w, a) then w.latestAt[a := w.actual.clock + 1] else w.latestAt)
  }

  function Staged(w: World, op: GateOp): map<Slot, Stage> {
    match op
    case Attribute(s, _) => w.stage[s := Settled]
    case Stamp(_, _) => w.stage
    case Launch(s, _) => w.stage[s := Running({})]
    case Retire(s) => w.stage - {s}
  }

  type Times = map<Artifact, nat>

  function FoundOpen(times: Times, open: set<Artifact>, now: nat): Times {
    map a | a in times.Keys + open :: if a in open then now else times[a]
  }

  function Next(w: World, step: Step): World
    requires Possible(w, step)
  {
    match step
    case Write(s, a, complete) =>
      Put(w, a, complete).(
        stage := w.stage[s := Running(w.stage[s].wrote + {a})],
        author := if a.Finding? && a !in w.author then w.author[a := Filing(s, w.actual.chains[s])] else w.author)
    case Harness(a, complete) => Put(w, a, complete).(released := if a in w.disk then w.released else w.released + {a})
    case Vanish(a) => Later(w).(disk := w.disk - {a}, gone := w.gone + {a})
    case End(s, names) => Later(w).(stage := w.stage[s := Ended(names)], released := w.released + w.stage[s].wrote)
    case Reap =>
      Later(w).(stage := map s | s in w.stage :: if w.stage[s].Ended? then Reaped(w.stage[s].names) else w.stage[s])
    case Gating(op) =>
      var open := if op.Stamp? then op.artifacts * op.unfinished else {};
      w.(gate := Apply(w.gate, op), actual := Apply(Tick(w.actual), op), stage := Staged(w, op),
         completedAt := w.completedAt - open,
         foundOpenAt := FoundOpen(w.foundOpenAt, open, w.actual.clock + 1))
  }

  /** A new worker over a tree nobody is writing. */
  ghost predicate Fresh(w: World) {
    && w.gate == w.actual == Stamped(EmptyGate, w.disk.Keys, set a | a in w.disk && !w.disk[a])
    && w.stage == map[] && w.foundOpenAt == map[] && w.author == map[]
    && w.completedAt == w.latestAt == w.gate.firstSeen
    && w.released == w.disk.Keys
  }

  ghost predicate Runs(w: World, steps: seq<Step>)
    decreases |steps|
  {
    steps == [] || (Enabled(w, steps[0]) && Runs(Next(w, steps[0]), steps[1..]))
  }

  ghost function After(w: World, steps: seq<Step>): World
    requires Runs(w, steps)
    decreases |steps|
  {
    if steps == [] then w else After(Next(w, steps[0]), steps[1..])
  }

  lemma OneMore(w: World, step: Step, steps: seq<Step>)
    requires Enabled(w, step) && Runs(Next(w, step), steps)
    ensures Runs(w, [step] + steps) && After(w, [step] + steps) == After(Next(w, step), steps)
  {
    assert ([step] + steps)[1..] == steps;
  }

  lemma {:induction false} RunsConcat(w: World, a: seq<Step>, b: seq<Step>)
    requires Runs(w, a) && Runs(After(w, a), b)
    ensures Runs(w, a + b) && After(w, a + b) == After(After(w, a), b)
    decreases |a|
  {
    if a == [] {
      assert a + b == b;
    } else {
      Peel(a, b);
      RunsConcat(Next(w, a[0]), a[1..], b);
    }
  }

  lemma {:induction false} RunsPrefix(w: World, steps: seq<Step>, k: nat)
    requires Runs(w, steps) && k <= |steps|
    ensures Runs(w, steps[..k])
    decreases k
  {
    if k > 0 {
      PeelPrefix(steps, k);
      RunsPrefix(Next(w, steps[0]), steps[1..], k - 1);
    }
  }

  // ------------------------------------------------------------ invariants

  /** The gate's chains are exactly the slots in flight, and its logical clock
      orders events as they really happened. */
  ghost predicate Coupled(w: World) {
    && WellTicked(w.gate) && WellTicked(w.actual)
    && w.gate.chains.Keys == w.stage.Keys
    && SameOrder(w.gate, w.actual)
  }

  /** A stamp is no earlier than the completion it witnesses, and both come
      after the last look that found the artifact open. */
  ghost predicate Witnessed(w: World) {
    InOrder(w.disk, w.gone, w.completedAt, w.foundOpenAt, w.actual.firstSeen, w.actual.clock)
  }

  ghost predicate InOrder(disk: map<Artifact, bool>, gone: set<Artifact>, completed: Times, foundOpen: Times, seen: Times, clock: nat) {
    && (forall a :: a in disk && disk[a] ==> a in completed)
    && (forall a :: a in seen ==> a in completed && completed[a] <= seen[a])
    && (forall a :: a in completed ==> completed[a] <= clock && (a in disk || a in gone))
    && (forall a :: a in foundOpen ==> foundOpen[a] <= clock)
    && (forall a :: a in foundOpen && a in completed ==> foundOpen[a] < completed[a])
  }

  ghost predicate Existed(w: World, a: Artifact) {
    a in w.disk || a in w.gone
  }

  ghost predicate AuthorInFlight(w: World, a: Artifact)
    requires a in w.author
  {
    w.author[a].slot in w.actual.chains && w.actual.chains[w.author[a].slot] == w.author[a].began
  }

  /** An ended session of the filing chain is on record as naming the finding. */
  ghost predicate OnRecord(w: World, a: Artifact)
    requires a in w.author
  {
    var p := w.author[a].slot;
    a in w.actual.touched && p in w.actual.touched[a] && w.author[a].began <= w.actual.touched[a][p]
  }

  ghost predicate Writing(w: World, s: Slot, a: Artifact) {
    s in w.stage && w.stage[s].Running? && a in w.stage[s].wrote
  }

  ghost predicate EndedNaming(w: World, s: Slot, a: Artifact) {
    s in w.stage && w.stage[s].Ended? && a in w.stage[s].names
  }

  ghost predicate ReapedNaming(w: World, s: Slot, a: Artifact) {
    s in w.stage && w.stage[s].Reaped? && a in w.stage[s].names
  }

  /** Some slot in flight has an ended session that named `a`. */
  ghost predicate Blocked(w: World, a: Artifact) {
    exists s :: s in w.actual.chains && a in w.actual.touched && s in w.actual.touched[a] && w.actual.chains[s] <= w.actual.touched[a][s]
  }

  /** Where the filing session of a finding stands, and what that rules out. */
  ghost predicate FiledBy(w: World, a: Artifact)
    requires a in w.author
  {
    var p := w.author[a].slot;
    && a.Finding?
    && Existed(w, a)
    && w.author[a].began <= w.actual.clock
    && (p in w.actual.chains ==> w.author[a].began <= w.actual.chains[p])
    && (a in w.completedAt ==> w.author[a].began < w.completedAt[a])
    && (a !in w.released ==> AuthorInFlight(w, a) && Writing(w, p, a))
    && (forall s :: Writing(w, s, a) ==> s == p && AuthorInFlight(w, a))
    && (a in w.released && AuthorInFlight(w, a) ==>
          || OnRecord(w, a)
          || (EndedNaming(w, p, a) && a !in w.actual.touched && forall s :: !ReapedNaming(w, s, a))
          || (ReapedNaming(w, p, a) && (a in w.actual.touched ==> Blocked(w, a))))
  }

  ghost predicate Filed(w: World) {
    forall a :: a in w.author ==> FiledBy(w, a)
  }

  /** Names circulate only for artifacts that existed, and for findings only
      once the filing session has ended. */
  ghost predicate Circulating(w: World) {
    && (forall a :: a in w.released ==> Existed(w, a))
    && (forall s, a :: Writing(w, s, a) ==> Existed(w, a))
    && (forall a :: a in w.actual.touched && a.Finding? ==> a in w.released)
    && (forall s, a :: EndedNaming(w, s, a) && a.Finding? ==> a in w.released)
    && (forall s, a :: ReapedNaming(w, s, a) && a.Finding? ==> a in w.released)
  }

  /** What the preservation of filings needs of the clocks. */
  ghost predicate Timely(w: World) {
    && w.actual.chains.Keys == w.stage.Keys
    && (forall s :: s in w.actual.chains ==> w.actual.chains[s] <= w.actual.clock)
  }

  ghost predicate Inv(w: World) {
    Coupled(w) && Witnessed(w) && Filed(w) && Circulating(w)
  }

  // ------------------------------------------------------------ preservation

  lemma WhatAnOperationDoes(w: World, op: GateOp)
    requires Possible(w, Gating(op))
    ensures var v := Next(w, Gating(op));
      v.gate == Apply(w.gate, op) && v.actual == Apply(Tick(w.actual), op) && v.stage == Staged(w, op)
  {
  }

  lemma KeepsCoupled(w: World, step: Step)
    requires Coupled(w) && Possible(w, step)
    ensures Coupled(Next(w, step))
  {
    if step.Gating? {
      WhatAnOperationDoes(w, step.op);
      GatingKeepsClocks(w.gate, w.actual, step.op);
      StagesFollowChains(w, step.op);
    } else {
      SessionsLeaveTheGate(w, step);
    }
  }

  lemma SessionsLeaveTheGate(w: World, step: Step)
    requires Possible(w, step) && !step.Gating?
    ensures var v := Next(w, step);
      v.gate == w.gate && v.actual == Tick(w.actual) && v.stage.Keys == w.stage.Keys
  {
    match step
    case Write(s, a, c) =>
    case End(s, names) =>
    case _ =>
  }

  lemma GatingKeepsClocks(g: Gate, r: Gate, op: GateOp)
    requires WellTicked(g) && WellTicked(r) && SameOrder(g, r)
    ensures var h, q := Apply(g, op), Apply(Tick(r), op); WellTicked(h) && WellTicked(q) && SameOrder(h, q)
  {
    OperationsKeepOrder(g, r, op);
    ApplyKeepsWellTicked(g, op);
    ApplyKeepsWellTicked(Tick(r), op);
  }

  lemma StagesFollowChains(w: World, op: GateOp)
    requires w.gate.chains.Keys == w.stage.Keys && Enabled(w, Gating(op))
    ensures Apply(w.gate, op).chains.Keys == Staged(w, op).Keys
  {
  }

  lemma PutKeepsWitnessed(w: World, a: Artifact, complete: bool)
    requires Witnessed(w)
    ensures Witnessed(Put(w, a, complete))
  {
  }

  lemma LookKeepsOrder(disk: map<Artifact, bool>, gone: set<Artifact>, completed: Times, foundOpen: Times, seen: Times, clock: nat,
                       artifacts: set<Artifact>, unfinished: set<Artifact>)
    requires InOrder(disk, gone, completed, foundOpen, seen, clock)
    requires forall a :: a in artifacts ==> a in disk && (a in unfinished <==> !disk[a])
    ensures var open := artifacts * unfinished;
      InOrder(disk, gone, completed - open, FoundOpen(foundOpen, open, clock + 1),
              StampedTicks(seen, clock + 1, artifacts, unfinished), clock + 1)
  {
  }

  lemma LaterKeepsOrder(disk: map<Artifact, bool>, gone: set<Artifact>, completed: Times, foundOpen: Times, seen: Times, clock: nat, later: nat)
    requires InOrder(disk, gone, completed, foundOpen, seen, clock) && clock <= later
    ensures InOrder(disk, gone, completed, foundOpen, seen, later)
  {
  }

  lemma WhatALookDoes(w: World, artifacts: set<Artifact>, unfinished: set<Artifact>)
    requires Possible(w, Gating(Stamp(artifacts, unfinished)))
    ensures var v, open, now := Next(w, Gating(Stamp(artifacts, unfinished))), artifacts * unfinished, w.actual.clock + 1;
      && v.disk == w.disk && v.gone == w.gone && v.actual.clock == now
      && v.completedAt == w.completedAt - open && v.foundOpenAt == FoundOpen(w.foundOpenAt, open, now)
      && v.actual.firstSeen == StampedTicks(w.actual.firstSeen, now, artifacts, unfinished)
  {
  }

  lemma LookKeepsWitnessed(w: World, artifacts: set<Artifact>, unfinished: set<Artifact>)
    requires Witnessed(w) && Possible(w, Gating(Stamp(artifacts, unfinished)))
    ensures Witnessed(Next(w, Gating(Stamp(artifacts, unfinished))))
  {
    WhatALookDoes(w, artifacts, unfinished);
    LookKeepsOrder(w.disk, w.gone, w.completedAt, w.foundOpenAt, w.actual.firstSeen, w.actual.clock, artifacts, unfinished);
  }

  lemma WhatOtherOpsDo(w: World, op: GateOp)
    requires Possible(w, Gating(op)) && !op.Stamp?
    ensures var v := Next(w, Gating(op));
      && v.disk == w.disk && v.gone == w.gone && v.actual.firstSeen == w.actual.firstSeen
      && v.completedAt == w.completedAt && v.foundOpenAt == w.foundOpenAt && w.actual.clock <= v.actual.clock
  {
  }

  lemma OtherOpsKeepWitnessed(w: World, op: GateOp)
    requires Witnessed(w) && Possible(w, Gating(op)) && !op.Stamp?
    ensures Witnessed(Next(w, Gating(op)))
  {
    WhatOtherOpsDo(w, op);
    LaterKeepsOrder(w.disk, w.gone, w.completedAt, w.foundOpenAt, w.actual.firstSeen, w.actual.clock, Next(w, Gating(op)).actual.clock);
  }

  lemma KeepsWitnessed(w: World, step: Step)
    requires Witnessed(w) && Possible(w, step)
    ensures Witnessed(Next(w, step))
  {
    match step
    case Write(_, a, c) => PutKeepsWitnessed(w, a, c);
    case Harness(a, c) => PutKeepsWitnessed(w, a, c);
    case Gating(op) =>
      if op.Stamp? { LookKeepsWitnessed(w, op.artifacts, op.unfinished); } else { OtherOpsKeepWitnessed(w, op); }
    case _ =>
  }

  lemma KeepsCirculating(w: World, step: Step)
    requires Circulating(w) && Enabled(w, step) && (step.Gating? ==> !step.op.Attribute?)
    ensures Circulating(Next(w, step))
  {
    var v := Next(w, step);
    match step
    case Write(s, a, c) =>
      forall t, b | Writing(v, t, b) ensures Existed(v, b) { assert b == a || Writing(w, t, b); }
      forall t, b | EndedNaming(v, t, b) && b.Finding? ensures b in v.released { assert EndedNaming(w, t, b); }
      forall t, b | ReapedNaming(v, t, b) && b.Finding? ensures b in v.released { assert ReapedNaming(w, t, b); }
    case End(s, names) =>
      forall b | b in v.released ensures Existed(v, b) { assert b in w.released || Writing(w, s, b); }
      forall t, b | Writing(v, t, b) ensures Existed(v, b) { assert Writing(w, t, b); }
      forall t, b | EndedNaming(v, t, b) && b.Finding? ensures b in v.released {
        assert t == s || EndedNaming(w, t, b);
      }
      forall t, b | ReapedNaming(v, t, b) && b.Finding? ensures b in v.released { assert ReapedNaming(w, t, b); }
    case Reap =>
      forall t, b | Writing(v, t, b) ensures Existed(v, b) { assert Writing(w, t, b); }
      forall t, b | ReapedNaming(v, t, b) && b.Finding? ensures b in v.released {
        assert EndedNaming(w, t, b) || ReapedNaming(w, t, b);
      }
    case _ =>
      forall t, b | Writing(v, t, b) ensures Existed(v, b) { assert Writing(w, t, b); }
      forall t, b | EndedNaming(v, t, b) && b.Finding? ensures b in v.released { assert EndedNaming(w, t, b); }
      forall t, b | ReapedNaming(v, t, b) && b.Finding? ensures b in v.released { assert ReapedNaming(w, t, b); }
  }

  lemma NamingKeepsCirculating(w: World, s: Slot, names: set<Artifact>)
    requires Circulating(w) && Enabled(w, Gating(Attribute(s, names)))
    ensures Circulating(Next(w, Gating(Attribute(s, names))))
  {
    var v := Next(w, Gating(Attribute(s, names)));
    forall b | b in v.actual.touched && b.Finding? ensures b in v.released {
      if b in names { assert ReapedNaming(w, s, b); }
    }
    forall t, b | Writing(v, t, b) ensures Existed(v, b) { assert Writing(w, t, b); }
    forall t, b | EndedNaming(v, t, b) && b.Finding? ensures b in v.released { assert EndedNaming(w, t, b); }
    forall t, b | ReapedNaming(v, t, b) && b.Finding? ensures b in v.released { assert ReapedNaming(w, t, b); }
  }

  lemma WriteKeepsFiledBy(w: World, s: Slot, b: Artifact, complete: bool, a: Artifact)
    requires Timely(w) && Witnessed(w) && Circulating(w) && Enabled(w, Write(s, b, complete))
    requires if a in w.author then FiledBy(w, a) else a == b && a.Finding?
    ensures FiledBy(Next(w, Write(s, b, complete)), a)
  {
    var v := Next(w, Write(s, b, complete));
    forall t | Writing(v, t, a) ensures Writing(w, t, a) || (t == s && a == b) {}
    forall t | ReapedNaming(v, t, a) ensures ReapedNaming(w, t, a) {}
    if a in w.author {
      var p := w.author[a].slot;
      assert EndedNaming(w, p, a) ==> EndedNaming(v, p, a);
      assert ReapedNaming(w, p, a) ==> ReapedNaming(v, p, a);
      assert Blocked(w, a) ==> Blocked(v, a);
    }
  }

  lemma TreeKeepsFiledBy(w: World, step: Step, a: Artifact)
    requires Enabled(w, step) && (step.Harness? || step.Vanish?) && a in w.author && FiledBy(w, a)
    ensures FiledBy(Next(w, step), a)
  {
    var v := Next(w, step);
    forall t | Writing(v, t, a) ensures Writing(w, t, a) {}
    forall t | ReapedNaming(v, t, a) ensures ReapedNaming(w, t, a) {}
    assert Blocked(w, a) ==> Blocked(v, a);
  }

  lemma EndKeepsFiledBy(w: World, s: Slot, names: set<Artifact>, a: Artifact)
    requires Circulating(w) && Enabled(w, End(s, names)) && a in w.author && FiledBy(w, a)
    ensures FiledBy(Next(w, End(s, names)), a)
  {
    var v := Next(w, End(s, names));
    var p := w.author[a].slot;
    forall t | Writing(v, t, a) ensures Writing(w, t, a) {}
    forall t | ReapedNaming(v, t, a) ensures ReapedNaming(w, t, a) {}
    assert Blocked(w, a) ==> Blocked(v, a);
    assert EndedNaming(w, p, a) ==> EndedNaming(v, p, a);
    if Writing(w, s, a) { assert EndedNaming(v, p, a); }
  }

  lemma ReapKeepsFiledBy(w: World, a: Artifact)
    requires Enabled(w, Reap) && a in w.author && FiledBy(w, a)
    ensures FiledBy(Next(w, Reap), a)
  {
    var v := Next(w, Reap);
    var p := w.author[a].slot;
    forall t | Writing(v, t, a) ensures Writing(w, t, a) {}
    assert Writing(w, p, a) ==> Writing(v, p, a);
    assert EndedNaming(w, p, a) ==> ReapedNaming(v, p, a);
    assert !ReapedNaming(w, p, a);
  }

  lemma BeingNamedKeepsFiledBy(w: World, s: Slot, names: set<Artifact>, a: Artifact)
    requires Timely(w) && Enabled(w, Gating(Attribute(s, names))) && a in w.author && FiledBy(w, a) && a in names
    ensures FiledBy(Next(w, Gating(Attribute(s, names))), a)
  {
    var v := Next(w, Gating(Attribute(s, names)));
    forall t | Writing(v, t, a) ensures Writing(w, t, a) {}
    forall t | ReapedNaming(v, t, a) ensures ReapedNaming(w, t, a) {}
    NamedEntry(w.actual.touched, s, names, w.actual.clock + 1, a);
    assert ReapedNaming(w, s, a);
    assert s in v.actual.chains && v.actual.chains[s] <= v.actual.touched[a][s];
    assert Blocked(v, a);
    var p := w.author[a].slot;
    assert Writing(w, p, a) ==> Writing(v, p, a);
    assert ReapedNaming(w, p, a) && p != s ==> ReapedNaming(v, p, a);
    assert OnRecord(w, a) ==> OnRecord(v, a);
    if p == s && AuthorInFlight(w, a) { assert OnRecord(v, a); }
  }

  lemma NamingOthersKeepsFiledBy(w: World, s: Slot, names: set<Artifact>, a: Artifact)
    requires Timely(w) && Enabled(w, Gating(Attribute(s, names))) && a in w.author && FiledBy(w, a) && a !in names
    ensures FiledBy(Next(w, Gating(Attribute(s, names))), a)
  {
    var v := Next(w, Gating(Attribute(s, names)));
    var p := w.author[a].slot;
    forall t | Writing(v, t, a) ensures Writing(w, t, a) {}
    forall t ensures ReapedNaming(v, t, a) <==> ReapedNaming(w, t, a) {}
    assert Writing(w, p, a) ==> Writing(v, p, a);
    assert EndedNaming(w, p, a) ==> EndedNaming(v, p, a);
    if a in w.actual.touched { NamedEntry(w.actual.touched, s, names, w.actual.clock + 1, a); }
    assert v.actual.touched.Keys == w.actual.touched.Keys + names;
    assert Blocked(w, a) ==> Blocked(v, a);
  }

  lemma NamingKeepsFiledBy(w: World, s: Slot, names: set<Artifact>, a: Artifact)
    requires Timely(w) && Enabled(w, Gating(Attribute(s, names))) && a in w.author && FiledBy(w, a)
    ensures FiledBy(Next(w, Gating(Attribute(s, names))), a)
  {
    if a in names { BeingNamedKeepsFiledBy(w, s, names, a); } else { NamingOthersKeepsFiledBy(w, s, names, a); }
  }

  lemma GateKeepsFiledBy(w: World, op: GateOp, a: Artifact)
    requires Timely(w) && Enabled(w, Gating(op)) && !op.Attribute? && a in w.author && FiledBy(w, a)
    ensures FiledBy(Next(w, Gating(op)), a)
  {
    var v := Next(w, Gating(op));
    var p := w.author[a].slot;
    forall t | Writing(v, t, a) ensures Writing(w, t, a) {}
    forall t | ReapedNaming(v, t, a) ensures ReapedNaming(w, t, a) {}
    assert Writing(w, p, a) ==> Writing(v, p, a);
    assert EndedNaming(w, p, a) ==> EndedNaming(v, p, a);
    match op
    case Stamp(_, _) => assert Blocked(w, a) ==> Blocked(v, a);
    case Launch(_, _) => assert !ReapedNaming(w, p, a);
    case Retire(_) => assert !ReapedNaming(w, p, a);
  }

  lemma KeepsFiled(w: World, step: Step)
    requires Timely(w) && Witnessed(w) && Circulating(w) && Filed(w) && Enabled(w, step)
    ensures Filed(Next(w, step))
  {
    var v := Next(w, step);
    forall a | a in v.author ensures FiledBy(v, a) {
      match step
      case Write(s, b, c) => WriteKeepsFiledBy(w, s, b, c, a);
      case End(s, names) => EndKeepsFiledBy(w, s, names, a);
      case Reap => ReapKeepsFiledBy(w, a);
      case Gating(op) =>
        if op.Attribute? { NamingKeepsFiledBy(w, op.agent, op.names, a); } else { GateKeepsFiledBy(w, op, a); }
      case _ => TreeKeepsFiledBy(w, step, a);
    }
  }

  lemma FreshHolds(w: World)
    requires Fresh(w)
    ensures Inv(w)
  {
    ApplyKeepsWellTicked(EmptyGate, Stamp(w.disk.Keys, set a | a in w.disk && !w.disk[a]));
    assert SameOrder(w.gate, w.actual);
  }

  lemma {:induction false} EveryRunKeepsInv(w: World, steps: seq<Step>)
    requires Inv(w) && Runs(w, steps)
    ensures Inv(After(w, steps))
    decreases |steps|
  {
    if steps != [] {
      KeepsCoupled(w, steps[0]);
      KeepsWitnessed(w, steps[0]);
      if steps[0].Gating? && steps[0].op.Attribute? {
        NamingKeepsCirculating(w, steps[0].op.agent, steps[0].op.names);
      } else {
        KeepsCirculating(w, steps[0]);
      }
      KeepsFiled(w, steps[0]);
      EveryRunKeepsInv(Next(w, steps[0]), steps[1..]);
    }
  }

  /** `w` is reached from a new worker by some interleaving of the steps. */
  ghost predicate Reached(start: World, steps: seq<Step>, w: World) {
    Fresh(start) && Runs(start, steps) && w == After(start, steps)
  }

  lemma ReachedHolds(start: World, steps: seq<Step>, w: World)
    requires Reached(start, steps, w)
    ensures Inv(w)
  {
    FreshHolds(start);
    EveryRunKeepsInv(start, steps);
  }

  // ------------------------------------------------------------ what every run guarantees

  /** The gate tracks exactly the slots in flight, with distinct ticks no later
      than its clock, and no stamp ever runs ahead of it. */
  lemma ChainsAreTheSlotsInFlight(start: World, steps: seq<Step>, w: World)
    requires Reached(start, steps, w)
    ensures w.gate.chains.Keys == w.stage.Keys
    ensures forall s, t :: s in w.stage && t in w.stage && s != t ==> w.gate.chains[s] != w.gate.chains[t]
    ensures forall a :: a in w.gate.firstSeen ==> w.gate.firstSeen[a] <= w.gate.clock
  {
    ReachedHolds(start, steps, w);
  }

  /** The logical clock is exact: what the gate seals is what it would seal had
      it recorded the real time of every event. */
  lemma ClockIsExact(start: World, steps: seq<Step>, w: World, a: Artifact)
    requires Reached(start, steps, w) && a in w.gate.firstSeen
    ensures a in w.actual.firstSeen
    ensures SealedByRule(w.gate, a) <==> SealedByRule(w.actual, a)
  {
    ReachedHolds(start, steps, w);
    SameOrderSealsTheSame(w.gate, w.actual, a);
  }

  /** A crash sealed by chains was complete before its owner's chain in flight
      began, continuations counted as the chain they continue; a crash that
      names no owner was complete before every chain in flight began. */
  lemma SealedCrashPredatesItsOwnersChain(start: World, steps: seq<Step>, w: World, a: Artifact, s: Slot)
    requires Reached(start, steps, w)
    requires a in w.gate.firstSeen && a.Crash? && SealedByRule(w.gate, a)
    requires s in w.stage && (a.owner == Some(s) || a.owner.None?)
    ensures a in w.completedAt && s in w.actual.chains && w.completedAt[a] < w.actual.chains[s]
  {
    ReachedHolds(start, steps, w);
    ClockIsExact(start, steps, w, a);
  }

  /** Once a look has found a crash unfinished during its owner's chain, no
      look seals it by that route while the chain lasts. */
  lemma FoundOpenStaysOpenForTheChain(start: World, steps: seq<Step>, w: World, a: Artifact, o: Slot)
    requires Reached(start, steps, w)
    requires a in w.gate.firstSeen && a.Crash? && a.owner == Some(o) && o in w.stage
    requires a in w.foundOpenAt && o in w.actual.chains && w.actual.chains[o] <= w.foundOpenAt[a]
    ensures !SealedByRule(w.gate, a)
  {
    ReachedHolds(start, steps, w);
    ClockIsExact(start, steps, w, a);
  }

  /** A sealed finding nobody named was complete before any chain in flight
      began; one that was named has no chain in flight that contains an ended
      session on record as naming it. */
  lemma SealedFindingIsBehindEveryChain(start: World, steps: seq<Step>, w: World, a: Artifact, s: Slot)
    requires Reached(start, steps, w)
    requires a in w.gate.firstSeen && a.Finding? && SealedByRule(w.gate, a) && s in w.stage
    ensures s in w.actual.chains
    ensures a !in w.actual.touched ==> a in w.completedAt && w.completedAt[a] < w.actual.chains[s]
    ensures a in w.actual.touched && s in w.actual.touched[a] ==> w.actual.touched[a][s] < w.actual.chains[s]
  {
    ReachedHolds(start, steps, w);
    ClockIsExact(start, steps, w, a);
  }

  /** While the chain that filed a finding is in flight, something keeps the
      finding open: its first stamp, or a recorded naming by a live chain. */
  lemma LiveAuthorKeepsAFindingOpen(w: World, a: Artifact)
    requires Inv(w) && a in w.gate.firstSeen && a in w.author && AuthorInFlight(w, a)
    ensures !SealedByRule(w.gate, a)
  {
    SameOrderSealsTheSame(w.gate, w.actual, a);
    var p := w.author[a].slot;
    assert FiledBy(w, a);
    if a in w.actual.touched {
      assert OnRecord(w, a) ==> Blocked(w, a);
      var s :| s in w.actual.chains && s in w.actual.touched[a] && w.actual.chains[s] <= w.actual.touched[a][s];
      assert !TouchersDone(w.actual, a);
    } else {
      assert w.actual.chains[p] <= w.actual.firstSeen[a];
    }
  }

  /** The point of the seal: when a finding is sealed, the chain that filed it
      is over, and no session in flight can write it. */
  lemma SealedFindingHasNoLiveWriter(start: World, steps: seq<Step>, w: World, a: Artifact)
    requires Reached(start, steps, w)
    requires a in w.gate.firstSeen && a.Finding? && SealedByRule(w.gate, a)
    ensures a in w.author ==> !AuthorInFlight(w, a)
    ensures forall s, complete :: a in w.disk ==> !Enabled(w, Write(s, a, complete))
  {
    ReachedHolds(start, steps, w);
    if a in w.author && AuthorInFlight(w, a) {
      LiveAuthorKeepsAFindingOpen(w, a);
    }
  }
}
