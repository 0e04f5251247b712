/**
 Crash bundles that are reopened: an owner's session may write a complete bundle
 unfinished again and complete it later (`SealedGateWorker._stamp` in
 lib/audit_runner.py).  The gate restarts first-seen only when a look meets the
 bundle unfinished.  These lemmas say, over every run, what the seal knows of
 the first completion and what it does not know of the latest one.
 */
module GateReopening {
  import opened Common
  import opened GateRules
  import opened GateProtocol

  predicate FindsOpen(step: Step, a: Artifact) {
    step.Gating? && step.op.Stamp? && a in step.op.artifacts && a in step.op.unfinished
  }

  /** The step writes `a` unfinished, or takes it off the tree. */
  predicate Reopens(step: Step, a: Artifact) {
    match step
    case Write(_, b, complete) => a == b && !complete
    case Harness(b, complete) => a == b && !complete
    case Vanish(b) => a == b
    case _ => false
  }

  ghost predicate SomeLookFindsOpen(steps: seq<Step>, a: Artifact) {
    exists step :: step in steps && FindsOpen(step, a)
  }

  ghost predicate SomeStepReopens(steps: seq<Step>, a: Artifact) {
    exists step :: step in steps && Reopens(step, a)
  }

  /** A look stamped `a` no later than `t`, and none has found it open since. */
  predicate SeenBy(w: World, a: Artifact, t: nat) {
    a in w.actual.firstSeen && w.actual.firstSeen[a] <= t
  }

  /** `a` has stood complete since `t` or longer. */
  predicate CompleteSince(w: World, a: Artifact, t: nat) {
    Complete(w, a) && a in w.latestAt && w.latestAt[a] <= t
  }

  /** What is complete was completed at some moment of the past. */
  ghost predicate Dated(w: World) {
    forall a :: Complete(w, a) ==> a in w.latestAt && w.latestAt[a] <= w.actual.clock
  }

  // ------------------------------------------------------------ one step and many

  lemma TimePasses(w: World, step: Step)
    requires Enabled(w, step)
    ensures w.actual.clock < Next(w, step).actual.clock
  {
  }

  lemma OneStepKeepsTheTick(w: World, step: Step, a: Artifact, t: nat)
    requires Enabled(w, step) && t <= w.actual.clock
    ensures var v := Next(w, step);
      && (SeenBy(v, a, t) <==> SeenBy(w, a, t) && !FindsOpen(step, a))
      && (SeenBy(v, a, t) ==> v.actual.firstSeen[a] == w.actual.firstSeen[a])
  {
  }

  lemma OneStepKeepsTheCompletion(w: World, step: Step, a: Artifact, t: nat)
    requires Enabled(w, step) && t <= w.actual.clock
    ensures CompleteSince(Next(w, step), a, t) <==> CompleteSince(w, a, t) && !Reopens(step, a)
  {
    match step
    case Gating(op) => assert Next(w, step).disk == w.disk && Next(w, step).latestAt == w.latestAt;
    case _ =>
  }

  lemma FirstOrLater(steps: seq<Step>)
    requires steps != []
    ensures forall step :: step in steps <==> step == steps[0] || step in steps[1..]
  {
    assert steps == [steps[0]] + steps[1..];
  }

  /** A first-seen tick survives a run exactly when no look in it finds the
      artifact unfinished. */
  lemma {:induction false} TickSurvivesExactlyUnlessFoundOpen(w: World, steps: seq<Step>, a: Artifact, t: nat)
    requires Runs(w, steps) && t <= w.actual.clock
    ensures var v := After(w, steps);
      && (SeenBy(v, a, t) <==> SeenBy(w, a, t) && !SomeLookFindsOpen(steps, a))
      && (SeenBy(v, a, t) ==> v.actual.firstSeen[a] == w.actual.firstSeen[a])
    decreases |steps|
  {
    if steps != [] {
      OneStepKeepsTheTick(w, steps[0], a, t);
      TimePasses(w, steps[0]);
      TickSurvivesExactlyUnlessFoundOpen(Next(w, steps[0]), steps[1..], a, t);
      FirstOrLater(steps);
    }
  }

  /** An artifact stands complete through a run exactly when no step of it
      reopens it, whether or not a look notices. */
  lemma {:induction false} CompletionSurvivesExactlyUnlessReopened(w: World, steps: seq<Step>, a: Artifact, t: nat)
    requires Runs(w, steps) && t <= w.actual.clock
    ensures CompleteSince(After(w, steps), a, t) <==> CompleteSince(w, a, t) && !SomeStepReopens(steps, a)
    decreases |steps|
  {
    if steps != [] {
      OneStepKeepsTheCompletion(w, steps[0], a, t);
      TimePasses(w, steps[0]);
      CompletionSurvivesExactlyUnlessReopened(Next(w, steps[0]), steps[1..], a, t);
      FirstOrLater(steps);
    }
  }

  lemma StepKeepsDated(w: World, step: Step)
    requires Dated(w) && Enabled(w, step)
    ensures Dated(Next(w, step))
  {
    forall a | Complete(Next(w, step), a) ensures a in Next(w, step).latestAt && Next(w, step).latestAt[a] <= Next(w, step).actual.clock {
      assert Complete(w, a) ==> a in w.latestAt;
    }
  }

  lemma {:induction false} EveryRunKeepsDated(w: World, steps: seq<Step>)
    requires Dated(w) && Runs(w, steps)
    ensures Dated(After(w, steps))
    decreases |steps|
  {
    if steps != [] {
      StepKeepsDated(w, steps[0]);
      EveryRunKeepsDated(Next(w, steps[0]), steps[1..]);
    }
  }

  // ------------------------------------------------------------ where a chain began

  /** The step starts a new chain of `o`. */
  predicate Begins(w: World, step: Step, o: Slot) {
    step.Gating? && step.op.Launch? && step.op.agent == o && !(step.op.continuation && o in w.actual.chains)
  }

  lemma ChainsBeginWithLaunches(w: World, step: Step, o: Slot)
    requires Enabled(w, step) && o in Next(w, step).actual.chains
    ensures if Begins(w, step, o) then Next(w, step).actual.chains[o] == w.actual.clock + 2 == Next(w, step).actual.clock
            else o in w.actual.chains && Next(w, step).actual.chains[o] == w.actual.chains[o]
  {
  }

  /** Step `k` of the run began the chain that `o` has in flight at its end. */
  ghost predicate BeganAt(w: World, steps: seq<Step>, o: Slot, k: nat)
    requires Runs(w, steps)
  {
    && k < |steps|
    && Runs(w, steps[..k]) && Enabled(After(w, steps[..k]), steps[k])
    && var u := After(w, steps[..k]);
    && Begins(u, steps[k], o)
    && Runs(Next(u, steps[k]), steps[k + 1..])
    && After(Next(u, steps[k]), steps[k + 1..]) == After(w, steps)
    && o in After(w, steps).actual.chains && After(w, steps).actual.chains[o] == u.actual.clock + 2
  }

  lemma BeganLater(w: World, steps: seq<Step>, o: Slot, k: nat)
    requires Runs(w, steps) && steps != [] && BeganAt(Next(w, steps[0]), steps[1..], o, k)
    ensures BeganAt(w, steps, o, k + 1)
  {
    assert steps[..k + 1][1..] == steps[1..][..k] && steps[k + 2..] == steps[1..][k + 1..];
  }

  lemma {:induction false} WhereItBegan(w: World, steps: seq<Step>, o: Slot) returns (k: nat)
    requires Runs(w, steps) && o in After(w, steps).actual.chains
    ensures if k == |steps| then o in w.actual.chains && w.actual.chains[o] == After(w, steps).actual.chains[o]
            else BeganAt(w, steps, o, k)
    decreases |steps|
  {
    if steps == [] {
      k := 0;
    } else {
      var later := WhereItBegan(Next(w, steps[0]), steps[1..], o);
      if later < |steps| - 1 {
        BeganLater(w, steps, o, later);
        k := later + 1;
      } else {
        ChainsBeginWithLaunches(w, steps[0], o);
        k := if Begins(w, steps[0], o) then 0 else |steps|;
      }
    }
  }

  // ------------------------------------------------------------ the seal of a crash

  lemma TouchersAgree(w: World, a: Artifact)
    requires Coupled(w)
    ensures TouchersDone(w.gate, a) <==> TouchersDone(w.actual, a)
  {
    if a in w.gate.touched { assert SameTouch(w.gate.touched[a], w.gate.chains, w.actual.touched[a], w.actual.chains); }
  }

  lemma OwnersChainDecides(w: World, a: Artifact, o: Slot)
    requires Coupled(w) && a in w.gate.firstSeen && a.Crash? && a.owner == Some(o) && o in w.actual.chains
    ensures a in w.actual.firstSeen
    ensures SealedByRule(w.gate, a) <==> w.actual.firstSeen[a] < w.actual.chains[o] && TouchersDone(w.gate, a)
  {
    SameOrderSealsTheSame(w.gate, w.actual, a);
    TouchersAgree(w, a);
  }

  /** `u` starts a chain of `o` by `launch`, and it lasts over `during`. */
  ghost predicate Lasts(u: World, launch: Step, during: seq<Step>, o: Slot) {
    && Enabled(u, launch) && Begins(u, launch, o) && Runs(Next(u, launch), during)
    && var v := After(Next(u, launch), during);
    && o in v.actual.chains && v.actual.chains[o] == u.actual.clock + 2
  }

  lemma StampedBeforeTheChain(u: World, launch: Step, during: seq<Step>, a: Artifact, o: Slot)
    requires WellTicked(u.actual) && Lasts(u, launch, during, o)
    ensures var v := After(Next(u, launch), during);
      a in v.actual.firstSeen && v.actual.firstSeen[a] < v.actual.chains[o] <==> a in u.actual.firstSeen && !SomeLookFindsOpen(during, a)
  {
    var w := Next(u, launch);
    TickSurvivesExactlyUnlessFoundOpen(w, during, a, u.actual.clock + 1);
    assert w.actual.firstSeen == u.actual.firstSeen;
  }

  lemma CompletedBeforeTheChain(u: World, launch: Step, during: seq<Step>, a: Artifact, o: Slot)
    requires Dated(u) && Lasts(u, launch, during, o)
    ensures var v := After(Next(u, launch), during);
      CompleteSince(v, a, u.actual.clock + 1) <==> Complete(u, a) && !SomeStepReopens(during, a)
  {
    var w := Next(u, launch);
    CompletionSurvivesExactlyUnlessReopened(w, during, a, u.actual.clock + 1);
    assert w.disk == u.disk && w.latestAt == u.latestAt;
  }

  /** What the gate's seal and the tree's history say of the owner's chain. */
  ghost predicate Explained(u: World, during: seq<Step>, v: World, a: Artifact, o: Slot)
    requires a in v.gate.firstSeen
  {
    && (SealedByRule(v.gate, a) <==> a in u.gate.firstSeen && !SomeLookFindsOpen(during, a) && TouchersDone(v.gate, a))
    && o in v.actual.chains && a in v.latestAt
    && (v.latestAt[a] < v.actual.chains[o] <==> Complete(u, a) && !SomeStepReopens(during, a))
  }

  lemma SealWithinAChain(u: World, launch: Step, during: seq<Step>, a: Artifact, o: Slot)
    requires Coupled(u) && Dated(u) && Lasts(u, launch, during, o)
    requires var v := After(Next(u, launch), during);
      Coupled(v) && Dated(v) && a in v.gate.firstSeen && Complete(v, a)
    requires a.Crash? && a.owner == Some(o)
    ensures Explained(u, during, After(Next(u, launch), during), a, o)
  {
    StampedBeforeTheChain(u, launch, during, a, o);
    CompletedBeforeTheChain(u, launch, during, a, o);
    OwnersChainDecides(After(Next(u, launch), during), a, o);
  }

  /** In every reached state, whatever the interleaving: a complete crash whose
      owner has a chain in flight is sealed by rule exactly when it was stamped
      before that chain began, no look since found it unfinished, and no touch
      is live; and its latest completion is older than the chain exactly when
      it was complete as the chain began and no step since reopened it.  So a
      sealed crash is as old as the seal says unless a reopening that no look
      met reached into the chain. */
  lemma SealAndLatestCompletion(start: World, steps: seq<Step>, w: World, a: Artifact, o: Slot) returns (k: nat)
    requires Reached(start, steps, w)
    requires a.Crash? && a.owner == Some(o) && o in w.stage && a in w.gate.firstSeen && Complete(w, a)
    ensures BeganAt(start, steps, o, k)
    ensures Explained(After(start, steps[..k]), steps[k + 1..], w, a, o)
  {
    ReachedHolds(start, steps, w);
    EveryRunKeepsDated(start, steps);
    k := WhereItBegan(start, steps, o);
    FreshHolds(start);
    EveryRunKeepsInv(start, steps[..k]);
    EveryRunKeepsDated(start, steps[..k]);
    SealWithinAChain(After(start, steps[..k]), steps[k], steps[k + 1..], a, o);
  }

  /** The artifact was stamped before the chain of `o` that step `k` began, and no
      look since found it unfinished. */
  ghost predicate StampedThroughout(start: World, steps: seq<Step>, o: Slot, k: nat, a: Artifact)
    requires Runs(start, steps)
  {
    BeganAt(start, steps, o, k) && a in After(start, steps[..k]).gate.firstSeen && !SomeLookFindsOpen(steps[k + 1..], a)
  }

  /** It was complete as that chain began, and no step since reopened it. */
  ghost predicate CompleteThroughout(start: World, steps: seq<Step>, o: Slot, k: nat, a: Artifact)
    requires Runs(start, steps)
  {
    BeganAt(start, steps, o, k) && Complete(After(start, steps[..k]), a) && !SomeStepReopens(steps[k + 1..], a)
  }

  /** Stamped before the chain that `o` has in flight, and not found unfinished since. */
  ghost predicate SeenBeforeChain(start: World, steps: seq<Step>, o: Slot, a: Artifact)
    requires Runs(start, steps)
  {
    exists k :: StampedThroughout(start, steps, o, k, a)
  }

  /** Complete as the chain that `o` has in flight began, and not reopened since. */
  ghost predicate StoodBesideChain(start: World, steps: seq<Step>, o: Slot, a: Artifact)
    requires Runs(start, steps)
  {
    exists k :: CompleteThroughout(start, steps, o, k, a)
  }

  lemma StampedExactly(start: World, steps: seq<Step>, w: World, a: Artifact, o: Slot)
    requires Reached(start, steps, w) && o in w.stage && a in w.gate.firstSeen
    ensures o in w.gate.chains
    ensures w.gate.firstSeen[a] < w.gate.chains[o] <==> SeenBeforeChain(start, steps, o, a)
  {
    ReachedHolds(start, steps, w);
    var k := WhereItBegan(start, steps, o);
    StampedAt(start, steps, w, a, o, k);
    forall j | StampedThroughout(start, steps, o, j, a) ensures w.gate.firstSeen[a] < w.gate.chains[o] {
      StampedAt(start, steps, w, a, o, j);
    }
  }

  lemma StampedAt(start: World, steps: seq<Step>, w: World, a: Artifact, o: Slot, k: nat)
    requires Reached(start, steps, w) && BeganAt(start, steps, o, k) && o in w.gate.chains && a in w.gate.firstSeen
    ensures w.gate.firstSeen[a] < w.gate.chains[o] <==> StampedThroughout(start, steps, o, k, a)
  {
    ReachedHolds(start, steps, w);
    FreshHolds(start);
    EveryRunKeepsInv(start, steps[..k]);
    StampedBeforeTheChain(After(start, steps[..k]), steps[k], steps[k + 1..], a, o);
  }

  /** Against any chain in flight, and whoever may own it: the latest completion is
      older than the chain exactly when the artifact was complete as the chain
      began and nothing reopened it since. */
  lemma CompletedExactly(start: World, steps: seq<Step>, w: World, a: Artifact, o: Slot)
    requires Reached(start, steps, w) && o in w.stage && Complete(w, a)
    ensures o in w.actual.chains && a in w.latestAt
    ensures w.latestAt[a] < w.actual.chains[o] <==> StoodBesideChain(start, steps, o, a)
  {
    ReachedHolds(start, steps, w);
    EveryRunKeepsDated(start, steps);
    var k := WhereItBegan(start, steps, o);
    CompletedAt(start, steps, w, a, o, k);
    forall j | CompleteThroughout(start, steps, o, j, a) ensures w.latestAt[a] < w.actual.chains[o] {
      CompletedAt(start, steps, w, a, o, j);
    }
  }

  lemma CompletedAt(start: World, steps: seq<Step>, w: World, a: Artifact, o: Slot, k: nat)
    requires Reached(start, steps, w) && BeganAt(start, steps, o, k) && Complete(w, a) && a in w.latestAt
    ensures w.latestAt[a] < w.actual.chains[o] <==> CompleteThroughout(start, steps, o, k, a)
  {
    EveryRunKeepsDated(start, steps[..k]);
    CompletedBeforeTheChain(After(start, steps[..k]), steps[k], steps[k + 1..], a, o);
  }

  lemma UnownedSealReads(w: World, a: Artifact)
    requires Coupled(w) && a.Crash? && a.owner.None? && a in w.gate.firstSeen
    ensures SealedByRule(w.gate, a) <==>
      TouchersDone(w.gate, a) && forall o :: o in w.gate.chains ==> w.gate.firstSeen[a] < w.gate.chains[o]
  {
  }

  /** The same for a crash that names no owner, against every chain in flight. */
  lemma SealOfAnUnownedCrash(start: World, steps: seq<Step>, w: World, a: Artifact)
    requires Reached(start, steps, w) && a.Crash? && a.owner.None? && a in w.gate.firstSeen
    ensures SealedByRule(w.gate, a) <==>
      TouchersDone(w.gate, a) && forall o :: o in w.stage ==> SeenBeforeChain(start, steps, o, a)
  {
    ReachedHolds(start, steps, w);
    UnownedSealReads(w, a);
    forall o | o in w.stage ensures w.gate.firstSeen[a] < w.gate.chains[o] <==> SeenBeforeChain(start, steps, o, a) {
      StampedExactly(start, steps, w, a, o);
    }
  }

  /** A run in which the promise fails: the owner of a crash left by an earlier
      session reopens it and completes it again between two looks, and the next
      look seals it on the old tick under the session still running. */
  function ReopeningRun(a: Artifact, o: Slot): seq<Step> {
    [Gating(Launch(o, false)), Write(o, a, false), Write(o, a, true), Gating(Stamp({a}, {}))]
  }

  lemma LaunchAndReopen(w: World, a: Artifact, o: Slot) returns (v: World)
    requires o !in w.stage && BatchDone(w) && a.Crash? && a in w.disk && a !in w.gone
    ensures Runs(w, ReopeningRun(a, o)[..2]) && v == After(w, ReopeningRun(a, o)[..2])
    ensures o in v.stage && v.stage[o].Running? && v.disk == w.disk[a := false] && v.gone == w.gone
    ensures v.gate == Launched(w.gate, o, false)
    ensures o in v.actual.chains && v.actual.chains[o] <= v.actual.clock
  {
    var launch, reopen := Gating(Launch(o, false)), Write(o, a, false);
    var u := Next(w, launch);
    v := Next(u, reopen);
    OneMore(u, reopen, []);
    OneMore(w, launch, [reopen]);
    assert ReopeningRun(a, o)[..2] == [launch] + [reopen] && [reopen] == [reopen] + [];
  }

  lemma CompleteAndLook(w: World, a: Artifact, o: Slot) returns (v: World)
    requires o in w.stage && w.stage[o].Running? && a.Crash? && a in w.disk && !w.disk[a] && a !in w.gone
    requires o in w.actual.chains && w.actual.chains[o] <= w.actual.clock
    ensures Runs(w, ReopeningRun(a, o)[2..]) && v == After(w, ReopeningRun(a, o)[2..])
    ensures o in v.stage && v.stage[o].Running?
    ensures v.gate == Stamped(w.gate, {a}, {})
    ensures o in v.actual.chains && a in v.latestAt && v.actual.chains[o] < v.latestAt[a]
  {
    var complete, look := Write(o, a, true), Gating(Stamp({a}, {}));
    var u := Next(w, complete);
    v := Next(u, look);
    OneMore(u, look, []);
    OneMore(w, complete, [look]);
    assert ReopeningRun(a, o)[2..] == [complete] + [look] && [look] == [look] + [];
  }

  lemma ReopeningRunRuns(w: World, a: Artifact, o: Slot) returns (v: World)
    requires o !in w.stage && BatchDone(w) && a.Crash? && a in w.disk && a !in w.gone
    ensures Runs(w, ReopeningRun(a, o)) && v == After(w, ReopeningRun(a, o))
    ensures o in v.stage && v.stage[o].Running? && v.gate == Stamped(Launched(w.gate, o, false), {a}, {})
    ensures o in v.actual.chains && a in v.latestAt && v.actual.chains[o] < v.latestAt[a]
  {
    var steps := ReopeningRun(a, o);
    var u := LaunchAndReopen(w, a, o);
    v := CompleteAndLook(u, a, o);
    RunsConcat(w, steps[..2], steps[2..]);
    assert steps == steps[..2] + steps[2..];
  }

  lemma UnseenReopeningReseals(w: World, a: Artifact, o: Slot)
    requires Fresh(w) && a.Crash? && a.owner == Some(o) && Complete(w, a) && a !in w.gone
    ensures Runs(w, ReopeningRun(a, o))
    ensures var v := After(w, ReopeningRun(a, o));
      && o in v.stage && v.stage[o].Running? && a in v.gate.firstSeen
      && SealedByRule(v.gate, a)
      && a in v.latestAt && o in v.actual.chains && v.actual.chains[o] < v.latestAt[a]
  {
    var v := ReopeningRunRuns(w, a, o);
    assert w.gate.firstSeen[a] == 0 && w.gate.clock == 0 && v.gate.touched == map[];
  }
}
