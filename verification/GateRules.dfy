/**
 The result gate that adjudicates artifacts while agent sessions run
 (`SealedGateWorker` in lib/audit_runner.py).

 A slot runs chains of sessions; a continuation session belongs to the chain
 of the session it resumes.  The gate never reads ownership from content: it
 keeps a logical clock, the tick at which each in-flight chain started, the
 tick at which each artifact was first seen complete, and, for each artifact,
 the tick at which a slot's session last ended having named it.

 `Gate` is the value of those four fields.  The functions on it specify the
 methods of the class in SealedGate.dfy; the lemmas are about the functions.
 */
module GateRules {
  import opened Common

  type Slot = nat

  /** An artifact directory.  A crash bundle's name carries the slot that filed
      it, when it carries one at all; a finding's name carries no slot. */
  datatype Artifact = Finding(serial: nat) | Crash(serial: nat, owner: Option<Slot>)

  const GATE_QUIET_SECONDS := 300.0

  datatype Gate = Gate(
    clock: nat,
    chains: map<Slot, nat>,
    firstSeen: map<Artifact, nat>,
    touched: map<Artifact, map<Slot, nat>>)

  // ------------------------------------------------------------ operations

  /** Tick `tick` recorded for `agent` on every artifact in `names`. */
  function Named(touched: map<Artifact, map<Slot, nat>>, agent: Slot, names: set<Artifact>, tick: nat): map<Artifact, map<Slot, nat>> {
    map a | a in touched.Keys + names ::
      if a !in names then touched[a]
      else if a in touched then touched[a][agent := tick]
      else map[agent := tick]
  }

  /** A session of `agent` ended and its transcript names `names`. */
  function Attributed(g: Gate, agent: Slot, names: set<Artifact>): Gate {
    g.(touched := Named(g.touched, agent, names, g.clock))
  }

  /** First-seen after a look at `artifacts`, of which `unfinished` are still
      being written: those lose their tick, and the rest keep or gain one. */
  function StampedTicks(seen: map<Artifact, nat>, clock: nat, artifacts: set<Artifact>, unfinished: set<Artifact>): map<Artifact, nat> {
    map a | a in seen.Keys + artifacts && !(a in artifacts && a in unfinished) ::
      if a in seen then seen[a] else clock
  }

  function Stamped(g: Gate, artifacts: set<Artifact>, unfinished: set<Artifact>): Gate {
    g.(firstSeen := StampedTicks(g.firstSeen, g.clock, artifacts, unfinished))
  }

  function Launched(g: Gate, agent: Slot, continuation: bool): Gate {
    if continuation && agent in g.chains then g else WithChain(g, agent, g.clock + 1)
  }

  /** A chain of `agent` begins at tick `t`. */
  function WithChain(g: Gate, agent: Slot, t: nat): Gate {
    Gate(t, g.chains[agent := t], g.firstSeen, g.touched)
  }

  function Retired(g: Gate, agent: Slot): Gate {
    g.(chains := g.chains - {agent})
  }

  lemma NamedOneMore(touched: map<Artifact, map<Slot, nat>>, agent: Slot, names: set<Artifact>, tick: nat, a: Artifact)
    requires a !in names
    ensures var before := Named(touched, agent, names, tick);
      Named(touched, agent, names + {a}, tick) == before[a := (if a in before then before[a] else map[])[agent := tick]]
  {
  }

  lemma StampedOneMore(seen: map<Artifact, nat>, clock: nat, artifacts: set<Artifact>, unfinished: set<Artifact>, a: Artifact)
    ensures var before := StampedTicks(seen, clock, artifacts, unfinished);
      StampedTicks(seen, clock, artifacts + {a}, unfinished) ==
        if a in unfinished then before - {a}
        else if a in before then before
        else before[a := clock]
  {
    var before := StampedTicks(seen, clock, artifacts, unfinished);
    var after := StampedTicks(seen, clock, artifacts + {a}, unfinished);
    if a in unfinished {
      assert after == before - {a};
    } else {
      assert after == before[a := if a in before then before[a] else clock];
    }
  }

  // ------------------------------------------------------------ the seal

  predicate TouchersDone(g: Gate, a: Artifact) {
    a in g.touched ==>
      forall s :: s in g.touched[a] ==> s !in g.chains || g.chains[s] > g.touched[a][s]
  }

  /** `seen` is below the threshold: the oldest chain in flight, or one past
      the clock when nothing is in flight. */
  predicate BeforeEveryChain(g: Gate, seen: nat) {
    if g.chains == map[] then seen < g.clock + 1
    else forall s :: s in g.chains ==> seen < g.chains[s]
  }

  /** Sealed by chains and touches, whoever has or has not written lately. */
  predicate SealedByRule(g: Gate, a: Artifact)
    requires a in g.firstSeen
  {
    match a
    case Finding(_) =>
      if a in g.touched then TouchersDone(g, a) else BeforeEveryChain(g, g.firstSeen[a])
    case Crash(_, None) =>
      BeforeEveryChain(g, g.firstSeen[a]) && TouchersDone(g, a)
    case Crash(_, Some(o)) =>
      (o in g.chains ==> g.firstSeen[a] < g.chains[o]) && TouchersDone(g, a)
  }

  /** What every operation keeps: ticks never run ahead of the clock, chains
      hold distinct ticks, and a touched artifact has a toucher. */
  ghost predicate WellTicked(g: Gate) {
    && (forall s :: s in g.chains ==> 1 <= g.chains[s] <= g.clock)
    && (forall s, t :: s in g.chains && t in g.chains && s != t ==> g.chains[s] != g.chains[t])
    && (forall a :: a in g.firstSeen ==> g.firstSeen[a] <= g.clock)
    && (forall a :: a in g.touched ==> g.touched[a] != map[])
    && (forall a, s :: a in g.touched && s in g.touched[a] ==> g.touched[a][s] <= g.clock)
  }

  const EmptyGate := Gate(0, map[], map[], map[])

  datatype GateOp =
    | Attribute(agent: Slot, names: set<Artifact>)
    | Stamp(artifacts: set<Artifact>, unfinished: set<Artifact>)
    | Launch(agent: Slot, continuation: bool)
    | Retire(agent: Slot)

  function Apply(g: Gate, op: GateOp): Gate {
    match op
    case Attribute(s, names) => Attributed(g, s, names)
    case Stamp(arts, unf) => Stamped(g, arts, unf)
    case Launch(s, cont) => Launched(g, s, cont)
    case Retire(s) => Retired(g, s)
  }

  function ApplyAll(g: Gate, ops: seq<GateOp>): Gate
    decreases |ops|
  {
    if ops == [] then g else ApplyAll(Apply(g, ops[0]), ops[1..])
  }

  lemma NamingKeepsWellTicked(g: Gate, agent: Slot, names: set<Artifact>)
    requires WellTicked(g)
    ensures WellTicked(Attributed(g, agent, names))
  {
    var h := Attributed(g, agent, names);
    forall a | a in h.touched ensures h.touched[a] != map[] && forall s :: s in h.touched[a] ==> h.touched[a][s] <= h.clock {
      if a in names { assert agent in h.touched[a]; }
    }
  }

  lemma ApplyKeepsWellTicked(g: Gate, op: GateOp)
    requires WellTicked(g)
    ensures WellTicked(Apply(g, op))
    ensures g.clock <= Apply(g, op).clock
  {
    if op.Attribute? { NamingKeepsWellTicked(g, op.agent, op.names); }
  }

  /** Ticks stay coherent over every run from a new worker. */
  lemma {:induction false} EveryRunIsWellTicked(g: Gate, ops: seq<GateOp>)
    requires WellTicked(g)
    ensures WellTicked(ApplyAll(g, ops))
    ensures g.clock <= ApplyAll(g, ops).clock
    decreases |ops|
  {
    if ops != [] {
      ApplyKeepsWellTicked(g, ops[0]);
      EveryRunIsWellTicked(Apply(g, ops[0]), ops[1..]);
    }
  }

  // ------------------------------------------------------------ exactness

  type Chains = map<Slot, nat>

  ghost predicate SameSeenOrder(seen: map<Artifact, nat>, chains: Chains, realSeen: map<Artifact, nat>, realChains: Chains) {
    && seen.Keys == realSeen.Keys && chains.Keys == realChains.Keys
    && forall a, s :: a in seen && s in chains ==> (seen[a] < chains[s] <==> realSeen[a] < realChains[s])
  }

  ghost predicate SameTouch(m: map<Slot, nat>, chains: Chains, n: map<Slot, nat>, realChains: Chains) {
    && m.Keys == n.Keys && chains.Keys == realChains.Keys
    && forall s :: s in m && s in chains ==> (m[s] < chains[s] <==> n[s] < realChains[s])
  }

  ghost predicate SameTouchOrder(touched: map<Artifact, map<Slot, nat>>, chains: Chains, realTouched: map<Artifact, map<Slot, nat>>, realChains: Chains) {
    && touched.Keys == realTouched.Keys
    && forall a :: a in touched ==> SameTouch(touched[a], chains, realTouched[a], realChains)
  }

  /** Two gates that decide every comparison of ticks the same way. */
  ghost predicate SameOrder(g: Gate, r: Gate) {
    && g.chains.Keys == r.chains.Keys
    && SameSeenOrder(g.firstSeen, g.chains, r.firstSeen, r.chains)
    && SameTouchOrder(g.touched, g.chains, r.touched, r.chains)
  }

  /** Time passes: the clock moves and nothing is recorded. */
  function Tick(g: Gate): Gate {
    g.(clock := g.clock + 1)
  }

  lemma NamedEntry(touched: map<Artifact, map<Slot, nat>>, agent: Slot, names: set<Artifact>, tick: nat, a: Artifact)
    requires a in touched || a in names
    ensures var m := Named(touched, agent, names, tick);
      var before := if a in touched then touched[a] else map[];
      a in m && m[a] == if a in names then before[agent := tick] else before
  {
  }

  lemma NamingKeepsTouchOrder(
      touched: map<Artifact, map<Slot, nat>>, chains: Chains, tick: nat,
      realTouched: map<Artifact, map<Slot, nat>>, realChains: Chains, realTick: nat, agent: Slot, names: set<Artifact>)
    requires chains.Keys == realChains.Keys && SameTouchOrder(touched, chains, realTouched, realChains)
    requires agent in chains ==> chains[agent] <= tick && realChains[agent] <= realTick
    ensures SameTouchOrder(Named(touched, agent, names, tick), chains, Named(realTouched, agent, names, realTick), realChains)
  {
    var m, n := Named(touched, agent, names, tick), Named(realTouched, agent, names, realTick);
    forall a | a in m ensures SameTouch(m[a], chains, n[a], realChains) {
      NamedEntry(touched, agent, names, tick, a);
      NamedEntry(realTouched, agent, names, realTick, a);
    }
  }

  lemma RelaunchKeepsTouchOrder(
      touched: map<Artifact, map<Slot, nat>>, chains: Chains, realTouched: map<Artifact, map<Slot, nat>>, realChains: Chains,
      agent: Slot, launch: nat, realLaunch: nat)
    requires SameTouchOrder(touched, chains, realTouched, realChains)
    requires forall a, s :: a in touched && s in touched[a] ==> touched[a][s] < launch
    requires forall a, s :: a in realTouched && s in realTouched[a] ==> realTouched[a][s] < realLaunch
    ensures SameTouchOrder(touched, chains[agent := launch], realTouched, realChains[agent := realLaunch])
  {
    forall a | a in touched ensures SameTouch(touched[a], chains[agent := launch], realTouched[a], realChains[agent := realLaunch]) {
      assert SameTouch(touched[a], chains, realTouched[a], realChains);
    }
  }

  lemma RetirementKeepsTouchOrder(
      touched: map<Artifact, map<Slot, nat>>, chains: Chains, realTouched: map<Artifact, map<Slot, nat>>, realChains: Chains, agent: Slot)
    requires SameTouchOrder(touched, chains, realTouched, realChains)
    ensures SameTouchOrder(touched, chains - {agent}, realTouched, realChains - {agent})
  {
    forall a | a in touched ensures SameTouch(touched[a], chains - {agent}, realTouched[a], realChains - {agent}) {
      assert SameTouch(touched[a], chains, realTouched[a], realChains);
    }
  }

  lemma StampingKeepsSeenOrder(
      seen: map<Artifact, nat>, chains: Chains, tick: nat, realSeen: map<Artifact, nat>, realChains: Chains, realTick: nat,
      artifacts: set<Artifact>, unfinished: set<Artifact>)
    requires SameSeenOrder(seen, chains, realSeen, realChains)
    requires forall s :: s in chains ==> chains[s] <= tick
    requires forall s :: s in realChains ==> realChains[s] <= realTick
    ensures SameSeenOrder(StampedTicks(seen, tick, artifacts, unfinished), chains, StampedTicks(realSeen, realTick, artifacts, unfinished), realChains)
  {
  }

  lemma RelaunchKeepsSeenOrder(
      seen: map<Artifact, nat>, chains: Chains, realSeen: map<Artifact, nat>, realChains: Chains, agent: Slot, launch: nat, realLaunch: nat)
    requires SameSeenOrder(seen, chains, realSeen, realChains)
    requires forall a :: a in seen ==> seen[a] < launch
    requires forall a :: a in realSeen ==> realSeen[a] < realLaunch
    ensures SameSeenOrder(seen, chains[agent := launch], realSeen, realChains[agent := realLaunch])
  {
  }

  /** One operation, on the logical clock and at its real time. */
  lemma OperationsKeepOrder(g: Gate, r: Gate, op: GateOp)
    requires WellTicked(g) && WellTicked(r) && SameOrder(g, r)
    ensures SameOrder(Apply(g, op), Apply(Tick(r), op))
  {
    match op
    case Attribute(s, names) =>
      NamingKeepsTouchOrder(g.touched, g.chains, g.clock, r.touched, r.chains, r.clock + 1, s, names);
      OrderOfNewTouches(g, r, Named(g.touched, s, names, g.clock), Named(r.touched, s, names, r.clock + 1));
    case Stamp(arts, unf) => StampingKeepsSeenOrder(g.firstSeen, g.chains, g.clock, r.firstSeen, r.chains, r.clock + 1, arts, unf);
    case Launch(s, c) => LaunchKeepsOrder(g, r, s, c);
    case Retire(s) => RetirementKeepsTouchOrder(g.touched, g.chains, r.touched, r.chains, s);
  }

  lemma OrderOfNewTouches(g: Gate, r: Gate, touched: map<Artifact, map<Slot, nat>>, realTouched: map<Artifact, map<Slot, nat>>)
    requires SameOrder(g, r) && SameTouchOrder(touched, g.chains, realTouched, r.chains)
    ensures SameOrder(g.(touched := touched), Tick(r).(touched := realTouched))
  {
  }

  /** No record runs ahead of the clock. */
  ghost predicate NoneAhead(g: Gate) {
    && (forall a, s :: a in g.touched && s in g.touched[a] ==> g.touched[a][s] <= g.clock)
    && (forall a :: a in g.firstSeen ==> g.firstSeen[a] <= g.clock)
  }

  lemma FreshLaunchKeepsTouches(g: Gate, r: Gate, agent: Slot)
    requires NoneAhead(g) && NoneAhead(r) && SameTouchOrder(g.touched, g.chains, r.touched, r.chains)
    ensures var h, q := Launched(g, agent, false), Launched(Tick(r), agent, false);
      SameTouchOrder(h.touched, h.chains, q.touched, q.chains)
  {
    RelaunchKeepsTouchOrder(g.touched, g.chains, r.touched, r.chains, agent, g.clock + 1, r.clock + 2);
  }

  lemma FreshLaunchKeepsSeen(g: Gate, r: Gate, agent: Slot)
    requires NoneAhead(g) && NoneAhead(r) && SameSeenOrder(g.firstSeen, g.chains, r.firstSeen, r.chains)
    ensures var h, q := Launched(g, agent, false), Launched(Tick(r), agent, false);
      SameSeenOrder(h.firstSeen, h.chains, q.firstSeen, q.chains)
  {
    RelaunchKeepsSeenOrder(g.firstSeen, g.chains, r.firstSeen, r.chains, agent, g.clock + 1, r.clock + 2);
  }

  lemma FreshLaunchKeepsOrder(g: Gate, r: Gate, agent: Slot)
    requires NoneAhead(g) && NoneAhead(r) && SameOrder(g, r)
    ensures SameOrder(Launched(g, agent, false), Launched(Tick(r), agent, false))
  {
    FreshLaunchKeepsTouches(g, r, agent);
    FreshLaunchKeepsSeen(g, r, agent);
  }

  lemma LaunchKeepsOrder(g: Gate, r: Gate, agent: Slot, continuation: bool)
    requires NoneAhead(g) && NoneAhead(r) && SameOrder(g, r)
    ensures SameOrder(Launched(g, agent, continuation), Launched(Tick(r), agent, continuation))
  {
    if continuation && agent in g.chains {
      assert Launched(g, agent, continuation) == g && Launched(Tick(r), agent, continuation) == Tick(r);
    } else {
      FreshLaunchKeepsOrder(g, r, agent);
    }
  }

  /** The seal depends on the order of events only: a logical clock and real
      time seal the same artifacts. */
  lemma SameOrderSealsTheSame(g: Gate, r: Gate, a: Artifact)
    requires SameOrder(g, r) && a in g.firstSeen
    requires g.firstSeen[a] <= g.clock && r.firstSeen[a] <= r.clock
    ensures SealedByRule(g, a) <==> SealedByRule(r, a)
  {
    assert g.chains == map[] <==> r.chains == map[];
    assert BeforeEveryChain(g, g.firstSeen[a]) <==> BeforeEveryChain(r, r.firstSeen[a]);
    if a in g.touched {
      assert SameTouch(g.touched[a], g.chains, r.touched[a], r.chains);
    }
  }

  // ------------------------------------------------------------ stability

  /** The only two things that can unseal `a`: a session naming it, or a look
      that finds it unfinished. */
  predicate Disturbs(op: GateOp, a: Artifact) {
    match op
    case Attribute(_, names) => a in names
    case Stamp(arts, unf) => a in arts && a in unf
    case Launch(_, _) => false
    case Retire(_) => false
  }

  lemma SealSurvivesOne(g: Gate, op: GateOp, a: Artifact)
    requires WellTicked(g) && a in g.firstSeen && SealedByRule(g, a)
    requires !Disturbs(op, a)
    ensures var h := Apply(g, op); a in h.firstSeen && h.firstSeen[a] == g.firstSeen[a] && SealedByRule(h, a)
  {
    match op
    case Attribute(s, names) => SealReadsOnly(g, Apply(g, op), a);
    case Stamp(_, _) => SealReadsOnly(g, Apply(g, op), a);
    case Launch(s, c) => YoungerChainSeals(g, s, c, a);
    case Retire(s) => FewerChainsSeal(g, s, a);
  }

  /** The seal of `a` reads the clock, the chains, and what is recorded for `a`. */
  lemma SealReadsOnly(g: Gate, h: Gate, a: Artifact)
    requires a in g.firstSeen && SealedByRule(g, a)
    requires h.clock == g.clock && h.chains == g.chains && a in h.firstSeen && h.firstSeen[a] == g.firstSeen[a]
    requires (a in h.touched <==> a in g.touched) && (a in g.touched ==> h.touched[a] == g.touched[a])
    ensures SealedByRule(h, a)
  {
    assert TouchersDone(g, a) ==> TouchersDone(h, a);
    assert BeforeEveryChain(h, g.firstSeen[a]) <==> BeforeEveryChain(g, g.firstSeen[a]);
  }

  lemma YoungerChainSeals(g: Gate, agent: Slot, continuation: bool, a: Artifact)
    requires WellTicked(g) && a in g.firstSeen && SealedByRule(g, a)
    ensures SealedByRule(Launched(g, agent, continuation), a)
  {
    var h := Launched(g, agent, continuation);
    assert TouchersDone(g, a) ==> TouchersDone(h, a);
    assert BeforeEveryChain(g, g.firstSeen[a]) ==> BeforeEveryChain(h, g.firstSeen[a]);
  }

  lemma FewerChainsSeal(g: Gate, agent: Slot, a: Artifact)
    requires WellTicked(g) && a in g.firstSeen && SealedByRule(g, a)
    ensures SealedByRule(Retired(g, agent), a)
  {
    var h := Retired(g, agent);
    assert TouchersDone(g, a) ==> TouchersDone(h, a);
    assert BeforeEveryChain(g, g.firstSeen[a]) ==> BeforeEveryChain(h, g.firstSeen[a]);
  }

  /** A sealed artifact stays sealed through any launches, continuations,
      retirements and sweeps, and through every attribution of other names. */
  lemma {:induction false} SealIsStable(g: Gate, ops: seq<GateOp>, a: Artifact)
    requires WellTicked(g) && a in g.firstSeen && SealedByRule(g, a)
    requires forall op :: op in ops ==> !Disturbs(op, a)
    ensures var h := ApplyAll(g, ops); a in h.firstSeen && SealedByRule(h, a)
    decreases |ops|
  {
    if ops != [] {
      SealSurvivesOne(g, ops[0], a);
      ApplyKeepsWellTicked(g, ops[0]);
      SealIsStable(Apply(g, ops[0]), ops[1..], a);
    }
  }

  /** What a naming does to a seal, exactly: it replaces the wide rule for a
      finding, and blocks while the naming slot still has a chain. */
  lemma NamingUnsealsExactly(g: Gate, agent: Slot, names: set<Artifact>, a: Artifact)
    requires WellTicked(g) && a in g.firstSeen && a in names
    ensures var h := Attributed(g, agent, names);
      SealedByRule(h, a) <==>
        && agent !in g.chains
        && (forall s :: a in g.touched && s in g.touched[a] && s in g.chains ==> g.chains[s] > g.touched[a][s])
        && (a.Crash? && a.owner.Some? && a.owner.value in g.chains ==> g.firstSeen[a] < g.chains[a.owner.value])
        && (a.Crash? && a.owner.None? ==> BeforeEveryChain(g, g.firstSeen[a]))
  {
    var h := Attributed(g, agent, names);
    assert h.touched[a].Keys == (if a in g.touched then g.touched[a].Keys else {}) + {agent};
    assert h.touched[a][agent] == g.clock;
    if SealedByRule(h, a) && a in g.touched {
      forall s | s in g.touched[a] && s in g.chains ensures g.chains[s] > g.touched[a][s] {
        assert s in h.touched[a];
      }
    }
    assert BeforeEveryChain(h, g.firstSeen[a]) <==> BeforeEveryChain(g, g.firstSeen[a]);
  }

  // ------------------------------------------------------------ completeness

  /** With no chain in flight, exactly the complete artifacts are sealed: the
      barrier finds nothing the gate would still hold back. */
  lemma DrainedGateSealsTheComplete(g: Gate, artifacts: set<Artifact>, unfinished: set<Artifact>, a: Artifact)
    requires WellTicked(g) && g.chains == map[] && a in artifacts
    ensures var h := Stamped(g, artifacts, unfinished);
      (a in h.firstSeen && SealedByRule(h, a)) <==> a !in unfinished
  {
    var h := Stamped(g, artifacts, unfinished);
    assert a !in unfinished ==> a in h.firstSeen && h.firstSeen[a] <= h.clock;
    assert TouchersDone(h, a);
  }

  /** Looking before relaunching is what lets a crash be gated beside its own
      slot's next chain: after attribute, observe, launch, only a recorded
      touch by another chain still in flight keeps a complete crash open. */
  lemma ObservedCrashOutlivesItsOwnersRelaunch(
      g: Gate, artifacts: set<Artifact>, unfinished: set<Artifact>, a: Artifact, agent: Slot)
    requires WellTicked(g)
    requires a.Crash? && a.owner == Some(agent) && a in artifacts && a !in unfinished
    ensures var h := Launched(Stamped(g, artifacts, unfinished), agent, false);
      && a in h.firstSeen
      && (SealedByRule(h, a) <==>
          !exists s :: s != agent && s in g.chains && a in g.touched && s in g.touched[a] && g.chains[s] <= g.touched[a][s])
  {
    var st := Stamped(g, artifacts, unfinished);
    var h := Launched(st, agent, false);
    assert h.firstSeen[a] <= g.clock < h.chains[agent];
    if a in g.touched {
      forall s | s in g.touched[a] ensures
        (s !in h.chains || h.chains[s] > h.touched[a][s]) <==>
        (s == agent || s !in g.chains || g.chains[s] > g.touched[a][s]) {}
    }
  }

  /** The same relaunch taken as a continuation keeps the crash open exactly
      when it was first seen in the chain being continued, or is still touched. */
  lemma ContinuationKeepsTheSealClosed(g: Gate, agent: Slot, a: Artifact)
    requires WellTicked(g) && agent in g.chains
    requires a in g.firstSeen && a.Crash? && a.owner == Some(agent)
    ensures SealedByRule(Launched(g, agent, true), a) <==>
      g.firstSeen[a] < g.chains[agent] && TouchersDone(g, a)
  {
  }

  // ------------------------------------------------------------ one look at the tree

  /** What a look reads off the disk: the artifacts in listing order, which of
      them are unfinished, and the seconds since each was last written. */
  datatype Look = Look(listing: seq<Artifact>, unfinished: set<Artifact>, unwritten: map<Artifact, real>) {
    function Artifacts(): set<Artifact> {
      set a | a in listing
    }
    ghost predicate Valid() {
      forall a :: a in listing ==> a in unwritten
    }
  }

  const IsFinding := (a: Artifact) => a.Finding?

  /** Whether the look hands `a` to its gate.  Only a crash may be sealed by
      quiet alone, and nothing unfinished is sealed at all. */
  predicate HandedOver(g: Gate, look: Look, a: Artifact) {
    && a !in look.unfinished
    && a in g.firstSeen
    && (SealedByRule(g, a) || (a.Crash? && a in look.unwritten && GATE_QUIET_SECONDS <= look.unwritten[a]))
  }

  predicate AwaitsQuiet(g: Gate, look: Look, a: Artifact) {
    && a.Crash? && a !in look.unfinished && a in g.firstSeen && a in look.unwritten
    && !SealedByRule(g, a) && look.unwritten[a] < GATE_QUIET_SECONDS
  }

  function SealedFindings(g: Gate, look: Look, listing: seq<Artifact>): seq<Artifact> {
    Filter((a: Artifact) => a.Finding? && HandedOver(g, look, a), listing)
  }

  function SealedCrashes(g: Gate, look: Look, listing: seq<Artifact>): seq<Artifact> {
    Filter((a: Artifact) => a.Crash? && HandedOver(g, look, a), listing)
  }

  function Sooner(wait: Option<real>, other: real): real {
    if wait.None? || other < wait.value then other else wait.value
  }

  function DueAt(now: real, wait: Option<real>): Option<real> {
    if wait.None? then None else Some(now + wait.value)
  }

  /** The shortest wait until some complete, unsealed crash turns quiet. */
  function NextQuiet(g: Gate, look: Look, listing: seq<Artifact>): Option<real> {
    if listing == [] then None
    else
      var rest, a := NextQuiet(g, look, listing[..|listing| - 1]), listing[|listing| - 1];
      if AwaitsQuiet(g, look, a) then Some(Sooner(rest, GATE_QUIET_SECONDS - look.unwritten[a])) else rest
  }

  /** There is a next quiet wait exactly when a complete crash is still open,
      and it is the least of their waits. */
  lemma {:induction false} NextQuietIsTheLeast(g: Gate, look: Look, listing: seq<Artifact>)
    ensures var r := NextQuiet(g, look, listing);
      if r.None? then forall a :: a in listing ==> !AwaitsQuiet(g, look, a)
      else
        && (exists a :: a in listing && AwaitsQuiet(g, look, a) && r.value == GATE_QUIET_SECONDS - look.unwritten[a])
        && (forall a :: a in listing && AwaitsQuiet(g, look, a) ==> 0.0 < r.value <= GATE_QUIET_SECONDS - look.unwritten[a])
  {
    if listing != [] {
      var rest, a := listing[..|listing| - 1], listing[|listing| - 1];
      NextQuietIsTheLeast(g, look, rest);
      assert listing == rest + [a];
    }
  }

  /** What a look hands over, in listing order: complete findings that the rule
      seals, and complete crashes that it seals or that nothing has written for
      the quiet span. */
  lemma HandedOverExactly(g: Gate, look: Look)
    requires look.Valid()
    ensures SealedFindings(g, look, look.listing) ==
      Filter((a: Artifact) => a.Finding? && a !in look.unfinished && a in g.firstSeen && SealedByRule(g, a), look.listing)
    ensures SealedCrashes(g, look, look.listing) ==
      Filter((a: Artifact) => a.Crash? && a !in look.unfinished && a in g.firstSeen && a in look.unwritten
                              && (SealedByRule(g, a) || 300.0 <= look.unwritten[a]), look.listing)
  {
    SameFilter((a: Artifact) => a.Finding? && HandedOver(g, look, a),
               (a: Artifact) => a.Finding? && a !in look.unfinished && a in g.firstSeen && SealedByRule(g, a), look.listing);
    SameFilter((a: Artifact) => a.Crash? && HandedOver(g, look, a),
               (a: Artifact) => a.Crash? && a !in look.unfinished && a in g.firstSeen && a in look.unwritten
                                && (SealedByRule(g, a) || 300.0 <= look.unwritten[a]), look.listing);
  }

  lemma LookStep(g: Gate, look: Look, i: nat)
    requires i < |look.listing|
    ensures var upto, next, a := look.listing[..i], look.listing[..i + 1], look.listing[i];
      && SealedFindings(g, look, next) == SealedFindings(g, look, upto) + (if a.Finding? && HandedOver(g, look, a) then [a] else [])
      && SealedCrashes(g, look, next) == SealedCrashes(g, look, upto) + (if a.Crash? && HandedOver(g, look, a) then [a] else [])
      && |Filter(IsFinding, next)| == |Filter(IsFinding, upto)| + (if a.Finding? then 1 else 0)
      && NextQuiet(g, look, next) ==
           if AwaitsQuiet(g, look, a) then Some(Sooner(NextQuiet(g, look, upto), GATE_QUIET_SECONDS - look.unwritten[a]))
           else NextQuiet(g, look, upto)
  {
    assert look.listing[..i + 1][..i] == look.listing[..i];
    FilterStep((a: Artifact) => a.Finding? && HandedOver(g, look, a), look.listing, i);
    FilterStep((a: Artifact) => a.Crash? && HandedOver(g, look, a), look.listing, i);
    FilterStep(IsFinding, look.listing, i);
  }

  ghost predicate IsThreshold(g: Gate, t: nat) {
    if g.chains == map[] then t == g.clock + 1
    else (exists s :: s in g.chains && g.chains[s] == t) && forall s :: s in g.chains ==> t <= g.chains[s]
  }

  lemma ThresholdDecides(g: Gate, t: nat, seen: nat)
    requires IsThreshold(g, t)
    ensures seen < t <==> BeforeEveryChain(g, seen)
  {
    if g.chains != map[] {
      var s :| s in g.chains && g.chains[s] == t;
    }
  }
}
