/**
 What the gate worker hands on in the states its schedulers can bring about: the
 lists that `SealedGateWorker.sealed` in lib/audit_runner.py returns, read against
 who is still writing.
 */
module SealedLook {
  import opened Common
  import opened GateRules
  import opened SealedGate
  import P = GateProtocol

  /** The worker's records are those of the protocol's state, and the look is true
      to its tree. */
  ghost predicate LooksAt(worker: SealedGateWorker, look: Look, w: P.World)
    reads worker
  {
    && worker.Value() == w.gate && look.Valid()
    && P.Enabled(w, P.Gating(Stamp(look.Artifacts(), look.unfinished)))
  }

  lemma LookIsReached(start: P.World, steps: seq<P.Step>, w: P.World, look: P.Step)
    requires P.Reached(start, steps, w) && P.Enabled(w, look)
    ensures P.Runs(start, steps + [look]) && P.Reached(start, steps + [look], P.Next(w, look))
  {
    P.OneMore(w, look, []);
    assert [look] + [] == [look];
    P.RunsConcat(start, steps, [look]);
  }

  /** What no session in flight can write. */
  ghost predicate Over(v: P.World, a: Artifact) {
    a.Finding? && P.Complete(v, a) && forall s, complete :: !P.Enabled(v, P.Write(s, a, complete))
  }

  /** A crash first complete, since it was last found open, before its owner's
      chain, or before every chain if it names no owner. */
  ghost predicate Settled(v: P.World, a: Artifact) {
    && a.Crash?
    && forall s | s in v.stage && (a.owner == Some(s) || a.owner.None?) ::
         a in v.completedAt && s in v.actual.chains && v.completedAt[a] < v.actual.chains[s]
  }

  lemma FindingIsOver(start: P.World, steps: seq<P.Step>, v: P.World, a: Artifact)
    requires P.Reached(start, steps, v) && P.Complete(v, a)
    requires a.Finding? && a in v.gate.firstSeen && SealedByRule(v.gate, a)
    ensures Over(v, a)
  {
    P.SealedFindingHasNoLiveWriter(start, steps, v, a);
  }

  lemma CrashIsSettled(start: P.World, steps: seq<P.Step>, v: P.World, a: Artifact)
    requires P.Reached(start, steps, v)
    requires a.Crash? && a in v.gate.firstSeen && SealedByRule(v.gate, a)
    ensures Settled(v, a)
  {
    forall s | s in v.stage && (a.owner == Some(s) || a.owner.None?)
      ensures a in v.completedAt && s in v.actual.chains && v.completedAt[a] < v.actual.chains[s]
    {
      P.SealedCrashPredatesItsOwnersChain(start, steps, v, a, s);
    }
  }

  lemma ListedIsComplete(w: P.World, look: Look, a: Artifact)
    requires look.Valid() && P.Enabled(w, P.Gating(Stamp(look.Artifacts(), look.unfinished)))
    requires a in look.listing && a !in look.unfinished
    ensures P.Complete(P.Next(w, P.Gating(Stamp(look.Artifacts(), look.unfinished))), a)
  {
  }

  /** In every reached state, no finding that comes back can be written by a
      session in flight, and a crash that comes back is quiet or was first
      complete, since a look last found it open, before its owner's chain, or
      every chain if it names no owner. */
  method SealedInAReachedState(worker: SealedGateWorker, look: Look, now: real, ghost start: P.World, ghost steps: seq<P.Step>, ghost w: P.World)
      returns (findings: seq<Artifact>, crashes: seq<Artifact>)
    requires P.Reached(start, steps, w) && LooksAt(worker, look, w)
    modifies worker`firstSeen, worker`quietDeadline
    ensures var v := P.Next(w, P.Gating(Stamp(look.Artifacts(), look.unfinished)));
      && worker.Value() == v.gate
      && (forall a | a in findings :: a in look.listing && Over(v, a))
      && (forall a | a in crashes :: a in look.listing && a.Crash? && P.Complete(v, a))
      && (forall a | a in crashes :: Settled(v, a) || (a in look.unwritten && 300.0 <= look.unwritten[a]))
  {
    ghost var step := P.Gating(Stamp(look.Artifacts(), look.unfinished));
    ghost var v := P.Next(w, step);
    LookIsReached(start, steps, w, step);
    var total, crashTotal;
    findings, crashes, total, crashTotal := worker.Sealed(look, now);
    forall a | a in findings ensures Over(v, a) {
      ListedIsComplete(w, look, a);
      FindingIsOver(start, steps + [step], v, a);
    }
    forall a | a in crashes ensures P.Complete(v, a) && (Settled(v, a) || (a in look.unwritten && 300.0 <= look.unwritten[a])) {
      ListedIsComplete(w, look, a);
      if SealedByRule(v.gate, a) { CrashIsSettled(start, steps + [step], v, a); }
    }
  }

  /** With no chain in flight exactly the complete artifacts come back, in listing
      order. */
  method SealedWhenDrained(worker: SealedGateWorker, look: Look, now: real) returns (findings: seq<Artifact>, crashes: seq<Artifact>)
    requires look.Valid() && WellTicked(worker.Value()) && worker.chains == map[]
    modifies worker`firstSeen, worker`quietDeadline
    ensures findings == Filter((a: Artifact) => a.Finding? && a !in look.unfinished, look.listing)
    ensures crashes == Filter((a: Artifact) => a.Crash? && a !in look.unfinished, look.listing)
  {
    ghost var before := worker.Value();
    var total, crashTotal;
    findings, crashes, total, crashTotal := worker.Sealed(look, now);
    ghost var g := worker.Value();
    forall a | a in look.listing ensures (a in g.firstSeen && SealedByRule(g, a)) <==> a !in look.unfinished {
      DrainedGateSealsTheComplete(before, look.Artifacts(), look.unfinished, a);
    }
    SameFilter((a: Artifact) => a.Finding? && a !in look.unfinished && a in g.firstSeen && SealedByRule(g, a),
               (a: Artifact) => a.Finding? && a !in look.unfinished, look.listing);
    SameFilter((a: Artifact) => a.Crash? && a !in look.unfinished && a in g.firstSeen && a in look.unwritten
                                && (SealedByRule(g, a) || 300.0 <= look.unwritten[a]),
               (a: Artifact) => a.Crash? && a !in look.unfinished, look.listing);
  }
}
