/** How long the gate lets a sealed finding wait for company before its first
    trigger review (`_hold_unreviewed` in lib/audit_runner.py). */
module GateHold {
  import opened Common
  import opened GateRules

  const GATE_BATCH_HOLD_SECONDS := 180.0
  const TRIGGER_BATCH_SIZE := 4

  function Unreviewed(findings: seq<Artifact>, reviewed: set<Artifact>): seq<Artifact> {
    Filter((a: Artifact) => a !in reviewed, findings)
  }

  /** The first-seen-unreviewed times after a sweep looked at `waiting`. */
  function Noted(since: map<Artifact, real>, waiting: seq<Artifact>, now: real): map<Artifact, real> {
    map a | a in since.Keys + (set w | w in waiting) :: if a in since then since[a] else now
  }

  function Oldest(since: map<Artifact, real>, waiting: seq<Artifact>): (t: real)
    requires waiting != [] && forall a :: a in waiting ==> a in since
    ensures forall a :: a in waiting ==> t <= since[a]
    ensures exists a :: a in waiting && t == since[a]
  {
    var last := since[waiting[|waiting| - 1]];
    if |waiting| == 1 then last
    else
      var rest := Oldest(since, waiting[..|waiting| - 1]);
      if last < rest then last else rest
  }

  /** Whether unreviewed findings wait out this sweep: a partial batch, none of
      them past the hold, and the productive wall further away than the hold. */
  predicate Waits(since: map<Artifact, real>, waiting: seq<Artifact>, deadline: Option<real>, now: real) {
    && 0 < |waiting| < TRIGGER_BATCH_SIZE
    && (forall a :: a in waiting ==> a in since && now - since[a] < GATE_BATCH_HOLD_SECONDS)
    && (deadline.Some? ==> GATE_BATCH_HOLD_SECONDS < deadline.value - now)
  }

  /** Which findings wait out a sweep, from what it saw and the times noted before
      it: the unreviewed ones, all or none of them. */
  lemma HeldExactly(since: map<Artifact, real>, findings: seq<Artifact>, reviewed: set<Artifact>, deadline: Option<real>, now: real, a: Artifact)
    ensures var waiting := Unreviewed(findings, reviewed);
      a in waiting && Waits(Noted(since, waiting, now), waiting, deadline, now) <==>
        && a in findings && a !in reviewed
        && |Filter((b: Artifact) => b !in reviewed, findings)| < 4
        && (forall b :: b in findings && b !in reviewed && b in since ==> now - since[b] < 180.0)
        && (deadline.Some? ==> 180.0 < deadline.value - now)
  {
    SameFilter((b: Artifact) => b !in reviewed, (b: Artifact) => b !in reviewed, findings);
  }

  /** What one sweep that reached the hold saw. */
  datatype Pass = Pass(now: real, findings: seq<Artifact>, reviewed: set<Artifact>, deadline: Option<real>)

  function Waiting(p: Pass): seq<Artifact> {
    Unreviewed(p.findings, p.reviewed)
  }

  function NotedOver(passes: seq<Pass>): map<Artifact, real> {
    if passes == [] then map[]
    else
      var p := passes[|passes| - 1];
      Noted(NotedOver(passes[..|passes| - 1]), Waiting(p), p.now)
  }

  function Held(passes: seq<Pass>): seq<Artifact>
    requires passes != []
  {
    var p := passes[|passes| - 1];
    if Waits(NotedOver(passes), Waiting(p), p.deadline, p.now) then Waiting(p) else []
  }

  ghost predicate InOrder(passes: seq<Pass>) {
    forall i, j :: 0 <= i <= j < |passes| ==> passes[i].now <= passes[j].now
  }

  /** Pass `i` is the first in which `a` waits. */
  ghost predicate FirstWait(passes: seq<Pass>, a: Artifact, i: nat) {
    i < |passes| && a in Waiting(passes[i]) && forall j :: 0 <= j < i ==> a !in Waiting(passes[j])
  }

  lemma FirstWaitStays(before: seq<Pass>, p: Pass, a: Artifact, i: nat)
    ensures i < |before| ==> (FirstWait(before + [p], a, i) <==> FirstWait(before, a, i))
    ensures FirstWait(before + [p], a, |before|) <==> a in Waiting(p) && forall j :: 0 <= j < |before| ==> a !in Waiting(before[j])
  {
    var passes := before + [p];
    assert forall j :: 0 <= j < |before| ==> passes[j] == before[j];
    assert passes[|before|] == p;
  }

  lemma {:induction false} NotedAtLast(passes: seq<Pass>, a: Artifact)
    requires a !in NotedOver(passes)
    ensures forall j :: 0 <= j < |passes| ==> a !in Waiting(passes[j])
  {
    if passes != [] {
      var n := |passes| - 1;
      NotedAtLast(passes[..n], a);
      assert forall j :: 0 <= j < n ==> passes[..n][j] == passes[j];
    }
  }

  /** The recorded time of an artifact is that of the first pass it waited in. */
  lemma {:induction false} NotedIsFirstWait(passes: seq<Pass>, a: Artifact)
    ensures a in NotedOver(passes) <==> exists i :: 0 <= i < |passes| && a in Waiting(passes[i])
    ensures a in NotedOver(passes) ==> exists i: nat :: FirstWait(passes, a, i) && NotedOver(passes)[a] == passes[i].now
  {
    if a !in NotedOver(passes) {
      NotedAtLast(passes, a);
    } else {
      var i := WaitedFirst(passes, a);
    }
  }

  lemma {:induction false} WaitedFirst(passes: seq<Pass>, a: Artifact) returns (i: nat)
    requires a in NotedOver(passes)
    ensures FirstWait(passes, a, i) && NotedOver(passes)[a] == passes[i].now
  {
    var n := |passes| - 1;
    var before, p := passes[..n], passes[n];
    assert passes == before + [p];
    if a in NotedOver(before) {
      i := WaitedFirst(before, a);
      FirstWaitStays(before, p, a, i);
    } else {
      i := n;
      NotedAtLast(before, a);
      FirstWaitStays(before, p, a, n);
    }
  }

  /** Over any run of passes, what a pass holds was first seen sealed and
      unreviewed less than the hold ago, is less than one trigger batch, and is
      further than the hold from the wall. */
  lemma HoldIsBounded(passes: seq<Pass>, a: Artifact)
    requires passes != [] && InOrder(passes) && a in Held(passes)
    ensures var last := passes[|passes| - 1];
      && |Held(passes)| < TRIGGER_BATCH_SIZE
      && (last.deadline.Some? ==> GATE_BATCH_HOLD_SECONDS < last.deadline.value - last.now)
      && exists i: nat :: FirstWait(passes, a, i) && last.now - passes[i].now < GATE_BATCH_HOLD_SECONDS
  {
    NotedIsFirstWait(passes, a);
  }

  /** A finding the hold once let go, because it had waited long enough, is
      never held again, and while it waits it keeps every other finding moving. */
  lemma ReleasedByAgeStaysReleased(passes: seq<Pass>, i: nat, a: Artifact)
    requires InOrder(passes) && i < |passes| && a in Waiting(passes[i]) && a in Waiting(passes[|passes| - 1])
    requires GATE_BATCH_HOLD_SECONDS <= passes[|passes| - 1].now - passes[i].now
    ensures Held(passes) == []
  {
    NotedIsFirstWait(passes, a);
    var f: nat :| FirstWait(passes, a, f) && NotedOver(passes)[a] == passes[f].now;
    assert f <= i;
  }
}
