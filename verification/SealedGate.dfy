/** The worker object that runs the seal (`SealedGateWorker` in
    lib/audit_runner.py): its fields, and methods proved against GateRules. */
module SealedGate {
  import opened Common
  import opened GateRules
  import opened GateHold

  class SealedGateWorker {
    var clock: nat
    var chains: map<Slot, nat>
    var firstSeen: map<Artifact, nat>
    var touched: map<Artifact, map<Slot, nat>>
    /** When each finding was first sealed without a trigger review. */
    var sealedSince: map<Artifact, real>
    /** When the oldest held finding's hold expires. */
    var holdDeadline: Option<real>
    /** When the next complete, unsealed crash turns quiet. */
    var quietDeadline: Option<real>

    ghost function Value(): Gate
      reads this
    {
      Gate(clock, chains, firstSeen, touched)
    }

    constructor (artifacts: set<Artifact>, unfinished: set<Artifact>)
      ensures Value() == Stamped(EmptyGate, artifacts, unfinished)
      ensures WellTicked(Value())
      ensures sealedSince == map[] && holdDeadline.None? && quietDeadline.None?
    {
      clock, chains, firstSeen, touched := 0, map[], map[], map[];
      sealedSince, holdDeadline, quietDeadline := map[], None, None;
      new;
      Observe(artifacts, unfinished);
      ApplyKeepsWellTicked(EmptyGate, GateOp.Stamp(artifacts, unfinished));
    }

    method Attribute(agent: Slot, names: set<Artifact>)
      modifies `touched
      ensures Value() == Attributed(old(Value()), agent, names)
    {
      var todo := names;
      while todo != {}
        invariant todo <= names
        invariant Value() == Attributed(old(Value()), agent, names - todo)
      {
        var name :| name in todo;
        NamedOneMore(old(touched), agent, names - todo, clock, name);
        assert names - (todo - {name}) == names - todo + {name};
        var slots := if name in touched then touched[name] else map[];
        touched := touched[name := slots[agent := clock]];
        todo := todo - {name};
      }
      assert names - todo == names;
    }

    /** First-seen restarts from completion: a look that finds a bundle
        unfinished forgets the older tick. */
    method StampAll(artifacts: set<Artifact>, unfinished: set<Artifact>)
        returns (seen: map<Artifact, Option<nat>>)
      modifies `firstSeen
      ensures firstSeen == StampedTicks(old(firstSeen), clock, artifacts, unfinished)
      ensures seen.Keys == artifacts
      ensures forall a :: a in seen ==>
        if a in unfinished then seen[a] == None else a in firstSeen && seen[a] == Some(firstSeen[a])
    {
      seen := map[];
      var todo := artifacts;
      ghost var done: set<Artifact> := {};
      assert firstSeen == StampedTicks(old(firstSeen), clock, done, unfinished);
      while todo != {}
        invariant todo + done == artifacts && todo !! done && seen.Keys == done
        invariant firstSeen == StampedTicks(old(firstSeen), clock, done, unfinished)
        invariant forall a :: a in seen ==>
          if a in unfinished then seen[a] == None else a in firstSeen && seen[a] == Some(firstSeen[a])
      {
        var a :| a in todo;
        StampedOneMore(old(firstSeen), clock, done, unfinished, a);
        if a in unfinished {
          firstSeen := firstSeen - {a};
          seen := seen[a := None];
        } else {
          if a !in firstSeen { firstSeen := firstSeen[a := clock]; }
          seen := seen[a := Some(firstSeen[a])];
        }
        todo, done := todo - {a}, done + {a};
      }
    }

    method Observe(artifacts: set<Artifact>, unfinished: set<Artifact>)
      modifies `firstSeen
      ensures Value() == Stamped(old(Value()), artifacts, unfinished)
    {
      var _ := StampAll(artifacts, unfinished);
    }

    method Launch(agent: Slot, continuation: bool)
      modifies `clock, `chains
      ensures Value() == Launched(old(Value()), agent, continuation)
    {
      if !continuation || agent !in chains {
        clock := clock + 1;
        chains := chains[agent := clock];
      }
    }

    method Retire(agent: Slot)
      modifies `chains
      ensures Value() == Retired(old(Value()), agent)
    {
      chains := chains - {agent};
    }

    /** The sealed findings and crashes on disk, and the totals they were
        drawn from.  Stamping and the snapshot of chains and touches happen
        under one lock; judging works on the snapshot. */
    method Sealed(look: Look, now: real)
        returns (findings: seq<Artifact>, crashes: seq<Artifact>, totalFindings: nat, totalCrashes: nat)
      requires look.Valid()
      modifies `firstSeen, `quietDeadline
      ensures Value() == Stamped(old(Value()), look.Artifacts(), look.unfinished)
      ensures findings == SealedFindings(Value(), look, look.listing)
      ensures crashes == SealedCrashes(Value(), look, look.listing)
      ensures var g := Value();
        findings == Filter((a: Artifact) => a.Finding? && a !in look.unfinished && a in g.firstSeen && SealedByRule(g, a), look.listing)
      ensures var g := Value();
        crashes == Filter((a: Artifact) => a.Crash? && a !in look.unfinished && a in g.firstSeen && a in look.unwritten
                                           && (SealedByRule(g, a) || 300.0 <= look.unwritten[a]), look.listing)
      ensures totalFindings == |Filter((a: Artifact) => a.Finding?, look.listing)|
      ensures totalFindings + totalCrashes == |look.listing|
      ensures quietDeadline == DueAt(now, NextQuiet(Value(), look, look.listing))
      ensures quietDeadline.None? ==>
        forall a | a in look.listing && a.Crash? && a !in look.unfinished && a in firstSeen && !SealedByRule(Value(), a) ::
          300.0 <= look.unwritten[a]
      ensures quietDeadline.Some? ==>
        exists a :: a in look.listing && a.Crash? && a !in look.unfinished && a in firstSeen && !SealedByRule(Value(), a)
          && look.unwritten[a] < 300.0 && quietDeadline.value == now + (300.0 - look.unwritten[a])
      ensures quietDeadline.Some? ==>
        forall a | a in look.listing && a.Crash? && a !in look.unfinished && a in firstSeen && !SealedByRule(Value(), a) ::
          300.0 <= look.unwritten[a] || now < quietDeadline.value <= now + (300.0 - look.unwritten[a])
    {
      var _ := StampAll(look.Artifacts(), look.unfinished);
      var snapshot := Gate(clock, chains, firstSeen, touched);
      var nextQuiet;
      findings, crashes, totalFindings, totalCrashes, nextQuiet := Judge(snapshot, look);
      quietDeadline := DueAt(now, nextQuiet);
      HandedOverExactly(snapshot, look);
      NextQuietIsTheLeast(snapshot, look, look.listing);
    }

    /** Note when each waiting finding was first seen sealed and unreviewed. */
    static method NoteAll(since: map<Artifact, real>, waiting: seq<Artifact>, now: real) returns (noted: map<Artifact, real>)
      ensures noted == Noted(since, waiting, now)
    {
      noted := since;
      for i := 0 to |waiting|
        invariant noted == Noted(since, waiting[..i], now)
      {
        assert waiting[..i + 1] == waiting[..i] + [waiting[i]];
        if waiting[i] !in noted { noted := noted[waiting[i] := now]; }
      }
      assert waiting[..|waiting|] == waiting;
    }

    /** The unreviewed findings that wait out this sweep for company. */
    method HoldUnreviewed(findings: seq<Artifact>, reviewed: set<Artifact>, deadline: Option<real>, now: real)
        returns (held: seq<Artifact>)
      modifies `sealedSince, `holdDeadline
      ensures var waiting := Unreviewed(findings, reviewed);
        && sealedSince == Noted(old(sealedSince), waiting, now)
        && held == (if Waits(sealedSince, waiting, deadline, now) then waiting else [])
        && (held == [] ==> holdDeadline == old(holdDeadline))
        && (held != [] ==> holdDeadline == Some(Oldest(sealedSince, waiting) + GATE_BATCH_HOLD_SECONDS))
    {
      var unreviewed := Unreviewed(findings, reviewed);
      sealedSince := NoteAll(sealedSince, unreviewed, now);
      if unreviewed == [] || TRIGGER_BATCH_SIZE <= |unreviewed| { return []; }
      var oldest := Oldest(sealedSince, unreviewed);
      if GATE_BATCH_HOLD_SECONDS <= now - oldest { return []; }
      if deadline.Some? && deadline.value - now <= GATE_BATCH_HOLD_SECONDS { return []; }
      holdDeadline := Some(oldest + GATE_BATCH_HOLD_SECONDS);
      held := unreviewed;
    }

    /** A sweep up to the point where it calls the gates: what it hands the
        finding gate and the crash gate, and what it holds back. */
    method Sweep(look: Look, reviewed: set<Artifact>, deadline: Option<real>, now: real)
        returns (findings: seq<Artifact>, crashes: seq<Artifact>, held: seq<Artifact>)
      requires look.Valid()
      modifies `firstSeen, `quietDeadline, `sealedSince, `holdDeadline
      ensures Value() == Stamped(old(Value()), look.Artifacts(), look.unfinished)
      ensures var all := SealedFindings(Value(), look, look.listing);
        var pastWall := deadline.Some? && deadline.value <= now;
        if pastWall || (all == [] && SealedCrashes(Value(), look, look.listing) == []) then
          findings == [] && crashes == [] && held == [] && sealedSince == old(sealedSince)
        else
          && crashes == SealedCrashes(Value(), look, look.listing)
          && sealedSince == Noted(old(sealedSince), Unreviewed(all, reviewed), now)
          && held == (if Waits(sealedSince, Unreviewed(all, reviewed), deadline, now) then Unreviewed(all, reviewed) else [])
          && findings == Filter((a: Artifact) => a !in held, all)
      ensures quietDeadline == DueAt(now, NextQuiet(Value(), look, look.listing))
      ensures holdDeadline.Some? <==> held != []
      ensures forall a :: a in held ==> a in sealedSince && holdDeadline.value <= sealedSince[a] + GATE_BATCH_HOLD_SECONDS
    {
      holdDeadline := None;
      held := [];
      var total, crashTotal;
      findings, crashes, total, crashTotal := Sealed(look, now);
      if findings == [] && crashes == [] { return; }
      if deadline.Some? && deadline.value <= now { return [], [], []; }
      held := HoldUnreviewed(findings, reviewed, deadline, now);
      findings := Filter((a: Artifact) => a !in held, findings);
    }

    /** When the worker looks again: the hold clock, the quiet clock, or one
        quiet span from now, whichever comes first. */
    method NextWake(now: real) returns (wake: real)
      ensures wake <= now + GATE_QUIET_SECONDS
      ensures holdDeadline.Some? ==> wake <= holdDeadline.value
      ensures quietDeadline.Some? ==> wake <= quietDeadline.value
      ensures wake == now + GATE_QUIET_SECONDS || Some(wake) == holdDeadline || Some(wake) == quietDeadline
    {
      wake := now + GATE_QUIET_SECONDS;
      if holdDeadline.Some? && holdDeadline.value < wake { wake := holdDeadline.value; }
      if quietDeadline.Some? && quietDeadline.value < wake { wake := quietDeadline.value; }
    }
  }

  /** A held finding is looked at again by the time its hold expires, even if
      nothing requests a sweep. */
  method SweepThenSleep(w: SealedGateWorker, look: Look, reviewed: set<Artifact>, deadline: Option<real>, now: real, later: real)
      returns (held: seq<Artifact>, wake: real)
    requires look.Valid() && now <= later
    modifies w
    ensures forall a :: a in held ==>
      a in w.sealedSince && now < w.sealedSince[a] + GATE_BATCH_HOLD_SECONDS && wake <= w.sealedSince[a] + GATE_BATCH_HOLD_SECONDS
    ensures forall a | a in look.listing && a.Crash? && a !in look.unfinished && a in w.firstSeen && !SealedByRule(w.Value(), a) ::
      300.0 <= look.unwritten[a] || wake <= now + (300.0 - look.unwritten[a])
  {
    var findings, crashes;
    findings, crashes, held := w.Sweep(look, reviewed, deadline, now);
    NextQuietIsTheLeast(w.Value(), look, look.listing);
    wake := w.NextWake(later);
  }

  // ------------------------------------------------------------ judging a snapshot

  /** The oldest tick in flight, or one past the clock. */
  method Threshold(g: Gate) returns (t: nat)
    ensures IsThreshold(g, t)
  {
    t := g.clock + 1;
    var todo, first := g.chains.Keys, true;
    while todo != {}
      invariant todo <= g.chains.Keys
      invariant first <==> todo == g.chains.Keys
      invariant first ==> t == g.clock + 1
      invariant !first ==> exists s :: s in g.chains && g.chains[s] == t
      invariant !first ==> forall s :: s in g.chains && s !in todo ==> t <= g.chains[s]
    {
      var s :| s in todo;
      if first || g.chains[s] < t { t := g.chains[s]; }
      todo, first := todo - {s}, false;
    }
  }

  method AllTouchersDone(g: Gate, a: Artifact) returns (done: bool)
    ensures done == TouchersDone(g, a)
  {
    done := true;
    if a in g.touched {
      var todo := g.touched[a].Keys;
      while todo != {}
        invariant todo <= g.touched[a].Keys
        invariant done <==> forall s :: s in g.touched[a].Keys - todo ==> s !in g.chains || g.chains[s] > g.touched[a][s]
      {
        var s :| s in todo;
        if s in g.chains && g.chains[s] <= g.touched[a][s] { done := false; }
        todo := todo - {s};
      }
    }
  }

  /** Whether an artifact the look found complete is handed over now, and,
      for a crash that is not, how long it must stay unwritten before it is. */
  method Verdict(g: Gate, a: Artifact, threshold: nat, unwritten: real) returns (handed: bool, wait: Option<real>)
    requires a in g.firstSeen && IsThreshold(g, threshold)
    ensures handed == (SealedByRule(g, a) || (a.Crash? && GATE_QUIET_SECONDS <= unwritten))
    ensures wait == if handed || a.Finding? then None else Some(GATE_QUIET_SECONDS - unwritten)
  {
    var done := AllTouchersDone(g, a);
    ThresholdDecides(g, threshold, g.firstSeen[a]);
    wait := None;
    if a.Finding? {
      handed := if a in g.touched then done else g.firstSeen[a] < threshold;
      return;
    }
    var started :=
      if a.owner.None? then Some(threshold)
      else if a.owner.value in g.chains then Some(g.chains[a.owner.value])
      else None;
    handed := (started.None? || g.firstSeen[a] < started.value) && done;
    if !handed {
      var remaining := GATE_QUIET_SECONDS - unwritten;
      handed := remaining <= 0.0;
      if !handed { wait := Some(remaining); }
    }
  }

  method Judge(g: Gate, look: Look)
      returns (findings: seq<Artifact>, crashes: seq<Artifact>, totalFindings: nat, totalCrashes: nat, nextQuiet: Option<real>)
    requires look.Valid()
    requires forall a :: a in look.listing && a !in look.unfinished ==> a in g.firstSeen
    ensures findings == SealedFindings(g, look, look.listing)
    ensures crashes == SealedCrashes(g, look, look.listing)
    ensures totalFindings == |Filter(IsFinding, look.listing)|
    ensures totalFindings + totalCrashes == |look.listing|
    ensures nextQuiet == NextQuiet(g, look, look.listing)
  {
    var threshold := Threshold(g);
    findings, crashes, totalFindings, totalCrashes, nextQuiet := [], [], 0, 0, None;
    for i := 0 to |look.listing|
      invariant findings == SealedFindings(g, look, look.listing[..i])
      invariant crashes == SealedCrashes(g, look, look.listing[..i])
      invariant totalFindings == |Filter(IsFinding, look.listing[..i])|
      invariant totalFindings + totalCrashes == i
      invariant nextQuiet == NextQuiet(g, look, look.listing[..i])
    {
      var a := look.listing[i];
      LookStep(g, look, i);
      if a.Finding? { totalFindings := totalFindings + 1; } else { totalCrashes := totalCrashes + 1; }
      if a !in look.unfinished {
        var handed, wait := Verdict(g, a, threshold, look.unwritten[a]);
        if handed && a.Finding? { findings := findings + [a]; }
        if handed && a.Crash? { crashes := crashes + [a]; }
        if wait.Some? { nextQuiet := Some(Sooner(nextQuiet, wait.value)); }
      }
    }
    assert look.listing[..|look.listing|] == look.listing;
  }
}
