/**
 What the pins of lib/build_lease.py guarantee: which claims can stand side by
 side, and when an undisputed claim goes through.
 */
module PinAgreement {
  import opened Common
  import opened Whitespace
  import opened PinRules

  // ------------------------------------------------------------ agreement

  predicate Signed(at: Place) {
    !at.Idle? && !at.Leaving?
  }

  /** Every signature in the system comes from `allowed`. */
  ghost predicate FromOnly(w: World, allowed: set<string>) {
    forall p :: p in w.procs ==>
      && (w.procs[p].claim.Some? ==> w.procs[p].claim.value in allowed)
      && (Signed(w.procs[p].place) ==> w.procs[p].place.sig in allowed)
  }

  predicate ClaimsFrom(steps: seq<Step>, allowed: set<string>) {
    forall i :: 0 <= i < |steps| && steps[i].Begin? ==> steps[i].sig in allowed
  }

  predicate SameSource(p: Proc, q: Proc) {
    p.claim.Some? && q.claim.Some? ==> Strip(p.claim.value) == Strip(q.claim.value)
  }

  /** The claims of any two live processes name the same source state. */
  ghost predicate Agreed(w: World) {
    forall p, q :: p in w.procs && q in w.procs ==> SameSource(w.procs[p], w.procs[q])
  }

  lemma FromOnlyKept(w: World, s: Step, allowed: set<string>)
    requires Enabled(w, s) && FromOnly(w, allowed) && (s.Begin? ==> s.sig in allowed)
    ensures FromOnly(After(w, s), allowed)
  {
  }

  /** A claim about to be published agrees with every claim that stands. */
  lemma WritingAgrees(w: World, p: Pid, q: Pid)
    requires Inv(w) && p in w.procs && q in w.procs && p != q && w.procs[p].place.Writing?
    requires w.procs[q].claim.Some? && !Blank(w.procs[q].claim.value)
    ensures w.procs[p].place.sig == Strip(w.procs[q].claim.value)
    ensures Strip(w.procs[p].place.sig) == Strip(w.procs[q].claim.value)
  {
    assert Informed(w, p) && Backed(w, q);
    assert Passed(w, p, w.procs[p].place.sig, q);
    TextReadsBack(w.procs[q].claim.value);
    StripIsStripped(w.procs[q].claim.value);
  }

  /** Only publishing changes a claim. */
  lemma ClaimsAreOnlyWritten(w: World, s: Step, p: Pid)
    requires Enabled(w, s) && p in After(w, s).procs
    ensures var v := After(w, s);
      if s.Write? && s.pid == p then v.procs[p].claim == Some(w.procs[p].place.sig)
      else v.procs[p].claim == None || (p in w.procs && v.procs[p].claim == w.procs[p].claim)
  {
  }

  lemma AgreedKept(w: World, s: Step, allowed: set<string>)
    requires Inv(w) && Enabled(w, s) && FromOnly(w, allowed) && Agreed(w)
    requires forall sig :: sig in allowed ==> !Blank(sig)
    ensures Agreed(After(w, s))
  {
    var v := After(w, s);
    forall p, q | p in v.procs && q in v.procs ensures SameSource(v.procs[p], v.procs[q]) {
      ClaimsAreOnlyWritten(w, s, p);
      ClaimsAreOnlyWritten(w, s, q);
      SameSourceKept(w, s, p, q, allowed);
    }
  }

  lemma SameSourceKept(w: World, s: Step, p: Pid, q: Pid, allowed: set<string>)
    requires Inv(w) && Enabled(w, s) && FromOnly(w, allowed) && Agreed(w)
    requires forall sig :: sig in allowed ==> !Blank(sig)
    requires p in After(w, s).procs && q in After(w, s).procs
    ensures SameSource(After(w, s).procs[p], After(w, s).procs[q])
  {
    ClaimsAreOnlyWritten(w, s, p);
    ClaimsAreOnlyWritten(w, s, q);
    if s.Write? && p != q {
      if p == s.pid && w.procs[q].claim.Some? { WritingAgrees(w, p, q); }
      if q == s.pid && w.procs[p].claim.Some? { WritingAgrees(w, q, p); }
    } else if p in w.procs && q in w.procs {
      assert SameSource(w.procs[p], w.procs[q]);
    }
  }

  lemma {:induction false} EveryRunAgrees(w: World, steps: seq<Step>, allowed: set<string>)
    requires Inv(w) && Runs(w, steps) && FromOnly(w, allowed) && Agreed(w) && ClaimsFrom(steps, allowed)
    requires forall sig :: sig in allowed ==> !Blank(sig)
    ensures Agreed(AfterAll(w, steps))
    decreases |steps|
  {
    if steps != [] {
      StepKeepsInv(w, steps[0]);
      FromOnlyKept(w, steps[0], allowed);
      AgreedKept(w, steps[0], allowed);
      EveryRunAgrees(After(w, steps[0]), steps[1..], allowed);
    }
  }

  lemma {:induction false} FromOnlyThroughout(w: World, steps: seq<Step>, allowed: set<string>)
    requires Runs(w, steps) && FromOnly(w, allowed) && ClaimsFrom(steps, allowed)
    ensures FromOnly(AfterAll(w, steps), allowed)
    decreases |steps|
  {
    if steps != [] {
      FromOnlyKept(w, steps[0], allowed);
      FromOnlyThroughout(After(w, steps[0]), steps[1..], allowed);
    }
  }

  // ------------------------------------------------------------ progress

  predicate Own(steps: seq<Step>, p: Pid, sig: string) {
    forall i :: 0 <= i < |steps| ==> steps[i].pid == p && !steps[i].Die? && !steps[i].Start? && (steps[i].Begin? ==> steps[i].sig == sig)
  }

  /** What the work of `p` leaves alone: the other processes, and their pins. */
  ghost predicate OthersKept(w: World, v: World, p: Pid) {
    && v.procs.Keys == w.procs.Keys
    && (forall q :: q in w.procs && q != p ==> v.procs[q] == w.procs[q])
    && (forall q :: q != p && Live(w, q) && w.names[q] in w.text ==>
          Live(v, q) && v.names[q] == w.names[q] && v.names[q] in v.text && v.text[v.names[q]] == w.text[w.names[q]])
    && (forall q :: q != p && Live(v, q) ==> Live(w, q))
  }

  lemma ScanningKeepsOthers(w: World, s: Step)
    requires s.pid in w.procs && Informed(w, s.pid)
    requires Enabled(w, s) && (s.Begin? || s.OpenPin? || s.Test? || s.Unlock? || s.Unlink? || s.Refuse?)
    ensures OthersKept(w, After(w, s), s.pid)
  {
  }

  lemma PublishingKeepsOthers(w: World, s: Step)
    requires s.pid in w.procs && Files(w.names, w.text) && Informed(w, s.pid)
    requires Enabled(w, s) && (s.Create? || s.LockPin? || s.LockFails? || s.Truncate? || s.Write? || s.Leave?)
    ensures OthersKept(w, After(w, s), s.pid)
  {
  }

  lemma StepKeepsOthers(w: World, s: Step)
    requires s.pid in w.procs && Files(w.names, w.text) && Informed(w, s.pid)
    requires Enabled(w, s) && !s.Die? && !s.Start?
    ensures OthersKept(w, After(w, s), s.pid)
  {
    if s.Begin? || s.OpenPin? || s.Test? || s.Unlock? || s.Unlink? || s.Refuse? { ScanningKeepsOthers(w, s); }
    else { PublishingKeepsOthers(w, s); }
  }

  lemma UndisputedStays(w: World, v: World, p: Pid, sig: string)
    requires OthersKept(w, v, p) && Inv(w)
    requires forall n :: Passed(w, p, sig, n)
    ensures forall n :: Passed(v, p, sig, n)
  {
    forall n | n != p && Live(v, n) && v.names[n] in v.text ensures Strip(v.text[v.names[n]]) in {"", sig} {
      assert Live(w, n) && Passed(w, p, sig, n);
    }
  }

  /** Some steps of `p` alone lead from `w` to `v`. */
  ghost predicate Leads(w: World, v: World, p: Pid, sig: string) {
    exists steps :: Own(steps, p, sig) && Runs(w, steps) && AfterAll(w, steps) == v
  }

  lemma LeadsNowhere(w: World, p: Pid, sig: string)
    ensures Leads(w, w, p, sig)
  {
    assert Own([], p, sig) && Runs(w, []) && AfterAll(w, []) == w;
  }

  lemma LeadsOn(w: World, s: Step, v: World, sig: string)
    requires Enabled(w, s) && !s.Die? && !s.Start? && (s.Begin? ==> s.sig == sig) && Leads(After(w, s), v, s.pid, sig)
    ensures Leads(w, v, s.pid, sig)
  {
    var rest :| Own(rest, s.pid, sig) && Runs(After(w, s), rest) && AfterAll(After(w, s), rest) == v;
    var steps := [s] + rest;
    assert steps[1..] == rest;
    assert Own(steps, s.pid, sig) && Runs(w, steps) && AfterAll(w, steps) == v;
  }

  lemma {:induction false} RunsOn(u: World, first: seq<Step>, second: seq<Step>)
    requires Runs(u, first) && Runs(AfterAll(u, first), second)
    ensures Runs(u, first + second) && AfterAll(u, first + second) == AfterAll(AfterAll(u, first), second)
    decreases |first|
  {
    if first == [] {
      assert first + second == second;
    } else {
      RunsOn(After(u, first[0]), first[1..], second);
      assert (first + second)[1..] == first[1..] + second;
    }
  }

  lemma LeadsTwice(u: World, v: World, w: World, p: Pid, sig: string)
    requires Leads(u, v, p, sig) && Leads(v, w, p, sig)
    ensures Leads(u, w, p, sig)
  {
    var first :| Own(first, p, sig) && Runs(u, first) && AfterAll(u, first) == v;
    var second :| Own(second, p, sig) && Runs(v, second) && AfterAll(v, second) == w;
    RunsOn(u, first, second);
    assert Own(first + second, p, sig);
  }

  /** One step of `p`, with everything that follows from it. */
  lemma Advance(w: World, s: Step, sig: string)
    requires Inv(w) && Enabled(w, s) && !s.Die? && !s.Start? && (s.Begin? ==> s.sig == sig)
    ensures Inv(After(w, s)) && OthersKept(w, After(w, s), s.pid) && Leads(w, After(w, s), s.pid, sig)
  {
    StepKeepsInv(w, s);
    assert Informed(w, s.pid);
    StepKeepsOthers(w, s);
    LeadsNowhere(After(w, s), s.pid, sig);
    LeadsOn(w, s, After(w, s), sig);
  }

  lemma Chain(u: World, v: World, w: World, p: Pid, sig: string)
    requires Leads(u, v, p, sig) && OthersKept(u, v, p) && Leads(v, w, p, sig) && OthersKept(v, w, p)
    ensures Leads(u, w, p, sig) && OthersKept(u, w, p)
  {
    LeadsTwice(u, v, w, p, sig);
  }

  /** Process `p` scans, with `todo` still to look at. */
  predicate Scans(w: World, p: Pid, sig: string, todo: set<Pid>, conflicts: set<Pid>, claim: Option<string>) {
    p in w.procs && w.procs[p] == Proc(Scanning(sig, todo, conflicts), claim)
  }

  predicate Contests(w: World, n: Pid, sig: string) {
    n in w.names && !Unlocked(w.locks, w.names[n]) && Disagrees(w, sig, n)
  }

  /** Two steps of `p`, with everything that follows from them. */
  lemma AdvanceTwice(w: World, s: Step, t: Step, sig: string)
    requires Inv(w) && Enabled(w, s) && Enabled(After(w, s), t) && s.pid == t.pid
    requires !s.Die? && !s.Start? && !s.Begin? && !t.Die? && !t.Start? && !t.Begin?
    ensures var v := After(After(w, s), t); Inv(v) && Leads(w, v, s.pid, sig) && OthersKept(w, v, s.pid)
  {
    Advance(w, s, sig);
    Advance(After(w, s), t, sig);
    Chain(w, After(w, s), After(After(w, s), t), s.pid, sig);
  }

  /** Opening a pin and trying its lock. */
  lemma OpeningAndTesting(w: World, p: Pid, sig: string, todo: set<Pid>, conflicts: set<Pid>, claim: Option<string>, n: Pid)
    requires Scans(w, p, sig, todo, conflicts, claim) && n in todo && n in w.names && w.names[n] in w.text
    ensures Enabled(w, OpenPin(p, n)) && Enabled(After(w, OpenPin(p, n)), Test(p))
    ensures var v := After(After(w, OpenPin(p, n)), Test(p));
      && v.text == w.text && v.names == w.names
      && if Unlocked(w.locks, w.names[n]) then
           && v.locks == w.locks + {Lock(p, w.names[n], Exclusive)}
           && p in v.procs && v.procs[p] == Proc(Probing(sig, todo - {n}, conflicts, n, w.names[n]), claim)
         else
           && v.locks == w.locks
           && Scans(v, p, sig, todo - {n}, if Contests(w, n, sig) then conflicts + {n} else conflicts, claim)
  {
  }

  /** Giving the lock of a dead pin back and removing the pin. */
  lemma UnlockingAndUnlinking(w: World, p: Pid, sig: string, todo: set<Pid>, conflicts: set<Pid>, claim: Option<string>,
                              n: Pid, inode: Inode)
    requires p in w.procs && w.procs[p] == Proc(Probing(sig, todo, conflicts, n, inode), claim)
    ensures Enabled(w, Unlock(p)) && Enabled(After(w, Unlock(p)), Unlink(p))
    ensures var v := After(After(w, Unlock(p)), Unlink(p));
      && v.text == w.text && v.names == w.names - {n} && v.locks == w.locks - {Lock(p, inode, Exclusive)}
      && Scans(v, p, sig, todo, conflicts, claim)
  {
  }

  lemma LookingAtADeadPin(w: World, p: Pid, sig: string, todo: set<Pid>, conflicts: set<Pid>, claim: Option<string>, n: Pid)
      returns (u: World, v: World)
    requires Scans(w, p, sig, todo, conflicts, claim) && n in todo && n in w.names && w.names[n] in w.text
    requires Unlocked(w.locks, w.names[n])
    ensures Enabled(w, OpenPin(p, n)) && Enabled(After(w, OpenPin(p, n)), Test(p))
    ensures u == After(After(w, OpenPin(p, n)), Test(p))
    ensures Enabled(u, Unlock(p)) && Enabled(After(u, Unlock(p)), Unlink(p))
    ensures v == After(After(u, Unlock(p)), Unlink(p))
    ensures Scans(v, p, sig, todo - {n}, conflicts, claim)
    ensures v.text == w.text && v.locks == w.locks && v.names == w.names - {n}
  {
    OpeningAndTesting(w, p, sig, todo, conflicts, claim, n);
    u := After(After(w, OpenPin(p, n)), Test(p));
    UnlockingAndUnlinking(u, p, sig, todo - {n}, conflicts, claim, n, w.names[n]);
    v := After(After(u, Unlock(p)), Unlink(p));
  }

  /** The scan deals with one pin, whatever it says. */
  lemma LookAtOne(w: World, p: Pid, sig: string, todo: set<Pid>, conflicts: set<Pid>, claim: Option<string>, n: Pid)
      returns (v: World)
    requires Inv(w) && Scans(w, p, sig, todo, conflicts, claim) && n in todo
    ensures Inv(v) && Leads(w, v, p, sig) && OthersKept(w, v, p)
    ensures Scans(v, p, sig, todo - {n}, if Contests(w, n, sig) then conflicts + {n} else conflicts, claim)
    ensures n in w.names && v.text == w.text && v.locks == w.locks
    ensures v.names == if Unlocked(w.locks, w.names[n]) then w.names - {n} else w.names
  {
    assert n in w.names && w.names[n] in w.text by { assert Informed(w, p); }
    if Unlocked(w.locks, w.names[n]) {
      v := LookAtADeadOne(w, p, sig, todo, conflicts, claim, n);
    } else {
      OpeningAndTesting(w, p, sig, todo, conflicts, claim, n);
      AdvanceTwice(w, OpenPin(p, n), Test(p), sig);
      v := After(After(w, OpenPin(p, n)), Test(p));
    }
  }

  lemma LookAtADeadOne(w: World, p: Pid, sig: string, todo: set<Pid>, conflicts: set<Pid>, claim: Option<string>, n: Pid)
      returns (v: World)
    requires Inv(w) && Scans(w, p, sig, todo, conflicts, claim) && n in todo && n in w.names && w.names[n] in w.text
    requires Unlocked(w.locks, w.names[n])
    ensures Inv(v) && Leads(w, v, p, sig) && OthersKept(w, v, p)
    ensures Scans(v, p, sig, todo - {n}, conflicts, claim)
    ensures v.text == w.text && v.locks == w.locks && v.names == w.names - {n}
  {
    ghost var u;
    u, v := LookingAtADeadPin(w, p, sig, todo, conflicts, claim, n);
    assert Inv(v) && Leads(w, v, p, sig) && OthersKept(w, v, p) by {
      AdvanceTwice(w, OpenPin(p, n), Test(p), sig);
      AdvanceTwice(u, Unlock(p), Unlink(p), sig);
      Chain(w, u, v, p, sig);
    }
  }

  /** What a scan of `todo` that starts with pin counts `conflicts` makes of `w`. */
  ghost predicate Looked(w: World, v: World, sig: string, todo: set<Pid>, conflicts: set<Pid>, found: set<Pid>) {
    && v.text == w.text && v.locks == w.locks
    && (forall n :: n in v.names <==> n in w.names && (n in todo ==> !Unlocked(w.locks, w.names[n])))
    && (forall n | n in v.names :: v.names[n] == w.names[n])
    && (forall n :: n in found <==> n in conflicts || (n in todo && Contests(w, n, sig)))
  }

  lemma OneMore(w: World, u: World, v: World, sig: string, todo: set<Pid>, conflicts: set<Pid>, found: set<Pid>, n: Pid)
    requires n in todo && n in w.names && u.text == w.text && u.locks == w.locks
    requires u.names == if Unlocked(w.locks, w.names[n]) then w.names - {n} else w.names
    requires Looked(u, v, sig, todo - {n}, if Contests(w, n, sig) then conflicts + {n} else conflicts, found)
    ensures Looked(w, v, sig, todo, conflicts, found)
  {
    forall m | m != n ensures Contests(u, m, sig) <==> Contests(w, m, sig) {}
  }

  /** The scan looks at every pin it set out to look at, in whatever order. */
  lemma {:induction false} LookAtAll(w: World, p: Pid, sig: string, todo: set<Pid>, conflicts: set<Pid>, claim: Option<string>)
      returns (v: World, found: set<Pid>)
    requires Inv(w) && Scans(w, p, sig, todo, conflicts, claim)
    ensures Inv(v) && Leads(w, v, p, sig) && OthersKept(w, v, p) && Scans(v, p, sig, {}, found, claim)
    ensures Looked(w, v, sig, todo, conflicts, found)
    decreases |todo|
  {
    if todo == {} {
      LeadsNowhere(w, p, sig);
      v, found := w, conflicts;
    } else {
      var n :| n in todo;
      var u := LookAtOne(w, p, sig, todo, conflicts, claim, n);
      v, found := LookAtAll(u, p, sig, todo - {n}, if Contests(w, n, sig) then conflicts + {n} else conflicts, claim);
      assert Looked(w, v, sig, todo, conflicts, found) by { OneMore(w, u, v, sig, todo, conflicts, found, n); }
      assert Leads(w, v, p, sig) && OthersKept(w, v, p) by { Chain(w, u, v, p, sig); }
    }
  }

  /** Nobody probes while a process scans. */
  lemma NobodyProbes(w: World, p: Pid, inode: Inode)
    requires Inv(w) && p in w.procs && w.procs[p].place.Scanning?
    ensures NoExclusive(w.locks, inode)
  {
    forall l | l in w.locks ensures l.mode == Shared {
      assert l.mode == Exclusive ==> w.registry == Some(l.pid);
      assert w.registry == Some(p);
    }
  }

  /** Opening the process's own pin and locking it. */
  lemma CreatingAndLocking(w: World, p: Pid, sig: string, claim: Option<string>, inode: Inode)
    requires Scans(w, p, sig, {}, {}, claim) && NoExclusive(w.locks, inode)
    requires if p in w.names then inode == w.names[p] else inode !in w.text
    ensures Enabled(w, Create(p, inode)) && Enabled(After(w, Create(p, inode)), LockPin(p))
    ensures var v := After(After(w, Create(p, inode)), LockPin(p));
      && p in v.procs && v.procs[p] == Proc(Truncating(sig, inode), claim)
      && v.names == w.names[p := inode] && v.locks == w.locks + {Lock(p, inode, Shared)}
      && v.text == if p in w.names then w.text else w.text[inode := ""]
  {
  }

  lemma OpenOwn(w: World, p: Pid, sig: string, claim: Option<string>, inode: Inode) returns (u: World)
    requires Inv(w) && Scans(w, p, sig, {}, {}, claim)
    requires if p in w.names then inode == w.names[p] else inode !in w.text
    ensures Inv(u) && Leads(w, u, p, sig) && OthersKept(w, u, p)
    ensures p in u.procs && u.procs[p] == Proc(Truncating(sig, inode), claim)
    ensures u.names == w.names[p := inode] && u.locks == w.locks + {Lock(p, inode, Shared)}
    ensures u.text == if p in w.names then w.text else w.text[inode := ""]
  {
    assert NoExclusive(w.locks, inode) by { NobodyProbes(w, p, inode); }
    CreatingAndLocking(w, p, sig, claim, inode);
    u := After(After(w, Create(p, inode)), LockPin(p));
    assert Inv(u) && Leads(w, u, p, sig) && OthersKept(w, u, p) by {
      AdvanceTwice(w, Create(p, inode), LockPin(p), sig);
    }
  }

  lemma Writing(w: World, p: Pid, sig: string, claim: Option<string>, inode: Inode)
    requires p in w.procs && w.procs[p] == Proc(Truncating(sig, inode), claim)
    ensures Enabled(w, Truncate(p)) && Enabled(After(w, Truncate(p)), Write(p))
    ensures var v := After(After(w, Truncate(p)), Write(p));
      && p in v.procs && v.procs[p] == Proc(Leaving, Some(sig))
      && v.names == w.names && v.locks == w.locks && v.text == w.text[inode := Text(sig)]
  {
  }

  lemma WriteAndGo(w: World, p: Pid, sig: string, claim: Option<string>, inode: Inode) returns (v: World)
    requires Inv(w) && p in w.procs && w.procs[p] == Proc(Truncating(sig, inode), claim)
    ensures Inv(v) && Leads(w, v, p, sig) && OthersKept(w, v, p) && v.registry == None
    ensures v.names == w.names && v.locks == w.locks && v.text == w.text[inode := Text(sig)]
    ensures p in v.procs && v.procs[p] == Proc(Idle, Some(sig))
  {
    Writing(w, p, sig, claim, inode);
    AdvanceTwice(w, Truncate(p), Write(p), sig);
    var u := After(After(w, Truncate(p)), Write(p));
    Advance(u, Leave(p), sig);
    v := After(u, Leave(p));
    Chain(w, u, v, p, sig);
  }

  /** A number above all of `used`. */
  ghost function Above(used: set<nat>): (n: nat)
    ensures forall x :: x in used ==> x < n
  {
    if used == {} then 0
    else
      var x :| x in used;
      var rest := Above(used - {x});
      assert used == {x} + (used - {x});
      if x < rest then rest else x + 1
  }

  /** A locked pin that a scan contests is the live pin of another process. */
  lemma ContestedPinIsLive(w: World, p: Pid, sig: string, n: Pid)
    requires Inv(w) && p in w.procs && w.procs[p].place.Scanning? && Contests(w, n, sig)
    requires n == p ==> w.procs[p].claim.None?
    ensures n != p && Live(w, n)
  {
    NobodyProbes(w, p, w.names[n]);
    var l :| l in w.locks && l.inode == w.names[n];
    assert l.mode == Shared;
  }

  /** A claim that no live pin disputes goes through: from any reachable moment
      at which the registry is free, the process can scan, publish and leave by
      its own steps, and touches no other live process or its pin. */
  lemma UndisputedClaimGoesThrough(w: World, p: Pid, sig: string) returns (v: World)
    requires Inv(w) && w.registry == None && p in w.procs && sig != ""
    requires forall n :: Passed(w, p, sig, n)
    ensures Inv(v) && Leads(w, v, p, sig) && OthersKept(w, v, p)
    ensures v.registry == None && p in v.procs && v.procs[p] == Proc(Idle, Some(sig))
  {
    var claim := w.procs[p].claim;
    Advance(w, Begin(p, sig), sig);
    var u1 := After(w, Begin(p, sig));
    var u2, found := LookAtAll(u1, p, sig, u1.procs[p].place.todo, {}, claim);
    assert found == {} by { NothingIsContested(w, u1, p, sig); }
    var inode := if p in u2.names then u2.names[p] else Above(u2.text.Keys);
    var u3 := OpenOwn(u2, p, sig, claim, inode);
    v := WriteAndGo(u3, p, sig, claim, inode);
    assert Leads(w, v, p, sig) && OthersKept(w, v, p) by {
      Chain(w, u1, u2, p, sig);
      Chain(w, u2, u3, p, sig);
      Chain(w, u3, v, p, sig);
    }
  }

  lemma PassedIsUncontested(w: World, p: Pid, sig: string, n: Pid)
    requires Inv(w) && p in w.procs && w.procs[p].place.Scanning? && Passed(w, p, sig, n)
    requires n == p ==> w.procs[p].claim.None?
    ensures !Contests(w, n, sig)
  {
    if Contests(w, n, sig) { ContestedPinIsLive(w, p, sig, n); }
  }

  lemma NothingIsContested(w: World, u: World, p: Pid, sig: string)
    requires Inv(w) && Inv(u) && OthersKept(w, u, p) && p in u.procs && u.procs[p].place.Scanning?
    requires forall n :: Passed(w, p, sig, n)
    ensures forall n | n != p || u.procs[p].claim.None? :: !Contests(u, n, sig)
  {
    UndisputedStays(w, u, p, sig);
    forall n | n != p || u.procs[p].claim.None? ensures !Contests(u, n, sig) {
      PassedIsUncontested(u, p, sig, n);
    }
  }

  /** And a disputed one does not: whoever is about to publish has found no live
      pin that records another signature, blanks aside. */
  lemma PublishedClaimIsUndisputed(w: World, steps: seq<Step>, p: Pid, n: Pid)
    requires Fresh(w) && Runs(w, steps) && Enabled(AfterAll(w, steps), Write(p))
    ensures var v := AfterAll(w, steps); Passed(v, p, v.procs[p].place.sig, n)
  {
    EveryRunKeepsInv(w, steps);
    assert Informed(AfterAll(w, steps), p);
  }

  // ------------------------------------------------------------ when claims agree

  const NOBODY := World(None, map[], map[], map[], {})

  /** Some interleaving of claims of `allowed`, births and deaths leads to `v`,
      from a checkout that holds whatever pins dead runs have left in it. */
  ghost predicate Reaches(v: World, allowed: set<string>) {
    exists w, steps :: Leading(w, steps, v, allowed)
  }

  ghost predicate Leading(w: World, steps: seq<Step>, v: World, allowed: set<string>) {
    Fresh(w) && Runs(w, steps) && ClaimsFrom(steps, allowed) && AfterAll(w, steps) == v
  }

  lemma ReachesOn(w: World, v: World, p: Pid, sig: string, allowed: set<string>)
    requires Reaches(w, allowed) && Leads(w, v, p, sig) && sig in allowed
    ensures Reaches(v, allowed)
  {
    var start, first :| Leading(start, first, w, allowed);
    var second :| Own(second, p, sig) && Runs(w, second) && AfterAll(w, second) == v;
    RunsOn(start, first, second);
    assert ClaimsFrom(first + second, allowed);
    assert Leading(start, first + second, v, allowed);
  }

  lemma TwoStart(allowed: set<string>) returns (w: World)
    ensures Reaches(w, allowed) && Inv(w) && w.registry == None && w.procs.Keys == {0, 1} && w.locks == {}
  {
    var a, b := Start(0), Start(1);
    var u := After(NOBODY, a);
    StepKeepsInv(NOBODY, a);
    w := After(u, b);
    StepKeepsInv(u, b);
    assert Runs(w, []) && [a, b][1..] == [b] && [b][1..] == [];
    assert Runs(u, [b]) && AfterAll(u, [b]) == w;
    assert ClaimsFrom([a, b], allowed);
    assert Leading(NOBODY, [a, b], w, allowed);
  }

  /** A blank signature is believed by nobody: any other claim stands beside it. */
  lemma BlankClaimDisputesNothing(s: string, t: string) returns (v: World)
    requires s != "" && Blank(s) && t != ""
    ensures Reaches(v, {s, t}) && v.procs.Keys == {0, 1} && v.procs[0].claim == Some(s) && v.procs[1].claim == Some(t)
  {
    var w := TwoStart({s, t});
    assert forall n :: !Live(w, n);
    var u := ClaimsOn(w, 0, s, {s, t});
    assert forall n :: Passed(u, 1, t, n) by { BlankIsPassed(u, s, t); }
    v := ClaimsOn(u, 1, t, {s, t});
  }

  lemma BlankIsPassed(u: World, s: string, t: string)
    requires Inv(u) && u.procs.Keys == {0, 1} && u.procs[0] == Proc(Idle, Some(s)) && Blank(s)
    ensures forall n :: Passed(u, 1, t, n)
  {
    assert Backed(u, 0);
    TextReadsBack(s);
  }

  lemma ClaimsOn(w: World, p: Pid, sig: string, allowed: set<string>) returns (v: World)
    requires Inv(w) && Reaches(w, allowed) && sig in allowed && sig != ""
    requires w.registry == None && p in w.procs && forall n :: Passed(w, p, sig, n)
    ensures Inv(v) && Reaches(v, allowed) && OthersKept(w, v, p)
    ensures v.registry == None && p in v.procs && v.procs[p] == Proc(Idle, Some(sig))
  {
    v := UndisputedClaimGoesThrough(w, p, sig);
    ReachesOn(w, v, p, sig, allowed);
  }

  /** Live processes always agree on the source state, over every interleaving
      of claims, births and deaths, in any checkout. */
  ghost predicate AlwaysAgree(allowed: set<string>) {
    forall v :: Reaches(v, allowed) ==> Agreed(v)
  }

  /** The claims of live processes name one source state over every interleaving
      of claims and deaths, over any debris of dead runs, exactly when no blank signature is in use beside one
      that is not blank; the guard in the source turns away only the empty one. */
  lemma LivePinsAgreeUnlessBlank(allowed: set<string>)
    requires "" !in allowed
    ensures AlwaysAgree(allowed) <==> ((forall sig :: sig in allowed ==> !Blank(sig)) || (forall sig :: sig in allowed ==> Blank(sig)))
  {
    if (forall sig :: sig in allowed ==> !Blank(sig)) || (forall sig :: sig in allowed ==> Blank(sig)) {
      forall v | Reaches(v, allowed) ensures Agreed(v) { UniformClaimsAgree(allowed, v); }
    } else {
      var s :| s in allowed && Blank(s);
      var t :| t in allowed && !Blank(t);
      var v := BlankBesideAnother(allowed, s, t);
    }
  }

  lemma BlankBesideAnother(allowed: set<string>, s: string, t: string) returns (v: World)
    requires "" !in allowed && s in allowed && t in allowed && Blank(s) && !Blank(t)
    ensures Reaches(v, allowed) && !Agreed(v)
  {
    v := BlankClaimDisputesNothing(s, t);
    var w, steps :| Leading(w, steps, v, {s, t});
    assert Leading(w, steps, v, allowed);
    assert 0 in v.procs && 1 in v.procs && !SameSource(v.procs[0], v.procs[1]);
  }

  lemma UniformClaimsAgree(allowed: set<string>, v: World)
    requires Reaches(v, allowed)
    requires (forall sig :: sig in allowed ==> !Blank(sig)) || (forall sig :: sig in allowed ==> Blank(sig))
    ensures Agreed(v)
  {
    var w, steps :| Leading(w, steps, v, allowed);
    FromOnlyThroughout(w, steps, allowed);
    if forall sig :: sig in allowed ==> !Blank(sig) {
      EveryRunAgrees(w, steps, allowed);
    }
  }
}
