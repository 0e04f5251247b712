/**
 The claim of lib/build_lease.py as one process carries it out is the claim of
 the process system: with the registry free, the directory `Claimant` leaves
 behind is the one its own steps in PinRules lead to, and no live pin is lost.
 */
module PinClaims {
  import opened Common
  import opened Whitespace
  import opened PinRules
  import opened PinAgreement
  import opened SourcePins

  /** The scan refuses and leaves. */
  lemma RefuseAndLeave(w: World, p: Pid, sig: string, conflicts: set<Pid>, claim: Option<string>) returns (v: World)
    requires Inv(w) && Scans(w, p, sig, {}, conflicts, claim) && conflicts != {}
    ensures Inv(v) && Leads(w, v, p, sig) && OthersKept(w, v, p) && v.registry == None && View(v) == View(w)
    ensures p in v.procs && v.procs[p] == Proc(Idle, claim)
  {
    AdvanceTwice(w, Refuse(p), PinRules.Leave(p), sig);
    v := After(After(w, Refuse(p)), PinRules.Leave(p));
  }

  /** The scan has found nothing: create the pin, lock it, write it and leave. */
  lemma PublishAndLeave(w: World, p: Pid, sig: string, claim: Option<string>, unused: Inode) returns (v: World)
    requires Inv(w) && Scans(w, p, sig, {}, {}, claim) && unused !in w.text
    ensures Inv(v) && Leads(w, v, p, sig) && OthersKept(w, v, p) && v.registry == None
    ensures View(v) == Published(View(w), p, sig, unused)
    ensures p in v.procs && v.procs[p] == Proc(Idle, Some(sig))
  {
    var inode := if p in w.names then w.names[p] else unused;
    var u := OpenOwn(w, p, sig, claim, inode);
    v := WriteAndGo(u, p, sig, claim, inode);
    PublishedView(w, u, v, p, sig, unused);
    assert Leads(w, v, p, sig) && OthersKept(w, v, p) by { Chain(w, u, v, p, sig); }
  }

  lemma PublishedView(w: World, u: World, v: World, p: Pid, sig: string, unused: Inode)
    requires var inode := if p in w.names then w.names[p] else unused;
      && u.names == w.names[p := inode] && u.locks == w.locks + {Lock(p, inode, Shared)}
      && u.text == (if p in w.names then w.text else w.text[inode := ""])
      && v.names == u.names && v.locks == u.locks && v.text == u.text[inode := Text(sig)]
    ensures View(v) == Published(View(w), p, sig, unused)
  {
    var inode := if p in w.names then w.names[p] else unused;
    assert v.text == w.text[inode := Text(sig)];
  }

  /** The pin a process has published, as its own table has it (`_KEPT_PINS`). */
  function Mine(w: World, p: Pid): Option<Pid>
    requires p in w.procs
  {
    if w.procs[p].claim.Some? then Some(p) else None
  }

  lemma ScannedView(w: World, v: World, sig: string, own: Option<Pid>, found: set<Pid>)
    requires var todo := if own.Some? then w.names.Keys - {own.value} else w.names.Keys;
      Looked(w, v, sig, todo, {}, found)
    ensures View(v) == Scanned(View(w), own)
    ensures forall n :: n in found <==> Conflicting(View(w), own, sig, n)
  {
    assert View(v).names == Scanned(View(w), own).names;
  }

  /** Enter the registry and scan. */
  lemma BeginAndScan(w: World, p: Pid, sig: string) returns (v: World, found: set<Pid>)
    requires Inv(w) && w.registry == None && p in w.procs && sig != ""
    ensures Inv(v) && Leads(w, v, p, sig) && OthersKept(w, v, p) && Scans(v, p, sig, {}, found, w.procs[p].claim)
    ensures View(v) == Scanned(View(w), Mine(w, p))
    ensures forall n :: n in found <==> Conflicting(View(w), Mine(w, p), sig, n)
  {
    Advance(w, Begin(p, sig), sig);
    var u := After(w, Begin(p, sig));
    v, found := LookAtAll(u, p, sig, u.procs[p].place.todo, {}, w.procs[p].claim);
    ScannedView(u, v, sig, Mine(w, p), found);
    assert View(u) == View(w);
    assert Leads(w, v, p, sig) && OthersKept(w, v, p) by { Chain(w, u, v, p, sig); }
  }

  /** From any reachable moment at which the registry is free, a process can
      carry its claim out by its own steps, and this is what they come to. */
  lemma OwnClaim(w: World, p: Pid, sig: string, unused: Inode) returns (v: World, found: set<Pid>)
    requires Inv(w) && w.registry == None && p in w.procs && sig != "" && unused !in w.text
    ensures Inv(v) && Leads(w, v, p, sig) && OthersKept(w, v, p) && v.registry == None
    ensures forall n :: n in found <==> Conflicting(View(w), Mine(w, p), sig, n)
    ensures p in v.procs
    ensures found == {} ==>
      v.procs[p] == Proc(Idle, Some(sig)) && View(v) == Published(Scanned(View(w), Mine(w, p)), p, sig, unused)
    ensures found != {} ==> v.procs[p] == Proc(Idle, w.procs[p].claim) && View(v) == Scanned(View(w), Mine(w, p))
  {
    var u;
    u, found := BeginAndScan(w, p, sig);
    assert u.text == View(u).text == w.text;
    if found == {} {
      v := PublishAndLeave(u, p, sig, w.procs[p].claim, unused);
    } else {
      v := RefuseAndLeave(u, p, sig, found, w.procs[p].claim);
    }
    assert Leads(w, v, p, sig) && OthersKept(w, v, p) by { Chain(w, u, v, p, sig); }
  }

  /** Every live pin of `w` but that of `p` is in `d`, with its lock and its text. */
  ghost predicate LivePinsIn(w: World, d: Directory, p: Pid) {
    forall n | n != p && n in w.names && Lock(n, w.names[n], Shared) in w.locks ::
      && n in d.names && d.names[n] == w.names[n] && Lock(n, w.names[n], Shared) in d.locks
      && w.names[n] in w.text && w.names[n] in d.text && d.text[w.names[n]] == w.text[w.names[n]]
  }

  lemma LivePinsStay(w: World, v: World, p: Pid)
    requires OthersKept(w, v, p) && Files(w.names, w.text)
    ensures LivePinsIn(w, View(v), p)
  {
    forall n | n != p && n in w.names && Lock(n, w.names[n], Shared) in w.locks ensures Live(w, n) && w.names[n] in w.text {}
  }

  lemma ConflictsAreLivePins(w: World, p: Pid, sig: string, n: Pid)
    requires Inv(w) && w.registry == None && p in w.procs && sig != ""
    ensures Conflicting(View(w), Mine(w, p), sig, n) <==>
      && n != p && n in w.names && Lock(n, w.names[n], Shared) in w.locks && w.names[n] in w.text
      && Strip(w.text[w.names[n]]) !in {"", sig}
    ensures Conflicting(View(w), Mine(w, p), sig, n) <==> !Passed(w, p, sig, n)
  {
    ConflictsAreDisputes(w, p, sig, n);
  }

  lemma AtRest(w: World, p: Pid)
    requires Inv(w) && w.registry == None && p in w.procs
    ensures w.procs[p].place == Idle && NoWriters(View(w)) && Files(w.names, w.text)
  {
    forall l | l in w.locks ensures l.mode == Shared {
      assert l.mode == Exclusive ==> w.registry == Some(l.pid);
    }
  }

  /** `claim_source_pin` called at a reachable moment at which the registry is
      free.  It goes through exactly when no live pin of another process records
      another source state; no live pin of another process is lost or changed;
      and the directory it leaves is the one the process's own steps lead to. */
  method ClaimInAReachedState(claimant: Claimant, ghost start: World, ghost steps: seq<Step>, ghost w: World,
                              listing: seq<Pid>, sig: string, unused: Inode)
      returns (conflicts: seq<Pid>, ghost v: World)
    requires Fresh(start) && Runs(start, steps) && w == AfterAll(start, steps) && w.registry == None
    requires claimant.pid in w.procs && claimant.dir == View(w) && claimant.own == Mine(w, claimant.pid)
    requires Distinct(listing) && (forall n :: n in listing <==> n in claimant.dir.names)
    requires sig != "" && unused !in w.text
    modifies claimant
    ensures forall n :: n in conflicts <==>
      && n != claimant.pid && n in w.names && Lock(n, w.names[n], Shared) in w.locks && w.names[n] in w.text
      && Strip(w.text[w.names[n]]) !in {"", sig}
    ensures forall n | n != claimant.pid && n in w.names && Lock(n, w.names[n], Shared) in w.locks ::
      && n in claimant.dir.names && claimant.dir.names[n] == w.names[n]
      && Lock(n, w.names[n], Shared) in claimant.dir.locks
      && w.names[n] in w.text && w.names[n] in claimant.dir.text
      && claimant.dir.text[w.names[n]] == w.text[w.names[n]]
    ensures Leads(w, v, claimant.pid, sig) && v.registry == None && claimant.pid in v.procs
    ensures claimant.dir == View(v) && claimant.own == Mine(v, claimant.pid)
    ensures v.procs[claimant.pid] == if conflicts == [] then Proc(Idle, Some(sig)) else w.procs[claimant.pid]
  {
    ghost var found;
    v, found := ReachedClaim(start, steps, claimant.pid, sig, unused);
    conflicts := claimant.ClaimSourcePin(listing, sig, unused);
    assert found == {} <==> conflicts == [] by {
      assert forall n :: n in found <==> n in conflicts;
      if conflicts != [] { assert conflicts[0] in found; }
    }
    assert LivePinsIn(w, claimant.dir, claimant.pid);
  }

  lemma ReachedClaim(start: World, steps: seq<Step>, p: Pid, sig: string, unused: Inode) returns (v: World, found: set<Pid>)
    requires Fresh(start) && Runs(start, steps) && AfterAll(start, steps).registry == None
    requires p in AfterAll(start, steps).procs && sig != "" && unused !in AfterAll(start, steps).text
    ensures var w := AfterAll(start, steps);
      && Leads(w, v, p, sig) && v.registry == None && LivePinsIn(w, View(v), p) && p in v.procs
      && (forall n :: n in found <==> Conflicting(View(w), Mine(w, p), sig, n))
      && (forall n :: n in found <==>
           && n != p && n in w.names && Lock(n, w.names[n], Shared) in w.locks && w.names[n] in w.text
           && Strip(w.text[w.names[n]]) !in {"", sig})
      && NoWriters(View(w)) && Files(w.names, w.text)
      && v.procs[p] == (if found == {} then Proc(Idle, Some(sig)) else w.procs[p])
      && View(v) ==
           if found == {} then Published(Scanned(View(w), Mine(w, p)), p, sig, unused) else Scanned(View(w), Mine(w, p))
  {
    var w := AfterAll(start, steps);
    EveryRunKeepsInv(start, steps);
    v, found := OwnClaim(w, p, sig, unused);
    forall n
      ensures Conflicting(View(w), Mine(w, p), sig, n) <==>
        && n != p && n in w.names && Lock(n, w.names[n], Shared) in w.locks && w.names[n] in w.text
        && Strip(w.text[w.names[n]]) !in {"", sig}
    {
      ConflictsAreLivePins(w, p, sig, n);
    }
    AtRest(w, p);
    LivePinsStay(w, v, p);
  }
}
