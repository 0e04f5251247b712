/**
 One claim as lib/build_lease.py carries it out inside the registry lock: the
 scan over the pin files and the publication of the process's own pin.
 */
module SourcePins {
  import opened Common
  import opened Whitespace
  import opened PinRules

  /** The pin files of a checkout, what they say, and the locks on them. */
  datatype Directory = Directory(names: map<Pid, Inode>, text: map<Inode, string>, locks: set<Lock>)

  /** A pin counts against a claim when it is locked and records another source state. */
  predicate Conflicting(d: Directory, own: Option<Pid>, sig: string, n: Pid) {
    && own != Some(n) && n in d.names && d.names[n] in d.text
    && !Unlocked(d.locks, d.names[n])
    && Strip(d.text[d.names[n]]) != "" && Strip(d.text[d.names[n]]) != sig
  }

  function Conflicts(d: Directory, own: Option<Pid>, sig: string, listing: seq<Pid>): seq<Pid> {
    Filter((n: Pid) => Conflicting(d, own, sig, n), listing)
  }

  /** The pins a scan leaves in place: the process's own, and every locked one. */
  predicate Survives(d: Directory, own: Option<Pid>, n: Pid) {
    n in d.names && (own == Some(n) || !Unlocked(d.locks, d.names[n]))
  }

  function Scanned(d: Directory, own: Option<Pid>): Directory {
    d.(names := map n | n in d.names && Survives(d, own, n) :: d.names[n])
  }

  /** The directory once `pid` has published `sig` in the pin it opens. */
  function Published(d: Directory, pid: Pid, sig: string, unused: Inode): Directory {
    var inode := if pid in d.names then d.names[pid] else unused;
    Directory(d.names[pid := inode], d.text[inode := Text(sig)], d.locks + {Lock(pid, inode, Shared)})
  }

  /** How far a scan has come once it has dealt with `done`. */
  ghost predicate ScannedTo(was: Directory, now: Directory, own: Option<Pid>, done: seq<Pid>) {
    && now.text == was.text && now.locks == was.locks
    && (forall n :: n in now.names <==> n in was.names && (n in done ==> Survives(was, own, n)))
    && (forall n :: n in now.names ==> now.names[n] == was.names[n])
  }

  lemma ConflictsStep(was: Directory, now: Directory, own: Option<Pid>, sig: string, listing: seq<Pid>, i: nat)
    requires Distinct(listing) && i < |listing| && listing[i] in was.names && Files(was.names, was.text)
    requires ScannedTo(was, now, own, listing[..i])
    ensures var n := listing[i];
      && n in now.names && now.names[n] in now.text
      && Conflicts(was, own, sig, listing[..i + 1]) ==
           Conflicts(was, own, sig, listing[..i]) + (if Conflicting(now, own, sig, n) then [n] else [])
  {
    FilterStep((n: Pid) => Conflicting(was, own, sig, n), listing, i);
  }

  lemma ReapStep(was: Directory, now: Directory, own: Option<Pid>, listing: seq<Pid>, i: nat)
    requires Distinct(listing) && i < |listing| && listing[i] in was.names
    requires ScannedTo(was, now, own, listing[..i])
    ensures var n := listing[i];
      ScannedTo(was, if Survives(now, own, n) then now else now.(names := now.names - {n}), own, listing[..i + 1])
  {
    forall m ensures m in listing[..i + 1] <==> m in listing[..i] || m == listing[i] {}
  }

  lemma ScanEnds(was: Directory, now: Directory, own: Option<Pid>, listing: seq<Pid>)
    requires ScannedTo(was, now, own, listing) && forall n :: n in listing <==> n in was.names
    ensures now == Scanned(was, own)
  {
    assert now.names == Scanned(was, own).names;
  }

  lemma ConflictsAreInOrder(d: Directory, own: Option<Pid>, sig: string, listing: seq<Pid>, conflicts: seq<Pid>)
    requires conflicts == Conflicts(d, own, sig, listing) && forall n :: n in listing <==> n in d.names
    requires Files(d.names, d.text)
    ensures forall n :: n in conflicts <==>
      && n in d.names && own != Some(n) && (exists l :: l in d.locks && l.inode == d.names[n])
      && Strip(d.text[d.names[n]]) !in {"", sig}
    ensures conflicts == Filter((n: Pid) => n in conflicts, listing)
  {
    SameFilter((n: Pid) => Conflicting(d, own, sig, n), (n: Pid) => n in conflicts, listing);
  }

  predicate NoWriters(d: Directory) {
    forall l :: l in d.locks ==> l.mode == Shared
  }

  class Claimant {
    const pid: Pid
    /** The pin this process has published (`_KEPT_PINS`). */
    var own: Option<Pid>
    var dir: Directory

    constructor (pid: Pid, dir: Directory)
      ensures this.pid == pid && own == None && this.dir == dir
    {
      this.pid, this.own, this.dir := pid, None, dir;
    }

    /** Look at one pin: reap it if nobody holds its lock, and say whether it
        disagrees. */
    static method Probe(dir: Directory, own: Option<Pid>, n: Pid, sig: string) returns (after: Directory, disagrees: bool)
      requires n in dir.names && dir.names[n] in dir.text
      ensures after == if Survives(dir, own, n) then dir else dir.(names := dir.names - {n})
      ensures disagrees <==> Conflicting(dir, own, sig, n)
    {
      after, disagrees := dir, false;
      if own == Some(n) { return; }
      var recorded := Strip(dir.text[dir.names[n]]);
      if Unlocked(dir.locks, dir.names[n]) {
        after := dir.(names := dir.names - {n});
      } else if recorded != "" && recorded != sig {
        disagrees := true;
      }
    }

    /** Scan the pins in `listing` order; reap those whose owner is gone. */
    method DisagreeingPins(listing: seq<Pid>, sig: string) returns (conflicts: seq<Pid>)
      requires Distinct(listing) && forall n :: n in listing <==> n in dir.names
      requires Files(dir.names, dir.text)
      modifies this`dir
      ensures conflicts == Conflicts(old(dir), own, sig, listing)
      ensures dir == Scanned(old(dir), own)
      ensures dir.text == old(dir).text && dir.locks == old(dir).locks
      ensures forall n :: n in dir.names <==>
        n in old(dir).names && (own == Some(n) || exists l :: l in old(dir).locks && l.inode == old(dir).names[n])
      ensures forall n | n in dir.names :: dir.names[n] == old(dir).names[n]
      ensures forall n :: n in conflicts <==>
        && n in old(dir).names && own != Some(n) && (exists l :: l in old(dir).locks && l.inode == old(dir).names[n])
        && Strip(old(dir).text[old(dir).names[n]]) !in {"", sig}
      ensures conflicts == Filter((n: Pid) => n in conflicts, listing)
    {
      conflicts := [];
      var was, now, mine := dir, dir, own;
      for i := 0 to |listing|
        invariant conflicts == Conflicts(was, mine, sig, listing[..i])
        invariant ScannedTo(was, now, mine, listing[..i])
      {
        var n := listing[i];
        ConflictsStep(was, now, mine, sig, listing, i);
        ReapStep(was, now, mine, listing, i);
        var disagrees;
        now, disagrees := Probe(now, mine, n, sig);
        if disagrees { conflicts := conflicts + [n]; }
      }
      assert listing[..|listing|] == listing;
      ScanEnds(was, now, mine, listing);
      ConflictsAreInOrder(was, mine, sig, listing, conflicts);
      dir := now;
    }

    /** Claim the checkout for `sig`, or name the runs that disagree. */
    method ClaimSourcePin(listing: seq<Pid>, sig: string, unused: Inode) returns (conflicts: seq<Pid>)
      requires Distinct(listing) && forall n :: n in listing <==> n in dir.names
      requires Files(dir.names, dir.text)
      modifies this
      ensures sig == "" ==> conflicts == [] && own == old(own) && dir == old(dir)
      ensures sig != "" ==> conflicts == Conflicts(old(dir), old(own), sig, listing)
      ensures conflicts != [] ==> own == old(own) && dir == Scanned(old(dir), old(own))
      ensures sig != "" && conflicts == [] && NoWriters(old(dir)) ==>
        own == Some(pid) && dir == Published(Scanned(old(dir), old(own)), pid, sig, unused)
      ensures sig != "" ==> forall n :: n in conflicts <==>
        && n in old(dir).names && old(own) != Some(n) && (exists l :: l in old(dir).locks && l.inode == old(dir).names[n])
        && Strip(old(dir).text[old(dir).names[n]]) !in {"", sig}
      ensures sig != "" ==> forall n | n != pid || conflicts != [] :: n in dir.names <==>
        n in old(dir).names && (old(own) == Some(n) || exists l :: l in old(dir).locks && l.inode == old(dir).names[n])
      ensures forall n | n in dir.names && n in old(dir).names :: n != pid ==> dir.names[n] == old(dir).names[n]
      ensures conflicts != [] ==> dir.text == old(dir).text && dir.locks == old(dir).locks
      ensures sig != "" && conflicts == [] ==>
        && pid in dir.names
        && forall i | i in old(dir).text && i != dir.names[pid] :: i in dir.text && dir.text[i] == old(dir).text[i]
      ensures sig != "" && conflicts == [] ==>
        var mine := Lock(pid, dir.names[pid], Shared);
        if exists l :: l in old(dir).locks && l.inode == dir.names[pid] && l.mode == Exclusive then
          own == old(own) && dir.locks == old(dir).locks
        else
          own == Some(pid) && dir.locks == old(dir).locks + {mine} && dir.names[pid] in dir.text
          && dir.text[dir.names[pid]] == sig + "\n"
    {
      if sig == "" { return []; }
      conflicts := DisagreeingPins(listing, sig);
      if conflicts != [] { return; }
      Publish(sig, unused);
    }

    /** Create this process's pin if it has none, lock it and write it.  Should
        somebody hold the pin exclusively, it stays as it is. */
    method Publish(sig: string, unused: Inode)
      modifies this
      ensures var inode := if pid in old(dir).names then old(dir).names[pid] else unused;
        if NoExclusive(old(dir).locks, inode) then
          own == Some(pid) && dir == Published(old(dir), pid, sig, unused)
        else
          && own == old(own) && dir.names == old(dir).names[pid := inode] && dir.locks == old(dir).locks
          && dir.text == if pid in old(dir).names then old(dir).text else old(dir).text[unused := ""]
    {
      if pid !in dir.names {
        dir := dir.(names := dir.names[pid := unused], text := dir.text[unused := ""]);
      }
      var inode := dir.names[pid];
      if !NoExclusive(dir.locks, inode) { return; }
      dir := dir.(locks := dir.locks + {Lock(pid, inode, Shared)});
      dir := dir.(text := dir.text[inode := ""]);
      dir := dir.(text := dir.text[inode := Text(sig)]);
      own := Some(pid);
    }
  }

  function View(w: World): Directory {
    Directory(w.names, w.text, w.locks)
  }

  /** The claim and the process system of PinRules see the same obstacles: with
      the registry free, a scan counts exactly the live pins that record another
      source state, and no lock stands in the way of publishing. */
  lemma ConflictsAreDisputes(w: World, p: Pid, sig: string, n: Pid)
    requires Inv(w) && w.registry == None && p in w.procs && sig != ""
    ensures Conflicting(View(w), if w.procs[p].claim.Some? then Some(p) else None, sig, n) <==> !Passed(w, p, sig, n)
    ensures NoWriters(View(w))
  {
    forall l | l in w.locks ensures l.mode == Shared {
      assert l.mode == Exclusive ==> w.registry == Some(l.pid);
    }
    if n in w.names && !Unlocked(w.locks, w.names[n]) {
      var l :| l in w.locks && l.inode == w.names[n];
      assert l.pid == n;
    }
  }
}
