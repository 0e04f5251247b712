/**
 Claiming a checkout for one source state (`claim_source_pin` in
 lib/build_lease.py), as a system of processes that claim, scan, publish and
 die at any moment.  A process names its pin file after its pid, pids are
 recycled, and the kernel's locks sit on inodes and die with their process.
 */
module PinRules {
  import opened Common
  import opened Whitespace

  type Pid = nat
  type Inode = nat

  // ------------------------------------------------------------ what a pin file says

  /** What `claim_source_pin` writes into its pin. */
  function Text(signature: string): string {
    signature + "\n"
  }

  /** Reading a pin back gives the signature without the blanks at its ends. */
  lemma TextReadsBack(signature: string)
    ensures Strip(Text(signature)) == Strip(signature)
  {
    assert Text(signature)[..|signature|] == signature;
  }

  // ------------------------------------------------------------ the system

  datatype Mode = Shared | Exclusive
  datatype Lock = Lock(pid: Pid, inode: Inode, mode: Mode)

  /** Where a process stands inside `claim_source_pin`; all but Idle are inside
      the registry lock. */
  datatype Place =
    | Idle
    | Scanning(sig: string, todo: set<Pid>, conflicts: set<Pid>)
    | Opened(sig: string, todo: set<Pid>, conflicts: set<Pid>, name: Pid, inode: Inode, recorded: string)
    | Probing(sig: string, todo: set<Pid>, conflicts: set<Pid>, name: Pid, inode: Inode)
    | Reaping(sig: string, todo: set<Pid>, conflicts: set<Pid>, name: Pid)
    | Locking(sig: string, inode: Inode)
    | Truncating(sig: string, inode: Inode)
    | Writing(sig: string, inode: Inode)
    | Leaving

  /** `claim` is the signature the process last published; it has a pin of its
      own (`_KEPT_PINS`) exactly when there is one. */
  datatype Proc = Proc(place: Place, claim: Option<string>)

  datatype World = World(
    registry: Option<Pid>,
    procs: map<Pid, Proc>,
    names: map<Pid, Inode>,
    text: map<Inode, string>,
    locks: set<Lock>)

  datatype Step =
    | Start(pid: Pid)
    | Begin(pid: Pid, sig: string)
    | OpenPin(pid: Pid, name: Pid)
    | Test(pid: Pid)
    | Unlock(pid: Pid)
    | Unlink(pid: Pid)
    | Refuse(pid: Pid)
    | Create(pid: Pid, inode: Inode)
    | LockPin(pid: Pid)
    | LockFails(pid: Pid)
    | Truncate(pid: Pid)
    | Write(pid: Pid)
    | Leave(pid: Pid)
    | Die(pid: Pid)

  predicate Unlocked(locks: set<Lock>, inode: Inode) {
    forall l :: l in locks ==> l.inode != inode
  }

  predicate NoExclusive(locks: set<Lock>, inode: Inode) {
    forall l :: l in locks && l.mode == Exclusive ==> l.inode != inode
  }

  predicate Enabled(w: World, s: Step) {
    if s.Start? then s.pid !in w.procs
    else
      && s.pid in w.procs
      && var at := w.procs[s.pid].place;
      match s
      case Begin(_, sig) => at.Idle? && w.registry.None? && sig != ""
      case OpenPin(_, n) => at.Scanning? && n in at.todo && n in w.names && w.names[n] in w.text
      case Test(_) => at.Opened?
      case Unlock(_) => at.Probing?
      case Unlink(_) => at.Reaping?
      case Refuse(_) => at.Scanning? && at.todo == {} && at.conflicts != {}
      case Create(p, i) => at.Scanning? && at.todo == {} && at.conflicts == {} && (if p in w.names then i == w.names[p] else i !in w.text)
      case LockPin(_) => at.Locking? && NoExclusive(w.locks, at.inode)
      case LockFails(_) => at.Locking? && !NoExclusive(w.locks, at.inode)
      case Truncate(_) => at.Truncating?
      case Write(_) => at.Writing?
      case Leave(_) => at.Leaving?
      case Die(_) => true
  }

  function Moved(w: World, p: Pid, to: Place): map<Pid, Proc>
    requires p in w.procs
  {
    w.procs[p := w.procs[p].(place := to)]
  }

  function After(w: World, s: Step): World
    requires Enabled(w, s)
  {
    if s.Start? then w.(procs := w.procs[s.pid := Proc(Idle, None)])
    else if s.Die? then
      w.(registry := if w.registry == Some(s.pid) then None else w.registry,
         procs := w.procs - {s.pid},
         locks := set l | l in w.locks && l.pid != s.pid)
    else
      var p, at := s.pid, w.procs[s.pid].place;
      match s
      case Begin(_, sig) =>
        w.(registry := Some(p),
           procs := Moved(w, p, Scanning(sig, if w.procs[p].claim.Some? then w.names.Keys - {p} else w.names.Keys, {})))
      case OpenPin(_, n) =>
        w.(procs := Moved(w, p, Opened(at.sig, at.todo - {n}, at.conflicts, n, w.names[n], Strip(w.text[w.names[n]]))))
      case Test(_) =>
        if Unlocked(w.locks, at.inode) then
          w.(locks := w.locks + {Lock(p, at.inode, Exclusive)},
             procs := Moved(w, p, Probing(at.sig, at.todo, at.conflicts, at.name, at.inode)))
        else
          w.(procs := Moved(w, p, Scanning(at.sig, at.todo,
               if at.recorded != "" && at.recorded != at.sig then at.conflicts + {at.name} else at.conflicts)))
      case Unlock(_) =>
        w.(locks := w.locks - {Lock(p, at.inode, Exclusive)},
           procs := Moved(w, p, Reaping(at.sig, at.todo, at.conflicts, at.name)))
      case Unlink(_) =>
        w.(names := w.names - {at.name}, procs := Moved(w, p, Scanning(at.sig, at.todo, at.conflicts)))
      case Refuse(_) => w.(procs := Moved(w, p, Leaving))
      case Create(_, i) =>
        w.(names := w.names[p := i], text := if p in w.names then w.text else w.text[i := ""],
           procs := Moved(w, p, Locking(at.sig, i)))
      case LockPin(_) =>
        w.(locks := w.locks + {Lock(p, at.inode, Shared)}, procs := Moved(w, p, Truncating(at.sig, at.inode)))
      case LockFails(_) => w.(procs := Moved(w, p, Leaving))
      case Truncate(_) =>
        w.(text := w.text[at.inode := ""], procs := Moved(w, p, Writing(at.sig, at.inode)))
      case Write(_) =>
        w.(text := w.text[at.inode := Text(at.sig)], procs := w.procs[p := Proc(Leaving, Some(at.sig))])
      case Leave(_) => w.(registry := None, procs := Moved(w, p, Idle))
  }

  predicate Runs(w: World, steps: seq<Step>)
    decreases |steps|
  {
    steps == [] || (Enabled(w, steps[0]) && Runs(After(w, steps[0]), steps[1..]))
  }

  function AfterAll(w: World, steps: seq<Step>): World
    requires Runs(w, steps)
    decreases |steps|
  {
    if steps == [] then w else AfterAll(After(w, steps[0]), steps[1..])
  }

  /** A checkout in which dead runs may have left pins of any content behind. */
  predicate Fresh(w: World) {
    && w.registry == None && w.procs == map[] && w.locks == {}
    && (forall n :: n in w.names ==> w.names[n] in w.text)
    && (forall m, n :: m in w.names && n in w.names && m != n ==> w.names[m] != w.names[n])
  }

  // ------------------------------------------------------------ the invariant

  /** A live process has its pin locked. */
  predicate Live(w: World, n: Pid) {
    n in w.names && Lock(n, w.names[n], Shared) in w.locks
  }

  ghost predicate Files(names: map<Pid, Inode>, text: map<Inode, string>) {
    && (forall n :: n in names ==> names[n] in text)
    && (forall m, n :: m in names && n in names && m != n ==> names[m] != names[n])
  }

  predicate Owned(at: Place) {
    at.Truncating? || at.Writing?
  }

  /** Shared locks are on the owners' own pins, and exclusive ones belong to the
      process that is probing that very inode. */
  ghost predicate Locks(w: World) {
    && (forall l :: l in w.locks ==> l.pid in w.procs)
    && (forall l :: l in w.locks && l.mode == Shared ==>
          && l.pid in w.names && w.names[l.pid] == l.inode
          && (w.procs[l.pid].claim.Some? || Owned(w.procs[l.pid].place)))
    && (forall l :: l in w.locks && l.mode == Exclusive ==>
          w.procs[l.pid].place.Probing? && w.procs[l.pid].place.inode == l.inode)
  }

  ghost predicate Registered(w: World) {
    forall p :: w.registry == Some(p) <==> p in w.procs && !w.procs[p].place.Idle?
  }

  /** A claim is backed by a live pin that records it, but for the moments in
      which its own process rewrites it. */
  ghost predicate Backed(w: World, p: Pid)
    requires p in w.procs
  {
    w.procs[p].claim.Some? ==>
      && Live(w, p) && w.names[p] in w.text
      && (w.procs[p].place.Writing? || w.text[w.names[p]] == Text(w.procs[p].claim.value))
  }

  /** Pin `n` is no obstacle to a claim of `sig` by `p`. */
  predicate Passed(w: World, p: Pid, sig: string, n: Pid) {
    n != p && Live(w, n) && w.names[n] in w.text ==> Strip(w.text[w.names[n]]) in {"", sig}
  }

  /** Every pin counted as a conflict records another signature. */
  ghost predicate Reasons(w: World, sig: string, conflicts: set<Pid>) {
    forall n :: n in conflicts ==> Disagrees(w, sig, n)
  }

  predicate Disagrees(w: World, sig: string, n: Pid) {
    n in w.names && w.names[n] in w.text && Strip(w.text[w.names[n]]) !in {"", sig}
  }

  /** What the process inside the registry knows. */
  ghost predicate Informed(w: World, p: Pid)
    requires p in w.procs
  {
    var at := w.procs[p].place;
    match at
    case Idle => true
    case Leaving => true
    case Scanning(sig, todo, conflicts) =>
      && todo <= w.names.Keys && conflicts !! todo && Reasons(w, sig, conflicts)
      && (conflicts == {} ==> forall n :: n !in todo ==> Passed(w, p, sig, n))
    case Opened(sig, todo, conflicts, name, inode, recorded) =>
      && todo <= w.names.Keys && conflicts !! todo && Reasons(w, sig, conflicts)
      && name !in todo && name !in conflicts && name in w.names && w.names[name] == inode
      && inode in w.text && recorded == Strip(w.text[inode])
      && (conflicts == {} ==> forall n :: n !in todo && n != name ==> Passed(w, p, sig, n))
    case Probing(sig, todo, conflicts, name, inode) =>
      && todo <= w.names.Keys && conflicts !! todo && Reasons(w, sig, conflicts)
      && name !in todo && name !in conflicts && name in w.names && w.names[name] == inode && !Live(w, name)
      && Lock(p, inode, Exclusive) in w.locks
      && (conflicts == {} ==> forall n :: n !in todo && n != name ==> Passed(w, p, sig, n))
    case Reaping(sig, todo, conflicts, name) =>
      && todo <= w.names.Keys && conflicts !! todo && Reasons(w, sig, conflicts)
      && name !in todo && name !in conflicts && name in w.names && !Live(w, name)
      && (conflicts == {} ==> forall n :: n !in todo && n != name ==> Passed(w, p, sig, n))
    case Locking(sig, inode) =>
      p in w.names && w.names[p] == inode && forall n :: Passed(w, p, sig, n)
    case Truncating(sig, inode) =>
      p in w.names && w.names[p] == inode && Live(w, p) && forall n :: Passed(w, p, sig, n)
    case Writing(sig, inode) =>
      p in w.names && w.names[p] == inode && Live(w, p) && forall n :: Passed(w, p, sig, n)
  }

  ghost predicate Inv(w: World) {
    && Files(w.names, w.text) && Locks(w) && Registered(w)
    && (forall p :: p in w.procs ==> Backed(w, p))
    && (forall p :: p in w.procs ==> Informed(w, p))
  }

  lemma FilesKept(w: World, s: Step)
    requires Inv(w) && Enabled(w, s)
    ensures Files(After(w, s).names, After(w, s).text)
  {
    if s.Truncate? || s.Write? { assert Informed(w, s.pid); }
  }

  lemma RegisteredKept(w: World, s: Step)
    requires Registered(w) && Enabled(w, s)
    ensures Registered(After(w, s))
  {
    assert !s.Start? ==> (w.registry == Some(s.pid) <==> !w.procs[s.pid].place.Idle?);
  }

  lemma LocksKeptByScanning(w: World, s: Step)
    requires Locks(w) && s.pid in w.procs && Files(w.names, w.text) && Enabled(w, s) && Informed(w, s.pid)
    requires s.Begin? || s.OpenPin? || s.Test? || s.Unlock? || s.Unlink? || s.Refuse?
    ensures Locks(After(w, s))
  {
  }

  lemma LocksKeptByPublishing(w: World, s: Step)
    requires Locks(w) && s.pid in w.procs && Files(w.names, w.text) && Enabled(w, s) && Informed(w, s.pid)
    requires s.Create? || s.LockPin? || s.LockFails? || s.Truncate? || s.Write? || s.Leave?
    ensures Locks(After(w, s))
  {
  }

  lemma LocksKept(w: World, s: Step)
    requires Inv(w) && Enabled(w, s)
    ensures Locks(After(w, s))
  {
    if s.pid in w.procs && !s.Die? {
      assert Informed(w, s.pid);
      if s.Begin? || s.OpenPin? || s.Test? || s.Unlock? || s.Unlink? || s.Refuse? { LocksKeptByScanning(w, s); }
      else { LocksKeptByPublishing(w, s); }
    }
  }

  lemma BackedThroughScanning(w: World, s: Step, p: Pid)
    requires Enabled(w, s) && s.pid in w.procs && Informed(w, s.pid) && p in w.procs && Backed(w, p)
    requires s.Begin? || s.OpenPin? || s.Test? || s.Unlock? || s.Unlink? || s.Refuse? || s.Leave?
    ensures Backed(After(w, s), p)
  {
  }

  lemma BackedThroughLife(w: World, s: Step, p: Pid)
    requires Enabled(w, s) && (s.Start? || s.Die?) && p in w.procs && p != s.pid && Backed(w, p)
    ensures Backed(After(w, s), p)
  {
  }

  lemma BackedThroughPublishing(w: World, s: Step, p: Pid)
    requires Enabled(w, s) && s.pid in w.procs && Files(w.names, w.text) && Informed(w, s.pid) && p in w.procs && Backed(w, p)
    requires s.Create? || s.LockPin? || s.LockFails? || s.Truncate? || s.Write?
    ensures Backed(After(w, s), p)
  {
  }

  lemma BackedThroughClaiming(w: World, s: Step, p: Pid)
    requires Enabled(w, s) && s.pid in w.procs && Files(w.names, w.text) && Informed(w, s.pid) && p in w.procs && Backed(w, p)
    requires !s.Start? && !s.Die?
    ensures Backed(After(w, s), p)
  {
    if s.Create? || s.LockPin? || s.LockFails? || s.Truncate? || s.Write? {
      BackedThroughPublishing(w, s, p);
    } else {
      BackedThroughScanning(w, s, p);
    }
  }

  lemma BackedKept(w: World, s: Step, p: Pid)
    requires Inv(w) && Enabled(w, s) && p in After(w, s).procs
    ensures Backed(After(w, s), p)
  {
    if p in w.procs {
      assert Backed(w, p);
      if s.Start? || s.Die? {
        BackedThroughLife(w, s, p);
      } else {
        assert Informed(w, s.pid);
        BackedThroughClaiming(w, s, p);
      }
    }
  }

  /** Only a birth or a death can interleave with a process inside the registry. */
  lemma InformedThroughOthers(w: World, s: Step, p: Pid)
    requires Enabled(w, s) && p in w.procs && p != s.pid && Informed(w, p)
    requires s.Start? || s.Die? || w.procs[p].place.Idle?
    ensures p in After(w, s).procs && Informed(After(w, s), p)
  {
    if s.Start? || s.Die? {
      var v := After(w, s);
      forall n ensures Live(v, n) ==> Live(w, n) {}
      forall sig, n ensures Passed(w, p, sig, n) ==> Passed(v, p, sig, n) {}
    }
  }

  lemma InformedByScanning(w: World, s: Step)
    requires Files(w.names, w.text) && s.pid in w.procs && Enabled(w, s) && Informed(w, s.pid)
    requires s.Begin? || s.OpenPin? || s.Refuse? || s.Leave?
    ensures Informed(After(w, s), s.pid)
  {
    var v, p := After(w, s), s.pid;
    forall sig, n ensures Passed(w, p, sig, n) ==> Passed(v, p, sig, n) {}
  }

  lemma InformedByTesting(w: World, s: Step)
    requires s.pid in w.procs && Enabled(w, s) && s.Test? && Informed(w, s.pid)
    ensures Informed(After(w, s), s.pid)
  {
    var v, p := After(w, s), s.pid;
    var at := w.procs[p].place;
    assert forall n :: Live(v, n) <==> Live(w, n);
    assert forall n :: Passed(w, p, at.sig, n) ==> Passed(v, p, at.sig, n);
    if Unlocked(w.locks, at.inode) {
      assert !Live(v, at.name);
    }
  }

  lemma InformedByReaping(w: World, s: Step)
    requires s.pid in w.procs && Enabled(w, s) && Informed(w, s.pid)
    requires s.Unlock? || s.Unlink?
    ensures Informed(After(w, s), s.pid)
  {
    var v, p := After(w, s), s.pid;
    var at := w.procs[p].place;
    assert forall n :: Live(v, n) ==> Live(w, n);
    assert forall n :: Passed(w, p, at.sig, n) ==> Passed(v, p, at.sig, n);
  }

  lemma InformedByPublishing(w: World, s: Step)
    requires Files(w.names, w.text) && s.pid in w.procs && Enabled(w, s) && Informed(w, s.pid)
    requires s.Create? || s.LockPin? || s.LockFails? || s.Truncate? || s.Write?
    ensures Informed(After(w, s), s.pid)
  {
    var v, p := After(w, s), s.pid;
    var at := w.procs[p].place;
    if !s.Write? && !s.LockFails? {
      assert forall n :: n != p ==> (Live(v, n) ==> Live(w, n));
      assert forall n :: Passed(w, p, at.sig, n) ==> Passed(v, p, at.sig, n);
    }
  }

  lemma InformedKept(w: World, s: Step, p: Pid)
    requires Inv(w) && Enabled(w, s) && p in After(w, s).procs
    ensures Informed(After(w, s), p)
  {
    if p in w.procs && p != s.pid {
      assert Informed(w, p);
      InformedThroughOthers(w, s, p);
    } else if p in w.procs {
      assert Informed(w, p);
      if s.Begin? || s.OpenPin? || s.Refuse? || s.Leave? { InformedByScanning(w, s); }
      else if s.Test? { InformedByTesting(w, s); }
      else if s.Unlock? || s.Unlink? { InformedByReaping(w, s); }
      else { InformedByPublishing(w, s); }
    }
  }

  lemma StepKeepsInv(w: World, s: Step)
    requires Inv(w) && Enabled(w, s)
    ensures Inv(After(w, s))
  {
    FilesKept(w, s);
    RegisteredKept(w, s);
    LocksKept(w, s);
    forall p | p in After(w, s).procs ensures Backed(After(w, s), p) { BackedKept(w, s, p); }
    forall p | p in After(w, s).procs ensures Informed(After(w, s), p) { InformedKept(w, s, p); }
  }

  lemma {:induction false} EveryRunKeepsInv(w: World, steps: seq<Step>)
    requires Inv(w) && Runs(w, steps)
    ensures Inv(AfterAll(w, steps))
    decreases |steps|
  {
    if steps != [] {
      StepKeepsInv(w, steps[0]);
      EveryRunKeepsInv(After(w, steps[0]), steps[1..]);
    }
  }

  /** Over any interleaving of claims, births and deaths, a scan never removes
      the pin of a live process, and the branch for a refused lock on a pin just
      published is never taken. */
  lemma LivePinsAreNeverReaped(w: World, steps: seq<Step>, p: Pid)
    requires Fresh(w) && Runs(w, steps)
    ensures var v := AfterAll(w, steps);
      && (p in v.procs && Enabled(v, Unlink(p)) ==> !Live(v, v.procs[p].place.name))
      && !Enabled(v, LockFails(p))
  {
    EveryRunKeepsInv(w, steps);
    var v := AfterAll(w, steps);
    if p in v.procs {
      assert Informed(v, p);
      if v.procs[p].place.Locking? {
        forall l | l in v.locks ensures l.mode == Shared {
          assert l.mode == Exclusive ==> v.registry == Some(l.pid);
        }
      }
    }
  }

  /** From the moment a claim is published until its process dies, the process
      holds the lock on its own pin, and outside the moment of rewriting it the
      pin records the claim. */
  lemma ClaimsAreBacked(w: World, steps: seq<Step>, p: Pid)
    requires Fresh(w) && Runs(w, steps)
    requires p in AfterAll(w, steps).procs && AfterAll(w, steps).procs[p].claim.Some?
    ensures var v := AfterAll(w, steps);
      Live(v, p) && (v.procs[p].place.Writing? || (v.names[p] in v.text && v.text[v.names[p]] == Text(v.procs[p].claim.value)))
  {
    EveryRunKeepsInv(w, steps);
    assert Backed(AfterAll(w, steps), p);
  }

  /** A claim is refused only over a pin that records another signature. */
  lemma RefusalHasAReason(w: World, steps: seq<Step>, p: Pid) returns (n: Pid)
    requires Fresh(w) && Runs(w, steps) && Enabled(AfterAll(w, steps), Refuse(p))
    ensures var v := AfterAll(w, steps);
      n in v.procs[p].place.conflicts && Disagrees(v, v.procs[p].place.sig, n)
  {
    EveryRunKeepsInv(w, steps);
    var v := AfterAll(w, steps);
    assert Informed(v, p);
    n :| n in v.procs[p].place.conflicts;
    assert Disagrees(v, v.procs[p].place.sig, n);
  }
}
