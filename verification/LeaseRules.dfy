/**
 The reader/writer lease of lib/build_lease.py as a system of processes over the
 kernel's `flock` table.  Each process keeps a table of the leases it holds
 (`_HELD`), the scoped leases it is inside of, innermost last, and the
 descriptors it keeps open until it dies (`_KEPT`).
 */
module LeaseRules {
  import opened Common

  type Pid = nat
  /** A lock file. */
  type Key = nat
  /** An open file description. */
  type Handle = nat

  datatype Mode = Shared | Exclusive
  datatype Kind = Nested | Owner(handle: Handle) | Failed
  datatype Frame = Frame(key: Key, mode: Mode, kind: Kind)
  datatype Entry = Entry(count: nat, mode: Mode)
  datatype Process = Process(held: map<Key, Entry>, frames: seq<Frame>, kept: set<Handle>)

  datatype Grant = Grant(owner: Pid, key: Key, mode: Mode)
  type Table = map<Handle, Grant>

  /** Whether the kernel grants a lock on `key` to a new open file description. */
  predicate Free(table: Table, key: Key, mode: Mode) {
    forall h :: h in table && table[h].key == key ==> mode == Shared && table[h].mode == Shared
  }

  /** Whether a request rides on a lease the process already holds. */
  predicate Nests(p: Process, key: Key, mode: Mode) {
    key in p.held && (p.held[key].mode == Exclusive || mode == p.held[key].mode)
  }

  function Entered(p: Process, key: Key, mode: Mode, kind: Kind): Process
    requires kind.Nested? <==> Nests(p, key, mode)
  {
    var held := match kind
      case Nested => p.held[key := p.held[key].(count := p.held[key].count + 1)]
      case Owner(_) => p.held[key := Entry(1, mode)]
      case Failed => p.held;
    p.(held := held, frames := p.frames + [Frame(key, mode, kind)])
  }

  function Released(held: map<Key, Entry>, key: Key): map<Key, Entry> {
    if key !in held then held
    else if held[key].count <= 1 then held - {key}
    else held[key := held[key].(count := held[key].count - 1)]
  }

  /** The innermost scoped lease ends. */
  function Left(p: Process): Process
    requires p.frames != []
  {
    var f := p.frames[|p.frames| - 1];
    var held := match f.kind
      case Nested => Released(p.held, f.key)
      case Owner(_) => p.held - {f.key}
      case Failed => p.held;
    p.(held := held, frames := p.frames[..|p.frames| - 1])
  }

  function Keeping(p: Process, key: Key, handle: Handle): Process {
    p.(held := p.held[key := Entry(1, Shared)], kept := p.kept + {handle})
  }

  // ------------------------------------------------------------ many processes

  datatype World = World(procs: map<Pid, Process>, table: Table)

  datatype Step =
    | Start(pid: Pid)
    | Enter(pid: Pid, key: Key, mode: Mode, kind: Kind)
    | Leave(pid: Pid)
    | HoldShared(pid: Pid, key: Key, got: Option<Handle>)
    | Die(pid: Pid)

  predicate Enabled(w: World, s: Step) {
    match s
    case Start(p) => p !in w.procs
    case Enter(p, key, mode, kind) =>
      && p in w.procs
      && (kind.Nested? <==> Nests(w.procs[p], key, mode))
      && (kind.Owner? ==> kind.handle !in w.table && Free(w.table, key, mode))
    case Leave(p) => p in w.procs && w.procs[p].frames != []
    case HoldShared(p, key, got) =>
      && p in w.procs
      && (got.Some? ==> key !in w.procs[p].held && got.value !in w.table && Free(w.table, key, Shared))
    case Die(p) => p in w.procs
  }

  function After(w: World, s: Step): World
    requires Enabled(w, s)
  {
    match s
    case Start(p) => w.(procs := w.procs[p := Process(map[], [], {})])
    case Enter(p, key, mode, kind) =>
      World(w.procs[p := Entered(w.procs[p], key, mode, kind)],
            if kind.Owner? then w.table[kind.handle := Grant(p, key, mode)] else w.table)
    case Leave(p) =>
      var f := w.procs[p].frames[|w.procs[p].frames| - 1];
      World(w.procs[p := Left(w.procs[p])], if f.kind.Owner? then w.table - {f.kind.handle} else w.table)
    case HoldShared(p, key, got) =>
      if got.None? then w
      else World(w.procs[p := Keeping(w.procs[p], key, got.value)], w.table[got.value := Grant(p, key, Shared)])
    case Die(p) =>
      World(w.procs - {p}, map h | h in w.table && w.table[h].owner != p :: w.table[h])
  }

  predicate Runs(w: World, steps: seq<Step>)
    decreases |steps|
  {
    steps == [] || (Enabled(w, steps[0]) && Runs(After(w, steps[0]), steps[1..]))
  }

  function AfterAll(w: World, steps: seq<Step>): World
    requires Runs(w, steps)
    decreases |steps|
  {
    if steps == [] then w else AfterAll(After(w, steps[0]), steps[1..])
  }

  const NOBODY := World(map[], map[])

  // ------------------------------------------------------------ the invariant

  function NestedIn(frames: seq<Frame>, key: Key): nat {
    if frames == [] then 0
    else
      var f := frames[|frames| - 1];
      NestedIn(frames[..|frames| - 1], key) + if f.kind.Nested? && f.key == key then 1 else 0
  }

  lemma {:induction false} NestedCounts(frames: seq<Frame>, key: Key)
    ensures NestedIn(frames, key) > 0 <==> exists i :: 0 <= i < |frames| && frames[i].kind.Nested? && frames[i].key == key
  {
    if frames != [] {
      NestedCounts(frames[..|frames| - 1], key);
      assert frames == frames[..|frames| - 1] + [frames[|frames| - 1]];
      if NestedIn(frames[..|frames| - 1], key) > 0 {
        var i :| 0 <= i < |frames| - 1 && frames[..|frames| - 1][i].kind.Nested? && frames[..|frames| - 1][i].key == key;
        assert frames[i].kind.Nested? && frames[i].key == key;
      }
    }
  }

  predicate Owns(f: Frame, key: Key) {
    f.kind.Owner? && f.key == key
  }

  ghost predicate Has(table: Table, h: Handle, pid: Pid, key: Key) {
    h in table && table[h].owner == pid && table[h].key == key
  }

  /** The process holds the kernel lock. */
  ghost predicate Locked(table: Table, pid: Pid, key: Key) {
    exists h: Handle :: Has(table, h, pid, key)
  }

  /** Every lock of the process is recorded, and it has one per lock file. */
  ghost predicate Recorded(p: Process, pid: Pid, table: Table) {
    && (forall key: Key :: key in p.held <==> Locked(table, pid, key))
    && (forall h: Handle, key: Key :: Has(table, h, pid, key) ==> p.held[key].mode == table[h].mode)
    && (forall h: Handle, k: Handle, key: Key :: Has(table, h, pid, key) && Has(table, k, pid, key) ==> h == k)
  }

  /** Every lock is either kept or belongs to exactly one open scope. */
  ghost predicate Anchored(p: Process, pid: Pid, table: Table) {
    && (forall h :: h in p.kept ==> h in table && table[h].owner == pid && table[h].mode == Shared)
    && (forall i :: 0 <= i < |p.frames| && p.frames[i].kind.Owner? ==>
          Has(table, p.frames[i].kind.handle, pid, p.frames[i].key) && p.frames[i].kind.handle !in p.kept
          && table[p.frames[i].kind.handle].mode == p.frames[i].mode)
    && (forall i, j :: 0 <= i < j < |p.frames| && p.frames[i].kind.Owner? && p.frames[j].kind.Owner? ==>
          p.frames[i].kind.handle != p.frames[j].kind.handle)
    && (forall h: Handle, key: Key :: Has(table, h, pid, key) ==>
          h in p.kept || exists i :: 0 <= i < |p.frames| && p.frames[i] == Frame(key, table[h].mode, Owner(h)))
  }

  /** A nested scope lies inside the scope that owns its lock, unless the lock is kept. */
  ghost predicate Inside(p: Process, table: Table) {
    && (forall j :: 0 <= j < |p.frames| && p.frames[j].kind.Nested? ==>
          && p.frames[j].key in p.held
          && (p.frames[j].mode == Exclusive ==> p.held[p.frames[j].key].mode == Exclusive)
          && ((exists h :: h in p.kept && h in table && table[h].key == p.frames[j].key)
              || exists i :: 0 <= i < j && Owns(p.frames[i], p.frames[j].key)))
    && (forall key :: key in p.held ==> p.held[key].count == 1 + NestedIn(p.frames, key))
  }

  ghost predicate Sound(p: Process, pid: Pid, table: Table) {
    Recorded(p, pid, table) && Anchored(p, pid, table) && Inside(p, table)
  }

  /** What `flock` guarantees of its table. */
  ghost predicate Compatible(table: Table) {
    forall h, k :: h in table && k in table && h != k && table[h].key == table[k].key ==> table[h].mode == Shared && table[k].mode == Shared
  }

  /** Only live processes hold locks. */
  ghost predicate LiveOwners(procs: map<Pid, Process>, table: Table) {
    forall h :: h in table ==> table[h].owner in procs
  }

  ghost predicate AllSound(procs: map<Pid, Process>, table: Table) {
    forall p :: p in procs ==> Sound(procs[p], p, table)
  }

  ghost predicate Inv(w: World) {
    Compatible(w.table) && LiveOwners(w.procs, w.table) && AllSound(w.procs, w.table)
  }

  /** What other processes do to the table does not concern a process. */
  lemma OthersDoNotMatter(p: Process, pid: Pid, before: Table, after: Table)
    requires Sound(p, pid, before)
    requires forall h :: h in before && before[h].owner == pid ==> h in after && after[h] == before[h]
    requires forall h :: h in after && after[h].owner == pid ==> h in before && before[h] == after[h]
    ensures Sound(p, pid, after)
  {
    forall h: Handle, key: Key ensures Has(before, h, pid, key) <==> Has(after, h, pid, key) {}
    forall key: Key ensures Locked(before, pid, key) <==> Locked(after, pid, key) {
      if Locked(before, pid, key) { var h: Handle :| Has(before, h, pid, key); assert Has(after, h, pid, key); }
      if Locked(after, pid, key) { var h: Handle :| Has(after, h, pid, key); assert Has(before, h, pid, key); }
    }
    forall j | 0 <= j < |p.frames| && p.frames[j].kind.Nested? && exists h :: h in p.kept && h in before && before[h].key == p.frames[j].key
      ensures exists h :: h in p.kept && h in after && after[h].key == p.frames[j].key
    {
      var h :| h in p.kept && h in before && before[h].key == p.frames[j].key;
      assert h in after;
    }
  }

  // ------------------------------------------------------------ one process, one step

  lemma Pushed(frames: seq<Frame>, f: Frame, key: Key)
    ensures NestedIn(frames + [f], key) == NestedIn(frames, key) + if f.kind.Nested? && f.key == key then 1 else 0
  {
    assert (frames + [f])[..|frames|] == frames;
  }

  lemma NestingIsSound(p: Process, pid: Pid, table: Table, key: Key, mode: Mode)
    requires Sound(p, pid, table) && Nests(p, key, mode)
    ensures Sound(Entered(p, key, mode, Nested), pid, table)
  {
    var f := Frame(key, mode, Nested);
    var q := Entered(p, key, mode, Nested);
    forall k ensures NestedIn(q.frames, k) == NestedIn(p.frames, k) + if k == key then 1 else 0 { Pushed(p.frames, f, k); }
    assert Locked(table, pid, key);
    var h: Handle :| Has(table, h, pid, key);
    if h !in p.kept {
      var i :| 0 <= i < |p.frames| && p.frames[i] == Frame(key, table[h].mode, Owner(h));
      assert Owns(q.frames[i], key);
    }
    assert Recorded(q, pid, table);
    AnchoredBelow(p, q, pid, table, f);
    InsideBelow(p, q, table, f);
  }

  /** Pushing a frame that owns nothing leaves the anchors alone. */
  lemma AnchoredBelow(p: Process, q: Process, pid: Pid, table: Table, f: Frame)
    requires Anchored(p, pid, table) && q.kept == p.kept && q.frames == p.frames + [f] && !f.kind.Owner?
    ensures Anchored(q, pid, table)
  {
    forall h: Handle, key: Key | Has(table, h, pid, key) && h !in q.kept
      ensures exists i :: 0 <= i < |q.frames| && q.frames[i] == Frame(key, table[h].mode, Owner(h))
    {
      var i :| 0 <= i < |p.frames| && p.frames[i] == Frame(key, table[h].mode, Owner(h));
      assert q.frames[i] == p.frames[i];
    }
  }

  /** Nested scopes stay inside what they were inside of. */
  lemma InsideBelow(p: Process, q: Process, table: Table, f: Frame)
    requires Inside(p, table) && q.kept == p.kept && q.frames == p.frames + [f]
    requires forall key :: key in p.held ==> key in q.held && q.held[key].mode == p.held[key].mode
    requires forall key :: key in q.held ==> q.held[key].count == 1 + NestedIn(q.frames, key)
    requires f.kind.Nested? ==>
      && f.key in q.held && (f.mode == Exclusive ==> q.held[f.key].mode == Exclusive)
      && ((exists h :: h in p.kept && h in table && table[h].key == f.key)
          || exists i :: 0 <= i < |p.frames| && Owns(q.frames[i], f.key))
    ensures Inside(q, table)
  {
    forall j | 0 <= j < |q.frames| && q.frames[j].kind.Nested?
      ensures (exists h :: h in q.kept && h in table && table[h].key == q.frames[j].key) || exists i :: 0 <= i < j && Owns(q.frames[i], q.frames[j].key)
    {
      if j < |p.frames| && !exists h :: h in p.kept && h in table && table[h].key == p.frames[j].key {
        var i :| 0 <= i < j && Owns(p.frames[i], p.frames[j].key);
        assert Owns(q.frames[i], q.frames[j].key);
      }
    }
  }

  lemma FailingIsSound(p: Process, pid: Pid, table: Table, key: Key, mode: Mode)
    requires Sound(p, pid, table) && !Nests(p, key, mode)
    ensures Sound(Entered(p, key, mode, Failed), pid, table)
  {
    var f := Frame(key, mode, Failed);
    var q := Entered(p, key, mode, Failed);
    forall k ensures NestedIn(q.frames, k) == NestedIn(p.frames, k) { Pushed(p.frames, f, k); }
    AnchoredBelow(p, q, pid, table, f);
    InsideBelow(p, q, table, f);
  }

  /** A process that already holds a lease is never granted a second lock on the
      same file: its own descriptor is in the way. */
  lemma OwnLockIsInTheWay(p: Process, pid: Pid, table: Table, key: Key, mode: Mode)
    requires Recorded(p, pid, table) && key in p.held && !Nests(p, key, mode)
    ensures !Free(table, key, mode)
  {
    assert Locked(table, pid, key);
    var h: Handle :| Has(table, h, pid, key);
  }

  lemma NoFrameOnAFreeLease(p: Process, pid: Pid, table: Table, key: Key)
    requires Sound(p, pid, table) && key !in p.held
    ensures NestedIn(p.frames, key) == 0
    ensures forall i :: 0 <= i < |p.frames| ==> !Owns(p.frames[i], key)
  {
    NestedCounts(p.frames, key);
    assert !Locked(table, pid, key);
    forall i | 0 <= i < |p.frames| ensures !Owns(p.frames[i], key) {
      assert Owns(p.frames[i], key) ==> Has(table, p.frames[i].kind.handle, pid, key);
    }
  }

  lemma GrantIsRecorded(p: Process, q: Process, pid: Pid, table: Table, h: Handle, key: Key, mode: Mode)
    requires Recorded(p, pid, table) && h !in table && key !in p.held
    requires q.held == p.held[key := Entry(1, mode)]
    ensures Recorded(q, pid, table[h := Grant(pid, key, mode)])
  {
    var after := table[h := Grant(pid, key, mode)];
    forall g: Handle, k: Key ensures Has(after, g, pid, k) <==> (Has(table, g, pid, k) || (g == h && k == key)) {}
    assert !Locked(table, pid, key);
    forall k: Key ensures k in q.held <==> Locked(after, pid, k) {
      if k == key {
        assert Has(after, h, pid, key);
      } else if Locked(table, pid, k) {
        var g: Handle :| Has(table, g, pid, k);
        assert Has(after, g, pid, k);
      }
    }
  }

  lemma OwningIsAnchored(p: Process, q: Process, pid: Pid, table: Table, h: Handle, key: Key, mode: Mode)
    requires Anchored(p, pid, table) && h !in table
    requires q.kept == p.kept && q.frames == p.frames + [Frame(key, mode, Owner(h))]
    ensures Anchored(q, pid, table[h := Grant(pid, key, mode)])
  {
    var after := table[h := Grant(pid, key, mode)];
    forall g: Handle, k: Key | Has(after, g, pid, k) && g !in q.kept
      ensures exists i :: 0 <= i < |q.frames| && q.frames[i] == Frame(k, after[g].mode, Owner(g))
    {
      if g == h {
        assert q.frames[|p.frames|] == Frame(k, after[g].mode, Owner(g));
      } else {
        assert Has(table, g, pid, k);
        var i :| 0 <= i < |p.frames| && p.frames[i] == Frame(k, table[g].mode, Owner(g));
        assert q.frames[i] == p.frames[i];
      }
    }
  }

  lemma OwningIsSound(p: Process, pid: Pid, table: Table, h: Handle, key: Key, mode: Mode)
    requires Sound(p, pid, table) && h !in table && !Nests(p, key, mode) && Free(table, key, mode)
    ensures key !in p.held
    ensures Sound(Entered(p, key, mode, Owner(h)), pid, table[h := Grant(pid, key, mode)])
  {
    var f := Frame(key, mode, Owner(h));
    var q := Entered(p, key, mode, Owner(h));
    if key in p.held { OwnLockIsInTheWay(p, pid, table, key, mode); }
    NoFrameOnAFreeLease(p, pid, table, key);
    GrantIsRecorded(p, q, pid, table, h, key, mode);
    OwningIsAnchored(p, q, pid, table, h, key, mode);
    forall k ensures NestedIn(q.frames, k) == NestedIn(p.frames, k) { Pushed(p.frames, f, k); }
    InsideSurvives(p, table, table[h := Grant(pid, key, mode)]);
    InsideBelow(p, q, table[h := Grant(pid, key, mode)], f);
  }

  lemma InsideSurvives(p: Process, before: Table, after: Table)
    requires Inside(p, before)
    requires forall h :: h in p.kept && h in before ==> h in after && after[h].key == before[h].key
    ensures Inside(p, after)
  {
    forall j | 0 <= j < |p.frames| && p.frames[j].kind.Nested? && exists h :: h in p.kept && h in before && before[h].key == p.frames[j].key
      ensures exists h :: h in p.kept && h in after && after[h].key == p.frames[j].key
    {
      var h :| h in p.kept && h in before && before[h].key == p.frames[j].key;
      assert h in after;
    }
  }

  lemma KeepingIsAnchored(p: Process, q: Process, pid: Pid, table: Table, h: Handle, key: Key)
    requires Anchored(p, pid, table) && h !in table && q.frames == p.frames && q.kept == p.kept + {h}
    ensures Anchored(q, pid, table[h := Grant(pid, key, Shared)])
  {
    var after := table[h := Grant(pid, key, Shared)];
    forall g: Handle, k: Key | Has(after, g, pid, k) && g !in q.kept
      ensures exists i :: 0 <= i < |q.frames| && q.frames[i] == Frame(k, after[g].mode, Owner(g))
    {
      assert Has(table, g, pid, k);
    }
  }

  lemma KeepingIsSound(p: Process, pid: Pid, table: Table, h: Handle, key: Key)
    requires Sound(p, pid, table) && h !in table && key !in p.held
    ensures Sound(Keeping(p, key, h), pid, table[h := Grant(pid, key, Shared)])
  {
    var after := table[h := Grant(pid, key, Shared)];
    var q := Keeping(p, key, h);
    NoFrameOnAFreeLease(p, pid, table, key);
    GrantIsRecorded(p, q, pid, table, h, key, Shared);
    KeepingIsAnchored(p, q, pid, table, h, key);
    InsideSurvives(p, table, after);
    assert Inside(q, after) by { KeptInside(p, q, after, h); }
  }

  lemma KeptInside(p: Process, q: Process, table: Table, h: Handle)
    requires Inside(p, table) && q.frames == p.frames && q.kept == p.kept + {h}
    requires forall key :: key in p.held ==> key in q.held && q.held[key] == p.held[key]
    requires forall key :: key in q.held ==> q.held[key].count == 1 + NestedIn(q.frames, key)
    ensures Inside(q, table)
  {
    forall j | 0 <= j < |q.frames| && q.frames[j].kind.Nested? && exists g :: g in p.kept && g in table && table[g].key == p.frames[j].key
      ensures exists g :: g in q.kept && g in table && table[g].key == q.frames[j].key
    {
      var g :| g in p.kept && g in table && table[g].key == p.frames[j].key;
      assert g in q.kept;
    }
  }

  // ------------------------------------------------------------ leaving

  lemma Popped(frames: seq<Frame>, key: Key)
    requires frames != []
    ensures var f := frames[|frames| - 1];
      NestedIn(frames, key) == NestedIn(frames[..|frames| - 1], key) + if f.kind.Nested? && f.key == key then 1 else 0
  {
  }

  /** Popping a frame that owns nothing leaves the anchors alone. */
  lemma AnchoredAbove(p: Process, q: Process, pid: Pid, table: Table)
    requires Anchored(p, pid, table) && p.frames != [] && q.kept == p.kept && q.frames == p.frames[..|p.frames| - 1]
    requires !p.frames[|p.frames| - 1].kind.Owner?
    ensures Anchored(q, pid, table)
  {
    forall h: Handle, key: Key | Has(table, h, pid, key) && h !in q.kept
      ensures exists i :: 0 <= i < |q.frames| && q.frames[i] == Frame(key, table[h].mode, Owner(h))
    {
      var i :| 0 <= i < |p.frames| && p.frames[i] == Frame(key, table[h].mode, Owner(h));
      assert q.frames[i] == p.frames[i];
    }
  }

  lemma InsideAbove(p: Process, q: Process, table: Table)
    requires Inside(p, table) && p.frames != [] && q.kept == p.kept && q.frames == p.frames[..|p.frames| - 1]
    requires forall j :: 0 <= j < |q.frames| && q.frames[j].kind.Nested? ==>
      var k := q.frames[j].key; k in p.held ==> k in q.held && q.held[k].mode == p.held[k].mode
    requires forall key :: key in q.held ==> q.held[key].count == 1 + NestedIn(q.frames, key)
    ensures Inside(q, table)
  {
    forall j | 0 <= j < |q.frames| && q.frames[j].kind.Nested?
      ensures q.frames[j].key in q.held
      ensures (q.frames[j].mode == Exclusive ==> q.held[q.frames[j].key].mode == Exclusive)
      ensures (exists h :: h in q.kept && h in table && table[h].key == q.frames[j].key) || exists i :: 0 <= i < j && Owns(q.frames[i], q.frames[j].key)
    {
      assert p.frames[j] == q.frames[j];
      if !exists h :: h in p.kept && h in table && table[h].key == p.frames[j].key {
        var i :| 0 <= i < j && Owns(p.frames[i], p.frames[j].key);
        assert Owns(q.frames[i], q.frames[j].key);
      }
    }
  }

  /** Leaving a nested scope never releases the lease. */
  lemma LeavingNestedIsSound(p: Process, pid: Pid, table: Table)
    requires Sound(p, pid, table) && p.frames != [] && !p.frames[|p.frames| - 1].kind.Owner?
    ensures Sound(Left(p), pid, table) && Left(p).held.Keys == p.held.Keys
  {
    var q := Left(p);
    forall k ensures NestedIn(p.frames, k) == NestedIn(q.frames, k) +
      if p.frames[|p.frames| - 1].kind.Nested? && p.frames[|p.frames| - 1].key == k then 1 else 0
    {
      Popped(p.frames, k);
    }
    AnchoredAbove(p, q, pid, table);
    InsideAbove(p, q, table);
  }

  /** When the owning scope ends no scope nested in it is left open. */
  lemma OwnerEndsLast(p: Process, pid: Pid, table: Table)
    requires Sound(p, pid, table) && p.frames != [] && p.frames[|p.frames| - 1].kind.Owner?
    ensures var f := p.frames[|p.frames| - 1];
      && NestedIn(p.frames, f.key) == 0
      && (forall i :: 0 <= i < |p.frames| - 1 ==> !Owns(p.frames[i], f.key))
      && (forall h :: h in p.kept && h in table ==> table[h].key != f.key)
  {
    var n := |p.frames| - 1;
    var f := p.frames[n];
    assert Has(table, f.kind.handle, pid, f.key);
    forall i | 0 <= i < n ensures !Owns(p.frames[i], f.key) {
      if p.frames[i].kind.Owner? { assert Has(table, p.frames[i].kind.handle, pid, p.frames[i].key); }
    }
    forall h | h in p.kept && h in table ensures table[h].key != f.key {
      assert table[h].key == f.key ==> Has(table, h, pid, f.key);
    }
    NestedCounts(p.frames, f.key);
  }

  lemma LeavingOwnerIsSound(p: Process, pid: Pid, table: Table)
    requires Sound(p, pid, table) && p.frames != [] && p.frames[|p.frames| - 1].kind.Owner?
    ensures Sound(Left(p), pid, table - {p.frames[|p.frames| - 1].kind.handle})
  {
    var f := p.frames[|p.frames| - 1];
    var q := Left(p);
    var after := table - {f.kind.handle};
    OwnerEndsLast(p, pid, table);
    NestedCounts(p.frames, f.key);
    forall k ensures NestedIn(p.frames, k) == NestedIn(q.frames, k) { Popped(p.frames, k); }
    ReleaseIsRecorded(p, q, pid, table, f);
    ReleaseIsAnchored(p, q, pid, table);
    forall j | 0 <= j < |q.frames| && q.frames[j].kind.Nested? ensures q.frames[j].key != f.key {
      assert p.frames[j] == q.frames[j];
    }
    InsideSurvives(p, table, after);
    InsideAbove(p, q, after);
  }

  lemma ReleaseIsRecorded(p: Process, q: Process, pid: Pid, table: Table, f: Frame)
    requires Recorded(p, pid, table) && f.kind.Owner? && Has(table, f.kind.handle, pid, f.key) && q.held == p.held - {f.key}
    ensures Recorded(q, pid, table - {f.kind.handle})
  {
    var after := table - {f.kind.handle};
    forall g: Handle, k: Key ensures Has(after, g, pid, k) <==> Has(table, g, pid, k) && k != f.key {
      assert Has(after, g, pid, k) ==> Has(table, g, pid, k);
    }
    forall k: Key ensures k in q.held <==> Locked(after, pid, k) {
      if k in q.held {
        var g: Handle :| Has(table, g, pid, k);
        assert Has(after, g, pid, k);
      }
    }
  }

  lemma ReleaseIsAnchored(p: Process, q: Process, pid: Pid, table: Table)
    requires Anchored(p, pid, table) && p.frames != [] && q.kept == p.kept && q.frames == p.frames[..|p.frames| - 1]
    requires p.frames[|p.frames| - 1].kind.Owner?
    ensures Anchored(q, pid, table - {p.frames[|p.frames| - 1].kind.handle})
  {
    var f := p.frames[|p.frames| - 1];
    var after := table - {f.kind.handle};
    forall i | 0 <= i < |q.frames| && q.frames[i].kind.Owner?
      ensures Has(after, q.frames[i].kind.handle, pid, q.frames[i].key) && q.frames[i].kind.handle !in q.kept
              && after[q.frames[i].kind.handle].mode == q.frames[i].mode
    {
      assert q.frames[i] == p.frames[i];
    }
    forall h: Handle, key: Key | Has(after, h, pid, key) && h !in q.kept
      ensures exists i :: 0 <= i < |q.frames| && q.frames[i] == Frame(key, after[h].mode, Owner(h))
    {
      assert Has(table, h, pid, key);
      var i :| 0 <= i < |p.frames| && p.frames[i] == Frame(key, table[h].mode, Owner(h));
      assert q.frames[i] == p.frames[i];
    }
  }

  // ------------------------------------------------------------ every run

  /** What a step of one process leaves alone. */
  lemma OthersUntouched(w: World, s: Step)
    requires Enabled(w, s)
    requires s.Leave? ==> Sound(w.procs[s.pid], s.pid, w.table)
    ensures var v := After(w, s);
      && (forall h :: h in w.table && w.table[h].owner != s.pid ==> h in v.table && v.table[h] == w.table[h])
      && (forall h :: h in v.table && v.table[h].owner != s.pid ==> h in w.table && w.table[h] == v.table[h])
      && (forall p :: p in v.procs && p != s.pid ==> p in w.procs && v.procs[p] == w.procs[p])
      && (forall p :: p in w.procs && p != s.pid ==> p in v.procs)
      && (s.pid in v.procs || forall h :: h in v.table ==> v.table[h].owner != s.pid)
  {
    if s.Leave? {
      var f := w.procs[s.pid].frames[|w.procs[s.pid].frames| - 1];
      if f.kind.Owner? { assert Has(w.table, f.kind.handle, s.pid, f.key); }
    }
  }

  lemma OwnStepIsSound(w: World, s: Step)
    requires Enabled(w, s) && s.pid in After(w, s).procs
    requires s.Start? ==> forall h :: h in w.table ==> w.table[h].owner != s.pid
    requires s.pid in w.procs ==> Sound(w.procs[s.pid], s.pid, w.table)
    ensures Sound(After(w, s).procs[s.pid], s.pid, After(w, s).table)
  {
    var p := s.pid;
    match s
    case Start(_) =>
    case Enter(_, key, mode, kind) =>
      match kind {
        case Nested => NestingIsSound(w.procs[p], p, w.table, key, mode);
        case Owner(h) => OwningIsSound(w.procs[p], p, w.table, h, key, mode);
        case Failed => FailingIsSound(w.procs[p], p, w.table, key, mode);
      }
    case Leave(_) =>
      if w.procs[p].frames[|w.procs[p].frames| - 1].kind.Owner? {
        LeavingOwnerIsSound(w.procs[p], p, w.table);
      } else {
        LeavingNestedIsSound(w.procs[p], p, w.table);
      }
    case HoldShared(_, key, got) =>
      if got.Some? { KeepingIsSound(w.procs[p], p, w.table, got.value, key); }
  }

  lemma StepKeepsCompatible(w: World, s: Step)
    requires Compatible(w.table) && Enabled(w, s)
    ensures Compatible(After(w, s).table)
  {
  }

  lemma OwnStepIsSoundHere(w: World, s: Step)
    requires Inv(w) && Enabled(w, s)
    ensures s.pid in After(w, s).procs ==> Sound(After(w, s).procs[s.pid], s.pid, After(w, s).table)
    ensures s.Leave? ==> Sound(w.procs[s.pid], s.pid, w.table)
  {
    if s.pid in After(w, s).procs { OwnStepIsSound(w, s); }
  }

  lemma OthersStaySound(pid: Pid, procs: map<Pid, Process>, table: Table, after: map<Pid, Process>, next: Table)
    requires AllSound(procs, table)
    requires pid in after ==> Sound(after[pid], pid, next)
    requires forall h :: h in table && table[h].owner != pid ==> h in next && next[h] == table[h]
    requires forall h :: h in next && next[h].owner != pid ==> h in table && table[h] == next[h]
    requires forall p :: p in after && p != pid ==> p in procs && after[p] == procs[p]
    ensures AllSound(after, next)
  {
    forall p | p in after ensures Sound(after[p], p, next) {
      if p != pid { OthersDoNotMatter(procs[p], p, table, next); }
    }
  }

  lemma StepKeepsSound(w: World, s: Step)
    requires Inv(w) && Enabled(w, s)
    ensures AllSound(After(w, s).procs, After(w, s).table) && LiveOwners(After(w, s).procs, After(w, s).table)
  {
    var v := After(w, s);
    OwnStepIsSoundHere(w, s);
    OthersUntouched(w, s);
    OthersStaySound(s.pid, w.procs, w.table, v.procs, v.table);
    forall h | h in v.table ensures v.table[h].owner in v.procs {
      assert v.table[h].owner != s.pid ==> h in w.table && w.table[h] == v.table[h];
    }
  }

  lemma StepKeepsInv(w: World, s: Step)
    requires Inv(w) && Enabled(w, s)
    ensures Inv(After(w, s))
  {
    StepKeepsCompatible(w, s);
    StepKeepsSound(w, s);
  }

  lemma {:induction false} EveryRunKeepsInv(w: World, steps: seq<Step>)
    requires Inv(w) && Runs(w, steps)
    ensures Inv(AfterAll(w, steps))
    decreases |steps|
  {
    if steps != [] {
      StepKeepsInv(w, steps[0]);
      EveryRunKeepsInv(After(w, steps[0]), steps[1..]);
    }
  }

  /** In every reachable state a process has an entry for a lease exactly when
      the kernel has granted it the lock, in the mode the entry shows. */
  lemma EntryExactlyWhenLocked(steps: seq<Step>, p: Pid, key: Key)
    requires Runs(NOBODY, steps) && p in AfterAll(NOBODY, steps).procs
    ensures var w := AfterAll(NOBODY, steps);
      && (key in w.procs[p].held <==> Locked(w.table, p, key))
      && (forall h: Handle :: Has(w.table, h, p, key) ==> w.procs[p].held[key].mode == w.table[h].mode)
      && (key in w.procs[p].held ==> w.procs[p].held[key].count == 1 + NestedIn(w.procs[p].frames, key))
  {
    EveryRunKeepsInv(NOBODY, steps);
  }

  /** Whether scope `i` of process `p` was entered with True. */
  predicate InBody(w: World, p: Pid, i: nat, key: Key) {
    p in w.procs && i < |w.procs[p].frames| && w.procs[p].frames[i].key == key && !w.procs[p].frames[i].kind.Failed?
  }

  lemma BodyHoldsTheLock(w: World, p: Pid, i: nat, key: Key) returns (h: Handle)
    requires Inv(w) && InBody(w, p, i, key)
    ensures Has(w.table, h, p, key)
    ensures w.procs[p].frames[i].mode == Exclusive ==> w.table[h].mode == Exclusive
  {
    var q := w.procs[p];
    assert Sound(q, p, w.table);
    assert key in q.held by {
      if q.frames[i].kind.Owner? { assert Has(w.table, q.frames[i].kind.handle, p, key); }
    }
    h :| Has(w.table, h, p, key);
    if q.frames[i].kind.Owner? { assert Has(w.table, q.frames[i].kind.handle, p, key); }
  }

  /** A body that was given the exclusive lease overlaps no body of another
      process that was given the lease in either mode, over every run of any
      number of processes, deaths included. */
  lemma ExclusiveBodyIsAlone(steps: seq<Step>, p: Pid, i: nat, q: Pid, j: nat, key: Key)
    requires Runs(NOBODY, steps) && p != q
    requires InBody(AfterAll(NOBODY, steps), p, i, key) && InBody(AfterAll(NOBODY, steps), q, j, key)
    ensures AfterAll(NOBODY, steps).procs[p].frames[i].mode == Shared
  {
    EveryRunKeepsInv(NOBODY, steps);
    var w := AfterAll(NOBODY, steps);
    var g := BodyHoldsTheLock(w, p, i, key);
    var h := BodyHoldsTheLock(w, q, j, key);
  }

  /** Nor does it overlap a lease held for the life of another process. */
  lemma ExclusiveBodyExcludesKeptLeases(steps: seq<Step>, p: Pid, i: nat, q: Pid, h: Handle, key: Key)
    requires Runs(NOBODY, steps) && p != q && InBody(AfterAll(NOBODY, steps), p, i, key)
    requires q in AfterAll(NOBODY, steps).procs && h in AfterAll(NOBODY, steps).procs[q].kept
    requires Has(AfterAll(NOBODY, steps).table, h, q, key)
    ensures AfterAll(NOBODY, steps).procs[p].frames[i].mode == Shared
  {
    EveryRunKeepsInv(NOBODY, steps);
    var g := BodyHoldsTheLock(AfterAll(NOBODY, steps), p, i, key);
  }

  /** A process that holds the lease shared and asks for it exclusively in a
      nested scope is always told False, whatever else happens. */
  lemma UpgradeIsAlwaysRefused(steps: seq<Step>, p: Pid, key: Key, kind: Kind)
    requires Runs(NOBODY, steps) && p in AfterAll(NOBODY, steps).procs
    requires var held := AfterAll(NOBODY, steps).procs[p].held; key in held && held[key].mode == Shared
    requires Enabled(AfterAll(NOBODY, steps), Enter(p, key, Exclusive, kind))
    ensures kind == Failed
  {
    var w := AfterAll(NOBODY, steps);
    assert Recorded(w.procs[p], p, w.table) by { EveryRunKeepsInv(NOBODY, steps); }
    OwnLockIsInTheWay(w.procs[p], p, w.table, key, Exclusive);
  }

  lemma HolderIsAnsweredHere(w: World, p: Pid, key: Key, mode: Mode, kind: Kind)
    requires p in w.procs && key in w.procs[p].held && Recorded(w.procs[p], p, w.table)
    ensures var held := w.procs[p].held;
      Enabled(w, Enter(p, key, mode, kind)) <==>
        kind == if held[key].mode == Exclusive || mode == Shared then Nested else Failed
    ensures var held := w.procs[p].held;
      Enabled(w, Enter(p, key, mode, kind)) ==>
        var v := After(w, Enter(p, key, mode, kind));
        && v.table == w.table && v.procs[p].frames == w.procs[p].frames + [Frame(key, mode, kind)]
        && v.procs[p].held ==
             if kind == Nested then held[key := Entry(held[key].count + 1, held[key].mode)] else held
  {
    if !Nests(w.procs[p], key, mode) { OwnLockIsInTheWay(w.procs[p], p, w.table, key, mode); }
  }

  /** In every reachable state a request of a process that holds the lease is
      answered True at once, without a word to the kernel and with one scope more
      on its count, exactly when the process holds the lease exclusively or asks
      for it shared.  Otherwise it is refused. */
  lemma HolderIsAnswered(steps: seq<Step>, p: Pid, key: Key, mode: Mode, kind: Kind)
    requires Runs(NOBODY, steps) && p in AfterAll(NOBODY, steps).procs && key in AfterAll(NOBODY, steps).procs[p].held
    ensures var w := AfterAll(NOBODY, steps);
      var held := w.procs[p].held;
      Enabled(w, Enter(p, key, mode, kind)) <==>
        kind == if held[key].mode == Exclusive || mode == Shared then Nested else Failed
    ensures var w := AfterAll(NOBODY, steps);
      var held := w.procs[p].held;
      Enabled(w, Enter(p, key, mode, kind)) ==>
        var v := After(w, Enter(p, key, mode, kind));
        && v.table == w.table && v.procs[p].frames == w.procs[p].frames + [Frame(key, mode, kind)]
        && v.procs[p].held ==
             if kind == Nested then held[key := Entry(held[key].count + 1, held[key].mode)] else held
  {
    var w := AfterAll(NOBODY, steps);
    assert Recorded(w.procs[p], p, w.table) by { EveryRunKeepsInv(NOBODY, steps); }
    HolderIsAnsweredHere(w, p, key, mode, kind);
  }

  lemma LockIsHeld(w: World, h: Handle)
    requires Inv(w) && h in w.table
    ensures var g := w.table[h];
      g.owner in w.procs && g.key in w.procs[g.owner].held && w.procs[g.owner].held[g.key].mode == g.mode
  {
    var g := w.table[h];
    assert Recorded(w.procs[g.owner], g.owner, w.table);
    assert Has(w.table, h, g.owner, g.key);
  }

  lemma HolderIsLocked(w: World, q: Pid, key: Key) returns (h: Handle)
    requires Inv(w) && q in w.procs && key in w.procs[q].held
    ensures h in w.table && w.table[h].key == key && w.table[h].mode == w.procs[q].held[key].mode
  {
    assert Recorded(w.procs[q], q, w.table);
    assert Locked(w.table, q, key);
    h :| Has(w.table, h, q, key);
  }

  lemma FreeExactlyWhenHoldersShare(w: World, key: Key, mode: Mode)
    requires Inv(w)
    ensures Free(w.table, key, mode) <==>
      forall q | q in w.procs && key in w.procs[q].held :: mode == w.procs[q].held[key].mode == Shared
  {
    if Free(w.table, key, mode) {
      forall q | q in w.procs && key in w.procs[q].held ensures mode == w.procs[q].held[key].mode == Shared {
        var h := HolderIsLocked(w, q, key);
      }
    } else {
      var h :| h in w.table && w.table[h].key == key && !(mode == Shared && w.table[h].mode == Shared);
      LockIsHeld(w, h);
    }
  }

  /** In every reachable state the kernel can grant a process a lease it does not
      hold exactly when no process holds it, or it is asked for shared and every
      holder has it shared. */
  lemma GrantedExactlyWhenHoldersShare(steps: seq<Step>, p: Pid, key: Key, mode: Mode, h: Handle)
    requires Runs(NOBODY, steps) && p in AfterAll(NOBODY, steps).procs && key !in AfterAll(NOBODY, steps).procs[p].held
    requires h !in AfterAll(NOBODY, steps).table
    ensures var w := AfterAll(NOBODY, steps);
      Enabled(w, Enter(p, key, mode, Owner(h))) <==>
        forall q | q in w.procs && key in w.procs[q].held :: mode == w.procs[q].held[key].mode == Shared
  {
    EveryRunKeepsInv(NOBODY, steps);
    FreeExactlyWhenHoldersShare(AfterAll(NOBODY, steps), key, mode);
  }

  lemma LeavingUndoesEntering(p: Process, key: Key, mode: Mode, kind: Kind)
    requires kind.Nested? <==> Nests(p, key, mode)
    requires kind.Owner? ==> key !in p.held
    requires key in p.held ==> p.held[key].count >= 1
    ensures Left(Entered(p, key, mode, kind)) == p
  {
    var e := Entered(p, key, mode, kind);
    assert e.frames[..|p.frames|] == p.frames;
    assert Left(e).held == p.held;
  }

  lemma HeldAtLeastOnce(p: Process, table: Table, key: Key)
    requires Inside(p, table) && key in p.held
    ensures p.held[key].count >= 1
  {
  }

  lemma ReadyToEnter(p: Process, pid: Pid, table: Table, key: Key, mode: Mode, kind: Kind)
    requires Recorded(p, pid, table) && Inside(p, table)
    requires kind.Owner? ==> !Nests(p, key, mode) && Free(table, key, mode)
    ensures kind.Owner? ==> key !in p.held
    ensures key in p.held ==> p.held[key].count >= 1
  {
    if key in p.held {
      HeldAtLeastOnce(p, table, key);
      if kind.Owner? { OwnLockIsInTheWay(p, pid, table, key, mode); }
    }
  }

  /** Entering a scope and leaving it at once, granted, nested or refused, puts
      the process and the kernel back exactly as they were. */
  lemma ScopeUndoesItself(w: World, p: Pid, key: Key, mode: Mode, kind: Kind)
    requires Inv(w) && Enabled(w, Enter(p, key, mode, kind))
    ensures var v := After(w, Enter(p, key, mode, kind));
      Enabled(v, Leave(p)) && After(v, Leave(p)) == w
  {
    assert Sound(w.procs[p], p, w.table);
    ReadyToEnter(w.procs[p], p, w.table, key, mode, kind);
    EnterThenLeave(w, p, key, mode, kind);
  }

  lemma EnterThenLeave(w: World, p: Pid, key: Key, mode: Mode, kind: Kind)
    requires Enabled(w, Enter(p, key, mode, kind))
    requires kind.Owner? ==> key !in w.procs[p].held
    requires key in w.procs[p].held ==> w.procs[p].held[key].count >= 1
    ensures var v := After(w, Enter(p, key, mode, kind));
      Enabled(v, Leave(p)) && After(v, Leave(p)) == w
  {
    LeavingUndoesEntering(w.procs[p], key, mode, kind);
    var v := After(w, Enter(p, key, mode, kind));
    assert v.procs[p].frames[|v.procs[p].frames| - 1] == Frame(key, mode, kind);
    assert After(v, Leave(p)).procs == w.procs;
    assert After(v, Leave(p)).table == w.table;
  }

  // ------------------------------------------------------------ holding for life

  predicate Survives(steps: seq<Step>, p: Pid) {
    forall i :: 0 <= i < |steps| ==> steps[i] != Die(p)
  }

  /** Process `p` holds the lease on `key` until it dies, whatever happens. */
  ghost predicate HeldForLife(w: World, p: Pid, key: Key) {
    forall steps | Runs(w, steps) && Survives(steps, p) ::
      p in AfterAll(w, steps).procs && key in AfterAll(w, steps).procs[p].held
  }

  ghost predicate Keeps(w: World, p: Pid, key: Key) {
    p in w.procs && exists h :: h in w.procs[p].kept && Has(w.table, h, p, key)
  }

  lemma StepKeepsKept(w: World, s: Step, p: Pid, key: Key)
    requires Inv(w) && Enabled(w, s) && s != Die(p) && Keeps(w, p, key)
    ensures Keeps(After(w, s), p, key)
  {
    if s.pid == p { OwnStepKeepsKept(w, s, key); } else {
      OwnStepIsSoundHere(w, s);
      OthersUntouched(w, s);
      OthersKeepKept(w, After(w, s), p, key);
    }
  }

  lemma OthersKeepKept(w: World, v: World, p: Pid, key: Key)
    requires Keeps(w, p, key) && p in v.procs && v.procs[p] == w.procs[p]
    requires forall h :: h in w.table && w.table[h].owner == p ==> h in v.table && v.table[h] == w.table[h]
    ensures Keeps(v, p, key)
  {
    var h :| h in w.procs[p].kept && Has(w.table, h, p, key);
    assert Has(v.table, h, p, key);
  }

  lemma OwnStepKeepsKept(w: World, s: Step, key: Key)
    requires Inv(w) && Enabled(w, s) && !s.Die? && Keeps(w, s.pid, key)
    ensures Keeps(After(w, s), s.pid, key)
  {
    var h: Handle :| h in w.procs[s.pid].kept && Has(w.table, h, s.pid, key);
    if s.Leave? { KeptSurvivesLeaving(w.procs[s.pid], s.pid, w.table); }
    OwnStepKeepsHandle(w, s, key, h);
  }

  lemma OwnStepKeepsHandle(w: World, s: Step, key: Key, h: Handle)
    requires Enabled(w, s) && !s.Die? && !s.Start? && h in w.procs[s.pid].kept && Has(w.table, h, s.pid, key)
    requires s.Leave? ==>
      var f := w.procs[s.pid].frames[|w.procs[s.pid].frames| - 1]; f.kind.Owner? ==> f.kind.handle !in w.procs[s.pid].kept
    ensures h in After(w, s).procs[s.pid].kept && Has(After(w, s).table, h, s.pid, key)
  {
  }

  lemma KeptSurvivesLeaving(p: Process, pid: Pid, table: Table)
    requires Anchored(p, pid, table) && p.frames != []
    ensures var f := p.frames[|p.frames| - 1]; f.kind.Owner? ==> f.kind.handle !in p.kept
  {
  }

  lemma {:induction false} KeptIsForLife(w: World, steps: seq<Step>, p: Pid, key: Key)
    requires Inv(w) && Keeps(w, p, key) && Runs(w, steps) && Survives(steps, p)
    ensures Keeps(AfterAll(w, steps), p, key)
    decreases |steps|
  {
    if steps != [] {
      assert Survives(steps[1..], p) by {
        forall i | 0 <= i < |steps[1..]| ensures steps[1..][i] != Die(p) { assert steps[1..][i] == steps[i + 1]; }
      }
      StepKeepsInv(w, steps[0]);
      StepKeepsKept(w, steps[0], p, key);
      KeptIsForLife(After(w, steps[0]), steps[1..], p, key);
    }
  }

  /** `v` is `w` with some of its locks released, but none that `p` keeps. */
  ghost predicate Shrunk(w: World, v: World, p: Pid) {
    && p in w.procs && p in v.procs && v.procs[p].kept == w.procs[p].kept
    && forall h :: h in v.table ==> h in w.table && v.table[h] == w.table[h]
  }

  lemma LeavingShrinks(w: World, p: Pid)
    requires Inv(w) && p in w.procs && w.procs[p].frames != []
    ensures Enabled(w, Leave(p)) && Inv(After(w, Leave(p))) && Shrunk(w, After(w, Leave(p)), p)
    ensures |After(w, Leave(p)).procs[p].frames| < |w.procs[p].frames|
  {
    StepKeepsInv(w, Leave(p));
  }

  lemma Prepend(w: World, s: Step, rest: seq<Step>, p: Pid)
    requires Enabled(w, s) && s != Die(p) && Runs(After(w, s), rest) && Survives(rest, p)
    ensures Runs(w, [s] + rest) && Survives([s] + rest, p) && AfterAll(w, [s] + rest) == AfterAll(After(w, s), rest)
  {
    assert ([s] + rest)[1..] == rest;
  }

  /** Unwind every open scope. */
  lemma {:induction false} Unwinding(w: World, p: Pid) returns (steps: seq<Step>)
    requires Inv(w) && p in w.procs
    ensures Runs(w, steps) && Survives(steps, p) && Shrunk(w, AfterAll(w, steps), p)
    ensures AfterAll(w, steps).procs[p].frames == []
    decreases |w.procs[p].frames|
  {
    steps := [];
    if w.procs[p].frames != [] {
      LeavingShrinks(w, p);
      var rest := Unwinding(After(w, Leave(p)), p);
      Prepend(w, Leave(p), rest, p);
      steps := [Leave(p)] + rest;
    }
  }

  lemma LockIsKeptOrOwned(p: Process, pid: Pid, table: Table, key: Key)
    requires Sound(p, pid, table) && key in p.held
    ensures (exists h :: h in p.kept && Has(table, h, pid, key)) || exists i :: 0 <= i < |p.frames| && Owns(p.frames[i], key)
  {
    var h: Handle :| Has(table, h, pid, key);
    if h !in p.kept {
      var i :| 0 <= i < |p.frames| && p.frames[i] == Frame(key, table[h].mode, Owner(h));
      assert Owns(p.frames[i], key);
    }
  }

  lemma OwnedLockIsNotKept(p: Process, pid: Pid, table: Table, key: Key, i: nat)
    requires Sound(p, pid, table) && i < |p.frames| && Owns(p.frames[i], key)
    ensures forall h :: h in p.kept ==> !Has(table, h, pid, key)
  {
    assert Has(table, p.frames[i].kind.handle, pid, key);
  }

  /** A held lease is held for life exactly when it was kept, that is, when no
      scope that owns it is open: `hold_shared` called inside a scoped lease
      answers True and is dropped with that scope. */
  lemma HeldForLifeExactlyWhenNoScopeOwnsIt(w: World, p: Pid, key: Key)
    requires Inv(w) && p in w.procs && key in w.procs[p].held
    ensures HeldForLife(w, p, key) <==> forall i :: 0 <= i < |w.procs[p].frames| ==> !Owns(w.procs[p].frames[i], key)
  {
    if forall i :: 0 <= i < |w.procs[p].frames| ==> !Owns(w.procs[p].frames[i], key) {
      LockIsKeptOrOwned(w.procs[p], p, w.table, key);
      KeptLeaseIsHeldForLife(w, p, key);
    } else {
      var i :| 0 <= i < |w.procs[p].frames| && Owns(w.procs[p].frames[i], key);
      OwnedLeaseIsDropped(w, p, key, i);
    }
  }

  lemma KeptIsHeld(w: World, p: Pid, key: Key)
    requires Inv(w) && Keeps(w, p, key)
    ensures key in w.procs[p].held
  {
    assert Recorded(w.procs[p], p, w.table);
    assert Locked(w.table, p, key);
  }

  lemma KeptLeaseIsHeldForLife(w: World, p: Pid, key: Key)
    requires Inv(w) && Keeps(w, p, key)
    ensures HeldForLife(w, p, key)
  {
    forall steps | Runs(w, steps) && Survives(steps, p)
      ensures p in AfterAll(w, steps).procs && key in AfterAll(w, steps).procs[p].held
    {
      KeptIsForLife(w, steps, p, key);
      EveryRunKeepsInv(w, steps);
      KeptIsHeld(AfterAll(w, steps), p, key);
    }
  }

  lemma OwnedLeaseIsDropped(w: World, p: Pid, key: Key, i: nat)
    requires Inv(w) && p in w.procs && i < |w.procs[p].frames| && Owns(w.procs[p].frames[i], key)
    ensures !HeldForLife(w, p, key)
  {
    OwnedLockIsNotKept(w.procs[p], p, w.table, key, i);
    var steps := Unwinding(w, p);
    EveryRunKeepsInv(w, steps);
    var v := AfterAll(w, steps);
    forall h | h in v.procs[p].kept ensures !Has(v.table, h, p, key) {
      assert Has(v.table, h, p, key) ==> Has(w.table, h, p, key);
    }
  }

  /** A whole-process lease taken with no scope open on it is never dropped
      before the process dies, whether it was acquired now or held already. */
  lemma HoldSharedLastsForLife(steps: seq<Step>, p: Pid, key: Key, got: Option<Handle>)
    requires Runs(NOBODY, steps) && Enabled(AfterAll(NOBODY, steps), HoldShared(p, key, got))
    requires forall i :: 0 <= i < |AfterAll(NOBODY, steps).procs[p].frames| ==> !Owns(AfterAll(NOBODY, steps).procs[p].frames[i], key)
    requires got.Some? || key in AfterAll(NOBODY, steps).procs[p].held
    ensures HeldForLife(After(AfterAll(NOBODY, steps), HoldShared(p, key, got)), p, key)
  {
    EveryRunKeepsInv(NOBODY, steps);
    var w := AfterAll(NOBODY, steps);
    StepKeepsInv(w, HoldShared(p, key, got));
    HeldForLifeExactlyWhenNoScopeOwnsIt(After(w, HoldShared(p, key, got)), p, key);
  }

  /** The run that shows the exception: a scoped lease, a whole-process lease
      taken inside it and answered True, and the end of the scope. */
  lemma HoldSharedInsideAScopeIsDropped()
    ensures var inside := [Start(0), Enter(0, 7, Shared, Owner(3)), HoldShared(0, 7, None)];
      && Runs(NOBODY, inside + [Leave(0)])
      && Runs(NOBODY, inside) && 7 in AfterAll(NOBODY, inside).procs[0].held
      && !Locked(AfterAll(NOBODY, inside + [Leave(0)]).table, 0, 7)
  {
    var w1 := After(NOBODY, Start(0));
    var w2 := After(w1, Enter(0, 7, Shared, Owner(3)));
    var w3 := After(w2, HoldShared(0, 7, None));
    var w4 := After(w3, Leave(0));
    var a, b, c, d := Start(0), Enter(0, 7, Shared, Owner(3)), HoldShared(0, 7, None), Leave(0);
    assert [a, b, c] + [d] == [a, b, c, d];
    assert [a, b, c, d][1..] == [b, c, d] && [b, c, d][1..] == [c, d] && [c, d][1..] == [d];
    assert [a, b, c][1..] == [b, c] && [b, c][1..] == [c];
    assert Runs(w4, []) && Runs(w3, [d]) && Runs(w2, [c, d]) && Runs(w1, [b, c, d]);
    assert Runs(w3, []) && Runs(w2, [c]) && Runs(w1, [b, c]);
    assert AfterAll(NOBODY, [a, b, c]) == AfterAll(w1, [b, c]) == AfterAll(w2, [c]) == AfterAll(w3, []) == w3;
    assert AfterAll(NOBODY, [a, b, c, d]) == AfterAll(w1, [b, c, d]) == AfterAll(w2, [c, d]) == AfterAll(w3, [d]) == AfterAll(w4, []) == w4;
    assert w4.table == map[];
  }
}
