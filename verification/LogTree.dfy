/**
 Clearing a log tree (lib/cleanup.py): the dry-run count of what can be removed,
 and the removal itself, in which any listing, look or deletion may fail and any
 entry may vanish under it.
 */
module LogTree {
  datatype Node = Leaf | Dir(entries: seq<Entry>)
  datatype Entry = Entry(name: string, node: Node)

  type Path = seq<string>

  datatype Removal = Done | Vanished | Refused
  /** What happens at one path: whether listing it fails, whether looking at its
      kind fails, and how its removal ends. */
  datatype Fault = Fault(listing: bool, looking: bool, removal: Removal)
  type Faults = Path -> Fault

  const KEEP := ".gitkeep"

  // ------------------------------------------------------------ the dry run

  /** How many entries can be removed. */
  function Removable(entries: seq<Entry>): nat {
    if entries == [] then 0
    else Removable(entries[..|entries| - 1]) + RemovableOne(entries[|entries| - 1])
  }

  function RemovableOne(e: Entry): nat {
    if e.name == KEEP then 0
    else match e.node
      case Leaf => 1
      case Dir(children) => Removable(children) + if Protected(children) then 0 else 1
  }

  /** Whether a .gitkeep somewhere below protects the directory. */
  predicate Protected(entries: seq<Entry>) {
    entries != [] && (Protected(entries[..|entries| - 1]) || ProtectedOne(entries[|entries| - 1]))
  }

  predicate ProtectedOne(e: Entry) {
    e.name == KEEP || (e.node.Dir? && Protected(e.node.entries))
  }

  /** `count_removable_logs`. */
  method CountRemovableLogs(entries: seq<Entry>) returns (count: nat, protected: bool)
    ensures count == Removable(entries) && protected == Protected(entries)
    decreases entries
  {
    count, protected := 0, false;
    for i := 0 to |entries|
      invariant count == Removable(entries[..i]) && protected == Protected(entries[..i])
    {
      var e := entries[i];
      assert entries[..i + 1][..i] == entries[..i];
      if e.name == KEEP {
        protected := true;
        continue;
      }
      match e.node {
        case Dir(children) =>
          var childCount, childProtected := CountRemovableLogs(children);
          count := count + childCount;
          if childProtected { protected := true; } else { count := count + 1; }
        case Leaf =>
          count := count + 1;
      }
    }
    assert entries[..|entries|] == entries;
  }

  // ------------------------------------------------------------ the removal

  /** What a removal reports, what it leaves, and how many entries vanished
      before it could remove them. */
  datatype Cleared = Cleared(removed: nat, success: bool, protected: bool, residue: seq<Entry>, lost: nat)

  function Both(a: Cleared, b: Cleared): Cleared {
    Cleared(a.removed + b.removed, a.success && b.success, a.protected || b.protected, a.residue + b.residue, a.lost + b.lost)
  }

  function Untouched(success: bool, protected: bool, residue: seq<Entry>): Cleared {
    Cleared(0, success, protected, residue, 0)
  }

  /** A directory that cannot be listed is left as it was found; one that vanished
      before it was listed cannot be listed either, and its entries, which the
      residue then still shows, are gone already. */
  function ClearedDir(path: Path, entries: seq<Entry>, faults: Faults): Cleared
    decreases entries, 1
  {
    if faults(path).listing then Untouched(false, false, entries) else ClearedEntries(path, entries, faults)
  }

  function ClearedEntries(path: Path, entries: seq<Entry>, faults: Faults): Cleared
    decreases entries, 0
  {
    if entries == [] then Untouched(true, false, [])
    else Both(ClearedEntries(path, entries[..|entries| - 1], faults), ClearedOne(path, entries[|entries| - 1], faults))
  }

  function ClearedOne(path: Path, e: Entry, faults: Faults): Cleared
    decreases e, 0
  {
    var here := path + [e.name];
    if e.name == KEEP then Untouched(true, true, [e])
    else if faults(here).looking then Untouched(false, false, [e])
    else match e.node
      case Leaf => Removed(Untouched(true, false, []), e, faults(here).removal)
      case Dir(children) => WithDir(e.name, ClearedDir(here, children, faults), faults(here).removal)
  }

  /** A directory whose contents were cleared with result `c`. */
  function WithDir(name: string, c: Cleared, removal: Removal): Cleared {
    var left := Entry(name, Dir(c.residue));
    if c.protected || !c.success then c.(residue := [left]) else Removed(c, left, removal)
  }

  /** After `c`, the entry itself is removed, or not. */
  function Removed(c: Cleared, left: Entry, removal: Removal): Cleared {
    match removal
    case Done => c.(removed := c.removed + 1, residue := [])
    case Vanished => c.(lost := c.lost + 1, residue := [])
    case Refused => c.(success := false, residue := [left])
  }

  lemma OneMoreCleared(path: Path, entries: seq<Entry>, i: nat, faults: Faults)
    requires i < |entries|
    ensures ClearedEntries(path, entries[..i + 1], faults) ==
      Both(ClearedEntries(path, entries[..i], faults), ClearedOne(path, entries[i], faults))
  {
    assert entries[..i + 1][..i] == entries[..i];
  }

  /** `clear_log_tree`. */
  method ClearLogTree(path: Path, entries: seq<Entry>, faults: Faults)
      returns (removed: nat, success: bool, protected: bool, residue: seq<Entry>, ghost lost: nat)
    ensures var c := ClearedDir(path, entries, faults);
      removed == c.removed && success == c.success && protected == c.protected && residue == c.residue
    ensures lost == ClearedDir(path, entries, faults).lost
    decreases entries, 1
  {
    removed, success, protected, residue, lost := 0, true, false, [], 0;
    if faults(path).listing { return 0, false, false, entries, 0; }
    for i := 0 to |entries|
      invariant Cleared(removed, success, protected, residue, lost) == ClearedEntries(path, entries[..i], faults)
    {
      OneMoreCleared(path, entries, i, faults);
      var gone, ok, kept, left, vanished := ClearEntry(path, entries[i], faults);
      removed, success, protected := removed + gone, success && ok, protected || kept;
      residue, lost := residue + left, lost + vanished;
    }
    assert entries[..|entries|] == entries;
  }

  /** One turn of the loop: a directory is cleared first, and goes with its
      contents unless they are protected or could not all be cleared. */
  method ClearEntry(path: Path, e: Entry, faults: Faults)
      returns (removed: nat, success: bool, protected: bool, residue: seq<Entry>, ghost lost: nat)
    ensures var c := ClearedOne(path, e, faults);
      removed == c.removed && success == c.success && protected == c.protected && residue == c.residue
    ensures lost == ClearedOne(path, e, faults).lost
    decreases e, 0
  {
    removed, success, protected, residue, lost := 0, true, false, [], 0;
    var here := path + [e.name];
    if e.name == KEEP { return 0, true, true, [e], 0; }
    if faults(here).looking { return 0, false, false, [e], 0; }
    var left := e;
    if e.node.Dir? {
      var inside;
      removed, success, protected, inside, lost := ClearLogTree(here, e.node.entries, faults);
      left := Entry(e.name, Dir(inside));
      if protected || !success {
        residue := [left];
        return;
      }
    }
    match faults(here).removal {
      case Done => removed := removed + 1;
      case Vanished => lost := lost + 1;
      case Refused => success, residue := false, [left];
    }
  }

  // ------------------------------------------------------------ conservation

  lemma {:induction false} CountsConcat(a: seq<Entry>, b: seq<Entry>)
    ensures Removable(a + b) == Removable(a) + Removable(b)
    ensures Protected(a + b) == (Protected(a) || Protected(b))
  {
    if b == [] {
      assert a + b == a;
    } else {
      CountsConcat(a, b[..|b| - 1]);
      assert (a + b)[..|a + b| - 1] == a + b[..|b| - 1];
    }
  }

  lemma CountsOne(e: Entry)
    ensures Removable([e]) == RemovableOne(e) && Protected([e]) == ProtectedOne(e)
  {
    assert [e][..0] == [];
  }

  /** What a clearing of `entries` keeps in balance, however it goes. */
  ghost predicate Conserved(c: Cleared, entries: seq<Entry>) {
    && c.removed + c.lost + Removable(c.residue) == Removable(entries)
    && Protected(c.residue) == Protected(entries)
    && (c.protected ==> Protected(entries))
    && (c.success ==> c.protected == Protected(entries))
    && (c.success && !c.protected ==> c.residue == [])
  }

  lemma BothConserved(a: Cleared, before: seq<Entry>, b: Cleared, e: Entry)
    requires Conserved(a, before) && Conserved(b, [e])
    ensures Conserved(Both(a, b), before + [e])
  {
    CountsConcat(before, [e]);
    CountsConcat(a.residue, b.residue);
  }

  /** Entries removed, entries that vanished and what the dry run counts in the
      residue add up to what it counted before, whatever fails; the residue is
      protected exactly when the tree was; and a directory that was cleared
      with success and is not protected is empty, so that it can be removed. */
  lemma {:induction false} ClearingConserves(path: Path, entries: seq<Entry>, faults: Faults)
    ensures Conserved(ClearedDir(path, entries, faults), entries)
    decreases entries, 2
  {
    if !faults(path).listing { EntriesConserved(path, entries, faults); }
  }

  lemma {:induction false} EntriesConserved(path: Path, entries: seq<Entry>, faults: Faults)
    ensures Conserved(ClearedEntries(path, entries, faults), entries)
    decreases entries, 1
  {
    if entries != [] {
      var before, e := entries[..|entries| - 1], entries[|entries| - 1];
      assert entries == before + [e];
      EntriesConserved(path, before, faults);
      OneConserved(path, e, faults);
      BothConserved(ClearedEntries(path, before, faults), before, ClearedOne(path, e, faults), e);
    }
  }

  lemma {:induction false} OneConserved(path: Path, e: Entry, faults: Faults)
    ensures Conserved(ClearedOne(path, e, faults), [e])
    decreases e, 1
  {
    CountsOne(e);
    var here := path + [e.name];
    if e.name != KEEP && !faults(here).looking && e.node.Dir? {
      ClearingConserves(here, e.node.entries, faults);
      DirConserved(e.name, e.node.entries, ClearedDir(here, e.node.entries, faults), faults(here).removal);
    }
  }

  lemma DirConserved(name: string, children: seq<Entry>, c: Cleared, removal: Removal)
    requires name != KEEP && Conserved(c, children)
    ensures Conserved(WithDir(name, c, removal), [Entry(name, Dir(children))])
  {
    CountsOne(Entry(name, Dir(children)));
    CountsOne(Entry(name, Dir(c.residue)));
  }

  /** The removal agrees with the dry run: if it reports success and nothing
      vanished under it, it removed what the dry run counted. */
  lemma SuccessAgreesWithTheDryRun(path: Path, entries: seq<Entry>, faults: Faults)
    ensures var c := ClearedDir(path, entries, faults);
      c.success ==> c.removed + c.lost == Removable(entries) && c.protected == Protected(entries) && c.residue == Skeleton(entries)
  {
    ClearingConserves(path, entries, faults);
    SuccessLeavesTheSkeleton(path, entries, faults);
    SkeletonIsBare(entries);
  }

  // ------------------------------------------------------------ what is left

  /** The .gitkeep entries and the directories above them. */
  function Skeleton(entries: seq<Entry>): seq<Entry> {
    if entries == [] then []
    else Skeleton(entries[..|entries| - 1]) + SkeletonOne(entries[|entries| - 1])
  }

  function SkeletonOne(e: Entry): seq<Entry> {
    if e.name == KEEP then [e]
    else match e.node
      case Leaf => []
      case Dir(children) => if Protected(children) then [Entry(e.name, Dir(Skeleton(children)))] else []
  }

  lemma {:induction false} SkeletonIsBare(entries: seq<Entry>)
    ensures Removable(Skeleton(entries)) == 0 && Protected(Skeleton(entries)) == Protected(entries)
    decreases entries, 1
  {
    if entries != [] {
      var before, e := entries[..|entries| - 1], entries[|entries| - 1];
      SkeletonIsBare(before);
      CountsConcat(Skeleton(before), SkeletonOne(e));
      CountsOne(e);
      if e.name != KEEP && e.node.Dir? {
        SkeletonIsBare(e.node.entries);
        CountsOne(Entry(e.name, Dir(Skeleton(e.node.entries))));
      }
    }
  }

  lemma {:induction false} SuccessLeavesTheSkeleton(path: Path, entries: seq<Entry>, faults: Faults)
    ensures var c := ClearedDir(path, entries, faults); c.success ==> c.residue == Skeleton(entries)
    decreases entries, 2
  {
    if !faults(path).listing { EntriesLeaveTheSkeleton(path, entries, faults); }
  }

  lemma {:induction false} EntriesLeaveTheSkeleton(path: Path, entries: seq<Entry>, faults: Faults)
    ensures var c := ClearedEntries(path, entries, faults); c.success ==> c.residue == Skeleton(entries)
    decreases entries, 1
  {
    if entries != [] {
      EntriesLeaveTheSkeleton(path, entries[..|entries| - 1], faults);
      OneLeavesTheSkeleton(path, entries[|entries| - 1], faults);
    }
  }

  lemma {:induction false} OneLeavesTheSkeleton(path: Path, e: Entry, faults: Faults)
    ensures var c := ClearedOne(path, e, faults); c.success ==> c.residue == SkeletonOne(e)
    decreases e, 1
  {
    var here := path + [e.name];
    if e.name != KEEP && e.node.Dir? {
      SuccessLeavesTheSkeleton(here, e.node.entries, faults);
      ClearingConserves(here, e.node.entries, faults);
      DirLeavesTheSkeleton(e.name, e.node.entries, ClearedDir(here, e.node.entries, faults), faults(here).removal);
    }
  }

  lemma DirLeavesTheSkeleton(name: string, children: seq<Entry>, c: Cleared, removal: Removal)
    requires name != KEEP && Conserved(c, children) && (c.success ==> c.residue == Skeleton(children))
    ensures WithDir(name, c, removal).success ==> WithDir(name, c, removal).residue == SkeletonOne(Entry(name, Dir(children)))
  {
  }

  /** Clearing what a successful clearing left removes nothing and changes
      nothing, whatever fails this time. */
  lemma SecondClearRemovesNothing(path: Path, entries: seq<Entry>, faults: Faults, again: Faults)
    requires ClearedDir(path, entries, faults).success
    ensures var left := ClearedDir(path, entries, faults).residue;
      var c := ClearedDir(path, left, again);
      c.removed == 0 && c.lost == 0 && c.residue == left
  {
    SuccessAgreesWithTheDryRun(path, entries, faults);
    SkeletonStays(path, entries, again);
  }

  lemma {:induction false} SkeletonStays(path: Path, entries: seq<Entry>, faults: Faults)
    ensures var c := ClearedDir(path, Skeleton(entries), faults); c.removed == 0 && c.lost == 0 && c.residue == Skeleton(entries)
    decreases entries, 2
  {
    BareStays(path, Skeleton(entries), faults);
    SkeletonIsBare(entries);
  }

  /** A tree in which the dry run counts nothing is left as it is. */
  lemma {:induction false} BareStays(path: Path, entries: seq<Entry>, faults: Faults)
    ensures Removable(entries) == 0 ==>
      var c := ClearedDir(path, entries, faults); c.removed == 0 && c.lost == 0 && c.residue == entries
    decreases entries, 2
  {
    if !faults(path).listing { BareEntriesStay(path, entries, faults); }
  }

  lemma {:induction false} BareEntriesStay(path: Path, entries: seq<Entry>, faults: Faults)
    ensures Removable(entries) == 0 ==>
      var c := ClearedEntries(path, entries, faults); c.removed == 0 && c.lost == 0 && c.residue == entries
    decreases entries, 1
  {
    if entries != [] && Removable(entries) == 0 {
      var before, e := entries[..|entries| - 1], entries[|entries| - 1];
      assert entries == before + [e];
      BareEntriesStay(path, before, faults);
      OneBareStays(path, e, faults);
    }
  }

  lemma {:induction false} OneBareStays(path: Path, e: Entry, faults: Faults)
    requires RemovableOne(e) == 0
    ensures var c := ClearedOne(path, e, faults); c.removed == 0 && c.lost == 0 && c.residue == [e]
    decreases e, 1
  {
    if e.name != KEEP && e.node.Dir? {
      BareStays(path + [e.name], e.node.entries, faults);
      ClearingConserves(path + [e.name], e.node.entries, faults);
    }
  }

  // ------------------------------------------------------------ the flag

  /** A .gitkeep is in sight: some way down to one leads through directories
      that can be listed, all of whose kinds can be looked at. */
  ghost predicate Shows(path: Path, entries: seq<Entry>, faults: Faults)
    decreases entries
  {
    !faults(path).listing && exists e :: e in entries && ShowsOne(path, e, faults)
  }

  ghost predicate ShowsOne(path: Path, e: Entry, faults: Faults)
    decreases e
  {
    e.name == KEEP ||
    (!faults(path + [e.name]).looking && e.node.Dir? && Shows(path + [e.name], e.node.entries, faults))
  }

  /** The reported flag says exactly whether a .gitkeep is in sight, however
      removals end. */
  lemma {:induction false} FlagSaysWhatShows(path: Path, entries: seq<Entry>, faults: Faults)
    ensures ClearedDir(path, entries, faults).protected <==> Shows(path, entries, faults)
    decreases entries, 2
  {
    if !faults(path).listing { FlagOfEntries(path, entries, faults); }
  }

  lemma {:induction false} FlagOfEntries(path: Path, entries: seq<Entry>, faults: Faults)
    ensures ClearedEntries(path, entries, faults).protected <==> exists e :: e in entries && ShowsOne(path, e, faults)
    decreases entries, 1
  {
    if entries != [] {
      var before, e := entries[..|entries| - 1], entries[|entries| - 1];
      assert entries == before + [e];
      FlagOfEntries(path, before, faults);
      FlagOfOne(path, e, faults);
      assert ClearedEntries(path, entries, faults).protected ==
        (ClearedEntries(path, before, faults).protected || ClearedOne(path, e, faults).protected);
      assert e in entries && forall x :: x in entries <==> x in before || x == e;
    }
  }

  lemma {:induction false} FlagOfOne(path: Path, e: Entry, faults: Faults)
    ensures ClearedOne(path, e, faults).protected <==> ShowsOne(path, e, faults)
    decreases e, 1
  {
    if e.name != KEEP && e.node.Dir? { FlagSaysWhatShows(path + [e.name], e.node.entries, faults); }
  }

  /** So the flag is the tree's exactly when a protected tree has a .gitkeep in
      sight, and a .gitkeep in sight always protects. */
  lemma FlagIsTrueExactlyWhenInSight(path: Path, entries: seq<Entry>, faults: Faults)
    ensures ClearedDir(path, entries, faults).protected == Protected(entries) <==>
      (Protected(entries) ==> Shows(path, entries, faults))
    ensures Shows(path, entries, faults) ==> Protected(entries)
  {
    FlagSaysWhatShows(path, entries, faults);
    ClearingConserves(path, entries, faults);
  }

  /** A directory that cannot be listed hides the .gitkeep inside it: the report
      says unprotected, and failure, of a protected tree. */
  lemma UnlistedDirectoryHidesItsFlag(path: Path, name: string, faults: Faults)
    requires name != KEEP && !faults(path).listing && !faults(path + [name]).looking && faults(path + [name]).listing
    ensures var tree := [Entry(name, Dir([Entry(KEEP, Leaf)]))];
      Protected(tree) && ClearedDir(path, tree, faults) == Untouched(false, false, tree)
  {
    var e := Entry(name, Dir([Entry(KEEP, Leaf)]));
    CountsOne(Entry(KEEP, Leaf));
    CountsOne(e);
    assert [e][..0] == [];
    assert ClearedEntries(path, [e], faults) == Both(ClearedEntries(path, [], faults), ClearedOne(path, e, faults));
    assert [] + [e] == [e];
  }
}
