/**
 `manifest_errors` in lib/benchmark.py: the checks of both entry lists, of the
 findings-only bugs against the clean traps, and of the runtime keys of the
 planted bugs.
 */
module ManifestCheck {
  import opened Whitespace
  import opened GroundTruth

  datatype Fault =
    | MissingId | DuplicateId | WrongKind | NeedsSymbol | NeedsPrimitive | NeedsOutcome | BlankFile | DuplicateKey
    | MistypedFlag | BadStrategy | BadClasses | TrapClaimsTheBug
    | AlternateNeedsPrimitive | AlternateNeedsSymbol | BadAccess | RuntimeOverlap

  function Ids(entries: seq<Entry>): set<string> {
    set e | e in entries :: Strip(e.id)
  }

  /** What a pass over one list demands, given the ids seen before it. */
  predicate PassesList(entries: seq<Entry>, list: List, seen: set<string>) {
    ListOk(entries, list) && IdsDistinct(entries) && Ids(entries) !! seen
  }

  /** What one more entry has to meet. */
  predicate Fits(before: seq<Entry>, e: Entry, list: List, seen: set<string>) {
    && EntryOk(e, list)
    && Strip(e.id) !in seen && Strip(e.id) !in Ids(before)
    && forall x :: x in before ==> !EntriesClash(e, x, list)
  }

  lemma OneMoreEntry(before: seq<Entry>, e: Entry, list: List, seen: set<string>)
    ensures PassesList(before + [e], list, seen) <==> PassesList(before, list, seen) && Fits(before, e, list, seen)
    ensures Ids(before + [e]) == Ids(before) + {Strip(e.id)}
  {
    assert (before + [e])[|before|] == e && (before + [e])[..|before|] == before;
    if PassesList(before + [e], list, seen) { FirstOnesPass(before, e, list, seen); }
    if PassesList(before, list, seen) && Fits(before, e, list, seen) { OneMorePasses(before, e, list, seen); }
  }

  lemma FirstOnesPass(before: seq<Entry>, e: Entry, list: List, seen: set<string>)
    requires PassesList(before + [e], list, seen)
    ensures PassesList(before, list, seen) && Fits(before, e, list, seen)
  {
    var all := before + [e];
    assert all[|before|] == e;
    forall i | 0 <= i < |before| ensures before[i] == all[i] {}
    forall x | x in before ensures !EntriesClash(e, x, list) && Strip(x.id) != Strip(e.id) {
      var i :| 0 <= i < |before| && before[i] == x;
      assert all[i] == x;
    }
    assert e in all && Strip(e.id) in Ids(all);
    assert Ids(before) <= Ids(all);
  }

  lemma OneMorePasses(before: seq<Entry>, e: Entry, list: List, seen: set<string>)
    requires PassesList(before, list, seen) && Fits(before, e, list, seen)
    ensures PassesList(before + [e], list, seen)
  {
    var all := before + [e];
    forall i, j | 0 <= i < j < |all| ensures !EntriesClash(all[j], all[i], list) && Strip(all[i].id) != Strip(all[j].id) {
      if j == |before| { assert all[i] in before && Strip(all[i].id) in Ids(before); }
    }
  }

  /** The entries are not pinned to two files: a bare name is any file of that
      name, and a qualified one is itself. */
  predicate ClaimOneFile(a: Entry, b: Entry) {
    || !a.file.Pin? || !b.file.Pin? || a.file.ref == b.file.ref
    || (a.file.ref.name == b.file.ref.name && (a.file.ref.dir == [] || b.file.ref.dir == []))
  }

  lemma ClaimingOneFile(a: Entry, b: Entry)
    ensures MayShareASite(a, b) <==> ClaimOneFile(a, b)
  {
  }

  lemma Strategies(s: string)
    ensures IsStrategy(s) <==> s in {"S1", "S2", "S3", "S4", "S5", "S6", "S7", "S8"}
  {
    if IsStrategy(s) {
      assert s == ['S', s[1]];
      assert s[1] in {'1', '2', '3', '4', '5', '6', '7', '8'};
    }
  }

  /** What one entry has to meet by itself. */
  lemma EntryOkExactly(e: Entry, list: List)
    ensures EntryOk(e, list) <==>
      && Strip(e.id) != "" && Strip(e.symbol) != ""
      && (if list.Bugs? then Strip(e.primitive) != "" else Strip(e.outcome) != "")
      && (e.kind.Some? ==> Strip(e.kind.value) == if list.Bugs? then "real" else "fp")
      && !e.file.BlankPin? && !e.findingsOnly.Mistyped? && !e.quarantined.Mistyped?
      && (e.strategy.Some? ==> e.strategy.value in {"S1", "S2", "S3", "S4", "S5", "S6", "S7", "S8"})
      && (e.classes.Listed? ==> e.classes.names != [] && forall c :: c in e.classes.names ==> Strip(c) != "")
      && !e.classes.NotAList?
  {
    if e.strategy.Some? { Strategies(e.strategy.value); }
    assert Strip("real") == "real" && Strip("fp") == "fp";
  }

  /** What it must not share with an entry before it. */
  lemma EntriesClashExactly(a: Entry, b: Entry, list: List)
    ensures EntriesClash(a, b, list) <==>
      && Strip(a.symbol) == Strip(b.symbol) && ClaimOneFile(a, b)
      && if list.Bugs? then Strip(a.primitive) == Strip(b.primitive) else Strip(a.outcome) == Strip(b.outcome)
  {
    ClaimingOneFile(a, b);
  }

  method CheckEntry(e: Entry, list: List, seen: set<string>, keys: seq<Entry>) returns (faults: seq<Fault>)
    ensures faults == [] <==> EntryOk(e, list) && Strip(e.id) !in seen && forall x :: x in keys ==> !EntriesClash(e, x, list)
  {
    faults := [];
    var id := Strip(e.id);
    if id == "" { faults := faults + [MissingId]; } else if id in seen { faults := faults + [DuplicateId]; }
    if Strip(e.kind.UnwrapOr(WantedKind(list))) != WantedKind(list) { faults := faults + [WrongKind]; }
    if Strip(e.symbol) == "" { faults := faults + [NeedsSymbol]; }
    if list.Bugs? && Strip(e.primitive) == "" { faults := faults + [NeedsPrimitive]; }
    if e.findingsOnly.Mistyped? { faults := faults + [MistypedFlag]; }
    if e.quarantined.Mistyped? { faults := faults + [MistypedFlag]; }
    if e.file.BlankPin? { faults := faults + [BlankFile]; }
    if e.strategy.Some? && !IsStrategy(e.strategy.value) { faults := faults + [BadStrategy]; }
    if !ClassesOk(e.classes) { faults := faults + [BadClasses]; }
    if list.Traps? && Strip(e.outcome) == "" { faults := faults + [NeedsOutcome]; }
    if Strip(e.symbol) != "" && exists x :: x in keys && EntriesClash(e, x, list) { faults := faults + [DuplicateKey]; }
  }

  /** The pass over one list of entries. */
  method CheckList(entries: seq<Entry>, list: List, already: set<string>) returns (faults: seq<Fault>, seen: set<string>)
    ensures faults == [] <==> PassesList(entries, list, already)
    ensures faults == [] ==> seen == already + Ids(entries)
  {
    faults, seen := [], already;
    var keys: seq<Entry> := [];
    for i := 0 to |entries|
      invariant faults == [] <==> PassesList(entries[..i], list, already)
      invariant faults == [] ==> seen == already + Ids(entries[..i]) && keys == entries[..i]
    {
      var e := entries[i];
      assert entries[..i + 1] == entries[..i] + [e];
      OneMoreEntry(entries[..i], e, list, already);
      var more := CheckEntry(e, list, seen, keys);
      faults := faults + more;
      seen := seen + if Strip(e.id) != "" then {Strip(e.id)} else {};
      if Strip(e.symbol) != "" && !exists x :: x in keys && EntriesClash(e, x, list) { keys := keys + [e]; }
    }
    assert entries[..|entries|] == entries;
  }

  predicate AlternatesOk(alternates: seq<Signature>) {
    forall s :: s in alternates ==> AlternateOk(s)
  }

  method CheckAlternates(alternates: seq<Signature>) returns (faults: seq<Fault>)
    ensures faults == [] <==> AlternatesOk(alternates)
    ensures faults == [] <==> forall s | s in alternates ::
      Strip(s.primitive) != "" && Strip(s.symbol) != "" && Strip(s.access) in {"", "READ", "WRITE"}
  {
    faults := [];
    for j := 0 to |alternates|
      invariant faults == [] <==> AlternatesOk(alternates[..j])
    {
      var s := alternates[j];
      assert alternates[..j + 1] == alternates[..j] + [s];
      assert AlternatesOk(alternates[..j + 1]) <==> AlternatesOk(alternates[..j]) && AlternateOk(s);
      if Strip(s.primitive) == "" { faults := faults + [AlternateNeedsPrimitive]; }
      if Strip(s.symbol) == "" { faults := faults + [AlternateNeedsSymbol]; }
      if Strip(s.access) !in {"", "READ", "WRITE"} { faults := faults + [BadAccess]; }
    }
    assert alternates[..|alternates|] == alternates;
  }

  lemma OneMoreKey(keys: seq<RuntimeKey>, k: RuntimeKey)
    ensures Apart(keys + [k]) <==> Apart(keys) && forall i :: 0 <= i < |keys| ==> !KeysClash(k, keys[i])
  {
    var all := keys + [k];
    if Apart(all) {
      forall i, j | 0 <= i < j < |keys| ensures !KeysClash(keys[j], keys[i]) {
        assert all[i] == keys[i] && all[j] == keys[j];
      }
      forall i | 0 <= i < |keys| ensures !KeysClash(k, keys[i]) { assert all[i] == keys[i] && all[|keys|] == k; }
    }
  }

  /** Whether the key overlaps one of those before it. */
  method Overlaps(keys: seq<RuntimeKey>, key: RuntimeKey) returns (overlaps: bool)
    ensures overlaps <==> exists i :: 0 <= i < |keys| && KeysClash(key, keys[i])
  {
    for i := 0 to |keys|
      invariant forall k :: 0 <= k < i ==> !KeysClash(key, keys[k])
    {
      if KeysClash(key, keys[i]) { return true; }
    }
    return false;
  }

  /** The keys one bug adds, each compared with every key before it. */
  method CheckKeys(bug: Entry, before: seq<RuntimeKey>) returns (faults: seq<Fault>, keys: seq<RuntimeKey>)
    ensures keys == before + KeysFrom(Signatures(bug), bug)
    ensures Apart(before) ==> (faults == [] <==> Apart(keys))
  {
    faults, keys := [], before;
    var sigs := Signatures(bug);
    for j := 0 to |sigs|
      invariant keys == before + KeysFrom(sigs[..j], bug)
      invariant Apart(before) ==> (faults == [] <==> Apart(keys))
    {
      assert sigs[..j + 1][..j] == sigs[..j];
      if !Keyed(sigs[j]) { continue; }
      var key := RuntimeKey(Stripped(sigs[j]), bug);
      OneMoreKey(keys, key);
      var overlaps := Overlaps(keys, key);
      if overlaps { faults := faults + [RuntimeOverlap]; }
      keys := keys + [key];
    }
    assert sigs[..|sigs|] == sigs;
  }

  lemma PrefixApart(a: seq<RuntimeKey>, b: seq<RuntimeKey>)
    ensures Apart(a + b) ==> Apart(a)
  {
    if Apart(a + b) { ApartPrefix(a, b); }
  }

  predicate AllAlternatesOk(bugs: seq<Entry>) {
    forall i :: 0 <= i < |bugs| ==> AlternatesOk(bugs[i].alternates)
  }

  lemma OneMoreBug(bugs: seq<Entry>, i: nat)
    requires i < |bugs|
    ensures AllAlternatesOk(bugs[..i + 1]) <==> AllAlternatesOk(bugs[..i]) && AlternatesOk(bugs[i].alternates)
    ensures RuntimeKeys(bugs[..i + 1]) == RuntimeKeys(bugs[..i]) + KeysFrom(Signatures(bugs[i]), bugs[i])
    ensures Apart(RuntimeKeys(bugs[..i + 1])) ==> Apart(RuntimeKeys(bugs[..i]))
  {
    var before, now := bugs[..i], bugs[..i + 1];
    assert now[..i] == before && now == before + [bugs[i]];
    PrefixApart(RuntimeKeys(before), KeysFrom(Signatures(bugs[i]), bugs[i]));
    if AllAlternatesOk(now) {
      forall k | 0 <= k < |before| ensures AlternatesOk(before[k].alternates) { assert before[k] == now[k]; }
      assert now[i] == bugs[i];
    }
  }

  method CheckRuntimeKeys(bugs: seq<Entry>) returns (faults: seq<Fault>)
    ensures faults == [] <==> AllAlternatesOk(bugs) && Apart(RuntimeKeys(bugs))
  {
    faults := [];
    var keys: seq<RuntimeKey> := [];
    for i := 0 to |bugs|
      invariant keys == RuntimeKeys(bugs[..i])
      invariant faults == [] <==> AllAlternatesOk(bugs[..i]) && Apart(keys)
    {
      OneMoreBug(bugs, i);
      var wrong := CheckAlternates(bugs[i].alternates);
      var clashes, more := CheckKeys(bugs[i], keys);
      faults := faults + wrong + clashes;
      keys := more;
    }
    assert bugs[..|bugs|] == bugs;
  }

  // ------------------------------------------------------------ the runtime keys, from the manifest

  /** Two signatures of one manifest that a crash could meet together. */
  predicate OneKey(s: Signature, t: Signature) {
    && Strip(s.primitive) == Strip(t.primitive) != "" && Strip(s.symbol) == Strip(t.symbol) != ""
    && (Strip(s.access) == "" || Strip(t.access) == "" || Strip(s.access) == Strip(t.access))
  }

  lemma ClashIsOneKey(s: Signature, a: Entry, t: Signature, b: Entry)
    ensures Keyed(s) && Keyed(t) && KeysClash(RuntimeKey(Stripped(t), b), RuntimeKey(Stripped(s), a)) <==>
      OneKey(s, t) && ClaimOneFile(b, a)
  {
    ClaimingOneFile(b, a);
  }

  ghost predicate NoneClash(x: seq<RuntimeKey>, y: seq<RuntimeKey>) {
    forall k, l | k in x && l in y :: !KeysClash(l, k)
  }

  lemma ApartSplit(x: seq<RuntimeKey>, y: seq<RuntimeKey>)
    ensures Apart(x + y) <==> Apart(x) && Apart(y) && NoneClash(x, y)
  {
    var all := x + y;
    if Apart(all) {
      ApartPrefix(x, y);
      forall i, j | 0 <= i < j < |y| ensures !KeysClash(y[j], y[i]) { assert all[|x| + i] == y[i] && all[|x| + j] == y[j]; }
      forall k, l | k in x && l in y ensures !KeysClash(l, k) { ApartConcat(x, y, k, l); }
    } else {
      var i, j :| 0 <= i < j < |all| && KeysClash(all[j], all[i]);
      if j < |x| { assert KeysClash(x[j], x[i]); }
      else if |x| <= i { assert KeysClash(y[j - |x|], y[i - |x|]); }
      else { assert all[i] in x && all[j] in y; }
    }
  }

  lemma {:induction false} KeysFromAre(sigs: seq<Signature>, owner: Entry, k: RuntimeKey)
    ensures k in KeysFrom(sigs, owner) <==> exists s :: s in sigs && Keyed(s) && k == RuntimeKey(Stripped(s), owner)
  {
    if sigs != [] {
      var rest, last := sigs[..|sigs| - 1], sigs[|sigs| - 1];
      assert sigs == rest + [last];
      KeysFromAre(rest, owner, k);
    }
  }

  /** No two signatures of the list are one key. */
  ghost predicate NoTwin(sigs: seq<Signature>) {
    forall a, b | 0 <= a < b < |sigs| :: !OneKey(sigs[a], sigs[b])
  }

  lemma OneMoreSignature(sigs: seq<Signature>, t: Signature)
    ensures NoTwin(sigs + [t]) <==> NoTwin(sigs) && forall s | s in sigs :: !OneKey(s, t)
  {
    var all := sigs + [t];
    if NoTwin(all) {
      forall a, b | 0 <= a < b < |sigs| ensures !OneKey(sigs[a], sigs[b]) { assert all[a] == sigs[a] && all[b] == sigs[b]; }
      forall s | s in sigs ensures !OneKey(s, t) {
        var a :| 0 <= a < |sigs| && sigs[a] == s;
        assert all[a] == s && all[|sigs|] == t;
      }
    }
  }

  lemma {:induction false} KeysOfOneBug(sigs: seq<Signature>, owner: Entry)
    ensures Apart(KeysFrom(sigs, owner)) <==> NoTwin(sigs)
  {
    if sigs != [] {
      var rest, last := sigs[..|sigs| - 1], sigs[|sigs| - 1];
      var x, y := KeysFrom(rest, owner), if Keyed(last) then [RuntimeKey(Stripped(last), owner)] else [];
      assert sigs == rest + [last] && KeysFrom(sigs, owner) == x + y;
      KeysOfOneBug(rest, owner);
      OneMoreSignature(rest, last);
      assert Apart(x + y) <==> Apart(x) && forall s | s in rest :: !OneKey(s, last) by { LastOfOne(rest, owner, last, y); }
    }
  }

  lemma LastOfOne(sigs: seq<Signature>, owner: Entry, t: Signature, y: seq<RuntimeKey>)
    requires y == if Keyed(t) then [RuntimeKey(Stripped(t), owner)] else []
    ensures Apart(KeysFrom(sigs, owner) + y) <==> Apart(KeysFrom(sigs, owner)) && forall s | s in sigs :: !OneKey(s, t)
  {
    var x := KeysFrom(sigs, owner);
    ApartSplit(x, y);
    LastKeyApart(sigs, owner, t, owner);
    assert ClaimOneFile(owner, owner);
    assert NoneClash(x, y) <==> forall s | s in sigs :: !OneKey(s, t);
  }

  lemma LastKeyApart(sigs: seq<Signature>, a: Entry, t: Signature, b: Entry)
    ensures (Keyed(t) ==> forall k | k in KeysFrom(sigs, a) :: !KeysClash(RuntimeKey(Stripped(t), b), k)) <==>
      (ClaimOneFile(b, a) ==> forall s | s in sigs :: !OneKey(s, t))
  {
    forall k { KeysFromAre(sigs, a, k); }
    forall s { ClashIsOneKey(s, a, t, b); }
  }

  ghost predicate TwinFree(a: Entry, b: Entry) {
    ClaimOneFile(b, a) ==> forall s, t | s in Signatures(a) && t in Signatures(b) :: !OneKey(s, t)
  }

  lemma TwoBugsApart(a: Entry, b: Entry)
    ensures TwinFree(a, b) <==> NoneClash(KeysFrom(Signatures(a), a), KeysFrom(Signatures(b), b))
  {
    forall k { KeysFromAre(Signatures(a), a, k); }
    forall l { KeysFromAre(Signatures(b), b, l); }
    forall s, t { ClashIsOneKey(s, a, t, b); }
    if !TwinFree(a, b) {
      var s, t :| s in Signatures(a) && t in Signatures(b) && OneKey(s, t);
      assert KeysClash(RuntimeKey(Stripped(t), b), RuntimeKey(Stripped(s), a));
    }
  }

  lemma {:induction false} RuntimeKeysAre(bugs: seq<Entry>, k: RuntimeKey)
    ensures k in RuntimeKeys(bugs) <==> exists b :: b in bugs && k in KeysFrom(Signatures(b), b)
  {
    if bugs != [] {
      var rest, last := bugs[..|bugs| - 1], bugs[|bugs| - 1];
      assert bugs == rest + [last];
      RuntimeKeysAre(rest, k);
    }
  }

  lemma LastBugApart(bugs: seq<Entry>, b: Entry)
    ensures NoneClash(RuntimeKeys(bugs), KeysFrom(Signatures(b), b)) <==> forall a | a in bugs :: TwinFree(a, b)
  {
    forall k { RuntimeKeysAre(bugs, k); }
    forall a { TwoBugsApart(a, b); }
  }

  /** Every two signatures of the manifest are told apart, of one bug or of two
      that may be at one site. */
  ghost predicate NoTwins(bugs: seq<Entry>) {
    && (forall b | b in bugs :: NoTwin(Signatures(b)))
    && forall i, j | 0 <= i < j < |bugs| :: TwinFree(bugs[i], bugs[j])
  }

  lemma OneMoreTwinFree(bugs: seq<Entry>, b: Entry)
    ensures NoTwins(bugs + [b]) <==> NoTwins(bugs) && NoTwin(Signatures(b)) && forall a | a in bugs :: TwinFree(a, b)
  {
    var all := bugs + [b];
    assert forall x :: x in all <==> x in bugs || x == b;
    if NoTwins(all) {
      forall i, j | 0 <= i < j < |bugs| ensures TwinFree(bugs[i], bugs[j]) { assert all[i] == bugs[i] && all[j] == bugs[j]; }
      forall a | a in bugs ensures TwinFree(a, b) {
        var i :| 0 <= i < |bugs| && bugs[i] == a;
        assert all[i] == a && all[|bugs|] == b;
      }
    }
  }

  /** The runtime keys are apart exactly when no two signatures name one primitive
      and one function with accesses that can be one. */
  lemma {:induction false} ApartExactly(bugs: seq<Entry>)
    ensures Apart(RuntimeKeys(bugs)) <==> NoTwins(bugs)
  {
    if bugs != [] {
      var rest, last := bugs[..|bugs| - 1], bugs[|bugs| - 1];
      assert bugs == rest + [last];
      ApartExactly(rest);
      assert NoTwins(bugs) <==> Apart(RuntimeKeys(rest)) && NoTwin(Signatures(last)) && forall a | a in rest :: TwinFree(a, last) by {
        OneMoreTwinFree(rest, last);
      }
      LastBugOfAll(rest, last);
    }
  }

  lemma LastBugOfAll(bugs: seq<Entry>, b: Entry)
    ensures Apart(RuntimeKeys(bugs) + KeysFrom(Signatures(b), b)) <==>
      Apart(RuntimeKeys(bugs)) && NoTwin(Signatures(b)) && forall a | a in bugs :: TwinFree(a, b)
  {
    ApartSplit(RuntimeKeys(bugs), KeysFrom(Signatures(b), b));
    KeysOfOneBug(Signatures(b), b);
    LastBugApart(bugs, b);
  }

  predicate NoClash(m: Manifest, b: Entry, traps: seq<Entry>, lex: Lexicon) {
    forall t :: t in traps ==> !TrapClash(m, b, t, lex)
  }

  predicate Names(e: Entry, symbol: string) {
    Strip(symbol) != "" && (symbol == e.symbol || exists s :: s in e.alternates && s.symbol == symbol)
  }

  /** Some name of the one and some name of the other end in the same function. */
  ghost predicate NameOneFunction(a: Entry, b: Entry, lex: Lexicon) {
    exists x, y :: Names(a, x) && Names(b, y) && lex.leaf(Strip(x)) == lex.leaf(Strip(y)) != ""
  }

  /** Both declare classes, and no class of the one is a class of the other. */
  ghost predicate NoSharedClass(a: Entry, b: Entry, lex: Lexicon) {
    && a.classes.Listed? && a.classes.names != [] && b.classes.Listed? && b.classes.names != []
    && forall c, d :: c in a.classes.names && d in b.classes.names ==> lex.canonical(c) != lex.canonical(d)
  }

  lemma ClashOf(m: Manifest, b: Entry, t: Entry, lex: Lexicon, share: bool, named: bool, meet: bool)
    requires share <==> MayShareASite(b, t)
    requires named <==> exists x :: x in ManifestSymbols(b) && NamesSymbolOf(x, t, lex)
    requires meet <==> ClassesMeet(DeclaredClasses(b, lex), DeclaredClasses(t, lex))
    ensures TrapClash(m, b, t, lex) <==>
      var findingsOnly := if b.findingsOnly.Absent? then m.findingsOnly else b.findingsOnly;
      findingsOnly in {Given(true), Mistyped(true)} && Strip(t.outcome) == "clean" && share && named && meet
  {
  }

  /** A findings-only bug and a trap that expects nothing clash when a name of
      each ends in one function, at what may be one site, with classes that may
      be the same. */
  lemma ClashesExactly(m: Manifest, b: Entry, t: Entry, lex: Lexicon)
    ensures TrapClash(m, b, t, lex) <==>
      var findingsOnly := if b.findingsOnly.Absent? then m.findingsOnly else b.findingsOnly;
      && findingsOnly in {Given(true), Mistyped(true)} && Strip(t.outcome) == "clean"
      && ClaimOneFile(b, t) && NameOneFunction(b, t, lex) && !NoSharedClass(b, t, lex)
  {
    ClaimingOneFile(b, t);
    ClassesMeetExactly(b, t, lex);
    NamesMeetExactly(b, t, lex);
    ClashOf(m, b, t, lex, ClaimOneFile(b, t), NameOneFunction(b, t, lex), !NoSharedClass(b, t, lex));
  }

  lemma ClassesMeetExactly(a: Entry, b: Entry, lex: Lexicon)
    ensures ClassesMeet(DeclaredClasses(a, lex), DeclaredClasses(b, lex)) <==> !NoSharedClass(a, b, lex)
  {
    var x, y := DeclaredClasses(a, lex), DeclaredClasses(b, lex);
    if a.classes.Listed? && a.classes.names != [] { assert lex.canonical(a.classes.names[0]) in x; }
    if b.classes.Listed? && b.classes.names != [] { assert lex.canonical(b.classes.names[0]) in y; }
    if a.classes.Listed? && b.classes.Listed? {
      if c, d :| c in a.classes.names && d in b.classes.names && lex.canonical(c) == lex.canonical(d) {
        assert lex.canonical(c) in x * y;
      }
      if z :| z in x * y {
        var c :| c in a.classes.names && lex.canonical(c) == z;
        var d :| d in b.classes.names && lex.canonical(d) == z;
      }
    }
  }

  lemma NamesExactly(e: Entry, symbol: string)
    ensures Names(e, symbol) ==> Strip(symbol) in ManifestSymbols(e)
    ensures symbol in ManifestSymbols(e) ==> exists x :: Names(e, x) && Strip(x) == symbol
  {
    if Names(e, symbol) {
      assert Signatures(e)[0].symbol == e.symbol;
      var s :| s in Signatures(e) && s.symbol == symbol;
    }
    if symbol in ManifestSymbols(e) {
      var s :| s in Signatures(e) && !Blank(s.symbol) && Strip(s.symbol) == symbol;
      assert Names(e, s.symbol);
    }
  }

  lemma NamesMeetExactly(a: Entry, b: Entry, lex: Lexicon)
    ensures (exists x :: x in ManifestSymbols(a) && NamesSymbolOf(x, b, lex)) <==> NameOneFunction(a, b, lex)
  {
    if x :| x in ManifestSymbols(a) && NamesSymbolOf(x, b, lex) {
      var y :| y in ManifestSymbols(b) && lex.leaf(y) == lex.leaf(x);
      NamesExactly(a, x);
      NamesExactly(b, y);
    }
    if x, y :| Names(a, x) && Names(b, y) && lex.leaf(Strip(x)) == lex.leaf(Strip(y)) != "" {
      NamesExactly(a, x);
      NamesExactly(b, y);
    }
  }

  /** One bug against every trap. */
  method CheckTraps(m: Manifest, b: Entry, lex: Lexicon) returns (faults: seq<Fault>)
    ensures faults == [] <==> NoClash(m, b, m.traps, lex)
  {
    faults := [];
    if !FindingsOnly(m, b) { return; }
    var bugClasses := DeclaredClasses(b, lex);
    for j := 0 to |m.traps|
      invariant faults == [] <==> NoClash(m, b, m.traps[..j], lex)
    {
      var t := m.traps[j];
      assert m.traps[..j + 1] == m.traps[..j] + [t];
      assert NoClash(m, b, m.traps[..j + 1], lex) <==> NoClash(m, b, m.traps[..j], lex) && !TrapClash(m, b, t, lex);
      if Strip(t.outcome) != "clean" { continue; }
      var overlap := ClassesMeet(bugClasses, DeclaredClasses(t, lex));
      var sameSymbol := exists x :: x in ManifestSymbols(b) && NamesSymbolOf(x, t, lex);
      if overlap && sameSymbol && MayShareASite(b, t) { faults := faults + [TrapClaimsTheBug]; }
    }
    assert m.traps[..|m.traps|] == m.traps;
  }

  method CheckTrapClashes(m: Manifest, lex: Lexicon) returns (faults: seq<Fault>)
    ensures faults == [] <==> forall b, t :: b in m.bugs && t in m.traps ==> !TrapClash(m, b, t, lex)
  {
    faults := [];
    for i := 0 to |m.bugs|
      invariant faults == [] <==> forall b :: b in m.bugs[..i] ==> NoClash(m, b, m.traps, lex)
    {
      assert m.bugs[..i + 1] == m.bugs[..i] + [m.bugs[i]];
      var more := CheckTraps(m, m.bugs[i], lex);
      faults := faults + more;
    }
    assert m.bugs[..|m.bugs|] == m.bugs;
  }

  /** Every alternate has a primitive, a symbol and a known access, or none. */
  predicate AlternatesSpeltWell(bugs: seq<Entry>) {
    forall b, s | b in bugs && s in b.alternates ::
      Strip(s.primitive) != "" && Strip(s.symbol) != "" && Strip(s.access) in {"", "READ", "WRITE"}
  }

  lemma AlternatesExactly(bugs: seq<Entry>)
    ensures AlternatesSpeltWell(bugs) <==>
      forall i :: 0 <= i < |bugs| ==> forall s :: s in bugs[i].alternates ==> AlternateOk(s)
  {
    if AlternatesSpeltWell(bugs) {
      forall i, s | 0 <= i < |bugs| && s in bugs[i].alternates ensures AlternateOk(s) { assert bugs[i] in bugs; }
    }
  }

  /** All that `manifest_errors` demands. */
  lemma AcceptedExactly(m: Manifest, lex: Lexicon)
    ensures Accepted(m, lex) <==>
      && m.findingsOnly in {Absent, Given(true), Given(false)}
      && ListOk(m.bugs, Bugs) && ListOk(m.traps, Traps) && IdsDistinct(m.bugs + m.traps)
      && AlternatesSpeltWell(m.bugs) && NoTwins(m.bugs)
      && forall b, t | b in m.bugs && t in m.traps :: !TrapClash(m, b, t, lex)
  {
    AlternatesExactly(m.bugs);
    var twinFree := NoTwins(m.bugs);
    assert twinFree <==> Apart(RuntimeKeys(m.bugs)) by { ApartExactly(m.bugs); }
    AcceptedBy(m, lex, twinFree, AlternatesSpeltWell(m.bugs));
  }

  lemma AcceptedBy(m: Manifest, lex: Lexicon, apart: bool, spelt: bool)
    requires apart <==> Apart(RuntimeKeys(m.bugs))
    requires spelt <==> forall i :: 0 <= i < |m.bugs| ==> forall s :: s in m.bugs[i].alternates ==> AlternateOk(s)
    ensures Accepted(m, lex) <==>
      && m.findingsOnly in {Absent, Given(true), Given(false)}
      && ListOk(m.bugs, Bugs) && ListOk(m.traps, Traps) && IdsDistinct(m.bugs + m.traps)
      && spelt && apart
      && forall b, t | b in m.bugs && t in m.traps :: !TrapClash(m, b, t, lex)
  {
  }

  /** The validator returns no errors exactly when the manifest is accepted. */
  method ManifestErrors(m: Manifest, lex: Lexicon) returns (faults: seq<Fault>)
    ensures faults == [] <==> Accepted(m, lex)
  {
    faults := if m.findingsOnly.Mistyped? then [MistypedFlag] else [];
    var a, seen := CheckList(m.bugs, Bugs, {});
    var b, _ := CheckList(m.traps, Traps, seen);
    var c := CheckTrapClashes(m, lex);
    var d := CheckRuntimeKeys(m.bugs);
    assert a + b + d == [] <==> WellFormed(m) by {
      if a == [] { IdsAcrossLists(m.bugs, m.traps); } else { IdsOfFirst(m.bugs, m.traps); }
    }
    faults := faults + a + b + c + d;
  }

  lemma IdsAcrossLists(bugs: seq<Entry>, traps: seq<Entry>)
    requires IdsDistinct(bugs)
    ensures IdsDistinct(bugs + traps) <==> IdsDistinct(traps) && Ids(traps) !! Ids(bugs)
  {
    var all := bugs + traps;
    if IdsDistinct(all) {
      forall i, j | 0 <= i < j < |traps| ensures Strip(traps[i].id) != Strip(traps[j].id) {
        assert all[|bugs| + i] == traps[i] && all[|bugs| + j] == traps[j];
      }
      forall x, y | x in bugs && y in traps ensures Strip(x.id) != Strip(y.id) {
        var i :| 0 <= i < |bugs| && bugs[i] == x;
        var j :| 0 <= j < |traps| && traps[j] == y;
        assert all[i] == x && all[|bugs| + j] == y;
      }
    }
    if IdsDistinct(traps) && Ids(traps) !! Ids(bugs) {
      forall i, j | 0 <= i < j < |all| ensures Strip(all[i].id) != Strip(all[j].id) {
        if i < |bugs| <= j {
          assert bugs[i] in bugs && traps[j - |bugs|] in traps;
          assert Strip(all[i].id) in Ids(bugs) && Strip(all[j].id) in Ids(traps);
        }
      }
    }
  }

  lemma IdsOfFirst(bugs: seq<Entry>, traps: seq<Entry>)
    ensures IdsDistinct(bugs + traps) ==> IdsDistinct(bugs)
  {
    if IdsDistinct(bugs + traps) {
      forall i, j | 0 <= i < j < |bugs| ensures Strip(bugs[i].id) != Strip(bugs[j].id) {
        assert (bugs + traps)[i] == bugs[i] && (bugs + traps)[j] == bugs[j];
      }
    }
  }
}
