/**
 The ground-truth manifest of lib/benchmark.py and the attribution of a crash to
 a planted bug.  Manifest fields are kept as the manifest spells them: the
 validator compares them with the blanks at their ends stripped, the matcher
 compares them raw.
 */
module GroundTruth {
  import opened Common
  import opened Whitespace

  /** A source reference: the directory it is qualified with, if any, and its name. */
  datatype FileRef = FileRef(dir: seq<string>, name: string)
  datatype FilePin = Unpinned | BlankPin | Pin(ref: FileRef)

  datatype Signature = Signature(primitive: string, symbol: string, access: string)

  /** A yes-or-no field: absent, given, or something else that counts as true or not. */
  datatype Flag = Absent | Given(value: bool) | Mistyped(truthy: bool) {
    predicate Truthy() {
      match this
      case Absent => false
      case Given(value) => value
      case Mistyped(truthy) => truthy
    }
  }

  datatype Classes = Undeclared | Listed(names: seq<string>) | NotAList

  datatype Entry = Entry(
    id: string,
    kind: Option<string>,
    symbol: string,
    primitive: string,
    outcome: string,
    file: FilePin,
    alternates: seq<Signature>,
    findingsOnly: Flag,
    quarantined: Flag,
    strategy: Option<string>,
    classes: Classes)

  datatype Manifest = Manifest(findingsOnly: Flag, bugs: seq<Entry>, traps: seq<Entry>)

  /** What one sanitizer artifact shows: the primitive, the functions at the
      crash site, and the access. */
  datatype Evidence = Evidence(primitive: string, site: set<string>, access: string)

  /** An entry's own signature, which wants no access, and its alternates. */
  function Signatures(e: Entry): seq<Signature> {
    [Signature(e.primitive, e.symbol, "")] + e.alternates
  }

  predicate SameSourceFile(a: FileRef, b: FileRef) {
    if a.dir != [] && b.dir != [] then a == b else a.name == b.name
  }

  /** Whether two entries could be pinned to one file. */
  predicate MayShareASite(a: Entry, b: Entry) {
    a.file.Pin? && b.file.Pin? ==> SameSourceFile(a.file.ref, b.file.ref)
  }

  // ------------------------------------------------------------ matching

  predicate Satisfies(s: Signature, ev: Evidence) {
    && (s.primitive == "" || s.primitive == ev.primitive)
    && (s.symbol == "" || s.symbol in ev.site)
    && (s.access == "" || s.access == ev.access)
    && (s.primitive != "" || s.symbol != "")
  }

  predicate Matches(e: Entry, ev: Evidence) {
    exists s :: s in Signatures(e) && Satisfies(s, ev)
  }

  /** The first entry the evidence matches. */
  function FirstMatch(bugs: seq<Entry>, ev: Evidence): Option<Entry> {
    if bugs == [] then None
    else if Matches(bugs[0], ev) then Some(bugs[0])
    else FirstMatch(bugs[1..], ev)
  }

  /** `_match_real`. */
  method MatchReal(ev: Evidence, bugs: seq<Entry>) returns (hit: Option<Entry>)
    ensures hit == FirstMatch(bugs, ev)
  {
    for i := 0 to |bugs|
      invariant FirstMatch(bugs, ev) == FirstMatch(bugs[i..], ev)
    {
      var b := bugs[i];
      var signatures := Signatures(b);
      for j := 0 to |signatures|
        invariant forall k :: 0 <= k < j ==> !Satisfies(signatures[k], ev)
      {
        var s := signatures[j];
        if s.primitive != "" && s.primitive != ev.primitive { continue; }
        if s.symbol != "" && s.symbol !in ev.site { continue; }
        if s.access != "" && s.access != ev.access { continue; }
        if s.primitive != "" || s.symbol != "" {
          assert Satisfies(signatures[j], ev);
          return Some(b);
        }
      }
      assert bugs[i..][1..] == bugs[i + 1..];
    }
    return None;
  }

  lemma {:induction false} FirstMatchIsAMatch(bugs: seq<Entry>, ev: Evidence)
    ensures var m := FirstMatch(bugs, ev);
      if m.Some? then m.value in bugs && Matches(m.value, ev) else forall b :: b in bugs ==> !Matches(b, ev)
  {
    if bugs != [] { FirstMatchIsAMatch(bugs[1..], ev); }
  }

  /** The match is the first bug that has one. */
  lemma {:induction false} FirstMatchIsFirst(bugs: seq<Entry>, ev: Evidence, i: nat)
    requires i < |bugs| && Matches(bugs[i], ev) && forall k :: 0 <= k < i ==> !Matches(bugs[k], ev)
    ensures FirstMatch(bugs, ev) == Some(bugs[i])
  {
    if i > 0 {
      assert bugs[1..][i - 1] == bugs[i];
      FirstMatchIsFirst(bugs[1..], ev, i - 1);
    }
  }

  /** A crash matches a bug through its own primitive and symbol, or through those
      and the access of an alternate: what is left empty is not asked for, but one
      of primitive and symbol has to be given. */
  lemma MatchesExactly(e: Entry, ev: Evidence)
    ensures Matches(e, ev) <==>
      || (e.primitive in {"", ev.primitive} && (e.symbol == "" || e.symbol in ev.site) && !(e.primitive == e.symbol == ""))
      || exists s :: s in e.alternates && s.primitive in {"", ev.primitive} && (s.symbol == "" || s.symbol in ev.site)
                     && s.access in {"", ev.access} && !(s.primitive == s.symbol == "")
  {
    var own := Signature(e.primitive, e.symbol, "");
    assert Signatures(e)[0] == own;
    if s :| s in Signatures(e) && Satisfies(s, ev) && s != own { assert s in e.alternates; }
    if s :| s in e.alternates && Satisfies(s, ev) { assert s in Signatures(e); }
    assert Satisfies(own, ev) ==> Matches(e, ev);
  }

  // ------------------------------------------------------------ ambiguity

  /** Every signature names a primitive and a symbol. */
  predicate Filled(e: Entry) {
    forall s :: s in Signatures(e) ==> s.primitive != "" && s.symbol != ""
  }

  predicate AccessesMeet(a: string, b: string) {
    a == "" || b == "" || a == b
  }

  /** One crash at one function can satisfy both signatures. */
  predicate Overlap(s: Signature, t: Signature) {
    s.primitive == t.primitive && s.symbol == t.symbol && AccessesMeet(s.access, t.access)
  }

  ghost predicate EntriesOverlap(a: Entry, b: Entry) {
    exists s, t :: s in Signatures(a) && t in Signatures(b) && Overlap(s, t)
  }

  predicate SingleSite(ev: Evidence) {
    forall f, g :: f in ev.site && g in ev.site ==> f == g
  }

  /** Some crash at a single function matches both entries. */
  ghost predicate Confusable(a: Entry, b: Entry) {
    exists ev :: SingleSite(ev) && Matches(a, ev) && Matches(b, ev)
  }

  /** Two bugs can be confused at a single crash site exactly when two of their
      signatures overlap as the manifest spells them. */
  lemma ConfusedExactlyWhenOverlapping(a: Entry, b: Entry)
    requires Filled(a) && Filled(b)
    ensures Confusable(a, b) <==> EntriesOverlap(a, b)
  {
    if Confusable(a, b) {
      var ev :| SingleSite(ev) && Matches(a, ev) && Matches(b, ev);
      var s :| s in Signatures(a) && Satisfies(s, ev);
      var t :| t in Signatures(b) && Satisfies(t, ev);
      assert Overlap(s, t);
    }
    if EntriesOverlap(a, b) {
      var s, t :| s in Signatures(a) && t in Signatures(b) && Overlap(s, t);
      var ev := Evidence(s.primitive, {s.symbol}, if s.access != "" then s.access else t.access);
      assert SingleSite(ev) && Satisfies(s, ev) && Satisfies(t, ev);
    }
  }

  /** Both signatures are named at the site and can be met by one crash there. */
  predicate MeetAt(s: Signature, t: Signature, site: set<string>) {
    s.primitive == t.primitive && AccessesMeet(s.access, t.access) && s.symbol in site && t.symbol in site
  }

  ghost predicate ConfusableAt(a: Entry, b: Entry, site: set<string>) {
    exists ev: Evidence :: ev.site == site && Matches(a, ev) && Matches(b, ev)
  }

  /** A crash site may carry several names for its function; two entries can be
      confused there exactly when two of their signatures meet at it. */
  lemma ConfusedAtASite(a: Entry, b: Entry, site: set<string>)
    requires Filled(a) && Filled(b)
    ensures ConfusableAt(a, b, site) <==> exists s, t :: s in Signatures(a) && t in Signatures(b) && MeetAt(s, t, site)
  {
    if ConfusableAt(a, b, site) {
      var ev: Evidence :| ev.site == site && Matches(a, ev) && Matches(b, ev);
      var s :| s in Signatures(a) && Satisfies(s, ev);
      var t :| t in Signatures(b) && Satisfies(t, ev);
      assert MeetAt(s, t, site);
    }
    if s, t :| s in Signatures(a) && t in Signatures(b) && MeetAt(s, t, site) {
      var ev := Evidence(s.primitive, site, if s.access != "" then s.access else t.access);
      assert Satisfies(s, ev) && Satisfies(t, ev);
      assert ev.site == site && Matches(a, ev) && Matches(b, ev);
    }
  }

  // ------------------------------------------------------------ what the validator compares

  function Stripped(s: Signature): Signature {
    Signature(Strip(s.primitive), Strip(s.symbol), Strip(s.access))
  }

  datatype RuntimeKey = RuntimeKey(sig: Signature, owner: Entry)

  predicate Keyed(s: Signature) {
    Strip(s.primitive) != "" && Strip(s.symbol) != ""
  }

  function KeysFrom(sigs: seq<Signature>, owner: Entry): seq<RuntimeKey> {
    if sigs == [] then []
    else
      var s := sigs[|sigs| - 1];
      KeysFrom(sigs[..|sigs| - 1], owner) + if Keyed(s) then [RuntimeKey(Stripped(s), owner)] else []
  }

  /** The runtime keys of a list of bugs, in the order the validator meets them. */
  function RuntimeKeys(bugs: seq<Entry>): seq<RuntimeKey> {
    if bugs == [] then []
    else
      var b := bugs[|bugs| - 1];
      RuntimeKeys(bugs[..|bugs| - 1]) + KeysFrom(Signatures(b), b)
  }

  predicate KeysClash(k: RuntimeKey, l: RuntimeKey) {
    Overlap(k.sig, l.sig) && MayShareASite(k.owner, l.owner)
  }

  predicate Apart(keys: seq<RuntimeKey>) {
    forall i, j :: 0 <= i < j < |keys| ==> !KeysClash(keys[j], keys[i])
  }

  datatype List = Bugs | Traps

  predicate IsStrategy(s: string) {
    |s| == 2 && s[0] == 'S' && '1' <= s[1] <= '8'
  }

  predicate ClassesOk(c: Classes) {
    match c
    case Undeclared => true
    case Listed(names) => names != [] && forall x :: x in names ==> !Blank(x)
    case NotAList => false
  }

  /** The fields that label an entry or take it out of a denominator. */
  predicate LabelsOk(e: Entry) {
    && !e.findingsOnly.Mistyped? && !e.quarantined.Mistyped?
    && (e.strategy.Some? ==> IsStrategy(e.strategy.value))
    && ClassesOk(e.classes)
  }

  predicate EntryOk(e: Entry, list: List) {
    && !Blank(e.id)
    && Strip(e.kind.UnwrapOr(WantedKind(list))) == WantedKind(list)
    && !Blank(e.symbol)
    && (list.Bugs? ==> !Blank(e.primitive))
    && (list.Traps? ==> !Blank(e.outcome))
    && !e.file.BlankPin?
    && LabelsOk(e)
  }

  function WantedKind(list: List): string {
    if list.Bugs? then "real" else "fp"
  }

  predicate AlternateOk(s: Signature) {
    !Blank(s.primitive) && !Blank(s.symbol) && Strip(s.access) in {"", "READ", "WRITE"}
  }

  /** What two entries of one list must not share. */
  function MatchKey(e: Entry, list: List): (string, string) {
    (Strip(if list.Bugs? then e.primitive else e.outcome), Strip(e.symbol))
  }

  predicate EntriesClash(a: Entry, b: Entry, list: List) {
    MatchKey(a, list) == MatchKey(b, list) && MayShareASite(a, b)
  }

  predicate ListOk(entries: seq<Entry>, list: List) {
    && (forall i :: 0 <= i < |entries| ==> EntryOk(entries[i], list))
    && (forall i, j :: 0 <= i < j < |entries| ==> !EntriesClash(entries[j], entries[i], list))
  }

  predicate IdsDistinct(entries: seq<Entry>) {
    forall i, j :: 0 <= i < j < |entries| ==> Strip(entries[i].id) != Strip(entries[j].id)
  }

  /** What attribution rests on. */
  predicate WellFormed(m: Manifest) {
    && ListOk(m.bugs, Bugs) && ListOk(m.traps, Traps)
    && IdsDistinct(m.bugs + m.traps)
    && (forall i :: 0 <= i < |m.bugs| ==> forall s :: s in m.bugs[i].alternates ==> AlternateOk(s))
    && Apart(RuntimeKeys(m.bugs))
  }

  /** A bug's own flag decides, and the manifest's for a bug without one. */
  predicate FindingsOnly(m: Manifest, b: Entry) {
    if b.findingsOnly.Absent? then m.findingsOnly.Truthy() else b.findingsOnly.Truthy()
  }

  /** How class names and qualified symbols are read. */
  datatype Lexicon = Lexicon(canonical: string -> string, leaf: string -> string)

  function DeclaredClasses(e: Entry, lex: Lexicon): set<string> {
    if e.classes.Listed? then set c | c in e.classes.names :: lex.canonical(c) else {}
  }

  function ManifestSymbols(e: Entry): set<string> {
    set s | s in Signatures(e) && !Blank(s.symbol) :: Strip(s.symbol)
  }

  predicate ClassesMeet(a: set<string>, b: set<string>) {
    a == {} || b == {} || a * b != {}
  }

  predicate NamesSymbolOf(symbol: string, e: Entry, lex: Lexicon) {
    lex.leaf(symbol) != "" && exists x :: x in ManifestSymbols(e) && lex.leaf(x) == lex.leaf(symbol)
  }

  /** A findings-only bug and a trap that expects nothing claim one function. */
  predicate TrapClash(m: Manifest, b: Entry, t: Entry, lex: Lexicon) {
    && FindingsOnly(m, b) && Strip(t.outcome) == "clean"
    && ClassesMeet(DeclaredClasses(b, lex), DeclaredClasses(t, lex))
    && (exists x :: x in ManifestSymbols(b) && NamesSymbolOf(x, t, lex))
    && MayShareASite(b, t)
  }

  /** What `manifest_errors` demands. */
  predicate Accepted(m: Manifest, lex: Lexicon) {
    && !m.findingsOnly.Mistyped?
    && WellFormed(m)
    && forall b, t :: b in m.bugs && t in m.traps ==> !TrapClash(m, b, t, lex)
  }

  // ------------------------------------------------------------ accepted manifests

  lemma {:induction false} KeysFromHas(sigs: seq<Signature>, owner: Entry, s: Signature)
    requires s in sigs && Keyed(s)
    ensures RuntimeKey(Stripped(s), owner) in KeysFrom(sigs, owner)
  {
    var rest := sigs[..|sigs| - 1];
    if s in rest { KeysFromHas(rest, owner, s); }
    assert sigs == rest + [sigs[|sigs| - 1]];
  }

  lemma {:induction false} RuntimeKeysHas(bugs: seq<Entry>, i: nat, s: Signature)
    requires i < |bugs| && s in Signatures(bugs[i]) && Keyed(s)
    ensures RuntimeKey(Stripped(s), bugs[i]) in RuntimeKeys(bugs)
  {
    var n := |bugs| - 1;
    if i < n { RuntimeKeysHas(bugs[..n], i, s); } else { KeysFromHas(Signatures(bugs[n]), bugs[n], s); }
  }

  lemma ApartConcat(a: seq<RuntimeKey>, b: seq<RuntimeKey>, k: RuntimeKey, l: RuntimeKey)
    requires Apart(a + b) && k in a && l in b
    ensures !KeysClash(l, k) && Apart(a)
  {
    var i :| 0 <= i < |a| && a[i] == k;
    var j :| 0 <= j < |b| && b[j] == l;
    assert (a + b)[i] == k && (a + b)[|a| + j] == l;
    forall x, y | 0 <= x < y < |a| ensures !KeysClash(a[y], a[x]) {
      assert (a + b)[x] == a[x] && (a + b)[y] == a[y];
    }
  }

  lemma ApartPrefix(a: seq<RuntimeKey>, b: seq<RuntimeKey>)
    requires Apart(a + b)
    ensures Apart(a)
  {
    forall x, y | 0 <= x < y < |a| ensures !KeysClash(a[y], a[x]) {
      assert (a + b)[x] == a[x] && (a + b)[y] == a[y];
    }
  }

  /** The keys of two different bugs are apart in the flat list of all keys. */
  lemma {:induction false} KeysOfTwoBugs(bugs: seq<Entry>, i: nat, j: nat, s: Signature, t: Signature)
    requires Apart(RuntimeKeys(bugs)) && i < j < |bugs|
    requires s in Signatures(bugs[i]) && Keyed(s) && t in Signatures(bugs[j]) && Keyed(t)
    ensures !KeysClash(RuntimeKey(Stripped(t), bugs[j]), RuntimeKey(Stripped(s), bugs[i]))
  {
    var n := |bugs| - 1;
    var before, last := RuntimeKeys(bugs[..n]), KeysFrom(Signatures(bugs[n]), bugs[n]);
    if j < n {
      ApartPrefix(before, last);
      KeysOfTwoBugs(bugs[..n], i, j, s, t);
    } else {
      RuntimeKeysHas(bugs[..n], i, s);
      KeysFromHas(Signatures(bugs[n]), bugs[n], t);
      ApartConcat(before, last, RuntimeKey(Stripped(s), bugs[i]), RuntimeKey(Stripped(t), bugs[n]));
    }
  }

  /** Two bugs of an accepted manifest can be confused at a single crash site
      only if both pin a file, and the files cannot be the same. */
  lemma ConfusionNeedsTwoFiles(m: Manifest, i: nat, j: nat)
    requires WellFormed(m) && i < j < |m.bugs| && Confusable(m.bugs[i], m.bugs[j])
    ensures m.bugs[i].file.Pin? && m.bugs[j].file.Pin? && !SameSourceFile(m.bugs[j].file.ref, m.bugs[i].file.ref)
  {
    var a, b := m.bugs[i], m.bugs[j];
    WellFormedIsFilled(m, i);
    WellFormedIsFilled(m, j);
    ConfusedExactlyWhenOverlapping(a, b);
    var s, t :| s in Signatures(a) && t in Signatures(b) && Overlap(s, t);
    OverlappingKeysAreTwoFiles(m.bugs, i, j, s, t);
  }

  lemma WellFormedIsFilled(m: Manifest, i: nat)
    requires WellFormed(m) && i < |m.bugs|
    ensures Filled(m.bugs[i]) && forall s :: s in Signatures(m.bugs[i]) ==> Keyed(s)
  {
    assert EntryOk(m.bugs[i], Bugs);
    forall s | s in Signatures(m.bugs[i]) ensures Keyed(s) {
      assert s in m.bugs[i].alternates ==> AlternateOk(s);
    }
  }

  lemma OverlappingKeysAreTwoFiles(bugs: seq<Entry>, i: nat, j: nat, s: Signature, t: Signature)
    requires Apart(RuntimeKeys(bugs)) && i < j < |bugs| && Overlap(s, t)
    requires s in Signatures(bugs[i]) && Keyed(s) && t in Signatures(bugs[j]) && Keyed(t)
    ensures !MayShareASite(bugs[j], bugs[i])
  {
    StrippingKeepsOverlap(s, t);
    KeysOfTwoBugs(bugs, i, j, s, t);
  }

  lemma StrippingKeepsOverlap(s: Signature, t: Signature)
    requires Overlap(s, t)
    ensures Overlap(Stripped(t), Stripped(s))
  {
  }

  /** In an accepted manifest that pins no file, at most one planted bug matches
      a crash at a single function. */
  lemma AcceptedIsUnambiguous(m: Manifest, ev: Evidence, i: nat, j: nat)
    requires WellFormed(m) && (forall k :: 0 <= k < |m.bugs| ==> m.bugs[k].file.Unpinned?)
    requires SingleSite(ev) && i < |m.bugs| && j < |m.bugs| && Matches(m.bugs[i], ev) && Matches(m.bugs[j], ev)
    ensures i == j
  {
    if i < j { assert Confusable(m.bugs[i], m.bugs[j]); ConfusionNeedsTwoFiles(m, i, j); }
    if j < i { assert Confusable(m.bugs[j], m.bugs[i]); ConfusionNeedsTwoFiles(m, j, i); }
  }

  /** Attribution in an accepted manifest that pins no file does not depend on
      the order of the bugs: any selection of them that holds the same bugs gives
      the same answer. */
  lemma AttributionIgnoresOrder(m: Manifest, ev: Evidence, one: seq<Entry>, other: seq<Entry>)
    requires WellFormed(m) && (forall k :: 0 <= k < |m.bugs| ==> m.bugs[k].file.Unpinned?) && SingleSite(ev)
    requires (forall b :: b in one ==> b in m.bugs) && (forall b :: b in one <==> b in other)
    ensures FirstMatch(one, ev) == FirstMatch(other, ev)
  {
    FirstMatchIsAMatch(one, ev);
    FirstMatchIsAMatch(other, ev);
    var a, b := FirstMatch(one, ev), FirstMatch(other, ev);
    if a.Some? && b.Some? {
      var i :| 0 <= i < |m.bugs| && m.bugs[i] == a.value;
      var j :| 0 <= j < |m.bugs| && m.bugs[j] == b.value;
      AcceptedIsUnambiguous(m, ev, i, j);
    }
  }

  // ------------------------------------------------------------ where it ends

  function PlainBug(id: string, symbol: string, file: FilePin): Entry {
    Entry(id, None, symbol, "p", "", file, [], Absent, Absent, None, Undeclared)
  }

  /** With pinned files the answer does depend on the order: the matcher never
      looks at the file. */
  lemma PinnedBugsAreConfused(ev: Evidence, lex: Lexicon)
    requires ev == Evidence("p", {"f"}, "")
    ensures var a, b := PlainBug("a", "f", Pin(FileRef([], "x.c"))), PlainBug("b", "f", Pin(FileRef([], "y.c")));
      && Accepted(Manifest(Absent, [a, b], []), lex) && SingleSite(ev)
      && FirstMatch([a, b], ev) == Some(a) && FirstMatch([b, a], ev) == Some(b)
  {
    var a, b := PlainBug("a", "f", Pin(FileRef([], "x.c"))), PlainBug("b", "f", Pin(FileRef([], "y.c")));
    TwoBugsAccepted(a, b, lex);
    assert Satisfies(Signatures(a)[0], ev) && Satisfies(Signatures(b)[0], ev);
  }

  /** So it does when the crash site carries two names. */
  lemma TwoNamesAreConfused(ev: Evidence, lex: Lexicon)
    requires ev == Evidence("p", {"f", "g"}, "")
    ensures var a, b := PlainBug("a", "f", Unpinned), PlainBug("b", "g", Unpinned);
      && Accepted(Manifest(Absent, [a, b], []), lex)
      && FirstMatch([a, b], ev) == Some(a) && FirstMatch([b, a], ev) == Some(b)
  {
    var a, b := PlainBug("a", "f", Unpinned), PlainBug("b", "g", Unpinned);
    TwoBugsAccepted(a, b, lex);
    assert Satisfies(Signatures(a)[0], ev) && Satisfies(Signatures(b)[0], ev);
  }

  lemma KeysOfTwo(a: Entry, b: Entry)
    requires a.alternates == [] && b.alternates == [] && Keyed(Signatures(a)[0]) && Keyed(Signatures(b)[0])
    ensures RuntimeKeys([a, b]) == [RuntimeKey(Stripped(Signatures(a)[0]), a), RuntimeKey(Stripped(Signatures(b)[0]), b)]
  {
    assert Signatures(a)[..0] == [] && Signatures(b)[..0] == [];
    assert [a, b][..1] == [a] && [a][..0] == [];
    var k, l := RuntimeKey(Stripped(Signatures(a)[0]), a), RuntimeKey(Stripped(Signatures(b)[0]), b);
    assert KeysFrom(Signatures(a), a) == [k] && KeysFrom(Signatures(b), b) == [l];
    assert RuntimeKeys([a]) == [k];
    assert RuntimeKeys([a, b]) == RuntimeKeys([a]) + KeysFrom(Signatures(b), b);
  }

  lemma TwoBugsAccepted(a: Entry, b: Entry, lex: Lexicon)
    requires a.alternates == [] && b.alternates == [] && EntryOk(a, Bugs) && EntryOk(b, Bugs)
    requires Strip(a.id) != Strip(b.id) && !EntriesClash(b, a, Bugs)
    ensures Accepted(Manifest(Absent, [a, b], []), lex)
  {
    TwoApart(a, b);
    TwoEntriesOk(a, b);
    BugsAccepted([a, b], lex);
  }

  lemma TwoApart(a: Entry, b: Entry)
    requires a.alternates == [] && b.alternates == [] && EntryOk(a, Bugs) && EntryOk(b, Bugs) && !EntriesClash(b, a, Bugs)
    ensures Apart(RuntimeKeys([a, b]))
  {
    KeysOfTwo(a, b);
  }

  lemma BugsAccepted(bugs: seq<Entry>, lex: Lexicon)
    requires ListOk(bugs, Bugs) && IdsDistinct(bugs) && Apart(RuntimeKeys(bugs)) && forall b :: b in bugs ==> b.alternates == []
    ensures Accepted(Manifest(Absent, bugs, []), lex)
  {
    assert bugs + [] == bugs;
  }

  lemma TwoEntriesOk(a: Entry, b: Entry)
    requires EntryOk(a, Bugs) && EntryOk(b, Bugs) && Strip(a.id) != Strip(b.id) && !EntriesClash(b, a, Bugs)
    ensures ListOk([a, b], Bugs) && IdsDistinct([a, b])
  {
  }

  lemma ListOfOne(e: Entry, list: List)
    requires EntryOk(e, list)
    ensures ListOk([e], list) && IdsDistinct([e])
  {
  }

  lemma OneBugAccepted(b: Entry, lex: Lexicon)
    requires b.alternates == [] && EntryOk(b, Bugs)
    ensures Accepted(Manifest(Absent, [b], []), lex)
  {
    ListOfOne(b, Bugs);
    assert [b][..0] == [] && Signatures(b)[..0] == [];
    assert KeysFrom(Signatures(b), b) == [RuntimeKey(Stripped(Signatures(b)[0]), b)];
    assert RuntimeKeys([b]) == KeysFrom(Signatures(b), b);
    assert [b] + [] == [b];
  }

  lemma NoBugsWellFormed(m: Manifest, t: Entry)
    requires m.bugs == [] && m.traps == [t] && EntryOk(t, Traps)
    ensures WellFormed(m)
  {
    ListOfOne(t, Traps);
    assert m.bugs + m.traps == m.traps;
    assert RuntimeKeys(m.bugs) == [];
  }

  lemma OneTrapAccepted(t: Entry, lex: Lexicon)
    requires EntryOk(t, Traps)
    ensures Accepted(Manifest(Absent, [], [t]), lex)
  {
    NoBugsWellFormed(Manifest(Absent, [], [t]), t);
  }
}
