/**
 Scoring confirmed crashes against a manifest (`score_subset` and what it calls
 in lib/benchmark.py): every crash is put in one class, and every scored bug is
 detected or missed.
 */
module Scoring {
  import opened Common
  import opened Whitespace
  import opened GroundTruth

  /** A confirmed crash and its runtime evidence, if it has a canonical artifact. */
  datatype Crash = Crash(name: string, evidence: Option<Evidence>)

  datatype Verdict = Unattributed | Detected(id: string) | TrapFired(id: string) | Unexpected

  function ObservedPrimitive(outcome: string): string {
    if outcome == "abort" then "ABRT" else outcome
  }

  predicate Fires(t: Entry, ev: Evidence) {
    && t.outcome != "" && t.outcome != "clean"
    && ObservedPrimitive(t.outcome) == ev.primitive
    && (t.symbol == "" || t.symbol in ev.site)
  }

  /** The first trap the evidence fires. */
  function FirstTrap(traps: seq<Entry>, ev: Evidence): Option<Entry> {
    if traps == [] then None else if Fires(traps[0], ev) then Some(traps[0]) else FirstTrap(traps[1..], ev)
  }

  /** `_match_trap`. */
  method MatchTrap(ev: Evidence, traps: seq<Entry>) returns (hit: Option<Entry>)
    ensures hit == FirstTrap(traps, ev)
  {
    for i := 0 to |traps|
      invariant FirstTrap(traps, ev) == FirstTrap(traps[i..], ev)
    {
      var t := traps[i];
      assert traps[i..][1..] == traps[i + 1..];
      if t.outcome == "" || t.outcome == "clean" { continue; }
      if ObservedPrimitive(t.outcome) != ev.primitive { continue; }
      if t.symbol != "" && t.symbol !in ev.site { continue; }
      return Some(t);
    }
    return None;
  }

  lemma {:induction false} FirstTrapIsFirst(traps: seq<Entry>, ev: Evidence, i: nat)
    requires i <= |traps| && forall k :: 0 <= k < i ==> !Fires(traps[k], ev)
    requires i < |traps| ==> Fires(traps[i], ev)
    ensures FirstTrap(traps, ev) == if i < |traps| then Some(traps[i]) else None
  {
    if i > 0 {
      assert i < |traps| ==> traps[1..][i - 1] == traps[i];
      FirstTrapIsFirst(traps[1..], ev, i - 1);
    }
  }

  /** A trap fires on the crash it expects: an abort, which the evidence spells
      ABRT, or the primitive it names, at a site its symbol allows. */
  lemma FiresExactly(t: Entry, ev: Evidence)
    ensures Fires(t, ev) <==>
      && t.outcome !in {"", "clean"} && ev.primitive == (if t.outcome == "abort" then "ABRT" else t.outcome)
      && (t.symbol == "" || t.symbol in ev.site)
  {
  }

  function Judge(c: Crash, bugs: seq<Entry>, traps: seq<Entry>): Verdict {
    if c.evidence.None? then Unattributed
    else
      var ev := c.evidence.value;
      var bug := FirstMatch(bugs, ev);
      if bug.Some? then Detected(bug.value.id)
      else
        var trap := FirstTrap(traps, ev);
        if trap.Some? then TrapFired(trap.value.id) else Unexpected
  }

  /** A crash with evidence is the first bug's that it matches; one that matches no
      bug is the first trap's that it fires; any other is unexpected.  One without
      evidence is nobody's. */
  lemma JudgedInOrder(c: Crash, bugs: seq<Entry>, traps: seq<Entry>, i: nat, j: nat)
    requires i <= |bugs| && j <= |traps|
    requires c.evidence.Some? ==> (i < |bugs| ==> Matches(bugs[i], c.evidence.value)) && (j < |traps| ==> Fires(traps[j], c.evidence.value))
    requires c.evidence.Some? ==> forall k :: 0 <= k < i ==> !Matches(bugs[k], c.evidence.value)
    requires c.evidence.Some? ==> forall k :: 0 <= k < j ==> !Fires(traps[k], c.evidence.value)
    ensures Judge(c, bugs, traps) ==
      if c.evidence.None? then Unattributed
      else if i < |bugs| then Detected(bugs[i].id)
      else if j < |traps| then TrapFired(traps[j].id)
      else Unexpected
  {
    if c.evidence.Some? {
      FirstMatchIsAMatch(bugs, c.evidence.value);
      if i < |bugs| { FirstMatchIsFirst(bugs, c.evidence.value, i); }
      FirstTrapIsFirst(traps, c.evidence.value, j);
    }
  }

  // ------------------------------------------------------------ what is scored

  /** A bug that can show as a crash and is not set aside. */
  predicate ForTheCrashOracle(m: Manifest, b: Entry) {
    !FindingsOnly(m, b) && !b.quarantined.Truthy()
  }

  predicate Scored(m: Manifest, b: Entry) {
    b.kind.UnwrapOr("real") == "real" && ForTheCrashOracle(m, b)
  }

  /** The bugs the crash oracle grades. */
  function RealBugs(m: Manifest): seq<Entry> {
    Filter((b: Entry) => Scored(m, b), m.bugs)
  }

  /** They are real, not findings-only by their own flag or, without one, by the
      manifest's, and not quarantined. */
  lemma RealBugsExactly(m: Manifest)
    ensures RealBugs(m) == Filter((b: Entry) =>
      && b.kind in {None, Some("real")}
      && (if b.findingsOnly.Absent? then m.findingsOnly else b.findingsOnly) !in {Given(true), Mistyped(true)}
      && b.quarantined !in {Given(true), Mistyped(true)}, m.bugs)
  {
    SameFilter((b: Entry) => Scored(m, b), (b: Entry) =>
      && b.kind in {None, Some("real")}
      && (if b.findingsOnly.Absent? then m.findingsOnly else b.findingsOnly) !in {Given(true), Mistyped(true)}
      && b.quarantined !in {Given(true), Mistyped(true)}, m.bugs);
  }

  // ------------------------------------------------------------ groups, in the order of their first member

  datatype Group = Group(id: string, names: seq<string>)

  function Added(groups: seq<Group>, id: string, name: string): seq<Group> {
    if groups == [] then [Group(id, [name])]
    else if groups[0].id == id then [Group(id, groups[0].names + [name])] + groups[1..]
    else [groups[0]] + Added(groups[1..], id, name)
  }

  function NamesOf(groups: seq<Group>, id: string): seq<string> {
    if groups == [] then [] else if groups[0].id == id then groups[0].names else NamesOf(groups[1..], id)
  }

  function Size(groups: seq<Group>): nat {
    if groups == [] then 0 else |groups[0].names| + Size(groups[1..])
  }

  predicate Has(groups: seq<Group>, id: string) {
    exists i :: 0 <= i < |groups| && groups[i].id == id
  }

  predicate OneGroupEach(groups: seq<Group>) {
    && (forall i, j :: 0 <= i < j < |groups| ==> groups[i].id != groups[j].id)
    && (forall i :: 0 <= i < |groups| ==> groups[i].names != [])
  }

  /** Groups keep their places, and a new one goes last. */
  lemma {:induction false} AddingKeepsPlaces(groups: seq<Group>, id: string, name: string)
    ensures var g := Added(groups, id, name);
      && |g| == |groups| + (if Has(groups, id) then 0 else 1)
      && (forall i :: 0 <= i < |groups| ==> g[i].id == groups[i].id)
      && (!Has(groups, id) ==> g[|groups|] == Group(id, [name]))
  {
    if groups != [] && groups[0].id != id {
      AddingKeepsPlaces(groups[1..], id, name);
      HasFirst(groups);
    }
  }

  lemma {:induction false} AddingIsExact(groups: seq<Group>, id: string, name: string)
    requires OneGroupEach(groups)
    ensures var g := Added(groups, id, name);
      && OneGroupEach(g) && Size(g) == Size(groups) + 1
      && (forall k :: NamesOf(g, k) == if k == id then NamesOf(groups, k) + [name] else NamesOf(groups, k))
      && (forall k :: Has(g, k) <==> k == id || Has(groups, k))
  {
    var g := Added(groups, id, name);
    if groups == [] {
      assert g[0].id == id;
    } else if groups[0].id == id {
      assert g[0].id == id && g[1..] == groups[1..];
      forall k ensures Has(g, k) <==> k == id || Has(groups, k) {
        if Has(groups, k) { var i :| 0 <= i < |groups| && groups[i].id == k; assert g[i].id == k; }
        if Has(g, k) { var i :| 0 <= i < |g| && g[i].id == k; assert groups[i].id == k; }
      }
    } else {
      var rest := groups[1..];
      assert OneGroupEach(rest) by {
        forall i, j | 0 <= i < j < |rest| ensures rest[i].id != rest[j].id { assert rest[i] == groups[i + 1] && rest[j] == groups[j + 1]; }
      }
      AddingIsExact(rest, id, name);
      HasFirst(groups);
      HasFirst(g);
      assert g[1..] == Added(rest, id, name);
      FirstStaysNew(g);
    }
  }

  lemma HasFirst(groups: seq<Group>)
    requires groups != []
    ensures forall k :: Has(groups, k) <==> k == groups[0].id || Has(groups[1..], k)
  {
    forall k ensures Has(groups, k) <==> k == groups[0].id || Has(groups[1..], k) {
      if Has(groups, k) {
        var i :| 0 <= i < |groups| && groups[i].id == k;
        if i > 0 { assert groups[1..][i - 1].id == k; }
      }
      if Has(groups[1..], k) {
        var i :| 0 <= i < |groups[1..]| && groups[1..][i].id == k;
        assert groups[i + 1].id == k;
      }
    }
  }

  lemma FirstStaysNew(groups: seq<Group>)
    requires groups != [] && OneGroupEach(groups[1..]) && !Has(groups[1..], groups[0].id) && groups[0].names != []
    ensures OneGroupEach(groups)
  {
    forall i, j | 0 <= i < j < |groups| ensures groups[i].id != groups[j].id {
      assert groups[j] == groups[1..][j - 1];
      if i > 0 { assert groups[i] == groups[1..][i - 1]; }
    }
    forall i | 0 <= i < |groups| ensures groups[i].names != [] {
      if i > 0 { assert groups[i] == groups[1..][i - 1]; }
    }
  }

  // ------------------------------------------------------------ one score

  /** The names of the crashes judged `v`, in order. */
  function NamesWhere(items: seq<Crash>, bugs: seq<Entry>, traps: seq<Entry>, v: Verdict): seq<string> {
    if items == [] then []
    else
      var c := items[|items| - 1];
      NamesWhere(items[..|items| - 1], bugs, traps, v) + if Judge(c, bugs, traps) == v then [c.name] else []
  }

  /** They are the names of those crashes, each as often as it has one. */
  lemma {:induction false} NamesAreInOrder(items: seq<Crash>, bugs: seq<Entry>, traps: seq<Entry>, v: Verdict)
    ensures var judged := Filter((c: Crash) => Judge(c, bugs, traps) == v, items);
      var names := NamesWhere(items, bugs, traps, v);
      |names| == |judged| && forall k :: 0 <= k < |names| ==> names[k] == judged[k].name
  {
    if items != [] { NamesAreInOrder(items[..|items| - 1], bugs, traps, v); }
  }

  datatype Tally = Tally(detected: seq<Group>, fired: seq<Group>, unexpected: seq<string>, unattributed: seq<string>)

  /** A tally holds each crash of `items` in the one class it is judged to be in. */
  ghost predicate TallyOf(t: Tally, items: seq<Crash>, bugs: seq<Entry>, traps: seq<Entry>) {
    && OneGroupEach(t.detected) && OneGroupEach(t.fired)
    && (forall id :: NamesOf(t.detected, id) == NamesWhere(items, bugs, traps, Detected(id)))
    && (forall id :: NamesOf(t.fired, id) == NamesWhere(items, bugs, traps, TrapFired(id)))
    && t.unexpected == NamesWhere(items, bugs, traps, Unexpected)
    && t.unattributed == NamesWhere(items, bugs, traps, Unattributed)
  }

  function Counted(t: Tally): nat {
    Size(t.detected) + Size(t.fired) + |t.unexpected| + |t.unattributed|
  }

  function Filed(t: Tally, v: Verdict, name: string): Tally {
    match v
    case Unattributed => t.(unattributed := t.unattributed + [name])
    case Detected(id) => t.(detected := Added(t.detected, id, name))
    case TrapFired(id) => t.(fired := Added(t.fired, id, name))
    case Unexpected => t.(unexpected := t.unexpected + [name])
  }

  lemma FilingIsExact(t: Tally, before: seq<Crash>, c: Crash, bugs: seq<Entry>, traps: seq<Entry>)
    requires TallyOf(t, before, bugs, traps)
    ensures var u := Filed(t, Judge(c, bugs, traps), c.name);
      TallyOf(u, before + [c], bugs, traps) && Counted(u) == Counted(t) + 1
  {
    var v := Judge(c, bugs, traps);
    assert (before + [c])[..|before|] == before;
    forall w ensures NamesWhere(before + [c], bugs, traps, w)
      == NamesWhere(before, bugs, traps, w) + if v == w then [c.name] else [] {}
    match v {
      case Unattributed =>
      case Detected(id) => AddingIsExact(t.detected, id, c.name);
      case TrapFired(id) => AddingIsExact(t.fired, id, c.name);
      case Unexpected =>
    }
  }

  function IsDetected(detected: seq<Group>): Entry -> bool {
    (b: Entry) => Has(detected, b.id)
  }

  function IsMissed(detected: seq<Group>): Entry -> bool {
    (b: Entry) => !Has(detected, b.id)
  }

  datatype Score = Score(tally: Tally, detectedBugs: nat, missed: seq<Entry>, truePositives: nat, falsePositives: nat)

  /** Put one crash in its class. */
  method FileCrash(t: Tally, c: Crash, bugs: seq<Entry>, traps: seq<Entry>) returns (u: Tally)
    ensures u == Filed(t, Judge(c, bugs, traps), c.name)
  {
    if c.evidence.None? { return t.(unattributed := t.unattributed + [c.name]); }
    var hit := MatchReal(c.evidence.value, bugs);
    if hit.Some? { return t.(detected := Added(t.detected, hit.value.id, c.name)); }
    var trap := MatchTrap(c.evidence.value, traps);
    if trap.Some? {
      u := t.(fired := Added(t.fired, trap.value.id, c.name));
    } else {
      u := t.(unexpected := t.unexpected + [c.name]);
    }
  }

  lemma FilingAt(t: Tally, items: seq<Crash>, i: nat, bugs: seq<Entry>, traps: seq<Entry>)
    requires i < |items| && TallyOf(t, items[..i], bugs, traps)
    ensures var u := Filed(t, Judge(items[i], bugs, traps), items[i].name);
      TallyOf(u, items[..i + 1], bugs, traps) && Counted(u) == Counted(t) + 1
  {
    assert items[..i + 1] == items[..i] + [items[i]];
    FilingIsExact(t, items[..i], items[i], bugs, traps);
  }

  method FileCrashes(items: seq<Crash>, bugs: seq<Entry>, traps: seq<Entry>) returns (t: Tally)
    ensures TallyOf(t, items, bugs, traps) && Counted(t) == |items|
  {
    t := Tally([], [], [], []);
    for i := 0 to |items|
      invariant TallyOf(t, items[..i], bugs, traps) && Counted(t) == i
    {
      FilingAt(t, items, i, bugs, traps);
      t := FileCrash(t, items[i], bugs, traps);
    }
    assert items[..|items|] == items;
  }

  /** `score_subset`.  Every crash falls in exactly one class, the true and the
      false positives add up to the crashes, and every scored bug is detected
      or missed. */
  method ScoreSubset(items: seq<Crash>, bugs: seq<Entry>, traps: seq<Entry>) returns (s: Score)
    ensures TallyOf(s.tally, items, bugs, traps)
    ensures forall id :: NamesOf(s.tally.detected, id) == NamesWhere(items, bugs, traps, Detected(id))
    ensures forall id :: NamesOf(s.tally.fired, id) == NamesWhere(items, bugs, traps, TrapFired(id))
    ensures s.tally.unexpected == NamesWhere(items, bugs, traps, Unexpected)
    ensures s.tally.unattributed == NamesWhere(items, bugs, traps, Unattributed)
    ensures s.truePositives == Size(s.tally.detected)
    ensures s.falsePositives == Size(s.tally.fired) + |s.tally.unexpected| + |s.tally.unattributed|
    ensures s.truePositives + s.falsePositives == |items|
    ensures s.missed == Filter(IsMissed(s.tally.detected), bugs)
    ensures s.detectedBugs == |Filter(IsDetected(s.tally.detected), bugs)|
    ensures s.detectedBugs + |s.missed| == |bugs|
  {
    var t := FileCrashes(items, bugs, traps);
    var found, missed := CountBugs(bugs, t.detected);
    s := Score(t, found, missed, Size(t.detected), Size(t.fired) + |t.unexpected| + |t.unattributed|);
  }

  method CountBugs(bugs: seq<Entry>, detected: seq<Group>) returns (found: nat, missed: seq<Entry>)
    ensures found == |Filter(IsDetected(detected), bugs)|
    ensures missed == Filter(IsMissed(detected), bugs)
    ensures found + |missed| == |bugs|
  {
    found, missed := 0, [];
    for i := 0 to |bugs|
      invariant found == |Filter(IsDetected(detected), bugs[..i])|
      invariant missed == Filter(IsMissed(detected), bugs[..i])
      invariant found + |missed| == i
    {
      FilterStep(IsDetected(detected), bugs, i);
      FilterStep(IsMissed(detected), bugs, i);
      if Has(detected, bugs[i].id) { found := found + 1; } else { missed := missed + [bugs[i]]; }
    }
    assert bugs[..|bugs|] == bugs;
  }

  // ------------------------------------------------------------ detected and missed partition the bugs

  ghost predicate DistinctIds(bugs: seq<Entry>) {
    forall i, j :: 0 <= i < j < |bugs| ==> bugs[i].id != bugs[j].id
  }

  lemma {:induction false} GroupIsJudged(items: seq<Crash>, bugs: seq<Entry>, traps: seq<Entry>, id: string)
    requires NamesWhere(items, bugs, traps, Detected(id)) != []
    ensures exists b :: b in bugs && b.id == id
  {
    var c := items[|items| - 1];
    if Judge(c, bugs, traps) == Detected(id) {
      FirstMatchIsAMatch(bugs, c.evidence.value);
    } else {
      GroupIsJudged(items[..|items| - 1], bugs, traps, id);
    }
  }

  lemma {:induction false} NamesOfGroup(groups: seq<Group>, i: nat)
    requires OneGroupEach(groups) && i < |groups|
    ensures NamesOf(groups, groups[i].id) == groups[i].names
  {
    if i > 0 {
      var rest := groups[1..];
      assert groups[i] == rest[i - 1] && groups[0].id != groups[i].id;
      assert forall j :: 0 <= j < |rest| ==> rest[j] == groups[j + 1];
      NamesOfGroup(rest, i - 1);
    }
  }

  /** Every id in the detected groups is a scored bug's. */
  lemma DetectedAreBugs(t: Tally, items: seq<Crash>, bugs: seq<Entry>, traps: seq<Entry>, i: nat)
    requires TallyOf(t, items, bugs, traps) && i < |t.detected|
    ensures exists b :: b in bugs && b.id == t.detected[i].id
  {
    NamesOfGroup(t.detected, i);
    GroupIsJudged(items, bugs, traps, t.detected[i].id);
  }

  lemma {:induction false} DistinctCount(s: seq<string>, all: set<string>)
    requires Distinct(s) && all == set x | x in s
    ensures |all| == |s|
  {
    if s != [] {
      var rest, x := s[..|s| - 1], s[|s| - 1];
      assert s == rest + [x];
      forall y | y in rest ensures y != x { var i :| 0 <= i < |rest| && rest[i] == y; assert s[i] == y; }
      assert all == (set y | y in rest) + {x};
      DistinctCount(rest, set y | y in rest);
    }
  }

  lemma {:induction false} FilterKeepsDistinctIds(p: Entry -> bool, bugs: seq<Entry>)
    requires DistinctIds(bugs)
    ensures DistinctIds(Filter(p, bugs))
  {
    if bugs != [] {
      var rest, last := bugs[..|bugs| - 1], bugs[|bugs| - 1];
      FilterKeepsDistinctIds(p, rest);
      forall b | b in Filter(p, rest) ensures b.id != last.id {
        var i :| 0 <= i < |rest| && rest[i] == b;
        assert bugs[i] == b;
      }
    }
  }

  /** With distinct ids the detected groups are exactly the detected bugs: the
      numerator of recall counts each of them once. */
  lemma DetectedBugsAreTheGroups(t: Tally, items: seq<Crash>, bugs: seq<Entry>, traps: seq<Entry>)
    requires TallyOf(t, items, bugs, traps) && DistinctIds(bugs)
    ensures |Filter(IsDetected(t.detected), bugs)| == |t.detected|
  {
    var hits := Filter(IsDetected(t.detected), bugs);
    FilterKeepsDistinctIds(IsDetected(t.detected), bugs);
    var a := seq(|hits|, i requires 0 <= i < |hits| => hits[i].id);
    var b := seq(|t.detected|, i requires 0 <= i < |t.detected| => t.detected[i].id);
    var all := set x | x in b;
    assert Distinct(a) && Distinct(b);
    forall x ensures x in a <==> x in b {
      if x in a {
        var i :| 0 <= i < |a| && a[i] == x;
        assert hits[i] in hits && Has(t.detected, x);
        var j :| 0 <= j < |t.detected| && t.detected[j].id == x;
        assert b[j] == x;
      }
      if x in b {
        var j :| 0 <= j < |b| && b[j] == x;
        DetectedAreBugs(t, items, bugs, traps, j);
        var e :| e in bugs && e.id == x;
        assert t.detected[j].id == e.id && e in hits;
        var i :| 0 <= i < |hits| && hits[i] == e;
        assert a[i] == x;
      }
    }
    DistinctCount(a, all);
    DistinctCount(b, all);
  }

  /** An accepted manifest gives the scorer bugs with distinct ids. */
  lemma AcceptedIdsAreDistinct(m: Manifest)
    requires WellFormed(m)
    ensures DistinctIds(RealBugs(m))
  {
    forall i, j | 0 <= i < j < |m.bugs| ensures m.bugs[i].id != m.bugs[j].id {
      assert (m.bugs + m.traps)[i] == m.bugs[i] && (m.bugs + m.traps)[j] == m.bugs[j];
    }
    FilterKeepsDistinctIds((b: Entry) => Scored(m, b), m.bugs);
  }

  // ------------------------------------------------------------ order

  /** The verdict on a crash at a single function does not depend on the order in
      which an accepted manifest that pins no file lists its bugs. */
  lemma VerdictIgnoresOrder(m: Manifest, c: Crash, one: seq<Entry>, other: seq<Entry>, traps: seq<Entry>)
    requires WellFormed(m) && (forall k :: 0 <= k < |m.bugs| ==> m.bugs[k].file.Unpinned?)
    requires c.evidence.Some? ==> SingleSite(c.evidence.value)
    requires (forall b :: b in one ==> b in m.bugs) && (forall b :: b in one <==> b in other)
    ensures Judge(c, one, traps) == Judge(c, other, traps)
  {
    if c.evidence.Some? { AttributionIgnoresOrder(m, c.evidence.value, one, other); }
  }

  // ------------------------------------------------------------ blanks the validator strips

  /** No blank at either end. */
  predicate Bare(s: string) {
    Strip(s) == s
  }

  /** The planted bugs a crash can show. */
  function CrashBugs(m: Manifest): seq<Entry> {
    Filter((b: Entry) => ForTheCrashOracle(m, b), m.bugs)
  }

  lemma {:induction false} NarrowerFilter(p: Entry -> bool, q: Entry -> bool, s: seq<Entry>)
    requires forall b :: p(b) ==> q(b)
    ensures |Filter(p, s)| <= |Filter(q, s)|
    ensures |Filter(p, s)| == |Filter(q, s)| <==> forall b :: b in s && q(b) ==> p(b)
    ensures |Filter(p, s)| == |Filter(q, s)| <==> Filter(p, s) == Filter(q, s)
  {
    if s != [] {
      var rest, last := s[..|s| - 1], s[|s| - 1];
      NarrowerFilter(p, q, rest);
      assert s == rest + [last];
      assert forall b :: b in s <==> b in rest || b == last;
    }
  }

  /** The recall denominator of an accepted manifest holds every planted bug that
      a crash can show exactly when none of them spells its kind with a blank at
      an end: the validator strips the kind it reads and the scorer does not. */
  lemma DenominatorIsWholeExactlyWhenKindsAreBare(m: Manifest)
    requires WellFormed(m)
    ensures RealBugs(m) == CrashBugs(m) <==> forall b :: b in CrashBugs(m) ==> Bare(b.kind.UnwrapOr("real"))
    ensures |RealBugs(m)| < |CrashBugs(m)| <==> exists b :: b in CrashBugs(m) && !Bare(b.kind.UnwrapOr("real"))
  {
    KindIsReal();
    NarrowerFilter((b: Entry) => Scored(m, b), (b: Entry) => ForTheCrashOracle(m, b), m.bugs);
    forall b | b in CrashBugs(m) ensures Bare(b.kind.UnwrapOr("real")) <==> Scored(m, b) {
      assert EntryOk(b, Bugs);
    }
  }

  lemma KindIsReal()
    ensures Bare("real")
  {
  }

  /** What a sanitizer reports carries no blanks. */
  predicate BareEvidence(ev: Evidence) {
    Bare(ev.primitive) && Bare(ev.access) && forall f :: f in ev.site ==> Bare(f)
  }

  predicate BareSignature(s: Signature) {
    Bare(s.primitive) && Bare(s.symbol) && Bare(s.access)
  }

  lemma SatisfiedIsBare(s: Signature, ev: Evidence)
    requires s.primitive != "" && s.symbol != "" && BareEvidence(ev) && Satisfies(s, ev)
    ensures BareSignature(s)
  {
    NothingIsBare();
  }

  lemma BareIsSatisfiable(s: Signature) returns (ev: Evidence)
    requires s.primitive != "" && BareSignature(s)
    ensures BareEvidence(ev) && Satisfies(s, ev)
  {
    ev := Evidence(s.primitive, {s.symbol}, s.access);
  }

  /** A planted bug of an accepted manifest can be detected at all exactly when
      one of its signatures is spelled without blanks at the ends: the validator
      strips what it reads and the matcher does not. */
  lemma DetectableExactlyWhenSpeltBare(m: Manifest, b: Entry)
    requires WellFormed(m) && b in m.bugs
    ensures (exists ev :: BareEvidence(ev) && Matches(b, ev)) <==> exists s :: s in Signatures(b) && BareSignature(s)
  {
    AcceptedIsFilled(m, b);
    if ev :| BareEvidence(ev) && Matches(b, ev) {
      var s :| s in Signatures(b) && Satisfies(s, ev);
      SatisfiedIsBare(s, ev);
    }
    if s :| s in Signatures(b) && BareSignature(s) {
      var ev := BareIsSatisfiable(s);
      assert Matches(b, ev);
    }
  }

  lemma NothingIsBare()
    ensures Bare("")
  {
  }

  lemma AcceptedIsFilled(m: Manifest, b: Entry)
    requires WellFormed(m) && b in m.bugs
    ensures Filled(b)
  {
    NothingIsBare();
    var i :| 0 <= i < |m.bugs| && m.bugs[i] == b;
    assert EntryOk(m.bugs[i], Bugs);
    forall s | s in Signatures(b) ensures s.primitive != "" && s.symbol != "" {
      assert s in m.bugs[i].alternates ==> AlternateOk(s);
    }
  }

  lemma OutcomesAreBare()
    ensures Bare("ABRT") && Bare("abort")
  {
  }

  /** A trap that expects some crash can fire exactly when its outcome and its
      symbol are spelled so. */
  lemma TrapFiresExactlyWhenSpeltBare(m: Manifest, t: Entry)
    requires WellFormed(m) && t in m.traps
    ensures (exists ev :: BareEvidence(ev) && Fires(t, ev)) <==> t.outcome != "clean" && Bare(t.outcome) && Bare(t.symbol)
  {
    NothingIsBare();
    OutcomesAreBare();
    var i :| 0 <= i < |m.traps| && m.traps[i] == t;
    assert EntryOk(m.traps[i], Traps);
    if t.outcome != "clean" && Bare(t.outcome) && Bare(t.symbol) {
      var ev := Evidence(ObservedPrimitive(t.outcome), {t.symbol}, "");
      assert BareEvidence(ev) && Fires(t, ev);
    }
  }

  /** The validator strips the kind it reads and the scorer does not: a bug whose
      kind carries a blank is accepted, and dropped from the recall denominator. */
  lemma BlankInKindDropsABug(b: Entry, lex: Lexicon)
    requires EntryOk(b, Bugs) && b.kind.Some? && b.kind.value != "real" && b.alternates == []
    ensures Accepted(Manifest(Absent, [b], []), lex) && RealBugs(Manifest(Absent, [b], [])) == []
  {
    OneBugAccepted(b, lex);
  }

  /** Such manifests: a kind, a symbol and an outcome with a blank in front. */
  lemma KindSpelledWithABlank(lex: Lexicon)
    ensures var m := Manifest(Absent, [PlainBug("a", "f", Unpinned).(kind := Some(" real"))], []);
      Accepted(m, lex) && RealBugs(m) == [] && |CrashBugs(m)| == 1
  {
    var b := PlainBug("a", "f", Unpinned).(kind := Some(" real"));
    BlankInKindDropsABug(b, lex);
    assert [b][..0] == [];
  }

  lemma SymbolSpelledWithABlank(lex: Lexicon)
    ensures var b := PlainBug("a", " f", Unpinned);
      Accepted(Manifest(Absent, [b], []), lex) && forall ev :: BareEvidence(ev) ==> !Matches(b, ev)
  {
    var b := PlainBug("a", " f", Unpinned);
    OneBugAccepted(b, lex);
    assert !BareSignature(Signatures(b)[0]);
    DetectableExactlyWhenSpeltBare(Manifest(Absent, [b], []), b);
  }

  function PlainTrap(id: string, symbol: string, outcome: string): Entry {
    Entry(id, None, symbol, "", outcome, Unpinned, [], Absent, Absent, None, Undeclared)
  }

  lemma OutcomeSpelledWithABlank(lex: Lexicon)
    ensures var t := PlainTrap("t", "f", " abort");
      Accepted(Manifest(Absent, [], [t]), lex) && forall ev :: BareEvidence(ev) ==> !Fires(t, ev)
  {
    var t := PlainTrap("t", "f", " abort");
    OneTrapAccepted(t, lex);
    TrapFiresExactlyWhenSpeltBare(Manifest(Absent, [], [t]), t);
  }
}
