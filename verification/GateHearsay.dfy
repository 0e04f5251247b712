/**
 The gate without the hypothesis that a session names only findings whose
 filing session has ended.  Touches are recorded when a session ends
 (`SealedGateWorker.attribute` in lib/audit_runner.py), so a reader that names a
 finding and is over first takes it from the wide rule to the rule of touches
 while its author still writes.
 */
module GateHearsay {
  import opened GateRules
  import opened GateProtocol

  ghost predicate RunsOnHearsay(w: World, steps: seq<Step>)
    decreases |steps|
  {
    steps == [] || (Possible(w, steps[0]) && RunsOnHearsay(Next(w, steps[0]), steps[1..]))
  }

  ghost function AfterHearsay(w: World, steps: seq<Step>): World
    requires RunsOnHearsay(w, steps)
    decreases |steps|
  {
    if steps == [] then w else AfterHearsay(Next(w, steps[0]), steps[1..])
  }

  /** What is left of the filings: every finding was complete only after the
      chain that filed it had begun. */
  ghost predicate FiledInTime(w: World) {
    forall a :: a in w.author ==>
      && a.Finding? && Existed(w, a)
      && (a in w.completedAt ==> w.author[a].began < w.completedAt[a])
      && w.author[a].began <= w.actual.clock
  }

  lemma KeepsFiledInTime(w: World, step: Step)
    requires Timely(w) && Witnessed(w) && FiledInTime(w) && Possible(w, step)
    ensures FiledInTime(Next(w, step))
  {
    var v := Next(w, step);
    assert v.actual.clock > w.actual.clock;
    if step.Gating? {
      assert v.author == w.author && v.disk == w.disk && v.gone == w.gone;
      assert forall a :: a in v.completedAt ==> a in w.completedAt && v.completedAt[a] == w.completedAt[a];
    }
  }

  lemma {:induction false} EveryHearsayRunKeeps(w: World, steps: seq<Step>)
    requires Coupled(w) && Witnessed(w) && FiledInTime(w) && RunsOnHearsay(w, steps)
    ensures var v := AfterHearsay(w, steps); Coupled(v) && Witnessed(v) && FiledInTime(v)
    decreases |steps|
  {
    if steps != [] {
      KeepsCoupled(w, steps[0]);
      KeepsWitnessed(w, steps[0]);
      KeepsFiledInTime(w, steps[0]);
      EveryHearsayRunKeeps(Next(w, steps[0]), steps[1..]);
    }
  }

  lemma LiveAuthorFailsTheWideRule(w: World, a: Artifact)
    requires Coupled(w) && Witnessed(w) && FiledInTime(w)
    requires a in w.author && AuthorInFlight(w, a) && a in w.gate.firstSeen
    ensures !BeforeEveryChain(w.gate, w.gate.firstSeen[a])
  {
    var p := w.author[a].slot;
    assert w.actual.chains[p] < w.completedAt[a] <= w.actual.firstSeen[a];
    assert p in w.gate.chains && !(w.gate.firstSeen[a] < w.gate.chains[p]);
  }

  /** Without the hypothesis a finding is sealed under the chain that filed it
      exactly when some ended session is on record as naming it and every such
      session belongs to a chain that is over. */
  lemma LiveFindingSealsExactlyOnHearsay(start: World, steps: seq<Step>, w: World, a: Artifact)
    requires Fresh(start) && RunsOnHearsay(start, steps) && w == AfterHearsay(start, steps)
    requires a in w.author && AuthorInFlight(w, a) && a in w.gate.firstSeen
    ensures SealedByRule(w.gate, a) <==>
      a in w.gate.touched && forall s :: s in w.gate.touched[a] && s in w.gate.chains ==> w.gate.touched[a][s] < w.gate.chains[s]
  {
    FreshHolds(start);
    EveryHearsayRunKeeps(start, steps);
    LiveAuthorFailsTheWideRule(w, a);
  }

  // ------------------------------------------------------------ a run

  lemma OneMoreHeard(w: World, step: Step, steps: seq<Step>)
    requires Possible(w, step) && RunsOnHearsay(Next(w, step), steps)
    ensures RunsOnHearsay(w, [step] + steps) && AfterHearsay(w, [step] + steps) == AfterHearsay(Next(w, step), steps)
  {
    assert ([step] + steps)[1..] == steps;
  }

  /** Two steps in front of a run. */
  lemma TwoMoreHeard(w: World, two: seq<Step>, rest: seq<Step>)
    requires |two| == 2 && RunsOnHearsay(w, two) && RunsOnHearsay(AfterHearsay(w, two), rest)
    ensures RunsOnHearsay(w, two + rest) && AfterHearsay(w, two + rest) == AfterHearsay(AfterHearsay(w, two), rest)
  {
    var u := Next(w, two[0]);
    assert two[1..] == [two[1]] && [two[1]][1..] == [];
    assert AfterHearsay(w, two) == AfterHearsay(u, two[1..]);
    assert Possible(u, two[1]) && AfterHearsay(u, [two[1]]) == AfterHearsay(Next(u, two[1]), []);
    OneMoreHeard(u, two[1], rest);
    OneMoreHeard(w, two[0], [two[1]] + rest);
    assert two + rest == [two[0]] + ([two[1]] + rest);
  }

  function BothLaunch(author: Slot, reader: Slot): seq<Step> {
    [Gating(Launch(author, false)), Gating(Launch(reader, false))]
  }

  function FiledAndSeen(author: Slot, f: Artifact): seq<Step> {
    [Write(author, f, true), Gating(Stamp({f}, {}))]
  }

  function ReaderEnds(reader: Slot, f: Artifact): seq<Step> {
    [End(reader, {f}), Reap]
  }

  function ReaderLeaves(reader: Slot, f: Artifact): seq<Step> {
    [Gating(Attribute(reader, {f})), Gating(Retire(reader))]
  }

  function HearsayRun(author: Slot, reader: Slot, f: Artifact): seq<Step> {
    BothLaunch(author, reader) + (FiledAndSeen(author, f) + (ReaderEnds(reader, f) + ReaderLeaves(reader, f)))
  }

  lemma TwoSteps(w: World, one: Step, two: Step)
    requires Possible(w, one) && Possible(Next(w, one), two)
    ensures RunsOnHearsay(w, [one, two]) && AfterHearsay(w, [one, two]) == Next(Next(w, one), two)
  {
    OneMoreHeard(Next(w, one), two, []);
    OneMoreHeard(w, one, [two]);
    assert [two] == [two] + [] && [one, two] == [one] + [two];
  }

  lemma TheyLaunch(w: World, author: Slot, reader: Slot) returns (v: World)
    requires w.stage == map[] && author != reader
    ensures RunsOnHearsay(w, BothLaunch(author, reader)) && v == AfterHearsay(w, BothLaunch(author, reader))
    ensures v.stage == map[author := Running({}), reader := Running({})] && author in v.actual.chains
    ensures v.gate == Launched(Launched(w.gate, author, false), reader, false)
    ensures v.disk == w.disk && v.gone == w.gone && v.author == w.author
  {
    TwoSteps(w, Gating(Launch(author, false)), Gating(Launch(reader, false)));
    v := AfterHearsay(w, BothLaunch(author, reader));
  }

  lemma AuthorWrites(w: World, author: Slot, reader: Slot, f: Artifact) returns (v: World)
    requires author != reader && w.stage == map[author := Running({}), reader := Running({})] && author in w.actual.chains
    requires f.Finding? && f !in w.disk && f !in w.gone && f !in w.author
    ensures Possible(w, Write(author, f, true)) && v == Next(w, Write(author, f, true))
    ensures v.stage == map[author := Running({f}), reader := Running({})]
    ensures v.gate == w.gate && v.disk == w.disk[f := true] && v.gone == w.gone && v.actual.chains == w.actual.chains
    ensures v.author == w.author[f := Filing(author, w.actual.chains[author])]
  {
    v := Next(w, Write(author, f, true));
    assert {} + {f} == {f};
  }

  lemma LookPasses(w: World, f: Artifact) returns (v: World)
    requires Complete(w, f)
    ensures Possible(w, Gating(Stamp({f}, {}))) && v == Next(w, Gating(Stamp({f}, {})))
    ensures v.gate == Stamped(w.gate, {f}, {}) && v.stage == w.stage && v.disk == w.disk && v.gone == w.gone
    ensures v.actual.chains == w.actual.chains && v.author == w.author
  {
    v := Next(w, Gating(Stamp({f}, {})));
  }

  lemma AuthorFiles(w: World, author: Slot, reader: Slot, f: Artifact) returns (v: World)
    requires author != reader && w.stage == map[author := Running({}), reader := Running({})] && author in w.actual.chains
    requires f.Finding? && f !in w.disk && f !in w.gone && f !in w.author
    ensures RunsOnHearsay(w, FiledAndSeen(author, f)) && v == AfterHearsay(w, FiledAndSeen(author, f))
    ensures v.stage == map[author := Running({f}), reader := Running({})]
    ensures v.gate == Stamped(w.gate, {f}, {}) && Complete(v, f) && f !in v.gone
    ensures author in v.actual.chains && f in v.author && v.author[f] == Filing(author, v.actual.chains[author])
  {
    var u := AuthorWrites(w, author, reader, f);
    v := LookPasses(u, f);
    TwoSteps(w, Write(author, f, true), Gating(Stamp({f}, {})));
  }

  lemma ReaderEndsNaming(w: World, author: Slot, reader: Slot, f: Artifact) returns (v: World)
    requires author != reader && w.stage == map[author := Running({f}), reader := Running({})]
    ensures Possible(w, End(reader, {f})) && v == Next(w, End(reader, {f}))
    ensures v.stage == map[author := Running({f}), reader := Ended({f})]
    ensures v.gate == w.gate && v.disk == w.disk && v.gone == w.gone && v.author == w.author && v.actual.chains == w.actual.chains
  {
    v := Next(w, End(reader, {f}));
  }

  lemma ReaderIsReaped(w: World, author: Slot, reader: Slot, f: Artifact) returns (v: World)
    requires author != reader && w.stage == map[author := Running({f}), reader := Ended({f})]
    ensures Possible(w, Reap) && v == Next(w, Reap)
    ensures v.stage == map[author := Running({f}), reader := Reaped({f})]
    ensures v.gate == w.gate && v.disk == w.disk && v.gone == w.gone && v.author == w.author && v.actual.chains == w.actual.chains
  {
    v := Next(w, Reap);
  }

  lemma ReaderIsCollected(w: World, author: Slot, reader: Slot, f: Artifact) returns (v: World)
    requires author != reader && w.stage == map[author := Running({f}), reader := Running({})]
    ensures RunsOnHearsay(w, ReaderEnds(reader, f)) && v == AfterHearsay(w, ReaderEnds(reader, f))
    ensures v.stage == map[author := Running({f}), reader := Reaped({f})]
    ensures v.gate == w.gate && v.disk == w.disk && v.gone == w.gone && v.author == w.author && v.actual.chains == w.actual.chains
  {
    var u := ReaderEndsNaming(w, author, reader, f);
    v := ReaderIsReaped(u, author, reader, f);
    TwoSteps(w, End(reader, {f}), Reap);
  }

  lemma ReaderIsNamed(w: World, author: Slot, reader: Slot, f: Artifact) returns (v: World)
    requires author != reader && w.stage == map[author := Running({f}), reader := Reaped({f})]
    ensures Possible(w, Gating(Attribute(reader, {f}))) && v == Next(w, Gating(Attribute(reader, {f})))
    ensures v.stage == map[author := Running({f}), reader := Settled]
    ensures v.gate == Attributed(w.gate, reader, {f}) && v.actual.chains == w.actual.chains
    ensures v.disk == w.disk && v.gone == w.gone && v.author == w.author
  {
    v := Next(w, Gating(Attribute(reader, {f})));
  }

  lemma ReaderIsOut(w: World, author: Slot, reader: Slot, f: Artifact) returns (v: World)
    requires author != reader && w.stage == map[author := Running({f}), reader := Settled]
    ensures Possible(w, Gating(Retire(reader))) && v == Next(w, Gating(Retire(reader)))
    ensures v.stage == map[author := Running({f})]
    ensures v.gate == Retired(w.gate, reader) && v.actual.chains == w.actual.chains - {reader}
    ensures v.disk == w.disk && v.gone == w.gone && v.author == w.author
  {
    v := Next(w, Gating(Retire(reader)));
  }

  lemma ReaderRetires(w: World, author: Slot, reader: Slot, f: Artifact) returns (v: World)
    requires author != reader && w.stage == map[author := Running({f}), reader := Reaped({f})] && author in w.actual.chains
    ensures RunsOnHearsay(w, ReaderLeaves(reader, f)) && v == AfterHearsay(w, ReaderLeaves(reader, f))
    ensures v.stage == map[author := Running({f})]
    ensures v.gate == Retired(Attributed(w.gate, reader, {f}), reader)
    ensures v.disk == w.disk && v.gone == w.gone && v.author == w.author
    ensures author in v.actual.chains && v.actual.chains[author] == w.actual.chains[author]
  {
    var u := ReaderIsNamed(w, author, reader, f);
    v := ReaderIsOut(u, author, reader, f);
    TwoSteps(w, Gating(Attribute(reader, {f})), Gating(Retire(reader)));
  }

  lemma RestOfTheRun(w: World, author: Slot, reader: Slot, f: Artifact) returns (v: World)
    requires author != reader && w.stage == map[author := Running({}), reader := Running({})] && author in w.actual.chains
    requires f.Finding? && f !in w.disk && f !in w.gone && f !in w.author
    ensures var rest := FiledAndSeen(author, f) + (ReaderEnds(reader, f) + ReaderLeaves(reader, f));
      RunsOnHearsay(w, rest) && v == AfterHearsay(w, rest)
    ensures v.gate == Retired(Attributed(Stamped(w.gate, {f}, {}), reader, {f}), reader)
    ensures v.stage == map[author := Running({f})] && Complete(v, f) && f !in v.gone
    ensures author in v.actual.chains && f in v.author && v.author[f] == Filing(author, v.actual.chains[author])
  {
    var u1 := AuthorFiles(w, author, reader, f);
    var u2 := ReaderIsCollected(u1, author, reader, f);
    v := ReaderRetires(u2, author, reader, f);
    TwoMoreHeard(u1, ReaderEnds(reader, f), ReaderLeaves(reader, f));
    TwoMoreHeard(w, FiledAndSeen(author, f), ReaderEnds(reader, f) + ReaderLeaves(reader, f));
  }

  /** The hypothesis is needed: let a reader end and retire while the author is
      still in its first session, and the finding it named seals under the
      author, which may go on to write it. */
  lemma AReaderThatEndsFirstSealsALiveFinding(w: World, author: Slot, reader: Slot, f: Artifact)
    requires Fresh(w) && author != reader && f.Finding? && f !in w.disk && f !in w.gone
    ensures RunsOnHearsay(w, HearsayRun(author, reader, f))
    ensures var v := AfterHearsay(w, HearsayRun(author, reader, f));
      && f in v.author && AuthorInFlight(v, f) && f in v.gate.firstSeen
      && SealedByRule(v.gate, f)
      && Enabled(v, Write(author, f, false))
  {
    var u := TheyLaunch(w, author, reader);
    var v := RestOfTheRun(u, author, reader, f);
    TwoMoreHeard(w, BothLaunch(author, reader), FiledAndSeen(author, f) + (ReaderEnds(reader, f) + ReaderLeaves(reader, f)));
    assert f !in w.gate.touched;
    assert v.gate.touched[f] == map[reader := v.gate.clock];
  }
}
