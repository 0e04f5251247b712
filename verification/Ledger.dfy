/**
 The benchmark ledger of lib/benchmark.py: a text file of run sections, each
 from its heading to the next heading or the end, in which a run that reports
 again replaces its section.
 */
module Ledger {
  import opened Common
  import opened Whitespace

  /** A text cut at its newlines: the lines that end in one, and what follows
      the last. */
  datatype Doc = Doc(lines: seq<string>, tail: string)

  function Joined(lines: seq<string>): string {
    if lines == [] then "" else Joined(lines[..|lines| - 1]) + lines[|lines| - 1] + "\n"
  }

  function TextOf(d: Doc): string {
    Joined(d.lines) + d.tail
  }

  /** The lines of the text, the unended one included if there is one. */
  function All(d: Doc): seq<string> {
    if d.tail == "" then d.lines else d.lines + [d.tail]
  }

  const PREFIX := "## Benchmark run `"

  predicate Heading(line: string) {
    PREFIX <= Strip(line)
  }

  function HeadingOf(run: string): string {
    PREFIX + run + "`"
  }

  // ------------------------------------------------------------ sections

  /** A heading line and the lines up to the next one. */
  datatype Section = Section(heading: string, body: seq<string>)

  function Grown(sections: seq<Section>, line: string): seq<Section> {
    if Heading(line) then sections + [Section(line, [])]
    else if sections == [] then []
    else
      var last := sections[|sections| - 1];
      sections[..|sections| - 1] + [Section(last.heading, last.body + [line])]
  }

  function Sections(lines: seq<string>): seq<Section> {
    if lines == [] then [] else Grown(Sections(lines[..|lines| - 1]), lines[|lines| - 1])
  }

  lemma SectionsStep(lines: seq<string>, line: string)
    ensures Sections(lines + [line]) == Grown(Sections(lines), line)
  {
    Append(lines, line);
  }

  /** The section belongs to another run than the one headed `target`. */
  predicate Other(target: string, s: Section) {
    Strip(s.heading) != target
  }

  function Others(target: string, sections: seq<Section>): seq<Section> {
    Filter((s: Section) => Other(target, s), sections)
  }

  /** Whether the scan is inside a section headed `target` after these lines. */
  predicate Skipping(lines: seq<string>, target: string) {
    lines != [] &&
    var line := lines[|lines| - 1];
    if Heading(line) then Strip(line) == target else Skipping(lines[..|lines| - 1], target)
  }

  function Kept(lines: seq<string>, target: string): seq<string> {
    if lines == [] then []
    else Kept(lines[..|lines| - 1], target) + if Skipping(lines, target) then [] else [lines[|lines| - 1]]
  }

  /** `_drop_run_section`. */
  function Dropped(d: Doc, target: string): Doc {
    Doc(Kept(d.lines, target), if d.tail != "" && Skipping(d.lines + [d.tail], target) then "" else d.tail)
  }

  /** Line `h` is the last heading up to line `i`, and it is `target`. */
  ghost predicate HeadedAt(lines: seq<string>, h: int, i: int, target: string) {
    && 0 <= h <= i < |lines| && "## Benchmark run `" <= Strip(lines[h]) && Strip(lines[h]) == target
    && forall j | h < j <= i :: !("## Benchmark run `" <= Strip(lines[j]))
  }

  /** Line `i` lies in a section headed `target`. */
  ghost predicate LiesIn(lines: seq<string>, i: int, target: string) {
    exists h :: HeadedAt(lines, h, i, target)
  }

  lemma LiesInPrefix(lines: seq<string>, k: nat, i: nat, target: string)
    requires i < k <= |lines|
    ensures LiesIn(lines[..k], i, target) <==> LiesIn(lines, i, target)
  {
    forall h ensures HeadedAt(lines[..k], h, i, target) <==> HeadedAt(lines, h, i, target) {
      HeadedInPrefix(lines, k, h, i, target);
    }
  }

  lemma HeadedInPrefix(lines: seq<string>, k: nat, h: int, i: nat, target: string)
    requires i < k <= |lines|
    ensures HeadedAt(lines[..k], h, i, target) <==> HeadedAt(lines, h, i, target)
  {
    assert forall j | 0 <= j < k :: lines[..k][j] == lines[j];
  }

  lemma LiesAtAHeading(lines: seq<string>, i: nat, target: string)
    requires i < |lines| && Heading(lines[i])
    ensures LiesIn(lines, i, target) <==> Strip(lines[i]) == target
  {
    assert HeadedAt(lines, i, i, target) <==> Strip(lines[i]) == target;
    forall h { LastHeadingIs(lines, h, i, target); }
  }

  lemma LastHeadingIs(lines: seq<string>, h: int, i: nat, target: string)
    requires i < |lines| && Heading(lines[i])
    ensures HeadedAt(lines, h, i, target) ==> h == i
  {
    if h < i { assert PREFIX <= Strip(lines[i]); }
  }

  lemma LiesBehindALine(lines: seq<string>, i: nat, target: string)
    requires i < |lines| && !Heading(lines[i])
    ensures LiesIn(lines, i, target) <==> LiesIn(lines, i - 1, target)
  {
    var k := i - 1;
    if h :| HeadedAt(lines, h, i, target) { assert HeadedAt(lines, h, k, target); }
    if h :| HeadedAt(lines, h, k, target) { assert HeadedAt(lines, h, i, target); }
  }

  lemma {:induction false} SkippingExactly(lines: seq<string>, target: string)
    ensures Skipping(lines, target) <==> LiesIn(lines, |lines| - 1, target)
  {
    if lines != [] {
      var n := |lines| - 1;
      if Heading(lines[n]) {
        LiesAtAHeading(lines, n, target);
      } else {
        SkippingExactly(lines[..n], target);
        LiesBehindALine(lines, n, target);
        if n > 0 { LiesInPrefix(lines, n, n - 1, target); }
      }
    }
  }

  lemma {:induction false} KeptWhere(lines: seq<string>, m: nat, target: string, skipped: nat -> bool) returns (at: seq<nat>)
    requires m <= |lines| && forall k: nat | k < m :: Skipping(lines[..k + 1], target) <==> skipped(k)
    ensures Rising(at) && Picks(at, Kept(lines[..m], target), lines, m)
    ensures forall i: nat :: i < m ==> (i in at <==> !skipped(i))
  {
    at := [];
    if m > 0 {
      var before := KeptWhere(lines, m - 1, target, skipped);
      KeptStep(lines, m - 1, target);
      at := before;
      if !skipped(m - 1) {
        PicksOn(before, Kept(lines[..m - 1], target), lines, m - 1);
        at := before + [m - 1];
      }
    }
  }

  lemma KeptStep(lines: seq<string>, i: nat, target: string)
    requires i < |lines|
    ensures Kept(lines[..i + 1], target) == Kept(lines[..i], target) + if Skipping(lines[..i + 1], target) then [] else [lines[i]]
  {
    assert lines[..i + 1][..i] == lines[..i];
  }

  /** Skipping leaves exactly the lines that lie in no section of the run, those
      before the first heading included, in order. */
  lemma KeptExactly(lines: seq<string>, target: string) returns (at: seq<nat>)
    ensures Rising(at) && Picks(at, Kept(lines, target), lines, |lines|)
    ensures forall i: nat :: i < |lines| ==> (i in at <==> !LiesIn(lines, i, target))
  {
    forall k: nat | k < |lines| ensures Skipping(lines[..k + 1], target) <==> LiesIn(lines, k, target) {
      SkippingExactly(lines[..k + 1], target);
      LiesInPrefix(lines, k + 1, k, target);
    }
    at := KeptWhere(lines, |lines|, target, (i: nat) => LiesIn(lines, i, target));
    assert lines[..|lines|] == lines;
  }

  lemma {:induction false} NothingToSkip(lines: seq<string>, target: string)
    requires forall line :: line in lines ==> Strip(line) != target
    ensures Kept(lines, target) == lines && !Skipping(lines, target)
  {
    if lines != [] {
      SplitLast(lines);
      NothingToSkip(lines[..|lines| - 1], target);
    }
  }

  lemma {:induction false} SomethingToSkip(lines: seq<string>, target: string)
    ensures |Kept(lines, target)| <= |lines|
    ensures PREFIX <= target && (exists line :: line in lines && Strip(line) == target) ==> |Kept(lines, target)| < |lines|
  {
    if lines != [] {
      SplitLast(lines);
      SomethingToSkip(lines[..|lines| - 1], target);
    }
  }

  /** Something is taken out exactly when some line of the text heads the run. */
  lemma PrunesExactly(d: Doc, run: string)
    ensures Prunes(d, run) <==> exists line :: line in All(d) && Strip(line) == "## Benchmark run `" + run + "`"
  {
    var target := HeadingOf(run);
    DroppingTheLines(d, target);
    SomethingToSkip(All(d), target);
    if forall line :: line in All(d) ==> Strip(line) != target {
      NothingToSkip(All(d), target);
      if d.tail != "" { assert All(d)[..|d.lines|] == d.lines; NothingToSkip(d.lines, target); }
    }
  }

  lemma OthersStep(target: string, sections: seq<Section>, s: Section)
    ensures Others(target, sections + [s]) == Others(target, sections) + if Other(target, s) then [s] else []
  {
    assert (sections + [s])[..|sections|] == sections;
  }

  /** The last section so far is the one being dropped. */
  predicate LastIs(sections: seq<Section>, target: string) {
    sections != [] && !Other(target, sections[|sections| - 1])
  }

  lemma GrowingCommutes(sections: seq<Section>, line: string, target: string)
    ensures var grown := Grown(sections, line);
      && Others(target, grown) == (if LastIs(grown, target) then Others(target, sections) else Grown(Others(target, sections), line))
      && (LastIs(grown, target) <==> if Heading(line) then Strip(line) == target else LastIs(sections, target))
  {
    if Heading(line) {
      OthersStep(target, sections, Section(line, []));
    } else if sections != [] {
      var first, last := sections[..|sections| - 1], sections[|sections| - 1];
      assert sections == first + [last];
      OthersStep(target, first, last);
      OthersStep(target, first, Section(last.heading, last.body + [line]));
    }
  }

  /** Dropping a run's lines is dropping its sections, and no other. */
  lemma {:induction false} DroppingFiltersSections(lines: seq<string>, target: string)
    ensures Sections(Kept(lines, target)) == Others(target, Sections(lines))
    ensures Skipping(lines, target) <==> LastIs(Sections(lines), target)
  {
    if lines != [] {
      var rest, line := lines[..|lines| - 1], lines[|lines| - 1];
      DroppingFiltersSections(rest, target);
      GrowingCommutes(Sections(rest), line, target);
      assert Skipping(lines, target) <==> LastIs(Grown(Sections(rest), line), target);
      if Skipping(lines, target) {
        assert Kept(lines, target) == Kept(rest, target);
      }
    }
  }

  // ------------------------------------------------------------ the ends of sections

  function TrimBlank(lines: seq<string>): seq<string> {
    if lines != [] && lines[|lines| - 1] == "" then TrimBlank(lines[..|lines| - 1]) else lines
  }

  /** `text.rstrip("\\n") + "\\n"`. */
  function Closed(d: Doc): Doc {
    if d.tail != "" then Doc(d.lines + [d.tail], "")
    else
      var lines := TrimBlank(d.lines);
      if lines == [] then Doc([""], "") else Doc(lines, "")
  }

  /** `d` with a newline and then `section`, which does not start with one; it
      is the same text when the section brings that newline along. */
  function Appended(d: Doc, section: Doc): Doc {
    Doc(d.lines + [d.tail] + section.lines, section.tail)
  }

  /** A section without the blank lines at its end. */
  function Trimmed(s: Section): Section {
    Section(s.heading, TrimBlank(s.body))
  }

  function LastTrimmed(sections: seq<Section>): seq<Section> {
    if sections == [] then [] else sections[..|sections| - 1] + [Trimmed(sections[|sections| - 1])]
  }

  lemma TrimmingOneMore(sections: seq<Section>)
    ensures LastTrimmed(Grown(sections, "")) == LastTrimmed(sections)
  {
    if sections != [] {
      var body := sections[|sections| - 1].body;
      assert (body + [""])[..|body|] == body;
    }
  }

  lemma NothingToTrim(lines: seq<string>)
    requires lines == [] || lines[|lines| - 1] != ""
    ensures LastTrimmed(Sections(lines)) == Sections(lines)
  {
    if lines != [] {
      var before, line := Sections(lines[..|lines| - 1]), lines[|lines| - 1];
      if !Heading(line) && before != [] {
        var body := before[|before| - 1].body;
        assert (body + [line])[|body + [line]| - 1] == line;
      }
    }
  }

  lemma {:induction false} TrimmingTheEnd(lines: seq<string>)
    ensures Sections(TrimBlank(lines)) == LastTrimmed(Sections(lines))
  {
    if lines != [] && lines[|lines| - 1] == "" {
      var rest := lines[..|lines| - 1];
      assert lines == rest + [""];
      TrimmingTheEnd(rest);
      TrimmingOneMore(Sections(rest));
    } else {
      NothingToTrim(lines);
    }
  }

  /** Closing the text trims the blank lines of the last section. */
  lemma ClosingTrimsTheLast(d: Doc)
    ensures Sections(All(Closed(d))) == LastTrimmed(Sections(All(d)))
  {
    if d.tail != "" {
      NothingToTrim(d.lines + [d.tail]);
    } else {
      TrimmingTheEnd(d.lines);
      if TrimBlank(d.lines) == [] { assert [""] == [] + [""] && Sections([]) == []; }
    }
  }

  lemma GrowingTheLast(sections: seq<Section>, last: Section, line: string)
    requires !Heading(line)
    ensures Grown(sections + [last], line) == sections + [Section(last.heading, last.body + [line])]
  {
    Append(sections, last);
  }

  /** Appending lines that form one section adds that section. */
  lemma {:induction false} AppendingASection(before: seq<string>, heading: string, body: seq<string>)
    requires Heading(heading) && forall i :: 0 <= i < |body| ==> !Heading(body[i])
    ensures Sections(before + [heading] + body) == Sections(before) + [Section(heading, body)]
  {
    if body == [] {
      assert before + [heading] + body == before + [heading];
      SectionsStep(before, heading);
    } else {
      var rest, line := body[..|body| - 1], body[|body| - 1];
      AppendingASection(before, heading, rest);
      assert body == rest + [line];
      Associates(before + [heading], rest, [line]);
      SectionsStep(before + [heading] + rest, line);
      GrowingTheLast(Sections(before), Section(heading, rest), line);
    }
  }

  lemma DroppingTheLines(d: Doc, target: string)
    ensures All(Dropped(d, target)) == Kept(All(d), target)
  {
    assert d.tail != "" ==> (d.lines + [d.tail])[..|d.lines|] == d.lines;
  }

  // ------------------------------------------------------------ appending

  /** The run a line heads, as `_section_runid` reads it. */
  function RunOf(line: string): Option<string> {
    var s := Strip(line);
    if PREFIX <= s && s[|s| - 1] == '`' then Some(if |s| == |PREFIX| then "" else s[|PREFIX|..|s| - 1]) else None
  }

  /** A line heads the run that stands between the words and its last backquote. */
  lemma RunOfExactly(line: string, run: string)
    ensures RunOf(line) == Some(run) <==>
      Strip(line) == "## Benchmark run `" + run + "`" || (run == "" && Strip(line) == "## Benchmark run `")
  {
    var s := Strip(line);
    if PREFIX <= s && s[|s| - 1] == '`' && |s| > |PREFIX| { assert s == PREFIX + s[|PREFIX|..|s| - 1] + "`"; }
    if s == PREFIX + run + "`" { assert s[|PREFIX|..|s| - 1] == run; }
  }

  function RunIn(lines: seq<string>): Option<string> {
    if lines == [] then None
    else if RunOf(lines[0]).Some? then RunOf(lines[0])
    else RunIn(lines[1..])
  }

  /** The ledger without the sections of the run, closed by one newline if that
      took anything out. */
  function Pruned(d: Doc, run: Option<string>): Doc {
    if run.None? then d
    else
      var kept := Dropped(d, HeadingOf(run.value));
      if kept != d then Closed(kept) else d
  }

  class LedgerFile {
    var doc: Doc

    /** `_section_runid`. */
    static method SectionRunId(lines: seq<string>) returns (run: Option<string>)
      ensures run == RunIn(lines)
      ensures run.Some? ==> exists i :: 0 <= i < |lines| && RunOf(lines[i]) == run && forall j :: 0 <= j < i ==> RunOf(lines[j]) == None
      ensures run.None? ==> forall line :: line in lines ==> RunOf(line) == None
    {
      for i := 0 to |lines|
        invariant RunIn(lines) == RunIn(lines[i..])
        invariant forall j :: 0 <= j < i ==> RunOf(lines[j]) == None
      {
        var s := Strip(lines[i]);
        if PREFIX <= s && s[|s| - 1] == '`' {
          return Some(if |s| == |PREFIX| then "" else s[|PREFIX|..|s| - 1]);
        }
        assert lines[i..][1..] == lines[i + 1..];
      }
      return None;
    }

    /** `_drop_run_section`. */
    static method DropRunSection(d: Doc, target: string) returns (r: Doc)
      ensures r == Dropped(d, target)
    {
      var out, skipping := [], false;
      for i := 0 to |d.lines|
        invariant out == Kept(d.lines[..i], target)
        invariant skipping == Skipping(d.lines[..i], target)
      {
        assert d.lines[..i + 1][..i] == d.lines[..i];
        if Heading(d.lines[i]) { skipping := Strip(d.lines[i]) == target; }
        if !skipping { out := out + [d.lines[i]]; }
      }
      assert d.lines[..|d.lines|] == d.lines;
      var tail := d.tail;
      if tail != "" {
        assert (d.lines + [tail])[..|d.lines|] == d.lines;
        if Heading(tail) { skipping := Strip(tail) == target; }
        if skipping { tail := ""; }
      }
      r := Doc(out, tail);
    }

    /** `append_to_ledger`; `header` is what a new ledger starts with. */
    method Append(section: Doc, header: Doc)
      modifies this
      ensures doc == Appended(Pruned(if old(doc) == Doc([], "") then header else old(doc), RunIn(All(section))), section)
      ensures (forall line :: line in All(section) ==> RunOf(line) == None) ==>
        TextOf(doc) == TextOf(if old(doc) == Doc([], "") then header else old(doc)) + "\n" + TextOf(section)
    {
      if doc == Doc([], "") { doc := header; }
      var run := SectionRunId(All(section));
      if run.Some? {
        var pruned := DropRunSection(doc, HeadingOf(run.value));
        if pruned != doc { doc := Closed(pruned); }
      }
      AppendedText(doc, section);
      doc := Appended(doc, section);
    }
  }

  /** A rendered section: the heading of `run` on its first line and no other. */
  ghost predicate SectionFor(section: Doc, run: string) {
    && section.lines != [] && Strip(section.lines[0]) == HeadingOf(run)
    && forall i :: 1 <= i < |All(section)| ==> !Heading(All(section)[i])
  }

  function AsSection(section: Doc): Section
    requires section.lines != []
  {
    Section(section.lines[0], All(section)[1..])
  }

  lemma RunIsRead(section: Doc, run: string)
    requires SectionFor(section, run)
    ensures RunIn(All(section)) == Some(run) && Heading(section.lines[0])
  {
    var s := Strip(section.lines[0]);
    assert All(section)[0] == section.lines[0];
    assert s == PREFIX + run + "`";
    assert s[..|PREFIX|] == PREFIX && s[|PREFIX|..|s| - 1] == run;
  }

  /** What becomes of the other sections: the last of them is trimmed when the
      run's section was taken out, and gains one blank line when the text before
      the new section ends in a newline. */
  function Settled(sections: seq<Section>, pruned: bool, ended: bool): seq<Section> {
    var trimmed := if pruned then LastTrimmed(sections) else sections;
    if ended then Grown(trimmed, "") else trimmed
  }

  predicate Prunes(d: Doc, run: string) {
    Dropped(d, HeadingOf(run)) != d
  }

  /** The ledger after `run` has reported `section`. */
  function Reported(d: Doc, section: Doc, run: string): Doc {
    Appended(Pruned(d, Some(run)), section)
  }

  function OthersIn(d: Doc, run: string): seq<Section> {
    Others(HeadingOf(run), Sections(All(d)))
  }

  lemma PruningFilters(d: Doc, run: string)
    ensures Sections(All(Pruned(d, Some(run)))) ==
      var others := OthersIn(d, run);
      if Prunes(d, run) then LastTrimmed(others) else others
  {
    var target := HeadingOf(run);
    DroppingTheLines(d, target);
    DroppingFiltersSections(All(d), target);
    if Prunes(d, run) { ClosingTrimsTheLast(Dropped(d, target)); }
  }

  lemma NewlineBehind(d: Doc)
    ensures Sections(d.lines + [d.tail]) == if d.tail == "" then Grown(Sections(All(d)), "") else Sections(All(d))
  {
    assert (d.lines + [d.tail])[..|d.lines|] == d.lines;
  }

  lemma LinesOfAppended(d: Doc, section: Doc)
    requires section.lines != []
    ensures All(Appended(d, section)) == (d.lines + [d.tail]) + [section.lines[0]] + All(section)[1..]
  {
  }

  lemma AppendedSections(d: Doc, section: Doc, run: string)
    requires SectionFor(section, run)
    ensures Sections(All(Appended(d, section))) == Sections(d.lines + [d.tail]) + [AsSection(section)]
  {
    RunIsRead(section, run);
    LinesOfAppended(d, section);
    var all := All(section);
    forall i | 0 <= i < |all[1..]| ensures !Heading(all[1..][i]) { assert all[1..][i] == all[i + 1]; }
    AppendingASection(d.lines + [d.tail], section.lines[0], all[1..]);
  }

  lemma SettledLines(d: Doc, run: string)
    ensures var p := Pruned(d, Some(run));
      Sections(p.lines + [p.tail]) == Settled(OthersIn(d, run), Prunes(d, run), Prunes(d, run) || d.tail == "")
  {
    PruningFilters(d, run);
    PrunedTail(d, run);
    var p := Pruned(d, Some(run));
    NewlineBehind(p);
    Settles(OthersIn(d, run), Sections(All(p)), Prunes(d, run), Prunes(d, run) || d.tail == "");
  }

  lemma PrunedTail(d: Doc, run: string)
    ensures Pruned(d, Some(run)).tail == "" <==> Prunes(d, run) || d.tail == ""
  {
  }

  lemma Settles(others: seq<Section>, now: seq<Section>, pruned: bool, ended: bool)
    requires now == if pruned then LastTrimmed(others) else others
    ensures Settled(others, pruned, ended) == if ended then Grown(now, "") else now
  {
  }

  /** Read as a list of sections, the ledger after an append is the ledger before
      without the sections of that run, in order and unchanged but for blank
      lines at the end of the last, followed by the new section. */
  lemma AppendReplacesTheRun(d: Doc, section: Doc, run: string)
    requires SectionFor(section, run)
    ensures Sections(All(Reported(d, section, run))) ==
      Settled(OthersIn(d, run), Prunes(d, run), Prunes(d, run) || d.tail == "") + [AsSection(section)]
  {
    SettledLines(d, run);
    AppendedSections(Pruned(d, Some(run)), section, run);
  }

  /** The list ends in exactly one blank line. */
  predicate OneBlankAtTheEnd(lines: seq<string>) {
    lines != [] && lines[|lines| - 1] == "" && (|lines| == 1 || lines[|lines| - 2] != "")
  }

  lemma BlankedExactly(lines: seq<string>)
    ensures TrimBlank(lines) + [""] == lines <==> OneBlankAtTheEnd(lines)
  {
    if lines != [] && lines[|lines| - 1] == "" {
      var rest := lines[..|lines| - 1];
      assert lines == rest + [""];
      TrimIsShort(rest);
      if OneBlankAtTheEnd(lines) { assert TrimBlank(rest) == rest; }
    } else {
      assert lines != [] ==> (TrimBlank(lines) + [""])[|lines|] == "";
    }
  }

  lemma {:induction false} TrimIsShort(lines: seq<string>)
    ensures |TrimBlank(lines)| <= |lines|
    ensures TrimBlank(lines) == lines <==> lines == [] || lines[|lines| - 1] != ""
  {
    if lines != [] && lines[|lines| - 1] == "" { TrimIsShort(lines[..|lines| - 1]); }
  }

  /** The other sections come through unchanged exactly when none is left, or
      nothing was taken out and the text did not end in a newline, or something
      was and the last section left ends in exactly one blank line. */
  lemma OthersUnchangedExactly(d: Doc, section: Doc, run: string)
    requires SectionFor(section, run)
    ensures var others := OthersIn(d, run);
      Sections(All(Reported(d, section, run))) == others + [AsSection(section)] <==>
        others == [] || if Prunes(d, run) then OneBlankAtTheEnd(others[|others| - 1].body) else d.tail != ""
  {
    var others := OthersIn(d, run);
    AppendReplacesTheRun(d, section, run);
    SettledExactly(others, Prunes(d, run), Prunes(d, run) || d.tail == "");
    var settled := Settled(others, Prunes(d, run), Prunes(d, run) || d.tail == "");
    assert (settled + [AsSection(section)])[..|settled|] == settled;
    assert (others + [AsSection(section)])[..|others|] == others;
  }

  lemma SettledExactly(sections: seq<Section>, pruned: bool, ended: bool)
    requires pruned ==> ended
    ensures |Settled(sections, pruned, ended)| == |sections|
    ensures Settled(sections, pruned, ended) == sections <==>
      sections == [] || if pruned then OneBlankAtTheEnd(sections[|sections| - 1].body) else !ended
  {
    if sections != [] {
      var first, last := sections[..|sections| - 1], sections[|sections| - 1];
      BlankedExactly(last.body);
      SplitLast(sections);
      SettledLast(first, last, pruned, ended);
      assert (first + [last])[|first|] == last;
      assert (first + [Section(last.heading, SettledBody(last.body, pruned, ended))])[|first|].body == SettledBody(last.body, pruned, ended);
    }
  }

  lemma KeepsOther(lines: seq<string>, line: string, target: string)
    requires !Skipping(lines, target) && Kept(lines, target) == lines
    requires Heading(line) ==> Strip(line) != target
    ensures !Skipping(lines + [line], target) && Kept(lines + [line], target) == lines + [line]
  {
    Append(lines, line);
  }

  lemma HeadingAlone(heading: string)
    requires Heading(heading)
    ensures Sections([] + [heading]) == [] + [Section(heading, [])]
  {
    SectionsStep([], heading);
  }

  lemma OneLineAfter(heading: string, line: string)
    requires Heading(heading) && !Heading(line)
    ensures Sections([] + [heading] + [line]) == [] + [Section(heading, [] + [line])]
  {
    HeadingAlone(heading);
    SectionsStep([] + [heading], line);
    GrowingTheLast([], Section(heading, []), line);
  }

  lemma ShortLedger(d: Doc, heading: string, line: string, run: string)
    requires Heading(heading) && Strip(heading) != HeadingOf(run) && !Heading(line)
    requires d.lines == [] + [heading] + [line] && d.tail == ""
    ensures OthersIn(d, run) == [] + [Section(heading, [] + [line])] && !Prunes(d, run)
  {
    var target := HeadingOf(run);
    KeepsOther([], heading, target);
    KeepsOther([] + [heading], line, target);
    OneLineAfter(heading, line);
    OthersStep(target, [], Section(heading, [] + [line]));
  }

  /** A ledger of one section that ends in a newline: another run's report
      lengthens that section by a blank line. */
  lemma AnotherRunLengthensTheLast(d: Doc, heading: string, line: string, run: string, section: Doc)
    requires Heading(heading) && Strip(heading) != HeadingOf(run) && !Heading(line) && SectionFor(section, run)
    requires d.lines == [heading, line] && d.tail == ""
    ensures OthersIn(d, run) == [Section(heading, [line])]
    ensures Sections(All(Reported(d, section, run))) == [Section(heading, [line, ""]), AsSection(section)]
  {
    assert [heading, line] == [] + [heading] + [line];
    ShortLedger(d, heading, line, run);
    AppendReplacesTheRun(d, section, run);
    SettledLast([], Section(heading, [] + [line]), false, true);
    assert [] + [line] == [line] && [line] + [""] == [line, ""];
  }

  lemma SettledKeepsHeadings(sections: seq<Section>, pruned: bool, ended: bool)
    ensures var settled := Settled(sections, pruned, ended);
      && |settled| == |sections|
      && forall i :: 0 <= i < |sections| ==> settled[i].heading == sections[i].heading
  {
  }

  /** Sections of other runs stay sections of other runs. */
  lemma SettledOthers(target: string, all: seq<Section>, pruned: bool, ended: bool)
    ensures var settled := Settled(Others(target, all), pruned, ended);
      Others(target, settled) == settled && forall s :: s in settled ==> Other(target, s)
  {
    var others := Others(target, all);
    var settled := Settled(others, pruned, ended);
    SettledKeepsHeadings(others, pruned, ended);
    forall s | s in settled ensures Other(target, s) {
      var i :| 0 <= i < |settled| && settled[i] == s;
      assert others[i] in others;
    }
    FilterAll((s: Section) => Other(target, s), settled);
  }

  /** A ledger that holds the run's section loses something when it is dropped. */
  lemma HoldingARunPrunes(d: Doc, section: Section, run: string)
    requires section in Sections(All(d)) && !Other(HeadingOf(run), section)
    ensures Prunes(d, run)
  {
    var target := HeadingOf(run);
    DroppingTheLines(d, target);
    DroppingFiltersSections(All(d), target);
    assert section !in Others(target, Sections(All(d)));
  }

  lemma OthersBeforeTheRun(d: Doc, others: seq<Section>, section: Section, run: string)
    requires Sections(All(d)) == others + [section] && !Other(HeadingOf(run), section)
    requires Others(HeadingOf(run), others) == others
    ensures OthersIn(d, run) == others && Prunes(d, run)
  {
    assert Sections(All(d))[|others|] == section;
    HoldingARunPrunes(d, section, run);
    OthersStep(HeadingOf(run), others, section);
  }

  /** Appending the run's section to a ledger that ends in it trims the section
      before it to one blank line, and replaces it. */
  lemma AppendingAgain(d: Doc, others: seq<Section>, section: Doc, again: Doc, run: string)
    requires SectionFor(section, run) && SectionFor(again, run)
    requires Sections(All(d)) == others + [AsSection(section)] && Others(HeadingOf(run), others) == others
    ensures Sections(All(Reported(d, again, run))) == Settled(others, true, true) + [AsSection(again)]
  {
    OthersBeforeTheRun(d, others, AsSection(section), run);
    AppendReplacesTheRun(d, again, run);
  }

  lemma SettlingSettles(sections: seq<Section>, pruned: bool, ended: bool)
    requires pruned ==> ended
    ensures Settled(Settled(sections, pruned, ended), true, true) == Settled(sections, true, true)
  {
    if sections != [] {
      var first, last := sections[..|sections| - 1], sections[|sections| - 1];
      SplitLast(sections);
      SettledLast(first, last, pruned, ended);
      SettledLast(first, last, true, true);
      SettledLast(first, Section(last.heading, SettledBody(last.body, pruned, ended)), true, true);
      TrimmingSettles(last.body, pruned, ended);
    }
  }

  function SettledBody(body: seq<string>, pruned: bool, ended: bool): seq<string> {
    var trimmed := if pruned then TrimBlank(body) else body;
    if ended then trimmed + [""] else trimmed
  }

  lemma SettledLast(first: seq<Section>, last: Section, pruned: bool, ended: bool)
    ensures Settled(first + [last], pruned, ended) == first + [Section(last.heading, SettledBody(last.body, pruned, ended))]
  {
    Append(first, last);
    GrowingTheLast(first, last, "");
    GrowingTheLast(first, Trimmed(last), "");
  }

  lemma TrimmingSettles(body: seq<string>, pruned: bool, ended: bool)
    requires pruned ==> ended
    ensures TrimBlank(SettledBody(body, pruned, ended)) == TrimBlank(body)
  {
    Append(body, "");
    Append(TrimBlank(body), "");
    TrimTwice(body);
  }

  lemma {:induction false} TrimTwice(lines: seq<string>)
    ensures TrimBlank(TrimBlank(lines)) == TrimBlank(lines)
  {
    if lines != [] && lines[|lines| - 1] == "" { TrimTwice(lines[..|lines| - 1]); }
  }

  /** Reporting a run again leaves one section of it, the latest, behind the
      sections of the others; and from the second report on the others no longer
      change at all. */
  lemma ReportingAgainReplaces(d: Doc, one: Doc, two: Doc, three: Doc, run: string)
    requires SectionFor(one, run) && SectionFor(two, run) && SectionFor(three, run)
    ensures var others := OthersIn(d, run);
      var once := Reported(d, one, run);
      var twice := Reported(once, two, run);
      var thrice := Reported(twice, three, run);
      && Sections(All(twice)) == Settled(others, true, true) + [AsSection(two)]
      && Sections(All(thrice)) == Settled(others, true, true) + [AsSection(three)]
      && forall s :: s in Settled(others, true, true) ==> Other(HeadingOf(run), s)
  {
    var target := HeadingOf(run);
    var others := Others(target, Sections(All(d)));
    var once := Reported(d, one, run);
    var twice := Reported(once, two, run);
    var pruned, ended := Prunes(d, run), Prunes(d, run) || d.tail == "";
    AppendReplacesTheRun(d, one, run);
    SettledOthers(target, Sections(All(d)), pruned, ended);
    AppendingAgain(once, Settled(others, pruned, ended), one, two, run);
    SettlingSettles(others, pruned, ended);
    SettledOthers(target, Sections(All(d)), true, true);
    AppendingAgain(twice, Settled(others, true, true), two, three, run);
    SettlingSettles(others, true, true);
  }

  lemma {:induction false} FilterAll(p: Section -> bool, s: seq<Section>)
    requires forall x :: x in s ==> p(x)
    ensures Filter(p, s) == s
  {
    if s != [] {
      SplitLast(s);
      FilterAll(p, s[..|s| - 1]);
    }
  }

  /** The ledger as a map of runs: it never holds two sections of one run. */
  ghost predicate OnePerRun(sections: seq<Section>) {
    forall i, j :: 0 <= i < j < |sections| ==> Strip(sections[i].heading) != Strip(sections[j].heading)
  }

  lemma {:induction false} OthersKeepOnePerRun(target: string, sections: seq<Section>)
    requires OnePerRun(sections)
    ensures OnePerRun(Others(target, sections))
  {
    if sections != [] {
      var rest, last := sections[..|sections| - 1], sections[|sections| - 1];
      OthersKeepOnePerRun(target, rest);
      forall s | s in Others(target, rest) ensures Strip(s.heading) != Strip(last.heading) {
        var i :| 0 <= i < |rest| && rest[i] == s;
        assert sections[i] == s;
      }
      if Other(target, last) { OneMoreRun(Others(target, rest), last); }
    }
  }

  lemma OneMoreRun(sections: seq<Section>, last: Section)
    requires OnePerRun(sections) && forall s :: s in sections ==> Strip(s.heading) != Strip(last.heading)
    ensures OnePerRun(sections + [last])
  {
    assert forall i :: 0 <= i < |sections| ==> sections[i] in sections;
  }

  lemma SettledKeepsOnePerRun(sections: seq<Section>, pruned: bool, ended: bool)
    requires OnePerRun(sections)
    ensures OnePerRun(Settled(sections, pruned, ended))
  {
    SettledKeepsHeadings(sections, pruned, ended);
  }

  lemma AppendKeepsOnePerRun(d: Doc, section: Doc, run: string)
    requires SectionFor(section, run) && OnePerRun(Sections(All(d)))
    ensures OnePerRun(Sections(All(Reported(d, section, run))))
  {
    var target := HeadingOf(run);
    var pruned, ended := Prunes(d, run), Prunes(d, run) || d.tail == "";
    OthersKeepOnePerRun(target, Sections(All(d)));
    SettledKeepsOnePerRun(OthersIn(d, run), pruned, ended);
    SettledOthers(target, Sections(All(d)), pruned, ended);
    OneMoreRun(Settled(OthersIn(d, run), pruned, ended), AsSection(section));
    AppendReplacesTheRun(d, section, run);
  }

  // ------------------------------------------------------------ the text itself

  lemma {:induction false} JoinedConcat(a: seq<string>, b: seq<string>)
    ensures Joined(a + b) == Joined(a) + Joined(b)
  {
    if b == [] {
      assert a + b == a;
    } else {
      JoinedConcat(a, b[..|b| - 1]);
      LastOfConcat(a, b);
    }
  }

  /** Appending is writing a newline and the section behind the text. */
  lemma AppendedText(d: Doc, section: Doc)
    ensures TextOf(Appended(d, section)) == TextOf(d) + "\n" + TextOf(section)
  {
    JoinedConcat(d.lines + [d.tail], section.lines);
    assert (d.lines + [d.tail])[..|d.lines|] == d.lines;
  }

  function RightStripped(s: string): string {
    if s != "" && s[|s| - 1] == '\n' then RightStripped(s[..|s| - 1]) else s
  }

  predicate NoNewline(s: string) {
    forall i :: 0 <= i < |s| ==> s[i] != '\n'
  }

  lemma {:induction false} TrimmedText(lines: seq<string>)
    requires forall i :: 0 <= i < |lines| ==> NoNewline(lines[i])
    ensures TrimBlank(lines) != [] ==> RightStripped(Joined(lines)) + "\n" == Joined(TrimBlank(lines))
    ensures TrimBlank(lines) == [] ==> RightStripped(Joined(lines)) == ""
  {
    if lines != [] {
      var rest, line := lines[..|lines| - 1], lines[|lines| - 1];
      var text := Joined(rest) + line;
      assert Joined(lines) == text + "\n" && Joined(lines)[..|text|] == text;
      if line == "" {
        assert text == Joined(rest);
        TrimmedText(rest);
      } else {
        assert text[|text| - 1] == line[|line| - 1];
      }
    }
  }

  /** Closing a text is stripping the newlines at its end and writing one. */
  lemma ClosedText(d: Doc)
    requires NoNewline(d.tail) && forall i :: 0 <= i < |d.lines| ==> NoNewline(d.lines[i])
    ensures TextOf(Closed(d)) == RightStripped(TextOf(d)) + "\n"
  {
    if d.tail != "" {
      assert TextOf(d)[|TextOf(d)| - 1] == d.tail[|d.tail| - 1];
      assert (d.lines + [d.tail])[..|d.lines|] == d.lines;
    } else {
      assert TextOf(d) == Joined(d.lines);
      TrimmedText(d.lines);
      assert [""][..0] == [];
    }
  }
}
