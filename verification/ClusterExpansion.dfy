/**
 One expansion pass over the crashes on disk (`expand_new_crash_clusters` in
 lib/audit_runner.py): which crashes are sent for a decision, and which get
 their marker.  A marker says the crash needs no decision any more.
 */
module ClusterExpansion {
  import opened Common

  type Crash = nat
  type State = nat

  /** What a pass reads: the crash directories in name order, the crash state
      each bundle shows, and the batch it is limited to, if any. */
  datatype Scan = Scan(listing: seq<Crash>, states: map<Crash, State>, only: Option<set<Crash>>)

  function Candidates(scan: Scan, marked: set<Crash>): seq<Crash> {
    Filter((c: Crash) => c !in marked && (scan.only.Some? ==> c in scan.only.value), scan.listing)
  }

  function ExpandedStates(scan: Scan, marked: set<Crash>): set<State> {
    set c | c in scan.listing && c in marked && c in scan.states :: scan.states[c]
  }

  predicate SameState(scan: Scan, c: Crash, d: Crash) {
    c in scan.states && d in scan.states && scan.states[c] == scan.states[d]
  }

  ghost predicate Apart(scan: Scan, s: seq<Crash>) {
    forall i, j :: 0 <= i < j < |s| ==> !SameState(scan, s[i], s[j])
  }

  /** The crashes that stand for themselves: those of unknown state, and the
      first candidate of each state not expanded before. */
  function Leaders(scan: Scan, expanded: set<State>, candidates: seq<Crash>): (r: seq<Crash>)
    ensures forall c :: c in r ==> c in candidates
    ensures |r| <= |candidates|
  {
    if candidates == [] then []
    else
      var before := Leaders(scan, expanded, candidates[..|candidates| - 1]);
      var c := candidates[|candidates| - 1];
      if c !in scan.states then before + [c]
      else if scan.states[c] in expanded || (exists d :: d in before && SameState(scan, c, d)) then before
      else before + [c]
  }

  function Untried(attempted: set<Crash>): Crash -> bool {
    (c: Crash) => c !in attempted
  }

  function Unsent(leaders: seq<Crash>, attempted: set<Crash>): seq<Crash> {
    Filter(Untried(attempted), leaders)
  }

  /** The crashes a pass sends, in order. */
  function Sent(scan: Scan, marked: set<Crash>, attempted: set<Crash>): seq<Crash> {
    Unsent(Leaders(scan, ExpandedStates(scan, marked), Candidates(scan, marked)), attempted)
  }

  /** Whether the pass leaves `c` marked, given the decisions that returned. */
  ghost predicate GetsMarker(scan: Scan, marked: set<Crash>, attempted: set<Crash>, answered: set<Crash>, c: Crash) {
    || c in marked
    || (c in Candidates(scan, marked) && c in scan.states && scan.states[c] in ExpandedStates(scan, marked))
    || (c in Sent(scan, marked, attempted) && c in answered)
    || (c in Candidates(scan, marked) && exists r :: r in Sent(scan, marked, attempted) && r in answered && SameState(scan, c, r))
  }

  function Riders(siblings: map<Crash, set<Crash>>, leader: Crash): set<Crash> {
    if leader in siblings then siblings[leader] else {}
  }

  ghost predicate Settled(scan: Scan, expanded: set<State>, seen: set<Crash>, before: set<Crash>, after: set<Crash>) {
    forall c :: c in after <==> c in before || (c in seen && c in scan.states && scan.states[c] in expanded)
  }

  /** `siblings` lists, for each leader, the other crashes of `seen` that share
      its state, and `representative` finds the leader of a state. */
  ghost predicate Grouped(scan: Scan, expanded: set<State>, leaders: seq<Crash>, seen: set<Crash>,
                          siblings: map<Crash, set<Crash>>, representative: map<State, Crash>) {
    && (forall s :: s in representative ==>
          representative[s] in leaders && representative[s] in scan.states && scan.states[representative[s]] == s && s !in expanded)
    && (forall c :: c in leaders && c in scan.states ==>
          scan.states[c] in representative && representative[scan.states[c]] == c)
    && (forall r :: r in siblings ==> r in leaders)
    && (forall r, c :: r in leaders ==> (c in Riders(siblings, r) <==> c in seen && c != r && SameState(scan, c, r)))
    && (forall c :: c in seen && c in scan.states && scan.states[c] !in expanded ==> scan.states[c] in representative)
    && (forall c :: c in leaders ==> c in seen)
  }

  lemma ExpandedPasses(scan: Scan, expanded: set<State>, leaders: seq<Crash>, seen: set<Crash>,
                       siblings: map<Crash, set<Crash>>, representative: map<State, Crash>, c: Crash)
    requires Grouped(scan, expanded, leaders, seen, siblings, representative) && c !in seen
    requires c in scan.states && scan.states[c] in expanded
    ensures Grouped(scan, expanded, leaders, seen + {c}, siblings, representative)
  {
  }

  lemma RiderJoins(scan: Scan, expanded: set<State>, leaders: seq<Crash>, seen: set<Crash>,
                   siblings: map<Crash, set<Crash>>, representative: map<State, Crash>, c: Crash)
    requires Grouped(scan, expanded, leaders, seen, siblings, representative) && c !in seen
    requires c in scan.states && scan.states[c] in representative
    ensures var leader := representative[scan.states[c]];
      && Grouped(scan, expanded, leaders, seen + {c}, siblings[leader := Riders(siblings, leader) + {c}], representative)
      && leader in leaders && SameState(scan, c, leader)
  {
  }

  lemma LeaderJoins(scan: Scan, expanded: set<State>, leaders: seq<Crash>, seen: set<Crash>,
                    siblings: map<Crash, set<Crash>>, representative: map<State, Crash>, c: Crash)
    requires Grouped(scan, expanded, leaders, seen, siblings, representative) && c !in seen
    requires c in scan.states ==> scan.states[c] !in expanded && scan.states[c] !in representative
    ensures Grouped(scan, expanded, leaders + [c], seen + {c}, siblings,
      if c in scan.states then representative[scan.states[c] := c] else representative)
    ensures forall d :: d in leaders ==> !SameState(scan, c, d)
  {
  }

  /** Where the next candidate goes, told from the tables alone. */
  lemma NextLeader(scan: Scan, expanded: set<State>, before: seq<Crash>, seen: set<Crash>,
                   siblings: map<Crash, set<Crash>>, representative: map<State, Crash>, c: Crash)
    requires Grouped(scan, expanded, Leaders(scan, expanded, before), seen, siblings, representative)
    ensures var leaders := Leaders(scan, expanded, before);
      Leaders(scan, expanded, before + [c]) ==
        if c in scan.states && (scan.states[c] in expanded || scan.states[c] in representative) then leaders else leaders + [c]
  {
    assert (before + [c])[..|before|] == before;
    var leaders := Leaders(scan, expanded, before);
    if c in scan.states && scan.states[c] in representative {
      assert representative[scan.states[c]] in leaders;
    }
  }

  function Answered(answered: set<Crash>): Crash -> bool {
    (c: Crash) => c in answered
  }

  /** The leader is sent in this pass, and its decision returns. */
  function Decided(attempted: set<Crash>, answered: set<Crash>): Crash -> bool {
    (c: Crash) => c !in attempted && c in answered
  }

  function Undecided(attempted: set<Crash>, answered: set<Crash>): Crash -> bool {
    (c: Crash) => c in attempted || c !in answered
  }

  lemma DecisionsAreCounted(leaders: seq<Crash>, attempted: set<Crash>, answered: set<Crash>, expanded: nat, refused: nat)
    requires expanded == Count(Answered(answered), Unsent(leaders, attempted))
    requires expanded + refused == |Unsent(leaders, attempted)|
    ensures expanded == Count(Decided(attempted, answered), leaders)
    ensures |leaders| - |Unsent(leaders, attempted)| + refused == Count(Undecided(attempted, answered), leaders)
  {
    CountFiltered(Answered(answered), Untried(attempted), Decided(attempted, answered), leaders);
    CountComplement(Decided(attempted, answered), Undecided(attempted, answered), leaders);
  }

  /** The crash's own decision returned, or that of the one it rides on. */
  ghost predicate MarkedBy(c: Crash, sent: seq<Crash>, siblings: map<Crash, set<Crash>>, answered: set<Crash>) {
    (c in sent && c in answered) || exists r :: r in sent && r in answered && c in Riders(siblings, r)
  }

  lemma MarkedByOneMore(sent: seq<Crash>, i: nat, siblings: map<Crash, set<Crash>>, answered: set<Crash>)
    requires i < |sent|
    ensures forall c :: MarkedBy(c, sent[..i + 1], siblings, answered) <==>
      MarkedBy(c, sent[..i], siblings, answered) || (sent[i] in answered && (c == sent[i] || c in Riders(siblings, sent[i])))
  {
    assert sent[..i + 1] == sent[..i] + [sent[i]];
    forall c ensures MarkedBy(c, sent[..i + 1], siblings, answered) <==>
      MarkedBy(c, sent[..i], siblings, answered) || (sent[i] in answered && (c == sent[i] || c in Riders(siblings, sent[i])))
    {
      MarkedByAppended(c, sent[..i], sent[i], siblings, answered);
    }
  }

  lemma MarkedByAppended(c: Crash, sent: seq<Crash>, last: Crash, siblings: map<Crash, set<Crash>>, answered: set<Crash>)
    ensures MarkedBy(c, sent + [last], siblings, answered) <==>
      MarkedBy(c, sent, siblings, answered) || (last in answered && (c == last || c in Riders(siblings, last)))
  {
    var more := sent + [last];
    assert more[|sent|] == last && last in more;
    forall r | r in sent ensures r in more {}
    if r :| r in sent && r in answered && c in Riders(siblings, r) { assert r in more; }
    if r :| r in more && r in answered && c in Riders(siblings, r) { assert r in sent || r == last; }
  }

  /** The marks of a pass, told from the tables. */
  ghost predicate TableMarks(scan: Scan, marked: set<Crash>, sent: seq<Crash>, siblings: map<Crash, set<Crash>>, answered: set<Crash>, c: Crash) {
    || c in marked
    || (c in Candidates(scan, marked) && c in scan.states && scan.states[c] in ExpandedStates(scan, marked))
    || MarkedBy(c, sent, siblings, answered)
  }

  ghost predicate Rides(scan: Scan, leaders: seq<Crash>, candidates: seq<Crash>, siblings: map<Crash, set<Crash>>) {
    forall r, c :: r in leaders ==> (c in Riders(siblings, r) <==> c in candidates && c != r && SameState(scan, c, r))
  }

  lemma MarksAreExact(scan: Scan, marked: set<Crash>, attempted: set<Crash>, answered: set<Crash>, siblings: map<Crash, set<Crash>>, c: Crash)
    requires Rides(scan, Leaders(scan, ExpandedStates(scan, marked), Candidates(scan, marked)), Candidates(scan, marked), siblings)
    ensures GetsMarker(scan, marked, attempted, answered, c) <==> TableMarks(scan, marked, Sent(scan, marked, attempted), siblings, answered, c)
  {
    var sent := Sent(scan, marked, attempted);
    if c in Candidates(scan, marked) && exists r :: r in sent && r in answered && SameState(scan, c, r) {
      var r :| r in sent && r in answered && SameState(scan, c, r);
      assert c == r || c in Riders(siblings, r);
    }
  }

  /** A new marker says that the state was expanded before, that the crash's own
      decision returned, or that of a crash of its state. */
  lemma MarkExplained(scan: Scan, marked: set<Crash>, attempted: set<Crash>, answered: set<Crash>, c: Crash)
    ensures var sent := Sent(scan, marked, attempted);
      var before := exists d :: d in scan.listing && d in marked && c in scan.states && d in scan.states && scan.states[c] == scan.states[d];
      var beside := exists r :: r in sent && r in answered && c in scan.states && r in scan.states && scan.states[c] == scan.states[r];
      var inBatch := c in scan.listing && (scan.only.Some? ==> c in scan.only.value);
      GetsMarker(scan, marked, attempted, answered, c) <==> c in marked || (inBatch && (before || (c in sent && c in answered) || beside))
  {
    var sent := Sent(scan, marked, attempted);
    assert c in sent ==> c in Candidates(scan, marked);
    assert c in scan.states && scan.states[c] in ExpandedStates(scan, marked) <==>
      exists d :: d in scan.listing && d in marked && c in scan.states && d in scan.states && scan.states[c] == scan.states[d];
    assert (exists r :: r in sent && r in answered && SameState(scan, c, r)) <==>
      exists r :: r in sent && r in answered && c in scan.states && r in scan.states && scan.states[c] == scan.states[r];
  }

  lemma AllMarksAreExact(scan: Scan, marked: set<Crash>, attempted: set<Crash>, answered: set<Crash>, siblings: map<Crash, set<Crash>>, after: set<Crash>)
    requires Rides(scan, Leaders(scan, ExpandedStates(scan, marked), Candidates(scan, marked)), Candidates(scan, marked), siblings)
    requires forall c :: c in after <==> TableMarks(scan, marked, Sent(scan, marked, attempted), siblings, answered, c)
    ensures forall c :: c in after <==> GetsMarker(scan, marked, attempted, answered, c)
  {
    forall c ensures c in after <==> GetsMarker(scan, marked, attempted, answered, c) {
      MarksAreExact(scan, marked, attempted, answered, siblings, c);
    }
  }

  lemma SettledOneMore(scan: Scan, expanded: set<State>, seen: set<Crash>, already: set<Crash>, c: Crash)
    requires Settled(scan, expanded, seen, {}, already)
    ensures Settled(scan, expanded, seen + {c}, {}, if c in scan.states && scan.states[c] in expanded then already + {c} else already)
  {
  }

  lemma SeenOneMore(candidates: seq<Crash>, i: nat, seen: set<Crash>)
    requires i < |candidates| && Distinct(candidates) && forall c :: c in seen <==> c in candidates[..i]
    ensures candidates[i] !in seen && candidates[..i + 1] == candidates[..i] + [candidates[i]]
    ensures forall c :: c in seen + {candidates[i]} <==> c in candidates[..i + 1]
  {
  }

  lemma GroupingEnds(scan: Scan, expanded: set<State>, leaders: seq<Crash>, candidates: seq<Crash>, seen: set<Crash>,
                     siblings: map<Crash, set<Crash>>, representative: map<State, Crash>, already: set<Crash>)
    requires Grouped(scan, expanded, leaders, seen, siblings, representative) && Settled(scan, expanded, seen, {}, already)
    requires forall c :: c in seen <==> c in candidates
    ensures Rides(scan, leaders, candidates, siblings)
    ensures forall c :: c in already <==> c in candidates && c in scan.states && scan.states[c] in expanded
  {
  }

  class Expander {
    /** Crash directories that hold a marker file. */
    var marked: set<Crash>
    /** Crashes this process has sent. */
    var attempted: set<Crash>

    /** A pass.  `answered` are the crashes whose decision the model returned;
        it is empty when the decision call fails. */
    method Expand(scan: Scan, answered: set<Crash>) returns (sent: seq<Crash>, expanded: nat, pending: nat)
      requires Distinct(scan.listing)
      modifies this
      ensures sent == Sent(scan, old(marked), old(attempted))
      ensures attempted == old(attempted) + set c | c in sent
      ensures forall c :: c in marked <==> GetsMarker(scan, old(marked), old(attempted), answered, c)
      ensures var leaders := Leaders(scan, ExpandedStates(scan, old(marked)), Candidates(scan, old(marked)));
        && expanded == Count(Decided(old(attempted), answered), leaders)
        && pending == Count(Undecided(old(attempted), answered), leaders)
    {
      var states := ExpandedStates(scan, marked);
      var candidates := Candidates(scan, marked);
      CandidatesDistinct(scan, marked);
      var leaders, siblings := Group(scan, states, candidates);
      sent := Unsent(leaders, attempted);
      pending := |leaders| - |sent|;
      attempted := attempted + set c | c in sent;
      var refused;
      expanded, refused := Settle(sent, siblings, answered);
      DecisionsAreCounted(leaders, old(attempted), answered, expanded, refused);
      AllMarksAreExact(scan, old(marked), old(attempted), answered, siblings, marked);
      pending := pending + refused;
    }

    /** Mark the crashes whose decision returned, and those that ride on them. */
    method Settle(sent: seq<Crash>, siblings: map<Crash, set<Crash>>, answered: set<Crash>) returns (expanded: nat, refused: nat)
      modifies this`marked
      ensures forall c :: c in marked <==> c in old(marked) || MarkedBy(c, sent, siblings, answered)
      ensures expanded == Count(Answered(answered), sent) && expanded + refused == |sent|
    {
      expanded, refused := 0, 0;
      for i := 0 to |sent|
        invariant expanded == Count(Answered(answered), sent[..i]) && expanded + refused == i
        invariant forall c :: c in marked <==> c in old(marked) || MarkedBy(c, sent[..i], siblings, answered)
      {
        MarkedByOneMore(sent, i, siblings, answered);
        CountStep(Answered(answered), sent, i);
        if sent[i] in answered {
          marked := marked + {sent[i]} + Riders(siblings, sent[i]);
          expanded := expanded + 1;
        } else {
          refused := refused + 1;
        }
      }
      assert sent[..|sent|] == sent;
    }

    /** Where one candidate goes: its state is expanded already, or it rides on
        the crash that stands for its state, or it stands for itself. */
    static method Place(scan: Scan, expanded: set<State>, ghost before: seq<Crash>, ghost seen: set<Crash>, leaders: seq<Crash>,
                        siblings: map<Crash, set<Crash>>, representative: map<State, Crash>, c: Crash)
        returns (ranks: seq<Crash>, riders: map<Crash, set<Crash>>, chosen: map<State, Crash>)
      requires leaders == Leaders(scan, expanded, before) && c !in seen
      requires Grouped(scan, expanded, leaders, seen, siblings, representative)
      ensures ranks == Leaders(scan, expanded, before + [c])
      ensures Grouped(scan, expanded, ranks, seen + {c}, riders, chosen)
    {
      NextLeader(scan, expanded, before, seen, siblings, representative, c);
      ranks, riders, chosen := leaders, siblings, representative;
      if c in scan.states && scan.states[c] in expanded {
        ExpandedPasses(scan, expanded, leaders, seen, siblings, representative, c);
      } else if c in scan.states && scan.states[c] in representative {
        var leader := representative[scan.states[c]];
        RiderJoins(scan, expanded, leaders, seen, siblings, representative, c);
        riders := siblings[leader := Riders(siblings, leader) + {c}];
      } else {
        LeaderJoins(scan, expanded, leaders, seen, siblings, representative, c);
        if c in scan.states { chosen := representative[scan.states[c] := c]; }
        ranks := leaders + [c];
      }
    }

    /** Sort the candidates into those that stand for themselves and those that
        ride on one of them, and mark those whose state is expanded already. */
    method Group(scan: Scan, expanded: set<State>, candidates: seq<Crash>)
        returns (leaders: seq<Crash>, siblings: map<Crash, set<Crash>>)
      requires Distinct(candidates)
      modifies this`marked
      ensures leaders == Leaders(scan, expanded, candidates)
      ensures forall c :: c in marked <==> c in old(marked) || (c in candidates && c in scan.states && scan.states[c] in expanded)
      ensures Rides(scan, leaders, candidates, siblings)
    {
      leaders, siblings := [], map[];
      var representative: map<State, Crash> := map[];
      ghost var seen: set<Crash> := {};
      var already: set<Crash> := {};
      for i := 0 to |candidates|
        invariant marked == old(marked)
        invariant forall c :: c in seen <==> c in candidates[..i]
        invariant leaders == Leaders(scan, expanded, candidates[..i])
        invariant Settled(scan, expanded, seen, {}, already)
        invariant Grouped(scan, expanded, leaders, seen, siblings, representative)
      {
        var c := candidates[i];
        SeenOneMore(candidates, i, seen);
        SettledOneMore(scan, expanded, seen, already, c);
        if c in scan.states && scan.states[c] in expanded { already := already + {c}; }
        leaders, siblings, representative := Place(scan, expanded, candidates[..i], seen, leaders, siblings, representative, c);
        seen := seen + {c};
      }
      assert candidates[..|candidates|] == candidates;
      GroupingEnds(scan, expanded, leaders, candidates, seen, siblings, representative, already);
      marked := marked + already;
    }
  }

  lemma {:induction false} FilterDistinct(p: Crash -> bool, s: seq<Crash>)
    requires Distinct(s)
    ensures Distinct(Filter(p, s))
  {
    if s != [] {
      var rest, c := s[..|s| - 1], s[|s| - 1];
      FilterDistinct(p, rest);
      forall d | d in rest ensures d != c {
        var i :| 0 <= i < |rest| && rest[i] == d;
        assert s[i] == d;
      }
    }
  }

  lemma CandidatesDistinct(scan: Scan, marked: set<Crash>)
    requires Distinct(scan.listing)
    ensures Distinct(Candidates(scan, marked))
  {
    FilterDistinct((c: Crash) => c !in marked && (scan.only.Some? ==> c in scan.only.value), scan.listing);
  }

  lemma LastIsNew(s: seq<Crash>)
    requires Distinct(s) && s != []
    ensures s[|s| - 1] !in s[..|s| - 1] && s == s[..|s| - 1] + [s[|s| - 1]]
  {
    var rest, c := s[..|s| - 1], s[|s| - 1];
    forall d | d in rest ensures d != c {
      var i :| 0 <= i < |rest| && rest[i] == d;
      assert s[i] == d;
    }
  }

  lemma {:induction false} LeadersStandAlone(scan: Scan, expanded: set<State>, candidates: seq<Crash>)
    requires Distinct(candidates)
    ensures var r := Leaders(scan, expanded, candidates); Distinct(r) && Apart(scan, r)
  {
    if candidates != [] {
      var rest, c := candidates[..|candidates| - 1], candidates[|candidates| - 1];
      LeadersStandAlone(scan, expanded, rest);
      LastIsNew(candidates);
      var before := Leaders(scan, expanded, rest);
      assert Leaders(scan, expanded, candidates) == before || Leaders(scan, expanded, candidates) == before + [c];
      if Leaders(scan, expanded, candidates) == before + [c] {
        assert c !in before && forall d :: d in before ==> !SameState(scan, d, c);
      }
    }
  }

  lemma {:induction false} LeadersAreNew(scan: Scan, expanded: set<State>, candidates: seq<Crash>)
    ensures forall c :: c in Leaders(scan, expanded, candidates) && c in scan.states ==> scan.states[c] !in expanded
  {
    if candidates != [] { LeadersAreNew(scan, expanded, candidates[..|candidates| - 1]); }
  }

  lemma {:induction false} EveryStateHasALeader(scan: Scan, expanded: set<State>, candidates: seq<Crash>, c: Crash)
    requires c in candidates
    ensures var r := Leaders(scan, expanded, candidates);
      c in r || (c in scan.states && scan.states[c] in expanded) || exists d :: d in r && SameState(scan, c, d)
  {
    var rest, last := candidates[..|candidates| - 1], candidates[|candidates| - 1];
    assert candidates == rest + [last];
    if c in rest { EveryStateHasALeader(scan, expanded, rest, c); }
  }

  lemma {:induction false} FilterKeepsApart(scan: Scan, p: Crash -> bool, s: seq<Crash>)
    requires Apart(scan, s)
    ensures Apart(scan, Filter(p, s))
  {
    if s != [] {
      var rest := s[..|s| - 1];
      FilterKeepsApart(scan, p, rest);
      var r, last := Filter(p, rest), s[|s| - 1];
      forall i | 0 <= i < |r| ensures !SameState(scan, r[i], last) {
        assert r[i] in r;
        var k :| 0 <= k < |rest| && rest[k] == r[i];
        assert s[k] == r[i];
      }
      assert Filter(p, s) == r + (if p(last) then [last] else []);
    }
  }

  /** A pass sends no crash twice, at most one crash of each known state, never
      one whose state a marked bundle already carries, and never one this
      process has sent before. */
  lemma PassSendsEachStateOnce(scan: Scan, marked: set<Crash>, attempted: set<Crash>)
    requires Distinct(scan.listing)
    ensures var sent := Sent(scan, marked, attempted);
      && Distinct(sent)
      && Apart(scan, sent)
      && (forall c :: c in sent ==> c in scan.listing && c !in marked && c !in attempted)
      && (forall c, d :: c in sent && d in scan.listing && d in marked ==> !SameState(scan, c, d))
  {
    var candidates := Candidates(scan, marked);
    var expanded := ExpandedStates(scan, marked);
    CandidatesDistinct(scan, marked);
    LeadersStandAlone(scan, expanded, candidates);
    LeadersAreNew(scan, expanded, candidates);
    FilterDistinct((c: Crash) => c !in attempted, Leaders(scan, expanded, candidates));
    FilterKeepsApart(scan, (c: Crash) => c !in attempted, Leaders(scan, expanded, candidates));
  }

  /** Every candidate a pass does not send for its own sake is accounted for:
      it was sent before and awaits its decision, its state is expanded, or it
      rides on a candidate of the same state. */
  lemma EveryCandidateIsAccountedFor(scan: Scan, marked: set<Crash>, attempted: set<Crash>, c: Crash)
    requires Distinct(scan.listing) && c in Candidates(scan, marked)
    ensures
      || c in Sent(scan, marked, attempted)
      || c in attempted
      || (c in scan.states && scan.states[c] in ExpandedStates(scan, marked))
      || exists d :: d in Candidates(scan, marked) && d != c && SameState(scan, c, d) && (d in Sent(scan, marked, attempted) || d in attempted)
  {
    var candidates := Candidates(scan, marked);
    var expanded := ExpandedStates(scan, marked);
    EveryStateHasALeader(scan, expanded, candidates, c);
  }

  /** The same told from the bundles on disk: every crash that is unmarked and in
      the batch is sent or was sent before, unless its state is known and a marked
      bundle carries it, or a crash of its state is sent or was. */
  lemma NoCrashIsPassedOver(scan: Scan, marked: set<Crash>, attempted: set<Crash>, c: Crash)
    requires Distinct(scan.listing) && c in scan.listing && c !in marked && (scan.only.Some? ==> c in scan.only.value)
    ensures var tried := (set d | d in Sent(scan, marked, attempted)) + attempted;
      var others := set d | d in scan.listing && d !in marked && (scan.only.Some? ==> d in scan.only.value) && d in tried;
      var like := set d | d in scan.listing && c in scan.states && d in scan.states && scan.states[c] == scan.states[d];
      c in tried || exists d :: d in like && (d in marked || (d != c && d in others))
  {
    EveryCandidateIsAccountedFor(scan, marked, attempted, c);
    if c in scan.states && scan.states[c] in ExpandedStates(scan, marked) {
      var d :| d in scan.listing && d in marked && d in scan.states && scan.states[d] == scan.states[c];
    }
  }

  // ------------------------------------------------------------ passes of one process

  datatype Pass = Pass(scan: Scan, answered: set<Crash>, outside: set<Crash>)

  /** The markers and attempts after a pass; `outside` are markers other
      processes wrote before the next one. */
  ghost function MarkedAfter(p: Pass, marked: set<Crash>, attempted: set<Crash>): set<Crash> {
    p.outside + marked + set c | c in p.scan.listing && GetsMarker(p.scan, marked, attempted, p.answered, c)
  }

  ghost function AttemptedAfter(p: Pass, marked: set<Crash>, attempted: set<Crash>): set<Crash> {
    attempted + set c | c in Sent(p.scan, marked, attempted)
  }

  /** What each pass of a run sends. */
  ghost function SentOver(passes: seq<Pass>, marked: set<Crash>, attempted: set<Crash>): seq<Crash>
    decreases |passes|
  {
    if passes == [] then []
    else
      var p := passes[0];
      Sent(p.scan, marked, attempted) +
      SentOver(passes[1..], MarkedAfter(p, marked, attempted), AttemptedAfter(p, marked, attempted))
  }

  /** No crash is sent twice in one process, over any number of passes. */
  lemma {:induction false} NoCrashIsSentTwice(passes: seq<Pass>, marked: set<Crash>, attempted: set<Crash>)
    requires forall i :: 0 <= i < |passes| ==> Distinct(passes[i].scan.listing)
    ensures Distinct(SentOver(passes, marked, attempted))
    ensures forall c :: c in SentOver(passes, marked, attempted) ==> c !in attempted
    decreases |passes|
  {
    if passes != [] {
      var p := passes[0];
      assert forall i :: 0 <= i < |passes[1..]| ==> passes[1..][i] == passes[i + 1];
      PassSendsEachStateOnce(p.scan, marked, attempted);
      NoCrashIsSentTwice(passes[1..], MarkedAfter(p, marked, attempted), AttemptedAfter(p, marked, attempted));
      var first := Sent(p.scan, marked, attempted);
      var rest := SentOver(passes[1..], MarkedAfter(p, marked, attempted), AttemptedAfter(p, marked, attempted));
      forall i, j | 0 <= i < j < |first + rest| ensures (first + rest)[i] != (first + rest)[j] {
        if i < |first| <= j { assert first[i] in first && rest[j - |first|] in rest; }
      }
    }
  }
}
