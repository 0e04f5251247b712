/**
 The hand-off lane that expands promoted crashes off every critical path
 (`ClusterExpansionLane` in lib/audit_runner.py).  One expansion runs at a
 time; crashes handed over meanwhile wait in a backlog, and the completion
 callback retires the batch and starts the next one under one lock.
 */
module ClusterLane {
  import opened Common

  type Crash = nat
  type Future = nat

  /** The fields the lane's lock guards.  `next` numbers the submitted batches. */
  datatype Lane = Lane(expansion: Option<Future>, expanding: set<Crash>, backlog: seq<Crash>, next: Future)

  const IdleLane := Lane(None, {}, [], 0)

  function ToSet(s: seq<Crash>): set<Crash> {
    set c | c in s
  }

  /** The backlog after `crashes` are handed over one by one. */
  function Queued(l: Lane, crashes: seq<Crash>, marked: set<Crash>): seq<Crash> {
    if crashes == [] then l.backlog
    else
      var before, c := Queued(l, crashes[..|crashes| - 1], marked), crashes[|crashes| - 1];
      if c !in before && c !in l.expanding && c !in marked then before + [c] else before
  }

  function Batch(l: Lane, marked: set<Crash>): seq<Crash> {
    Filter((c: Crash) => c !in marked, l.backlog)
  }

  /** `_start_locked`: take the unmarked backlog as the next batch. */
  function StartedLane(l: Lane, marked: set<Crash>): Lane {
    var batch := Batch(l, marked);
    if batch == [] then l.(backlog := [])
    else Lane(Some(l.next), ToSet(batch), [], l.next + 1)
  }

  function Scheduled(l: Lane, crashes: seq<Crash>, marked: set<Crash>): Lane {
    var m := l.(backlog := Queued(l, crashes, marked));
    if m.expansion.Some? then m else StartedLane(m, marked)
  }

  /** The completion of batch `f`, in time for its deadline or not. */
  function Completed(l: Lane, f: Future, inTime: bool, marked: set<Crash>): Lane {
    if l.expansion != Some(f) then l
    else
      var m := l.(expansion := None, expanding := {});
      if inTime then StartedLane(m, marked) else m
  }

  datatype Word = InFlight | Idle | Started

  class ClusterExpansionLane {
    var expansion: Option<Future>
    var expanding: set<Crash>
    var backlog: seq<Crash>
    var next: Future

    ghost function Value(): Lane
      reads this
    {
      Lane(expansion, expanding, backlog, next)
    }

    constructor ()
      ensures Value() == IdleLane
    {
      expansion, expanding, backlog, next := None, {}, [], 0;
    }

    /** Queue crashes for expansion; the future that started, if one did, is
        the caller's to watch. */
    method Schedule(crashes: seq<Crash>, marked: set<Crash>) returns (word: Word, future: Option<Future>)
      modifies this
      ensures Value() == Scheduled(old(Value()), crashes, marked)
      ensures word == (if old(expansion).Some? then InFlight else if expansion.Some? then Started else Idle)
      ensures future == if word.Started? then expansion else None
    {
      for i := 0 to |crashes|
        invariant Value() == old(Value()).(backlog := Queued(old(Value()), crashes[..i], marked))
      {
        assert crashes[..i + 1][..i] == crashes[..i];
        if crashes[i] !in backlog && crashes[i] !in expanding && crashes[i] !in marked {
          backlog := backlog + [crashes[i]];
        }
      }
      assert crashes[..|crashes|] == crashes;
      if expansion.Some? { return InFlight, None; }
      future := StartLocked(marked);
      word := if future.Some? then Started else Idle;
    }

    method StartLocked(marked: set<Crash>) returns (future: Option<Future>)
      requires expansion.None?
      modifies this
      ensures Value() == StartedLane(old(Value()), marked)
      ensures future == expansion
    {
      var batch := Batch(Lane(expansion, expanding, backlog, next), marked);
      backlog := [];
      if batch == [] { return None; }
      expanding, expansion, next := ToSet(batch), Some(next), next + 1;
      future := expansion;
    }

    /** Retiring a batch and starting the next is one critical section; the
        future that follows is again the caller's to watch. */
    method Done(f: Future, inTime: bool, marked: set<Crash>) returns (following: Option<Future>)
      modifies this
      ensures Value() == Completed(old(Value()), f, inTime, marked)
      ensures following == if old(expansion) == Some(f) then expansion else None
    {
      if expansion != Some(f) { return None; }
      expansion, expanding, following := None, {}, None;
      if inTime { following := StartLocked(marked); }
    }
  }

  // ------------------------------------------------------------ the lane among its threads

  /** Whether the thread that must register a future's callback still will. */
  datatype Watch = Pending | Registered | Lost

  /** The lane, its executor and callbacks, the markers on disk, and what has
      happened: crashes ever handed over unmarked, crashes of finished batches,
      whether the last completion came after its deadline, and whether any
      completion's report raised. */
  datatype World = World(
    lane: Lane, watch: map<Future, Watch>, ran: set<Future>, retired: set<Future>, marked: set<Crash>,
    handed: set<Crash>, finished: set<Crash>, lastLate: bool, raised: bool)

  datatype Step =
    | Schedule(crashes: seq<Crash>)
    | Register(f: Future)
    | Mark(c: Crash)
    | Run(f: Future)
    | Callback(f: Future, inTime: bool, raises: bool)

  predicate Enabled(w: World, step: Step) {
    match step
    case Schedule(_) => true
    case Register(f) => f in w.watch && w.watch[f].Pending?
    case Mark(_) => true
    case Run(f) => f in w.watch && f !in w.ran
    case Callback(f, _, _) => f in w.watch && w.watch[f].Registered? && f in w.ran && f !in w.retired
  }

  /** A report that raises leaves the critical section done, and the statement
      that registers the following future's callback unreached. */
  function Next(w: World, step: Step): World
    requires Enabled(w, step)
  {
    match step
    case Schedule(crashes) =>
      var l := Scheduled(w.lane, crashes, w.marked);
      w.(lane := l, handed := w.handed + (ToSet(crashes) - w.marked),
         watch := if w.lane.expansion.None? && l.expansion.Some? then w.watch[l.expansion.value := Pending] else w.watch)
    case Register(f) => w.(watch := w.watch[f := Registered])
    case Mark(c) => w.(marked := w.marked + {c})
    case Run(f) => w.(ran := w.ran + {f})
    case Callback(f, inTime, raises) =>
      var l := Completed(w.lane, f, inTime, w.marked);
      w.(lane := l, retired := w.retired + {f}, finished := w.finished + w.lane.expanding,
         lastLate := !inTime, raised := w.raised || raises,
         watch := if l.expansion.Some? then w.watch[l.expansion.value := if raises then Lost else Pending] else w.watch)
  }

  const Start := World(IdleLane, map[], {}, {}, {}, {}, {}, false, false)

  ghost predicate Runs(w: World, steps: seq<Step>)
    decreases |steps|
  {
    steps == [] || (Enabled(w, steps[0]) && Runs(Next(w, steps[0]), steps[1..]))
  }

  ghost function After(w: World, steps: seq<Step>): World
    requires Runs(w, steps)
    decreases |steps|
  {
    if steps == [] then w else After(Next(w, steps[0]), steps[1..])
  }

  /** Backlog and running batch share nothing and repeat nothing; with no batch
      running, work is queued only behind a deadline that has passed. */
  ghost predicate Orderly(l: Lane, lastLate: bool) {
    && Distinct(l.backlog)
    && (forall c :: c in l.backlog ==> c !in l.expanding)
    && (l.expansion.None? ==> l.expanding == {} && (lastLate || l.backlog == []))
    && (l.expansion.Some? ==> l.expansion.value < l.next && l.expanding != {})
  }

  /** The one batch not yet retired is the one the lane calls running. */
  ghost predicate OneBatch(w: World) {
    && (forall f: Future :: f in w.watch <==> f < w.lane.next)
    && w.ran <= w.watch.Keys && w.retired <= w.ran
    && (forall f: Future :: f in w.watch && f !in w.retired <==> w.lane.expansion == Some(f))
    && (forall f :: f in w.watch && w.watch[f].Lost? ==> w.raised)
  }

  ghost predicate NothingLost(w: World) {
    forall c :: c in w.handed ==> c in w.lane.backlog || c in w.lane.expanding || c in w.finished || c in w.marked
  }

  ghost predicate Inv(w: World) {
    Orderly(w.lane, w.lastLate) && OneBatch(w) && NothingLost(w)
  }

  lemma {:induction false} QueuedKeeps(l: Lane, crashes: seq<Crash>, marked: set<Crash>)
    requires Distinct(l.backlog) && forall c :: c in l.backlog ==> c !in l.expanding
    ensures var q := Queued(l, crashes, marked);
      && Distinct(q)
      && (forall c :: c in q <==> c in l.backlog || (c in crashes && c !in l.expanding && c !in marked))
      && (forall c :: c in q ==> c !in l.expanding)
  {
    if crashes != [] {
      var rest, c := crashes[..|crashes| - 1], crashes[|crashes| - 1];
      QueuedKeeps(l, rest, marked);
      assert crashes == rest + [c];
    }
  }

  lemma StartKeepsOrderly(l: Lane, marked: set<Crash>)
    requires l.expansion.None? && l.expanding == {}
    ensures var m := StartedLane(l, marked);
      && Orderly(m, false)
      && (forall c :: c in l.backlog ==> c in m.expanding || c in marked)
      && (m.expansion.Some? ==> m.expansion == Some(l.next))
  {
    var batch := Batch(l, marked);
    if batch != [] { assert batch[0] in ToSet(batch); }
  }

  /** No crash of `l` or of the hand-off goes missing in `m`. */
  ghost predicate Passes(l: Lane, crashes: seq<Crash>, marked: set<Crash>, m: Lane) {
    && (forall c :: c in l.backlog ==> c in m.backlog || c in m.expanding || c in marked)
    && (forall c :: c in crashes ==> c in m.backlog || c in m.expanding || c in marked)
    && l.expanding <= m.expanding
  }

  /** Which batch runs after a hand-off. */
  ghost predicate Numbered(l: Lane, m: Lane) {
    if l.expansion.None? && m.expansion.Some? then m.expansion == Some(l.next) && m.next == l.next + 1
    else m.expansion == l.expansion && m.next == l.next
  }

  lemma ScheduledIsOrderly(l: Lane, lastLate: bool, crashes: seq<Crash>, marked: set<Crash>)
    requires Orderly(l, lastLate)
    ensures Orderly(Scheduled(l, crashes, marked), lastLate)
  {
    var q := l.(backlog := Queued(l, crashes, marked));
    QueuedKeeps(l, crashes, marked);
    if l.expansion.None? { StartKeepsOrderly(q, marked); }
  }

  lemma ScheduledPasses(l: Lane, lastLate: bool, crashes: seq<Crash>, marked: set<Crash>)
    requires Orderly(l, lastLate)
    ensures Passes(l, crashes, marked, Scheduled(l, crashes, marked)) && Numbered(l, Scheduled(l, crashes, marked))
  {
    var q := l.(backlog := Queued(l, crashes, marked));
    QueuedKeeps(l, crashes, marked);
    if l.expansion.None? { StartKeepsOrderly(q, marked); }
  }

  lemma ScheduleKeepsInv(w: World, crashes: seq<Crash>)
    requires Inv(w)
    ensures Inv(Next(w, Schedule(crashes)))
  {
    ScheduledIsOrderly(w.lane, w.lastLate, crashes, w.marked);
    ScheduledPasses(w.lane, w.lastLate, crashes, w.marked);
  }

  lemma CallbackKeepsInv(w: World, f: Future, inTime: bool, raises: bool)
    requires Inv(w) && Enabled(w, Callback(f, inTime, raises))
    ensures w.lane.expansion == Some(f)
    ensures Inv(Next(w, Callback(f, inTime, raises)))
  {
    assert w.lane.expansion == Some(f);
    var m := w.lane.(expansion := None, expanding := {});
    if inTime { StartKeepsOrderly(m, w.marked); }
  }

  lemma StepKeepsInv(w: World, step: Step)
    requires Inv(w) && Enabled(w, step)
    ensures Inv(Next(w, step))
  {
    match step
    case Schedule(crashes) => ScheduleKeepsInv(w, crashes);
    case Callback(f, inTime, raises) => CallbackKeepsInv(w, f, inTime, raises);
    case _ =>
  }

  lemma {:induction false} EveryRunKeepsInv(w: World, steps: seq<Step>)
    requires Inv(w) && Runs(w, steps)
    ensures Inv(After(w, steps))
    decreases |steps|
  {
    if steps != [] {
      StepKeepsInv(w, steps[0]);
      EveryRunKeepsInv(Next(w, steps[0]), steps[1..]);
    }
  }

  ghost predicate Reached(steps: seq<Step>, w: World) {
    Runs(Start, steps) && w == After(Start, steps)
  }

  lemma ReachedHolds(steps: seq<Step>, w: World)
    requires Reached(steps, w)
    ensures Inv(w)
  {
    assert OneBatch(Start);
    EveryRunKeepsInv(Start, steps);
  }

  // ------------------------------------------------------------ what every run guarantees

  /** At most one expansion runs; backlog and running batch are disjoint and
      hold no crash twice; and a callback that fires always finds its own batch
      running, so its guard never turns it away. */
  lemma OneExpansionAtATime(steps: seq<Step>, w: World, f: Future, g: Future)
    requires Reached(steps, w)
    requires f in w.watch && f !in w.retired && g in w.watch && g !in w.retired
    ensures f == g && w.lane.expansion == Some(f)
    ensures Distinct(w.lane.backlog) && forall c :: c in w.lane.backlog ==> c !in w.lane.expanding
  {
    ReachedHolds(steps, w);
  }

  /** Every crash handed over unmarked is queued, in the running batch, in a
      finished batch, or has its marker. */
  lemma HandOffsAreKept(steps: seq<Step>, w: World, c: Crash)
    requires Reached(steps, w) && c in w.handed
    ensures c in w.lane.backlog || c in w.lane.expanding || c in w.finished || c in w.marked
  {
    ReachedHolds(steps, w);
  }

  /** `drain` returns only when no expansion runs.  If the last completion was
      in time for its deadline, nothing is queued then, and everything handed
      over has been through a batch or carries its marker. */
  lemma DrainMissesNothing(steps: seq<Step>, w: World)
    requires Reached(steps, w) && w.lane.expansion.None? && !w.lastLate
    ensures w.lane.backlog == []
    ensures forall c :: c in w.handed ==> c in w.finished || c in w.marked
  {
    ReachedHolds(steps, w);
  }

  /** When no report raised, a running batch can always be moved on to its
      retirement: its executor, its registration or its callback is enabled. */
  lemma RunningBatchCanRetire(steps: seq<Step>, w: World)
    requires Reached(steps, w) && w.lane.expansion.Some? && !w.raised
    ensures var f := w.lane.expansion.value;
      Enabled(w, Run(f)) || Enabled(w, Register(f)) || Enabled(w, Callback(f, true, false))
  {
    ReachedHolds(steps, w);
  }

  // ------------------------------------------------------------ where the hand-off breaks

  /** A completion leaves its follower unwatched exactly when its report raises
      and, in time, finds an unmarked crash queued. */
  lemma FollowerIsLostExactly(w: World, f: Future, inTime: bool, raises: bool)
    requires Inv(w) && Enabled(w, Callback(f, inTime, raises))
    ensures var v := Next(w, Callback(f, inTime, raises));
      (v.lane.expansion.Some? && v.watch[v.lane.expansion.value].Lost?) <==>
        (raises && inTime && exists c :: c in w.lane.backlog && c !in w.marked)
  {
    CallbackKeepsInv(w, f, inTime, raises);
    var m := w.lane.(expansion := None, expanding := {});
    assert forall c :: c in Batch(m, w.marked) <==> c in w.lane.backlog && c !in w.marked;
    if Batch(m, w.marked) != [] { assert Batch(m, w.marked)[0] in w.lane.backlog; }
  }

  /** An unwatched follower is never retired: whatever happens next, the lane
      stays busy with it and a `drain` does not return. */
  lemma {:induction false} LostFollowerWedgesTheLane(w: World, steps: seq<Step>, f: Future)
    requires Inv(w) && Runs(w, steps) && w.lane.expansion == Some(f) && w.watch[f].Lost?
    ensures After(w, steps).lane.expansion == Some(f)
    decreases |steps|
  {
    if steps != [] {
      var v := Next(w, steps[0]);
      StepKeepsInv(w, steps[0]);
      assert v.lane.expansion == Some(f) && v.watch[f].Lost?;
      LostFollowerWedgesTheLane(v, steps[1..], f);
    }
  }

  /** A queued crash whose marker appears before its batch starts leaves the
      backlog without ever being in a batch; an unmarked one joins the batch. */
  lemma StartingDropsExactlyTheMarked(l: Lane, marked: set<Crash>, c: Crash)
    requires l.expansion.None? && l.expanding == {} && c in l.backlog
    ensures var m := StartedLane(l, marked); c !in m.backlog && (c in m.expanding <==> c !in marked)
  {
    assert c in Batch(l, marked) <==> c !in marked;
  }

  /** A crash handed over unmarked that is in no batch, queued, running or over. */
  predicate Missing(w: World, c: Crash) {
    c in w.handed && c !in w.lane.backlog && c !in w.lane.expanding && c !in w.finished
  }

  /** The step takes the backlog as the next batch. */
  predicate StartsTheBacklog(w: World, step: Step) {
    match step
    case Schedule(_) => w.lane.expansion.None?
    case Callback(f, inTime, _) => inTime && w.lane.expansion == Some(f)
    case _ => false
  }

  /** The step drops a queued crash that is marked and was in no batch before. */
  predicate Drops(w: World, step: Step, c: Crash) {
    StartsTheBacklog(w, step) && c in w.lane.backlog && c in w.marked && c !in w.finished
  }

  ghost predicate DroppedIn(w: World, steps: seq<Step>, c: Crash)
    requires Runs(w, steps)
    decreases |steps|
  {
    steps != [] && (Drops(w, steps[0], c) || DroppedIn(Next(w, steps[0]), steps[1..], c))
  }

  /** What is queued or running was handed over. */
  ghost predicate Traced(w: World) {
    && (forall c :: c in w.lane.backlog ==> c in w.handed)
    && (forall c :: c in w.lane.expanding ==> c in w.handed)
  }

  lemma StartingTakesExactlyTheUnmarked(l: Lane, marked: set<Crash>)
    requires l.expansion.None? && l.expanding == {}
    ensures var m := StartedLane(l, marked);
      m.backlog == [] && forall c :: c in m.expanding <==> c in l.backlog && c !in marked
  {
    forall c ensures c in StartedLane(l, marked).expanding <==> c in l.backlog && c !in marked {
      if c in l.backlog { StartingDropsExactlyTheMarked(l, marked, c); }
      assert c in Batch(l, marked) <==> c in l.backlog && c !in marked;
    }
  }

  lemma ScheduleDropsExactly(w: World, crashes: seq<Crash>, c: Crash)
    requires Inv(w) && Traced(w)
    ensures var v := Next(w, Schedule(crashes)); Traced(v) && (Missing(v, c) <==> Missing(w, c) || Drops(w, Schedule(crashes), c))
  {
    var q := w.lane.(backlog := Queued(w.lane, crashes, w.marked));
    QueuedKeeps(w.lane, crashes, w.marked);
    if w.lane.expansion.None? { StartingTakesExactlyTheUnmarked(q, w.marked); }
  }

  lemma CallbackDropsExactly(w: World, f: Future, inTime: bool, raises: bool, c: Crash)
    requires Inv(w) && Traced(w) && Enabled(w, Callback(f, inTime, raises))
    ensures var v := Next(w, Callback(f, inTime, raises));
      Traced(v) && (Missing(v, c) <==> Missing(w, c) || Drops(w, Callback(f, inTime, raises), c))
  {
    CallbackKeepsInv(w, f, inTime, raises);
    if inTime { StartingTakesExactlyTheUnmarked(w.lane.(expansion := None, expanding := {}), w.marked); }
  }

  lemma {:induction false} MissingAlongARun(w: World, steps: seq<Step>, c: Crash)
    requires Inv(w) && Traced(w) && Runs(w, steps)
    ensures Missing(After(w, steps), c) <==> Missing(w, c) || DroppedIn(w, steps, c)
    decreases |steps|
  {
    if steps != [] {
      var v := Next(w, steps[0]);
      StepKeepsInv(w, steps[0]);
      match steps[0] {
        case Schedule(crashes) => ScheduleDropsExactly(w, crashes, c);
        case Callback(f, inTime, raises) => CallbackDropsExactly(w, f, inTime, raises, c);
        case _ =>
      }
      MissingAlongARun(v, steps[1..], c);
    }
  }

  /** Over every run a crash handed over unmarked is queued, running or in a
      finished batch, unless, and only if not, some start of a batch met it
      queued and marked before it had been in any batch. */
  lemma MissingExactlyWhenDropped(steps: seq<Step>, w: World, c: Crash)
    requires Reached(steps, w) && c in w.handed
    ensures !(c in w.lane.backlog || c in w.lane.expanding || c in w.finished) <==> DroppedIn(Start, steps, c)
  {
    assert OneBatch(Start);
    MissingAlongARun(Start, steps, c);
  }

  lemma OneMore(w: World, step: Step, steps: seq<Step>)
    requires Enabled(w, step) && Runs(Next(w, step), steps)
    ensures Runs(w, [step] + steps) && After(w, [step] + steps) == After(Next(w, step), steps)
  {
    assert ([step] + steps)[1..] == steps;
  }

  /** Such a run: a crash waits behind a running batch, something else marks it,
      and the next start leaves it out. */
  function DroppingRun(a: Crash, b: Crash): seq<Step> {
    [Schedule([a]), Schedule([b])] + [Mark(b), Register(0)] + [Run(0), Callback(0, true, false)]
  }

  lemma AQueuedCrashIsLost(a: Crash, b: Crash)
    requires a != b
    ensures Runs(Start, DroppingRun(a, b)) && Missing(After(Start, DroppingRun(a, b)), b)
  {
    var u := FirstStarts(a);
    var w := SecondWaits(u, a, b);
    var v := MarkedAndDropped(w, a, b);
    OneMore(u, Schedule([b]), [Mark(b), Register(0)] + [Run(0), Callback(0, true, false)]);
    OneMore(Start, Schedule([a]), [Schedule([b])] + ([Mark(b), Register(0)] + [Run(0), Callback(0, true, false)]));
    assert DroppingRun(a, b) == [Schedule([a])] + ([Schedule([b])] + ([Mark(b), Register(0)] + [Run(0), Callback(0, true, false)]));
  }

  lemma QueueOne(l: Lane, c: Crash)
    requires c !in l.backlog && c !in l.expanding
    ensures Queued(l, [c], {}) == l.backlog + [c]
  {
    assert [c][..0] == [];
    assert Queued(l, [], {}) == l.backlog;
  }

  lemma FirstStarts(a: Crash) returns (u: World)
    ensures u == Next(Start, Schedule([a]))
    ensures u.lane == Lane(Some(0), {a}, [], 1) && u.watch == map[0 := Pending]
    ensures u.ran == {} && u.retired == {} && u.marked == {} && u.handed == {a} && u.finished == {}
  {
    QueueOne(IdleLane, a);
    var q := IdleLane.(backlog := [a]);
    assert [a][..0] == [] && Batch(q, {}) == [a];
    assert ToSet([a]) == {a} && Scheduled(IdleLane, [a], {}) == Lane(Some(0), {a}, [], 1);
    u := Next(Start, Schedule([a]));
  }

  lemma SecondWaits(u: World, a: Crash, b: Crash) returns (w: World)
    requires a != b && u.lane == Lane(Some(0), {a}, [], 1) && u.marked == {} && u.handed == {a}
    ensures w == Next(u, Schedule([b]))
    ensures w.lane == Lane(Some(0), {a}, [b], 1) && w.watch == u.watch
    ensures w.ran == u.ran && w.retired == u.retired && w.marked == {} && b in w.handed && w.finished == u.finished
  {
    QueueOne(u.lane, b);
    w := Next(u, Schedule([b]));
    assert b in ToSet([b]);
  }

  lemma MarkedAndDropped(w: World, a: Crash, b: Crash) returns (v: World)
    requires a != b && w.lane == Lane(Some(0), {a}, [b], 1) && w.watch == map[0 := Pending]
    requires w.ran == {} && w.retired == {} && w.marked == {} && b in w.handed && w.finished == {}
    ensures Runs(w, [Mark(b), Register(0)] + [Run(0), Callback(0, true, false)])
    ensures v == After(w, [Mark(b), Register(0)] + [Run(0), Callback(0, true, false)]) && Missing(v, b)
  {
    var w1 := Next(w, Mark(b));
    var w2 := Next(w1, Register(0));
    var w3 := Next(w2, Run(0));
    var l := w3.lane.(expansion := None, expanding := {});
    StartingTakesExactlyTheUnmarked(l, {b});
    v := Next(w3, Callback(0, true, false));
    OneMore(w3, Callback(0, true, false), []);
    OneMore(w2, Run(0), [Callback(0, true, false)]);
    OneMore(w1, Register(0), [Run(0)] + [Callback(0, true, false)]);
    OneMore(w, Mark(b), [Register(0)] + ([Run(0)] + [Callback(0, true, false)]));
    assert [Mark(b), Register(0)] + [Run(0), Callback(0, true, false)]
        == [Mark(b)] + ([Register(0)] + ([Run(0)] + [Callback(0, true, false)]));
    assert [Callback(0, true, false)] == [Callback(0, true, false)] + [];
  }

  /** A run that loses a follower: a batch waits behind the running one, whose
      report raises in time. */
  function RaisingRun(a: Crash, b: Crash): seq<Step> {
    [Schedule([a]), Schedule([b])] + [Register(0), Run(0), Callback(0, true, true)]
  }

  lemma AFollowerIsLost(a: Crash, b: Crash)
    requires a != b
    ensures Runs(Start, RaisingRun(a, b))
    ensures var v := After(Start, RaisingRun(a, b));
      && v.lane.expansion == Some(1) && 1 in v.watch && v.watch[1].Lost?
      && forall steps :: Runs(v, steps) ==> After(v, steps).lane.expansion == Some(1)
  {
    var u := FirstStarts(a);
    var w := SecondWaits(u, a, b);
    var v := RaisedReport(w, a, b);
    OneMore(u, Schedule([b]), [Register(0), Run(0), Callback(0, true, true)]);
    OneMore(Start, Schedule([a]), [Schedule([b])] + [Register(0), Run(0), Callback(0, true, true)]);
    assert RaisingRun(a, b) == [Schedule([a])] + ([Schedule([b])] + [Register(0), Run(0), Callback(0, true, true)]);
    ReachedHolds(RaisingRun(a, b), v);
    forall steps | Runs(v, steps) ensures After(v, steps).lane.expansion == Some(1) {
      LostFollowerWedgesTheLane(v, steps, 1);
    }
  }

  lemma RaisedReport(w: World, a: Crash, b: Crash) returns (v: World)
    requires a != b && w.lane == Lane(Some(0), {a}, [b], 1) && w.watch == map[0 := Pending]
    requires w.ran == {} && w.retired == {} && w.marked == {}
    ensures Runs(w, [Register(0), Run(0), Callback(0, true, true)])
    ensures v == After(w, [Register(0), Run(0), Callback(0, true, true)])
    ensures v.lane.expansion == Some(1) && 1 in v.watch && v.watch[1].Lost?
  {
    var w1 := Next(w, Register(0));
    var w2 := Next(w1, Run(0));
    assert b in Batch(w2.lane, {});
    v := Next(w2, Callback(0, true, true));
    OneMore(w2, Callback(0, true, true), []);
    OneMore(w1, Run(0), [Callback(0, true, true)]);
    OneMore(w, Register(0), [Run(0)] + [Callback(0, true, true)]);
    assert [Register(0), Run(0), Callback(0, true, true)] == [Register(0)] + ([Run(0)] + [Callback(0, true, true)]);
    assert [Callback(0, true, true)] == [Callback(0, true, true)] + [];
  }
}
