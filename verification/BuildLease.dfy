/**
 The lease operations of lib/build_lease.py on the tables one process keeps:
 polling for the kernel lock, entering and leaving a scoped lease, and taking
 one for the life of the process.
 */
module BuildLease {
  import opened LeaseRules

  /** What a process meets when it asks for the lock: the kernel's table at
      that moment and, should the answer be no, the clock read next. */
  datatype Poll = Poll(table: Table, now: nat)

  datatype Outcome = Granted(at: nat) | TimedOut(at: nat) | Unwritable

  /** The wait ends by `deadline` at the latest. */
  predicate Reaches(polls: seq<Poll>, deadline: nat) {
    polls != [] && polls[|polls| - 1].now >= deadline
  }

  /** Poll `i` is the first that ends the wait. */
  ghost predicate EndsAt(polls: seq<Poll>, key: Key, mode: Mode, deadline: nat, i: nat) {
    && i < |polls|
    && (Free(polls[i].table, key, mode) || polls[i].now >= deadline)
    && forall k :: 0 <= k < i ==> !Free(polls[k].table, key, mode) && polls[k].now < deadline
  }

  class Leases {
    const pid: Pid
    var held: map<Key, Entry>
    var frames: seq<Frame>
    var kept: set<Handle>

    constructor (pid: Pid)
      ensures this.pid == pid && State() == Process(map[], [], {})
    {
      this.pid := pid;
      held, frames, kept := map[], [], {};
    }

    function State(): Process
      reads this
    {
      Process(held, frames, kept)
    }

    /** Poll for the lock until the deadline.  The lock is asked for at least
        once, however late it is, and the deadline is read only after a refusal. */
    static method Acquire(key: Key, mode: Mode, writable: bool, polls: seq<Poll>, deadline: nat) returns (r: Outcome)
      requires Reaches(polls, deadline)
      ensures r.Unwritable? <==> !writable
      ensures r.Granted? ==> EndsAt(polls, key, mode, deadline, r.at) && Free(polls[r.at].table, key, mode)
      ensures r.TimedOut? ==> EndsAt(polls, key, mode, deadline, r.at) && !Free(polls[r.at].table, key, mode)
      ensures r.Granted? ==>
        forall h, g | h in polls[r.at].table && g == polls[r.at].table[h] && g.key == key :: mode == g.mode == Shared
      ensures !r.Unwritable? ==> forall k :: 0 <= k < r.at ==> polls[k].now < deadline
      ensures r.TimedOut? ==> polls[r.at].now >= deadline
      ensures r.TimedOut? ==>
        exists h :: h in polls[r.at].table && polls[r.at].table[h].key == key && Exclusive in {mode, polls[r.at].table[h].mode}
    {
      if !writable { return Unwritable; }
      var i := 0;
      while true
        invariant i < |polls|
        invariant forall k :: 0 <= k < i ==> !Free(polls[k].table, key, mode) && polls[k].now < deadline
        decreases |polls| - i
      {
        if Free(polls[i].table, key, mode) { return Granted(i); }
        if polls[i].now >= deadline { return TimedOut(i); }
        i := i + 1;
      }
    }

    /** Enter a scoped lease.  `now` is the kernel's table at this moment and
        `handle` the open file description a request would use; `after` is the
        table once the request is settled. */
    method Enter(key: Key, mode: Mode, writable: bool, now: Table, polls: seq<Poll>, deadline: nat, handle: Handle)
        returns (entered: bool, after: Table)
      requires Reaches(polls, deadline)
      modifies this
      ensures kept == old(kept)
      ensures key in old(held) && (old(held)[key].mode == Exclusive || mode == Shared) ==>
        && entered && after == now && frames == old(frames) + [Frame(key, mode, Nested)]
        && held == old(held)[key := Entry(old(held)[key].count + 1, old(held)[key].mode)]
      ensures frames != [] && (frames[|frames| - 1].kind == Nested <==>
        key in old(held) && (old(held)[key].mode == Exclusive || mode == Shared))
      ensures Nests(old(State()), key, mode) ==>
        entered && after == now && State() == Entered(old(State()), key, mode, Nested)
      ensures !Nests(old(State()), key, mode) && entered ==>
        && State() == Entered(old(State()), key, mode, Owner(handle))
        && exists i: nat ::
             && EndsAt(polls, key, mode, deadline, i) && Free(polls[i].table, key, mode)
             && after == polls[i].table[handle := Grant(pid, key, mode)]
      ensures !Nests(old(State()), key, mode) && !entered ==>
        && State() == Entered(old(State()), key, mode, Failed)
        && (writable ==> exists i: nat :: EndsAt(polls, key, mode, deadline, i) && !Free(polls[i].table, key, mode) && after == polls[i].table)
        && (!writable ==> after == now)
    {
      if key in held && (held[key].mode == Exclusive || mode == held[key].mode) {
        held := held[key := held[key].(count := held[key].count + 1)];
        frames := frames + [Frame(key, mode, Nested)];
        return true, now;
      }
      var r := Acquire(key, mode, writable, polls, deadline);
      match r {
        case Granted(i) =>
          held := held[key := Entry(1, mode)];
          frames := frames + [Frame(key, mode, Owner(handle))];
          entered, after := true, polls[i].table[handle := Grant(pid, key, mode)];
        case TimedOut(i) =>
          frames := frames + [Frame(key, mode, Failed)];
          entered, after := false, polls[i].table;
        case Unwritable =>
          frames := frames + [Frame(key, mode, Failed)];
          entered, after := false, now;
      }
    }

    /** Leave the innermost scoped lease. */
    method Leave(now: Table) returns (after: Table)
      requires frames != []
      modifies this
      ensures State() == Left(old(State()))
      ensures kept == old(kept) && frames == old(frames)[..|old(frames)| - 1]
      ensures var f := old(frames)[|old(frames)| - 1];
        match f.kind
        case Owner(_) => held == old(held) - {f.key}
        case Failed => held == old(held)
        case Nested =>
          if f.key in old(held) && old(held)[f.key].count > 1 then
            held == old(held)[f.key := Entry(old(held)[f.key].count - 1, old(held)[f.key].mode)]
          else held == old(held) - {f.key}
      ensures var f := old(frames)[|old(frames)| - 1];
        after == if f.kind.Owner? then now - {f.kind.handle} else now
    {
      var f := frames[|frames| - 1];
      frames := frames[..|frames| - 1];
      after := now;
      match f.kind {
        case Nested =>
          if f.key in held {
            if held[f.key].count <= 1 { held := held - {f.key}; }
            else { held := held[f.key := held[f.key].(count := held[f.key].count - 1)]; }
          }
        case Owner(handle) =>
          held := held - {f.key};
          after := now - {handle};
        case Failed =>
      }
    }

    /** Hold a build tree for the rest of this process's life. */
    method HoldShared(key: Key, writable: bool, now: Table, polls: seq<Poll>, deadline: nat, handle: Handle)
        returns (taken: bool, after: Table)
      requires Reaches(polls, deadline)
      modifies this
      ensures frames == old(frames)
      ensures key in old(held) ==> taken && State() == old(State()) && after == now
      ensures key !in old(held) && taken ==>
        && kept == old(kept) + {handle} && held == old(held)[key := Entry(1, Shared)]
        && State() == Keeping(old(State()), key, handle)
        && exists i: nat ::
             && EndsAt(polls, key, Shared, deadline, i) && Free(polls[i].table, key, Shared)
             && after == polls[i].table[handle := Grant(pid, key, Shared)]
      ensures key !in old(held) && !taken ==>
        && State() == old(State())
        && (writable ==> exists i: nat :: EndsAt(polls, key, Shared, deadline, i) && !Free(polls[i].table, key, Shared) && after == polls[i].table)
        && (!writable ==> after == now)
    {
      if key in held { return true, now; }
      var r := Acquire(key, Shared, writable, polls, deadline);
      match r {
        case Granted(i) =>
          kept := kept + {handle};
          held := held[key := Entry(1, Shared)];
          taken, after := true, polls[i].table[handle := Grant(pid, key, Shared)];
        case TimedOut(i) =>
          taken, after := false, polls[i].table;
        case Unwritable =>
          taken, after := false, now;
      }
    }
  }

  /** The lock is granted exactly when some poll finds it free before a clock
      reading has reached the deadline. */
  lemma GrantedExactlyWhenFreeInTime(polls: seq<Poll>, key: Key, mode: Mode, deadline: nat, i: nat)
    requires EndsAt(polls, key, mode, deadline, i)
    ensures Free(polls[i].table, key, mode) <==>
      exists k :: 0 <= k < |polls| && Free(polls[k].table, key, mode) && forall l :: 0 <= l < k ==> polls[l].now < deadline
  {
    forall k | 0 <= k < |polls| && Free(polls[k].table, key, mode) && forall l :: 0 <= l < k ==> polls[l].now < deadline
      ensures Free(polls[i].table, key, mode)
    {
      assert k >= i;
    }
  }
}
