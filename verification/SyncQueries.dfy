/**
 * The call operators of the synchronous queries themselves (sync_query.h, if_sync_query.h,
 * if_volatile_sync_query.h), run by one thread on recursive mutexes, and what they have to do with the steps
 * of SyncCalls.
 */
module SyncQueries {
  import opened Common
  import opened SyncCalls

  /** A call, and the calls that its handler (with the result handler of a volatile query) makes in turn. */
  datatype CallTree = CallTree(sender: CompId, receiver: CompId, m: MsgId, listened: bool, inner: seq<CallTree>)

  predicate Locked(x: Setup, call: CallTree) {
    x.home(call.sender) != x.executor(call.receiver, call.m)
  }

  function FrameOf(x: Setup, call: CallTree, stage: Stage): Frame {
    Frame(call.sender, call.receiver, call.m, Locked(x, call), call.listened, stage)
  }

  /** What a call reports: its request, whatever its handler's calls report, its response. */
  function Trace(x: Setup, call: CallTree): seq<Event> {
    var inner := TraceAll(x, call.inner);
    if !call.listened then inner
    else if x.home(call.sender) == x.executor(call.receiver, call.m) then
      [Event(Request, call.sender, call.receiver, call.m)] + inner
        + [Event(Response, call.receiver, call.sender, call.m)]
    else
      [Event(LockedRequest, call.sender, call.receiver, call.m)] + inner
        + [Event(LockedResponse, call.receiver, call.sender, call.m)]
  }

  function TraceAll(x: Setup, calls: seq<CallTree>): seq<Event> {
    if calls == [] then [] else Trace(x, calls[0]) + TraceAll(x, calls[1..])
  }

  /** How many calls of the tree have a listener. */
  function Listened(call: CallTree): nat {
    (if call.listened then 1 else 0) + ListenedAll(call.inner)
  }

  function ListenedAll(calls: seq<CallTree>): nat {
    if calls == [] then 0 else Listened(calls[0]) + ListenedAll(calls[1..])
  }

  /** A call reports two events for each call in its tree that has a listener; its own are the first and the
      last, and say whether a lock was needed, who called whom and for what. */
  lemma {:induction false} TraceExact(x: Setup, call: CallTree)
    ensures var log := Trace(x, call);
      && |log| == 2 * Listened(call)
      && (call.listened ==>
            var locks := x.home(call.sender) != x.executor(call.receiver, call.m);
            && log[0] == Event(if locks then LockedRequest else Request, call.sender, call.receiver, call.m)
            && log[|log| - 1] == Event(if locks then LockedResponse else Response, call.receiver, call.sender, call.m))
    decreases call, 1
  {
    TraceAllExact(x, call.inner);
  }

  lemma {:induction false} TraceAllExact(x: Setup, calls: seq<CallTree>)
    ensures |TraceAll(x, calls)| == 2 * ListenedAll(calls)
    decreases calls, 0
  {
    if calls != [] {
      TraceExact(x, calls[0]);
      TraceAllExact(x, calls[1..]);
    }
  }

  /** No other thread has a lock that the call will need. */
  predicate Uncontended(x: Setup, locks: map<CompId, Held>, t: ThreadId, call: CallTree) {
    && (Locked(x, call) ==> Free(locks, call.receiver, t))
    && UncontendedAll(x, locks, t, call.inner)
  }

  predicate UncontendedAll(x: Setup, locks: map<CompId, Held>, t: ThreadId, calls: seq<CallTree>) {
    calls != [] ==> Uncontended(x, locks, t, calls[0]) && UncontendedAll(x, locks, t, calls[1..])
  }

  ghost predicate Counted(locks: map<CompId, Held>) {
    forall c :: c in locks ==> locks[c].count > 0
  }

  lemma {:induction false} UnlockUndoesLock(locks: map<CompId, Held>, c: CompId, t: ThreadId)
    requires Counted(locks) && Free(locks, c, t)
    ensures Counted(LockOnce(locks, c, t)) && UnlockOnce(LockOnce(locks, c, t), c) == locks
  {
    if c !in locks {
      assert locks[c := Held(t, 1)] - {c} == locks;
    }
  }

  /** A lock that a thread takes does not stop its own calls. */
  lemma {:induction false} StaysUncontended(x: Setup, locks: map<CompId, Held>, t: ThreadId, c: CompId,
          calls: seq<CallTree>)
    requires UncontendedAll(x, locks, t, calls)
    ensures UncontendedAll(x, LockOnce(locks, c, t), t, calls)
    decreases calls
  {
    if calls != [] {
      StaysUncontended(x, locks, t, c, calls[0].inner);
      StaysUncontended(x, locks, t, c, calls[1..]);
    }
  }

  lemma {:induction false} UncontendedFrom(x: Setup, locks: map<CompId, Held>, t: ThreadId,
          calls: seq<CallTree>, i: nat)
    requires UncontendedAll(x, locks, t, calls) && i <= |calls|
    ensures UncontendedAll(x, locks, t, calls[i..])
    ensures i < |calls| ==> Uncontended(x, locks, t, calls[i])
    decreases |calls|
  {
    if i > 0 {
      UncontendedFrom(x, locks, t, calls[1..], i - 1);
      assert calls[1..][i - 1..] == calls[i..];
    }
  }

  lemma {:induction false} TraceAllAppend(x: Setup, calls: seq<CallTree>, call: CallTree)
    ensures TraceAll(x, calls + [call]) == TraceAll(x, calls) + Trace(x, call)
    decreases |calls|
  {
    if calls == [] {
      assert calls + [call] == [call] && [call][1..] == [];
    } else {
      assert (calls + [call])[1..] == calls[1..] + [call];
      TraceAllAppend(x, calls[1..], call);
    }
  }

  lemma {:induction false} LogOfCall(x: Setup, call: CallTree, f: Frame, log: seq<Event>)
    requires f == FrameOf(x, call, Running)
    ensures Heard(Heard(log, f, RequestOf(f)) + TraceAll(x, call.inner), f, ResponseOf(f)) == log + Trace(x, call)
  {
  }

  lemma {:induction false} TraceNext(x: Setup, calls: seq<CallTree>, i: nat, log: seq<Event>)
    requires i < |calls|
    ensures log + TraceAll(x, calls[..i]) + Trace(x, calls[i]) == log + TraceAll(x, calls[..i + 1])
  {
    TraceAllAppend(x, calls[..i], calls[i]);
    assert calls[..i + 1] == calls[..i] + [calls[i]];
  }

  class Thread {
    const id: ThreadId
    const setup: Setup
    var locks: map<CompId, Held>
    var log: seq<Event>

    constructor (id: ThreadId, setup: Setup, locks: map<CompId, Held>)
      ensures this.id == id && this.setup == setup && this.locks == locks && log == []
    {
      this.id, this.setup, this.locks, log := id, setup, locks, [];
    }

    method Lock(c: CompId)
      requires Free(locks, c, id)
      modifies `locks
      ensures locks == LockOnce(old(locks), c, id)
    {
      var count := if c in locks then locks[c].count else 0;
      locks := locks[c := Held(id, count + 1)];
    }

    method Unlock(c: CompId)
      requires c in locks && locks[c].owner == id && locks[c].count > 0
      modifies `locks
      ensures locks == UnlockOnce(old(locks), c)
    {
      if locks[c].count == 1 {
        locks := locks - {c};
      } else {
        locks := locks[c := Held(id, locks[c].count - 1)];
      }
    }

    method OnInvoke(listened: bool, e: Event)
      modifies `log
      ensures log == if listened then old(log) + [e] else old(log)
    {
      if listened {
        log := log + [e];
      }
    }

    method RunHandler(calls: seq<CallTree>)
      requires Counted(locks) && UncontendedAll(setup, locks, id, calls)
      modifies this
      ensures locks == old(locks) && log == old(log) + TraceAll(setup, calls)
      decreases calls, 0
    {
      for i := 0 to |calls|
        invariant locks == old(locks) && log == old(log) + TraceAll(setup, calls[..i])
      {
        UncontendedFrom(setup, locks, id, calls, i);
        TraceNext(setup, calls, i, old(log));
        Invoke(calls[i]);
      }
      assert calls[..|calls|] == calls;
    }

    /** Every lock is as often taken after a call as it was before. */
    method Invoke(call: CallTree)
      requires Counted(locks) && Uncontended(setup, locks, id, call)
      modifies this
      ensures locks == old(locks) && log == old(log) + Trace(setup, call)
      ensures |log| == |old(log)| + 2 * Listened(call)
      ensures call.listened ==>
        var locked := setup.home(call.sender) != setup.executor(call.receiver, call.m);
        && log[|old(log)|] == Event(if locked then LockedRequest else Request, call.sender, call.receiver, call.m)
        && log[|log| - 1] == Event(if locked then LockedResponse else Response, call.receiver, call.sender, call.m)
      decreases call
    {
      TraceExact(setup, call);
      LogOfCall(setup, call, FrameOf(setup, call, Running), log);
      if setup.home(call.sender) == setup.executor(call.receiver, call.m) {
        OnInvoke(call.listened, Event(Request, call.sender, call.receiver, call.m));
        RunHandler(call.inner);
        OnInvoke(call.listened, Event(Response, call.receiver, call.sender, call.m));
      } else {
        UnlockUndoesLock(locks, call.receiver, id);
        StaysUncontended(setup, locks, id, call.receiver, call.inner);
        OnInvoke(call.listened, Event(LockedRequest, call.sender, call.receiver, call.m));
        Lock(call.receiver);
        RunHandler(call.inner);
        Unlock(call.receiver);
        OnInvoke(call.listened, Event(LockedResponse, call.receiver, call.sender, call.m));
      }
    }
  }

  // ---------- The calls as steps of the system ----------

  function At(s: State, t: ThreadId, stack: seq<Frame>, locks: map<CompId, Held>, log: seq<Event>): State
    requires t < |s.stacks| && t < |s.logs|
  {
    State(s.stacks[t := stack], locks, s.logs[t := log])
  }

  predicate Ready(s: State, t: ThreadId) {
    t < |s.stacks| && t < |s.logs| && (s.stacks[t] == [] || Top(s.stacks[t]).stage == Running)
  }

  /** The run goes on with steps of thread t only. */
  ghost predicate Goes(x: Setup, trace: seq<State>, acts: seq<Action>, longer: seq<State>, more: seq<Action>,
          t: ThreadId) {
    && IsRun(x, trace, acts) && IsRun(x, longer, more)
    && |acts| <= |more| && more[..|acts|] == acts && longer[..|trace|] == trace
    && forall i :: |acts| <= i < |more| ==> more[i].t == t
  }

  lemma {:induction false} Go(x: Setup, trace: seq<State>, acts: seq<Action>,
          a: Action) returns (longer: seq<State>, more: seq<Action>)
    requires IsRun(x, trace, acts) && Can(trace[|acts|], a)
    ensures Goes(x, trace, acts, longer, more, a.t)
    ensures longer[|more|] == Next(x, trace[|acts|], a)
  {
    longer, more := trace + [Next(x, trace[|acts|], a)], acts + [a];
  }

  /** From the call to the lock. */
  lemma {:induction false} Ask(x: Setup, trace: seq<State>, acts: seq<Action>, t: ThreadId, call: CallTree)
    returns (longer: seq<State>, more: seq<Action>)
    requires IsRun(x, trace, acts) && Ready(trace[|acts|], t)
    ensures Goes(x, trace, acts, longer, more, t)
    ensures var s, f := trace[|acts|], FrameOf(x, call, Announced);
      longer[|more|] == At(s, t, s.stacks[t] + [f], s.locks, Heard(s.logs[t], f, RequestOf(f)))
  {
    var s, f := trace[|acts|], FrameOf(x, call, Entered);
    longer, more := Go(x, trace, acts, Call(t, call.sender, call.receiver, call.m, call.listened));
    var s1 := longer[|more|];
    assert s1 == At(s, t, s.stacks[t] + [f], s.locks, s.logs[t]);
    AnnouncedIs(x, s, s1, t, f);
    longer, more := Go(x, longer, more, Announce(t));
  }

  lemma {:induction false} AnnouncedIs(x: Setup, s: State, s1: State, t: ThreadId, f: Frame)
    requires t < |s.stacks| && t < |s.logs| && f.stage == Entered
    requires s1 == At(s, t, s.stacks[t] + [f], s.locks, s.logs[t])
    ensures Can(s1, Announce(t))
    ensures Next(x, s1, Announce(t))
         == At(s, t, s.stacks[t] + [f.(stage := Announced)], s.locks, Heard(s.logs[t], f, RequestOf(f)))
  {
    assert Rest(s.stacks[t] + [f]) == s.stacks[t];
  }

  /** From the call to the handler. */
  lemma {:induction false} Begin(x: Setup, trace: seq<State>, acts: seq<Action>, t: ThreadId, call: CallTree)
    returns (longer: seq<State>, more: seq<Action>)
    requires IsRun(x, trace, acts) && Ready(trace[|acts|], t)
    requires Locked(x, call) ==> Free(trace[|acts|].locks, call.receiver, t)
    ensures Goes(x, trace, acts, longer, more, t)
    ensures var s, f := trace[|acts|], FrameOf(x, call, Running);
      longer[|more|] == At(s, t, s.stacks[t] + [f], if f.locked then LockOnce(s.locks, f.receiver, t) else s.locks,
                           Heard(s.logs[t], f, RequestOf(f)))
  {
    var s, f := trace[|acts|], FrameOf(x, call, Announced);
    longer, more := Ask(x, trace, acts, t, call);
    assert Rest(s.stacks[t] + [f]) == s.stacks[t];
    longer, more := Go(x, longer, more, Enter(t));
  }

  /** From the handler back to the caller. */
  lemma {:induction false} End(x: Setup, trace: seq<State>, acts: seq<Action>, t: ThreadId, stack: seq<Frame>,
          call: CallTree)
    returns (longer: seq<State>, more: seq<Action>)
    requires IsRun(x, trace, acts) && t < |trace[|acts|].stacks| && t < |trace[|acts|].logs|
    requires trace[|acts|].stacks[t] == stack + [FrameOf(x, call, Running)]
    ensures Goes(x, trace, acts, longer, more, t)
    ensures var s, f := trace[|acts|], FrameOf(x, call, Running);
      longer[|more|] == At(s, t, stack, if f.locked then UnlockOnce(s.locks, f.receiver) else s.locks,
                           Heard(s.logs[t], f, ResponseOf(f)))
  {
    var s, f := trace[|acts|], FrameOf(x, call, Released);
    assert Rest(s.stacks[t]) == stack;
    longer, more := Go(x, trace, acts, Leave(t));
    assert Rest(stack + [f]) == stack;
    longer, more := Go(x, longer, more, Report(t));
  }

  lemma {:induction false} LogOfCalls(x: Setup, calls: seq<CallTree>, log: seq<Event>)
    requires calls != []
    ensures log + Trace(x, calls[0]) + TraceAll(x, calls[1..]) == log + TraceAll(x, calls)
  {
  }

  lemma {:induction false} GoesOn(x: Setup, trace: seq<State>, acts: seq<Action>, mid: seq<State>, some: seq<Action>,
               longer: seq<State>, more: seq<Action>, t: ThreadId)
    requires Goes(x, trace, acts, mid, some, t) && Goes(x, mid, some, longer, more, t)
    ensures Goes(x, trace, acts, longer, more, t)
  {
    assert more[..|acts|] == more[..|some|][..|acts|];
    assert longer[..|trace|] == longer[..|mid|][..|trace|];
    assert forall i :: 0 <= i < |some| ==> more[..|some|][i] == more[i];
  }

  /** Wherever the system has got to, a thread that can make a call and meets no lock of another thread
      can run the whole call by its own steps, which change nothing but its log, by what the call operator
      reports. */
  lemma {:induction false} CallsAreRuns(x: Setup, trace: seq<State>, acts: seq<Action>, t: ThreadId, call: CallTree)
    returns (longer: seq<State>, more: seq<Action>)
    requires IsRun(x, trace, acts) && Ready(trace[|acts|], t) && Uncontended(x, trace[|acts|].locks, t, call)
    ensures Goes(x, trace, acts, longer, more, t)
    ensures var s := trace[|acts|];
      longer[|more|] == At(s, t, s.stacks[t], s.locks, s.logs[t] + Trace(x, call))
    decreases call, 1
  {
    var s, f := trace[|acts|], FrameOf(x, call, Running);
    if f.locked {
      RunLocksCount(x, trace, acts);
      UnlockUndoesLock(s.locks, f.receiver, t);
      StaysUncontended(x, s.locks, t, f.receiver, call.inner);
    }
    LogOfCall(x, call, f, s.logs[t]);
    var trace1, acts1 := Begin(x, trace, acts, t, call);
    var trace2, acts2 := HandlerRuns(x, trace1, acts1, t, call.inner);
    longer, more := End(x, trace2, acts2, t, s.stacks[t], call);
    GoesOn(x, trace, acts, trace1, acts1, trace2, acts2, t);
    GoesOn(x, trace, acts, trace2, acts2, longer, more, t);
  }

  lemma {:induction false} HandlerRuns(x: Setup, trace: seq<State>, acts: seq<Action>, t: ThreadId,
          calls: seq<CallTree>)
    returns (longer: seq<State>, more: seq<Action>)
    requires IsRun(x, trace, acts) && Ready(trace[|acts|], t) && UncontendedAll(x, trace[|acts|].locks, t, calls)
    ensures Goes(x, trace, acts, longer, more, t)
    ensures var s := trace[|acts|];
      longer[|more|] == At(s, t, s.stacks[t], s.locks, s.logs[t] + TraceAll(x, calls))
    decreases calls, 0
  {
    var log := trace[|acts|].logs[t];
    if calls == [] {
      longer, more := trace, acts;
      assert log + [] == log;
    } else {
      var trace1, acts1 := CallsAreRuns(x, trace, acts, t, calls[0]);
      longer, more := HandlerRuns(x, trace1, acts1, t, calls[1..]);
      LogOfCalls(x, calls, log);
      GoesOn(x, trace, acts, trace1, acts1, longer, more, t);
    }
  }
}
