/**
 * Synchronous queries between threads (sync_query.h, if_sync_query.h, if_volatile_sync_query.h): nested
 * calls which lock the receiving component unless both sides share an executor, and report to a listener.
 */
module SyncCalls {
  import opened Common

  type ThreadId = nat

  /** How far a call has come: before its request is reported, before it has the lock, in the handler (and in
      the result handler of a volatile query), and after the lock is released but before the response. */
  datatype Stage = Entered | Announced | Running | Released

  datatype Frame = Frame(sender: CompId, receiver: CompId, m: MsgId, locked: bool, listened: bool, stage: Stage)

  datatype Kind = Request | Response | LockedRequest | LockedResponse

  datatype Event = Event(kind: Kind, sender: CompId, receiver: CompId, m: MsgId)

  /** A recursive mutex that is taken: by whom, and how many times. A component without an entry is free. */
  datatype Held = Held(owner: ThreadId, count: nat)

  datatype State = State(stacks: seq<seq<Frame>>, locks: map<CompId, Held>, logs: seq<seq<Event>>)

  /** The executors that decide whether a call needs the lock. */
  datatype Setup = Setup(home: CompId -> ExecId, executor: (CompId, MsgId) -> ExecId)

  datatype Action =
    | Call(t: ThreadId, sender: CompId, receiver: CompId, m: MsgId, listened: bool)
    | Fetch(t: ThreadId, receiver: CompId)
    | Announce(t: ThreadId)
    | Enter(t: ThreadId)
    | Leave(t: ThreadId)
    | Report(t: ThreadId)

  function Top(stack: seq<Frame>): Frame
    requires stack != []
  {
    stack[|stack| - 1]
  }

  function Rest(stack: seq<Frame>): seq<Frame>
    requires stack != []
  {
    stack[..|stack| - 1]
  }

  predicate Free(locks: map<CompId, Held>, c: CompId, t: ThreadId) {
    c in locks ==> locks[c].owner == t
  }

  predicate Can(s: State, a: Action) {
    a.t < |s.stacks| && a.t < |s.logs| &&
    var stack := s.stacks[a.t];
    match a
    case Call(_, _, _, _, _) => stack == [] || Top(stack).stage == Running
    case Fetch(_, _) => stack == [] || Top(stack).stage == Running
    case Announce(_) => stack != [] && Top(stack).stage == Entered
    case Enter(t) =>
      stack != [] && Top(stack).stage == Announced && (Top(stack).locked ==> Free(s.locks, Top(stack).receiver, t))
    case Leave(_) => stack != [] && Top(stack).stage == Running
    case Report(_) => stack != [] && Top(stack).stage == Released
  }

  function LockOnce(locks: map<CompId, Held>, c: CompId, t: ThreadId): map<CompId, Held> {
    locks[c := Held(t, if c in locks then locks[c].count + 1 else 1)]
  }

  function UnlockOnce(locks: map<CompId, Held>, c: CompId): map<CompId, Held> {
    if c !in locks || locks[c].count <= 1 then locks - {c}
    else locks[c := Held(locks[c].owner, locks[c].count - 1)]
  }

  function RequestOf(f: Frame): Event {
    Event(if f.locked then LockedRequest else Request, f.sender, f.receiver, f.m)
  }

  function ResponseOf(f: Frame): Event {
    Event(if f.locked then LockedResponse else Response, f.receiver, f.sender, f.m)
  }

  function Heard(log: seq<Event>, f: Frame, e: Event): seq<Event> {
    if f.listened then log + [e] else log
  }

  function To(s: State, t: ThreadId, stack: seq<Frame>): State
    requires t < |s.stacks|
  {
    s.(stacks := s.stacks[t := stack])
  }

  /** The lock is taken after the request is reported and released before the response is. Looking a handler
      up or adding a filter takes the receiver's lock too, unheard. */
  function Next(x: Setup, s: State, a: Action): State
    requires Can(s, a)
  {
    var stack := s.stacks[a.t];
    match a
    case Call(t, c, d, m, listened) =>
      To(s, t, stack + [Frame(c, d, m, x.home(c) != x.executor(d, m), listened, Entered)])
    case Fetch(t, d) => To(s, t, stack + [Frame(d, d, 0, true, false, Entered)])
    case Announce(t) =>
      var f := Top(stack);
      To(s.(logs := s.logs[t := Heard(s.logs[t], f, RequestOf(f))]), t, Rest(stack) + [f.(stage := Announced)])
    case Enter(t) =>
      var f := Top(stack);
      To(if f.locked then s.(locks := LockOnce(s.locks, f.receiver, t)) else s, t, Rest(stack) + [f.(stage := Running)])
    case Leave(t) =>
      var f := Top(stack);
      To(if f.locked then s.(locks := UnlockOnce(s.locks, f.receiver)) else s, t, Rest(stack) + [f.(stage := Released)])
    case Report(t) =>
      var f := Top(stack);
      To(s.(logs := s.logs[t := Heard(s.logs[t], f, ResponseOf(f))]), t, Rest(stack))
  }

  ghost predicate Initial(s: State) {
    && s.locks == map[] && |s.stacks| == |s.logs|
    && forall t :: 0 <= t < |s.stacks| ==> s.stacks[t] == [] && s.logs[t] == []
  }

  ghost predicate IsRun(x: Setup, trace: seq<State>, acts: seq<Action>) {
    && |trace| == |acts| + 1
    && Initial(trace[0])
    && forall i :: 0 <= i < |acts| ==> Can(trace[i], acts[i]) && trace[i + 1] == Next(x, trace[i], acts[i])
  }

  // ---------- Locks ----------

  predicate Holds(f: Frame, c: CompId) {
    f.locked && f.receiver == c && f.stage == Running
  }

  /** How many calls of a thread hold the lock of c. */
  function Depth(stack: seq<Frame>, c: CompId): nat {
    if stack == [] then 0 else Depth(Rest(stack), c) + if Holds(Top(stack), c) then 1 else 0
  }

  /** The recursive lock count of every component is the number of open locked calls that its owner has on
      it, and nobody else has any. */
  ghost predicate LocksCount(s: State) {
    && (forall c :: c in s.locks ==> s.locks[c].owner < |s.stacks| && s.locks[c].count > 0)
    && forall t, c :: 0 <= t < |s.stacks| ==>
         Depth(s.stacks[t], c) == if c in s.locks && s.locks[c].owner == t then s.locks[c].count else 0
  }

  ghost predicate Nested(stack: seq<Frame>) {
    forall i :: 0 <= i < |stack| - 1 ==> stack[i].stage == Running
  }

  lemma {:induction false} DepthPush(stack: seq<Frame>, f: Frame, c: CompId)
    ensures Depth(stack + [f], c) == Depth(stack, c) + if Holds(f, c) then 1 else 0
  {
    assert Rest(stack + [f]) == stack;
  }

  lemma {:induction false} PushDepth(x: Setup, s: State, a: Action, c: CompId)
    requires Can(s, a) && (a.Call? || a.Fetch?)
    ensures Depth(Next(x, s, a).stacks[a.t], c) == Depth(s.stacks[a.t], c)
  {
    var f := Top(Next(x, s, a).stacks[a.t]);
    assert Next(x, s, a).stacks[a.t] == s.stacks[a.t] + [f] && !Holds(f, c);
    DepthPush(s.stacks[a.t], f, c);
  }

  /** What the innermost call's next step does to the depth. */
  lemma {:induction false} ReplaceDepth(stack: seq<Frame>, f: Frame, c: CompId)
    requires stack != []
    ensures Depth(Rest(stack) + [f], c)
      == Depth(stack, c) - (if Holds(Top(stack), c) then 1 else 0) + (if Holds(f, c) then 1 else 0)
  {
    DepthPush(Rest(stack), f, c);
  }

  lemma {:induction false} EnterDepth(x: Setup, s: State, t: ThreadId, c: CompId)
    requires Can(s, Enter(t))
    ensures var f := Top(s.stacks[t]);
      Depth(Next(x, s, Enter(t)).stacks[t], c) == Depth(s.stacks[t], c) + if f.locked && f.receiver == c then 1 else 0
  {
    ReplaceDepth(s.stacks[t], Top(s.stacks[t]).(stage := Running), c);
  }

  lemma {:induction false} LeaveDepth(x: Setup, s: State, t: ThreadId, c: CompId)
    requires Can(s, Leave(t))
    ensures var f := Top(s.stacks[t]);
      Depth(Next(x, s, Leave(t)).stacks[t], c) == Depth(s.stacks[t], c) - if f.locked && f.receiver == c then 1 else 0
  {
    ReplaceDepth(s.stacks[t], Top(s.stacks[t]).(stage := Released), c);
  }

  lemma {:induction false} OtherDepth(x: Setup, s: State, a: Action, c: CompId)
    requires Can(s, a) && !a.Enter? && !a.Leave?
    ensures Depth(Next(x, s, a).stacks[a.t], c) == Depth(s.stacks[a.t], c)
  {
    match a
    case Call(_, _, _, _, _) => PushDepth(x, s, a, c);
    case Fetch(_, _) => PushDepth(x, s, a, c);
    case Announce(t) => ReplaceDepth(s.stacks[t], Top(s.stacks[t]).(stage := Announced), c);
    case Report(_) =>
  }

  /** The account for one thread and one component. */
  ghost predicate Counts(s: State, t: ThreadId, c: CompId)
    requires t < |s.stacks|
  {
    Depth(s.stacks[t], c) == if c in s.locks && s.locks[c].owner == t then s.locks[c].count else 0
  }

  lemma {:induction false} StepCounts(x: Setup, s: State, a: Action, t: ThreadId, c: CompId)
    requires Can(s, a) && t < |s.stacks| && Counts(s, t, c) && Counts(s, a.t, c)
    requires c in s.locks ==> s.locks[c].count > 0
    ensures Counts(Next(x, s, a), t, c)
  {
    if t == a.t {
      match a
      case Enter(_) => EnterDepth(x, s, t, c);
      case Leave(_) => LeaveDepth(x, s, t, c);
      case _ => OtherDepth(x, s, a, c);
    } else {
      assert Next(x, s, a).stacks[t] == s.stacks[t];
      OwnersStepOnly(x, s, a, t, c);
    }
  }

  /** Nobody takes a lock that another has, nor releases one. */
  lemma {:induction false} OwnersStepOnly(x: Setup, s: State, a: Action, t: ThreadId, c: CompId)
    requires Can(s, a) && t < |s.stacks| && t != a.t && Counts(s, a.t, c)
    requires c in s.locks ==> s.locks[c].count > 0
    ensures c in s.locks && s.locks[c].owner == t ==> c in Next(x, s, a).locks && Next(x, s, a).locks[c] == s.locks[c]
    ensures c in Next(x, s, a).locks && Next(x, s, a).locks[c].owner == t ==> c in s.locks && s.locks[c].owner == t
  {
    var stack := s.stacks[a.t];
    if a.Leave? && Top(stack).locked && Top(stack).receiver == c {
      assert Depth(stack, c) > 0;
    }
  }

  lemma {:induction false} StepLocksCount(x: Setup, s: State, a: Action)
    requires Can(s, a) && LocksCount(s)
    ensures LocksCount(Next(x, s, a))
  {
    var v := Next(x, s, a);
    forall t, c | 0 <= t < |s.stacks|
      ensures Depth(v.stacks[t], c) == if c in v.locks && v.locks[c].owner == t then v.locks[c].count else 0
    {
      assert Counts(s, t, c) && Counts(s, a.t, c);
      StepCounts(x, s, a, t, c);
      assert Counts(v, t, c);
    }
  }

  /** Only the innermost call of a thread is anywhere but in its handler. */
  lemma {:induction false} StepNested(x: Setup, s: State, a: Action, t: ThreadId)
    requires Can(s, a) && t < |s.stacks| && Nested(s.stacks[t])
    ensures Nested(Next(x, s, a).stacks[t])
  {
  }

  lemma {:induction false} RunLocksCount(x: Setup, trace: seq<State>, acts: seq<Action>)
    requires IsRun(x, trace, acts)
    ensures LocksCount(trace[|acts|]) && forall t :: 0 <= t < |trace[|acts|].stacks| ==> Nested(trace[|acts|].stacks[t])
    decreases |acts|
  {
    if acts != [] {
      var n := |acts| - 1;
      RunLocksCount(x, trace[..n + 1], acts[..n]);
      StepLocksCount(x, trace[n], acts[n]);
      var s, v := trace[n], trace[n + 1];
      forall t | 0 <= t < |v.stacks| ensures Nested(v.stacks[t]) {
        StepNested(x, s, acts[n], t);
      }
    }
  }

  lemma {:induction false} HoldersCount(stack: seq<Frame>, i: nat, c: CompId)
    requires i < |stack| && Holds(stack[i], c)
    ensures Depth(stack, c) > 0
    decreases |stack|
  {
    if i < |stack| - 1 {
      HoldersCount(Rest(stack), i, c);
    }
  }

  lemma {:induction false} HolderOwns(s: State, t: ThreadId, i: nat, c: CompId)
    requires LocksCount(s) && t < |s.stacks| && i < |s.stacks[t]| && Holds(s.stacks[t][i], c)
    ensures c in s.locks && s.locks[c] == Held(t, Depth(s.stacks[t], c))
  {
    HoldersCount(s.stacks[t], i, c);
  }

  /** In every reachable state at most one thread is inside locked calls of a component; the component's
      lock is owned by that thread, as many times as it has such calls open; and whoever is about to release
      a lock owns it. */
  lemma {:induction false} MutualExclusion(x: Setup, trace: seq<State>, acts: seq<Action>, c: CompId,
          t: ThreadId, i: nat)
    requires IsRun(x, trace, acts)
    requires t < |trace[|acts|].stacks| && i < |trace[|acts|].stacks[t]| && Holds(trace[|acts|].stacks[t][i], c)
    ensures var s := trace[|acts|];
      && c in s.locks && s.locks[c] == Held(t, Depth(s.stacks[t], c))
      && forall u, j :: 0 <= u < |s.stacks| && 0 <= j < |s.stacks[u]| && Holds(s.stacks[u][j], c) ==> u == t
  {
    var s := trace[|acts|];
    RunLocksCount(x, trace, acts);
    HolderOwns(s, t, i, c);
    forall u, j | 0 <= u < |s.stacks| && 0 <= j < |s.stacks[u]| && Holds(s.stacks[u][j], c) ensures u == t {
      HolderOwns(s, u, j, c);
    }
  }

  /** Requests are reported before the lock is taken and responses after it is released: while a thread is
      about to report a call, it owns the receiver's lock only on behalf of the calls around it. */
  lemma {:induction false} ReportsOutsideTheLock(x: Setup, trace: seq<State>, acts: seq<Action>, t: ThreadId)
    requires IsRun(x, trace, acts) && (Can(trace[|acts|], Announce(t)) || Can(trace[|acts|], Report(t)))
    ensures var s := trace[|acts|];
      var c, outer := Top(s.stacks[t]).receiver, Rest(s.stacks[t]);
      Depth(outer, c) == if c in s.locks && s.locks[c].owner == t then s.locks[c].count else 0
  {
    RunLocksCount(x, trace, acts);
    var s := trace[|acts|];
    assert Depth(s.stacks[t], Top(s.stacks[t]).receiver) == Depth(Rest(s.stacks[t]), Top(s.stacks[t]).receiver);
  }

  /** A thread that is in no call owns no lock. */
  lemma {:induction false} IdleOwnsNothing(x: Setup, trace: seq<State>, acts: seq<Action>, t: ThreadId)
    requires IsRun(x, trace, acts) && t < |trace[|acts|].stacks| && trace[|acts|].stacks[t] == []
    ensures forall c :: c in trace[|acts|].locks ==> trace[|acts|].locks[c].owner != t
  {
    RunLocksCount(x, trace, acts);
    assert forall c :: Depth(trace[|acts|].stacks[t], c) == 0;
  }

  // ---------- The listener's log ----------

  /** A response answers the request of the same kind between the same components, the other way round. */
  predicate Answers(request: Event, response: Event) {
    || (request.kind == Request && response == Event(Response, request.receiver, request.sender, request.m))
    || (request.kind == LockedRequest && response == Event(LockedResponse, request.receiver, request.sender, request.m))
  }

  /** The requests that a log leaves unanswered, innermost last; none if some response answers anything but
      the innermost open request. */
  function Unanswered(log: seq<Event>): Option<seq<Event>> {
    if log == [] then Some([])
    else
      var n := |log| - 1;
      match Unanswered(log[..n])
      case None => None
      case Some(open) =>
        if log[n].kind == Request || log[n].kind == LockedRequest then Some(open + [log[n]])
        else if open != [] && Answers(open[|open| - 1], log[n]) then Some(open[..|open| - 1])
        else None
  }

  /** The requests of the calls that a thread has reported and not yet answered. */
  function Outstanding(stack: seq<Frame>): seq<Event> {
    if stack == [] then []
    else
      var f := Top(stack);
      if f.stage == Entered then Outstanding(Rest(stack)) else Heard(Outstanding(Rest(stack)), f, RequestOf(f))
  }

  lemma {:induction false} OutstandingPush(stack: seq<Frame>, f: Frame)
    ensures Outstanding(stack + [f])
      == if f.stage == Entered then Outstanding(stack) else Heard(Outstanding(stack), f, RequestOf(f))
  {
    assert Rest(stack + [f]) == stack;
  }

  lemma {:induction false} UnansweredPush(log: seq<Event>, e: Event)
    requires Unanswered(log).Some?
    ensures e.kind == Request || e.kind == LockedRequest ==> Unanswered(log + [e]) == Some(Unanswered(log).value + [e])
  {
    assert (log + [e])[..|log|] == log;
  }

  lemma {:induction false} UnansweredPop(log: seq<Event>, open: seq<Event>, request: Event, response: Event)
    requires Unanswered(log) == Some(open + [request]) && Answers(request, response)
    ensures Unanswered(log + [response]) == Some(open)
  {
    assert (log + [response])[..|log|] == log;
    assert (open + [request])[..|open|] == open;
  }

  lemma {:induction false} StepBracketed(x: Setup, s: State, a: Action)
    requires Can(s, a) && Unanswered(s.logs[a.t]) == Some(Outstanding(s.stacks[a.t]))
    ensures Unanswered(Next(x, s, a).logs[a.t]) == Some(Outstanding(Next(x, s, a).stacks[a.t]))
  {
    var stack, log := s.stacks[a.t], s.logs[a.t];
    match a
    case Call(t, c, d, m, l) => OutstandingPush(stack, Frame(c, d, m, x.home(c) != x.executor(d, m), l, Entered));
    case Fetch(t, d) => OutstandingPush(stack, Frame(d, d, 0, true, false, Entered));
    case Announce(t) =>
      OutstandingPush(Rest(stack), Top(stack).(stage := Announced));
      UnansweredPush(log, RequestOf(Top(stack)));
    case Enter(t) => OutstandingPush(Rest(stack), Top(stack).(stage := Running));
    case Leave(t) => OutstandingPush(Rest(stack), Top(stack).(stage := Released));
    case Report(t) =>
      if Top(stack).listened {
        UnansweredPop(log, Outstanding(Rest(stack)), RequestOf(Top(stack)), ResponseOf(Top(stack)));
      }
  }

  /** On every run every thread's log is well bracketed, each response answering the innermost open request
      with sender and receiver swapped; the open requests are those of the thread's reported open calls. */
  lemma {:induction false} LogsBracketed(x: Setup, trace: seq<State>, acts: seq<Action>, t: ThreadId)
    requires IsRun(x, trace, acts) && t < |trace[|acts|].stacks| && t < |trace[|acts|].logs|
    ensures Unanswered(trace[|acts|].logs[t]) == Some(Outstanding(trace[|acts|].stacks[t]))
    decreases |acts|
  {
    if acts != [] {
      var n := |acts| - 1;
      LogsBracketed(x, trace[..n + 1], acts[..n], t);
      if acts[n].t == t {
        StepBracketed(x, trace[n], acts[n]);
      }
    }
  }

  // ---------- What is reported ----------

  /** Announcing or answering a call to a listener writes down exactly one event, with the two sides swapped for
      the answer; no other step writes anything, and none in another thread's log. */
  lemma {:induction false} ReportsExactly(x: Setup, s: State, a: Action)
    requires Can(s, a)
    ensures var log, after := s.logs[a.t], Next(x, s, a).logs[a.t];
      match a
      case Announce(t) =>
        var f := Top(s.stacks[t]);
        after == if !f.listened then log
                 else log + [Event(if f.locked then LockedRequest else Request, f.sender, f.receiver, f.m)]
      case Report(t) =>
        var f := Top(s.stacks[t]);
        after == if !f.listened then log
                 else log + [Event(if f.locked then LockedResponse else Response, f.receiver, f.sender, f.m)]
      case _ => after == log
    ensures |Next(x, s, a).logs| == |s.logs|
    ensures forall u :: 0 <= u < |s.logs| && u != a.t ==> Next(x, s, a).logs[u] == s.logs[u]
  {
  }

  /** The calls that thread t is in after the first n steps, outermost first, as it made them. */
  function OpenCalls(acts: seq<Action>, n: nat, t: ThreadId): seq<Action>
    requires n <= |acts|
  {
    if n == 0 then []
    else
      var before := OpenCalls(acts, n - 1, t);
      match acts[n - 1]
      case Call(u, _, _, _, _) => if u == t then before + [acts[n - 1]] else before
      case Fetch(u, _) => if u == t then before + [acts[n - 1]] else before
      case Report(u) => if u == t && before != [] then before[..|before| - 1] else before
      case _ => before
  }

  /** What the n-th step has thread t report. */
  function ReportAt(x: Setup, acts: seq<Action>, n: nat, t: ThreadId): seq<Event>
    requires n < |acts|
  {
    var open := OpenCalls(acts, n, t);
    if open == [] || acts[n].t != t || !(acts[n].Announce? || acts[n].Report?) then []
    else
      match open[|open| - 1]
      case Call(_, c, d, m, true) =>
        var locks := x.home(c) != x.executor(d, m);
        if acts[n].Announce? then [Event(if locks then LockedRequest else Request, c, d, m)]
        else [Event(if locks then LockedResponse else Response, d, c, m)]
      case _ => []
  }

  function Reports(x: Setup, acts: seq<Action>, n: nat, t: ThreadId): seq<Event>
    requires n <= |acts|
  {
    if n == 0 then [] else Reports(x, acts, n - 1, t) + ReportAt(x, acts, n - 1, t)
  }

  /** The frame is that of the call as it was made. */
  predicate Stems(x: Setup, f: Frame, a: Action) {
    match a
    case Call(_, c, d, m, listened) =>
      f == Frame(c, d, m, x.home(c) != x.executor(d, m), listened, f.stage)
    case Fetch(_, d) => f == Frame(d, d, 0, true, false, f.stage)
    case _ => false
  }

  ghost predicate AllStem(x: Setup, stack: seq<Frame>, open: seq<Action>) {
    |stack| == |open| && forall i :: 0 <= i < |stack| ==> Stems(x, stack[i], open[i])
  }

  lemma {:induction false} StepStems(x: Setup, s: State, acts: seq<Action>, n: nat, t: ThreadId)
    requires n < |acts| && Can(s, acts[n]) && t < |s.stacks| && AllStem(x, s.stacks[t], OpenCalls(acts, n, t))
    ensures |Next(x, s, acts[n]).stacks| == |s.stacks|
    ensures AllStem(x, Next(x, s, acts[n]).stacks[t], OpenCalls(acts, n + 1, t))
  {
    var stack, after, open := s.stacks[t], Next(x, s, acts[n]).stacks[t], OpenCalls(acts, n, t);
    if acts[n].t == t {
      match acts[n]
      case Call(_, _, _, _, _) => assert after == stack + [Top(after)] && OpenCalls(acts, n + 1, t) == open + [acts[n]];
      case Fetch(_, _) => assert after == stack + [Top(after)] && OpenCalls(acts, n + 1, t) == open + [acts[n]];
      case Report(_) => assert after == Rest(stack);
      case _ => TopStems(x, stack, open, Top(after));
    }
  }

  lemma {:induction false} TopStems(x: Setup, stack: seq<Frame>, open: seq<Action>, f: Frame)
    requires AllStem(x, stack, open) && stack != [] && f == Top(stack).(stage := f.stage)
    ensures AllStem(x, Rest(stack) + [f], open)
  {
  }

  /** On every run every thread's log is what the calls it made have it report, each when it is announced and
      when it is answered. */
  lemma {:induction false} LogsAreReports(x: Setup, trace: seq<State>, acts: seq<Action>, n: nat, t: ThreadId)
    requires IsRun(x, trace, acts) && n <= |acts| && t < |trace[0].stacks|
    ensures t < |trace[n].stacks| == |trace[n].logs| && trace[n].logs[t] == Reports(x, acts, n, t)
    ensures AllStem(x, trace[n].stacks[t], OpenCalls(acts, n, t))
    decreases n
  {
    if n > 0 {
      LogsAreReports(x, trace, acts, n - 1, t);
      StepStems(x, trace[n - 1], acts, n - 1, t);
      ReportsExactly(x, trace[n - 1], acts[n - 1]);
      StepReports(x, trace[n - 1], acts, n - 1, t);
    }
  }

  lemma {:induction false} StepReports(x: Setup, s: State, acts: seq<Action>, n: nat, t: ThreadId)
    requires n < |acts| && Can(s, acts[n]) && t < |s.stacks| == |s.logs|
    requires AllStem(x, s.stacks[t], OpenCalls(acts, n, t))
    ensures Next(x, s, acts[n]).logs[t] == s.logs[t] + ReportAt(x, acts, n, t)
  {
    ReportsExactly(x, s, acts[n]);
  }

  // ---------- Deadlock ----------

  /** The thread is stopped at the lock of a component that another thread owns. */
  predicate Waits(s: State, t: ThreadId) {
    && t < |s.stacks| && s.stacks[t] != [] && Top(s.stacks[t]).stage == Announced && Top(s.stacks[t]).locked
    && !Free(s.locks, Top(s.stacks[t]).receiver, t)
  }

  /** The thread is in a call and can take that call a step further. */
  predicate Moves(s: State, t: ThreadId) {
    Can(s, Announce(t)) || Can(s, Enter(t)) || Can(s, Leave(t)) || Can(s, Report(t))
  }

  lemma {:induction false} WaitsOrMoves(s: State, t: ThreadId)
    requires t < |s.stacks| && t < |s.logs| && s.stacks[t] != []
    ensures Waits(s, t) <==> !Moves(s, t)
  {
  }

  /** A locked call of c is in order if the thread has the lock of c already, or has only locks of
      components that rank lower than c. */
  ghost predicate InOrder(rank: CompId -> nat, stack: seq<Frame>, c: CompId) {
    || (exists j :: 0 <= j < |stack| && Holds(stack[j], c))
    || (forall j :: 0 <= j < |stack| && stack[j].locked && stack[j].stage == Running ==>
          rank(stack[j].receiver) < rank(c))
  }

  /** Every locked call and every lookup of the run is in order when it is made. */
  ghost predicate Ranked(x: Setup, rank: CompId -> nat, trace: seq<State>, acts: seq<Action>)
    requires IsRun(x, trace, acts)
  {
    forall i :: 0 <= i < |acts| ==>
      match acts[i]
      case Call(t, c, d, m, _) => x.home(c) != x.executor(d, m) ==> InOrder(rank, trace[i].stacks[t], d)
      case Fetch(t, d) => InOrder(rank, trace[i].stacks[t], d)
      case _ => true
  }

  /** The innermost call of every thread, as long as it has no lock yet, was made in order. */
  ghost predicate TopInOrder(rank: CompId -> nat, stack: seq<Frame>) {
    stack != [] && Top(stack).locked && (Top(stack).stage == Entered || Top(stack).stage == Announced) ==>
      InOrder(rank, Rest(stack), Top(stack).receiver)
  }

  lemma {:induction false} RunInOrder(x: Setup, rank: CompId -> nat, trace: seq<State>, acts: seq<Action>, t: ThreadId)
    requires IsRun(x, trace, acts) && Ranked(x, rank, trace, acts) && t < |trace[|acts|].stacks|
    ensures TopInOrder(rank, trace[|acts|].stacks[t])
    decreases |acts|
  {
    if acts != [] {
      var n := |acts| - 1;
      RunInOrder(x, rank, trace[..n + 1], acts[..n], t);
      if acts[n].t == t {
        RunLocksCount(x, trace[..n + 1], acts[..n]);
        StepInOrder(x, rank, trace[n], acts[n]);
      }
    }
  }

  lemma {:induction false} StepInOrder(x: Setup, rank: CompId -> nat, s: State, a: Action)
    requires Can(s, a) && Nested(s.stacks[a.t]) && TopInOrder(rank, s.stacks[a.t])
    requires a.Call? && x.home(a.sender) != x.executor(a.receiver, a.m) ==> InOrder(rank, s.stacks[a.t], a.receiver)
    requires a.Fetch? ==> InOrder(rank, s.stacks[a.t], a.receiver)
    ensures TopInOrder(rank, Next(x, s, a).stacks[a.t])
  {
    var stack, after := s.stacks[a.t], Next(x, s, a).stacks[a.t];
    if a.Call? || a.Fetch? {
      assert Rest(after) == stack;
    } else if a.Announce? {
      assert Rest(after) == Rest(stack);
    } else if a.Report? && after != [] {
      assert Top(after).stage == Running;
    }
  }

  /** Threads each of which waits for a lock that the next one owns. */
  ghost predicate Chain(s: State, chain: seq<ThreadId>) {
    && chain != []
    && (forall i :: 0 <= i < |chain| ==> chain[i] < |s.stacks|)
    && forall i :: 0 <= i < |chain| - 1 ==>
         Waits(s, chain[i]) && s.locks[Top(s.stacks[chain[i]]).receiver].owner == chain[i + 1]
  }

  /** The highest rank that any thread waits for. */
  function Highest(rank: CompId -> nat, stacks: seq<seq<Frame>>): nat {
    if stacks == [] then 0
    else
      var rest, stack := Highest(rank, stacks[1..]), stacks[0];
      if stack != [] && rank(Top(stack).receiver) > rest then rank(Top(stack).receiver) else rest
  }

  lemma {:induction false} HighestBounds(rank: CompId -> nat, stacks: seq<seq<Frame>>, t: nat)
    requires t < |stacks| && stacks[t] != []
    ensures rank(Top(stacks[t]).receiver) <= Highest(rank, stacks)
  {
    if t > 0 {
      HighestBounds(rank, stacks[1..], t - 1);
    }
  }

  lemma {:induction false} SomeHolder(stack: seq<Frame>, c: CompId) returns (i: nat)
    requires Depth(stack, c) > 0
    ensures i < |stack| && Holds(stack[i], c)
  {
    if Holds(Top(stack), c) {
      i := |stack| - 1;
    } else {
      i := SomeHolder(Rest(stack), c);
    }
  }

  /** Whoever owns the lock that t waits for holds it in a call below its innermost one, and if it waits
      itself, it waits for a component of higher rank. */
  lemma {:induction false} OwnerRanksLower(rank: CompId -> nat, s: State, t: ThreadId) returns (u: ThreadId)
    requires LocksCount(s) && Waits(s, t)
    requires forall v :: 0 <= v < |s.stacks| ==> Nested(s.stacks[v]) && TopInOrder(rank, s.stacks[v])
    ensures u < |s.stacks| && s.stacks[u] != [] && s.locks[Top(s.stacks[t]).receiver].owner == u
    ensures Waits(s, u) ==> rank(Top(s.stacks[t]).receiver) < rank(Top(s.stacks[u]).receiver)
  {
    var c := Top(s.stacks[t]).receiver;
    u := s.locks[c].owner;
    assert Depth(s.stacks[u], c) == s.locks[c].count;
    var i := SomeHolder(s.stacks[u], c);
    if Waits(s, u) {
      var stack, d := s.stacks[u], Top(s.stacks[u]).receiver;
      assert i < |stack| - 1 && Rest(stack)[i] == stack[i] && Depth(stack, d) == 0;
      if j :| 0 <= j < |Rest(stack)| && Holds(Rest(stack)[j], d) {
        HoldersCount(stack, j, d);
        assert false;
      }
    }
  }

  lemma {:induction false} FollowOwners(rank: CompId -> nat, s: State, t: ThreadId) returns (chain: seq<ThreadId>)
    requires LocksCount(s) && t < |s.stacks| && s.stacks[t] != [] && |s.logs| == |s.stacks|
    requires forall v :: 0 <= v < |s.stacks| ==> Nested(s.stacks[v]) && TopInOrder(rank, s.stacks[v])
    ensures Chain(s, chain) && chain[0] == t && Moves(s, chain[|chain| - 1])
    decreases Highest(rank, s.stacks) - rank(Top(s.stacks[t]).receiver)
  {
    WaitsOrMoves(s, t);
    chain := [t];
    if Waits(s, t) {
      var u := OwnerRanksLower(rank, s, t);
      HighestBounds(rank, s.stacks, t);
      HighestBounds(rank, s.stacks, u);
      WaitsOrMoves(s, u);
      if Waits(s, u) {
        var rest := FollowOwners(rank, s, u);
        chain := [t] + rest;
      } else {
        chain := [t, u];
      }
    }
  }

  /** If all locked calls are made in order, no reachable state is deadlocked, not even for some of the
      threads: whoever is in a call can go on, or waits, through finitely many owners, for one who can. */
  lemma {:induction false} NoDeadlock(x: Setup, rank: CompId -> nat, trace: seq<State>, acts: seq<Action>, t: ThreadId)
    returns (chain: seq<ThreadId>)
    requires IsRun(x, trace, acts) && Ranked(x, rank, trace, acts)
    requires t < |trace[|acts|].stacks| && trace[|acts|].stacks[t] != []
    ensures Chain(trace[|acts|], chain) && chain[0] == t && Moves(trace[|acts|], chain[|chain| - 1])
  {
    var s := trace[|acts|];
    RunLocksCount(x, trace, acts);
    SameThreads(x, trace, acts);
    forall v | 0 <= v < |s.stacks| ensures TopInOrder(rank, s.stacks[v]) {
      RunInOrder(x, rank, trace, acts, v);
    }
    chain := FollowOwners(rank, s, t);
  }

  lemma {:induction false} SameThreads(x: Setup, trace: seq<State>, acts: seq<Action>)
    requires IsRun(x, trace, acts)
    ensures |trace[|acts|].logs| == |trace[|acts|].stacks| == |trace[0].stacks|
    decreases |acts|
  {
    if acts != [] {
      SameThreads(x, trace[..|acts|], acts[..|acts| - 1]);
    }
  }

  // ---------- What the order does not say ----------

  /** A weaker rule: components call upwards, except into components whose lock the thread has already. */
  ghost predicate Climbs(rank: CompId -> nat, stack: seq<Frame>, c: CompId, d: CompId) {
    || (exists j :: 0 <= j < |stack| && Holds(stack[j], d))
    || ((stack != [] ==> Top(stack).receiver == c) && rank(c) < rank(d))
  }

  ghost predicate Climbing(x: Setup, rank: CompId -> nat, trace: seq<State>, acts: seq<Action>)
    requires IsRun(x, trace, acts)
  {
    forall i :: 0 <= i < |acts| && acts[i].Call? ==>
      Climbs(rank, trace[i].stacks[acts[i].t], acts[i].sender, acts[i].receiver)
  }

  lemma {:induction false} Extend(x: Setup, rank: CompId -> nat, trace: seq<State>, acts: seq<Action>, a: Action)
    returns (longer: seq<State>, more: seq<Action>)
    requires IsRun(x, trace, acts) && Climbing(x, rank, trace, acts) && Can(trace[|acts|], a)
    requires a.Call? ==> Climbs(rank, trace[|acts|].stacks[a.t], a.sender, a.receiver)
    ensures IsRun(x, longer, more) && Climbing(x, rank, longer, more) && more == acts + [a]
    ensures longer[|more|] == Next(x, trace[|acts|], a)
  {
    longer, more := trace + [Next(x, trace[|acts|], a)], acts + [a];
  }

  /** A thread makes an unheard call and is stopped at, or has taken, the lock. */
  lemma {:induction false} CallUntil(x: Setup, rank: CompId -> nat, trace: seq<State>, acts: seq<Action>,
                  t: ThreadId, c: CompId, d: CompId, taken: bool)
    returns (longer: seq<State>, more: seq<Action>)
    requires IsRun(x, trace, acts) && Climbing(x, rank, trace, acts) && x.home(c) != x.executor(d, 0)
    requires var s := trace[|acts|];
      Can(s, Call(t, c, d, 0, false)) && Climbs(rank, s.stacks[t], c, d) && (taken ==> Free(s.locks, d, t))
    ensures IsRun(x, longer, more) && Climbing(x, rank, longer, more)
    ensures var s, f := trace[|acts|], Frame(c, d, 0, true, false, if taken then Running else Announced);
      longer[|more|] == s.(stacks := s.stacks[t := s.stacks[t] + [f]],
                           locks := if taken then LockOnce(s.locks, d, t) else s.locks)
  {
    var s := trace[|acts|];
    var f := Frame(c, d, 0, true, false, Entered);
    longer, more := Extend(x, rank, trace, acts, Call(t, c, d, 0, false));
    assert longer[|more|] == To(s, t, s.stacks[t] + [f]);
    assert Rest(s.stacks[t] + [f]) == s.stacks[t];
    longer, more := Extend(x, rank, longer, more, Announce(t));
    assert s.logs[t := s.logs[t]] == s.logs;
    assert longer[|more|] == To(s, t, s.stacks[t] + [f.(stage := Announced)]);
    if taken {
      assert Rest(s.stacks[t] + [f.(stage := Announced)]) == s.stacks[t];
      longer, more := Extend(x, rank, longer, more, Enter(t));
    }
  }

  /** One thread is in 1, called by 3, called by 1, called from outside. */
  lemma {:induction false} ThreeDeep() returns (x: Setup, trace: seq<State>, acts: seq<Action>)
    ensures x == Setup(c => c, (d, m) => d) && IsRun(x, trace, acts) && Climbing(x, (c: CompId) => c, trace, acts)
    ensures var s := trace[|acts|];
      && |s.stacks| == |s.logs| == 2 && s.stacks[1] == [] && s.logs[1] == []
      && s.stacks[0] == [Frame(0, 1, 0, true, false, Running), Frame(1, 3, 0, true, false, Running),
                         Frame(3, 1, 0, true, false, Running)]
      && s.locks == map[1 := Held(0, 2), 3 := Held(0, 1)]
  {
    x := Setup(c => c, (d, m) => d);
    var rank: CompId -> nat := c => c;
    trace, acts := [State([[], []], map[], [[], []])], [];
    trace, acts := CallUntil(x, rank, trace, acts, 0, 0, 1, true);
    assert trace[|acts|].stacks[0] == [Frame(0, 1, 0, true, false, Running)];
    trace, acts := CallUntil(x, rank, trace, acts, 0, 1, 3, true);
    assert Holds(trace[|acts|].stacks[0][0], 1);
    trace, acts := CallUntil(x, rank, trace, acts, 0, 3, 1, true);
  }

  /** Under that rule two threads can stop each other for good: one is called by 1 out of 3, into which 1 had
      called, and goes on to 2 while the other, in 2, goes on to 3. */
  lemma {:induction false} ClimbingMayDeadlock() returns (x: Setup, trace: seq<State>, acts: seq<Action>)
    ensures IsRun(x, trace, acts) && Climbing(x, (c: CompId) => c, trace, acts)
    ensures |trace[|acts|].stacks| == 2 && Waits(trace[|acts|], 0) && Waits(trace[|acts|], 1)
  {
    x, trace, acts := ThreeDeep();
    var rank: CompId -> nat := c => c;
    trace, acts := CallUntil(x, rank, trace, acts, 1, 0, 2, true);
    assert trace[|acts|].stacks[1] == [Frame(0, 2, 0, true, false, Running)];
    trace, acts := CallUntil(x, rank, trace, acts, 1, 2, 3, false);
    trace, acts := CallUntil(x, rank, trace, acts, 0, 1, 2, false);
  }
}
