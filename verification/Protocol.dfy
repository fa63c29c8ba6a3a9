/**
 * The asynchronous query protocol as one step system over every executor, handler result and lifetime.
 * User code is left open: at any moment any component may send, any handler that holds a result may
 * reply, late or repeatedly, and any lifetime may be reset. Each queue is the atomic queue that the
 * threads of `Executor` refine.
 */
module Protocol {
  import opened Common
  import Lifetimes
  import opened Executor
  import opened CallbackResults

  type Weak = Lifetimes.Weak

  datatype Query = Query(sender: CompId, recvExec: ExecId, direct: bool, weak: Weak, arg: int)

  datatype Entry =
    | Handled(q: QueryId, at: ExecId, arg: int)
    | Called(callback: Option<QueryId>, at: ExecId, result: int)
    | Dropped(callback: Option<QueryId>)
    | Abandoned(q: QueryId)

  /** `home[c]` is the executor component c was constructed with; `queries` lists every query ever sent. */
  datatype State = State(home: seq<ExecId>, queries: seq<Query>, execs: seq<Queue<Task>>,
                         held: map<QueryId, Result>, lives: Lifetimes.Store, log: seq<Entry>)

  datatype Action =
    | Send(query: Query, at: ExecId)
    | Post(e: ExecId, tag: nat)
    | SwapIn(e: ExecId) | StartTask(e: ExecId) | EndTask(e: ExecId) | FinishRun(e: ExecId)
    | ReplyTo(q: QueryId, v: int, at: ExecId)
    | Discard(q: QueryId)
    | Life(op: Lifetimes.Op)

  predicate Can(s: State, a: Action) {
    match a
    case Send(x, _) =>
      && x.sender < |s.home| && x.recvExec < |s.execs|
      && (x.direct ==> x.recvExec == s.home[x.sender])
      && (x.weak.To? ==> x.weak.token < s.lives.next)
    case Post(e, _) => e < |s.execs|
    case SwapIn(e) => e < |s.execs| && Enabled(s.execs[e], Swap)
    case StartTask(e) => e < |s.execs| && Enabled(s.execs[e], Start)
    case EndTask(e) => e < |s.execs| && Enabled(s.execs[e], End)
    case FinishRun(e) => e < |s.execs| && Enabled(s.execs[e], Finish)
    case ReplyTo(q, _, _) => q in s.held
    case Discard(q) => q in s.held
    case Life(op) => Lifetimes.Allowed(s.lives, op)
  }

  function Advance(s: State, e: ExecId, step: Executor.Step<Task>): State
    requires e < |s.execs| && Enabled(s.execs[e], step)
  {
    s.(execs := s.execs[e := Apply(s.execs[e], step)])
  }

  function Enqueue(s: State, e: ExecId, t: Task): State {
    if e < |s.execs| then Advance(s, e, Append(t)) else s
  }

  function Record(s: State, entry: Entry): State { s.(log := s.log + [entry]) }

  /** What a reply or a response task leads to, when run on executor `at`. */
  function Perform(s: State, effect: Effect, callback: Option<QueryId>, at: ExecId): State {
    match effect
    case Enqueued(e, t) => Enqueue(s, e, t)
    case Invoked(cb, v) => Record(s, Called(cb, at, v))
    case Suppressed => Record(s, Dropped(callback))
  }

  function Run(s: State, e: ExecId, t: Task): State {
    match t
    case Request(q, arg, _, _) => Record(s.(held := s.held[q := HandlerResult(t)]), Handled(q, e, arg))
    case Response(cb, v, w) => Perform(s, RunResponse(cb, v, w, s.lives), cb, e)
    case Foreign(_) => s
  }

  function Next(s: State, a: Action): State
    requires Can(s, a)
  {
    match a
    case Send(x, at) =>
      var q := |s.queries|;
      var s1 := s.(queries := s.queries + [x]);
      (match CallbackResults.Send(q, x.arg, x.weak, x.direct, x.recvExec, s.home[x.sender])
       case ToHandler(r) => Record(s1.(held := s.held[q := r]), Handled(q, at, x.arg))
       case ToQueue(e, t) => Enqueue(s1, e, t))
    case Post(e, tag) => Advance(s, e, Append(Foreign(tag)))
    case SwapIn(e) => Advance(s, e, Swap)
    case StartTask(e) => Run(Advance(s, e, Start), e, s.execs[e].back[s.execs[e].next])
    case EndTask(e) => Advance(s, e, End)
    case FinishRun(e) => Advance(s, e, Finish)
    case ReplyTo(q, v, at) =>
      var (r, effect) := Reply(s.held[q], s.lives, v);
      Perform(s.(held := s.held[q := r]), effect, s.held[q].callback, at)
    case Discard(q) =>
      var s1 := s.(held := s.held - {q});
      if s.held[q].callback.Some? then Record(s1, Abandoned(q)) else s1
    case Life(op) => s.(lives := Lifetimes.Do(s.lives, op))
  }

  ghost predicate Initial(s: State) {
    && s.queries == [] && s.held == map[] && s.log == []
    && Lifetimes.Valid(s.lives)
    && (forall c :: 0 <= c < |s.home| ==> s.home[c] < |s.execs|)
    && (forall e :: 0 <= e < |s.execs| ==> s.execs[e] == EmptyQueue())
  }

  ghost predicate IsRun(trace: seq<State>, acts: seq<Action>) {
    && |trace| == |acts| + 1
    && Initial(trace[0])
    && forall i :: 0 <= i < |acts| ==> Can(trace[i], acts[i]) && trace[i + 1] == Next(trace[i], acts[i])
  }

  // ---------- What every task, result and log entry agrees with ----------

  ghost predicate TaskFits(home: seq<ExecId>, queries: seq<Query>, e: ExecId, t: Task) {
    match t
    case Request(q, arg, replyTo, weak) =>
      && q < |queries| && !queries[q].direct && queries[q].sender < |home|
      && e == queries[q].recvExec && replyTo == home[queries[q].sender]
      && arg == queries[q].arg && weak == queries[q].weak
    case Response(Some(q), _, weak) =>
      && q < |queries| && !queries[q].direct && queries[q].sender < |home|
      && e == home[queries[q].sender] && weak == queries[q].weak
    case Response(None, _, weak) => weak.Null?
    case Foreign(_) => true
  }

  ghost predicate ResultFits(home: seq<ExecId>, queries: seq<Query>, q: QueryId, r: Result) {
    && q < |queries| && queries[q].sender < |home|
    && (queries[q].direct ==> r == Result(None, queries[q].weak, Some(q)))
    && (!queries[q].direct ==>
          && r.executor == Some(home[queries[q].sender])
          && (r.callback, r.weak) in {(Some(q), queries[q].weak), (None, Lifetimes.Null)})
  }

  ghost predicate EntryFits(home: seq<ExecId>, queries: seq<Query>, entry: Entry) {
    match entry
    case Handled(q, at, arg) =>
      q < |queries| && arg == queries[q].arg && (!queries[q].direct ==> at == queries[q].recvExec)
    case Called(cb, at, _) =>
      && cb.Some? && cb.value < |queries|
      && var x := queries[cb.value];
         x.sender < |home| && (!x.direct ==> at == home[x.sender])
    case _ => true
  }

  ghost predicate Fits(s: State) {
    && Lifetimes.Valid(s.lives)
    && (forall c :: 0 <= c < |s.home| ==> s.home[c] < |s.execs|)
    && (forall e :: 0 <= e < |s.execs| ==> s.execs[e].Valid())
    && (forall q :: 0 <= q < |s.queries| ==>
          && s.queries[q].sender < |s.home| && s.queries[q].recvExec < |s.execs|
          && (s.queries[q].direct ==> s.queries[q].recvExec == s.home[s.queries[q].sender])
          && (s.queries[q].weak.To? ==> s.queries[q].weak.token < s.lives.next))
    && (forall e, i :: 0 <= e < |s.execs| && 0 <= i < |s.execs[e].work| ==>
          TaskFits(s.home, s.queries, e, s.execs[e].work[i]))
    && (forall e, i :: 0 <= e < |s.execs| && 0 <= i < |s.execs[e].back| ==>
          TaskFits(s.home, s.queries, e, s.execs[e].back[i]))
    && (forall q :: q in s.held ==> ResultFits(s.home, s.queries, q, s.held[q]))
    && (forall i :: 0 <= i < |s.log| ==> EntryFits(s.home, s.queries, s.log[i]))
  }

  lemma {:induction false} EnqueueKeepsFits(s: State, e: ExecId, t: Task)
    requires Fits(s) && e < |s.execs| && TaskFits(s.home, s.queries, e, t)
    ensures Fits(Enqueue(s, e, t))
  {
    ApplyKeepsValid(s.execs[e], Append(t));
  }

  lemma {:induction false} StepKeepsFits(s: State, e: ExecId, step: Executor.Step<Task>)
    requires Fits(s) && e < |s.execs| && Enabled(s.execs[e], step)
    requires step.Append? ==> step.t.Foreign?
    ensures Fits(Advance(s, e, step))
  {
    ApplyKeepsValid(s.execs[e], step);
  }

  lemma {:induction false} SendKeepsFits(s: State, x: Query, at: ExecId)
    requires Fits(s) && Can(s, Send(x, at))
    ensures Fits(Next(s, Send(x, at)))
  {
    var s1 := s.(queries := s.queries + [x]);
    assert Fits(s1);
    if !x.direct {
      EnqueueKeepsFits(s1, x.recvExec, Request(|s.queries|, x.arg, s.home[x.sender], x.weak));
    }
  }

  lemma {:induction false} LifeKeepsFits(s: State, op: Lifetimes.Op)
    requires Fits(s) && Can(s, Life(op))
    ensures Fits(Next(s, Life(op)))
  {
    Lifetimes.DoKeeps(s.lives, op, Lifetimes.Null);
  }

  lemma {:induction false} StartKeepsFits(s: State, e: ExecId)
    requires Fits(s) && Can(s, StartTask(e))
    ensures Fits(Next(s, StartTask(e)))
  {
    var s1 := Advance(s, e, Start);
    StepKeepsFits(s, e, Start);
    var task := s.execs[e].back[s.execs[e].next];
    assert TaskFits(s.home, s.queries, e, task);
    RunKeepsFits(s1, e, task);
  }

  lemma {:induction false} RecordKeepsFits(s: State, entry: Entry)
    requires Fits(s) && EntryFits(s.home, s.queries, entry)
    ensures Fits(Record(s, entry))
  {
  }

  lemma {:induction false} RunKeepsFits(s: State, e: ExecId, t: Task)
    requires Fits(s) && e < |s.execs| && TaskFits(s.home, s.queries, e, t)
    ensures Fits(Run(s, e, t))
  {
    match t
    case Request(q, arg, _, _) =>
      var s1 := s.(held := s.held[q := HandlerResult(t)]);
      assert Fits(s1);
      RecordKeepsFits(s1, Handled(q, e, arg));
    case Response(cb, v, w) =>
      match RunResponse(cb, v, w, s.lives) {
        case Invoked(_, _) => RecordKeepsFits(s, Called(cb, e, v));
        case Suppressed => RecordKeepsFits(s, Dropped(cb));
        case Enqueued(_, _) =>
      }
    case Foreign(_) =>
  }

  lemma {:induction false} ReplyKeepsFits(s: State, q: QueryId, v: int, at: ExecId)
    requires Fits(s) && Can(s, ReplyTo(q, v, at))
    ensures Fits(Next(s, ReplyTo(q, v, at)))
  {
    var r := s.held[q];
    var (r', effect) := Reply(r, s.lives, v);
    assert ResultFits(s.home, s.queries, q, r) && ResultFits(s.home, s.queries, q, r');
    var s1 := s.(held := s.held[q := r']);
    assert Fits(s1);
    match effect
    case Enqueued(e, t) => EnqueueKeepsFits(s1, e, t);
    case Invoked(cb, _) => RecordKeepsFits(s1, Called(cb, at, v));
    case Suppressed => RecordKeepsFits(s1, Dropped(r.callback));
  }

  lemma {:induction false} NextKeepsFits(s: State, a: Action)
    requires Fits(s) && Can(s, a)
    ensures Fits(Next(s, a))
  {
    match a
    case Send(x, at) => SendKeepsFits(s, x, at);
    case Post(e, tag) => StepKeepsFits(s, e, Append(Foreign(tag)));
    case SwapIn(e) => StepKeepsFits(s, e, Swap);
    case EndTask(e) => StepKeepsFits(s, e, End);
    case FinishRun(e) => StepKeepsFits(s, e, Finish);
    case StartTask(e) => StartKeepsFits(s, e);
    case ReplyTo(q, v, at) => ReplyKeepsFits(s, q, v, at);
    case Discard(q) =>
      var s1 := s.(held := s.held - {q});
      assert Fits(s1);
    case Life(op) => LifeKeepsFits(s, op);
  }

  lemma {:induction false} RunFits(trace: seq<State>, acts: seq<Action>)
    requires IsRun(trace, acts)
    ensures Fits(trace[|acts|])
    decreases |acts|
  {
    if acts != [] {
      var n := |acts| - 1;
      RunFits(trace[..n + 1], acts[..n]);
      NextKeepsFits(trace[n], acts[n]);
    }
  }

  lemma {:induction false} FitsAt(trace: seq<State>, acts: seq<Action>, n: nat)
    requires IsRun(trace, acts) && n <= |acts|
    ensures Fits(trace[n])
  {
    assert IsRun(trace[..n + 1], acts[..n]);
    RunFits(trace[..n + 1], acts[..n]);
  }

  // ---------- What each executor is given and runs ----------

  /** The tasks that a step gives to executor e. */
  function Given(s: State, a: Action, e: ExecId): seq<Task>
    requires Can(s, a)
  {
    match a
    case Send(x, _) =>
      if !x.direct && x.recvExec == e then [Request(|s.queries|, x.arg, s.home[x.sender], x.weak)] else []
    case Post(f, tag) => if f == e then [Foreign(tag)] else []
    case ReplyTo(q, v, _) =>
      if s.held[q].executor == Some(e) then [Response(s.held[q].callback, v, s.held[q].weak)] else []
    case _ => []
  }

  function AllGiven(trace: seq<State>, acts: seq<Action>, n: nat, e: ExecId): seq<Task>
    requires n <= |acts| < |trace| && forall i :: 0 <= i < n ==> Can(trace[i], acts[i])
  {
    if n == 0 then [] else AllGiven(trace, acts, n - 1, e) + Given(trace[n - 1], acts[n - 1], e)
  }

  /** How many tasks executor e has started. */
  function Started(acts: seq<Action>, n: nat, e: ExecId): nat
    requires n <= |acts|
  {
    if n == 0 then 0 else Started(acts, n - 1, e) + if acts[n - 1] == StartTask(e) then 1 else 0
  }

  lemma {:induction false} StepGiven(s: State, a: Action, e: ExecId)
    requires Can(s, a) && e < |s.execs|
    ensures |Next(s, a).execs| == |s.execs|
    ensures Next(s, a).execs[e].appended == s.execs[e].appended + Given(s, a, e)
    ensures |Next(s, a).execs[e].executed| == |s.execs[e].executed| + if a == StartTask(e) then 1 else 0
  {
  }

  /** On every run each executor has started, one after the other, the first of the tasks it was given, in the
      order in which it was given them; the rest it still has, in that order. */
  lemma {:induction false} ExecutorsRunInOrder(trace: seq<State>, acts: seq<Action>, n: nat, e: ExecId)
    requires IsRun(trace, acts) && n <= |acts| && e < |trace[0].execs|
    ensures e < |trace[n].execs| && trace[n].execs[e].Valid()
    ensures var q, given, k := trace[n].execs[e], AllGiven(trace, acts, n, e), Started(acts, n, e);
      k <= |given| && q.executed == given[..k] && q.back[q.next..] + q.work == given[k..]
    decreases n
  {
    AppendedAsGiven(trace, acts, n, e);
    FitsAt(trace, acts, n);
    var q := trace[n].execs[e];
    assert q.appended == q.executed + (q.back[q.next..] + q.work);
  }

  lemma {:induction false} AppendedAsGiven(trace: seq<State>, acts: seq<Action>, n: nat, e: ExecId)
    requires IsRun(trace, acts) && n <= |acts| && e < |trace[0].execs|
    ensures e < |trace[n].execs| && trace[n].execs[e].appended == AllGiven(trace, acts, n, e)
    ensures |trace[n].execs[e].executed| == Started(acts, n, e)
    decreases n
  {
    if n > 0 {
      AppendedAsGiven(trace, acts, n - 1, e);
      StepGiven(trace[n - 1], acts[n - 1], e);
    }
  }

  /** Of a component to an executor there is, directly if that is its own, and with a pointer it can have. */
  predicate Sendable(s: State, x: Query) {
    && x.sender < |s.home| && x.recvExec < |s.execs| && (x.direct <==> x.recvExec == s.home[x.sender])
    && (x.weak.To? ==> x.weak.token < s.lives.next)
  }

  /** Nothing is in the way of user code: whoever holds a result may reply or let go of it at any time and any
      number of times, anyone may send or post at any time, and lifetimes come and go. */
  lemma {:induction false} UserCodeIsFree(s: State, q: QueryId, v: int, at: ExecId, x: Query, o: nat, e: ExecId,
          tag: nat)
    requires Fits(s)
    ensures q in s.held ==> Can(s, ReplyTo(q, v, at)) && q in Next(s, ReplyTo(q, v, at)).held && Can(s, Discard(q))
    ensures e < |s.execs| ==> Can(s, Post(e, tag))
    ensures Sendable(s, x) ==> Can(s, Send(x, at))
    ensures o !in s.lives.owned ==> Can(s, Life(Lifetimes.Create(o)))
    ensures o in s.lives.owned ==> Can(s, Life(Lifetimes.Reset(o))) && Can(s, Life(Lifetimes.Destroy(o)))
  {
  }

  predicate IsTurn(a: Action, e: ExecId) {
    a == SwapIn(e) || a == StartTask(e) || a == EndTask(e) || a == FinishRun(e)
  }

  /** In every reachable state every executor has exactly one step to take next. */
  lemma {:induction false} ExecutorsGoOn(trace: seq<State>, acts: seq<Action>, e: ExecId)
    requires IsRun(trace, acts) && e < |trace[|acts|].execs|
    ensures exists a :: IsTurn(a, e) && Can(trace[|acts|], a)
    ensures forall a, b :: IsTurn(a, e) && IsTurn(b, e) && Can(trace[|acts|], a) && Can(trace[|acts|], b) ==> a == b
  {
    RunFits(trace, acts);
    var s := trace[|acts|];
    var q := s.execs[e];
    var a := match q.phase
      case Idle => SwapIn(e)
      case InTask => EndTask(e)
      case Between => if q.next < |q.back| then StartTask(e) else FinishRun(e);
    assert IsTurn(a, e) && Can(s, a);
  }

  // ---------- Confinement ----------

  /** Components send from their own executor, and replies on the direct path are made on the executor
      the two sides share. */
  predicate AtHome(s: State, a: Action) {
    match a
    case Send(x, at) => x.sender < |s.home| && at == s.home[x.sender]
    case ReplyTo(q, _, at) => q < |s.queries| && s.queries[q].direct ==> at == s.queries[q].recvExec
    case _ => true
  }

  ghost predicate EntryAtHome(home: seq<ExecId>, queries: seq<Query>, entry: Entry) {
    match entry
    case Handled(q, at, _) => q < |queries| && at == queries[q].recvExec
    case Called(cb, at, _) =>
      cb.Some? && cb.value < |queries| && queries[cb.value].sender < |home| && at == home[queries[cb.value].sender]
    case _ => true
  }

  /** Without any assumption on who calls from where: a queued query's handler runs on the receiver's
      effective executor only, and its callback on the sender's own executor only. */
  lemma {:induction false} QueuedPathIsConfined(trace: seq<State>, acts: seq<Action>, i: nat)
    requires IsRun(trace, acts) && i < |trace[|acts|].log|
    ensures var s := trace[|acts|];
      match s.log[i]
      case Handled(q, at, arg) =>
        q < |s.queries| && arg == s.queries[q].arg && (!s.queries[q].direct ==> at == s.queries[q].recvExec)
      case Called(cb, at, _) =>
        && cb.Some? && cb.value < |s.queries|
        && var x := s.queries[cb.value]; x.sender < |s.home| && (!x.direct ==> at == s.home[x.sender])
      case _ => true
  {
    RunFits(trace, acts);
  }

  lemma {:induction false} NewEntryAtHome(s: State, a: Action)
    requires Fits(s) && Can(s, a) && AtHome(s, a)
    ensures var t := Next(s, a);
      s.log <= t.log && forall k :: |s.log| <= k < |t.log| ==> EntryAtHome(t.home, t.queries, t.log[k])
  {
    match a
    case StartTask(e) => assert TaskFits(s.home, s.queries, e, s.execs[e].back[s.execs[e].next]);
    case ReplyTo(q, _, _) => assert ResultFits(s.home, s.queries, q, s.held[q]);
    case _ =>
  }

  /** With senders calling from their own executor, and direct replies made on the shared one, every
      handler and every callback runs on the executor it belongs to, on both paths. */
  lemma {:induction false} BothPathsAreConfined(trace: seq<State>, acts: seq<Action>)
    requires IsRun(trace, acts)
    requires forall i :: 0 <= i < |acts| ==> AtHome(trace[i], acts[i])
    ensures var s := trace[|acts|];
      forall k :: 0 <= k < |s.log| ==> EntryAtHome(s.home, s.queries, s.log[k])
    decreases |acts|
  {
    if acts != [] {
      var n := |acts| - 1;
      var s, t := trace[n], trace[n + 1];
      RunFits(trace[..n + 1], acts[..n]);
      BothPathsAreConfined(trace[..n + 1], acts[..n]);
      NewEntryAtHome(s, acts[n]);
      assert s.home == t.home && s.queries <= t.queries;
      forall k | 0 <= k < |t.log| ensures EntryAtHome(t.home, t.queries, t.log[k]) {
        if k < |s.log| {
          assert t.log[k] == s.log[k];
        }
      }
    }
  }

  // ---------- Conservation ----------

  /** A place where a queued query can be. */
  datatype Place = InWork(e: ExecId, i: nat) | InBack(e: ExecId, i: nat) | WithHandler | Settled(i: nat)

  /** The task carries the query forward: its request, or the response that holds its callback. */
  predicate Carries(t: Task, q: QueryId) {
    match t
    case Request(x, _, _, _) => x == q
    case Response(cb, _, _) => cb == Some(q)
    case Foreign(_) => false
  }

  predicate Settles(entry: Entry, q: QueryId) {
    entry == Abandoned(q) || entry == Dropped(Some(q)) || (entry.Called? && entry.callback == Some(q))
  }

  predicate IsAt(s: State, q: QueryId, p: Place) {
    match p
    case InWork(e, i) => e < |s.execs| && i < |s.execs[e].work| && Carries(s.execs[e].work[i], q)
    case InBack(e, i) =>
      e < |s.execs| && s.execs[e].next <= i < |s.execs[e].back| && Carries(s.execs[e].back[i], q)
    case WithHandler => q in s.held && s.held[q].callback == Some(q)
    case Settled(i) => i < |s.log| && Settles(s.log[i], q)
  }

  predicate IsQueued(s: State, q: QueryId) { q < |s.queries| && !s.queries[q].direct }

  ghost predicate InOnePlace(s: State, q: QueryId) {
    exists p :: IsAt(s, q, p) && forall p' :: IsAt(s, q, p') ==> p' == p
  }

  /** `w` names the one place of every queued query. */
  ghost predicate Placed(s: State, w: map<QueryId, Place>) {
    && (forall q :: q in w ==> IsQueued(s, q) && IsAt(s, q, w[q]))
    && (forall q: nat :: IsQueued(s, q) ==> q in w)
    && (forall q: nat, p :: IsAt(s, q, p) && !(q < |s.queries| && s.queries[q].direct) ==> q in w && w[q] == p)
  }

  function MovedBySwap(w: map<QueryId, Place>, e: ExecId): map<QueryId, Place> {
    map q | q in w :: if w[q].InWork? && w[q].e == e then InBack(e, w[q].i) else w[q]
  }

  function PlacesAfter(s: State, a: Action, w: map<QueryId, Place>): map<QueryId, Place>
    requires Can(s, a)
  {
    match a
    case Send(x, _) => if x.direct then w else w[|s.queries| := InWork(x.recvExec, |s.execs[x.recvExec].work|)]
    case SwapIn(e) => MovedBySwap(w, e)
    case StartTask(e) =>
      (match s.execs[e].back[s.execs[e].next]
       case Request(q, _, _, _) => w[q := WithHandler]
       case Response(Some(q), _, _) => w[q := Settled(|s.log|)]
       case _ => w)
    case ReplyTo(q, _, _) =>
      (match (s.held[q].executor, s.held[q].callback)
       case (Some(e), Some(_)) => if e < |s.execs| then w[q := InWork(e, |s.execs[e].work|)] else w
       case _ => w)
    case Discard(q) => if s.held[q].callback.Some? && s.held[q].executor.Some? then w[q := Settled(|s.log|)] else w
    case _ => w
  }

  predicate Tracked(s: State, q: QueryId) { !(q < |s.queries| && s.queries[q].direct) }

  /** No queued query is anywhere else in `t` than in `s`. */
  ghost predicate SamePlaces(s: State, t: State) {
    t.queries == s.queries && forall q: nat, p :: Tracked(s, q) ==> (IsAt(t, q, p) <==> IsAt(s, q, p))
  }

  /** The query q0 has gone from `from` to `to`, and no other queued query has moved. */
  ghost predicate OneMoved(s: State, t: State, q0: QueryId, from: Place, to: Place) {
    && t.queries == s.queries && IsQueued(s, q0) && IsAt(s, q0, from)
    && forall q: nat, p :: Tracked(s, q) ==>
         (IsAt(t, q, p) <==> (q == q0 && p == to) || (IsAt(s, q, p) && !(q == q0 && p == from)))
  }

  lemma {:induction false} SamePlacesKeepPlaced(s: State, t: State, w: map<QueryId, Place>)
    requires Placed(s, w) && SamePlaces(s, t)
    ensures Placed(t, w)
  {
    forall q | q in w ensures IsQueued(t, q) && IsAt(t, q, w[q]) {
      assert IsAt(s, q, w[q]);
    }
  }

  lemma {:induction false} OneMovedKeepsPlaced(s: State, t: State, q0: QueryId, from: Place, to: Place,
          w: map<QueryId, Place>)
    requires Placed(s, w) && OneMoved(s, t, q0, from, to)
    ensures q0 in w && w[q0] == from && Placed(t, w[q0 := to])
  {
    forall q | q in w ensures IsQueued(t, q) && IsAt(t, q, w[q0 := to][q]) {
      assert IsAt(s, q, w[q]);
      assert q == q0 ==> IsAt(t, q0, to);
    }
  }

  lemma {:induction false} SendKeepsPlaced(s: State, x: Query, at: ExecId, w: map<QueryId, Place>)
    requires Fits(s) && Placed(s, w) && Can(s, Send(x, at))
    ensures Placed(Next(s, Send(x, at)), PlacesAfter(s, Send(x, at), w))
  {
    var t, w' := Next(s, Send(x, at)), PlacesAfter(s, Send(x, at), w);
    forall q: nat, p | IsAt(t, q, p) && !(q < |t.queries| && t.queries[q].direct)
      ensures q in w' && w'[q] == p
    {
      SentIsThere(s, x, at, w, q, p);
    }
    forall q | q in w' ensures IsQueued(t, q) && IsAt(t, q, w'[q]) {
      PlacedAfterSend(s, x, at, w, q);
    }
  }

  lemma {:induction false} PlacedAfterSend(s: State, x: Query, at: ExecId, w: map<QueryId, Place>, q: QueryId)
    requires Fits(s) && Placed(s, w) && Can(s, Send(x, at)) && q in PlacesAfter(s, Send(x, at), w)
    ensures IsQueued(Next(s, Send(x, at)), q)
    ensures IsAt(Next(s, Send(x, at)), q, PlacesAfter(s, Send(x, at), w)[q])
  {
    if q in w {
      assert IsAt(s, q, w[q]);
    }
  }

  /** After a send a queued query is where the account says. */
  lemma {:induction false} SentIsThere(s: State, x: Query, at: ExecId, w: map<QueryId, Place>, q: QueryId, p: Place)
    requires Fits(s) && Placed(s, w) && Can(s, Send(x, at))
    requires IsAt(Next(s, Send(x, at)), q, p) && Tracked(Next(s, Send(x, at)), q)
    ensures q in PlacesAfter(s, Send(x, at), w) && PlacesAfter(s, Send(x, at), w)[q] == p
  {
    if q != |s.queries| || x.direct {
      assert IsAt(s, q, p);
    } else {
      assert !IsAt(s, q, p);
    }
  }

  lemma {:induction false} SwapKeepsPlaced(s: State, e: ExecId, w: map<QueryId, Place>)
    requires Fits(s) && Placed(s, w) && Can(s, SwapIn(e))
    ensures Placed(Next(s, SwapIn(e)), PlacesAfter(s, SwapIn(e), w))
  {
    var t, w' := Next(s, SwapIn(e)), MovedBySwap(w, e);
    forall q: nat, p | IsAt(t, q, p) && !(q < |t.queries| && t.queries[q].direct)
      ensures q in w' && w'[q] == p
    {
      if p.InBack? && p.e == e {
        assert IsAt(s, q, InWork(e, p.i));
      } else {
        assert IsAt(s, q, p);
      }
    }
    forall q | q in w' ensures IsQueued(t, q) && IsAt(t, q, w'[q]) {
      assert IsAt(s, q, w[q]);
    }
  }

  /** The part of StartTask that takes an entry out of the back buffer. */
  lemma {:induction false} TakenFromBack(s: State, e: ExecId, q: nat, p: Place)
    requires Fits(s) && Can(s, StartTask(e))
    ensures IsAt(Advance(s, e, Start), q, p) <==> IsAt(s, q, p) && p != InBack(e, s.execs[e].next)
  {
  }

  /** The part that runs it: the query that it carries gets a place, and no other does. */
  lemma {:induction false} RanAt(s: State, e: ExecId, q0: QueryId, q: QueryId, p: Place)
    requires Fits(s) && Can(s, StartTask(e)) && Carries(s.execs[e].back[s.execs[e].next], q0) && Tracked(s, q)
    ensures var to := if s.execs[e].back[s.execs[e].next].Request? then WithHandler else Settled(|s.log|);
      IsAt(Next(s, StartTask(e)), q, p) <==> (q == q0 && p == to) || IsAt(Advance(s, e, Start), q, p)
  {
    assert TaskFits(s.home, s.queries, e, s.execs[e].back[s.execs[e].next]);
  }

  lemma {:induction false} StartMoves(s: State, e: ExecId, q0: QueryId)
    requires Fits(s) && Can(s, StartTask(e)) && Carries(s.execs[e].back[s.execs[e].next], q0)
    ensures OneMoved(s, Next(s, StartTask(e)), q0, InBack(e, s.execs[e].next),
              if s.execs[e].back[s.execs[e].next].Request? then WithHandler else Settled(|s.log|))
  {
    var t, from := Next(s, StartTask(e)), InBack(e, s.execs[e].next);
    var to := if s.execs[e].back[s.execs[e].next].Request? then WithHandler else Settled(|s.log|);
    assert TaskFits(s.home, s.queries, e, s.execs[e].back[s.execs[e].next]);
    forall q: nat, p | Tracked(s, q)
      ensures IsAt(t, q, p) <==> (q == q0 && p == to) || (IsAt(s, q, p) && !(q == q0 && p == from))
    {
      TakenFromBack(s, e, q, p);
      RanAt(s, e, q0, q, p);
      assert IsAt(s, q, from) ==> q == q0;
    }
  }

  lemma {:induction false} StartKeepsPlaced(s: State, e: ExecId, w: map<QueryId, Place>)
    requires Fits(s) && Placed(s, w) && Can(s, StartTask(e))
    ensures Placed(Next(s, StartTask(e)), PlacesAfter(s, StartTask(e), w))
  {
    var task := s.execs[e].back[s.execs[e].next];
    var t := Next(s, StartTask(e));
    var from := InBack(e, s.execs[e].next);
    assert TaskFits(s.home, s.queries, e, task);
    match task
    case Request(q, _, _, _) =>
      StartMoves(s, e, q);
      OneMovedKeepsPlaced(s, t, q, from, WithHandler, w);
    case Response(Some(q), _, _) =>
      StartMoves(s, e, q);
      OneMovedKeepsPlaced(s, t, q, from, Settled(|s.log|), w);
    case _ =>
      forall q: nat, p | Tracked(s, q) ensures IsAt(t, q, p) <==> IsAt(s, q, p) {
        TakenFromBack(s, e, q, p);
      }
      SamePlacesKeepPlaced(s, t, w);
  }

  lemma {:induction false} ReplyMoves(s: State, q0: QueryId, v: int, at: ExecId)
    requires Fits(s) && Can(s, ReplyTo(q0, v, at)) && s.held[q0].executor.Some? && s.held[q0].callback.Some?
    ensures s.held[q0].executor.value < |s.execs|
    ensures var e := s.held[q0].executor.value;
      OneMoved(s, Next(s, ReplyTo(q0, v, at)), q0, WithHandler, InWork(e, |s.execs[e].work|))
  {
    assert ResultFits(s.home, s.queries, q0, s.held[q0]);
    var t, e := Next(s, ReplyTo(q0, v, at)), s.held[q0].executor.value;
    var to := InWork(e, |s.execs[e].work|);
    forall q: nat, p | Tracked(s, q)
      ensures IsAt(t, q, p) <==> (q == q0 && p == to) || (IsAt(s, q, p) && !(q == q0 && p == WithHandler))
    {
      ReplyMovesOne(s, q0, v, at, q, p);
    }
  }

  lemma {:induction false} ReplyMovesOne(s: State, q0: QueryId, v: int, at: ExecId, q: QueryId, p: Place)
    requires Fits(s) && Can(s, ReplyTo(q0, v, at)) && s.held[q0].executor.Some? && s.held[q0].callback.Some?
    requires s.held[q0].executor.value < |s.execs| && Tracked(s, q)
    ensures var e := s.held[q0].executor.value;
      IsAt(Next(s, ReplyTo(q0, v, at)), q, p) <==>
        (q == q0 && p == InWork(e, |s.execs[e].work|)) || (IsAt(s, q, p) && !(q == q0 && p == WithHandler))
  {
    assert ResultFits(s.home, s.queries, q0, s.held[q0]);
  }

  lemma {:induction false} ReplyElsewhere(s: State, q0: QueryId, v: int, at: ExecId)
    requires Fits(s) && Can(s, ReplyTo(q0, v, at))
    requires s.held[q0].executor.None? || s.held[q0].callback.None?
    ensures SamePlaces(s, Next(s, ReplyTo(q0, v, at)))
  {
    assert ResultFits(s.home, s.queries, q0, s.held[q0]);
  }

  lemma {:induction false} ReplyKeepsPlaced(s: State, q0: QueryId, v: int, at: ExecId, w: map<QueryId, Place>)
    requires Fits(s) && Placed(s, w) && Can(s, ReplyTo(q0, v, at))
    ensures Placed(Next(s, ReplyTo(q0, v, at)), PlacesAfter(s, ReplyTo(q0, v, at), w))
  {
    var t := Next(s, ReplyTo(q0, v, at));
    if s.held[q0].executor.Some? && s.held[q0].callback.Some? {
      ReplyMoves(s, q0, v, at);
      var e := s.held[q0].executor.value;
      OneMovedKeepsPlaced(s, t, q0, WithHandler, InWork(e, |s.execs[e].work|), w);
    } else {
      ReplyElsewhere(s, q0, v, at);
      SamePlacesKeepPlaced(s, t, w);
    }
  }

  lemma {:induction false} DiscardMoves(s: State, q0: QueryId)
    requires Fits(s) && Can(s, Discard(q0)) && s.held[q0].executor.Some? && s.held[q0].callback.Some?
    ensures OneMoved(s, Next(s, Discard(q0)), q0, WithHandler, Settled(|s.log|))
  {
    assert ResultFits(s.home, s.queries, q0, s.held[q0]);
  }

  lemma {:induction false} DiscardElsewhere(s: State, q0: QueryId)
    requires Fits(s) && Can(s, Discard(q0))
    requires s.held[q0].executor.None? || s.held[q0].callback.None?
    ensures SamePlaces(s, Next(s, Discard(q0)))
  {
    assert ResultFits(s.home, s.queries, q0, s.held[q0]);
  }

  lemma {:induction false} DiscardKeepsPlaced(s: State, q0: QueryId, w: map<QueryId, Place>)
    requires Fits(s) && Placed(s, w) && Can(s, Discard(q0))
    ensures Placed(Next(s, Discard(q0)), PlacesAfter(s, Discard(q0), w))
  {
    var t := Next(s, Discard(q0));
    if s.held[q0].executor.Some? && s.held[q0].callback.Some? {
      DiscardMoves(s, q0);
      OneMovedKeepsPlaced(s, t, q0, WithHandler, Settled(|s.log|), w);
    } else {
      DiscardElsewhere(s, q0);
      SamePlacesKeepPlaced(s, t, w);
    }
  }

  lemma {:induction false} OthersStayPut(s: State, a: Action)
    requires Fits(s) && Can(s, a)
    requires a.Post? || a.EndTask? || a.FinishRun? || a.Life?
    ensures SamePlaces(s, Next(s, a))
  {
    forall q: nat, p | Tracked(s, q) ensures IsAt(Next(s, a), q, p) <==> IsAt(s, q, p) {
      StaysPut(s, a, q, p);
    }
  }

  lemma {:induction false} StaysPut(s: State, a: Action, q: QueryId, p: Place)
    requires Fits(s) && Can(s, a)
    requires a.Post? || a.EndTask? || a.FinishRun? || a.Life?
    ensures IsAt(Next(s, a), q, p) <==> IsAt(s, q, p)
  {
    match a
    case Post(_, _) =>
    case EndTask(_) =>
    case FinishRun(_) =>
    case Life(_) =>
  }

  lemma {:induction false} NextKeepsPlaced(s: State, a: Action, w: map<QueryId, Place>)
    requires Fits(s) && Placed(s, w) && Can(s, a)
    ensures Placed(Next(s, a), PlacesAfter(s, a, w))
  {
    match a
    case Send(x, at) => SendKeepsPlaced(s, x, at, w);
    case SwapIn(e) => SwapKeepsPlaced(s, e, w);
    case StartTask(e) => StartKeepsPlaced(s, e, w);
    case ReplyTo(q, v, at) => ReplyKeepsPlaced(s, q, v, at, w);
    case Discard(q) => DiscardKeepsPlaced(s, q, w);
    case _ =>
      OthersStayPut(s, a);
      SamePlacesKeepPlaced(s, Next(s, a), w);
  }

  lemma {:induction false} InitialPlaced(s: State)
    requires Initial(s)
    ensures Fits(s) && Placed(s, map[])
  {
    assert forall q: nat, p :: !IsAt(s, q, p);
  }

  lemma {:induction false} RunPlaced(trace: seq<State>, acts: seq<Action>) returns (w: map<QueryId, Place>)
    requires IsRun(trace, acts)
    ensures Fits(trace[|acts|]) && Placed(trace[|acts|], w)
    decreases |acts|
  {
    if acts == [] {
      InitialPlaced(trace[0]);
      w := map[];
    } else {
      var n := |acts| - 1;
      var before := RunPlaced(trace[..n + 1], acts[..n]);
      NextKeepsFits(trace[n], acts[n]);
      NextKeepsPlaced(trace[n], acts[n], before);
      w := PlacesAfter(trace[n], acts[n], before);
    }
  }

  /** Conservation: in every reachable state each query sent on the queued path is in exactly one place:
      one position of a queue or back buffer, with its handler unanswered, or one entry of the log that
      settles it. No interleaving loses or duplicates it. */
  lemma {:induction false} Conservation(trace: seq<State>, acts: seq<Action>, q: QueryId)
    requires IsRun(trace, acts) && IsQueued(trace[|acts|], q)
    ensures InOnePlace(trace[|acts|], q)
  {
    var w := RunPlaced(trace, acts);
    assert IsAt(trace[|acts|], q, w[q]);
  }

  /** In particular its callback is run at most once, and never after it was dropped or abandoned, however
      often the handler replies. */
  lemma {:induction false} SettledOnce(trace: seq<State>, acts: seq<Action>, q: QueryId, i: nat, j: nat)
    requires IsRun(trace, acts) && IsQueued(trace[|acts|], q)
    requires i < |trace[|acts|].log| && j < |trace[|acts|].log|
    requires Settles(trace[|acts|].log[i], q) && Settles(trace[|acts|].log[j], q)
    ensures i == j
  {
    var w := RunPlaced(trace, acts);
    assert IsAt(trace[|acts|], q, Settled(i));
    assert IsAt(trace[|acts|], q, Settled(j));
  }

  /** The query waits at `p` as a request its handler has not seen. */
  predicate RequestAt(s: State, p: Place) {
    match p
    case InWork(e, i) => e < |s.execs| && i < |s.execs[e].work| && s.execs[e].work[i].Request?
    case InBack(e, i) => e < |s.execs| && s.execs[e].next <= i < |s.execs[e].back| && s.execs[e].back[i].Request?
    case _ => false
  }

  predicate HandledAt(s: State, q: QueryId, i: nat) {
    i < |s.log| && s.log[i].Handled? && s.log[i].q == q
  }

  /** `h` names the one log entry of every query whose handler has run. */
  ghost predicate HandledOnce(s: State, h: map<QueryId, nat>) {
    && (forall q: nat, i: nat :: HandledAt(s, q, i) ==> q in h && h[q] == i)
    && (forall q :: q in h ==> q < |s.queries| && HandledAt(s, q, h[q]))
    && (forall q: nat :: q < |s.queries| && s.queries[q].direct ==> q in h)
  }

  /** The queued queries whose handler has run are those no longer waiting as a request. */
  ghost predicate RequestsUnhandled(s: State, h: map<QueryId, nat>) {
    forall q: nat, p :: IsAt(s, q, p) && Tracked(s, q) ==> (q in h <==> !RequestAt(s, p))
  }

  /** The entry that runs a handler, if the action adds one. */
  function NewHandling(s: State, a: Action): Option<QueryId>
    requires Can(s, a)
  {
    match a
    case Send(x, _) => if x.direct then Some(|s.queries|) else None
    case StartTask(e) =>
      (match s.execs[e].back[s.execs[e].next] case Request(q, _, _, _) => Some(q) case _ => None)
    case _ => None
  }

  function HandledAfter(s: State, a: Action, h: map<QueryId, nat>): map<QueryId, nat>
    requires Can(s, a)
  {
    var started := NewHandling(s, a);
    if started.Some? then h[started.value := |s.log|] else h
  }

  lemma {:induction false} LogGrows(s: State, a: Action)
    requires Fits(s) && Can(s, a)
    ensures var t, started := Next(s, a), NewHandling(s, a);
      && s.log <= t.log && |t.log| <= |s.log| + 1
      && (started.Some? ==> HandledAt(t, started.value, |s.log|))
      && (started.None? ==> |t.log| == |s.log| || !t.log[|s.log|].Handled?)
  {
  }

  lemma {:induction false} HandledOnceGrows(s: State, t: State, h: map<QueryId, nat>, started: Option<QueryId>)
    requires HandledOnce(s, h) && s.queries <= t.queries && s.log <= t.log && |t.log| <= |s.log| + 1
    requires started.Some? ==>
      started.value < |t.queries| && started.value !in h && HandledAt(t, started.value, |s.log|)
    requires started.None? ==> |t.log| == |s.log| || !t.log[|s.log|].Handled?
    requires forall q :: |s.queries| <= q < |t.queries| && t.queries[q].direct ==> started == Some(q)
    ensures HandledOnce(t, if started.Some? then h[started.value := |s.log|] else h)
  {
    var h' := if started.Some? then h[started.value := |s.log|] else h;
    forall q: nat, i: nat | HandledAt(t, q, i) ensures q in h' && h'[q] == i {
      if i < |s.log| { assert HandledAt(s, q, i); }
    }
    forall q | q in h' ensures q < |t.queries| && HandledAt(t, q, h'[q]) {
      if q in h { assert HandledAt(s, q, h[q]); }
    }
  }

  lemma {:induction false} NextKeepsHandledOnce(s: State, a: Action, w: map<QueryId, Place>, h: map<QueryId, nat>)
    requires Fits(s) && Placed(s, w) && Can(s, a) && HandledOnce(s, h) && RequestsUnhandled(s, h)
    ensures HandledOnce(Next(s, a), HandledAfter(s, a, h))
  {
    LogGrows(s, a);
    if a.StartTask? {
      var task := s.execs[a.e].back[s.execs[a.e].next];
      assert TaskFits(s.home, s.queries, a.e, task);
      if task.Request? {
        assert IsAt(s, task.q, InBack(a.e, s.execs[a.e].next));
      }
    }
    HandledOnceGrows(s, Next(s, a), h, NewHandling(s, a));
  }

  /** The query of the task that is started: its handler has run now, or had before. */
  lemma {:induction false} StartedRequestAt(s: State, e: ExecId, w: map<QueryId, Place>, h: map<QueryId, nat>,
          q: QueryId, p: Place)
    requires Fits(s) && Placed(s, w) && Can(s, StartTask(e)) && RequestsUnhandled(s, h)
    requires Carries(s.execs[e].back[s.execs[e].next], q) && IsAt(Next(s, StartTask(e)), q, p)
    ensures q in HandledAfter(s, StartTask(e), h) <==> !RequestAt(Next(s, StartTask(e)), p)
  {
    var k := s.execs[e].next;
    var task := s.execs[e].back[k];
    assert TaskFits(s.home, s.queries, e, task);
    StartMoves(s, e, q);
    assert IsAt(s, q, InBack(e, k));
    assert RequestAt(s, InBack(e, k)) <==> task.Request?;
    assert IsAt(s, q, p) ==> p == InBack(e, k);
  }

  lemma {:induction false} OtherRequestAt(s: State, e: ExecId, h: map<QueryId, nat>, q: QueryId, p: Place)
    requires Fits(s) && Can(s, StartTask(e)) && RequestsUnhandled(s, h) && Tracked(s, q)
    requires !Carries(s.execs[e].back[s.execs[e].next], q) && IsAt(Next(s, StartTask(e)), q, p)
    ensures q in HandledAfter(s, StartTask(e), h) <==> !RequestAt(Next(s, StartTask(e)), p)
  {
    TakenFromBack(s, e, q, p);
    assert IsAt(s, q, p);
    SameRequestAt(s, e, q, p);
  }

  lemma {:induction false} SameRequestAt(s: State, e: ExecId, q: QueryId, p: Place)
    requires Can(s, StartTask(e)) && IsAt(Next(s, StartTask(e)), q, p)
    ensures RequestAt(Next(s, StartTask(e)), p) <==> RequestAt(s, p)
  {
  }

  lemma {:induction false} StartKeepsRequests(s: State, e: ExecId, w: map<QueryId, Place>, h: map<QueryId, nat>)
    requires Fits(s) && Placed(s, w) && Can(s, StartTask(e)) && RequestsUnhandled(s, h)
    ensures RequestsUnhandled(Next(s, StartTask(e)), HandledAfter(s, StartTask(e), h))
  {
    var t, h' := Next(s, StartTask(e)), HandledAfter(s, StartTask(e), h);
    forall q: nat, p | IsAt(t, q, p) && Tracked(t, q) ensures q in h' <==> !RequestAt(t, p) {
      if Carries(s.execs[e].back[s.execs[e].next], q) {
        StartedRequestAt(s, e, w, h, q, p);
      } else {
        OtherRequestAt(s, e, h, q, p);
      }
    }
  }

  lemma {:induction false} SendKeepsRequests(s: State, x: Query, at: ExecId, w: map<QueryId, Place>,
          h: map<QueryId, nat>)
    requires Fits(s) && Placed(s, w) && Can(s, Send(x, at)) && HandledOnce(s, h) && RequestsUnhandled(s, h)
    ensures RequestsUnhandled(Next(s, Send(x, at)), HandledAfter(s, Send(x, at), h))
  {
    var t := Next(s, Send(x, at));
    forall q: nat, p | IsAt(t, q, p) && Tracked(t, q)
      ensures q in HandledAfter(s, Send(x, at), h) <==> !RequestAt(t, p)
    {
      if q != |s.queries| {
        assert IsAt(s, q, p);
      } else {
        assert !IsAt(s, q, p);
      }
    }
  }

  lemma {:induction false} ReplyKeepsRequests(s: State, q0: QueryId, v: int, at: ExecId, h: map<QueryId, nat>)
    requires Fits(s) && Can(s, ReplyTo(q0, v, at)) && RequestsUnhandled(s, h)
    ensures RequestsUnhandled(Next(s, ReplyTo(q0, v, at)), h)
  {
    var t := Next(s, ReplyTo(q0, v, at));
    if s.held[q0].executor.Some? && s.held[q0].callback.Some? {
      ReplyMoves(s, q0, v, at);
    } else {
      ReplyElsewhere(s, q0, v, at);
    }
    forall q: nat, p | IsAt(t, q, p) && Tracked(t, q) ensures q in h <==> !RequestAt(t, p) {
      if IsAt(s, q, p) {
        assert RequestAt(t, p) <==> RequestAt(s, p);
      } else {
        assert IsAt(s, q, WithHandler);
      }
    }
  }

  lemma {:induction false} SwapKeepsRequests(s: State, e: ExecId, h: map<QueryId, nat>)
    requires Fits(s) && Can(s, SwapIn(e)) && RequestsUnhandled(s, h)
    ensures RequestsUnhandled(Next(s, SwapIn(e)), h)
  {
    var t := Next(s, SwapIn(e));
    forall q: nat, p | IsAt(t, q, p) && Tracked(t, q) ensures q in h <==> !RequestAt(t, p) {
      var from := if p.InBack? && p.e == e then InWork(e, p.i) else p;
      assert IsAt(s, q, from);
    }
  }

  lemma {:induction false} DiscardKeepsRequests(s: State, q0: QueryId, h: map<QueryId, nat>)
    requires Fits(s) && Can(s, Discard(q0)) && RequestsUnhandled(s, h)
    ensures RequestsUnhandled(Next(s, Discard(q0)), h)
  {
    var t := Next(s, Discard(q0));
    assert ResultFits(s.home, s.queries, q0, s.held[q0]);
    forall q: nat, p | IsAt(t, q, p) && Tracked(t, q) ensures q in h <==> !RequestAt(t, p) {
      if !IsAt(s, q, p) { assert IsAt(s, q, WithHandler); }
    }
  }

  lemma {:induction false} OtherKeepsRequests(s: State, a: Action, h: map<QueryId, nat>)
    requires Fits(s) && Can(s, a) && RequestsUnhandled(s, h)
    requires a.Post? || a.EndTask? || a.FinishRun? || a.Life?
    ensures RequestsUnhandled(Next(s, a), h)
  {
    var t := Next(s, a);
    forall q: nat, p | IsAt(t, q, p) && Tracked(t, q) ensures q in h <==> !RequestAt(t, p) {
      assert IsAt(s, q, p);
    }
  }

  lemma {:induction false} NextKeepsRequests(s: State, a: Action, w: map<QueryId, Place>, h: map<QueryId, nat>)
    requires Fits(s) && Placed(s, w) && Can(s, a) && HandledOnce(s, h) && RequestsUnhandled(s, h)
    ensures RequestsUnhandled(Next(s, a), HandledAfter(s, a, h))
  {
    match a
    case Send(x, at) => SendKeepsRequests(s, x, at, w, h);
    case SwapIn(e) => SwapKeepsRequests(s, e, h);
    case StartTask(e) => StartKeepsRequests(s, e, w, h);
    case ReplyTo(q, v, at) => ReplyKeepsRequests(s, q, v, at, h);
    case Discard(q) => DiscardKeepsRequests(s, q, h);
    case _ => OtherKeepsRequests(s, a, h);
  }

  lemma {:induction false} RunHandledOnce(trace: seq<State>, acts: seq<Action>)
    returns (w: map<QueryId, Place>, h: map<QueryId, nat>)
    requires IsRun(trace, acts)
    ensures Fits(trace[|acts|]) && Placed(trace[|acts|], w)
    ensures HandledOnce(trace[|acts|], h) && RequestsUnhandled(trace[|acts|], h)
    decreases |acts|
  {
    if acts == [] {
      InitialPlaced(trace[0]);
      w, h := map[], map[];
      assert forall q: nat, p :: !IsAt(trace[0], q, p);
    } else {
      var n := |acts| - 1;
      w, h := RunHandledOnce(trace[..n + 1], acts[..n]);
      NextKeepsFits(trace[n], acts[n]);
      NextKeepsPlaced(trace[n], acts[n], w);
      NextKeepsHandledOnce(trace[n], acts[n], w, h);
      NextKeepsRequests(trace[n], acts[n], w, h);
      w, h := PlacesAfter(trace[n], acts[n], w), HandledAfter(trace[n], acts[n], h);
    }
  }

  /** The handler of a query is run at most once, and it has run exactly when the query is no longer
      waiting anywhere as a request. */
  lemma {:induction false} HandlersRunOnce(trace: seq<State>, acts: seq<Action>, q: QueryId)
    requires IsRun(trace, acts) && q < |trace[|acts|].queries|
    ensures forall i: nat, j: nat :: HandledAt(trace[|acts|], q, i) && HandledAt(trace[|acts|], q, j) ==> i == j
    ensures (exists i: nat :: HandledAt(trace[|acts|], q, i))
       <==> !(exists p :: IsAt(trace[|acts|], q, p) && RequestAt(trace[|acts|], p))
  {
    var s := trace[|acts|];
    var w, h := RunHandledOnce(trace, acts);
    if q in h {
      assert HandledAt(s, q, h[q]);
    }
    if s.queries[q].direct {
      forall p | IsAt(s, q, p) ensures !RequestAt(s, p) {
        match p
        case InWork(e, i) => assert TaskFits(s.home, s.queries, e, s.execs[e].work[i]);
        case InBack(e, i) => assert TaskFits(s.home, s.queries, e, s.execs[e].back[i]);
        case _ =>
      }
    } else {
      assert IsAt(s, q, w[q]);
    }
  }

  // ---------- Cancellation ----------

  /** An invoked callback's lifetime is live at that moment. */
  lemma {:induction false} CalledWhileLive(s: State, a: Action)
    requires Fits(s) && Can(s, a)
    ensures s.log <= Next(s, a).log
    ensures forall i :: |s.log| <= i < |Next(s, a).log| && Next(s, a).log[i].Called? ==>
      && Next(s, a).log[i].callback.Some? && Next(s, a).log[i].callback.value < |s.queries|
      && !Lifetimes.Expired(s.lives, s.queries[Next(s, a).log[i].callback.value].weak)
  {
    match a
    case StartTask(e) => assert TaskFits(s.home, s.queries, e, s.execs[e].back[s.execs[e].next]);
    case ReplyTo(q, _, _) => assert ResultFits(s.home, s.queries, q, s.held[q]);
    case _ =>
  }

  lemma {:induction false} StepStaysExpired(s: State, a: Action, q: QueryId)
    requires Fits(s) && Can(s, a) && q < |s.queries| && Lifetimes.Expired(s.lives, s.queries[q].weak)
    ensures q < |Next(s, a).queries| && Next(s, a).queries[q] == s.queries[q]
    ensures Lifetimes.Expired(Next(s, a).lives, s.queries[q].weak)
  {
    if a.Life? {
      Lifetimes.DoKeeps(s.lives, a.op, s.queries[q].weak);
    }
  }

  lemma {:induction false} RunStaysExpired(trace: seq<State>, acts: seq<Action>, n: nat, m: nat, q: QueryId)
    requires IsRun(trace, acts) && n <= m <= |acts|
    requires q < |trace[n].queries| && Lifetimes.Expired(trace[n].lives, trace[n].queries[q].weak)
    ensures q < |trace[m].queries| && trace[m].queries[q] == trace[n].queries[q]
    ensures Lifetimes.Expired(trace[m].lives, trace[m].queries[q].weak) && Fits(trace[m])
    decreases m - n
  {
    FitsAt(trace, acts, n);
    if n < m {
      StepStaysExpired(trace[n], acts[n], q);
      RunStaysExpired(trace, acts, n + 1, m, q);
    }
  }

  /** Cancellation: from the moment that a query's lifetime has expired, whether it was reset, destroyed or
      never live, its callback is not run any more, on either path and however long the delay between send,
      reply and delivery. */
  lemma {:induction false} NoCallbackAfterExpiry(trace: seq<State>, acts: seq<Action>, n: nat, q: QueryId, j: nat)
    requires IsRun(trace, acts) && n <= |acts| && q < |trace[n].queries|
    requires Lifetimes.Expired(trace[n].lives, trace[n].queries[q].weak)
    requires |trace[n].log| <= j < |trace[|acts|].log|
    ensures !(trace[|acts|].log[j].Called? && trace[|acts|].log[j].callback == Some(q))
    decreases |acts|
  {
    if n < |acts| {
      var m := |acts| - 1;
      RunStaysExpired(trace, acts, n, m, q);
      CalledWhileLive(trace[m], acts[m]);
      if j < |trace[m].log| {
        NoCallbackAfterExpiry(trace[..m + 1], acts[..m], n, q, j);
      }
    }
  }

  /** No object other than o owns the integer of o. */
  predicate OnlyOwner(s: Lifetimes.Store, o: nat) {
    o in s.owned && forall c :: c in s.owned && s.owned[c] == s.owned[o] ==> c == o
  }

  /** From the end, or the reset, of the only object that owns an integer on, no callback of a query is run that
      was sent with a pointer to it, be it in a queue, with a handler, or still to be replied to. */
  lemma {:induction false} NoCallbackAfterTheEnd(trace: seq<State>, acts: seq<Action>, n: nat, o: nat, q: QueryId,
          j: nat)
    requires IsRun(trace, acts) && n < |acts| && q < |trace[n].queries|
    requires acts[n] == Life(Lifetimes.Destroy(o)) || acts[n] == Life(Lifetimes.Reset(o))
    requires OnlyOwner(trace[n].lives, o) && trace[n].queries[q].weak == Lifetimes.To(trace[n].lives.owned[o])
    requires |trace[n].log| <= j < |trace[|acts|].log|
    ensures !(trace[|acts|].log[j].Called? && trace[|acts|].log[j].callback == Some(q))
  {
    FitsAt(trace, acts, n);
    assert trace[n + 1].log == trace[n].log && trace[n + 1].queries == trace[n].queries;
    if acts[n].op.Destroy? {
      Lifetimes.DestroyExpiresItsOwn(trace[n].lives, o, trace[n].queries[q].weak);
    } else {
      Lifetimes.ResetExpiresItsOwn(trace[n].lives, o, trace[n].queries[q].weak);
    }
    NoCallbackAfterExpiry(trace, acts, n + 1, q, j);
  }
}
