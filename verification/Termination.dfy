/**
 * Draining under any interleaving of threads: while nothing more is sent through the queues, each request
 * or response that any executor starts takes one off a measure of what is left to do, and two rounds of all
 * executors, overlapping in any way, leave nothing.
 */
module Termination {
  import opened Common
  import opened Executor
  import opened CallbackResults
  import opened Protocol
  import opened Ordering
  import Draining

  type Items = seq<Task>

  /** What is still to be started, in the order in which it will be. */
  function Waiting(q: Queue<Task>): Items {
    (if q.next <= |q.back| then q.back[q.next..] else []) + q.work
  }

  function AllWaiting(execs: seq<Queue<Task>>): Draining.Queues {
    seq(|execs|, e requires 0 <= e < |execs| => Waiting(execs[e]))
  }

  /** The queued queries whose handler has a result that it has not used. */
  function Open(held: map<QueryId, Result>): set<QueryId> {
    set q | q in held && held[q].executor.Some? && held[q].callback.Some?
  }

  /** What is left to do: 2 * requests + results not used + responses; others' work does not count. */
  function Left(s: State): nat {
    Draining.Measure(AllWaiting(s.execs), 0) + |Open(s.held)|
  }

  /** Nothing is sent through the queues, and each result is used at most once. Direct calls, other work,
      late replies, discarded results and lifetimes are left open, and so is the schedule. */
  predicate Closing(s: State, a: Action)
    requires Can(s, a)
  {
    match a
    case Send(x, _) => x.direct
    case ReplyTo(q, _, _) => s.held[q].executor.Some? ==> s.held[q].callback.Some?
    case _ => true
  }

  /** One for starting a request or a response, and for discarding an unused result. */
  function Takes(s: State, a: Action): nat
    requires Can(s, a)
  {
    match a
    case StartTask(e) => if s.execs[e].back[s.execs[e].next].Foreign? then 0 else 1
    case Discard(q) => if q in Open(s.held) then 1 else 0
    case _ => 0
  }

  // ---------- What waits ----------

  /** Appending adds an item, and starting takes the first; nothing else in a queue does. */
  lemma {:induction false} ApplyWaiting(q: Queue<Task>, step: Executor.Step<Task>)
    requires q.Valid() && Enabled(q, step)
    ensures step.Append? ==> Waiting(Apply(q, step)) == Waiting(q) + [step.t]
    ensures step.Start? ==> Waiting(q) == [q.back[q.next]] + Waiting(Apply(q, step))
    ensures !step.Append? && !step.Start? ==> Waiting(Apply(q, step)) == Waiting(q)
  {
    var rest := q.back[q.next..];
    match step
    case Append(t) => assert rest + (q.work + [t]) == (rest + q.work) + [t];
    case Swap => assert q.work[0..] == q.work && rest == [] && q.work + [] == [] + q.work;
    case Start =>
      var one, later := [q.back[q.next]], q.back[q.next + 1..];
      assert rest == one + later && (one + later) + q.work == one + (later + q.work);
    case End =>
    case Finish => assert rest == [];
  }

  lemma {:induction false} AdvanceLeft(s: State, e: ExecId, step: Executor.Step<Task>)
    requires e < |s.execs| && s.execs[e].Valid() && Enabled(s.execs[e], step)
    ensures Draining.Measure(AllWaiting(Advance(s, e, step).execs), 0) == Draining.Measure(AllWaiting(s.execs), 0)
      + (if step.Append? then Draining.WeightOf(step.t, 0) else 0)
      - (if step.Start? then Draining.WeightOf(s.execs[e].back[s.execs[e].next], 0) else 0)
  {
    var q, queues := s.execs[e], AllWaiting(s.execs);
    var after := Waiting(Apply(q, step));
    ApplyWaiting(q, step);
    assert AllWaiting(Advance(s, e, step).execs) == queues[e := after];
    Draining.MeasureUpdate(queues, e, after, 0);
    match step {
      case Append(t) =>
        Draining.WeightConcat(Waiting(q), [t], 0);
        Draining.WeightOne(t, 0);
      case Start =>
        Draining.WeightConcat([q.back[q.next]], after, 0);
        Draining.WeightOne(q.back[q.next], 0);
      case _ =>
    }
  }

  // ---------- Results in use ----------

  lemma {:induction false} OpenAdd(held: map<QueryId, Result>, q: QueryId, r: Result)
    requires q !in Open(held) && r.executor.Some? && r.callback.Some?
    ensures |Open(held[q := r])| == |Open(held)| + 1
  {
    assert Open(held[q := r]) == Open(held) + {q};
  }

  lemma {:induction false} OpenRemove(held: map<QueryId, Result>, after: map<QueryId, Result>, q: QueryId)
    requires q in Open(held) && q !in Open(after)
    requires forall x :: x != q ==> (x in held <==> x in after) && (x in held ==> held[x] == after[x])
    ensures |Open(after)| == |Open(held)| - 1
  {
    assert Open(held) == Open(after) + {q};
  }

  // ---------- Steps ----------

  /** A request that waits has no result out. */
  lemma {:induction false} RequestIsClosed(s: State, e: ExecId, w: map<QueryId, Place>)
    requires Fits(s) && Placed(s, w) && Can(s, StartTask(e))
    ensures var task := s.execs[e].back[s.execs[e].next]; task.Request? ==> task.q !in Open(s.held)
  {
    var task := s.execs[e].back[s.execs[e].next];
    if task.Request? && task.q in Open(s.held) {
      assert ResultFits(s.home, s.queries, task.q, s.held[task.q]) && TaskFits(s.home, s.queries, e, task);
      assert IsAt(s, task.q, WithHandler) && IsAt(s, task.q, InBack(e, s.execs[e].next));
      assert false;
    }
  }

  lemma {:induction false} StartLeft(s: State, e: ExecId, w: map<QueryId, Place>)
    requires Fits(s) && Placed(s, w) && Can(s, StartTask(e))
    ensures Left(Next(s, StartTask(e))) + Takes(s, StartTask(e)) == Left(s)
  {
    var task := s.execs[e].back[s.execs[e].next];
    AdvanceLeft(s, e, Start);
    RequestIsClosed(s, e, w);
    if task.Request? {
      OpenAdd(s.held, task.q, HandlerResult(task));
    }
  }

  lemma {:induction false} ReplyLeft(s: State, q: QueryId, v: int, at: ExecId)
    requires Fits(s) && Can(s, ReplyTo(q, v, at)) && Closing(s, ReplyTo(q, v, at))
    ensures Left(Next(s, ReplyTo(q, v, at))) == Left(s)
  {
    var r := s.held[q];
    assert ResultFits(s.home, s.queries, q, r);
    var (r', effect) := Reply(r, s.lives, v);
    var held := s.held[q := r'];
    if r.executor.Some? {
      var response := Response(r.callback, v, r.weak);
      var e := r.executor.value;
      AdvanceLeft(s.(held := held), e, Append(response));
      OpenRemove(s.held, held, q);
    } else {
      assert Open(held) == Open(s.held);
    }
  }

  lemma {:induction false} DiscardLeft(s: State, q: QueryId)
    requires Fits(s) && Can(s, Discard(q))
    ensures Left(Next(s, Discard(q))) + Takes(s, Discard(q)) == Left(s)
  {
    if q in Open(s.held) {
      OpenRemove(s.held, s.held - {q}, q);
    } else {
      assert Open(s.held - {q}) == Open(s.held);
    }
  }

  lemma {:induction false} SendLeft(s: State, x: Query, at: ExecId)
    requires Fits(s) && Can(s, Send(x, at)) && x.direct
    ensures Left(Next(s, Send(x, at))) == Left(s)
  {
    var q: QueryId := |s.queries|;
    assert q !in s.held;
    assert Open(Next(s, Send(x, at)).held) == Open(s.held);
  }

  lemma {:induction false} OtherLeft(s: State, a: Action)
    requires Fits(s) && Can(s, a) && !a.Send? && !a.StartTask? && !a.ReplyTo? && !a.Discard?
    ensures Left(Next(s, a)) == Left(s)
  {
    match a
    case Post(e, tag) => AdvanceLeft(s, e, Append(Foreign(tag)));
    case SwapIn(e) => AdvanceLeft(s, e, Swap);
    case EndTask(e) => AdvanceLeft(s, e, End);
    case FinishRun(e) => AdvanceLeft(s, e, Finish);
    case Life(_) =>
  }

  lemma {:induction false} NextLeft(s: State, a: Action, w: map<QueryId, Place>)
    requires Fits(s) && Placed(s, w) && Can(s, a) && Closing(s, a)
    ensures Left(Next(s, a)) + Takes(s, a) == Left(s)
  {
    match a
    case Send(x, at) => SendLeft(s, x, at);
    case StartTask(e) => StartLeft(s, e, w);
    case ReplyTo(q, v, at) => ReplyLeft(s, q, v, at);
    case Discard(q) => DiscardLeft(s, q);
    case _ => OtherLeft(s, a);
  }

  /** How many steps between n and m started a request or a response, or discarded a result. */
  ghost function Taken(trace: seq<State>, acts: seq<Action>, n: nat, m: nat): nat
    requires IsRun(trace, acts) && n <= m <= |acts|
  {
    if n == m then 0 else Taken(trace, acts, n, m - 1) + Takes(trace[m - 1], acts[m - 1])
  }

  /** From any reachable state on, under any interleaving of all threads, as long as nothing more is sent
      through the queues: what has been started or discarded and what is left add up to what was left. So no
      schedule can start more than that, and there is always an end. */
  lemma {:induction false} EveryStartTakesOne(trace: seq<State>, acts: seq<Action>, n: nat, m: nat)
    requires IsRun(trace, acts) && n <= m <= |acts|
    requires forall i :: n <= i < m ==> Closing(trace[i], acts[i])
    ensures Left(trace[m]) + Taken(trace, acts, n, m) == Left(trace[n])
    decreases m
  {
    if n < m {
      EveryStartTakesOne(trace, acts, n, m - 1);
      assert IsRun(trace[..m], acts[..m - 1]);
      var w := RunPlaced(trace[..m], acts[..m - 1]);
      NextLeft(trace[m - 1], acts[m - 1], w);
    }
  }

  lemma {:induction false} WeightZero(items: Items)
    ensures Draining.Weight(items, 0) == 0 <==> OnlyForeign(items)
  {
    if items != [] {
      WeightZero(items[1..]);
      assert forall i :: 0 < i < |items| ==> items[i] == items[1..][i - 1];
    }
  }

  lemma {:induction false} MeasureZero(queues: Draining.Queues)
    ensures Draining.Measure(queues, 0) == 0 <==> forall e :: 0 <= e < |queues| ==> Draining.Weight(queues[e], 0) == 0
  {
    if queues != [] {
      MeasureZero(queues[1..]);
      assert forall e :: 0 < e < |queues| ==> queues[e] == queues[1..][e - 1];
    }
  }

  /** No request or response among the items. */
  ghost predicate OnlyForeign(items: Items) {
    forall i :: 0 <= i < |items| ==> items[i].Foreign?
  }

  /** Nothing is left exactly when no query is on its way: none waits and none is with its handler. */
  lemma {:induction false} NothingLeft(trace: seq<State>, acts: seq<Action>)
    requires IsRun(trace, acts)
    ensures var s := trace[|acts|];
      Left(s) == 0 <==> Open(s.held) == {} && forall e :: 0 <= e < |s.execs| ==> OnlyForeign(Waiting(s.execs[e]))
  {
    NothingWaits(trace[|acts|]);
  }

  lemma {:induction false} NothingWaits(s: State)
    ensures Left(s) == 0 <==> Open(s.held) == {} && forall e :: 0 <= e < |s.execs| ==> OnlyForeign(Waiting(s.execs[e]))
  {
    var queues := AllWaiting(s.execs);
    MeasureZero(queues);
    forall e | 0 <= e < |queues| ensures Draining.Weight(queues[e], 0) == 0 <==> OnlyForeign(Waiting(s.execs[e])) {
      WeightZero(queues[e]);
    }
  }

  // ---------- Rounds ----------

  /** Between n and m the executor e takes in what waits and comes to the end of it. */
  ghost predicate Turn(acts: seq<Action>, n: nat, m: nat, e: ExecId) {
    exists i, j :: n <= i < j < m <= |acts| && acts[i] == SwapIn(e) && acts[j] == FinishRun(e)
  }

  /** Each of the executors has its turn; turns may overlap in any way. */
  ghost predicate Round(acts: seq<Action>, n: nat, m: nat, execs: nat) {
    forall e: nat :: e < execs ==> Turn(acts, n, m, e)
  }

  type Sort = Task -> bool

  ghost predicate All(items: Items, sort: Sort) {
    forall i :: 0 <= i < |items| ==> sort(items[i])
  }

  /** Whatever the step puts into a queue is of the sort. */
  predicate Adds(s: State, a: Action, sort: Sort)
    requires Can(s, a)
  {
    match a
    case Send(x, _) => x.direct || sort(Request(|s.queries|, x.arg, s.home[x.sender], x.weak))
    case Post(_, tag) => sort(Foreign(tag))
    case ReplyTo(q, v, _) => (match Reply(s.held[q], s.lives, v).1 case Enqueued(_, t) => sort(t) case _ => true)
    case _ => true
  }

  lemma {:induction false} StepWork(s: State, a: Action, e: ExecId, sort: Sort)
    requires Can(s, a) && Adds(s, a, sort) && e < |s.execs| && s.execs[e].Valid()
    ensures |Next(s, a).execs| == |s.execs|
    ensures All(s.execs[e].work, sort) || a == SwapIn(e) ==> All(Next(s, a).execs[e].work, sort)
  {
  }

  lemma {:induction false} StepBack(s: State, a: Action, e: ExecId, sort: Sort)
    requires Can(s, a) && e < |s.execs| && All(s.execs[e].work, sort)
    ensures |Next(s, a).execs| == |s.execs|
    ensures All(s.execs[e].back, sort) || a == FinishRun(e) ==> All(Next(s, a).execs[e].back, sort)
  {
  }

  lemma {:induction false} SameExecutors(trace: seq<State>, acts: seq<Action>, n: nat, m: nat)
    requires IsRun(trace, acts) && n <= m <= |acts|
    ensures |trace[m].execs| == |trace[n].execs|
    decreases m - n
  {
    if n < m {
      QueriesGrow(trace[n], acts[n]);
      SameExecutors(trace, acts, n + 1, m);
    }
  }

  lemma {:induction false} WorkStays(trace: seq<State>, acts: seq<Action>, n: nat, m: nat, e: ExecId, sort: Sort)
    requires IsRun(trace, acts) && n <= m <= |acts| && e < |trace[n].execs| && All(trace[n].execs[e].work, sort)
    requires forall k :: n <= k < m ==> Adds(trace[k], acts[k], sort)
    ensures e < |trace[m].execs| && All(trace[m].execs[e].work, sort)
    decreases m - n
  {
    if n < m {
      FitsAt(trace, acts, n);
      StepWork(trace[n], acts[n], e, sort);
      WorkStays(trace, acts, n + 1, m, e, sort);
    }
  }

  lemma {:induction false} BackStays(trace: seq<State>, acts: seq<Action>, n: nat, m: nat, e: ExecId, sort: Sort)
    requires IsRun(trace, acts) && n <= m <= |acts| && e < |trace[n].execs|
    requires All(trace[n].execs[e].work, sort) && All(trace[n].execs[e].back, sort)
    requires forall k :: n <= k < m ==> Adds(trace[k], acts[k], sort)
    ensures e < |trace[m].execs| && All(trace[m].execs[e].back, sort)
    decreases m - n
  {
    if n < m {
      FitsAt(trace, acts, n);
      StepWork(trace[n], acts[n], e, sort);
      StepBack(trace[n], acts[n], e, sort);
      BackStays(trace, acts, n + 1, m, e, sort);
    }
  }

  /** A turn leaves in the queue only what was added since it began. */
  lemma {:induction false} TurnClears(trace: seq<State>, acts: seq<Action>, n: nat, m: nat, e: ExecId, sort: Sort)
    requires IsRun(trace, acts) && n <= m <= |acts| && Turn(acts, n, m, e) && e < |trace[n].execs|
    requires forall k :: n <= k < m ==> Adds(trace[k], acts[k], sort)
    ensures e < |trace[m].execs| && All(trace[m].execs[e].work, sort) && All(trace[m].execs[e].back, sort)
  {
    var i, j :| n <= i < j < m <= |acts| && acts[i] == SwapIn(e) && acts[j] == FinishRun(e);
    SameExecutors(trace, acts, n, i);
    FitsAt(trace, acts, i);
    StepWork(trace[i], acts[i], e, sort);
    WorkStays(trace, acts, i + 1, j, e, sort);
    FitsAt(trace, acts, j);
    StepWork(trace[j], acts[j], e, sort);
    StepBack(trace[j], acts[j], e, sort);
    WorkStays(trace, acts, j + 1, m, e, sort);
    BackStays(trace, acts, j + 1, m, e, sort);
  }

  /** All that is in any queue, waiting or taken in, is of the sort. */
  ghost predicate Holds(s: State, sort: Sort) {
    forall e :: 0 <= e < |s.execs| ==> All(s.execs[e].work, sort) && All(s.execs[e].back, sort)
  }

  /** After a round the queues hold only what was added in it. */
  lemma {:induction false} RoundClears(trace: seq<State>, acts: seq<Action>, n: nat, m: nat, sort: Sort)
    requires IsRun(trace, acts) && n <= m <= |acts| && Round(acts, n, m, |trace[n].execs|)
    requires forall k :: n <= k < m ==> Adds(trace[k], acts[k], sort)
    ensures Holds(trace[m], sort)
  {
    SameExecutors(trace, acts, n, m);
    forall e: nat | e < |trace[m].execs|
      ensures All(trace[m].execs[e].work, sort) && All(trace[m].execs[e].back, sort)
    {
      assert Turn(acts, n, m, e);
      TurnClears(trace, acts, n, m, e, sort);
    }
  }

  function NoRequest(): Sort { (t: Task) => !t.Request? }

  function NoQuery(): Sort { (t: Task) => t.Foreign? }

  /** While nothing is sent through the queues, a round answers every request. */
  lemma {:induction false} RoundAnswers(trace: seq<State>, acts: seq<Action>, n: nat, m: nat)
    requires IsRun(trace, acts) && n <= m <= |acts| && Round(acts, n, m, |trace[n].execs|)
    requires forall k :: n <= k < m ==> Closing(trace[k], acts[k])
    ensures Holds(trace[m], NoRequest())
  {
    RoundClears(trace, acts, n, m, NoRequest());
  }

  /** No request is anywhere and no result is unused: nothing more will be answered. */
  ghost predicate Answered(s: State) {
    Holds(s, NoRequest()) && Open(s.held) == {}
  }

  lemma {:induction false} StaysAnswered(s: State, a: Action)
    requires Fits(s) && Can(s, a) && Closing(s, a) && Answered(s)
    ensures Adds(s, a, NoQuery()) && Answered(Next(s, a))
  {
    forall e | 0 <= e < |s.execs|
      ensures All(Next(s, a).execs[e].work, NoRequest()) && All(Next(s, a).execs[e].back, NoRequest())
    {
      StepWork(s, a, e, NoRequest());
      StepBack(s, a, e, NoRequest());
    }
    match a
    case ReplyTo(q, _, _) => assert q !in Open(s.held);
    case StartTask(e) => assert NoRequest()(s.execs[e].back[s.execs[e].next]);
    case _ =>
  }

  lemma {:induction false} RunStaysAnswered(trace: seq<State>, acts: seq<Action>, m: nat, k: nat)
    requires IsRun(trace, acts) && m <= k <= |acts| && Answered(trace[m])
    requires forall i :: m <= i < k ==> Closing(trace[i], acts[i])
    ensures Answered(trace[k])
    ensures forall i :: m <= i < k ==> Adds(trace[i], acts[i], NoQuery())
    decreases k
  {
    if m < k {
      RunStaysAnswered(trace, acts, m, k - 1);
      FitsAt(trace, acts, k - 1);
      StaysAnswered(trace[k - 1], acts[k - 1]);
    }
  }

  /** A second round, begun when every result has been used, leaves nothing. */
  lemma {:induction false} SecondRoundEnds(trace: seq<State>, acts: seq<Action>, m: nat, k: nat)
    requires IsRun(trace, acts) && m <= k <= |acts| && Answered(trace[m])
    requires Round(acts, m, k, |trace[m].execs|) && forall i :: m <= i < k ==> Closing(trace[i], acts[i])
    ensures Left(trace[k]) == 0
  {
    RunStaysAnswered(trace, acts, m, k);
    RoundClears(trace, acts, m, k, NoQuery());
    forall e | 0 <= e < |trace[k].execs| ensures OnlyForeign(Waiting(trace[k].execs[e])) {
      assert All(trace[k].execs[e].work, NoQuery()) && All(trace[k].execs[e].back, NoQuery());
    }
    NothingWaits(trace[k]);
  }

  /** Every result not used yet is with a handler that is running. */
  ghost predicate OpenRun(s: State) {
    forall q :: q in Open(s.held) ==> exists e :: IsRunning(s, e, q)
  }

  lemma {:induction false} StepOpenRun(s: State, a: Action, lane: Lane)
    requires Fits(s) && Can(s, a) && OpenRun(s) && Answers(s, a, lane)
    requires forall q: nat :: q < |s.queries| ==> q in lane
    ensures OpenRun(Next(s, a))
  {
    var t := Next(s, a);
    forall q | q in Open(t.held) ensures exists e :: IsRunning(t, e, q) {
      if q in Open(s.held) {
        assert ResultFits(s.home, s.queries, q, s.held[q]);
        var e :| IsRunning(s, e, q);
        assert IsAt(s, q, WithHandler);
        RunningStays(s, a, e, q);
      } else if a.StartTask? {
        StartedRuns(s, a.e);
      }
    }
  }

  lemma {:induction false} NoneRunning(s: State)
    requires Holds(s, NoRequest())
    ensures forall e, q :: !IsRunning(s, e, q)
  {
    forall e: ExecId, q: QueryId | e < |s.execs| && 0 < s.execs[e].next <= |s.execs[e].back|
      ensures !IsRunning(s, e, q)
    {
      assert NoRequest()(s.execs[e].back[s.execs[e].next - 1]);
    }
  }

  lemma {:induction false} RunOpenRun(trace: seq<State>, acts: seq<Action>, lane: Lane)
    requires IsRun(trace, acts) && forall i :: 0 <= i < |acts| ==> Answers(trace[i], acts[i], lane)
    requires forall q: nat :: q < |trace[|acts|].queries| ==> q in lane
    ensures OpenRun(trace[|acts|])
    decreases |acts|
  {
    if acts != [] {
      var n := |acts| - 1;
      RunFits(trace[..n + 1], acts[..n]);
      QueriesGrow(trace[n], acts[n]);
      RunOpenRun(trace[..n + 1], acts[..n], lane);
      StepOpenRun(trace[n], acts[n], lane);
    }
  }

  /** From any reachable state on, if handlers reply before they return, results are used at most once and
      nothing more is sent through the queues: two rounds in which every executor has its turn, under any
      interleaving of all threads, leave no request, no response and no unused result. */
  lemma {:induction false} TwoRoundsLeaveNothing(trace: seq<State>, acts: seq<Action>, lane: Lane, n: nat,
          m: nat, k: nat)
    requires IsRun(trace, acts) && n <= m <= k <= |acts|
    requires forall i :: 0 <= i < m ==> Answers(trace[i], acts[i], lane)
    requires forall q: nat :: q < |trace[m].queries| ==> q in lane
    requires forall i :: n <= i < k ==> Closing(trace[i], acts[i])
    requires Round(acts, n, m, |trace[n].execs|) && Round(acts, m, k, |trace[n].execs|)
    ensures Left(trace[k]) == 0
  {
    RoundAnswers(trace, acts, n, m);
    assert IsRun(trace[..m + 1], acts[..m]);
    RunOpenRun(trace[..m + 1], acts[..m], lane);
    SameExecutors(trace, acts, n, m);
    NoneRunning(trace[m]);
    SecondRoundEnds(trace, acts, m, k);
  }
}
