/**
 * The pieces an asynchronous query is passed around in (async_query.h, callback.h): the request and
 * response tasks, and the `callback_result` through which a handler replies.
 */
module CallbackResults {
  import opened Common
  import opened Lifetimes
  import opened Executor

  /** Queries are numbered in the order they are sent; a callback is known by its query. */
  type QueryId = nat

  /** `callback` is `None` where the function object was moved from. `Foreign` is any other task. */
  datatype Task =
    | Request(q: QueryId, arg: int, replyTo: ExecId, weak: Weak)
    | Response(callback: Option<QueryId>, result: int, weak: Weak)
    | Foreign(tag: nat)

  /** A `callback_result`: without an executor the callback is run directly by whoever replies. */
  datatype Result = Result(executor: Option<ExecId>, weak: Weak, callback: Option<QueryId>)

  datatype Effect =
    | Enqueued(on: ExecId, task: Task)
    | Invoked(callback: Option<QueryId>, value: int)
    | Suppressed

  function Reply(r: Result, lives: Store, v: int): (Result, Effect) {
    match r.executor
    case Some(e) => (r.(weak := Null, callback := None), Enqueued(e, Response(r.callback, v, r.weak)))
    case None => (r, if Expired(lives, r.weak) then Suppressed else Invoked(r.callback, v))
  }

  function RunResponse(callback: Option<QueryId>, v: int, weak: Weak, lives: Store): Effect {
    if Expired(lives, weak) then Suppressed else Invoked(callback, v)
  }

  /** What sending does: hand the handler a result at once, or queue a request for it. */
  datatype Sent = ToHandler(result: Result) | ToQueue(on: ExecId, task: Task)

  function Send(q: QueryId, arg: int, weak: Weak, sameExecutor: bool, receiverExecutor: ExecId,
          senderExecutor: ExecId): Sent {
    if sameExecutor then ToHandler(Result(None, weak, Some(q)))
    else ToQueue(receiverExecutor, Request(q, arg, senderExecutor, weak))
  }

  function HandlerResult(request: Task): Result
    requires request.Request?
  {
    Result(Some(request.replyTo), request.weak, Some(request.q))
  }

  /** Replies through one result, one after the other, with lifetimes as they are. */
  function ReplyAll(r: Result, lives: Store, vs: seq<int>): seq<Effect>
    decreases |vs|
  {
    if vs == [] then []
    else var (r', effect) := Reply(r, lives, vs[0]); [effect] + ReplyAll(r', lives, vs[1..])
  }

  /** What becomes of an effect once its executor has run: the callback it invokes, if any. */
  function Outcome(e: Effect, lives: Store): Option<int> {
    match e
    case Enqueued(_, Response(cb, v, w)) =>
      (match RunResponse(cb, v, w, lives) case Invoked(_, x) => Some(x) case _ => None)
    case Invoked(_, v) => Some(v)
    case _ => None
  }

  function CallbackRuns(es: seq<Effect>, lives: Store): seq<int> {
    if es == [] then []
    else (match Outcome(es[0], lives) case Some(v) => [v] case None => []) + CallbackRuns(es[1..], lives)
  }

  lemma {:induction false} SpentResultIsSilent(r: Result, lives: Store, vs: seq<int>)
    requires r.executor.Some? && r.weak.Null? && r.callback.None?
    ensures CallbackRuns(ReplyAll(r, lives, vs), lives) == []
  {
    if vs != [] {
      var (r', e) := Reply(r, lives, vs[0]);
      assert r' == r;
      SpentResultIsSilent(r, lives, vs[1..]);
      assert ReplyAll(r, lives, vs)[1..] == ReplyAll(r, lives, vs[1..]);
    }
  }

  /** A handler that replies several times through one result: on the queued path only the first reply
      reaches the callback, on the direct path every one does. */
  lemma {:induction false} RepeatedReplies(q: QueryId, arg: int, weak: Weak, lives: Store, receiver: ExecId,
          sender: ExecId, vs: seq<int>)
    requires !Expired(lives, weak)
    ensures var direct := Send(q, arg, weak, true, sender, sender).result;
            CallbackRuns(ReplyAll(direct, lives, vs), lives) == vs
    ensures var queued := HandlerResult(Send(q, arg, weak, false, receiver, sender).task);
            CallbackRuns(ReplyAll(queued, lives, vs), lives) == if vs == [] then [] else vs[..1]
  {
    if vs != [] {
      var direct := Result(None, weak, Some(q));
      var queued := Result(Some(sender), weak, Some(q));
      RepeatedReplies(q, arg, weak, lives, receiver, sender, vs[1..]);
      assert ReplyAll(direct, lives, vs)[1..] == ReplyAll(direct, lives, vs[1..]);
      assert vs == [vs[0]] + vs[1..];
      var spent := Reply(queued, lives, vs[0]).0;
      SpentResultIsSilent(spent, lives, vs[1..]);
      assert ReplyAll(queued, lives, vs)[1..] == ReplyAll(spent, lives, vs[1..]);
    }
  }

  /** With an expired lifetime no reply reaches the callback, on either path. */
  lemma {:induction false} ExpiredIsSilent(r: Result, lives: Store, vs: seq<int>)
    requires Expired(lives, r.weak)
    ensures CallbackRuns(ReplyAll(r, lives, vs), lives) == []
    decreases |vs|
  {
    if vs != [] {
      var (r', e) := Reply(r, lives, vs[0]);
      ExpiredIsSilent(r', lives, vs[1..]);
      assert ReplyAll(r, lives, vs)[1..] == ReplyAll(r', lives, vs[1..]);
    }
  }

  /** The direct and the queued path therefore run the callback equally often exactly when the handler
      replies at most once, or the lifetime has expired. */
  lemma {:induction false} PathsAgreeOnReplies(q: QueryId, arg: int, weak: Weak, lives: Store, receiver: ExecId,
          sender: ExecId, vs: seq<int>)
    ensures CallbackRuns(ReplyAll(Send(q, arg, weak, true, sender, sender).result, lives, vs), lives)
         == CallbackRuns(ReplyAll(HandlerResult(Send(q, arg, weak, false, receiver, sender).task), lives, vs), lives)
         <==> |vs| <= 1 || Expired(lives, weak)
  {
    if Expired(lives, weak) {
      ExpiredIsSilent(Send(q, arg, weak, true, sender, sender).result, lives, vs);
      ExpiredIsSilent(HandlerResult(Send(q, arg, weak, false, receiver, sender).task), lives, vs);
    } else {
      RepeatedReplies(q, arg, weak, lives, receiver, sender, vs);
    }
  }

  /** No reply through the result, however many are tried, would run a callback now. */
  ghost predicate Silent(r: Result, lives: Store) {
    forall vs :: CallbackRuns(ReplyAll(r, lives, vs), lives) == []
  }

  /** Being canceled means exactly that. */
  lemma {:induction false} CanceledIsSilent(r: Result, lives: Store)
    ensures Expired(lives, r.weak) <==> Silent(r, lives)
  {
    if Expired(lives, r.weak) {
      forall vs ensures CallbackRuns(ReplyAll(r, lives, vs), lives) == [] {
        ExpiredIsSilent(r, lives, vs);
      }
    } else {
      var e := Reply(r, lives, 0).1;
      assert ReplyAll(r, lives, [0])[0] == e && Outcome(e, lives) == Some(0);
      assert CallbackRuns(ReplyAll(r, lives, [0]), lives) != [];
    }
  }

  /** And once canceled, it stays so: whatever happens to any lifetime, no later reply runs the callback. */
  lemma {:induction false} CanceledIsFinal(r: Result, lives: Store, ops: seq<Op>)
    requires Valid(lives) && Issued(lives, r.weak) && Silent(r, lives)
    ensures DoAll(lives, ops).Ran? ==> Silent(r, DoAll(lives, ops).store)
  {
    CanceledIsSilent(r, lives);
    ExpiryIsPermanent(lives, ops, r.weak);
    if DoAll(lives, ops).Ran? {
      CanceledIsSilent(r, DoAll(lives, ops).store);
    }
  }

  ghost predicate Pool(executors: seq<WorkQueue<Task>>) {
    forall i, j :: 0 <= i < j < |executors| ==> executors[i] != executors[j]
  }

  /** The object a handler is given; replying moves its callback and lifetime pointer out. */
  class CallbackResult {
    var receivingExecutor: Option<ExecId>
    var lifetimePtr: Weak
    var callback: Option<QueryId>

    function State(): Result
      reads this
    {
      Result(receivingExecutor, lifetimePtr, callback)
    }

    constructor (r: Result)
      ensures State() == r
    {
      receivingExecutor, lifetimePtr, callback := r.executor, r.weak, r.callback;
    }

    method Invoke(v: int, lives: LifetimeTable, executors: seq<WorkQueue<Task>>) returns (effect: Effect)
      requires Pool(executors)
      requires receivingExecutor.Some? ==> receivingExecutor.value < |executors|
      modifies this, executors
      ensures (State(), effect) == Reply(old(State()), lives.State(), v)
      ensures effect.Enqueued? ==>
        executors[effect.on].workItems == old(executors[effect.on].workItems) + [effect.task]
      ensures forall i :: 0 <= i < |executors| && !(effect.Enqueued? && effect.on == i) ==>
        executors[i].workItems == old(executors[i].workItems)
    {
      match receivingExecutor {
        case Some(e) =>
          var response := Response(callback, v, lifetimePtr);
          callback, lifetimePtr := None, Null;
          executors[e].EnqueueWork(response);
          effect := Enqueued(e, response);
        case None =>
          if Expired(lives.State(), lifetimePtr) {
            effect := Suppressed;
          } else {
            effect := Invoked(callback, v);
          }
      }
    }

    method Canceled(lives: LifetimeTable) returns (c: bool)
      ensures c <==> Silent(State(), lives.State())
    {
      CanceledIsSilent(State(), lives.State());
      c := Expired(lives.State(), lifetimePtr);
    }
  }

  /** The sending side, with what its reference resolved to. */
  class AsyncQuery {
    const sameExecutor: bool
    const receiverExecutor: ExecId
    const senderExecutor: ExecId

    constructor (sameExecutor: bool, receiverExecutor: ExecId, senderExecutor: ExecId)
      ensures this.sameExecutor == sameExecutor
      ensures this.receiverExecutor == receiverExecutor && this.senderExecutor == senderExecutor
    {
      this.sameExecutor := sameExecutor;
      this.receiverExecutor := receiverExecutor;
      this.senderExecutor := senderExecutor;
    }

    /** On the shared executor the handler is entered at once with `result`; otherwise nothing runs and
        the request joins the end of the receiver's queue. */
    method Execute(q: QueryId, arg: int, weak: Weak, executors: seq<WorkQueue<Task>>) returns (result: CallbackResult?)
      requires Pool(executors) && receiverExecutor < |executors|
      modifies executors
      ensures var sent := Send(q, arg, weak, sameExecutor, receiverExecutor, senderExecutor);
        && (sent.ToHandler? <==> result != null)
        && (sent.ToHandler? ==>
              fresh(result) && result.State() == sent.result
              && (forall i :: 0 <= i < |executors| ==> executors[i].workItems == old(executors[i].workItems)))
        && (sent.ToQueue? ==>
              executors[sent.on].workItems == old(executors[sent.on].workItems) + [sent.task]
              && (forall i :: 0 <= i < |executors| && i != sent.on ==>
                    executors[i].workItems == old(executors[i].workItems)))
    {
      if sameExecutor {
        result := new CallbackResult(Result(None, weak, Some(q)));
      } else {
        result := null;
        executors[receiverExecutor].EnqueueWork(Request(q, arg, senderExecutor, weak));
      }
    }
  }
}
