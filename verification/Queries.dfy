/**
 * Where a query goes: the lookup of its reference and the choice of the direct or the queued path, together
 * (async_query.h, sync_query.h), and the same for the queries of an interface (if_async_query.h, if_sync_query.h).
 */
module Queries {
  import opened Common
  import Brokers
  import opened References
  import Runs = Coherence
  import Staleness
  import Publishing
  import Components
  import Results = CallbackResults
  import Lifetimes
  import Executor

  /** The source aborts when the lookup finds no handler. */
  datatype Outcome = Aborted | Sent(h: HandlerId, sent: Results.Sent)

  /** Sending through a reference whose lookup gives h and leaves it as r. */
  function SendThrough(r: Mono, h: Option<HandlerId>, q: Results.QueryId, arg: int, weak: Lifetimes.Weak): Outcome {
    if r.receiver.None? || h.None? || r.executor.None? then Aborted
    else Sent(h.value, Results.Send(q, arg, weak, r.sameExecutor, r.executor.value, r.owner))
  }

  /** Sending to the one living receiver there is, if there is. */
  function SendTo(x: Option<Resolved>, owner: ExecId, q: Results.QueryId, arg: int, weak: Lifetimes.Weak): Outcome {
    match x
    case None => Aborted
    case Some(y) => Sent(y.handler, Results.Send(q, arg, weak, y.executor == owner, y.executor, owner))
  }

  /** A query sent through reference k now goes where it ought to: to the handler of the one living component
      that its message is associated with, directly if that handler's executor is the sender's own, and
      otherwise into that executor's queue; or it aborts if there is no such component. */
  ghost predicate WellSent(w: Runs.World, k: nat, q: Results.QueryId, arg: int, weak: Lifetimes.Weak)
    requires Brokers.Valid(w.b) && k in w.monos
  {
    var r := w.monos[k];
    var (_, r', h) := LookUp(w.b, w.t, r);
    SendThrough(r', h, q, arg, weak) == SendTo(Resolve(w.b, w.t, r.kind, r.m, r.owner), r.owner, q, arg, weak)
  }

  /** After any run queries are well sent exactly unless the reference is tainted and still holds a receiver. */
  lemma {:induction false} QueriesReachTheirReceiver(trace: seq<Runs.World>, acts: seq<Runs.Action>, k: nat,
                                  q: Results.QueryId, arg: int, weak: Lifetimes.Weak)
    requires Runs.IsRun(trace, acts) && k in trace[|acts|].monos
    ensures var w := trace[|acts|];
      && Brokers.Valid(w.b)
      && (WellSent(w, k, q, arg, weak) <==> !(Runs.Tainted(trace, acts, k) && w.monos[k].receiver.Some?))
  {
    Runs.RunJudged(trace, acts, k);
    Staleness.RunHasExecutor(trace, acts, k);
    var w := trace[|acts|];
    if Runs.Tainted(trace, acts, k) {
      TaintedSends(w, k, q, arg, weak);
    } else {
      Runs.MonoLookupsAreFresh(trace, acts, k);
      FreshSends(w, k, q, arg, weak);
    }
  }

  lemma {:induction false} TaintedSends(w: Runs.World, k: nat, q: Results.QueryId, arg: int, weak: Lifetimes.Weak)
    requires Brokers.Valid(w.b) && k in w.monos && w.monos[k].executor.Some? && Cached(w.b, w.monos[k])
    requires Resolve(w.b, w.t, w.monos[k].kind, w.monos[k].m, w.monos[k].owner).None?
    ensures WellSent(w, k, q, arg, weak) <==> w.monos[k].receiver.None?
  {
  }

  lemma {:induction false} FreshSends(w: Runs.World, k: nat, q: Results.QueryId, arg: int, weak: Lifetimes.Weak)
    requires Brokers.Valid(w.b) && k in w.monos
    requires var r := w.monos[k];
      var (_, r', h) := LookUp(w.b, w.t, r);
      var x := Resolve(w.b, w.t, r.kind, r.m, r.owner);
      h == Runs.HandlerIn(x) && (x.Some? ==> Leaves(r', x.value))
    ensures WellSent(w, k, q, arg, weak)
  {
    var r := w.monos[k];
    LookUpKeepsOwner(w.b, w.t, r);
    if Resolve(w.b, w.t, r.kind, r.m, r.owner).Some? {
      SameFlag(w.b, w.t, r);
    }
  }

  lemma {:induction false} LookUpKeepsOwner(b: Brokers.State, t: Tables, r: Mono)
    requires Brokers.Valid(b)
    ensures LookUp(b, t, r).1.owner == r.owner
  {
  }

  lemma {:induction false} SameFlag(b: Brokers.State, t: Tables, r: Mono)
    requires Brokers.Valid(b) && Resolve(b, t, r.kind, r.m, r.owner).Some?
    ensures var x := Resolve(b, t, r.kind, r.m, r.owner).value; x.sameExecutor == (x.executor == r.owner)
  {
  }

  /** In terms of what has been published: where c is to answer, a query goes to the handler that c has given last.
      For the owner's own executor, that handler is given a result at once, which runs the callback; for another,
      that executor is given a request, to be answered to the owner's. Where nobody is to answer it aborts. */
  lemma {:induction false} QueriesGoWherePublished(trace: seq<Runs.World>, acts: seq<Runs.Action>, k: nat, c: CompId,
                                  q: Results.QueryId, arg: int, weak: Lifetimes.Weak)
    requires Runs.IsRun(trace, acts) && k in trace[|acts|].monos && !Runs.Tainted(trace, acts, k)
    ensures var w, n := trace[|acts|], |acts|;
      && Brokers.Valid(w.b)
      && var r := w.monos[k];
      && var (_, r', h) := LookUp(w.b, w.t, r);
      && var outcome := SendThrough(r', h, q, arg, weak);
      && (outcome.Aborted? <==> h.None?)
      && (Publishing.Answers(acts, r.kind, r.m, c) ==>
            var e := (match Publishing.OverrideGiven(acts, n, c, r.m)
                      case Some(given) => given
                      case None => trace[0].t.home(c));
            && outcome.Sent? && Publishing.HandlerGiven(acts, n, r.kind, c, r.m) == Some(outcome.h)
            && outcome.sent == if e == r.owner then Results.ToHandler(Results.Result(None, weak, Some(q)))
                               else Results.ToQueue(e, Results.Request(q, arg, r.owner, weak)))
  {
    Publishing.MonoFinds(trace, acts, k, c);
    Staleness.RunHasExecutor(trace, acts, k);
    LookUpHasExecutor(trace[|acts|].b, trace[|acts|].t, trace[|acts|].monos[k]);
    LookUpKeepsOwner(trace[|acts|].b, trace[|acts|].t, trace[|acts|].monos[k]);
  }

  lemma {:induction false} LookUpHasExecutor(b: Brokers.State, t: Tables, r: Mono)
    requires Brokers.Valid(b) && (r.handler.Some? ==> r.executor.Some?)
    ensures LookUp(b, t, r).2.Some? ==> LookUp(b, t, r).1.executor.Some?
  {
  }

  // ---------- Whether direct calls are allowed ----------

  /** The flag that forbids direct calls is not read on this path: a query through a reference that is not
      tainted is sent as the receiver allows if and only if its executor is another or direct calls are allowed. */
  lemma {:induction false} SentAsAllowed(trace: seq<Runs.World>, acts: seq<Runs.Action>, k: nat, q: Results.QueryId,
          arg: int, weak: Lifetimes.Weak)
    requires Runs.IsRun(trace, acts) && k in trace[|acts|].monos && !Runs.Tainted(trace, acts, k)
    ensures var w := trace[|acts|];
      && Brokers.Valid(w.b)
      && var r := w.monos[k];
      && var (_, r', h) := LookUp(w.b, w.t, r);
      && var outcome := SendThrough(r', h, q, arg, weak);
      && (outcome.Sent? ==>
            && r'.receiver.Some? && r'.executor.Some?
            && ((outcome.sent.ToHandler? ==> w.t.direct(r'.receiver.value))
                <==> r'.executor.value != r.owner || w.t.direct(r'.receiver.value)))
  {
    QueriesReachTheirReceiver(trace, acts, k, q, arg, weak);
    Runs.MonoLookupsAreFresh(trace, acts, k);
    LookUpKeepsOwner(trace[|acts|].b, trace[|acts|].t, trace[|acts|].monos[k]);
  }

  /** A component that forbids direct calls is called directly: it has published on the executor of the
      reference's owner. */
  lemma {:induction false} SentDirectlyAllTheSame(q: Results.QueryId, arg: int, weak: Lifetimes.Weak)
    returns (trace: seq<Runs.World>, acts: seq<Runs.Action>)
    ensures Runs.IsRun(trace, acts) && 0 in trace[|acts|].monos && !Runs.Tainted(trace, acts, 0)
    ensures var w := trace[|acts|];
      && Brokers.Valid(w.b) && !w.t.direct(0)
      && var (_, r, h) := LookUp(w.b, w.t, w.monos[0]);
      && var outcome := SendThrough(r, h, q, arg, weak);
      && r.receiver == Some(0) && outcome.Sent? && outcome.sent.ToHandler?
  {
    trace, acts := Runs.ResolvedRun(_ => false);
    Runs.MonoLookupsAreFresh(trace, acts, 0);
    QueriesReachTheirReceiver(trace, acts, 0, q, arg, weak);
  }

  // ---------- Queries of interfaces ----------

  /** A call of a query of an interface: there is none, it runs at once, it runs under the component's lock, or
      it is sent. */
  datatype Call = NoQuery | Plain(c: CompId) | Locked(c: CompId) | Passed(c: CompId, sent: Results.Sent)

  /** Calling the i-th query through a proxy, if there is one. */
  function CallThrough(p: Option<Proxy>, owner: ExecId, i: nat, q: Results.QueryId, arg: int,
          weak: Lifetimes.Weak): Call
  {
    if p.None? || i >= |p.value.queries| then NoQuery
    else
      var x, c := p.value.queries[i], p.value.receiver;
      match x.kind
      case Sync => if x.callDirectly then Plain(c) else Locked(c)
      case Async => Passed(c, Results.Send(q, arg, weak, x.callDirectly, x.executor, owner))
  }

  /** Calling the i-th query of the interface that the one living component with the message has published, if
      there is one: on the executor that it was published for, and around its queue or lock where that is the
      owner's own and the component allows it. */
  function CallTo(b: Brokers.State, t: Tables, m: MsgId, owner: ExecId, i: nat, q: Results.QueryId, arg: int,
          weak: Lifetimes.Weak): Call
    requires Brokers.Valid(b)
  {
    var list := Brokers.ListOf(b, m);
    if |list| != 1 || list[0] !in t.alive || (list[0], m) !in t.interfaces then NoQuery
    else
      var c, queries := list[0], t.interfaces[(list[0], m)].queries;
      if i >= |queries| then NoQuery
      else
        match queries[i].kind
        case Sync => if queries[i].executor == owner then Plain(c) else Locked(c)
        case Async =>
          var around := queries[i].executor == owner && t.direct(c);
          Passed(c, Results.Send(q, arg, weak, around, queries[i].executor, owner))
  }

  ghost predicate WellCalled(w: Runs.World, k: nat, i: nat, q: Results.QueryId, arg: int, weak: Lifetimes.Weak)
    requires Brokers.Valid(w.b) && k in w.links
  {
    var r := w.links[k];
    CallThrough(LookUpInterface(w.b, w.t, r).2, r.owner, i, q, arg, weak)
      == CallTo(w.b, w.t, r.m, r.owner, i, q, arg, weak)
  }

  lemma {:induction false} CallThroughFresh(b: Brokers.State, t: Tables, m: MsgId, owner: ExecId, i: nat,
          q: Results.QueryId, arg: int, weak: Lifetimes.Weak)
    requires Brokers.Valid(b)
    ensures CallThrough(ResolveInterface(b, t, m, owner), owner, i, q, arg, weak)
         == CallTo(b, t, m, owner, i, q, arg, weak)
  {
  }

  lemma {:induction false} CallThroughStale(w: Runs.World, k: nat, i: nat, q: Results.QueryId, arg: int,
          weak: Lifetimes.Weak)
    requires Brokers.Valid(w.b) && k in w.links && Runs.CachedLink(w.b, w.links[k])
    requires ResolveInterface(w.b, w.t, w.links[k].m, w.links[k].owner).None?
    ensures WellCalled(w, k, i, q, arg, weak) <==> i >= |w.links[k].proxy.value.queries|
  {
  }

  /** After any run a query of an interface is called as it ought to be exactly unless the link is tainted and
      its proxy has that query. */
  lemma {:induction false} InterfaceCallsReachTheirReceiver(trace: seq<Runs.World>, acts: seq<Runs.Action>, k: nat,
          i: nat, q: Results.QueryId, arg: int, weak: Lifetimes.Weak)
    requires Runs.IsRun(trace, acts) && k in trace[|acts|].links
    ensures var w, tainted := trace[|acts|], Runs.LinkTainted(trace, acts, k);
      && Brokers.Valid(w.b) && (tainted ==> w.links[k].proxy.Some?)
      && (WellCalled(w, k, i, q, arg, weak) <==> !(tainted && i < |w.links[k].proxy.value.queries|))
  {
    Runs.RunLinkJudged(trace, acts, k);
    var w := trace[|acts|];
    if Runs.LinkTainted(trace, acts, k) {
      CallThroughStale(w, k, i, q, arg, weak);
    } else {
      Runs.InterfaceLookupsAreFresh(trace, acts, k);
      CallThroughFresh(w.b, w.t, w.links[k].m, w.links[k].owner, i, q, arg, weak);
    }
  }

  /** In terms of what has been published: where c is to offer the interface, a synchronous query is called around
      c's lock exactly on its published executor; an asynchronous one is handed its result at once there if c allows
      it, and otherwise requested of that executor. */
  lemma {:induction false} InterfaceCallsGoWherePublished(trace: seq<Runs.World>, acts: seq<Runs.Action>, k: nat,
          c: CompId, i: nat, q: Results.QueryId, arg: int, weak: Lifetimes.Weak)
    requires Runs.IsRun(trace, acts) && k in trace[|acts|].links && !Runs.LinkTainted(trace, acts, k)
    requires Publishing.Offers(acts, trace[|acts|].links[k].m, c)
    requires i < |Publishing.InterfaceGiven(acts, |acts|, c, trace[|acts|].links[k].m).value.queries|
    ensures var w := trace[|acts|];
      && Brokers.Valid(w.b)
      && var r := w.links[k];
      && var call := CallThrough(LookUpInterface(w.b, w.t, r).2, r.owner, i, q, arg, weak);
      && var query := Publishing.InterfaceGiven(acts, |acts|, c, r.m).value.queries[i];
      && match query.kind
         case Sync => call == if query.executor == r.owner then Plain(c) else Locked(c)
         case Async =>
           call == Passed(c, if query.executor == r.owner && trace[0].t.direct(c)
                             then Results.ToHandler(Results.Result(None, weak, Some(q)))
                             else Results.ToQueue(query.executor, Results.Request(q, arg, r.owner, weak)))
  {
    Publishing.InterfaceFinds(trace, acts, k, c);
  }

  class AsyncQuery {
    const reference: Components.MonoRef

    constructor (reference: Components.MonoRef)
      ensures this.reference == reference
    {
      this.reference := reference;
    }

    /** The handler is entered with `result` on the direct path; on the queued one nothing runs and the
        request joins the end of the receiving executor's queue. */
    method Execute(components: map<CompId, Components.Component>, ghost t: Tables, q: Results.QueryId, arg: int,
                   weak: Lifetimes.Weak, executors: seq<Executor.WorkQueue<Results.Task>>)
      returns (handler: Option<HandlerId>, result: Results.CallbackResult?, ghost outcome: Outcome)
      requires Brokers.Valid(reference.broker.View()) && Components.Living(components, t)
      requires Results.Pool(executors)
      requires forall c, m :: c in t.alive ==> ExecutorOf(t, c, m) < |executors|
      requires reference.receiverExecutor.Some? ==> reference.receiverExecutor.value < |executors|
      modifies reference, reference.broker, executors
      ensures var (b, r, h) := LookUp(old(reference.broker.View()), t, old(reference.View()));
        && (reference.broker.View(), reference.View(), handler) == (b, r, h)
        && outcome == SendThrough(r, h, q, arg, weak)
      ensures result != null <==> outcome.Sent? && outcome.sent.ToHandler?
      ensures result != null ==> fresh(result) && result.State() == outcome.sent.result
      ensures outcome.Sent? && outcome.sent.ToQueue? ==>
        outcome.sent.on < |executors|
        && executors[outcome.sent.on].workItems == old(executors[outcome.sent.on].workItems) + [outcome.sent.task]
      ensures forall i :: 0 <= i < |executors| && !(outcome.Sent? && outcome.sent.ToQueue? && outcome.sent.on == i) ==>
        executors[i].workItems == old(executors[i].workItems)
    {
      handler := reference.Lookup(components, t);
      result := null;
      outcome := SendThrough(reference.View(), handler, q, arg, weak);
      if reference.receiver.None? || handler.None? || reference.receiverExecutor.None? {
        return;
      }
      var query := new Results.AsyncQuery(reference.sameExecutor, reference.receiverExecutor.value, reference.owner);
      result := query.Execute(q, arg, weak, executors);
    }
  }
}
