/**
 * Queue elision preserves meaning: the direct path, on which a handler that shares its senders' executor is
 * called at once, gives it the same calls and every sender the same answers as the queued path.
 */
module Direct {
  import opened Common
  import CallbackResults
  import Lifetimes
  import opened Protocol
  import opened Ordering
  import opened Elision

  type QueryId = CallbackResults.QueryId

  /** The callback of q has been run. */
  ghost predicate Answered(s: State, q: QueryId) {
    exists i :: 0 <= i < |s.log| && s.log[i].Called? && s.log[i].callback == Some(q)
  }

  ghost predicate AllAnswered(s: State, lane: Lane) {
    forall q: nat :: q in lane && q < |s.queries| ==> Answered(s, q)
  }

  /** The lane's calls are made directly, each after the one before has been answered, and are answered once
      and while their lifetime is alive. Everything else that goes on is left open. */
  ghost predicate Directly(s: State, a: Action, lane: Lane) {
    match a
    case Send(x, _) => |s.queries| in lane ==> x.direct && AllAnswered(s, lane)
    case ReplyTo(q, _, _) =>
      q in lane && q < |s.queries| ==> !Answered(s, q) && !Lifetimes.Expired(s.lives, s.queries[q].weak)
    case Discard(q) => q in lane ==> Answered(s, q)
    case _ => true
  }

  ghost predicate IsDirectRun<H>(trace: seq<State>, acts: seq<Action>, lane: Lane, f: Handler<H>, h: H) {
    && IsRun(trace, acts)
    && forall i :: 0 <= i < |acts| ==> Directly(trace[i], acts[i], lane) && RepliesBy(trace[i], acts[i], lane, f, h)
  }

  /** The lane's queries are direct; all have been handled, in order, and the first k answered, in order and
      with the replies of `ans`; at most one is not answered. */
  ghost predicate Served(s: State, lane: Lane, k: nat, ans: QueryId -> int) {
    && (forall q: nat :: q in lane && q < |s.queries| ==> s.queries[q].direct)
    && FlatMap(s.log, HandledIn(lane)) == Sent(lane, |s.queries|)
    && FlatMap(s.log, CalledIn(lane)) == Sent(lane, k) && k <= |s.queries|
    && (forall q, x :: q in lane && x in lane && k <= q < |s.queries| && k <= x < |s.queries| ==> q == x)
    && (forall i :: 0 <= i < |s.log| ==> GoodEntry(s.log[i], lane, ans))
  }

  // ---------- Who has been answered ----------

  lemma {:induction false} InFlatMap<T, U>(xs: seq<T>, f: T -> seq<U>, i: nat, u: U)
    requires i < |xs| && u in f(xs[i])
    ensures u in FlatMap(xs, f)
  {
    if i > 0 {
      InFlatMap(xs[1..], f, i - 1, u);
    }
  }

  lemma {:induction false} FromFlatMap<T, U>(xs: seq<T>, f: T -> seq<U>, u: U) returns (i: nat)
    requires u in FlatMap(xs, f)
    ensures i < |xs| && u in f(xs[i])
  {
    if u in f(xs[0]) {
      i := 0;
    } else {
      i := FromFlatMap(xs[1..], f, u);
      i := i + 1;
    }
  }

  /** A query of the lane is answered exactly if it is one of the first k. */
  lemma {:induction false} AnsweredBelow(s: State, lane: Lane, k: nat, ans: QueryId -> int, q: QueryId)
    requires Served(s, lane, k, ans) && q in lane
    ensures Answered(s, q) <==> q < k
  {
    if Answered(s, q) {
      var i :| 0 <= i < |s.log| && s.log[i].Called? && s.log[i].callback == Some(q);
      InFlatMap(s.log, CalledIn(lane), i, q);
      SentBelow(lane, k);
    }
    if q < k {
      var j := SentHas(lane, k, q);
      var i := FromFlatMap(s.log, CalledIn(lane), q);
      assert s.log[i].Called? && s.log[i].callback == Some(q);
    }
  }

  // ---------- Steps ----------

  /** An entry that shows nothing of the lane. */
  ghost predicate Apart(x: Entry, lane: Lane) {
    HandledIn(lane)(x) == [] && CalledIn(lane)(x) == []
  }

  lemma {:induction false} ApartKeepsServed(s: State, t: State, lane: Lane, k: nat, ans: QueryId -> int)
    requires Served(s, lane, k, ans) && s.queries <= t.queries && s.log <= t.log
    requires |s.log| < |t.log| ==> |t.log| == |s.log| + 1 && Apart(t.log[|s.log|], lane)
    requires forall q: nat :: |s.queries| <= q < |t.queries| ==> q !in lane
    ensures Served(t, lane, k, ans)
  {
    SentGap(lane, |s.queries|, |t.queries|);
    if |s.log| < |t.log| {
      assert t.log == s.log + [t.log[|s.log|]];
      FlatMapAppend(s.log, t.log[|s.log|], HandledIn(lane));
      FlatMapAppend(s.log, t.log[|s.log|], CalledIn(lane));
    } else {
      assert t.log == s.log;
    }
  }

  /** Whatever happens outside the lane shows nothing of it: its queries are in no queue. */
  lemma {:induction false} OthersApart(s: State, a: Action, lane: Lane)
    requires Fits(s) && Can(s, a) && Directly(s, a, lane)
    requires forall q: nat :: q in lane && q < |s.queries| ==> s.queries[q].direct
    requires a.Send? ==> |s.queries| !in lane
    requires a.ReplyTo? ==> a.q !in lane
    ensures var t := Next(s, a);
      && s.queries <= t.queries && s.log <= t.log && |t.queries| <= |s.queries| + 1
      && (|t.queries| > |s.queries| ==> a.Send?)
      && (|s.log| < |t.log| ==> |t.log| == |s.log| + 1 && Apart(t.log[|s.log|], lane))
  {
    match a
    case StartTask(e) => assert TaskFits(s.home, s.queries, e, s.execs[e].back[s.execs[e].next]);
    case ReplyTo(q, _, _) => assert ResultFits(s.home, s.queries, q, s.held[q]);
    case _ =>
  }

  /** One more entry, and the account that comes of it. */
  lemma {:induction false} EntryServed(s: State, t: State, entry: Entry, lane: Lane, k: nat, k': nat,
          ans: QueryId -> int)
    requires Served(s, lane, k, ans) && t.log == s.log + [entry] && GoodEntry(entry, lane, ans)
    requires forall q: nat :: q in lane && q < |t.queries| ==> t.queries[q].direct
    requires Sent(lane, |s.queries|) + HandledIn(lane)(entry) == Sent(lane, |t.queries|)
    requires Sent(lane, k) + CalledIn(lane)(entry) == Sent(lane, k') && k' <= |t.queries|
    requires forall q, x :: q in lane && x in lane && k' <= q < |t.queries| && k' <= x < |t.queries| ==> q == x
    ensures Served(t, lane, k', ans)
  {
    FlatMapAppend(s.log, entry, HandledIn(lane));
    FlatMapAppend(s.log, entry, CalledIn(lane));
  }

  lemma {:induction false} SendServed(s: State, x: Query, at: ExecId, lane: Lane, k: nat, ans: QueryId -> int)
    requires Fits(s) && Can(s, Send(x, at)) && Directly(s, Send(x, at), lane) && Served(s, lane, k, ans)
    requires |s.queries| in lane
    ensures Served(Next(s, Send(x, at)), lane, |s.queries|, ans)
  {
    var t, q: QueryId := Next(s, Send(x, at)), |s.queries|;
    forall y | k <= y < q ensures y !in lane {
      if y in lane {
        AnsweredBelow(s, lane, k, ans, y);
      }
    }
    SentGap(lane, k, q);
    SentStep(lane, q);
    assert t.queries == s.queries + [x];
    EntryServed(s, t, Handled(q, at, x.arg), lane, k, q, ans);
  }

  lemma {:induction false} ReplyServed(s: State, q: QueryId, v: int, at: ExecId, lane: Lane, k: nat,
          ans: QueryId -> int)
    requires Fits(s) && Can(s, ReplyTo(q, v, at)) && Directly(s, ReplyTo(q, v, at), lane) && Served(s, lane, k, ans)
    requires q in lane && v == ans(q)
    ensures Served(Next(s, ReplyTo(q, v, at)), lane, q + 1, ans)
  {
    var t := Next(s, ReplyTo(q, v, at));
    assert ResultFits(s.home, s.queries, q, s.held[q]);
    AnsweredBelow(s, lane, k, ans, q);
    SentGap(lane, k, q);
    SentStep(lane, q);
    EntryServed(s, t, Called(Some(q), at, v), lane, k, q + 1, ans);
  }

  /** The handler's reply is the reference reply: it has seen exactly the calls sent before this one. */
  lemma {:induction false} DirectReplyIsAnswer<H>(s: State, a: Action, lane: Lane, k: nat, ans: QueryId -> int,
          queries: seq<Query>, f: Handler<H>, h: H)
    requires Fits(s) && Can(s, a) && a.ReplyTo? && a.q in lane
    requires Served(s, lane, k, ans) && RepliesBy(s, a, lane, f, h)
    requires s.queries <= queries && forall q: nat :: q < |queries| ==> ans(q) == Answer(f, h, queries, lane, q)
    ensures a.v == ans(a.q)
  {
    assert ResultFits(s.home, s.queries, a.q, s.held[a.q]);
    assert IsAt(s, a.q, WithHandler);
    var i := SentHas(lane, |s.queries|, a.q);
    SentBefore(lane, |s.queries|, i);
    AnswerOfPrefix(f, h, s.queries, queries, lane, a.q);
  }

  lemma {:induction false} NextServed(s: State, a: Action, lane: Lane, k: nat, ans: QueryId -> int) returns (k': nat)
    requires Fits(s) && Can(s, a) && Directly(s, a, lane) && Served(s, lane, k, ans)
    requires a.ReplyTo? && a.q in lane ==> a.v == ans(a.q)
    ensures Served(Next(s, a), lane, k', ans)
  {
    if a.Send? && |s.queries| in lane {
      SendServed(s, a.query, a.at, lane, k, ans);
      k' := |s.queries|;
    } else if a.ReplyTo? && a.q in lane {
      ReplyServed(s, a.q, a.v, a.at, lane, k, ans);
      k' := a.q + 1;
    } else {
      OthersServed(s, a, lane, k, ans);
      k' := k;
    }
  }

  lemma {:induction false} OthersServed(s: State, a: Action, lane: Lane, k: nat, ans: QueryId -> int)
    requires Fits(s) && Can(s, a) && Directly(s, a, lane) && Served(s, lane, k, ans)
    requires a.Send? ==> |s.queries| !in lane
    requires a.ReplyTo? ==> a.q !in lane
    ensures Served(Next(s, a), lane, k, ans)
  {
    OthersApart(s, a, lane);
    ApartKeepsServed(s, Next(s, a), lane, k, ans);
  }

  lemma {:induction false} RunServed<H>(trace: seq<State>, acts: seq<Action>, lane: Lane, queries: seq<Query>,
          ans: QueryId -> int, f: Handler<H>, h: H) returns (k: nat)
    requires IsDirectRun(trace, acts, lane, f, h) && trace[|acts|].queries <= queries
    requires forall q: nat :: q < |queries| ==> ans(q) == Answer(f, h, queries, lane, q)
    ensures Fits(trace[|acts|]) && Served(trace[|acts|], lane, k, ans)
    decreases |acts|
  {
    RunFits(trace, acts);
    if acts == [] {
      k := 0;
    } else {
      var n := |acts| - 1;
      QueriesGrow(trace[n], acts[n]);
      k := RunServed(trace[..n + 1], acts[..n], lane, queries, ans, f, h);
      RunFits(trace[..n + 1], acts[..n]);
      if acts[n].ReplyTo? && acts[n].q in lane {
        DirectReplyIsAnswer(trace[n], acts[n], lane, k, ans, queries, f, h);
      }
      k := NextServed(trace[n], acts[n], lane, k, ans);
    }
  }

  // ---------- What a direct run means ----------

  lemma {:induction false} CalledResults(log: seq<Entry>, lane: Lane, queries: seq<Query>, c: CompId,
          ans: QueryId -> int)
    requires forall i :: 0 <= i < |log| ==> GoodEntry(log[i], lane, ans)
    ensures FlatMap(log, ResultsSeen(lane, queries, c))
         == FlatMap(FlatMap(log, CalledIn(lane)), AnswerTo(queries, c, ans))
  {
    if log != [] {
      CalledResults(log[1..], lane, queries, c, ans);
      FlatMapConcat(CalledIn(lane)(log[0]), FlatMap(log[1..], CalledIn(lane)), AnswerTo(queries, c, ans));
      assert GoodEntry(log[0], lane, ans);
      if CalledIn(lane)(log[0]) != [] {
        FlatMapOne(CalledIn(lane)(log[0])[0], AnswerTo(queries, c, ans));
      }
    }
  }

  /** The direct path: on any run on which the lane is called directly, whatever else goes on, the handler has
      seen the calls in the order they were sent, and every sender has received the reference replies to the
      first k; that is to all, or to all but the call that is being handled. */
  lemma {:induction false} DirectMeaning<H>(trace: seq<State>, acts: seq<Action>, lane: Lane, f: Handler<H>, h: H,
          c: CompId) returns (k: nat)
    requires IsDirectRun(trace, acts, lane, f, h)
    ensures var s := trace[|acts|];
      && FlatMap(s.log, ArgsSeen(lane)) == Args(CallsOf(s.queries, Sent(lane, |s.queries|)))
      && FlatMap(s.log, ResultsSeen(lane, s.queries, c)) == Replies(f, h, CallsOf(s.queries, Sent(lane, k)), c)
      && k <= |s.queries|
      && (forall q, x :: q in lane && x in lane && k <= q < |s.queries| && k <= x < |s.queries| ==> q == x)
      && (AllAnswered(s, lane) ==> Sent(lane, k) == Sent(lane, |s.queries|))
  {
    var s := trace[|acts|];
    var ans := (q: QueryId) => Answer(f, h, s.queries, lane, q);
    k := RunServed(trace, acts, lane, s.queries, ans, f, h);
    CalledResults(s.log, lane, s.queries, c, ans);
    AnswersAreReplies(f, h, s.queries, lane, k, c, ans);
    forall i | 0 <= i < |s.log| && s.log[i].Handled? && s.log[i].q in lane
      ensures s.log[i].arg == CallOf(s.queries, s.log[i].q).arg
    {
      assert EntryFits(s.home, s.queries, s.log[i]);
    }
    ArgsFollow(s.log, lane, s.queries);
    ArgsOfCalls(s.queries, lane, |s.queries|);
    if AllAnswered(s, lane) {
      forall y | k <= y < |s.queries| ensures y !in lane {
        if y in lane {
          AnsweredBelow(s, lane, k, ans, y);
        }
      }
      SentGap(lane, k, |s.queries|);
    }
  }

  /** Elision preserves meaning. Take any run on which a lane is called through the queues, under any schedule
      and among any other traffic, whose handler is f and replies before it returns, and which ends quiet with
      the lane's lifetimes alive; and any run on which the same calls are made directly and answered, again
      among any other traffic. The handler is called with the same arguments in the same order, so it passes
      through the same states, and every sender's callbacks receive the same results in the same order. */
  lemma {:induction false} ElisionPreservesMeaning<H>(queued: seq<State>, acts: seq<Action>, lane: Lane, r: ExecId,
          d: ExecId, direct: seq<State>, calls: seq<Action>, whole: Lane, f: Handler<H>, h: H, c: CompId)
    requires IsRunOf(queued, acts, lane, f, h) && Joins(queued[|acts|], lane, r, d) && Quiet(queued[|acts|])
    requires forall q: nat :: q in lane && q < |queued[|acts|].queries| ==>
      !Lifetimes.Expired(queued[|acts|].lives, queued[|acts|].queries[q].weak)
    requires IsDirectRun(direct, calls, whole, f, h) && AllAnswered(direct[|calls|], whole)
    requires CallsOf(direct[|calls|].queries, Sent(whole, |direct[|calls|].queries|))
          == CallsOf(queued[|acts|].queries, Sent(lane, |queued[|acts|].queries|))
    ensures var s, t := queued[|acts|], direct[|calls|];
      && FlatMap(s.log, ArgsSeen(lane)) == FlatMap(t.log, ArgsSeen(whole))
      && FlatMap(s.log, ResultsSeen(lane, s.queries, c)) == FlatMap(t.log, ResultsSeen(whole, t.queries, c))
           == Replies(f, h, CallsOf(s.queries, Sent(lane, |s.queries|)), c)
  {
    QueuedMeaning(queued, acts, lane, r, d, f, h, c);
    var k := DirectMeaning(direct, calls, whole, f, h, c);
  }
}
