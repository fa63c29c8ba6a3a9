/**
 * The meaning of the queued path: a deterministic handler that replies at once sees the calls in the order
 * they were sent, and every sender gets the replies of calling it one call after the other.
 */
module Elision {
  import opened Common
  import Lifetimes
  import opened Executor
  import opened CallbackResults
  import opened Protocol
  import opened Ordering

  // ---------- The reference: calls answered one after the other ----------

  datatype Call = Call(sender: CompId, arg: int)

  /** A handler with a state of its own: from its state and an argument to its next state and its reply. */
  type Handler<!H> = (H, int) -> (H, int)

  function StateAfter<H>(f: Handler<H>, h: H, calls: seq<Call>): H {
    if calls == [] then h
    else f(StateAfter(f, h, calls[..|calls| - 1]), calls[|calls| - 1].arg).0
  }

  function Reply1<H>(f: Handler<H>, h: H, before: seq<Call>, arg: int): int {
    f(StateAfter(f, h, before), arg).1
  }

  /** The replies that sender c receives, in order. */
  function Replies<H>(f: Handler<H>, h: H, calls: seq<Call>, c: CompId): seq<int> {
    if calls == [] then []
    else
      var before, last := calls[..|calls| - 1], calls[|calls| - 1];
      Replies(f, h, before, c) + if last.sender == c then [Reply1(f, h, before, last.arg)] else []
  }

  function Args(calls: seq<Call>): seq<int> {
    if calls == [] then [] else Args(calls[..|calls| - 1]) + [calls[|calls| - 1].arg]
  }

  /** Step by step: the handler passes from state to state, one for each call, and sender c receives what it
      replies in these states to exactly the calls that c makes, in their order. */
  lemma {:induction false} MeaningStepByStep<H>(f: Handler<H>, h: H, calls: seq<Call>, c: CompId)
    returns (states: seq<H>, at: seq<nat>)
    ensures |states| == |calls| + 1 && states[0] == h
    ensures forall i :: 0 <= i < |calls| ==> states[i + 1] == f(states[i], calls[i].arg).0
    ensures (forall k :: 0 <= k < |at| ==> at[k] < |calls|) && forall j, k :: 0 <= j < k < |at| ==> at[j] < at[k]
    ensures forall i :: 0 <= i < |calls| ==> (i in at <==> calls[i].sender == c)
    ensures |Replies(f, h, calls, c)| == |at|
    ensures forall k :: 0 <= k < |at| ==> Replies(f, h, calls, c)[k] == f(states[at[k]], calls[at[k]].arg).1
    ensures states[|calls|] == StateAfter(f, h, calls)
    decreases |calls|
  {
    if calls == [] {
      states, at := [h], [];
    } else {
      var n := |calls| - 1;
      states, at := MeaningStepByStep(f, h, calls[..n], c);
      states := states + [f(states[n], calls[n].arg).0];
      if calls[n].sender == c {
        at := at + [n];
      }
    }
  }

  lemma {:induction false} ArgsAt(calls: seq<Call>)
    ensures |Args(calls)| == |calls| && forall i :: 0 <= i < |calls| ==> Args(calls)[i] == calls[i].arg
    decreases |calls|
  {
    if calls != [] {
      ArgsAt(calls[..|calls| - 1]);
    }
  }

  // ---------- What a log shows ----------

  function HandledIn(lane: Lane): Entry -> seq<QueryId> {
    (x: Entry) => match x case Handled(q, _, _) => (if q in lane then [q] else []) case _ => []
  }

  function SettledIn(lane: Lane): Entry -> seq<QueryId> {
    (x: Entry) =>
      match x
      case Called(Some(q), _, _) => if q in lane then [q] else []
      case Dropped(Some(q)) => if q in lane then [q] else []
      case Abandoned(q) => if q in lane then [q] else []
      case _ => []
  }

  /** The arguments the lane's handler was called with. */
  function ArgsSeen(lane: Lane): Entry -> seq<int> {
    (x: Entry) => match x case Handled(q, _, arg) => (if q in lane then [arg] else []) case _ => []
  }

  /** The results that callbacks of sender c were called with. */
  function ResultsSeen(lane: Lane, queries: seq<Query>, c: CompId): Entry -> seq<int> {
    (x: Entry) =>
      match x
      case Called(Some(q), _, v) => if q in lane && q < |queries| && queries[q].sender == c then [v] else []
      case _ => []
  }

  /** The lane's queries among the first n, in the order they were sent. */
  function Sent(lane: Lane, n: nat): seq<QueryId> {
    if n == 0 then [] else Sent(lane, n - 1) + if n - 1 in lane then [n - 1] else []
  }

  function CallOf(queries: seq<Query>, q: QueryId): Call {
    if q < |queries| then Call(queries[q].sender, queries[q].arg) else Call(0, 0)
  }

  function CallsOf(queries: seq<Query>, qs: seq<QueryId>): seq<Call> {
    seq(|qs|, i requires 0 <= i < |qs| => CallOf(queries, qs[i]))
  }

  lemma {:induction false} SentGap(lane: Lane, k: nat, n: nat)
    requires k <= n && forall q :: k <= q < n ==> q !in lane
    ensures Sent(lane, n) == Sent(lane, k)
    decreases n
  {
    if k < n {
      SentGap(lane, k, n - 1);
    }
  }

  lemma {:induction false} SentBelow(lane: Lane, n: nat)
    ensures forall i :: 0 <= i < |Sent(lane, n)| ==> Sent(lane, n)[i] < n && Sent(lane, n)[i] in lane
  {
    if n != 0 {
      SentBelow(lane, n - 1);
    }
  }

  /** In the ascending list of sends, what stands before q are the sends before q. */
  lemma {:induction false} SentBefore(lane: Lane, n: nat, i: nat)
    requires i < |Sent(lane, n)|
    ensures Sent(lane, n)[..i] == Sent(lane, Sent(lane, n)[i])
  {
    if i < |Sent(lane, n - 1)| {
      SentBefore(lane, n - 1, i);
      assert Sent(lane, n)[..i] == Sent(lane, n - 1)[..i];
    } else {
      assert Sent(lane, n)[..i] == Sent(lane, n - 1);
    }
  }

  // ---------- How far a lane has come ----------

  /** The first kh of the sends have been handled and the first ks settled, in order and no others. */
  ghost predicate Progress(s: State, w: map<QueryId, Place>, lane: Lane, kh: nat, ks: nat) {
    && FlatMap(s.log, HandledIn(lane)) == Sent(lane, kh)
    && FlatMap(s.log, SettledIn(lane)) == Sent(lane, ks)
    && kh <= |s.queries| && ks <= |s.queries|
    && forall q :: q in w && q in lane ==>
         && (RankIn(s, w[q]).stage == 3 <==> kh <= q)
         && (RankIn(s, w[q]).stage == 0 <==> q < ks)
  }

  lemma {:induction false} FlatMapNothing<T, U>(xs: seq<T>, f: T -> seq<U>)
    requires forall i :: 0 <= i < |xs| ==> f(xs[i]) == []
    ensures FlatMap(xs, f) == []
  {
    if xs != [] {
      FlatMapNothing(xs[1..], f);
    }
  }

  /** Log entries of other queries show nothing of the lane. */
  lemma {:induction false} LogKeepsProgress(a: seq<Entry>, b: seq<Entry>, lane: Lane)
    requires a <= b && forall i :: |a| <= i < |b| ==> HandledIn(lane)(b[i]) == [] && SettledIn(lane)(b[i]) == []
    ensures FlatMap(b, HandledIn(lane)) == FlatMap(a, HandledIn(lane))
    ensures FlatMap(b, SettledIn(lane)) == FlatMap(a, SettledIn(lane))
  {
    assert b == a + b[|a|..];
    FlatMapConcat(a, b[|a|..], HandledIn(lane));
    FlatMapConcat(a, b[|a|..], SettledIn(lane));
    FlatMapNothing(b[|a|..], HandledIn(lane));
    FlatMapNothing(b[|a|..], SettledIn(lane));
  }

  predicate Silent(x: Entry, lane: Lane) {
    match x
    case Handled(q, _, _) => q !in lane
    case Called(Some(q), _, _) => q !in lane
    case Dropped(Some(q)) => q !in lane
    case Abandoned(q) => q !in lane
    case _ => true
  }

  /** Only starting a task of the lane shows in the log as something of the lane. */
  lemma {:induction false} OthersAreSilent(s: State, a: Action, lane: Lane, r: ExecId, d: ExecId)
    requires Fits(s) && Can(s, a) && Prompt(s, a, lane) && Joins(s, lane, r, d) && Joins(Next(s, a), lane, r, d)
    requires !a.StartTask?
    ensures s.log <= Next(s, a).log
    ensures forall i :: |s.log| <= i < |Next(s, a).log| ==> Silent(Next(s, a).log[i], lane)
  {
    match a
    case Send(x, _) => assert Next(s, a).queries[|s.queries|] == x;
    case ReplyTo(q, _, _) => assert ResultFits(s.home, s.queries, q, s.held[q]);
    case Discard(q) => assert ResultFits(s.home, s.queries, q, s.held[q]);
    case _ =>
  }

  lemma {:induction false} StagesStay(s: State, a: Action, w: map<QueryId, Place>, lane: Lane, r: ExecId, d: ExecId)
    requires Fits(s) && Placed(s, w) && Can(s, a) && Joins(s, lane, r, d) && !a.StartTask? && Prompt(s, a, lane)
    ensures forall q :: q in w && q in lane ==>
      (q in PlacesAfter(s, a, w)
       && var m, n := RankIn(s, w[q]), RankIn(Next(s, a), PlacesAfter(s, a, w)[q]);
          (n.stage == 3 <==> m.stage == 3) && (n.stage == 0 <==> m.stage == 0))
  {
    forall q | q in w && q in lane
      ensures q in PlacesAfter(s, a, w) &&
        var m, n := RankIn(s, w[q]), RankIn(Next(s, a), PlacesAfter(s, a, w)[q]);
        (n.stage == 3 <==> m.stage == 3) && (n.stage == 0 <==> m.stage == 0)
    {
      assert IsAt(s, q, w[q]) && IsQueued(s, q);
      StageStays(s, a, w, lane, q);
    }
  }

  lemma {:induction false} StageStays(s: State, a: Action, w: map<QueryId, Place>, lane: Lane, q: QueryId)
    requires Fits(s) && Placed(s, w) && Can(s, a) && !a.StartTask? && Prompt(s, a, lane)
    requires q in w && q in lane && IsAt(s, q, w[q]) && IsQueued(s, q)
    ensures q in PlacesAfter(s, a, w)
    ensures var m, n := RankIn(s, w[q]), RankIn(Next(s, a), PlacesAfter(s, a, w)[q]);
      (n.stage == 3 <==> m.stage == 3) && (n.stage == 0 <==> m.stage == 0)
  {
    match a
    case StartTask(_) =>
    case SwapIn(e) => SwappedRank(s, e, q, w[q]);
    case ReplyTo(x, v, at) => ReplyStageStays(s, x, v, at, w, q);
    case Discard(x) => DiscardStageStays(s, x, w, q);
    case _ => RankStays(s, a, q, w[q]);
  }

  lemma {:induction false} DiscardStageStays(s: State, x: QueryId, w: map<QueryId, Place>, q: QueryId)
    requires Fits(s) && Can(s, Discard(x)) && q in w && IsAt(s, q, w[q]) && IsQueued(s, q)
    requires x == q ==> !IsAt(s, q, WithHandler)
    ensures q in PlacesAfter(s, Discard(x), w)
    ensures RankIn(Next(s, Discard(x)), PlacesAfter(s, Discard(x), w)[q]) == RankIn(s, w[q])
  {
    assert ResultFits(s.home, s.queries, x, s.held[x]);
    RankStays(s, Discard(x), q, w[q]);
  }

  lemma {:induction false} ReplyStageStays(s: State, x: QueryId, v: int, at: ExecId, w: map<QueryId, Place>, q: QueryId)
    requires Fits(s) && Placed(s, w) && Can(s, ReplyTo(x, v, at))
    requires q in w && IsAt(s, q, w[q]) && IsQueued(s, q)
    ensures q in PlacesAfter(s, ReplyTo(x, v, at), w)
    ensures var m, n := RankIn(s, w[q]), RankIn(Next(s, ReplyTo(x, v, at)), PlacesAfter(s, ReplyTo(x, v, at), w)[q]);
      (n.stage == 3 <==> m.stage == 3) && (n.stage == 0 <==> m.stage == 0)
  {
    assert ResultFits(s.home, s.queries, x, s.held[x]);
    if x == q && s.held[q].callback.Some? {
      assert IsAt(s, q, WithHandler);
      AnswerRank(s, q, v, at);
    } else {
      RankStays(s, ReplyTo(x, v, at), q, w[q]);
    }
  }

  lemma {:induction false} QuietKeepsProgress(s: State, a: Action, w: map<QueryId, Place>, lane: Lane,
          r: ExecId, d: ExecId, kh: nat, ks: nat)
    requires Fits(s) && Placed(s, w) && Can(s, a) && Prompt(s, a, lane) && !a.StartTask?
    requires Joins(s, lane, r, d) && Joins(Next(s, a), lane, r, d) && Progress(s, w, lane, kh, ks)
    ensures Progress(Next(s, a), PlacesAfter(s, a, w), lane, kh, ks)
  {
    OthersAreSilent(s, a, lane, r, d);
    LogKeepsProgress(s.log, Next(s, a).log, lane);
    StagesStay(s, a, w, lane, r, d);
    NewcomerIsRequest(s, a, w);
    StagesSettle(s, Next(s, a), w, PlacesAfter(s, a, w), lane, kh, ks);
  }

  /** If the lane's queries stay in their stages, and whatever is new waits as a request, the account holds on. */
  lemma {:induction false} StagesSettle(s: State, t: State, w: map<QueryId, Place>, v: map<QueryId, Place>, lane: Lane,
          kh: nat, ks: nat)
    requires Progress(s, w, lane, kh, ks) && |s.queries| <= |t.queries|
    requires FlatMap(t.log, HandledIn(lane)) == FlatMap(s.log, HandledIn(lane))
    requires FlatMap(t.log, SettledIn(lane)) == FlatMap(s.log, SettledIn(lane))
    requires forall q :: q in w && q in lane ==>
      q in v && var m, n := RankIn(s, w[q]), RankIn(t, v[q]);
      (n.stage == 3 <==> m.stage == 3) && (n.stage == 0 <==> m.stage == 0)
    requires forall q :: q in v ==> q in w || (q == |s.queries| && RankIn(t, v[q]).stage == 3)
    ensures Progress(t, v, lane, kh, ks)
  {
  }

  /** A query that was not there before has just been sent, and waits as a request. */
  lemma {:induction false} NewcomerIsRequest(s: State, a: Action, w: map<QueryId, Place>)
    requires Fits(s) && Placed(s, w) && Can(s, a) && !a.StartTask?
    ensures |s.queries| <= |Next(s, a).queries|
    ensures forall q :: q in PlacesAfter(s, a, w) ==>
      q in w || (q == |s.queries| && RankIn(Next(s, a), PlacesAfter(s, a, w)[q]).stage == 3)
  {
    match a
    case ReplyTo(x, _, _) => assert ResultFits(s.home, s.queries, x, s.held[x]);
    case Discard(x) => assert ResultFits(s.home, s.queries, x, s.held[x]);
    case _ =>
  }

  lemma {:induction false} FrontOfStage(m: map<QueryId, Rank>, lane: Lane, q0: QueryId, b: Extent, n: nat)
    requires Sorted(m, lane) && Bounded(m, lane, b, n) && q0 in m && q0 in lane
    ensures m[q0] == Rank(3, 0, b.rNext) ==>
      forall q :: q in m && q in lane && q != q0 ==> (m[q].stage == 3 <==> q0 < q)
    ensures m[q0] == Rank(1, 0, b.dNext) ==>
      forall q :: q in m && q in lane && q != q0 ==> (m[q].stage == 0 <==> q < q0)
  {
    forall q | q in m && q in lane && q < q0 ensures Less(m[q], m[q0]) {}
    forall q | q in m && q in lane && q0 < q ensures Less(m[q0], m[q]) {}
  }

  /** If the lane's queries below q0, and no others before it, are those below k, then q0 comes next. */
  lemma {:induction false} NextSent(lane: Lane, k: nat, q0: QueryId)
    requires k <= q0 && q0 in lane && forall q :: k <= q < q0 ==> q !in lane
    ensures Sent(lane, q0 + 1) == Sent(lane, k) + [q0]
  {
    SentGap(lane, k, q0);
  }

  lemma {:induction false} StartShows(s: State, e: ExecId, q0: QueryId, lane: Lane)
    requires Can(s, StartTask(e)) && q0 in lane
    requires Carries(s.execs[e].back[s.execs[e].next], q0)
    ensures var task, t := s.execs[e].back[s.execs[e].next], Next(s, StartTask(e));
      && FlatMap(t.log, HandledIn(lane)) == FlatMap(s.log, HandledIn(lane)) + (if task.Request? then [q0] else [])
      && FlatMap(t.log, SettledIn(lane)) == FlatMap(s.log, SettledIn(lane)) + (if task.Request? then [] else [q0])
      && t.queries == s.queries
  {
    var t := Next(s, StartTask(e));
    assert t.log == s.log + [t.log[|s.log|]];
    FlatMapAppend(s.log, t.log[|s.log|], HandledIn(lane));
    FlatMapAppend(s.log, t.log[|s.log|], SettledIn(lane));
  }

  lemma {:induction false} StartKeepsProgress(s: State, e: ExecId, q0: QueryId, w: map<QueryId, Place>,
          lane: Lane, r: ExecId, d: ExecId, kh: nat, ks: nat)
    returns (kh': nat, ks': nat)
    requires Fits(s) && Placed(s, w) && Can(s, StartTask(e)) && Piped(s, w, lane, r)
    requires Joins(s, lane, r, d) && Progress(s, w, lane, kh, ks)
    requires Carries(s.execs[e].back[s.execs[e].next], q0) && q0 in lane && q0 < |s.queries|
    ensures var to := if s.execs[e].back[s.execs[e].next].Request? then WithHandler else Settled(|s.log|);
      Progress(Next(s, StartTask(e)), w[q0 := to], lane, kh', ks')
  {
    var request := s.execs[e].back[s.execs[e].next].Request?;
    assert IsAt(s, q0, InBack(e, s.execs[e].next));
    StartRank(s, e, q0, lane, r, d);
    LaneWithin(s, w, lane, r, d);
    FrontOfStage(Ranks(s, w), lane, q0, ExtentOf(s, r, d), |s.queries|);
    forall q: nat | q in lane && q < |s.queries| ensures IsQueued(s, q) {}
    forall q | q in w ensures RankIn(s, w[q]) == Ranks(s, w)[q] {}
    StartAdvances(s, w, lane, q0, request, kh, ks);
    kh', ks' := StartFrom(s, e, q0, w, lane, kh, ks);
  }

  /** With q0 the first of its stage, those after it are the ones still in that stage. */
  lemma {:induction false} StagesAfterStart(s: State, w: map<QueryId, Place>, lane: Lane, q0: QueryId, request: bool,
          kh: nat, ks: nat)
    requires Progress(s, w, lane, kh, ks)
    requires request ==> forall q :: q in w && q in lane && q != q0 ==> (Ranks(s, w)[q].stage == 3 <==> q0 < q)
    requires !request ==> forall q :: q in w && q in lane && q != q0 ==> (Ranks(s, w)[q].stage == 0 <==> q < q0)
    ensures var kh', ks' := if request then q0 + 1 else kh, if request then ks else q0 + 1;
      forall q :: q in w && q in lane && q != q0 ==>
        (Ranks(s, w)[q].stage == 3 <==> kh' <= q) && (Ranks(s, w)[q].stage == 0 <==> q < ks')
  {
    forall q | q in w ensures Ranks(s, w)[q] == RankIn(s, w[q]) {}
  }

  lemma {:induction false} RanksAfterStart(s: State, e: ExecId, q0: QueryId, w: map<QueryId, Place>, to: Place)
    requires Placed(s, w) && Can(s, StartTask(e)) && q0 in w
    requires Carries(s.execs[e].back[s.execs[e].next], q0) && w[q0] == InBack(e, s.execs[e].next)
    ensures Ranks(Next(s, StartTask(e)), w[q0 := to]) == Ranks(s, w)[q0 := RankIn(Next(s, StartTask(e)), to)]
  {
    forall q | q in w && q != q0 ensures w[q] != InBack(e, s.execs[e].next) {
      assert IsAt(s, q, w[q]);
    }
    RanksAfterMove(s, StartTask(e), w, q0, to);
  }

  lemma {:induction false} StartFrom(s: State, e: ExecId, q0: QueryId, w: map<QueryId, Place>, lane: Lane,
          kh: nat, ks: nat)
    returns (kh': nat, ks': nat)
    requires Placed(s, w) && Can(s, StartTask(e)) && Progress(s, w, lane, kh, ks)
    requires Carries(s.execs[e].back[s.execs[e].next], q0) && q0 in lane && q0 in w && q0 < |s.queries|
    requires w[q0] == InBack(e, s.execs[e].next)
    requires var k := if s.execs[e].back[s.execs[e].next].Request? then kh else ks;
      k <= q0 && forall q :: k <= q < q0 ==> q !in lane
    requires s.execs[e].back[s.execs[e].next].Request? ==>
      forall q :: q in w && q in lane && q != q0 ==> (Ranks(s, w)[q].stage == 3 <==> q0 < q)
    requires !s.execs[e].back[s.execs[e].next].Request? ==>
      forall q :: q in w && q in lane && q != q0 ==> (Ranks(s, w)[q].stage == 0 <==> q < q0)
    ensures var to := if s.execs[e].back[s.execs[e].next].Request? then WithHandler else Settled(|s.log|);
      Progress(Next(s, StartTask(e)), w[q0 := to], lane, kh', ks')
  {
    var request := s.execs[e].back[s.execs[e].next].Request?;
    var to := if request then WithHandler else Settled(|s.log|);
    RanksAfterStart(s, e, q0, w, to);
    StartShows(s, e, q0, lane);
    NextSent(lane, if request then kh else ks, q0);
    kh', ks' := if request then q0 + 1 else kh, if request then ks else q0 + 1;
    StagesAfterStart(s, w, lane, q0, request, kh, ks);
    ProgressAfterMove(s, Next(s, StartTask(e)), w, lane, q0, to, kh', ks');
  }

  lemma {:induction false} StartAdvances(s: State, w: map<QueryId, Place>, lane: Lane, q0: QueryId,
          request: bool, kh: nat, ks: nat)
    requires Placed(s, w) && Progress(s, w, lane, kh, ks) && q0 in w && q0 in lane
    requires forall q: nat :: q in lane && q < |s.queries| ==> IsQueued(s, q)
    requires request ==>
      (RankIn(s, w[q0]).stage == 3
       && forall q :: q in w && q in lane && q != q0 ==> (Ranks(s, w)[q].stage == 3 <==> q0 < q))
    requires !request ==>
      (RankIn(s, w[q0]).stage == 1
       && forall q :: q in w && q in lane && q != q0 ==> (Ranks(s, w)[q].stage == 0 <==> q < q0))
    ensures var k := if request then kh else ks; k <= q0 && forall q :: k <= q < q0 ==> q !in lane
  {
    assert IsQueued(s, q0);
    assert forall q: nat :: q in lane && q < |s.queries| ==> q in w;
    forall q | q in w && q in lane ensures RankIn(s, w[q]) == Ranks(s, w)[q] {}
  }

  lemma {:induction false} ProgressAfterMove(s: State, t: State, w: map<QueryId, Place>, lane: Lane,
          q0: QueryId, to: Place, kh: nat, ks: nat)
    requires q0 in w && q0 in lane && Ranks(t, w[q0 := to]) == Ranks(s, w)[q0 := RankIn(t, to)]
    requires FlatMap(t.log, HandledIn(lane)) == Sent(lane, kh) && FlatMap(t.log, SettledIn(lane)) == Sent(lane, ks)
    requires kh <= |t.queries| && ks <= |t.queries|
    requires RankIn(t, to).stage == 3 <==> kh <= q0
    requires RankIn(t, to).stage == 0 <==> q0 < ks
    requires forall q :: q in w && q in lane && q != q0 ==>
      (Ranks(s, w)[q].stage == 3 <==> kh <= q) && (Ranks(s, w)[q].stage == 0 <==> q < ks)
    ensures Progress(t, w[q0 := to], lane, kh, ks)
  {
    forall q | q in w && q in lane
      ensures (RankIn(t, w[q0 := to][q]).stage == 3 <==> kh <= q) && (RankIn(t, w[q0 := to][q]).stage == 0 <==> q < ks)
    {
      assert RankIn(t, w[q0 := to][q]) == Ranks(t, w[q0 := to])[q];
    }
  }

  // ---------- What the queued run says ----------

  /** The reply the handler owes to q, after the calls of the lane sent before it. */
  function Answer<H>(f: Handler<H>, h: H, queries: seq<Query>, lane: Lane, q: QueryId): int {
    Reply1(f, h, CallsOf(queries, Sent(lane, q)), CallOf(queries, q).arg)
  }

  /** A handler's first reply to a query of the lane is what f answers, given the handler calls logged
      before that query's own. */
  ghost predicate RepliesBy<H>(s: State, a: Action, lane: Lane, f: Handler<H>, h: H) {
    a.ReplyTo? && a.q in lane && IsAt(s, a.q, WithHandler) ==>
      var seen := FlatMap(s.log, HandledIn(lane));
      forall i :: 0 <= i < |seen| && seen[i] == a.q ==>
        a.v == Reply1(f, h, CallsOf(s.queries, seen[..i]), CallOf(s.queries, a.q).arg)
  }

  lemma {:induction false} SentHas(lane: Lane, n: nat, q: QueryId) returns (i: nat)
    requires q < n && q in lane
    ensures i < |Sent(lane, n)| && Sent(lane, n)[i] == q
  {
    if q == n - 1 {
      i := |Sent(lane, n - 1)|;
    } else {
      i := SentHas(lane, n - 1, q);
    }
  }

  lemma {:induction false} AnswerOfPrefix<H>(f: Handler<H>, h: H, a: seq<Query>, b: seq<Query>, lane: Lane, q: QueryId)
    requires a <= b && q < |a|
    ensures Answer(f, h, a, lane, q) == Answer(f, h, b, lane, q)
  {
    SentBelow(lane, q);
    assert CallsOf(a, Sent(lane, q)) == CallsOf(b, Sent(lane, q));
  }

  /** So the first reply to q is the one owed to it. */
  lemma {:induction false} ReplyIsAnswer<H>(s: State, a: Action, w: map<QueryId, Place>, lane: Lane, kh: nat,
          ks: nat, f: Handler<H>, h: H)
    requires Placed(s, w) && Progress(s, w, lane, kh, ks) && RepliesBy(s, a, lane, f, h)
    requires a.ReplyTo? && a.q in lane && IsAt(s, a.q, WithHandler) && IsQueued(s, a.q)
    ensures a.v == Answer(f, h, s.queries, lane, a.q)
  {
    assert w[a.q] == WithHandler;
    assert RankIn(s, w[a.q]).stage == 2;
    var i := SentHas(lane, kh, a.q);
    SentBefore(lane, kh, i);
  }

  /** Every result of the lane, on its way or delivered, is the answer owed. */
  ghost predicate GoodTask(t: Task, lane: Lane, ans: QueryId -> int) {
    t.Response? && t.callback.Some? && t.callback.value in lane ==> t.result == ans(t.callback.value)
  }

  ghost predicate GoodEntry(x: Entry, lane: Lane, ans: QueryId -> int) {
    x.Called? && x.callback.Some? && x.callback.value in lane ==> x.result == ans(x.callback.value)
  }

  ghost predicate Good(s: State, lane: Lane, ans: QueryId -> int) {
    && (forall e, i :: 0 <= e < |s.execs| && 0 <= i < |s.execs[e].work| ==> GoodTask(s.execs[e].work[i], lane, ans))
    && (forall e, i :: 0 <= e < |s.execs| && 0 <= i < |s.execs[e].back| ==> GoodTask(s.execs[e].back[i], lane, ans))
    && (forall i :: 0 <= i < |s.log| ==> GoodEntry(s.log[i], lane, ans))
  }

  /** A response of the lane is dropped only when its lifetime has expired, and no result is abandoned. */
  ghost predicate FairEntry(s: State, x: Entry, lane: Lane) {
    match x
    case Dropped(Some(q)) => q in lane ==> q < |s.queries| && Lifetimes.Expired(s.lives, s.queries[q].weak)
    case Abandoned(q) => q !in lane
    case _ => true
  }

  ghost predicate Fair(s: State, lane: Lane) {
    forall i :: 0 <= i < |s.log| ==> FairEntry(s, s.log[i], lane)
  }

  lemma {:induction false} NewEntriesFair(s: State, a: Action, lane: Lane)
    requires Fits(s) && Can(s, a) && Prompt(s, a, lane)
    requires forall x: nat :: x in lane && x < |s.queries| ==> !s.queries[x].direct
    ensures var t := Next(s, a);
      s.log <= t.log && forall i :: |s.log| <= i < |t.log| ==> FairEntry(t, t.log[i], lane)
  {
    match a
    case StartTask(e) => assert TaskFits(s.home, s.queries, e, s.execs[e].back[s.execs[e].next]);
    case ReplyTo(q, _, _) => assert ResultFits(s.home, s.queries, q, s.held[q]);
    case Discard(q) => assert ResultFits(s.home, s.queries, q, s.held[q]);
    case _ =>
  }

  lemma {:induction false} OldEntryStaysFair(s: State, a: Action, lane: Lane, x: Entry)
    requires Fits(s) && Can(s, a) && FairEntry(s, x, lane)
    ensures FairEntry(Next(s, a), x, lane)
  {
    QueriesGrow(s, a);
    if x.Dropped? && x.callback.Some? && x.callback.value in lane && a.Life? {
      Lifetimes.DoKeeps(s.lives, a.op, s.queries[x.callback.value].weak);
    }
  }

  lemma {:induction false} NextKeepsFair(s: State, a: Action, lane: Lane)
    requires Fits(s) && Can(s, a) && Prompt(s, a, lane) && Fair(s, lane)
    requires forall x: nat :: x in lane && x < |s.queries| ==> !s.queries[x].direct
    ensures Fair(Next(s, a), lane)
  {
    var t := Next(s, a);
    NewEntriesFair(s, a, lane);
    forall i | 0 <= i < |t.log| ensures FairEntry(t, t.log[i], lane) {
      if i < |s.log| {
        assert t.log[i] == s.log[i];
        OldEntryStaysFair(s, a, lane, s.log[i]);
      }
    }
  }

  lemma {:induction false} StartKeepsGood(s: State, e: ExecId, lane: Lane, ans: QueryId -> int)
    requires Fits(s) && Can(s, StartTask(e)) && Good(s, lane, ans)
    ensures Good(Next(s, StartTask(e)), lane, ans)
  {
    assert TaskFits(s.home, s.queries, e, s.execs[e].back[s.execs[e].next]);
    assert GoodTask(s.execs[e].back[s.execs[e].next], lane, ans);
  }

  lemma {:induction false} ReplyKeepsGood(s: State, q: QueryId, v: int, at: ExecId, lane: Lane, ans: QueryId -> int)
    requires Fits(s) && Can(s, ReplyTo(q, v, at)) && Good(s, lane, ans)
    requires forall x: nat :: x in lane && x < |s.queries| ==> !s.queries[x].direct
    requires q in lane && IsAt(s, q, WithHandler) ==> v == ans(q)
    ensures Good(Next(s, ReplyTo(q, v, at)), lane, ans)
  {
    assert ResultFits(s.home, s.queries, q, s.held[q]);
  }

  lemma {:induction false} OtherKeepsGood(s: State, a: Action, lane: Lane, ans: QueryId -> int)
    requires Fits(s) && Can(s, a) && Good(s, lane, ans)
    requires !a.StartTask? && !a.ReplyTo?
    ensures Good(Next(s, a), lane, ans)
  {
    var t := Next(s, a);
    forall i | 0 <= i < |t.log| ensures GoodEntry(t.log[i], lane, ans) {
      if i < |s.log| {
        assert t.log[i] == s.log[i];
      }
    }
  }

  lemma {:induction false} NextKeepsGood(s: State, a: Action, lane: Lane, ans: QueryId -> int)
    requires Fits(s) && Can(s, a) && Good(s, lane, ans)
    requires forall x: nat :: x in lane && x < |s.queries| ==> !s.queries[x].direct
    requires a.ReplyTo? && a.q in lane && IsAt(s, a.q, WithHandler) ==> a.v == ans(a.q)
    ensures Good(Next(s, a), lane, ans)
  {
    match a
    case StartTask(e) => StartKeepsGood(s, e, lane, ans);
    case ReplyTo(q, v, at) => ReplyKeepsGood(s, q, v, at, lane, ans);
    case _ => OtherKeepsGood(s, a, lane, ans);
  }

  ghost predicate IsRunOf<H>(trace: seq<State>, acts: seq<Action>, lane: Lane, f: Handler<H>, h: H) {
    IsPromptRun(trace, acts, lane) && forall i :: 0 <= i < |acts| ==> RepliesBy(trace[i], acts[i], lane, f, h)
  }

  lemma {:induction false} NextKeepsProgress(s: State, a: Action, w: map<QueryId, Place>, lane: Lane, r: ExecId,
          d: ExecId, kh: nat, ks: nat)
    returns (kh': nat, ks': nat)
    requires Fits(s) && Placed(s, w) && Can(s, a) && Prompt(s, a, lane) && Piped(s, w, lane, r)
    requires Joins(s, lane, r, d) && Joins(Next(s, a), lane, r, d) && Progress(s, w, lane, kh, ks)
    ensures Progress(Next(s, a), PlacesAfter(s, a, w), lane, kh', ks')
  {
    if a.StartTask? {
      kh', ks' := StartAnyProgress(s, a.e, w, lane, r, d, kh, ks);
    } else {
      QuietKeepsProgress(s, a, w, lane, r, d, kh, ks);
      kh', ks' := kh, ks;
    }
  }

  lemma {:induction false} StartAnyProgress(s: State, e: ExecId, w: map<QueryId, Place>, lane: Lane, r: ExecId,
          d: ExecId, kh: nat, ks: nat)
    returns (kh': nat, ks': nat)
    requires Fits(s) && Placed(s, w) && Can(s, StartTask(e)) && Piped(s, w, lane, r)
    requires Joins(s, lane, r, d) && Progress(s, w, lane, kh, ks)
    ensures Progress(Next(s, StartTask(e)), PlacesAfter(s, StartTask(e), w), lane, kh', ks')
  {
    var task, t := s.execs[e].back[s.execs[e].next], Next(s, StartTask(e));
    assert TaskFits(s.home, s.queries, e, task);
    if q :| q in lane && Carries(task, q) {
      kh', ks' := StartKeepsProgress(s, e, q, w, lane, r, d, kh, ks);
    } else {
      kh', ks' := kh, ks;
      StartOutsideLane(s, e, w, lane);
    }
  }

  lemma {:induction false} StartOutsideLane(s: State, e: ExecId, w: map<QueryId, Place>, lane: Lane)
    requires Placed(s, w) && Can(s, StartTask(e))
    requires forall q :: q in lane ==> !Carries(s.execs[e].back[s.execs[e].next], q)
    ensures var t, w' := Next(s, StartTask(e)), PlacesAfter(s, StartTask(e), w);
      && t.queries == s.queries
      && FlatMap(t.log, HandledIn(lane)) == FlatMap(s.log, HandledIn(lane))
      && FlatMap(t.log, SettledIn(lane)) == FlatMap(s.log, SettledIn(lane))
      && forall q :: q in lane ==> (q in w' <==> q in w) && (q in w ==> RankIn(t, w'[q]) == RankIn(s, w[q]))
  {
    var t := Next(s, StartTask(e));
    forall q | q in w && q in lane ensures RankIn(t, w[q]) == RankIn(s, w[q]) {
      assert IsAt(s, q, w[q]);
      RankStays(s, StartTask(e), q, w[q]);
    }
    LogKeepsProgress(s.log, t.log, lane);
  }

  lemma {:induction false} RunProgress(trace: seq<State>, acts: seq<Action>, lane: Lane, r: ExecId, d: ExecId)
    returns (w: map<QueryId, Place>, kh: nat, ks: nat)
    requires IsPromptRun(trace, acts, lane) && Joins(trace[|acts|], lane, r, d)
    ensures var s := trace[|acts|];
      Fits(s) && Placed(s, w) && Piped(s, w, lane, r) && Progress(s, w, lane, kh, ks) && Fair(s, lane)
    decreases |acts|
  {
    if acts == [] {
      InitialPlaced(trace[0]);
      w, kh, ks := map[], 0, 0;
    } else {
      var n := |acts| - 1;
      QueriesGrow(trace[n], acts[n]);
      JoinsBefore(trace[n], trace[n + 1], lane, r, d);
      w, kh, ks := RunProgress(trace[..n + 1], acts[..n], lane, r, d);
      NextKeepsFits(trace[n], acts[n]);
      NextKeepsPlaced(trace[n], acts[n], w);
      NextKeepsOrder(trace[n], acts[n], w, lane, r, d);
      NextKeepsFair(trace[n], acts[n], lane);
      kh, ks := NextKeepsProgress(trace[n], acts[n], w, lane, r, d, kh, ks);
      w := PlacesAfter(trace[n], acts[n], w);
    }
  }

  lemma {:induction false} RunGood<H>(trace: seq<State>, acts: seq<Action>, queries: seq<Query>, lane: Lane,
          r: ExecId, d: ExecId, f: Handler<H>, h: H, ans: QueryId -> int)
    requires IsRunOf(trace, acts, lane, f, h) && Joins(trace[|acts|], lane, r, d)
    requires trace[|acts|].queries <= queries
    requires forall q: nat :: q < |queries| ==> ans(q) == Answer(f, h, queries, lane, q)
    ensures Good(trace[|acts|], lane, ans)
    decreases |acts|
  {
    if acts != [] {
      var n := |acts| - 1;
      QueriesGrow(trace[n], acts[n]);
      JoinsBefore(trace[n], trace[n + 1], lane, r, d);
      RunGood(trace[..n + 1], acts[..n], queries, lane, r, d, f, h, ans);
      var w, kh, ks := RunProgress(trace[..n + 1], acts[..n], lane, r, d);
      StepOfRun(trace[n], acts[n], w, lane, kh, ks, queries, f, h, ans);
    }
  }

  lemma {:induction false} StepOfRun<H>(s: State, a: Action, w: map<QueryId, Place>, lane: Lane, kh: nat,
          ks: nat, queries: seq<Query>, f: Handler<H>, h: H, ans: QueryId -> int)
    requires Fits(s) && Placed(s, w) && Can(s, a) && Progress(s, w, lane, kh, ks) && Good(s, lane, ans)
    requires forall x: nat :: x in lane && x < |s.queries| ==> !s.queries[x].direct
    requires RepliesBy(s, a, lane, f, h)
    requires s.queries <= queries && forall q: nat :: q < |queries| ==> ans(q) == Answer(f, h, queries, lane, q)
    ensures Good(Next(s, a), lane, ans)
  {
    if a.ReplyTo? && a.q in lane && IsAt(s, a.q, WithHandler) {
      assert IsQueued(s, a.q) by {
        assert ResultFits(s.home, s.queries, a.q, s.held[a.q]);
      }
      ReplyIsAnswer(s, a, w, lane, kh, ks, f, h);
      AnswerOfPrefix(f, h, s.queries, queries, lane, a.q);
    }
    NextKeepsGood(s, a, lane, ans);
  }

  /** Nothing is waiting and nothing is running. */
  ghost predicate Quiet(s: State) {
    forall e :: 0 <= e < |s.execs| ==> s.execs[e].phase == Idle && s.execs[e].work == []
  }

  /** Once everything is quiet, every query of the lane has been handled and settled. */
  lemma {:induction false} QuietIsDone(s: State, w: map<QueryId, Place>, lane: Lane, r: ExecId, d: ExecId,
          kh: nat, ks: nat)
    requires Fits(s) && Placed(s, w) && Piped(s, w, lane, r) && Progress(s, w, lane, kh, ks) && Quiet(s)
    requires Joins(s, lane, r, d)
    ensures Sent(lane, kh) == Sent(lane, |s.queries|) == Sent(lane, ks)
  {
    forall q: nat | q in lane && q < |s.queries| ensures q < ks && q < kh {
      assert IsQueued(s, q) && IsAt(s, q, w[q]);
      assert w[q] != WithHandler;
      assert RankIn(s, w[q]).stage == 0;
    }
    SentGap(lane, kh, |s.queries|);
    SentGap(lane, ks, |s.queries|);
  }

  function CalledIn(lane: Lane): Entry -> seq<QueryId> {
    (x: Entry) => match x case Called(Some(q), _, _) => (if q in lane then [q] else []) case _ => []
  }

  lemma {:induction false} CalledAreSettled(log: seq<Entry>, lane: Lane)
    requires forall i :: 0 <= i < |log| ==>
      match log[i] case Dropped(Some(q)) => q !in lane case Abandoned(q) => q !in lane case _ => true
    ensures FlatMap(log, CalledIn(lane)) == FlatMap(log, SettledIn(lane))
  {
    if log != [] {
      CalledAreSettled(log[1..], lane);
    }
  }

  /** End-to-end order. In every reachable state the queries of a lane that are settled are the first k sent,
      settled in that order, whatever other threads and queries do in between; all of them once everything is
      quiet. Where no lifetime of the lane has expired they are settled by running their callbacks. */
  lemma {:induction false} CallbacksInSendOrder(trace: seq<State>, acts: seq<Action>, lane: Lane, r: ExecId,
          d: ExecId) returns (k: nat)
    requires IsPromptRun(trace, acts, lane) && Joins(trace[|acts|], lane, r, d)
    ensures var s := trace[|acts|];
      && k <= |s.queries| && FlatMap(s.log, SettledIn(lane)) == Sent(lane, k)
      && (Quiet(s) ==> Sent(lane, k) == Sent(lane, |s.queries|))
      && ((forall q: nat :: q in lane && q < |s.queries| ==> !Lifetimes.Expired(s.lives, s.queries[q].weak))
            ==> FlatMap(s.log, CalledIn(lane)) == Sent(lane, k))
  {
    var s := trace[|acts|];
    var w, kh, ks := RunProgress(trace, acts, lane, r, d);
    k := ks;
    if Quiet(s) {
      QuietIsDone(s, w, lane, r, d, kh, ks);
    }
    if forall q: nat :: q in lane && q < |s.queries| ==> !Lifetimes.Expired(s.lives, s.queries[q].weak) {
      forall i | 0 <= i < |s.log|
        ensures match s.log[i] case Dropped(Some(q)) => q !in lane case Abandoned(q) => q !in lane case _ => true
      {
        assert FairEntry(s, s.log[i], lane);
      }
      CalledAreSettled(s.log, lane);
    }
  }

  function AnswerTo(queries: seq<Query>, c: CompId, ans: QueryId -> int): QueryId -> seq<int> {
    (q: QueryId) => if q < |queries| && queries[q].sender == c then [ans(q)] else []
  }

  function ArgOf(queries: seq<Query>): QueryId -> seq<int> {
    (q: QueryId) => [CallOf(queries, q).arg]
  }

  lemma {:induction false} ResultsFollow(log: seq<Entry>, lane: Lane, queries: seq<Query>, c: CompId,
          ans: QueryId -> int)
    requires forall i :: 0 <= i < |log| ==>
      match log[i]
      case Called(Some(q), _, v) => q in lane ==> v == ans(q)
      case Dropped(Some(q)) => q !in lane
      case Abandoned(q) => q !in lane
      case _ => true
    ensures FlatMap(log, ResultsSeen(lane, queries, c))
         == FlatMap(FlatMap(log, SettledIn(lane)), AnswerTo(queries, c, ans))
  {
    if log != [] {
      ResultsFollow(log[1..], lane, queries, c, ans);
      FlatMapConcat(SettledIn(lane)(log[0]), FlatMap(log[1..], SettledIn(lane)), AnswerTo(queries, c, ans));
      if SettledIn(lane)(log[0]) != [] {
        FlatMapOne(SettledIn(lane)(log[0])[0], AnswerTo(queries, c, ans));
      }
    }
  }

  lemma {:induction false} ArgsFollow(log: seq<Entry>, lane: Lane, queries: seq<Query>)
    requires forall i :: 0 <= i < |log| && log[i].Handled? && log[i].q in lane ==>
      log[i].arg == CallOf(queries, log[i].q).arg
    ensures FlatMap(log, ArgsSeen(lane)) == FlatMap(FlatMap(log, HandledIn(lane)), ArgOf(queries))
  {
    if log != [] {
      ArgsFollow(log[1..], lane, queries);
      FlatMapConcat(HandledIn(lane)(log[0]), FlatMap(log[1..], HandledIn(lane)), ArgOf(queries));
      if HandledIn(lane)(log[0]) != [] {
        FlatMapOne(HandledIn(lane)(log[0])[0], ArgOf(queries));
      }
    }
  }

  lemma {:induction false} RepliesAppend<H>(f: Handler<H>, h: H, before: seq<Call>, last: Call, c: CompId)
    ensures Replies(f, h, before + [last], c)
         == Replies(f, h, before, c) + if last.sender == c then [Reply1(f, h, before, last.arg)] else []
    ensures Args(before + [last]) == Args(before) + [last.arg]
  {
    assert (before + [last])[..|before|] == before;
  }

  lemma {:induction false} CallsAppend(queries: seq<Query>, before: seq<QueryId>, q: QueryId)
    ensures CallsOf(queries, before + [q]) == CallsOf(queries, before) + [CallOf(queries, q)]
  {
  }

  lemma {:induction false} SentStep(lane: Lane, q: QueryId)
    ensures Sent(lane, q + 1) == if q in lane then Sent(lane, q) + [q] else Sent(lane, q)
  {
    assert Sent(lane, q) + [] == Sent(lane, q);
  }

  /** One more query of the lane: its answer is the next reply to its sender. */
  lemma {:induction false} AnswerIsNext<H>(f: Handler<H>, h: H, queries: seq<Query>, lane: Lane, q: QueryId,
          c: CompId, ans: QueryId -> int)
    requires q < |queries| && ans(q) == Answer(f, h, queries, lane, q)
    ensures var qs := Sent(lane, q);
      Replies(f, h, CallsOf(queries, qs + [q]), c)
        == Replies(f, h, CallsOf(queries, qs), c) + AnswerTo(queries, c, ans)(q)
  {
    CallsAppend(queries, Sent(lane, q), q);
    RepliesAppend(f, h, CallsOf(queries, Sent(lane, q)), CallOf(queries, q), c);
  }

  lemma {:induction false} AnswerStep<H>(f: Handler<H>, h: H, queries: seq<Query>, lane: Lane, q: QueryId,
          c: CompId, ans: QueryId -> int)
    requires q < |queries| && ans(q) == Answer(f, h, queries, lane, q)
    requires FlatMap(Sent(lane, q), AnswerTo(queries, c, ans)) == Replies(f, h, CallsOf(queries, Sent(lane, q)), c)
    ensures FlatMap(Sent(lane, q) + [q], AnswerTo(queries, c, ans))
         == Replies(f, h, CallsOf(queries, Sent(lane, q) + [q]), c)
  {
    FlatMapAppend(Sent(lane, q), q, AnswerTo(queries, c, ans));
    AnswerIsNext(f, h, queries, lane, q, c, ans);
  }

  lemma {:induction false} AnswersAreReplies<H>(f: Handler<H>, h: H, queries: seq<Query>, lane: Lane, n: nat,
          c: CompId, ans: QueryId -> int)
    requires n <= |queries| && forall q: nat :: q < |queries| ==> ans(q) == Answer(f, h, queries, lane, q)
    ensures FlatMap(Sent(lane, n), AnswerTo(queries, c, ans)) == Replies(f, h, CallsOf(queries, Sent(lane, n)), c)
  {
    if n != 0 {
      var q: QueryId := n - 1;
      AnswersAreReplies(f, h, queries, lane, q, c, ans);
      SentStep(lane, q);
      if q in lane {
        AnswerStep(f, h, queries, lane, q, c, ans);
      }
    }
  }

  lemma {:induction false} ArgIsNext(queries: seq<Query>, qs: seq<QueryId>, q: QueryId)
    ensures Args(CallsOf(queries, qs + [q])) == Args(CallsOf(queries, qs)) + ArgOf(queries)(q)
  {
    CallsAppend(queries, qs, q);
    var calls := CallsOf(queries, qs);
    assert (calls + [CallOf(queries, q)])[..|calls|] == calls;
  }

  lemma {:induction false} ArgsOfCalls(queries: seq<Query>, lane: Lane, n: nat)
    requires n <= |queries|
    ensures FlatMap(Sent(lane, n), ArgOf(queries)) == Args(CallsOf(queries, Sent(lane, n)))
  {
    if n != 0 {
      var q: QueryId := n - 1;
      ArgsOfCalls(queries, lane, q);
      SentStep(lane, q);
      if q in lane {
        FlatMapAppend(Sent(lane, q), q, ArgOf(queries));
        ArgIsNext(queries, Sent(lane, q), q);
      }
    }
  }

  /** The queued path: run until everything is quiet, with no lifetime of the lane expired, the handler has
      seen the calls in the order they were sent and every sender has received the reference replies. */
  lemma {:induction false} QueuedMeaning<H>(trace: seq<State>, acts: seq<Action>, lane: Lane, r: ExecId,
          d: ExecId, f: Handler<H>, h: H, c: CompId)
    requires IsRunOf(trace, acts, lane, f, h) && Joins(trace[|acts|], lane, r, d) && Quiet(trace[|acts|])
    requires forall q: nat :: q in lane && q < |trace[|acts|].queries| ==>
      !Lifetimes.Expired(trace[|acts|].lives, trace[|acts|].queries[q].weak)
    ensures var s := trace[|acts|];
      var calls := CallsOf(s.queries, Sent(lane, |s.queries|));
      && FlatMap(s.log, ArgsSeen(lane)) == Args(calls)
      && FlatMap(s.log, ResultsSeen(lane, s.queries, c)) == Replies(f, h, calls, c)
  {
    var s := trace[|acts|];
    var ans := (q: QueryId) => Answer(f, h, s.queries, lane, q);
    var w, kh, ks := RunProgress(trace, acts, lane, r, d);
    RunGood(trace, acts, s.queries, lane, r, d, f, h, ans);
    QuietIsDone(s, w, lane, r, d, kh, ks);
    MeaningOfLog(s, lane, c, ans);
    AnswersAreReplies(f, h, s.queries, lane, |s.queries|, c, ans);
    ArgsOfCalls(s.queries, lane, |s.queries|);
  }

  lemma {:induction false} MeaningOfLog(s: State, lane: Lane, c: CompId, ans: QueryId -> int)
    requires Fits(s) && Good(s, lane, ans) && Fair(s, lane)
    requires forall q: nat :: q in lane && q < |s.queries| ==> !Lifetimes.Expired(s.lives, s.queries[q].weak)
    ensures FlatMap(s.log, ResultsSeen(lane, s.queries, c))
         == FlatMap(FlatMap(s.log, SettledIn(lane)), AnswerTo(s.queries, c, ans))
    ensures FlatMap(s.log, ArgsSeen(lane)) == FlatMap(FlatMap(s.log, HandledIn(lane)), ArgOf(s.queries))
  {
    forall i | 0 <= i < |s.log|
      ensures match s.log[i]
        case Called(Some(q), _, v) => q in lane ==> v == ans(q)
        case Dropped(Some(q)) => q !in lane
        case Abandoned(q) => q !in lane
        case _ => true
    {
      assert GoodEntry(s.log[i], lane, ans) && FairEntry(s, s.log[i], lane);
    }
    ResultsFollow(s.log, lane, s.queries, c, ans);
    forall i | 0 <= i < |s.log| && s.log[i].Handled? && s.log[i].q in lane
      ensures s.log[i].arg == CallOf(s.queries, s.log[i].q).arg
    {
      assert EntryFits(s.home, s.queries, s.log[i]);
    }
    ArgsFollow(s.log, lane, s.queries);
  }
}
