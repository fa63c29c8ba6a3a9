/**
 * Order on the queued path. A lane is a set of queries whose senders share one executor and whose
 * handlers share another; its queries travel through the two queues as through one pipeline.
 */
module Ordering {
  import opened Common
  import opened Executor
  import opened CallbackResults
  import opened Protocol

  type Lane = set<QueryId>

  /** The lane's queries are all queued, run on r, and are answered to d. */
  ghost predicate Joins(s: State, lane: Lane, r: ExecId, d: ExecId) {
    && r < |s.execs| && d < |s.execs|
    && forall q: nat :: q in lane && q < |s.queries| ==>
         && !s.queries[q].direct && s.queries[q].recvExec == r
         && s.queries[q].sender < |s.home| && s.home[s.queries[q].sender] == d
  }

  /** The executor r is running the request of q. */
  predicate IsRunning(s: State, r: ExecId, q: QueryId) {
    && r < |s.execs| && s.execs[r].phase == InTask && 0 < s.execs[r].next <= |s.execs[r].back|
    && s.execs[r].back[s.execs[r].next - 1].Request? && s.execs[r].back[s.execs[r].next - 1].q == q
  }

  /** No handler of the lane returns with its result unused. */
  ghost predicate Answers(s: State, a: Action, lane: Lane) {
    a.EndTask? ==> forall q :: q in lane && IsRunning(s, a.e, q) ==> !IsAt(s, q, WithHandler)
  }

  /** The handlers of the lane reply before they return, and do not throw their result away. Others may
      reply late, repeatedly or never. */
  ghost predicate Prompt(s: State, a: Action, lane: Lane) {
    && Answers(s, a, lane)
    && (a.Discard? && a.q in lane && Tracked(s, a.q) ==> !IsAt(s, a.q, WithHandler))
  }

  /** How far a query at p still has to go: settled ones first, then responses, the one with its handler,
      and requests; within a queue the back buffer comes before the work items. */
  datatype Rank = Rank(stage: nat, area: nat, index: nat)

  function RankOf(p: Place, isRequest: bool): Rank {
    match p
    case Settled(i) => Rank(0, 0, i)
    case InBack(_, i) => Rank(if isRequest then 3 else 1, 0, i)
    case InWork(_, i) => Rank(if isRequest then 3 else 1, 1, i)
    case WithHandler => Rank(2, 0, 0)
  }

  predicate Less(a: Rank, b: Rank) {
    a.stage < b.stage || (a.stage == b.stage && (a.area < b.area || (a.area == b.area && a.index < b.index)))
  }

  function RankIn(s: State, p: Place): Rank { RankOf(p, RequestAt(s, p)) }

  function Ranks(s: State, w: map<QueryId, Place>): map<QueryId, Rank> {
    map q | q in w :: RankIn(s, w[q])
  }

  /** Of two queries of the lane, the one sent first is further on. */
  ghost predicate Sorted(m: map<QueryId, Rank>, lane: Lane) {
    forall q, x :: q in lane && x in lane && q in m && x in m && q < x ==> Less(m[q], m[x])
  }

  /** A lane's query that is with its handler is what its receiver's executor is running. */
  ghost predicate HandlersRunning(s: State, w: map<QueryId, Place>, lane: Lane, r: ExecId) {
    forall q :: q in lane && q in w && w[q] == WithHandler ==> IsRunning(s, r, q)
  }

  ghost predicate Piped(s: State, w: map<QueryId, Place>, lane: Lane, r: ExecId) {
    Sorted(Ranks(s, w), lane) && HandlersRunning(s, w, lane, r)
  }

  /** What a query's place says about the executor it is at. */
  lemma {:induction false} PlaceInLane(s: State, q: QueryId, p: Place, lane: Lane, r: ExecId, d: ExecId)
    requires Fits(s) && Joins(s, lane, r, d) && q in lane && q < |s.queries| && IsAt(s, q, p)
    ensures p.InWork? || p.InBack? ==> p.e == if RequestAt(s, p) then r else d
  {
    match p
    case InWork(e, i) => assert TaskFits(s.home, s.queries, e, s.execs[e].work[i]);
    case InBack(e, i) => assert TaskFits(s.home, s.queries, e, s.execs[e].back[i]);
    case _ =>
  }

  // ---------- Sortedness under the ways ranks change ----------

  lemma {:induction false} SortedAfterAdding(m: map<QueryId, Rank>, lane: Lane, q0: QueryId, r: Rank)
    requires Sorted(m, lane)
    requires forall q :: q in m && q in lane ==> q < q0 && Less(m[q], r)
    ensures Sorted(m[q0 := r], lane)
  {
  }

  lemma {:induction false} SortedAfterMove(m: map<QueryId, Rank>, lane: Lane, q0: QueryId, r: Rank)
    requires Sorted(m, lane) && q0 in m && Less(r, m[q0])
    requires forall q :: q in m && q in lane && q < q0 ==> Less(m[q], r)
    ensures Sorted(m[q0 := r], lane)
  {
  }

  /** A swap turns work items of one stage into back buffer entries. */
  lemma {:induction false} SortedAfterSwap(m: map<QueryId, Rank>, n: map<QueryId, Rank>, lane: Lane, stages: set<nat>)
    requires Sorted(m, lane) && m.Keys == n.Keys
    requires forall q :: q in m && q in lane ==>
      if m[q].stage in stages then m[q].area == 1 && n[q] == m[q].(area := 0) else n[q] == m[q]
    ensures Sorted(n, lane)
  {
  }

  // ---------- What each action does to the ranks ----------

  lemma {:induction false} RankStays(s: State, a: Action, q: QueryId, p: Place)
    requires Can(s, a) && IsAt(s, q, p) && !a.SwapIn?
    requires a.StartTask? ==> p != InBack(a.e, s.execs[a.e].next)
    ensures RankIn(Next(s, a), p) == RankIn(s, p)
  {
  }

  lemma {:induction false} RanksStay(s: State, a: Action, w: map<QueryId, Place>)
    requires Placed(s, w) && Can(s, a) && !a.SwapIn?
    requires a.StartTask? ==> forall q :: q in w ==> w[q] != InBack(a.e, s.execs[a.e].next)
    ensures Ranks(Next(s, a), w) == Ranks(s, w)
  {
    forall q | q in w ensures RankIn(Next(s, a), w[q]) == RankIn(s, w[q]) {
      assert IsAt(s, q, w[q]);
      RankStays(s, a, q, w[q]);
    }
  }

  /** Moving one query changes one rank. */
  lemma {:induction false} RanksAfterMove(s: State, a: Action, w: map<QueryId, Place>, q0: QueryId, to: Place)
    requires Placed(s, w) && Can(s, a) && !a.SwapIn? && q0 in w
    requires a.StartTask? ==> forall q :: q in w && q != q0 ==> w[q] != InBack(a.e, s.execs[a.e].next)
    ensures Ranks(Next(s, a), w[q0 := to]) == Ranks(s, w)[q0 := RankIn(Next(s, a), to)]
  {
    forall q | q in w && q != q0 ensures RankIn(Next(s, a), w[q]) == RankIn(s, w[q]) {
      assert IsAt(s, q, w[q]);
      RankStays(s, a, q, w[q]);
    }
  }

  /** The extent of the lane's two queues and of the log. */
  datatype Extent = Extent(rNext: nat, rWork: nat, dNext: nat, dWork: nat, log: nat)

  function ExtentOf(s: State, r: ExecId, d: ExecId): Extent
    requires r < |s.execs| && d < |s.execs|
  {
    Extent(s.execs[r].next, |s.execs[r].work|, s.execs[d].next, |s.execs[d].work|, |s.log|)
  }

  predicate Within(m: Rank, b: Extent) {
    match m.stage
    case 3 => (m.area == 1 && m.index < b.rWork) || (m.area == 0 && b.rNext <= m.index)
    case 2 => m == Rank(2, 0, 0)
    case 1 => (m.area == 1 && m.index < b.dWork) || (m.area == 0 && b.dNext <= m.index)
    case 0 => m.area == 0 && m.index < b.log
    case _ => false
  }

  ghost predicate Bounded(m: map<QueryId, Rank>, lane: Lane, b: Extent, n: nat) {
    forall q :: q in m && q in lane ==> q < n && Within(m[q], b)
  }

  lemma {:induction false} LaneWithin(s: State, w: map<QueryId, Place>, lane: Lane, r: ExecId, d: ExecId)
    requires Fits(s) && Placed(s, w) && Joins(s, lane, r, d)
    ensures Bounded(Ranks(s, w), lane, ExtentOf(s, r, d), |s.queries|)
  {
    forall q | q in w && q in lane
      ensures q < |s.queries| && Within(Ranks(s, w)[q], ExtentOf(s, r, d))
    {
      assert IsAt(s, q, w[q]) && IsQueued(s, q);
      PlaceInLane(s, q, w[q], lane, r, d);
    }
  }

  /** The moves a query of the lane makes, each from the front of one stage to the end of the one before. */
  lemma {:induction false} SortedAfterStep(m: map<QueryId, Rank>, lane: Lane, q0: QueryId, to: Rank, b: Extent, n: nat)
    requires Sorted(m, lane) && q0 in m && q0 in lane
    requires Bounded(m, lane, b, n)
    requires (m[q0], to) in {(Rank(3, 0, b.rNext), Rank(2, 0, 0)), (Rank(2, 0, 0), Rank(1, 1, b.dWork)),
                             (Rank(1, 0, b.dNext), Rank(0, 0, b.log))}
    requires to.stage == 2 ==> forall q :: q in m && q in lane ==> m[q].stage != 2
    ensures Sorted(m[q0 := to], lane)
  {
    forall q | q in m && q in lane && q < q0 ensures Less(m[q], to) {
      assert Less(m[q], m[q0]);
    }
    SortedAfterMove(m, lane, q0, to);
  }

  lemma {:induction false} RunningStays(s: State, a: Action, r: ExecId, q: QueryId)
    requires Can(s, a) && IsRunning(s, r, q) && (a.EndTask? ==> a.e != r)
    ensures IsRunning(Next(s, a), r, q)
  {
  }

  /** Handlers keep running, and the one whose task ends has replied. */
  lemma {:induction false} HandlersKeepRunning(s: State, a: Action, w: map<QueryId, Place>, lane: Lane, r: ExecId)
    requires Placed(s, w) && Can(s, a) && HandlersRunning(s, w, lane, r) && Prompt(s, a, lane)
    ensures HandlersRunning(Next(s, a), w, lane, r)
  {
    forall q | q in lane && q in w && w[q] == WithHandler ensures IsRunning(Next(s, a), r, q) {
      assert IsAt(s, q, WithHandler);
      RunningStays(s, a, r, q);
    }
  }

  lemma {:induction false} SendKeepsOrder(s: State, x: Query, at: ExecId, w: map<QueryId, Place>, lane: Lane,
          r: ExecId, d: ExecId)
    requires Placed(s, w) && Can(s, Send(x, at)) && Sorted(Ranks(s, w), lane) && r < |s.execs| && d < |s.execs|
    requires Bounded(Ranks(s, w), lane, ExtentOf(s, r, d), |s.queries|)
    requires |s.queries| in lane ==> x.recvExec == r
    ensures Sorted(Ranks(Next(s, Send(x, at)), PlacesAfter(s, Send(x, at), w)), lane)
  {
    var a, q0 := Send(x, at), |s.queries|;
    RanksStay(s, a, w);
    if !x.direct {
      RanksAfterSend(s, x, at, w);
      if q0 in lane {
        SortedAfterAdding(Ranks(s, w), lane, q0, Rank(3, 1, |s.execs[x.recvExec].work|));
      }
    }
  }

  lemma {:induction false} RanksAfterSend(s: State, x: Query, at: ExecId, w: map<QueryId, Place>)
    requires Placed(s, w) && Can(s, Send(x, at)) && !x.direct && Ranks(Next(s, Send(x, at)), w) == Ranks(s, w)
    ensures var a := Send(x, at);
      Ranks(Next(s, a), PlacesAfter(s, a, w)) == Ranks(s, w)[|s.queries| := Rank(3, 1, |s.execs[x.recvExec].work|)]
  {
    var a, n := Send(x, at), |s.execs[x.recvExec].work|;
    SentRank(s, x, at);
    assert PlacesAfter(s, a, w) == w[|s.queries| := InWork(x.recvExec, n)];
    forall q | q in w ensures RankIn(Next(s, a), w[q]) == RankIn(s, w[q]) {
      assert Ranks(Next(s, a), w)[q] == Ranks(s, w)[q];
    }
  }

  lemma {:induction false} SentRank(s: State, x: Query, at: ExecId)
    requires Can(s, Send(x, at)) && !x.direct
    ensures var n := |s.execs[x.recvExec].work|;
      RankIn(Next(s, Send(x, at)), InWork(x.recvExec, n)) == Rank(3, 1, n)
  {
  }

  lemma {:induction false} SwappedRank(s: State, e: ExecId, q: QueryId, p: Place)
    requires Can(s, SwapIn(e)) && s.execs[e].Valid() && IsAt(s, q, p)
    ensures !(p.InBack? && p.e == e)
    ensures RankIn(Next(s, SwapIn(e)), if p.InWork? && p.e == e then InBack(e, p.i) else p)
         == if p.InWork? && p.e == e then RankIn(s, p).(area := 0) else RankIn(s, p)
  {
  }

  function StagesAt(e: ExecId, r: ExecId, d: ExecId): set<nat> {
    (if e == r then {3} else {}) + (if e == d then {1} else {})
  }

  lemma {:induction false} SwapKeepsOrder(s: State, e: ExecId, w: map<QueryId, Place>, lane: Lane, r: ExecId, d: ExecId)
    requires Fits(s) && Placed(s, w) && Can(s, SwapIn(e)) && Sorted(Ranks(s, w), lane) && Joins(s, lane, r, d)
    ensures Sorted(Ranks(Next(s, SwapIn(e)), MovedBySwap(w, e)), lane)
  {
    forall q | q in w && q in lane
      ensures var m, n := Ranks(s, w)[q], Ranks(Next(s, SwapIn(e)), MovedBySwap(w, e))[q];
        if m.stage in StagesAt(e, r, d) then m.area == 1 && n == m.(area := 0) else n == m
    {
      assert IsAt(s, q, w[q]) && IsQueued(s, q);
      SwappedInLane(s, e, q, w[q], lane, r, d);
    }
    SortedAfterSwap(Ranks(s, w), Ranks(Next(s, SwapIn(e)), MovedBySwap(w, e)), lane, StagesAt(e, r, d));
  }

  lemma {:induction false} SwappedInLane(s: State, e: ExecId, q: QueryId, p: Place, lane: Lane, r: ExecId, d: ExecId)
    requires Fits(s) && Can(s, SwapIn(e)) && Joins(s, lane, r, d) && q in lane && q < |s.queries| && IsAt(s, q, p)
    ensures var m, n := RankIn(s, p), RankIn(Next(s, SwapIn(e)), if p.InWork? && p.e == e then InBack(e, p.i) else p);
      if m.stage in StagesAt(e, r, d) then m.area == 1 && n == m.(area := 0) else n == m
  {
    PlaceInLane(s, q, p, lane, r, d);
    SwappedRank(s, e, q, p);
  }

  /** The next task is taken from the back buffer: the lane's first request or first response. */
  lemma {:induction false} StartRank(s: State, e: ExecId, q0: QueryId, lane: Lane, r: ExecId, d: ExecId)
    requires Fits(s) && Can(s, StartTask(e)) && Carries(s.execs[e].back[s.execs[e].next], q0)
    requires Joins(s, lane, r, d) && q0 in lane && q0 < |s.queries|
    ensures var b, task := ExtentOf(s, r, d), s.execs[e].back[s.execs[e].next];
      && RankIn(s, InBack(e, s.execs[e].next)) == (if task.Request? then Rank(3, 0, b.rNext) else Rank(1, 0, b.dNext))
      && (task.Request? ==> e == r && IsRunning(Next(s, StartTask(e)), r, q0))
  {
    PlaceInLane(s, q0, InBack(e, s.execs[e].next), lane, r, d);
  }

  lemma {:induction false} StartKeepsOrder(s: State, e: ExecId, q0: QueryId, w: map<QueryId, Place>, lane: Lane,
          r: ExecId, b: Extent)
    requires Placed(s, w) && Can(s, StartTask(e)) && Piped(s, w, lane, r)
    requires q0 in w && w[q0] == InBack(e, s.execs[e].next)
    requires Carries(s.execs[e].back[s.execs[e].next], q0) && b.log == |s.log|
    requires q0 in lane ==> Bounded(Ranks(s, w), lane, b, |s.queries|) && NoHandlerRuns(s, w, lane, e, r)
    requires q0 in lane ==>
      RankIn(s, w[q0])
        == if s.execs[e].back[s.execs[e].next].Request? then Rank(3, 0, b.rNext) else Rank(1, 0, b.dNext)
    requires q0 in lane && s.execs[e].back[s.execs[e].next].Request? ==> e == r
    ensures var to := if s.execs[e].back[s.execs[e].next].Request? then WithHandler else Settled(|s.log|);
      Piped(Next(s, StartTask(e)), w[q0 := to], lane, r)
  {
    var a, from := StartTask(e), InBack(e, s.execs[e].next);
    var to := if s.execs[e].back[s.execs[e].next].Request? then WithHandler else Settled(|s.log|);
    forall q | q in w && q != q0 ensures w[q] != from {
      assert IsAt(s, q, w[q]);
    }
    RanksAfterMove(s, a, w, q0, to);
    HandlersKeepRunning(s, a, w, lane, r);
    StartedRuns(s, e);
    if q0 in lane {
      SortedAfterStep(Ranks(s, w), lane, q0, RankIn(Next(s, a), to), b, |s.queries|);
    }
  }

  /** While its receiver's executor is between two tasks, no query of the lane is with its handler. */
  ghost predicate NoHandlerRuns(s: State, w: map<QueryId, Place>, lane: Lane, e: ExecId, r: ExecId) {
    e == r ==> forall q :: q in w && q in lane ==> RankIn(s, w[q]).stage != 2
  }

  lemma {:induction false} StartedRuns(s: State, e: ExecId)
    requires Can(s, StartTask(e))
    ensures var task := s.execs[e].back[s.execs[e].next];
      task.Request? ==> IsRunning(Next(s, StartTask(e)), e, task.q)
  {
  }

  lemma {:induction false} ReplyKeepsOrder(s: State, q0: QueryId, v: int, at: ExecId, w: map<QueryId, Place>,
          lane: Lane, r: ExecId, d: ExecId)
    requires Placed(s, w) && Can(s, ReplyTo(q0, v, at)) && Piped(s, w, lane, r) && r < |s.execs| && d < |s.execs|
    requires s.held[q0].executor.Some? && s.held[q0].callback.Some? && s.held[q0].executor.value < |s.execs|
    requires q0 in w && w[q0] == WithHandler
    requires q0 in lane ==> s.held[q0].executor.value == d && Bounded(Ranks(s, w), lane, ExtentOf(s, r, d), |s.queries|)
    ensures var e := s.held[q0].executor.value;
      Piped(Next(s, ReplyTo(q0, v, at)), w[q0 := InWork(e, |s.execs[e].work|)], lane, r)
  {
    var a, e := ReplyTo(q0, v, at), s.held[q0].executor.value;
    var to := InWork(e, |s.execs[e].work|);
    RanksAfterMove(s, a, w, q0, to);
    HandlersKeepRunning(s, a, w, lane, r);
    AnswerRank(s, q0, v, at);
    if q0 in lane {
      SortedAfterStep(Ranks(s, w), lane, q0, RankIn(Next(s, a), to), ExtentOf(s, r, d), |s.queries|);
    }
  }

  lemma {:induction false} AnswerRank(s: State, q0: QueryId, v: int, at: ExecId)
    requires Can(s, ReplyTo(q0, v, at)) && s.held[q0].executor.Some? && s.held[q0].executor.value < |s.execs|
    ensures var e := s.held[q0].executor.value;
      RankIn(Next(s, ReplyTo(q0, v, at)), InWork(e, |s.execs[e].work|)) == Rank(1, 1, |s.execs[e].work|)
  {
  }

  lemma {:induction false} NextKeepsOrder(s: State, a: Action, w: map<QueryId, Place>, lane: Lane, r: ExecId, d: ExecId)
    requires Fits(s) && Placed(s, w) && Can(s, a) && Prompt(s, a, lane) && Piped(s, w, lane, r)
    requires Joins(s, lane, r, d) && Joins(Next(s, a), lane, r, d)
    ensures Piped(Next(s, a), PlacesAfter(s, a, w), lane, r)
  {
    match a
    case Send(x, at) =>
      LaneWithin(s, w, lane, r, d);
      assert Next(s, a).queries[|s.queries|] == x;
      SendKeepsOrder(s, x, at, w, lane, r, d);
      HandlersKeepRunning(s, a, w, lane, r);
    case SwapIn(e) =>
      SwapKeepsOrder(s, e, w, lane, r, d);
      HandlersKeepRunning(s, a, w, lane, r);
    case StartTask(e) => StartAny(s, e, w, lane, r, d);
    case ReplyTo(q, v, at) => ReplyAny(s, q, v, at, w, lane, r, d);
    case Discard(q) => DiscardAny(s, q, w, lane, r);
    case _ =>
      RanksStay(s, a, w);
      HandlersKeepRunning(s, a, w, lane, r);
  }

  lemma {:induction false} StartAny(s: State, e: ExecId, w: map<QueryId, Place>, lane: Lane, r: ExecId, d: ExecId)
    requires Fits(s) && Placed(s, w) && Can(s, StartTask(e)) && Piped(s, w, lane, r) && Joins(s, lane, r, d)
    ensures Piped(Next(s, StartTask(e)), PlacesAfter(s, StartTask(e), w), lane, r)
  {
    var task, from := s.execs[e].back[s.execs[e].next], InBack(e, s.execs[e].next);
    assert TaskFits(s.home, s.queries, e, task);
    match task
    case Request(q, _, _, _) => StartCarrying(s, e, q, w, lane, r, d);
    case Response(Some(q), _, _) => StartCarrying(s, e, q, w, lane, r, d);
    case _ =>
      forall q | q in w ensures w[q] != from {
        assert IsAt(s, q, w[q]);
      }
      RanksStay(s, StartTask(e), w);
      HandlersKeepRunning(s, StartTask(e), w, lane, r);
  }

  lemma {:induction false} StartCarrying(s: State, e: ExecId, q: QueryId, w: map<QueryId, Place>, lane: Lane,
          r: ExecId, d: ExecId)
    requires Fits(s) && Placed(s, w) && Can(s, StartTask(e)) && Piped(s, w, lane, r) && Joins(s, lane, r, d)
    requires Carries(s.execs[e].back[s.execs[e].next], q)
    ensures var to := if s.execs[e].back[s.execs[e].next].Request? then WithHandler else Settled(|s.log|);
      Piped(Next(s, StartTask(e)), w[q := to], lane, r)
  {
    assert TaskFits(s.home, s.queries, e, s.execs[e].back[s.execs[e].next]);
    assert IsAt(s, q, InBack(e, s.execs[e].next));
    if q in lane {
      StartRank(s, e, q, lane, r, d);
      LaneWithin(s, w, lane, r, d);
    }
    StartKeepsOrder(s, e, q, w, lane, r, ExtentOf(s, r, d));
  }

  lemma {:induction false} ReplyAny(s: State, q: QueryId, v: int, at: ExecId, w: map<QueryId, Place>,
          lane: Lane, r: ExecId, d: ExecId)
    requires Fits(s) && Placed(s, w) && Can(s, ReplyTo(q, v, at)) && Piped(s, w, lane, r) && Joins(s, lane, r, d)
    ensures Piped(Next(s, ReplyTo(q, v, at)), PlacesAfter(s, ReplyTo(q, v, at), w), lane, r)
  {
    assert ResultFits(s.home, s.queries, q, s.held[q]);
    if s.held[q].executor.Some? && s.held[q].callback.Some? {
      assert IsAt(s, q, WithHandler);
      LaneWithin(s, w, lane, r, d);
      ReplyKeepsOrder(s, q, v, at, w, lane, r, d);
    } else {
      RanksStay(s, ReplyTo(q, v, at), w);
      HandlersKeepRunning(s, ReplyTo(q, v, at), w, lane, r);
    }
  }

  lemma {:induction false} DiscardAny(s: State, q: QueryId, w: map<QueryId, Place>, lane: Lane, r: ExecId)
    requires Fits(s) && Placed(s, w) && Can(s, Discard(q)) && Prompt(s, Discard(q), lane) && Piped(s, w, lane, r)
    ensures Piped(Next(s, Discard(q)), PlacesAfter(s, Discard(q), w), lane, r)
  {
    assert ResultFits(s.home, s.queries, q, s.held[q]);
    if s.held[q].executor.Some? && s.held[q].callback.Some? {
      assert IsAt(s, q, WithHandler) && q !in lane;
      RanksAfterMove(s, Discard(q), w, q, Settled(|s.log|));
    } else {
      RanksStay(s, Discard(q), w);
    }
    HandlersKeepRunning(s, Discard(q), w, lane, r);
  }

  lemma {:induction false} JoinsBefore(s: State, t: State, lane: Lane, r: ExecId, d: ExecId)
    requires Joins(t, lane, r, d)
    requires s.queries <= t.queries && s.home == t.home && |s.execs| == |t.execs|
    ensures Joins(s, lane, r, d)
  {
    forall q: nat | q in lane && q < |s.queries|
      ensures !s.queries[q].direct && s.queries[q].recvExec == r
         && s.queries[q].sender < |s.home| && s.home[s.queries[q].sender] == d
    {
      assert s.queries[q] == t.queries[q];
    }
  }

  lemma {:induction false} QueriesGrow(s: State, a: Action)
    requires Can(s, a)
    ensures s.queries <= Next(s, a).queries && s.home == Next(s, a).home && |s.execs| == |Next(s, a).execs|
  {
  }

  ghost predicate IsPromptRun(trace: seq<State>, acts: seq<Action>, lane: Lane) {
    IsRun(trace, acts) && forall i :: 0 <= i < |acts| ==> Prompt(trace[i], acts[i], lane)
  }

  lemma {:induction false} RunPiped(trace: seq<State>, acts: seq<Action>, lane: Lane, r: ExecId, d: ExecId)
    returns (w: map<QueryId, Place>)
    requires IsPromptRun(trace, acts, lane) && Joins(trace[|acts|], lane, r, d)
    ensures Fits(trace[|acts|]) && Placed(trace[|acts|], w) && Piped(trace[|acts|], w, lane, r)
    decreases |acts|
  {
    if acts == [] {
      InitialPlaced(trace[0]);
      w := map[];
    } else {
      var n := |acts| - 1;
      QueriesGrow(trace[n], acts[n]);
      JoinsBefore(trace[n], trace[n + 1], lane, r, d);
      var before := RunPiped(trace[..n + 1], acts[..n], lane, r, d);
      NextKeepsFits(trace[n], acts[n]);
      NextKeepsPlaced(trace[n], acts[n], before);
      NextKeepsOrder(trace[n], acts[n], before, lane, r, d);
      w := PlacesAfter(trace[n], acts[n], before);
    }
  }

  /** End-to-end order: queries whose senders share an executor and whose handlers share another are
      settled in the order they were sent, under every interleaving with other threads and other queries,
      as long as their own handlers reply before they return. The callbacks that run are therefore a subsequence of
      the sends, and one that is settled has every earlier one of its lane settled before it. */
  lemma {:induction false} SettledInSendOrder(trace: seq<State>, acts: seq<Action>, lane: Lane, r: ExecId,
          d: ExecId, x: QueryId, j: nat)
    requires IsPromptRun(trace, acts, lane) && Joins(trace[|acts|], lane, r, d)
    requires x in lane && x < |trace[|acts|].queries| && j < |trace[|acts|].log| && Settles(trace[|acts|].log[j], x)
    ensures forall q: nat :: q in lane && q < x ==> exists i: nat :: i < j && Settles(trace[|acts|].log[i], q)
  {
    var s := trace[|acts|];
    var w := RunPiped(trace, acts, lane, r, d);
    assert IsAt(s, x, Settled(j));
    forall q: nat | q in lane && q < x ensures exists i: nat :: i < j && Settles(s.log[i], q) {
      assert IsQueued(s, q) && IsAt(s, q, w[q]);
      assert Less(Ranks(s, w)[q], Ranks(s, w)[x]);
      assert Settles(s.log[w[q].i], q);
    }
  }
}
