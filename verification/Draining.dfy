/**
 * Draining: when every handler replies exactly once before it returns and nothing else sends, running the
 * executors empties all queues. One call of `execute` is what `WorkQueue.Execute` is proved to do.
 */
module Draining {
  import opened Common
  import opened Lifetimes
  import opened Executor
  import opened CallbackResults

  /** The work items of every executor, none of which is running. */
  type Queues = seq<seq<Task>>

  /** A handler's reply, from the query and its argument. */
  type Replier = (QueryId, int) -> int

  /** Running one task on executor e: a request is answered at once, to the executor it names; a response
      runs its callback, which sends nothing. */
  function RunTask(e: ExecId, f: Replier, lives: Store): (Queues, Task) -> (Queues, seq<Task>) {
    (queues: Queues, t: Task) =>
      match t
      case Request(q, arg, _, _) =>
        (match Reply(HandlerResult(t), lives, f(q, arg)).1
         case Enqueued(on, response) =>
           if on == e then (queues, [response])
           else if on < |queues| then (queues[on := queues[on] + [response]], [])
           else (queues, [])
         case _ => (queues, []))
      case _ => (queues, [])
  }

  function Execute(queues: Queues, e: ExecId, f: Replier, lives: Store): Queues
    requires e < |queues|
  {
    var (others, mine) := RunAll(RunTask(e, f, lives), queues[e := []], queues[e]);
    if e < |others| then others[e := mine] else others
  }

  function ExecuteAll(queues: Queues, order: seq<ExecId>, f: Replier, lives: Store): Queues
    decreases |order|
  {
    if order == [] then queues
    else if order[0] < |queues| then ExecuteAll(Execute(queues, order[0], f, lives), order[1..], f, lives)
    else ExecuteAll(queues, order[1..], f, lives)
  }

  function TasksRun(queues: Queues, order: seq<ExecId>, f: Replier, lives: Store): nat
    decreases |order|
  {
    if order == [] then 0
    else if order[0] < |queues| then
      |queues[order[0]]| + TasksRun(Execute(queues, order[0], f, lives), order[1..], f, lives)
    else TasksRun(queues, order[1..], f, lives)
  }

  /** Requests are answered to executors that exist. */
  ghost predicate Answerable(items: seq<Task>, n: nat) {
    forall i :: 0 <= i < |items| ==> items[i].Request? ==> items[i].replyTo < n
  }

  ghost predicate AllAnswerable(queues: Queues) {
    forall e :: 0 <= e < |queues| ==> Answerable(queues[e], |queues|)
  }

  ghost predicate NoRequests(items: seq<Task>) {
    forall i :: 0 <= i < |items| ==> !items[i].Request?
  }

  /** Two for each request, one for each response, and `other` for each item of somebody else's. */
  function Weight(items: seq<Task>, other: nat): nat {
    if items == [] then 0 else WeightOf(items[0], other) + Weight(items[1..], other)
  }

  function WeightOf(t: Task, other: nat): nat {
    match t
    case Request(_, _, _, _) => 2
    case Response(_, _, _) => 1
    case Foreign(_) => other
  }

  function Measure(queues: Queues, other: nat): nat {
    if queues == [] then 0 else Weight(queues[0], other) + Measure(queues[1..], other)
  }

  lemma {:induction false} WeightConcat(a: seq<Task>, b: seq<Task>, other: nat)
    ensures Weight(a + b, other) == Weight(a, other) + Weight(b, other)
  {
    if a == [] {
      assert a + b == b;
    } else {
      assert (a + b)[1..] == a[1..] + b;
      WeightConcat(a[1..], b, other);
    }
  }

  lemma {:induction false} WeightOne(t: Task, other: nat)
    ensures Weight([t], other) == WeightOf(t, other)
  {
    assert [t][1..] == [];
  }

  lemma {:induction false} MeasureUpdate(queues: Queues, e: nat, items: seq<Task>, other: nat)
    requires e < |queues|
    ensures Measure(queues[e := items], other)
         == Measure(queues, other) - Weight(queues[e], other) + Weight(items, other)
  {
    if e == 0 {
      assert queues[0 := items][1..] == queues[1..];
    } else {
      assert queues[e := items][1..] == queues[1..][e - 1 := items];
      MeasureUpdate(queues[1..], e - 1, items, other);
    }
  }

  lemma {:induction false} GrowthComposes(a: seq<Task>, b: seq<Task>, c: seq<Task>)
    requires a <= b <= c && NoRequests(b[|a|..]) && NoRequests(c[|b|..])
    ensures a <= c && NoRequests(c[|a|..])
  {
    assert c[|a|..] == b[|a|..] + c[|b|..];
  }

  /** Running `items`: what is left is worth exactly one less per task run, and only responses are added. */
  lemma {:induction false} RunAllDrains(queues: Queues, items: seq<Task>, e: ExecId, f: Replier, lives: Store)
    requires e < |queues| && Answerable(items, |queues|)
    ensures var (others, mine) := RunAll(RunTask(e, f, lives), queues, items);
      && |others| == |queues| && others[e] == queues[e]
      && Measure(others, 1) + Weight(mine, 1) + |items| == Measure(queues, 1) + Weight(items, 1)
      && NoRequests(mine)
      && (forall x :: 0 <= x < |queues| ==> queues[x] <= others[x] && NoRequests(others[x][|queues[x]|..]))
      && (NoRequests(items) ==> others == queues && mine == [])
    decreases |items|
  {
    if items != [] {
      var (next, made) := RunTask(e, f, lives)(queues, items[0]);
      assert Answerable(items[1..], |queues|);
      assert items[0].Request? ==> items[0].replyTo < |queues|;
      RunTaskDrains(queues, items[0], e, f, lives);
      RunAllDrains(next, items[1..], e, f, lives);
      var (others, rest) := RunAll(RunTask(e, f, lives), next, items[1..]);
      WeightConcat(made, rest, 1);
      forall x | 0 <= x < |queues|
        ensures queues[x] <= others[x] && NoRequests(others[x][|queues[x]|..])
      {
        GrowthComposes(queues[x], next[x], others[x]);
      }
      if NoRequests(items) {
        assert !items[0].Request? && NoRequests(items[1..]);
      }
    }
  }

  lemma {:induction false} RunTaskDrains(queues: Queues, t: Task, e: ExecId, f: Replier, lives: Store)
    requires e < |queues| && (t.Request? ==> t.replyTo < |queues|)
    ensures var (next, made) := RunTask(e, f, lives)(queues, t);
      && |next| == |queues| && next[e] == queues[e] && NoRequests(made)
      && Measure(next, 1) + Weight(made, 1) + 1 == Measure(queues, 1) + Weight([t], 1)
      && (forall x :: 0 <= x < |queues| ==> queues[x] <= next[x] && NoRequests(next[x][|queues[x]|..]))
      && (!t.Request? ==> next == queues && made == [])
  {
    if t.Request? {
      var on := t.replyTo;
      var response := Response(Some(t.q), f(t.q, t.arg), t.weak);
      assert Reply(HandlerResult(t), lives, f(t.q, t.arg)).1 == Enqueued(on, response);
      WeightOne(response, 1);
      WeightOne(t, 1);
      if on != e {
        MeasureUpdate(queues, on, queues[on] + [response], 1);
        WeightConcat(queues[on], [response], 1);
      }
    }
  }

  lemma {:induction false} GrownByResponses(a: seq<Task>, b: seq<Task>, n: nat)
    requires a <= b && NoRequests(b[|a|..])
    ensures NoRequests(a) ==> NoRequests(b)
    ensures Answerable(a, n) ==> Answerable(b, n)
  {
    assert b == a + b[|a|..];
  }

  lemma {:induction false} ExecuteDrains(queues: Queues, e: ExecId, f: Replier, lives: Store)
    requires e < |queues| && AllAnswerable(queues)
    ensures var after := Execute(queues, e, f, lives);
      && |after| == |queues| && AllAnswerable(after)
      && Measure(after, 1) + |queues[e]| == Measure(queues, 1)
      && NoRequests(after[e])
      && (forall x :: 0 <= x < |queues| && NoRequests(queues[x]) ==> NoRequests(after[x]))
      && (NoRequests(queues[e]) ==> after == queues[e := []])
  {
    var start := queues[e := []];
    var (others, mine) := RunAll(RunTask(e, f, lives), start, queues[e]);
    RunAllDrains(start, queues[e], e, f, lives);
    MeasureUpdate(queues, e, [], 1);
    MeasureUpdate(others, e, mine, 1);
    var after := others[e := mine];
    forall x | 0 <= x < |queues| && x != e
      ensures NoRequests(queues[x]) ==> NoRequests(after[x])
      ensures Answerable(after[x], |queues|)
    {
      assert start[x] == queues[x];
      GrownByResponses(queues[x], others[x], |queues|);
    }
  }

  /** Termination: however the executors are scheduled, each task run takes exactly one off the measure
      2 * requests + responses, so no schedule runs more than that many tasks. */
  lemma {:induction false} EveryTaskTakesOne(queues: Queues, order: seq<ExecId>, f: Replier, lives: Store)
    requires AllAnswerable(queues)
    ensures TasksRun(queues, order, f, lives) + Measure(ExecuteAll(queues, order, f, lives), 1) == Measure(queues, 1)
    decreases |order|
  {
    if order != [] {
      if order[0] < |queues| {
        ExecuteDrains(queues, order[0], f, lives);
        EveryTaskTakesOne(Execute(queues, order[0], f, lives), order[1..], f, lives);
      } else {
        EveryTaskTakesOne(queues, order[1..], f, lives);
      }
    }
  }

  // ---------- Which schedules drain ----------

  /** Some request among the items is to be answered to d. */
  ghost predicate Asks(items: seq<Task>, d: ExecId) {
    exists i :: 0 <= i < |items| && items[i].Request? && items[i].replyTo == d
  }

  lemma {:induction false} AsksFirst(items: seq<Task>, d: ExecId)
    requires items != []
    ensures Asks(items, d) <==> (items[0].Request? && items[0].replyTo == d) || Asks(items[1..], d)
  {
    if Asks(items[1..], d) {
      var i :| 0 <= i < |items[1..]| && items[1..][i].Request? && items[1..][i].replyTo == d;
      assert items[i + 1].Request? && items[i + 1].replyTo == d;
    }
    assert forall k :: 0 < k < |items| ==> items[k] == items[1..][k - 1];
  }

  /** Running `items` on e adds to the queue of x, or to that of e itself, exactly if some of them asks for it. */
  lemma {:induction false} RunAllAnswers(queues: Queues, items: seq<Task>, e: ExecId, f: Replier, lives: Store,
          x: ExecId)
    requires e < |queues| && x < |queues| && Answerable(items, |queues|)
    ensures var (others, mine) := RunAll(RunTask(e, f, lives), queues, items);
      && |others| == |queues|
      && (x != e ==> queues[x] <= others[x] && (others[x] == queues[x] <==> !Asks(items, x)))
      && (mine == [] <==> !Asks(items, e))
    decreases |items|
  {
    if items != [] {
      var (next, made) := RunTask(e, f, lives)(queues, items[0]);
      var rest := items[1..];
      assert items[0].Request? ==> items[0].replyTo < |queues|;
      RunTaskDrains(queues, items[0], e, f, lives);
      RunTaskAnswers(queues, items[0], e, f, lives, x);
      RunAllDrains(queues, items, e, f, lives);
      assert Answerable(rest, |queues|);
      RunAllAnswers(next, rest, e, f, lives, x);
      AsksFirst(items, x);
      AsksFirst(items, e);
    }
  }

  lemma {:induction false} RunTaskAnswers(queues: Queues, t: Task, e: ExecId, f: Replier, lives: Store, x: ExecId)
    requires e < |queues| && x < |queues| && (t.Request? ==> t.replyTo < |queues|)
    ensures var (next, made) := RunTask(e, f, lives)(queues, t);
      && |next| == |queues|
      && (x != e ==> queues[x] <= next[x] && (next[x] == queues[x] <==> !(t.Request? && t.replyTo == x)))
      && (made == [] <==> !(t.Request? && t.replyTo == e))
  {
    if t.Request? {
      var response := Response(Some(t.q), f(t.q, t.arg), t.weak);
      assert Reply(HandlerResult(t), lives, f(t.q, t.arg)).1 == Enqueued(t.replyTo, response);
      assert |queues[t.replyTo] + [response]| > |queues[t.replyTo]|;
    }
  }

  /** What one `execute` on e leaves: at e responses to its own requests, elsewhere what was there and
      responses. */
  ghost predicate Executed(queues: Queues, after: Queues, e: ExecId)
    requires e < |queues|
  {
    && |after| == |queues| && NoRequests(after[e])
    && forall x :: 0 <= x < |queues| ==>
         && (x != e ==> queues[x] <= after[x] && NoRequests(after[x][|queues[x]|..]))
         && (after[x] == (if x == e then [] else queues[x]) <==> !Asks(queues[e], x))
  }

  lemma {:induction false} ExecuteAnswers(queues: Queues, e: ExecId, f: Replier, lives: Store)
    requires e < |queues| && AllAnswerable(queues)
    ensures Executed(queues, Execute(queues, e, f, lives), e)
  {
    var start := queues[e := []];
    RunAllDrains(start, queues[e], e, f, lives);
    forall x | 0 <= x < |queues|
      ensures var (others, mine) := RunAll(RunTask(e, f, lives), start, queues[e]);
        && (x != e ==> queues[x] <= others[x] && (others[x] == queues[x] <==> !Asks(queues[e], x)))
        && (mine == [] <==> !Asks(queues[e], e))
    {
      RunAllAnswers(start, queues[e], e, f, lives, x);
    }
  }

  /** In the order, e has a turn and d has one after it. */
  ghost predicate Before(order: seq<ExecId>, e: ExecId, d: ExecId) {
    exists i, j :: 0 <= i < j < |order| && order[i] == e && order[j] == d
  }

  lemma {:induction false} BeforeFirst(order: seq<ExecId>, e: ExecId, d: ExecId)
    requires order != []
    ensures Before(order, e, d) <==> (order[0] == e && d in order[1..]) || Before(order[1..], e, d)
    ensures Before(order[1..], e, d) ==> d in order[1..]
    ensures e in order <==> e == order[0] || e in order[1..]
  {
    var rest := order[1..];
    if Before(order, e, d) {
      var i, j :| 0 <= i < j < |order| && order[i] == e && order[j] == d;
      assert rest[j - 1] == d && (i > 0 ==> rest[i - 1] == e);
    }
    if order[0] == e && d in rest {
      var j :| 0 <= j < |rest| && rest[j] == d;
      assert order[j + 1] == d;
    }
    if Before(rest, e, d) {
      var i, j :| 0 <= i < j < |rest| && rest[i] == e && rest[j] == d;
      assert order[i + 1] == e && order[j + 1] == d;
    }
  }

  /** Every executor with work has its turn, and whoever is to be answered has one after whoever answers. */
  ghost predicate Schedules(queues: Queues, order: seq<ExecId>) {
    && (forall e :: 0 <= e < |queues| && queues[e] != [] ==> e in order)
    && (forall e, d :: 0 <= e < |queues| && 0 <= d < |queues| && Asks(queues[e], d) ==> Before(order, e, d))
  }

  lemma {:induction false} AsksStays(a: seq<Task>, b: seq<Task>, d: ExecId)
    requires a <= b && NoRequests(b[|a|..])
    ensures Asks(b, d) <==> Asks(a, d)
  {
    assert forall k :: |a| <= k < |b| ==> b[k] == b[|a|..][k - |a|];
    if Asks(b, d) {
      var i :| 0 <= i < |b| && b[i].Request? && b[i].replyTo == d;
      assert a[i] == b[i];
    }
    if Asks(a, d) {
      var i :| 0 <= i < |a| && a[i].Request? && a[i].replyTo == d;
      assert b[i] == a[i];
    }
  }

  /** One turn taken off the schedule. */
  lemma {:induction false} ScheduleStep(queues: Queues, after: Queues, order: seq<ExecId>)
    requires order != [] && order[0] < |queues| && Executed(queues, after, order[0])
    ensures Schedules(queues, order) <==> Schedules(after, order[1..])
  {
    var e0, rest := order[0], order[1..];
    forall e | 0 <= e < |queues|
      ensures (queues[e] != [] ==> e in order) && (Asks(queues[e0], e) ==> e in rest)
         <==> (after[e] != [] ==> e in rest) && (Asks(queues[e0], e) ==> e in rest)
    {
      BeforeFirst(order, e, e);
    }
    forall e, d | 0 <= e < |queues| && 0 <= d < |queues|
      ensures (Asks(queues[e], d) ==> Before(order, e, d)) <==>
        (Asks(after[e], d) ==> Before(rest, e, d)) && (e == e0 && Asks(queues[e0], d) ==> d in rest)
    {
      BeforeFirst(order, e, d);
      if e != e0 {
        AsksStays(queues[e], after[e], d);
      }
    }
  }

  lemma {:induction false} ScheduleSkip(queues: Queues, order: seq<ExecId>)
    requires order != [] && order[0] >= |queues|
    ensures Schedules(queues, order) <==> Schedules(queues, order[1..])
  {
    forall e, d | 0 <= e < |queues| && 0 <= d < |queues|
      ensures (Before(order, e, d) <==> Before(order[1..], e, d)) && (e in order <==> e in order[1..])
    {
      BeforeFirst(order, e, d);
    }
  }

  predicate Empty(queues: Queues) {
    forall e :: 0 <= e < |queues| ==> queues[e] == []
  }

  /** Exactly which schedules drain: executing the executors in any order, with any repetitions, leaves all
      queues empty if and only if every executor with work has a turn and, for every request, the executor to
      be answered has a turn after one of the executor that answers. */
  lemma {:induction false} DrainsExactly(queues: Queues, order: seq<ExecId>, f: Replier, lives: Store)
    requires AllAnswerable(queues)
    ensures |ExecuteAll(queues, order, f, lives)| == |queues|
    ensures Empty(ExecuteAll(queues, order, f, lives)) <==> Schedules(queues, order)
    decreases |order|
  {
    if order == [] {
      assert Schedules(queues, order) ==> Empty(queues);
      assert Empty(queues) ==> Schedules(queues, order);
    } else if order[0] < |queues| {
      var after := Execute(queues, order[0], f, lives);
      ExecuteDrains(queues, order[0], f, lives);
      ExecuteAnswers(queues, order[0], f, lives);
      ScheduleStep(queues, after, order);
      DrainsExactly(after, order[1..], f, lives);
    } else {
      ScheduleSkip(queues, order);
      DrainsExactly(queues, order[1..], f, lives);
    }
  }

  /** Every executor has its turn. */
  ghost predicate Covers(order: seq<ExecId>, n: nat) {
    forall e: nat :: e < n ==> e in order
  }

  /** Two rounds over all executors, each in any order, empty every queue. */
  lemma {:induction false} TwoRoundsDrain(queues: Queues, first: seq<ExecId>, second: seq<ExecId>, f: Replier,
          lives: Store)
    requires AllAnswerable(queues) && Covers(first, |queues|) && Covers(second, |queues|)
    ensures var after := ExecuteAll(queues, first + second, f, lives);
      |after| == |queues| && Empty(after)
  {
    var order := first + second;
    forall e, d | 0 <= e < |queues| && 0 <= d < |queues| ensures e in order && Before(order, e, d) {
      assert e in first && d in second;
      var i :| 0 <= i < |first| && first[i] == e;
      var j :| 0 <= j < |second| && second[j] == d;
      assert order[i] == e && order[|first| + j] == d;
    }
    DrainsExactly(queues, order, f, lives);
  }

  /** One round is not enough in general: the response comes back to an executor that has had its turn. */
  lemma {:induction false} OneRoundMayNotDrain(f: Replier, lives: Store)
    ensures ExecuteAll([[], [Request(0, 0, 0, Null)]], [0, 1], f, lives) == [[Response(Some(0), f(0, 0), Null)], []]
  {
    var request := Request(0, 0, 0, Null);
    var queues: Queues := [[], [request]];
    var response := Response(Some(0), f(0, 0), Null);
    assert Execute(queues, 0, f, lives) == queues by {
      assert queues[0 := []] == queues;
      assert RunAll(RunTask(0, f, lives), queues, []) == (queues, []);
    }
    var start := queues[1 := []];
    assert Reply(HandlerResult(request), lives, f(0, 0)).1 == Enqueued(0, response);
    assert start[0] + [response] == [response];
    assert RunTask(1, f, lives)(start, request) == (start[0 := [response]], []);
    assert RunAll(RunTask(1, f, lives), start[0 := [response]], []) == (start[0 := [response]], []);
    assert RunAll(RunTask(1, f, lives), start, [request]) == (start[0 := [response]], [] + []);
    var after: Queues := [[response], []];
    assert Execute(queues, 1, f, lives) == after;
    assert ExecuteAll(after, [], f, lives) == after;
    assert [0, 1][1..] == [1] && [1][1..] == [];
    assert ExecuteAll(queues, [1], f, lives) == ExecuteAll(after, [], f, lives);
  }
}
