/**
 * The work queue of executor.h: a vector that producers append to under a mutex, and a back buffer
 * that the single consumer swaps in, runs and clears.
 *
 * `Queue` is the queue with its critical sections taken as atomic steps. `Threads` spells out the
 * mutex, the half-built cell inside `enqueue_work` and every thread's position, and is proved to
 * refine `Queue`. `WorkQueue` is the object itself, run by one thread.
 */
module Executor {
  import opened Common

  // ---------- The queue as atomic steps ----------

  datatype Phase = Idle | Between | InTask

  /** `next` is the first entry of `back` that has not been started.
      `appended` and `executed` record the whole history of the queue. */
  datatype Queue<T> = Queue(work: seq<T>, back: seq<T>, next: nat, phase: Phase,
                            appended: seq<T>, executed: seq<T>)
  {
    ghost predicate Valid() {
      && next <= |back|
      && (phase == Idle ==> back == [] && next == 0)
      && (phase == InTask ==> 0 < next)
      && appended == executed + back[next..] + work
    }
  }

  function EmptyQueue<T>(): Queue<T> { Queue([], [], 0, Idle, [], []) }

  datatype Step<T> = Append(t: T) | Swap | Start | End | Finish

  predicate Enabled<T>(q: Queue<T>, s: Step<T>) {
    match s
    case Append(_) => true
    case Swap => q.phase == Idle
    case Start => q.phase == Between && q.next < |q.back|
    case End => q.phase == InTask
    case Finish => q.phase == Between && q.next == |q.back|
  }

  function Apply<T>(q: Queue<T>, s: Step<T>): Queue<T>
    requires Enabled(q, s)
  {
    match s
    case Append(t) => q.(work := q.work + [t], appended := q.appended + [t])
    case Swap => q.(work := q.back, back := q.work, next := 0, phase := Between)
    case Start => q.(next := q.next + 1, phase := InTask, executed := q.executed + [q.back[q.next]])
    case End => q.(phase := Between)
    case Finish => q.(back := [], next := 0, phase := Idle)
  }

  lemma {:induction false} ApplyKeepsValid<T>(q: Queue<T>, s: Step<T>)
    requires q.Valid() && Enabled(q, s)
    ensures Apply(q, s).Valid()
  {
    match s
    case Append(t) =>
      assert q.executed + q.back[q.next..] + (q.work + [t]) == (q.executed + q.back[q.next..] + q.work) + [t];
    case Swap =>
      assert q.executed + q.work[0..] + [] == q.executed + [] + q.work;
    case Start =>
      assert q.back[q.next..] == [q.back[q.next]] + q.back[q.next + 1..];
      assert q.executed + [q.back[q.next]] + q.back[q.next + 1..] + q.work
          == q.executed + ([q.back[q.next]] + q.back[q.next + 1..]) + q.work;
    case End =>
    case Finish =>
      assert q.back[q.next..] == [];
  }

  ghost predicate IsQueueRun<T>(trace: seq<Queue<T>>, steps: seq<Step<T>>) {
    && |trace| == |steps| + 1
    && trace[0] == EmptyQueue()
    && forall i :: 0 <= i < |steps| ==> Enabled(trace[i], steps[i]) && trace[i + 1] == Apply(trace[i], steps[i])
  }

  /** What the producers appended, in the order they did. */
  function Appends<T>(steps: seq<Step<T>>): seq<T> {
    if steps == [] then []
    else Appends(steps[..|steps| - 1]) + match steps[|steps| - 1] case Append(t) => [t] case _ => []
  }

  function Starts<T>(steps: seq<Step<T>>): nat {
    if steps == [] then 0
    else Starts(steps[..|steps| - 1]) + if steps[|steps| - 1].Start? then 1 else 0
  }

  lemma {:induction false} RunHistory<T>(trace: seq<Queue<T>>, steps: seq<Step<T>>)
    requires IsQueueRun(trace, steps)
    ensures trace[|steps|].Valid()
    ensures trace[|steps|].appended == Appends(steps)
    ensures |trace[|steps|].executed| == Starts(steps)
    decreases |steps|
  {
    if steps != [] {
      var n := |steps| - 1;
      var before := trace[..n + 1];
      RunHistory(before, steps[..n]);
      assert before[n] == trace[n];
      ApplyKeepsValid(trace[n], steps[n]);
    }
  }

  /** Every task is run once, in the order of the appends, whatever the interleaving: after k task
      starts the executed tasks are the first k appended, the rest are still queued in that order,
      and an idle queue with nothing waiting has run them all. */
  lemma {:induction false} FifoExactlyOnce<T>(trace: seq<Queue<T>>, steps: seq<Step<T>>)
    requires IsQueueRun(trace, steps)
    ensures Starts(steps) <= |Appends(steps)|
    ensures var q := trace[|steps|];
      && q.executed == Appends(steps)[..Starts(steps)]
      && q.next <= |q.back| && q.back[q.next..] + q.work == Appends(steps)[Starts(steps)..]
      && (q.phase == Idle ==> q.back == [])
      && (q.phase == Idle && q.work == [] ==> q.executed == Appends(steps))
  {
    RunHistory(trace, steps);
    var q := trace[|steps|];
    assert q.appended == q.executed + (q.back[q.next..] + q.work);
  }

  /** The tasks one call of `execute` runs are those present at its swap; whatever is appended
      meanwhile, by a running task or by another thread, waits for the next call. */
  lemma {:induction false} OneExecuteRunsWhatTheSwapTook<T>(trace: seq<Queue<T>>, steps: seq<Step<T>>, i: nat, j: nat)
    requires IsQueueRun(trace, steps)
    requires i < j < |steps| && steps[i].Swap? && steps[j].Finish?
    requires forall k :: i < k < j ==> !steps[k].Swap? && !steps[k].Finish?
    ensures trace[j + 1].executed == trace[i].executed + trace[i].work
    ensures trace[j + 1].work == Appends(steps[i..j])
  {
    RunHistory(trace[..i + 1], steps[..i]);
    assert trace[i].back == [];
    DuringExecute(trace, steps, i, j);
    assert steps[i..j] + [] == steps[i..j];
  }

  lemma {:induction false} DuringExecute<T>(trace: seq<Queue<T>>, steps: seq<Step<T>>, i: nat, k: nat)
    requires IsQueueRun(trace, steps)
    requires i < k <= |steps| && steps[i].Swap? && trace[i].Valid()
    requires forall m :: i < m < k ==> !steps[m].Swap? && !steps[m].Finish?
    ensures trace[k].back == trace[i].work && trace[k].next <= |trace[k].back|
    ensures trace[k].executed == trace[i].executed + trace[i].work[..trace[k].next]
    ensures trace[k].work == Appends(steps[i..k])
    decreases k
  {
    if k == i + 1 {
      assert steps[i..k] == [steps[i]];
      assert Appends(steps[i..k][..0]) == [];
    } else {
      DuringExecute(trace, steps, i, k - 1);
      assert steps[i..k][..k - 1 - i] == steps[i..k - 1];
      assert steps[i..k][|steps[i..k]| - 1] == steps[k - 1];
      assert Enabled(trace[k - 1], steps[k - 1]);
      var q := trace[k - 1];
      if steps[k - 1].Start? {
        assert trace[i].work[..q.next] + [trace[i].work[q.next]] == trace[i].work[..q.next + 1];
      }
    }
  }

  // ---------- The queue as threads and a mutex ----------

  /** A slot of the vector: `emplace_back` leaves it empty, then the function and the data are set. */
  datatype Cell<T> = Cell(fun: bool, data: Option<T>)

  datatype Producer<T> = Out | Waiting(t: T) | Locked(t: T) | Emplaced(t: T) | FunSet(t: T) | DataSet
  datatype Consumer = Away | WaitingToSwap | LockedToSwap | Swapped | Running(inTask: bool)
  datatype Owner = Free | HeldBy(producer: nat) | HeldByConsumer

  /** `granted` lists the tasks in the order their producers were given the lock. */
  datatype Threads<T> = Threads(lock: Owner, work: seq<Cell<T>>, back: seq<Cell<T>>, next: nat,
                                producers: map<nat, Producer<T>>, consumer: Consumer, granted: seq<T>)

  datatype Move<T> =
    | Enter(p: nat, t: T) | Lock(p: nat) | Emplace(p: nat) | SetFun(p: nat) | SetData(p: nat) | Unlock(p: nat)
    | CallExecute | LockSwap | DoSwap | UnlockSwap | BeginTask | LeaveTask | Clear

  predicate CanMove<T(==)>(c: Threads<T>, m: Move<T>) {
    match m
    case Enter(p, t) => p in c.producers && c.producers[p].Out?
    case Lock(p) => p in c.producers && c.producers[p].Waiting? && c.lock.Free?
    case Emplace(p) => p in c.producers && c.producers[p].Locked?
    case SetFun(p) => p in c.producers && c.producers[p].Emplaced? && c.work != []
    case SetData(p) => p in c.producers && c.producers[p].FunSet? && c.work != []
    case Unlock(p) => p in c.producers && c.producers[p].DataSet?
    case CallExecute => c.consumer == Away
    case LockSwap => c.consumer == WaitingToSwap && c.lock.Free?
    case DoSwap => c.consumer == LockedToSwap
    case UnlockSwap => c.consumer == Swapped
    case BeginTask => c.consumer == Running(false) && c.next < |c.back|
    case LeaveTask => c.consumer == Running(true)
    case Clear => c.consumer == Running(false) && c.next == |c.back|
  }

  function DoMove<T>(c: Threads<T>, m: Move<T>): Threads<T>
    requires CanMove(c, m)
  {
    match m
    case Enter(p, t) => c.(producers := c.producers[p := Waiting(t)])
    case Lock(p) =>
      c.(lock := HeldBy(p), producers := c.producers[p := Locked(c.producers[p].t)],
         granted := c.granted + [c.producers[p].t])
    case Emplace(p) =>
      c.(work := c.work + [Cell(false, None)], producers := c.producers[p := Emplaced(c.producers[p].t)])
    case SetFun(p) =>
      c.(work := c.work[|c.work| - 1 := c.work[|c.work| - 1].(fun := true)],
         producers := c.producers[p := FunSet(c.producers[p].t)])
    case SetData(p) =>
      c.(work := c.work[|c.work| - 1 := c.work[|c.work| - 1].(data := Some(c.producers[p].t))],
         producers := c.producers[p := DataSet])
    case Unlock(p) => c.(lock := Free, producers := c.producers[p := Out])
    case CallExecute => c.(consumer := WaitingToSwap)
    case LockSwap => c.(lock := HeldByConsumer, consumer := LockedToSwap)
    case DoSwap => c.(work := c.back, back := c.work, next := 0, consumer := Swapped)
    case UnlockSwap => c.(lock := Free, consumer := Running(false))
    case BeginTask => c.(next := c.next + 1, consumer := Running(true))
    case LeaveTask => c.(consumer := Running(false))
    case Clear => c.(back := [], next := 0, consumer := Away)
  }

  ghost predicate InitialThreads<T>(c: Threads<T>) {
    && c.lock == Free && c.work == [] && c.back == [] && c.next == 0 && c.consumer == Away && c.granted == []
    && forall p :: p in c.producers ==> c.producers[p].Out?
  }

  predicate Full<T>(cell: Cell<T>) { cell.fun && cell.data.Some? }

  predicate AllFull<T>(cells: seq<Cell<T>>) { forall i :: 0 <= i < |cells| ==> Full(cells[i]) }

  function Data<T>(cells: seq<Cell<T>>): (r: seq<T>)
    requires AllFull(cells)
    ensures |r| == |cells| && forall i :: 0 <= i < |cells| ==> r[i] == cells[i].data.value
  {
    seq(|cells|, i requires 0 <= i < |cells| => cells[i].data.value)
  }

  predicate InSection<T>(p: Producer<T>) { !p.Out? && !p.Waiting? }

  /** True while the last cell of `work` is still being filled in. */
  predicate Building<T>(c: Threads<T>) {
    c.lock.HeldBy? && c.lock.producer in c.producers
    && (c.producers[c.lock.producer].Emplaced? || c.producers[c.lock.producer].FunSet?)
  }

  function Finished<T>(c: Threads<T>): seq<Cell<T>> {
    if Building(c) && c.work != [] then c.work[..|c.work| - 1] else c.work
  }

  /** The lock is held by exactly the thread that is inside its critical section, the only cell that is
      not full is the one its holder is building, and the back buffer is empty outside `execute`. */
  ghost predicate Sound<T>(c: Threads<T>) {
    && (forall p :: p in c.producers ==> (InSection(c.producers[p]) <==> c.lock == HeldBy(p)))
    && (c.lock.HeldBy? ==> c.lock.producer in c.producers)
    && (c.lock == HeldByConsumer <==> c.consumer == LockedToSwap || c.consumer == Swapped)
    && AllFull(Finished(c)) && AllFull(c.back)
    && (Building(c) ==> c.work != [])
    && (Building(c) && c.producers[c.lock.producer].FunSet? ==> c.work[|c.work| - 1].fun)
    && c.next <= |c.back|
    && (c.consumer == Running(true) ==> 0 < c.next)
    && (c.consumer == Swapped ==> c.next == 0)
    && (c.consumer == Away || c.consumer == WaitingToSwap || c.consumer == LockedToSwap ==> c.back == [] && c.next == 0)
  }

  /** The task that has been given the lock but is not in the queue yet. */
  function Promised<T>(c: Threads<T>): seq<T> {
    if c.lock.HeldBy? && c.lock.producer in c.producers then
      match c.producers[c.lock.producer]
      case Locked(t) => [t]
      case Emplaced(t) => [t]
      case FunSet(t) => [t]
      case _ => []
    else []
  }

  function PhaseOf(consumer: Consumer): Phase {
    match consumer
    case Running(true) => InTask
    case Running(false) => Between
    case Swapped => Between
    case _ => Idle
  }

  ghost predicate Refines<T>(c: Threads<T>, q: Queue<T>) {
    && Sound(c)
    && q.work == Data(Finished(c)) && q.back == Data(c.back)
    && q.next == c.next && q.phase == PhaseOf(c.consumer)
    && c.granted == q.appended + Promised(c)
  }

  /** Which atomic step a thread's move amounts to, if any. */
  function StepOf<T>(c: Threads<T>, m: Move<T>): Option<Step<T>>
    requires CanMove(c, m)
  {
    match m
    case SetData(p) => Some(Append(c.producers[p].t))
    case DoSwap => Some(Swap)
    case BeginTask => Some(Start)
    case LeaveTask => Some(End)
    case Clear => Some(Finish)
    case _ => None
  }

  function After<T>(q: Queue<T>, s: Option<Step<T>>): Queue<T>
    requires s.Some? ==> Enabled(q, s.value)
  {
    if s.Some? then Apply(q, s.value) else q
  }

  lemma {:induction false} MoveKeepsSound<T>(c: Threads<T>, m: Move<T>)
    requires Sound(c) && CanMove(c, m)
    ensures Sound(DoMove(c, m))
  {
    var d := DoMove(c, m);
    match m
    case Enter(_, _) => assert Finished(d) == Finished(c);
    case Lock(_) => assert Finished(d) == Finished(c);
    case Emplace(p) =>
      assert c.lock == HeldBy(p);
      assert Finished(d) == c.work;
    case SetFun(p) =>
      assert c.lock == HeldBy(p);
      assert Finished(d) == Finished(c);
    case SetData(p) =>
      assert c.lock == HeldBy(p);
      assert forall i :: 0 <= i < |c.work| - 1 ==> d.work[i] == Finished(c)[i];
    case Unlock(p) => assert c.lock == HeldBy(p);
    case DoSwap => assert Finished(c) == c.work && Finished(d) == d.work;
    case _ => assert Finished(d) == Finished(c);
  }

  lemma {:induction false} SetDataRefines<T>(c: Threads<T>, p: nat, q: Queue<T>)
    requires Refines(c, q) && CanMove(c, SetData(p))
    ensures Refines(DoMove(c, SetData(p)), Apply(q, Append(c.producers[p].t)))
  {
    MoveKeepsSound(c, SetData(p));
    assert c.lock == HeldBy(p);
    assert Data(Finished(DoMove(c, SetData(p)))) == Data(Finished(c)) + [c.producers[p].t];
  }

  lemma {:induction false} DoSwapRefines<T>(c: Threads<T>, q: Queue<T>)
    requires Refines(c, q) && CanMove(c, DoSwap)
    ensures Enabled(q, Swap) && Refines(DoMove(c, DoSwap), Apply(q, Swap))
  {
    MoveKeepsSound(c, DoSwap);
    assert Finished(c) == c.work && Finished(DoMove(c, DoSwap)) == c.back;
  }

  /** One move of one thread is one atomic step of the queue, or none. */
  lemma {:induction false} MoveRefines<T>(c: Threads<T>, m: Move<T>, q: Queue<T>)
    requires Refines(c, q) && CanMove(c, m)
    ensures var s := StepOf(c, m); (s.Some? ==> Enabled(q, s.value)) && Refines(DoMove(c, m), After(q, s))
  {
    MoveKeepsSound(c, m);
    var d := DoMove(c, m);
    match m
    case Lock(p) => assert Finished(d) == Finished(c); assert Promised(c) == [];
    case Emplace(p) =>
      assert c.lock == HeldBy(p);
      assert Finished(d) == Finished(c);
    case SetFun(p) =>
      assert c.lock == HeldBy(p);
      assert Finished(d) == Finished(c);
    case SetData(p) => SetDataRefines(c, p, q);
    case Unlock(p) => assert c.lock == HeldBy(p); assert Finished(d) == Finished(c);
    case DoSwap => DoSwapRefines(c, q);
    case BeginTask => assert Finished(d) == Finished(c);
    case _ => assert Finished(d) == Finished(c); assert Promised(d) == Promised(c);
  }

  ghost predicate IsThreadRun<T>(trace: seq<Threads<T>>, moves: seq<Move<T>>) {
    && |trace| == |moves| + 1
    && InitialThreads(trace[0])
    && forall i :: 0 <= i < |moves| ==> CanMove(trace[i], moves[i]) && trace[i + 1] == DoMove(trace[i], moves[i])
  }

  /** Any number of producer threads and one consumer, however they interleave, behave as some run of
      the atomic queue, whose appends happen in the order the lock was granted. */
  lemma {:induction false} ThreadsRefineQueue<T>(trace: seq<Threads<T>>, moves: seq<Move<T>>)
    returns (queues: seq<Queue<T>>, steps: seq<Step<T>>)
    requires IsThreadRun(trace, moves)
    ensures IsQueueRun(queues, steps)
    ensures Refines(trace[|moves|], queues[|steps|])
    ensures trace[|moves|].granted == Appends(steps) + Promised(trace[|moves|])
    decreases |moves|
  {
    if moves == [] {
      queues, steps := [EmptyQueue()], [];
    } else {
      var n := |moves| - 1;
      queues, steps := ThreadsRefineQueue(trace[..n + 1], moves[..n]);
      var q := queues[|steps|];
      MoveRefines(trace[n], moves[n], q);
      var s := StepOf(trace[n], moves[n]);
      if s.Some? {
        queues, steps := queues + [Apply(q, s.value)], steps + [s.value];
      }
      RunHistory(queues, steps);
    }
  }

  /** When a producer is about to grow the vector, every task already in it holds its data, so the move
      of each stored task into the new memory has something to move. */
  lemma {:induction false} GrowthMovesFullCellsOnly<T>(trace: seq<Threads<T>>, moves: seq<Move<T>>, p: nat)
    requires IsThreadRun(trace, moves)
    requires CanMove(trace[|moves|], Emplace(p))
    ensures AllFull(trace[|moves|].work)
  {
    var queues, steps := ThreadsRefineQueue(trace, moves);
    var c := trace[|moves|];
    assert InSection(c.producers[p]) && c.lock == HeldBy(p);
    assert Finished(c) == c.work;
  }

  /** A task that the consumer runs always has its function and its data set. */
  lemma {:induction false} RunsFullCellsOnly<T>(trace: seq<Threads<T>>, moves: seq<Move<T>>)
    requires IsThreadRun(trace, moves)
    requires CanMove(trace[|moves|], BeginTask)
    ensures Full(trace[|moves|].back[trace[|moves|].next])
  {
    var queues, steps := ThreadsRefineQueue(trace, moves);
  }

  // ---------- The object ----------

  /** What running `items` in order does: the new world, and the tasks enqueued on the way on the very
      executor that runs them. `run` stands for the user's code inside a task. */
  function RunAll<W, T>(run: (W, T) -> (W, seq<T>), world: W, items: seq<T>): (W, seq<T>) {
    if items == [] then (world, [])
    else
      var (world1, mine) := run(world, items[0]);
      var (world2, rest) := RunAll(run, world1, items[1..]);
      (world2, mine + rest)
  }

  /** What has been enqueued on the way after the first n items, given what each enqueued. */
  function Made<T>(mine: seq<seq<T>>, n: nat): seq<T>
    requires n <= |mine|
  {
    if n == 0 then [] else Made(mine, n - 1) + mine[n - 1]
  }

  /** Item by item: the first finds the world as it is, each of the others as the one before it left it, and what
      they enqueue lines up in that order. */
  lemma {:induction false} RunAllSteps<W, T>(run: (W, T) -> (W, seq<T>), world: W, items: seq<T>)
    returns (worlds: seq<W>, mine: seq<seq<T>>)
    ensures |worlds| == |items| + 1 && |mine| == |items| && worlds[0] == world
    ensures forall i :: 0 <= i < |items| ==> (worlds[i + 1], mine[i]) == run(worlds[i], items[i])
    ensures RunAll(run, world, items) == (worlds[|items|], Made(mine, |items|))
    decreases |items|
  {
    if items == [] {
      worlds, mine := [world], [];
    } else {
      var n := |items| - 1;
      worlds, mine := RunAllSteps(run, world, items[..n]);
      var (next, made) := run(worlds[n], items[n]);
      RunAllConcat(run, world, items[..n], [items[n]]);
      assert items == items[..n] + [items[n]];
      assert RunAll(run, worlds[n], [items[n]]) == (next, made + []) && made + [] == made;
      MadeMore(mine, made);
      worlds, mine := worlds + [next], mine + [made];
    }
  }

  lemma {:induction false} MadeMore<T>(mine: seq<seq<T>>, made: seq<T>)
    ensures Made(mine + [made], |mine| + 1) == Made(mine, |mine|) + made
  {
    MadeSame(mine, mine + [made], |mine|);
  }

  lemma {:induction false} MadeSame<T>(a: seq<seq<T>>, b: seq<seq<T>>, n: nat)
    requires n <= |a| && a <= b
    ensures Made(a, n) == Made(b, n)
  {
    if n > 0 {
      MadeSame(a, b, n - 1);
    }
  }

  lemma {:induction false} RunAllConcat<W, T>(run: (W, T) -> (W, seq<T>), world: W, a: seq<T>, b: seq<T>)
    ensures var (world1, mine1) := RunAll(run, world, a);
            var (world2, mine2) := RunAll(run, world1, b);
            RunAll(run, world, a + b) == (world2, mine1 + mine2)
  {
    if a == [] {
      assert a + b == b;
      var (w2, mine2) := RunAll(run, world, b);
      assert [] + mine2 == mine2;
    } else {
      assert (a + b)[1..] == a[1..] + b;
      var (w, mine) := run(world, a[0]);
      RunAllConcat(run, w, a[1..], b);
      var (w1, mine1) := RunAll(run, w, a[1..]);
      var (w2, mine2) := RunAll(run, w1, b);
      assert mine + (mine1 + mine2) == (mine + mine1) + mine2;
    }
  }

  class WorkQueue<T> {
    var workItems: seq<T>
    var workItemsBackBuffer: seq<T>
    ghost var appended: seq<T>
    ghost var executed: seq<T>

    /** Between two calls: nothing is lost, nothing runs twice, and the back buffer is empty. */
    ghost predicate Valid()
      reads this
    {
      workItemsBackBuffer == [] && appended == executed + workItems
    }

    constructor ()
      ensures Valid() && workItems == [] && executed == []
    {
      workItems, workItemsBackBuffer, appended, executed := [], [], [], [];
    }

    method EnqueueWork(item: T)
      modifies this
      ensures workItems == old(workItems) + [item] && appended == old(appended) + [item]
      ensures workItemsBackBuffer == old(workItemsBackBuffer) && executed == old(executed)
      ensures old(Valid()) ==> Valid()
    {
      workItems := workItems + [item];
      appended := appended + [item];
    }

    /** Runs the tasks that were waiting when it was called, once each and in order; what they enqueue
        here is left for the next call. */
    method Execute<W>(run: (W, T) -> (W, seq<T>), world: W) returns (result: W)
      requires Valid()
      modifies this
      ensures Valid()
      ensures executed == old(executed) + old(workItems)
      ensures (result, workItems) == RunAll(run, world, old(workItems))
      ensures appended == old(appended) + workItems
    {
      workItems, workItemsBackBuffer := workItemsBackBuffer, workItems;
      result := world;
      for i := 0 to |workItemsBackBuffer|
        invariant workItemsBackBuffer == old(workItems)
        invariant (result, workItems) == RunAll(run, world, workItemsBackBuffer[..i])
        invariant executed == old(executed) + workItemsBackBuffer[..i]
        invariant appended == old(appended) + workItems
      {
        var item := workItemsBackBuffer[i];
        ghost var before := result;
        RunAllConcat(run, world, workItemsBackBuffer[..i], [item]);
        assert workItemsBackBuffer[..i + 1] == workItemsBackBuffer[..i] + [item];
        executed := executed + [item];
        var (world', mine) := run(result, item);
        result := world';
        ghost var start := workItems;
        for j := 0 to |mine|
          invariant workItems == start + mine[..j] && appended == old(appended) + workItems
          invariant workItemsBackBuffer == old(workItems)
          invariant executed == old(executed) + old(workItems)[..i + 1]
        {
          EnqueueWork(mine[j]);
        }
        assert RunAll(run, before, [item]) == (result, mine + []);
        assert mine + [] == mine && mine[..|mine|] == mine;
      }
      assert old(workItems)[..|old(workItems)|] == old(workItems);
      workItemsBackBuffer := [];
    }
  }
}
