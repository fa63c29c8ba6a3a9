/**
 * Events (event.h): one send runs the handlers of the receivers on the sender's executor at once and queues
 * the others on their components' executors. Payloads are plain values.
 */
module Events {
  import opened Common
  import Brokers
  import opened References
  import Runs = Coherence
  import Components

  type Payload = nat

  /** An event as it was sent. Sends are numbered as they begin, which tells equal payloads apart. */
  datatype Event = Event(number: nat, payload: Payload)

  datatype Delivery = Delivery(sender: CompId, receiver: CompId, handler: HandlerId, event: Event)

  /** A send that has not returned, and the receivers it has not come to yet. */
  datatype Sending = Sending(event: Event, targets: seq<Target>)

  /** What is queued on each executor; what has run and on which executor; the sends that each component is
      in, innermost first, since a handler that is run within a send may make the sender send again; and how
      many sends there have been. */
  datatype State = State(queues: map<ExecId, seq<Delivery>>, ran: seq<Delivery>, at: seq<ExecId>,
                         sending: map<CompId, seq<Sending>>, sends: nat)

  /** Senders go on at their own pace, each with its innermost send, and so do executors. */
  datatype Action =
    | Send(sender: CompId, payload: Payload, targets: seq<Target>)
    | Deliver(sender: CompId)
    | Return(sender: CompId)
    | RunOne(e: ExecId)

  function QueueOf(s: State, e: ExecId): seq<Delivery> {
    if e in s.queues then s.queues[e] else []
  }

  function SendsOf(s: State, c: CompId): seq<Sending> {
    if c in s.sending then s.sending[c] else []
  }

  function DeliveryOf(sender: CompId, event: Event, t: Target): Delivery {
    Delivery(sender, t.receiver, t.handler, event)
  }

  function Run(s: State, d: Delivery, e: ExecId): State {
    s.(ran := s.ran + [d], at := s.at + [e])
  }

  /** The loop's body for one receiver. */
  function DeliverTo(home: CompId -> ExecId, s: State, sender: CompId, event: Event, t: Target): State {
    var d := DeliveryOf(sender, event, t);
    if t.sameExecutor then Run(s, d, home(sender))
    else s.(queues := s.queues[home(t.receiver) := QueueOf(s, home(t.receiver)) + [d]])
  }

  predicate Flagged(home: CompId -> ExecId, sender: CompId, targets: seq<Target>) {
    forall i :: 0 <= i < |targets| ==> (targets[i].sameExecutor <==> home(targets[i].receiver) == home(sender))
  }

  predicate Can(home: CompId -> ExecId, s: State, a: Action) {
    match a
    case Send(c, _, targets) => Flagged(home, c, targets)
    case Deliver(c) => SendsOf(s, c) != [] && SendsOf(s, c)[0].targets != []
    case Return(c) => SendsOf(s, c) != [] && SendsOf(s, c)[0].targets == []
    case RunOne(e) => QueueOf(s, e) != []
  }

  function Next(home: CompId -> ExecId, s: State, a: Action): State
    requires Can(home, s, a)
  {
    match a
    case Send(c, payload, targets) =>
      s.(sending := s.sending[c := [Sending(Event(s.sends, payload), targets)] + SendsOf(s, c)], sends := s.sends + 1)
    case Deliver(c) =>
      var x, outer := s.sending[c][0], s.sending[c][1..];
      DeliverTo(home, s, c, x.event, x.targets[0])
        .(sending := s.sending[c := [x.(targets := x.targets[1..])] + outer])
    case Return(c) => s.(sending := s.sending[c := s.sending[c][1..]])
    case RunOne(e) => Run(s.(queues := s.queues[e := QueueOf(s, e)[1..]]), QueueOf(s, e)[0], e)
  }

  ghost predicate IsRun(home: CompId -> ExecId, trace: seq<State>, acts: seq<Action>) {
    && |trace| == |acts| + 1
    && trace[0] == State(map[], [], [], map[], 0)
    && forall i :: 0 <= i < |acts| ==> Can(home, trace[i], acts[i]) && trace[i + 1] == Next(home, trace[i], acts[i])
  }

  // ---------- Exactly once ----------

  /** The deliveries from one component to another. */
  function Between(ds: seq<Delivery>, c: CompId, d: CompId): seq<Delivery> {
    if ds == [] then []
    else (if ds[0].sender == c && ds[0].receiver == d then [ds[0]] else []) + Between(ds[1..], c, d)
  }

  lemma {:induction false} BetweenConcat(a: seq<Delivery>, b: seq<Delivery>, c: CompId, d: CompId)
    ensures Between(a + b, c, d) == Between(a, c, d) + Between(b, c, d)
  {
    if a == [] {
      assert a + b == b;
    } else {
      assert (a + b)[1..] == a[1..] + b;
      BetweenConcat(a[1..], b, c, d);
    }
  }

  function Deliveries(c: CompId, event: Event, targets: seq<Target>): (r: seq<Delivery>)
    ensures |r| == |targets|
    ensures forall i :: 0 <= i < |r| ==> r[i] == Delivery(c, targets[i].receiver, targets[i].handler, event)
  {
    seq(|targets|, i requires 0 <= i < |targets| => DeliveryOf(c, event, targets[i]))
  }

  /** How many of the first n steps were sends. */
  function Sends(acts: seq<Action>, n: nat): nat
    requires n <= |acts|
  {
    if n == 0 then 0 else Sends(acts, n - 1) + if acts[n - 1].Send? then 1 else 0
  }

  /** What the send that is step k has for d, if it is one of c. */
  function SentBy(acts: seq<Action>, k: nat, c: CompId, d: CompId): seq<Delivery>
    requires k < |acts|
  {
    match acts[k]
    case Send(sender, payload, targets) => Between(Deliveries(sender, Event(Sends(acts, k), payload), targets), c, d)
    case _ => []
  }

  /** What the sends of a run, to all their receivers, have for one of them, in the order of the sends. */
  function Sent(acts: seq<Action>, n: nat, c: CompId, d: CompId): seq<Delivery>
    requires n <= |acts|
  {
    if n == 0 then [] else Sent(acts, n - 1, c, d) + SentBy(acts, n - 1, c, d)
  }

  /** What the sends that c is in still have to deliver, in the order in which they will. */
  function ToCome(sends: seq<Sending>, c: CompId): seq<Delivery> {
    if sends == [] then [] else Deliveries(c, sends[0].event, sends[0].targets) + ToCome(sends[1..], c)
  }

  /** What d has got from c, or has in its queue. */
  function Arrived(home: CompId -> ExecId, s: State, c: CompId, d: CompId): seq<Delivery> {
    Between(s.ran, c, d) + Between(QueueOf(s, home(d)), c, d)
  }

  function Pending(s: State, c: CompId, d: CompId): seq<Delivery> {
    Between(ToCome(SendsOf(s, c), c), c, d)
  }

  /** What d gets from c, in the order in which it runs: so far, and if nothing more is sent. */
  function Course(home: CompId -> ExecId, s: State, c: CompId, d: CompId): seq<Delivery> {
    Arrived(home, s, c, d) + Pending(s, c, d)
  }

  /** Queues hold only what goes to another executor, each to its own. */
  ghost predicate Sorted(home: CompId -> ExecId, s: State) {
    && (forall e :: e in s.queues ==> forall i :: 0 <= i < |s.queues[e]| ==>
          home(s.queues[e][i].receiver) == e && home(s.queues[e][i].sender) != e)
    && (forall c :: AllFlagged(home, c, SendsOf(s, c)))
    && |s.at| == |s.ran| && forall i :: 0 <= i < |s.ran| ==> s.at[i] == home(s.ran[i].receiver)
  }

  lemma {:induction false} NothingBetween(ds: seq<Delivery>, c: CompId, d: CompId)
    requires forall i :: 0 <= i < |ds| ==> ds[i].sender != c || ds[i].receiver != d
    ensures Between(ds, c, d) == []
  {
    if ds != [] {
      NothingBetween(ds[1..], c, d);
    }
  }

  /** The sends that c is in after a step. */
  function SendsAfter(s: State, a: Action, c: CompId): seq<Sending> {
    var sends := SendsOf(s, c);
    match a
    case Send(from, payload, targets) =>
      if from == c then [Sending(Event(s.sends, payload), targets)] + sends else sends
    case Deliver(from) =>
      if from == c && sends != [] && sends[0].targets != []
      then [sends[0].(targets := sends[0].targets[1..])] + sends[1..] else sends
    case Return(from) => if from == c && sends != [] then sends[1..] else sends
    case RunOne(_) => sends
  }

  lemma {:induction false} NextSends(home: CompId -> ExecId, s: State, a: Action, c: CompId)
    requires Can(home, s, a)
    ensures SendsOf(Next(home, s, a), c) == SendsAfter(s, a, c)
  {
  }

  ghost predicate AllFlagged(home: CompId -> ExecId, c: CompId, sends: seq<Sending>) {
    forall i :: 0 <= i < |sends| ==> Flagged(home, c, sends[i].targets)
  }

  lemma {:induction false} StepFlagged(home: CompId -> ExecId, s: State, a: Action, c: CompId)
    requires Can(home, s, a) && AllFlagged(home, c, SendsOf(s, c))
    ensures AllFlagged(home, c, SendsAfter(s, a, c))
  {
    var sends, after := SendsOf(s, c), SendsAfter(s, a, c);
    forall i | 0 <= i < |after| ensures Flagged(home, c, after[i].targets) {
      if a.Send? && a.sender == c && i > 0 {
        assert after[i] == sends[i - 1];
      }
      if a.Deliver? && a.sender == c && sends != [] {
        assert Flagged(home, c, sends[0].targets);
      }
    }
  }

  lemma {:induction false} StepSorted(home: CompId -> ExecId, s: State, a: Action)
    requires Sorted(home, s) && Can(home, s, a)
    ensures Sorted(home, Next(home, s, a))
  {
    forall c ensures AllFlagged(home, c, SendsOf(Next(home, s, a), c)) {
      StepFlagged(home, s, a, c);
      NextSends(home, s, a, c);
    }
    if a.Deliver? {
      assert Flagged(home, a.sender, SendsOf(s, a.sender)[0].targets);
    }
  }

  lemma {:induction false} BetweenOne(x: Delivery, c: CompId, d: CompId)
    ensures Between([x], c, d) == if x.sender == c && x.receiver == d then [x] else []
  {
    assert [x][1..] == [];
  }

  lemma {:induction false} QueueNext(ds: seq<Delivery>, c: CompId, d: CompId)
    requires ds != []
    ensures Between(ds, c, d) == Between([ds[0]], c, d) + Between(ds[1..], c, d)
  {
    assert ds == [ds[0]] + ds[1..];
    BetweenConcat([ds[0]], ds[1..], c, d);
  }

  /** Delivering to the next receiver takes the first of what is to come. */
  lemma {:induction false} ToComeNext(sends: seq<Sending>, c: CompId, d: CompId)
    requires sends != [] && sends[0].targets != []
    ensures var x := sends[0];
      var rest := [x.(targets := x.targets[1..])] + sends[1..];
      Between(ToCome(sends, c), c, d)
        == Between([DeliveryOf(c, x.event, x.targets[0])], c, d) + Between(ToCome(rest, c), c, d)
  {
    var x := sends[0];
    var one, rest := DeliveryOf(c, x.event, x.targets[0]), [x.(targets := x.targets[1..])] + sends[1..];
    ToComeFirst(x, sends[1..], c);
    assert sends == [x] + sends[1..];
    BetweenConcat([one], ToCome(rest, c), c, d);
  }

  lemma {:induction false} ToComeFirst(x: Sending, outer: seq<Sending>, c: CompId)
    requires x.targets != []
    ensures ToCome([x] + outer, c)
         == [DeliveryOf(c, x.event, x.targets[0])] + ToCome([x.(targets := x.targets[1..])] + outer, c)
  {
    var one, y := DeliveryOf(c, x.event, x.targets[0]), x.(targets := x.targets[1..]);
    assert ([x] + outer)[1..] == outer && ([y] + outer)[1..] == outer;
    assert Deliveries(c, x.event, x.targets) == [one] + Deliveries(c, x.event, y.targets);
    Regroup([one], Deliveries(c, x.event, y.targets), ToCome(outer, c));
  }

  lemma {:induction false} PendingNext(home: CompId -> ExecId, s: State, from: CompId, c: CompId, d: CompId)
    requires Can(home, s, Deliver(from))
    ensures var x := SendsOf(s, from)[0];
      Pending(s, c, d)
        == Between([DeliveryOf(from, x.event, x.targets[0])], c, d) + Pending(Next(home, s, Deliver(from)), c, d)
  {
    var x := SendsOf(s, from)[0];
    NextSends(home, s, Deliver(from), c);
    BetweenOne(DeliveryOf(from, x.event, x.targets[0]), c, d);
    if from == c {
      ToComeNext(SendsOf(s, c), c, d);
    }
  }

  lemma {:induction false} DeliverCourse(home: CompId -> ExecId, s: State, from: CompId, c: CompId, d: CompId)
    requires Sorted(home, s) && Can(home, s, Deliver(from))
    ensures Course(home, Next(home, s, Deliver(from)), c, d) == Course(home, s, c, d)
  {
    var x, v := SendsOf(s, from)[0], Next(home, s, Deliver(from));
    PendingNext(home, s, from, c, d);
    assert AllFlagged(home, from, SendsOf(s, from)) && Flagged(home, from, x.targets);
    DeliveredOne(home, s, v, from, x.event, x.targets[0], c, d);
    Regroup(Arrived(home, s, c, d), Between([DeliveryOf(from, x.event, x.targets[0])], c, d), Pending(v, c, d));
  }

  lemma {:induction false} Regroup(a: seq<Delivery>, x: seq<Delivery>, b: seq<Delivery>)
    ensures a + x + b == a + (x + b)
  {
  }

  /** What a delivery adds to the receiver's part. */
  lemma {:induction false} DeliveredOne(home: CompId -> ExecId, s: State, v: State, from: CompId,
          event: Event, t: Target, c: CompId, d: CompId)
    requires Sorted(home, s) && (t.sameExecutor <==> home(t.receiver) == home(from))
    requires var u := DeliverTo(home, s, from, event, t); v.ran == u.ran && v.queues == u.queues
    ensures Arrived(home, v, c, d) == Arrived(home, s, c, d) + Between([DeliveryOf(from, event, t)], c, d)
  {
    var one := DeliveryOf(from, event, t);
    BetweenOne(one, c, d);
    if t.sameExecutor {
      BetweenConcat(s.ran, [one], c, d);
      if from == c && t.receiver == d {
        NothingBetween(QueueOf(s, home(d)), c, d);
      }
    } else {
      BetweenConcat(QueueOf(s, home(t.receiver)), [one], c, d);
    }
  }

  lemma {:induction false} RanOne(s: State, v: State, e: ExecId, at: ExecId, c: CompId, d: CompId)
    requires QueueOf(s, e) != [] && v.ran == s.ran + [QueueOf(s, e)[0]] && QueueOf(v, e) == QueueOf(s, e)[1..]
    requires at != e ==> QueueOf(v, at) == QueueOf(s, at) && QueueOf(s, e)[0].receiver != d
    ensures Between(v.ran, c, d) + Between(QueueOf(v, at), c, d) == Between(s.ran, c, d) + Between(QueueOf(s, at), c, d)
  {
    var q := QueueOf(s, e);
    BetweenOne(q[0], c, d);
    BetweenConcat(s.ran, [q[0]], c, d);
    QueueNext(q, c, d);
    Regroup(Between(s.ran, c, d), Between([q[0]], c, d), Between(QueueOf(v, at), c, d));
  }

  lemma {:induction false} ReturnCourse(home: CompId -> ExecId, s: State, from: CompId, c: CompId, d: CompId)
    requires Can(home, s, Return(from))
    ensures Course(home, Next(home, s, Return(from)), c, d) == Course(home, s, c, d)
  {
    NextSends(home, s, Return(from), c);
    if from == c {
      assert Deliveries(c, SendsOf(s, c)[0].event, []) == [];
      assert ToCome(SendsOf(s, c), c) == ToCome(SendsOf(s, c)[1..], c);
    }
  }

  /** Only sends change a course. */
  lemma {:induction false} OthersKeepCourse(home: CompId -> ExecId, s: State, a: Action, c: CompId, d: CompId)
    requires Sorted(home, s) && Can(home, s, a) && !a.Send?
    ensures Course(home, Next(home, s, a), c, d) == Course(home, s, c, d)
  {
    match a
    case Deliver(from) => DeliverCourse(home, s, from, c, d);
    case Return(from) => ReturnCourse(home, s, from, c, d);
    case RunOne(e) => RanOne(s, Next(home, s, a), e, home(d), c, d);
  }

  lemma {:induction false} PendingAfterSend(s: State, a: Action, c: CompId, d: CompId)
    requires a.Send?
    ensures Between(ToCome(SendsAfter(s, a, c), c), c, d)
         == Between(Deliveries(a.sender, Event(s.sends, a.payload), a.targets), c, d) + Pending(s, c, d)
  {
    var sent, sends := Deliveries(a.sender, Event(s.sends, a.payload), a.targets), SendsOf(s, c);
    if a.sender == c {
      assert SendsAfter(s, a, c)[1..] == sends;
      BetweenConcat(sent, ToCome(sends, c), c, d);
    } else {
      NothingBetween(sent, c, d);
    }
  }

  /** A send puts what it has for d before whatever the sends around it still have for d. */
  lemma {:induction false} SendCourse(home: CompId -> ExecId, s: State, a: Action, c: CompId, d: CompId)
    requires Can(home, s, a) && a.Send?
    ensures Course(home, Next(home, s, a), c, d) == Arrived(home, s, c, d)
      + Between(Deliveries(a.sender, Event(s.sends, a.payload), a.targets), c, d) + Pending(s, c, d)
  {
    var v := Next(home, s, a);
    assert v.ran == s.ran && v.queues == s.queues;
    NextSends(home, s, a, c);
    PendingAfterSend(s, a, c, d);
    Regroup(Arrived(home, s, c, d), Between(Deliveries(a.sender, Event(s.sends, a.payload), a.targets), c, d),
            Pending(s, c, d));
  }

  lemma {:induction false} StepCourse(home: CompId -> ExecId, trace: seq<State>, acts: seq<Action>, n: nat,
          c: CompId, d: CompId)
    requires IsRun(home, trace, acts) && n < |acts| && Sorted(home, trace[n]) && trace[n].sends == Sends(acts, n)
    ensures Course(home, trace[n + 1], c, d)
         == Arrived(home, trace[n], c, d) + SentBy(acts, n, c, d) + Pending(trace[n], c, d)
  {
    if acts[n].Send? {
      SendCourse(home, trace[n], acts[n], c, d);
    } else {
      OthersKeepCourse(home, trace[n], acts[n], c, d);
      assert SentBy(acts, n, c, d) == [];
    }
  }

  lemma {:induction false} RunSorted(home: CompId -> ExecId, trace: seq<State>, acts: seq<Action>, n: nat)
    requires IsRun(home, trace, acts) && n <= |acts|
    ensures Sorted(home, trace[n]) && trace[n].sends == Sends(acts, n)
  {
    if n > 0 {
      RunSorted(home, trace, acts, n - 1);
      StepSorted(home, trace[n - 1], acts[n - 1]);
    }
  }

  lemma {:induction false} RunCourse(home: CompId -> ExecId, trace: seq<State>, acts: seq<Action>, n: nat,
          c: CompId, d: CompId)
    requires IsRun(home, trace, acts) && n < |acts|
    ensures Course(home, trace[n + 1], c, d)
         == Arrived(home, trace[n], c, d) + SentBy(acts, n, c, d) + Pending(trace[n], c, d)
  {
    RunSorted(home, trace, acts, n);
    StepCourse(home, trace, acts, n, c, d);
  }

  /** On every run each delivery runs on the default executor of its receiver. */
  lemma {:induction false} EventsAtHome(home: CompId -> ExecId, trace: seq<State>, acts: seq<Action>, n: nat)
    requires IsRun(home, trace, acts) && n <= |acts|
    ensures var s := trace[n];
      |s.at| == |s.ran| && forall i :: 0 <= i < |s.ran| ==> s.at[i] == home(s.ran[i].receiver)
  {
    RunSorted(home, trace, acts, n);
  }

  /** On every run, sends within sends included: what a component has got of another's events, what is queued
      for it and what is still on its way is exactly what the other has sent it, none lost and none doubled. */
  lemma {:induction false} EventsExactlyOnce(home: CompId -> ExecId, trace: seq<State>, acts: seq<Action>,
          n: nat, c: CompId, d: CompId)
    requires IsRun(home, trace, acts) && n <= |acts|
    ensures multiset(Course(home, trace[n], c, d)) == multiset(Sent(acts, n, c, d))
    decreases n
  {
    if n == 0 {
      NothingAtFirst(home, c, d);
    } else {
      EventsExactlyOnce(home, trace, acts, n - 1, c, d);
      OnceMore(home, trace, acts, n - 1, c, d);
    }
  }

  lemma {:induction false} NothingAtFirst(home: CompId -> ExecId, c: CompId, d: CompId)
    ensures Course(home, State(map[], [], [], map[], 0), c, d) == []
  {
  }

  lemma {:induction false} OnceMore(home: CompId -> ExecId, trace: seq<State>, acts: seq<Action>, n: nat,
          c: CompId, d: CompId)
    requires IsRun(home, trace, acts) && n < |acts|
    requires multiset(Course(home, trace[n], c, d)) == multiset(Sent(acts, n, c, d))
    ensures multiset(Course(home, trace[n + 1], c, d)) == multiset(Sent(acts, n + 1, c, d))
  {
    RunCourse(home, trace, acts, n, c, d);
    SameElements(Arrived(home, trace[n], c, d), SentBy(acts, n, c, d), Pending(trace[n], c, d));
  }

  lemma {:induction false} SameElements(a: seq<Delivery>, x: seq<Delivery>, b: seq<Delivery>)
    ensures multiset(a + x + b) == multiset(a + b) + multiset(x)
  {
  }

  // ---------- In order ----------

  predicate Addresses(targets: seq<Target>, d: CompId) {
    exists i :: 0 <= i < |targets| && targets[i].receiver == d
  }

  /** A send of c that c is in has d still to come to. */
  predicate StillOwes(sends: seq<Sending>, d: CompId) {
    exists i :: 0 <= i < |sends| && Addresses(sends[i].targets, d)
  }

  /** c sends something to d within a send that d has yet to get something from. */
  predicate Overtakes(s: State, a: Action, c: CompId, d: CompId) {
    a.Send? && a.sender == c && Addresses(a.targets, d) && StillOwes(SendsOf(s, c), d)
  }

  lemma {:induction false} BetweenMembers(ds: seq<Delivery>, c: CompId, d: CompId)
    ensures forall x :: x in Between(ds, c, d) ==> x in ds
    ensures Between(ds, c, d) != [] <==> exists i :: 0 <= i < |ds| && ds[i].sender == c && ds[i].receiver == d
  {
    if ds != [] {
      BetweenMembers(ds[1..], c, d);
      if i :| 0 <= i < |ds[1..]| && ds[1..][i].sender == c && ds[1..][i].receiver == d {
        assert ds[i + 1].sender == c && ds[i + 1].receiver == d;
      }
      assert forall i :: 0 < i < |ds| ==> ds[i] == ds[1..][i - 1];
    }
  }

  lemma {:induction false} AddressedBetween(c: CompId, event: Event, targets: seq<Target>, d: CompId)
    ensures Between(Deliveries(c, event, targets), c, d) != [] <==> Addresses(targets, d)
  {
    var ds := Deliveries(c, event, targets);
    BetweenMembers(ds, c, d);
    if i :| 0 <= i < |targets| && targets[i].receiver == d {
      assert ds[i].sender == c && ds[i].receiver == d;
    }
  }

  lemma {:induction false} OwedBetween(sends: seq<Sending>, c: CompId, d: CompId)
    ensures Between(ToCome(sends, c), c, d) != [] <==> StillOwes(sends, d)
  {
    if sends != [] {
      OwedBetween(sends[1..], c, d);
      AddressedBetween(c, sends[0].event, sends[0].targets, d);
      BetweenConcat(Deliveries(c, sends[0].event, sends[0].targets), ToCome(sends[1..], c), c, d);
      if i :| 0 <= i < |sends[1..]| && Addresses(sends[1..][i].targets, d) {
        assert Addresses(sends[i + 1].targets, d);
      }
      assert forall i :: 0 < i < |sends| ==> sends[i] == sends[1..][i - 1];
    }
  }

  /** A step overtakes exactly if it puts something before something else. */
  lemma {:induction false} OvertakesExactly(home: CompId -> ExecId, trace: seq<State>, acts: seq<Action>, n: nat,
          c: CompId, d: CompId)
    requires IsRun(home, trace, acts) && n < |acts|
    ensures Overtakes(trace[n], acts[n], c, d) <==> SentBy(acts, n, c, d) != [] && Pending(trace[n], c, d) != []
  {
    OwedBetween(SendsOf(trace[n], c), c, d);
    match acts[n]
    case Send(sender, payload, targets) =>
      var event := Event(Sends(acts, n), payload);
      if sender == c {
        AddressedBetween(c, event, targets, d);
      } else {
        NothingBetween(Deliveries(sender, event, targets), c, d);
      }
    case _ =>
  }

  /** Something comes after a delivery of a later send. */
  ghost predicate Inverted(ds: seq<Delivery>) {
    exists i, j :: 0 <= i < j < |ds| && ds[i].event.number > ds[j].event.number
  }

  lemma {:induction false} StaysInverted(a: seq<Delivery>, x: seq<Delivery>, b: seq<Delivery>)
    requires Inverted(a + b)
    ensures Inverted(a + x + b)
  {
    var i, j :| 0 <= i < j < |a + b| && (a + b)[i].event.number > (a + b)[j].event.number;
    var i', j' := if i < |a| then i else i + |x|, if j < |a| then j else j + |x|;
    assert (a + x + b)[i'] == (a + b)[i] && (a + x + b)[j'] == (a + b)[j];
  }

  ghost predicate Below(ds: seq<Delivery>, k: nat) {
    forall x :: x in ds ==> x.event.number < k
  }

  lemma {:induction false} SentByNumber(acts: seq<Action>, k: nat, c: CompId, d: CompId)
    requires k < |acts|
    ensures forall x :: x in SentBy(acts, k, c, d) ==> acts[k].Send? && x.event.number == Sends(acts, k)
  {
    if acts[k].Send? {
      BetweenMembers(Deliveries(acts[k].sender, Event(Sends(acts, k), acts[k].payload), acts[k].targets), c, d);
    }
  }

  lemma {:induction false} Ascends(a: seq<Delivery>, x: seq<Delivery>, k: nat)
    requires !Inverted(a) && Below(a, k) && forall y :: y in x ==> y.event.number == k
    ensures !Inverted(a + x) && Below(a + x, k + 1)
  {
    var all: seq<Delivery> := a + x;
    forall i, j | 0 <= i < j < |all| ensures all[i].event.number <= all[j].event.number {
      assert i < |a| ==> a[i] in a;
      assert i >= |a| ==> x[i - |a|] in x;
      assert j >= |a| ==> x[j - |a|] in x;
    }
  }

  /** In the order of their sends, which are among the first k. */
  ghost predicate Ascending(ds: seq<Delivery>, k: nat) {
    !Inverted(ds) && Below(ds, k)
  }

  lemma {:induction false} SentNumbers(acts: seq<Action>, n: nat, c: CompId, d: CompId)
    requires n <= |acts|
    ensures Ascending(Sent(acts, n, c, d), Sends(acts, n))
    decreases n
  {
    if n > 0 {
      SentNumbers(acts, n - 1, c, d);
      SentMore(acts, n - 1, c, d);
    }
  }

  lemma {:induction false} SentMore(acts: seq<Action>, k: nat, c: CompId, d: CompId)
    requires k < |acts| && Ascending(Sent(acts, k, c, d), Sends(acts, k))
    ensures Ascending(Sent(acts, k + 1, c, d), Sends(acts, k + 1))
  {
    if acts[k].Send? {
      SentByNumber(acts, k, c, d);
      Ascends(Sent(acts, k, c, d), SentBy(acts, k, c, d), Sends(acts, k));
    } else {
      NothingSent(acts, k, c, d);
    }
  }

  lemma {:induction false} NothingSent(acts: seq<Action>, k: nat, c: CompId, d: CompId)
    requires k < |acts| && !acts[k].Send?
    ensures Sent(acts, k + 1, c, d) == Sent(acts, k, c, d) && Sends(acts, k + 1) == Sends(acts, k)
  {
    assert SentBy(acts, k, c, d) == [];
  }

  lemma {:induction false} SameBelow(a: seq<Delivery>, b: seq<Delivery>, k: nat)
    requires multiset(a) == multiset(b) && Below(b, k)
    ensures Below(a, k)
  {
    forall x | x in a ensures x.event.number < k {
      assert x in multiset(a);
    }
  }

  lemma {:induction false} PutBefore(a: seq<Delivery>, x: seq<Delivery>, b: seq<Delivery>, k: nat)
    requires Below(a + b, k) && x != [] && b != [] && x[0].event.number == k
    ensures Inverted(a + x + b)
  {
    var all: seq<Delivery> := a + x + b;
    assert b[0] in a + b;
    assert all[|a|] == x[0] && all[|a| + |x|] == b[0];
  }

  lemma {:induction false} OvertakingInverts(home: CompId -> ExecId, trace: seq<State>, acts: seq<Action>, n: nat,
          c: CompId, d: CompId)
    requires IsRun(home, trace, acts) && n < |acts| && Overtakes(trace[n], acts[n], c, d)
    ensures Inverted(Course(home, trace[n + 1], c, d))
  {
    RunCourse(home, trace, acts, n, c, d);
    OvertakesExactly(home, trace, acts, n, c, d);
    EventsExactlyOnce(home, trace, acts, n, c, d);
    SentNumbers(acts, n, c, d);
    SentByNumber(acts, n, c, d);
    SameBelow(Course(home, trace[n], c, d), Sent(acts, n, c, d), Sends(acts, n));
    PutBefore(Arrived(home, trace[n], c, d), SentBy(acts, n, c, d), Pending(trace[n], c, d), Sends(acts, n));
  }

  lemma {:induction false} InvertedForGood(home: CompId -> ExecId, trace: seq<State>, acts: seq<Action>, i: nat,
          n: nat, c: CompId, d: CompId)
    requires IsRun(home, trace, acts) && i <= n <= |acts| && Inverted(Course(home, trace[i], c, d))
    ensures Inverted(Course(home, trace[n], c, d))
    decreases n - i
  {
    if i < n {
      StepInverted(home, trace, acts, i, c, d);
      InvertedForGood(home, trace, acts, i + 1, n, c, d);
    }
  }

  lemma {:induction false} StepInverted(home: CompId -> ExecId, trace: seq<State>, acts: seq<Action>, n: nat,
          c: CompId, d: CompId)
    requires IsRun(home, trace, acts) && n < |acts| && Inverted(Course(home, trace[n], c, d))
    ensures Inverted(Course(home, trace[n + 1], c, d))
  {
    RunCourse(home, trace, acts, n, c, d);
    StaysInverted(Arrived(home, trace[n], c, d), SentBy(acts, n, c, d), Pending(trace[n], c, d));
  }

  lemma {:induction false} InOrderIfNotOvertaken(home: CompId -> ExecId, trace: seq<State>, acts: seq<Action>,
          n: nat, c: CompId, d: CompId)
    requires IsRun(home, trace, acts) && n <= |acts|
    requires forall i :: 0 <= i < n ==> !Overtakes(trace[i], acts[i], c, d)
    ensures Course(home, trace[n], c, d) == Sent(acts, n, c, d)
    decreases n
  {
    if n == 0 {
      NothingAtFirst(home, c, d);
    } else {
      InOrderIfNotOvertaken(home, trace, acts, n - 1, c, d);
      RunCourse(home, trace, acts, n - 1, c, d);
      OvertakesExactly(home, trace, acts, n - 1, c, d);
      Last(Arrived(home, trace[n - 1], c, d), SentBy(acts, n - 1, c, d), Pending(trace[n - 1], c, d));
    }
  }

  lemma {:induction false} Last(a: seq<Delivery>, x: seq<Delivery>, b: seq<Delivery>)
    ensures x == [] || b == [] ==> a + x + b == a + b + x
  {
  }

  /** Events of one sender come in the order in which they were sent if and only if none was sent from within
      a send that still had to come to the same receiver. */
  lemma {:induction false} EventsInOrder(home: CompId -> ExecId, trace: seq<State>, acts: seq<Action>,
          n: nat, c: CompId, d: CompId)
    requires IsRun(home, trace, acts) && n <= |acts|
    ensures Course(home, trace[n], c, d) == Sent(acts, n, c, d)
      <==> forall i :: 0 <= i < n ==> !Overtakes(trace[i], acts[i], c, d)
  {
    if i :| 0 <= i < n && Overtakes(trace[i], acts[i], c, d) {
      OvertakingInverts(home, trace, acts, i, c, d);
      InvertedForGood(home, trace, acts, i + 1, n, c, d);
      SentNumbers(acts, n, c, d);
    } else {
      InOrderIfNotOvertaken(home, trace, acts, n, c, d);
    }
  }

  /** Component 0 sends 7 to 1, on its own executor, and to 2, on another. The handler of 1 makes it send 8 to
      2, which gets 8 before 7. */
  lemma {:induction false} SendWithinSend() returns (home: CompId -> ExecId, trace: seq<State>, acts: seq<Action>)
    ensures var near, far := Target(1, 4, true), Target(2, 5, false);
      acts == [Send(0, 7, [near, far]), Deliver(0), Send(0, 8, [far]), Deliver(0), Return(0), Deliver(0)]
    ensures IsRun(home, trace, acts)
    ensures QueueOf(trace[6], home(2)) == [Delivery(0, 2, 5, Event(1, 8)), Delivery(0, 2, 5, Event(0, 7))]
  {
    home := c => if c == 2 then 1 else 0;
    var near, far := Target(1, 4, true), Target(2, 5, false);
    acts := [Send(0, 7, [near, far]), Deliver(0), Send(0, 8, [far]), Deliver(0), Return(0), Deliver(0)];
    var s0 := State(map[], [], [], map[], 0);
    var s1, s2 := Begun(home, near, far);
    var s3, s4, s5, s6 := Overtaken(home, s2);
    trace := [s0, s1, s2, s3, s4, s5, s6];
  }

  lemma {:induction false} Begun(home: CompId -> ExecId, near: Target, far: Target) returns (s1: State, s2: State)
    requires near.sameExecutor && home(near.receiver) == home(0) && !far.sameExecutor && home(far.receiver) != home(0)
    ensures var s0 := State(map[], [], [], map[], 0);
      && Can(home, s0, Send(0, 7, [near, far])) && s1 == Next(home, s0, Send(0, 7, [near, far]))
      && Can(home, s1, Deliver(0)) && s2 == Next(home, s1, Deliver(0))
      && s2.queues == map[] && s2.sends == 1 && SendsOf(s2, 0) == [Sending(Event(0, 7), [far])]
  {
    s1 := Next(home, State(map[], [], [], map[], 0), Send(0, 7, [near, far]));
    assert SendsOf(s1, 0) == [Sending(Event(0, 7), [near, far])];
    s2 := Next(home, s1, Deliver(0));
    assert [near, far][1..] == [far];
  }

  lemma {:induction false} Overtaken(home: CompId -> ExecId, s2: State)
    returns (s3: State, s4: State, s5: State, s6: State)
    requires home(0) == 0 && home(2) == 1 && s2.queues == map[] && s2.sends == 1
    requires SendsOf(s2, 0) == [Sending(Event(0, 7), [Target(2, 5, false)])]
    ensures var far := Target(2, 5, false);
      && Can(home, s2, Send(0, 8, [far])) && s3 == Next(home, s2, Send(0, 8, [far]))
      && Can(home, s3, Deliver(0)) && s4 == Next(home, s3, Deliver(0))
      && Can(home, s4, Return(0)) && s5 == Next(home, s4, Return(0))
      && Can(home, s5, Deliver(0)) && s6 == Next(home, s5, Deliver(0))
      && QueueOf(s6, 1) == [Delivery(0, 2, 5, Event(1, 8)), Delivery(0, 2, 5, Event(0, 7))]
  {
    var far := Target(2, 5, false);
    var outer := Sending(Event(0, 7), [far]);
    s3 := Next(home, s2, Send(0, 8, [far]));
    assert SendsOf(s3, 0) == [Sending(Event(1, 8), [far]), outer];
    s4 := Next(home, s3, Deliver(0));
    assert [far][1..] == [] && SendsOf(s3, 0)[1..] == [outer];
    assert SendsOf(s4, 0) == [Sending(Event(1, 8), []), outer];
    s5 := Next(home, s4, Return(0));
    assert SendsOf(s5, 0) == [outer];
    s6 := Next(home, s5, Deliver(0));
    assert QueueOf(s4, 1) == [Delivery(0, 2, 5, Event(1, 8))];
  }

  // ---------- One send ----------

  /** A send that nothing interrupts. */
  function FanOut(home: CompId -> ExecId, s: State, sender: CompId, event: Event, targets: seq<Target>): State
    decreases |targets|
  {
    if targets == [] then s
    else
      var n := |targets| - 1;
      DeliverTo(home, FanOut(home, s, sender, event, targets[..n]), sender, event, targets[n])
  }

  function ByExecutor(targets: seq<Target>, sync: bool, home: CompId -> ExecId, e: ExecId): seq<Target> {
    if targets == [] then []
    else
      var n := |targets| - 1;
      ByExecutor(targets[..n], sync, home, e)
        + if targets[n].sameExecutor == sync && home(targets[n].receiver) == e then [targets[n]] else []
  }

  lemma {:induction false} DeliveriesAppend(c: CompId, event: Event, targets: seq<Target>, t: Target)
    ensures Deliveries(c, event, targets + [t]) == Deliveries(c, event, targets) + [DeliveryOf(c, event, t)]
  {
  }

  lemma {:induction false} FanOutStep(home: CompId -> ExecId, s: State, c: CompId, event: Event,
          targets: seq<Target>, t: Target, e: ExecId)
    requires t.sameExecutor <==> home(t.receiver) == home(c)
    ensures var sync, sync' := ByExecutor(targets, true, home, home(c)), ByExecutor(targets + [t], true, home, home(c));
      Deliveries(c, event, sync')
         == Deliveries(c, event, sync) + if t.sameExecutor then [DeliveryOf(c, event, t)] else []
    ensures var queued, queued' := ByExecutor(targets, false, home, e), ByExecutor(targets + [t], false, home, e);
      Deliveries(c, event, queued')
         == Deliveries(c, event, queued)
            + if !t.sameExecutor && home(t.receiver) == e then [DeliveryOf(c, event, t)] else []
  {
    assert (targets + [t])[..|targets|] == targets;
    DeliveriesAppend(c, event, ByExecutor(targets, true, home, home(c)), t);
    DeliveriesAppend(c, event, ByExecutor(targets, false, home, e), t);
  }

  /** A send runs the handlers of all receivers on the sender's executor in the order of the list, and
      appends the others, in that order too, to the queues of their components' executors. */
  lemma {:induction false} FanOutExact(home: CompId -> ExecId, s: State, c: CompId, event: Event,
          targets: seq<Target>, e: ExecId)
    requires Flagged(home, c, targets)
    ensures var v := FanOut(home, s, c, event, targets);
      && v.ran == s.ran + Deliveries(c, event, ByExecutor(targets, true, home, home(c)))
      && QueueOf(v, e) == QueueOf(s, e) + Deliveries(c, event, ByExecutor(targets, false, home, e))
      && v.sending == s.sending && v.sends == s.sends
    decreases |targets|
  {
    if targets == [] {
      assert Deliveries(c, event, []) == [];
    } else {
      var n := |targets| - 1;
      FanOutExact(home, s, c, event, targets[..n], e);
      assert targets == targets[..n] + [targets[n]];
      FanOutStep(home, s, c, event, targets[..n], targets[n], e);
    }
  }

  /** The targets that the lookup before a send gives, on any run of components and references: one for each
      association of a living component with a handler, in order, and flagged with the right executor. */
  lemma {:induction false} SendReachesEveryAssociation(trace: seq<Runs.World>, acts: seq<Runs.Action>, k: nat,
          sender: CompId) returns (at: seq<nat>)
    requires Runs.IsRun(trace, acts) && k in trace[|acts|].polys
    requires trace[|acts|].polys[k].owner == trace[|acts|].t.home(sender)
    ensures var w := trace[|acts|];
      && Brokers.Valid(w.b)
      && var r, list := w.polys[k], Brokers.ListOf(w.b, w.polys[k].m);
      && var targets := LookUpAll(w.b, w.t, r).1.targets;
      && |at| == |targets| && Flagged(w.t.home, sender, targets)
      && (forall i :: 0 <= i < |at| ==> at[i] < |list| && IsTarget(targets[i], list[at[i]], w.t, r.m, r.owner))
      && (forall i, j :: 0 <= i < j < |at| ==> at[i] < at[j])
      && (forall i :: 0 <= i < |list| ==> (i in at <==> list[i] in w.t.alive && (list[i], r.m) in w.t.async))
  {
    var w := trace[|acts|];
    Runs.PolyLookupsAreFresh(trace, acts, k);
    at := ResolveAllExact(Brokers.ListOf(w.b, w.polys[k].m), w.t, w.polys[k].m, w.polys[k].owner);
  }

  lemma {:induction false} FanOutOne(home: CompId -> ExecId, s: State, sender: CompId, event: Event,
          targets: seq<Target>, i: nat)
    requires i < |targets|
    ensures FanOut(home, s, sender, event, targets[..i + 1])
         == DeliverTo(home, FanOut(home, s, sender, event, targets[..i]), sender, event, targets[i])
  {
    assert targets[..i + 1][..i] == targets[..i];
  }

  /** A send on its way: it has come to the first i receivers. */
  function Midway(home: CompId -> ExecId, s: State, c: CompId, payload: Payload, targets: seq<Target>, i: nat): State
    requires i <= |targets|
  {
    var event := Event(s.sends, payload);
    FanOut(home, s, c, event, targets[..i])
      .(sending := s.sending[c := [Sending(event, targets[i..])] + SendsOf(s, c)], sends := s.sends + 1)
  }

  lemma {:induction false} MidwayStep(home: CompId -> ExecId, s: State, c: CompId, payload: Payload,
          targets: seq<Target>, i: nat)
    requires i < |targets|
    ensures var v := Midway(home, s, c, payload, targets, i);
      Can(home, v, Deliver(c)) && Next(home, v, Deliver(c)) == Midway(home, s, c, payload, targets, i + 1)
  {
    FanOutOne(home, s, c, Event(s.sends, payload), targets, i);
    var v := Midway(home, s, c, payload, targets, i);
    assert targets[i..][0] == targets[i] && targets[i..][1..] == targets[i + 1..];
    assert SendsOf(v, c)[0].targets == targets[i..] && SendsOf(v, c)[1..] == SendsOf(s, c);
  }

  /** A send that nothing interrupts is this run of the sender's own steps. */
  lemma {:induction false} FanOutIsRun(home: CompId -> ExecId, s: State, c: CompId, payload: Payload,
          targets: seq<Target>) returns (on: nat -> State)
    requires Flagged(home, c, targets)
    ensures on(0) == Next(home, s, Send(c, payload, targets))
    ensures forall i: nat :: i < |targets| ==>
      Can(home, on(i), Deliver(c)) && on(i + 1) == Next(home, on(i), Deliver(c))
    ensures var n := |targets|;
      Can(home, on(n), Return(c))
      && Next(home, on(n), Return(c))
           == FanOut(home, s, c, Event(s.sends, payload), targets)
                .(sending := s.sending[c := SendsOf(s, c)], sends := s.sends + 1)
  {
    on := (i: nat) => if i <= |targets| then Midway(home, s, c, payload, targets, i) else s;
    MidwayEnds(home, s, c, payload, targets);
    forall i: nat | i < |targets|
      ensures Can(home, on(i), Deliver(c)) && on(i + 1) == Next(home, on(i), Deliver(c))
    {
      MidwayStep(home, s, c, payload, targets, i);
    }
  }

  lemma {:induction false} MidwayEnds(home: CompId -> ExecId, s: State, c: CompId, payload: Payload,
          targets: seq<Target>)
    requires Flagged(home, c, targets)
    ensures Midway(home, s, c, payload, targets, 0) == Next(home, s, Send(c, payload, targets))
    ensures var v := Midway(home, s, c, payload, targets, |targets|);
      Can(home, v, Return(c))
      && Next(home, v, Return(c))
           == FanOut(home, s, c, Event(s.sends, payload), targets)
                .(sending := s.sending[c := SendsOf(s, c)], sends := s.sends + 1)
  {
    assert targets[0..] == targets && targets[..|targets|] == targets && targets[|targets|..] == [];
    assert SendsOf(Midway(home, s, c, payload, targets, |targets|), c)[1..] == SendsOf(s, c);
  }

  /** An event of one component, with the queues and the record of everybody. */
  class EventSender {
    const sender: CompId
    const home: CompId -> ExecId
    const reference: Components.PolyRef
    var queues: map<ExecId, seq<Delivery>>
    var ran: seq<Delivery>
    var at: seq<ExecId>
    var sends: nat

    function View(): State
      reads this
    {
      State(queues, ran, at, map[], sends)
    }

    constructor (sender: CompId, home: CompId -> ExecId, reference: Components.PolyRef)
      ensures this.sender == sender && this.home == home && this.reference == reference
      ensures View() == State(map[], [], [], map[], 0)
    {
      this.sender, this.home, this.reference := sender, home, reference;
      queues, ran, at, sends := map[], [], [], 0;
    }

    method Send(components: map<CompId, Components.Component>, ghost t: Tables, payload: Payload)
      requires Brokers.Valid(reference.broker.View()) && Components.Living(components, t)
      modifies this, reference, reference.broker
      ensures (reference.broker.View(), reference.View())
           == LookUpAll(old(reference.broker.View()), t, old(reference.View()))
      ensures var event := Event(old(sends), payload);
        View() == FanOut(home, old(View()), sender, event, reference.targets).(sends := old(sends) + 1)
    {
      reference.Lookup(components, t);
      var event, targets := Event(sends, payload), reference.targets;
      sends := sends + 1;
      for i := 0 to |targets|
        modifies this
        invariant View() == FanOut(home, old(View()), sender, event, targets[..i]).(sends := old(sends) + 1)
      {
        FanOutOne(home, old(View()), sender, event, targets, i);
        var d := Delivery(sender, targets[i].receiver, targets[i].handler, event);
        if targets[i].sameExecutor {
          ran, at := ran + [d], at + [home(sender)];
        } else {
          var e := home(targets[i].receiver);
          queues := queues[e := (if e in queues then queues[e] else []) + [d]];
        }
      }
      assert targets[..|targets|] == targets;
    }
  }
}
