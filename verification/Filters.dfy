/**
 * Filter chains: filters put before published asynchronous queries (component_base.h) and before the queries
 * of an interface (if_async_query.h), and which chain a queued query runs through.
 */
module Filters {
  import opened Common

  type FilterId = nat
  type QueryId = nat
  type NodeId = nat
  type Arguments = nat

  /** What runs, in order. */
  datatype Event = Filtered(f: FilterId, args: Arguments) | Handled(args: Arguments)

  /** The handlers a component has installed for its messages. A filter owns the handler that it was put
      before; nothing else does, except the component's table, which owns the outermost. */
  datatype Node = Base(m: MsgId) | Filter(m: MsgId, f: FilterId, previous: NodeId)

  ghost predicate Linked(nodes: seq<Node>) {
    forall i :: 0 <= i < |nodes| && nodes[i].Filter? ==>
      nodes[i].previous < i && nodes[nodes[i].previous].m == nodes[i].m
  }

  /** The filters from a handler inwards. */
  function ChainFrom(nodes: seq<Node>, n: NodeId): seq<FilterId>
    requires n < |nodes|
    decreases n
  {
    if nodes[n].Filter? && nodes[n].previous < n then [nodes[n].f] + ChainFrom(nodes, nodes[n].previous) else []
  }

  /** A handler that a pointer was handed out to is kept by the chain from another. */
  predicate Reaches(nodes: seq<Node>, from: NodeId, n: NodeId)
    requires from < |nodes|
    decreases from
  {
    from == n || (nodes[from].Filter? && nodes[from].previous < from && Reaches(nodes, nodes[from].previous, n))
  }

  /** Calling a handler: a filter runs, and then the handler before it if it lets the call proceed. */
  function Invoke(nodes: seq<Node>, n: NodeId, lets: (FilterId, Arguments) -> bool, args: Arguments): seq<Event>
    requires n < |nodes|
    decreases n
  {
    if !nodes[n].Filter? then [Handled(args)]
    else
      var goesOn := lets(nodes[n].f, args) && nodes[n].previous < n;
      var inner := if goesOn then Invoke(nodes, nodes[n].previous, lets, args) else [];
      [Filtered(nodes[n].f, args)] + inner
  }

  /** What is expected of a chain, outermost filter first. */
  function Expected(filters: seq<FilterId>, lets: (FilterId, Arguments) -> bool, args: Arguments): seq<Event> {
    if filters == [] then [Handled(args)]
    else [Filtered(filters[0], args)] + if lets(filters[0], args) then Expected(filters[1..], lets, args) else []
  }

  lemma {:induction false} InvokeRunsTheChain(nodes: seq<Node>, n: NodeId, lets: (FilterId, Arguments) -> bool,
          args: Arguments)
    requires n < |nodes| && Linked(nodes)
    ensures Invoke(nodes, n, lets, args) == Expected(ChainFrom(nodes, n), lets, args)
    decreases n
  {
    if nodes[n].Filter? {
      InvokeRunsTheChain(nodes, nodes[n].previous, lets, args);
      assert ChainFrom(nodes, n)[1..] == ChainFrom(nodes, nodes[n].previous);
    }
  }

  /** How far the chain lets a call through. */
  function Passed(filters: seq<FilterId>, lets: (FilterId, Arguments) -> bool, args: Arguments): (k: nat)
    ensures k <= |filters|
  {
    if filters == [] || !lets(filters[0], args) then 0 else 1 + Passed(filters[1..], lets, args)
  }

  /** The filters run from the outermost inwards up to the first that does not let the call proceed, each
      once; the handler runs, once and last, if and only if there is none such. */
  lemma {:induction false} ExpectedExact(filters: seq<FilterId>, lets: (FilterId, Arguments) -> bool, args: Arguments)
    ensures var k, e := Passed(filters, lets, args), Expected(filters, lets, args);
      && (forall i :: 0 <= i < k ==> lets(filters[i], args))
      && (k < |filters| ==> !lets(filters[k], args))
      && |e| == k + 1
      && (forall i :: 0 <= i < k ==> e[i] == Filtered(filters[i], args))
      && e[k] == if k == |filters| then Handled(args) else Filtered(filters[k], args)
  {
    if filters != [] && lets(filters[0], args) {
      var rest := filters[1..];
      ExpectedExact(rest, lets, args);
      var k, e := Passed(filters, lets, args), Expected(filters, lets, args);
      assert e == [Filtered(filters[0], args)] + Expected(rest, lets, args) && k == 1 + Passed(rest, lets, args);
      assert forall i :: 0 < i <= k ==> e[i] == Expected(rest, lets, args)[i - 1];
      assert forall i :: 0 < i < |filters| ==> filters[i] == rest[i - 1];
    }
  }

  // ---------- Filters of an interface's query ----------

  /** Such a filter is given the handler before it and may call it any number of times, with arguments of
      its own: here all that a filter does with its arguments is known by the calls that it makes. */
  function InvokeInterface(filters: seq<FilterId>, calls: (FilterId, Arguments) -> seq<Arguments>,
          args: Arguments): seq<Event>
    decreases filters, 1
  {
    if filters == [] then [Handled(args)]
    else [Filtered(filters[0], args)] + InvokeEach(filters[1..], calls, calls(filters[0], args))
  }

  function InvokeEach(filters: seq<FilterId>, calls: (FilterId, Arguments) -> seq<Arguments>,
          all: seq<Arguments>): seq<Event>
    decreases filters, 2, all
  {
    if all == [] then [] else InvokeInterface(filters, calls, all[0]) + InvokeEach(filters, calls, all[1..])
  }

  function HandledIn(events: seq<Event>): nat {
    if events == [] then 0 else (if events[0].Handled? then 1 else 0) + HandledIn(events[1..])
  }

  lemma {:induction false} HandledConcat(a: seq<Event>, b: seq<Event>)
    ensures HandledIn(a + b) == HandledIn(a) + HandledIn(b)
  {
    if a == [] {
      assert a + b == b;
    } else {
      assert (a + b)[1..] == a[1..] + b;
      HandledConcat(a[1..], b);
    }
  }

  /** The arguments the handler is run with, in order. */
  function HandlerArguments(events: seq<Event>): seq<Arguments> {
    FlatMap(events, HandledWith)
  }

  function HandledWith(e: Event): seq<Arguments> {
    match e
    case Handled(args) => [args]
    case Filtered(_, _) => []
  }

  /** What comes through the filters of the calls made from outside, filter by filter: whatever the first makes of
      all of them in turn, then what the next makes of that. */
  function Through(filters: seq<FilterId>, calls: (FilterId, Arguments) -> seq<Arguments>,
          all: seq<Arguments>): seq<Arguments>
    decreases filters
  {
    if filters == [] then all else Through(filters[1..], calls, FlatMap(all, a => calls(filters[0], a)))
  }

  lemma {:induction false} ThroughConcat(filters: seq<FilterId>, calls: (FilterId, Arguments) -> seq<Arguments>,
          a: seq<Arguments>, b: seq<Arguments>)
    ensures Through(filters, calls, a + b) == Through(filters, calls, a) + Through(filters, calls, b)
    decreases filters
  {
    if filters != [] {
      var first := a => calls(filters[0], a);
      FlatMapConcat(a, b, first);
      ThroughConcat(filters[1..], calls, FlatMap(a, first), FlatMap(b, first));
    }
  }

  lemma {:induction false} ArgumentsConcat(a: seq<Event>, b: seq<Event>)
    ensures HandlerArguments(a + b) == HandlerArguments(a) + HandlerArguments(b)
  {
    FlatMapConcat(a, b, HandledWith);
  }

  /** The handler runs with exactly the arguments that come through the filters, in that order. */
  lemma {:induction false} HandlerGetsWhatComesThrough(filters: seq<FilterId>,
          calls: (FilterId, Arguments) -> seq<Arguments>, args: Arguments)
    ensures HandlerArguments(InvokeInterface(filters, calls, args)) == Through(filters, calls, [args])
    decreases filters, 1
  {
    if filters == [] {
      FlatMapOne(Handled(args), HandledWith);
    } else {
      var f, rest := filters[0], filters[1..];
      EachComesThrough(rest, calls, calls(f, args));
      ArgumentsConcat([Filtered(f, args)], InvokeEach(rest, calls, calls(f, args)));
      FlatMapOne(Filtered(f, args), HandledWith);
      FlatMapOne(args, a => calls(f, a));
    }
  }

  lemma {:induction false} EachComesThrough(filters: seq<FilterId>,
          calls: (FilterId, Arguments) -> seq<Arguments>, all: seq<Arguments>)
    ensures HandlerArguments(InvokeEach(filters, calls, all)) == Through(filters, calls, all)
    decreases filters, 2, all
  {
    if all == [] {
      ThroughNothing(filters, calls);
    } else {
      HandlerGetsWhatComesThrough(filters, calls, all[0]);
      EachComesThrough(filters, calls, all[1..]);
      ArgumentsConcat(InvokeInterface(filters, calls, all[0]), InvokeEach(filters, calls, all[1..]));
      ThroughConcat(filters, calls, [all[0]], all[1..]);
      assert [all[0]] + all[1..] == all;
    }
  }

  lemma {:induction false} ThroughNothing(filters: seq<FilterId>, calls: (FilterId, Arguments) -> seq<Arguments>)
    ensures Through(filters, calls, []) == []
    decreases filters
  {
    if filters != [] {
      ThroughNothing(filters[1..], calls);
    }
  }

  /** One filter: it runs, and then the handler, once for each of its calls and with the arguments of that. */
  lemma {:induction false} OneFilter(f: FilterId, calls: (FilterId, Arguments) -> seq<Arguments>, args: Arguments)
    ensures var e, n := InvokeInterface([f], calls, args), |calls(f, args)|;
      && |e| == n + 1 && e[0] == Filtered(f, args)
      && forall i :: 0 <= i < n ==> e[i + 1] == Handled(calls(f, args)[i])
  {
    assert [f][1..] == [];
    HandledEach(calls, calls(f, args));
  }

  lemma {:induction false} HandledEach(calls: (FilterId, Arguments) -> seq<Arguments>, all: seq<Arguments>)
    ensures var e := InvokeEach([], calls, all);
      |e| == |all| && forall i :: 0 <= i < |all| ==> e[i] == Handled(all[i])
    decreases all
  {
    if all != [] {
      HandledEach(calls, all[1..]);
    }
  }

  function Power(n: nat, k: nat): nat {
    if k == 0 then 1 else n * Power(n, k - 1)
  }

  /** If no filter calls on more than n times, the handler runs at most n to the number of filters times; and
      exactly so often if every filter calls on n times. */
  lemma {:induction false} HandledBound(filters: seq<FilterId>, calls: (FilterId, Arguments) -> seq<Arguments>,
          args: Arguments, n: nat)
    ensures (forall f, a :: |calls(f, a)| <= n) ==>
      HandledIn(InvokeInterface(filters, calls, args)) <= Power(n, |filters|)
    ensures (forall f, a :: |calls(f, a)| == n) ==>
      HandledIn(InvokeInterface(filters, calls, args)) == Power(n, |filters|)
    decreases filters, 1
  {
    if filters != [] {
      var f, rest := filters[0], filters[1..];
      var all := calls(f, args);
      HandledBoundEach(rest, calls, all, n);
      HandledConcat([Filtered(f, args)], InvokeEach(rest, calls, all));
      MoreAtMost(|all|, n, Power(n, |rest|));
    }
  }

  lemma {:induction false} MoreAtMost(a: nat, b: nat, x: nat)
    ensures a <= b ==> a * x <= b * x
  {
    if a <= b {
      assert b * x == a * x + (b - a) * x;
    }
  }

  lemma {:induction false} HandledBoundEach(filters: seq<FilterId>,
          calls: (FilterId, Arguments) -> seq<Arguments>, all: seq<Arguments>, n: nat)
    ensures (forall f, a :: |calls(f, a)| <= n) ==>
      HandledIn(InvokeEach(filters, calls, all)) <= |all| * Power(n, |filters|)
    ensures (forall f, a :: |calls(f, a)| == n) ==>
      HandledIn(InvokeEach(filters, calls, all)) == |all| * Power(n, |filters|)
    decreases filters, 2, all
  {
    if all != [] {
      var p := Power(n, |filters|);
      HandledBound(filters, calls, all[0], n);
      HandledBoundEach(filters, calls, all[1..], n);
      HandledConcat(InvokeInterface(filters, calls, all[0]), InvokeEach(filters, calls, all[1..]));
      assert |all| * p == p + |all[1..]| * p;
    }
  }

  /** A filter of a published query is the special case that calls on once, with the same arguments, or not
      at all. */
  lemma {:induction false} InterfaceGeneralizes(filters: seq<FilterId>, lets: (FilterId, Arguments) -> bool,
          args: Arguments)
    ensures InvokeInterface(filters, (f, a) => if lets(f, a) then [a] else [], args) == Expected(filters, lets, args)
  {
    var calls := (f, a) => if lets(f, a) then [a] else [];
    if filters != [] {
      var rest := filters[1..];
      InterfaceGeneralizes(rest, lets, args);
      if lets(filters[0], args) {
        assert calls(filters[0], args) == [args] && [args][1..] == [];
        assert InvokeEach(rest, calls, [args]) == InvokeInterface(rest, calls, args) + InvokeEach(rest, calls, []);
      }
    }
  }

  // ---------- Chains that change while queries are queued ----------

  /** A queued query: a published one is a pointer to its handler, one of an interface is that interface's. */
  datatype Request = Pointed(n: NodeId, args: Arguments) | Named(q: QueryId, args: Arguments)

  /** One component: its handlers, the outermost of each message, and for each query of its interfaces the
      filters, outermost first; the queue of its executor, and what each executed request ran. */
  datatype State = State(nodes: seq<Node>, heads: map<MsgId, NodeId>, chains: map<QueryId, seq<FilterId>>,
                         queue: seq<Request>, ran: seq<seq<Event>>)

  /** What filters do. */
  datatype Program = Program(lets: (FilterId, Arguments) -> bool, calls: (FilterId, Arguments) -> seq<Arguments>)

  datatype Action =
    | Publish(m: MsgId)
    | Prepend(m: MsgId, f: FilterId)
    | Implement(q: QueryId)
    | PrependInterface(q: QueryId, f: FilterId)
    | Send(m: MsgId, args: Arguments)
    | SendInterface(q: QueryId, args: Arguments)
    | Execute

  /** A message is published once. */
  ghost predicate Can(s: State, a: Action) {
    match a
    case Publish(m) => m !in s.heads
    case Prepend(m, _) => m in s.heads
    case Implement(q) => q !in s.chains
    case PrependInterface(q, _) => q in s.chains
    case Send(m, _) => m in s.heads
    case SendInterface(q, _) => q in s.chains
    case Execute => s.queue != []
  }

  function Install(s: State, m: MsgId, n: Node): State {
    s.(nodes := s.nodes + [n], heads := s.heads[m := |s.nodes|])
  }

  predicate IsSend(a: Action) {
    a.Send? || a.SendInterface?
  }

  /** What a send puts into the queue: the handler as it is then, or the name of the query. */
  function Sent(s: State, a: Action): Request
    requires IsSend(a) && (a.Send? ==> a.m in s.heads)
  {
    if a.Send? then Pointed(s.heads[a.m], a.args) else Named(a.q, a.args)
  }

  /** What executing a request runs, as things are then. */
  function Runs(p: Program, s: State, r: Request): seq<Event> {
    match r
    case Pointed(n, args) => if n < |s.nodes| then Invoke(s.nodes, n, p.lets, args) else []
    case Named(q, args) => InvokeInterface(if q in s.chains then s.chains[q] else [], p.calls, args)
  }

  ghost function Next(p: Program, s: State, a: Action): State
    requires Can(s, a)
  {
    match a
    case Publish(m) => Install(s, m, Base(m))
    case Prepend(m, f) => Install(s, m, Filter(m, f, s.heads[m]))
    case Implement(q) => s.(chains := s.chains[q := []])
    case PrependInterface(q, f) => s.(chains := s.chains[q := [f] + s.chains[q]])
    case Send(_, _) => s.(queue := s.queue + [Sent(s, a)])
    case SendInterface(_, _) => s.(queue := s.queue + [Sent(s, a)])
    case Execute => s.(queue := s.queue[1..], ran := s.ran + [Runs(p, s, s.queue[0])])
  }

  ghost predicate IsRun(p: Program, trace: seq<State>, acts: seq<Action>) {
    && |trace| == |acts| + 1
    && trace[0] == State([], map[], map[], [], [])
    && forall i :: 0 <= i < |acts| ==> Can(trace[i], acts[i]) && trace[i + 1] == Next(p, trace[i], acts[i])
  }

  /** Every handler of a message is on the chain from its outermost one. */
  ghost predicate Chained(s: State) {
    && Linked(s.nodes)
    && (forall m :: m in s.heads ==> s.heads[m] < |s.nodes| && s.nodes[s.heads[m]].m == m)
    && (forall n :: 0 <= n < |s.nodes| ==> s.nodes[n].m in s.heads)
    && (forall n :: 0 <= n < |s.nodes| ==>
          s.heads[s.nodes[n].m] < |s.nodes| && Reaches(s.nodes, s.heads[s.nodes[n].m], n))
  }

  lemma {:induction false} ReachesStays(nodes: seq<Node>, more: seq<Node>, from: NodeId, n: NodeId)
    requires from < |nodes| && nodes <= more
    ensures Reaches(more, from, n) == Reaches(nodes, from, n)
    decreases from
  {
    if nodes[from].Filter? && nodes[from].previous < from {
      ReachesStays(nodes, more, nodes[from].previous, n);
    }
  }

  lemma {:induction false} InstallChains(s: State, m: MsgId, n: Node)
    requires Chained(s) && n.m == m
    requires if n.Base? then m !in s.heads else m in s.heads && n.previous == s.heads[m]
    ensures Chained(Install(s, m, n))
  {
    var v := Install(s, m, n);
    forall k | 0 <= k < |v.nodes|
      ensures v.heads[v.nodes[k].m] < |v.nodes| && Reaches(v.nodes, v.heads[v.nodes[k].m], k)
    {
      if k < |s.nodes| {
        ReachesStays(s.nodes, v.nodes, s.heads[s.nodes[k].m], k);
      }
    }
  }

  lemma {:induction false} RunChained(p: Program, trace: seq<State>, acts: seq<Action>)
    requires IsRun(p, trace, acts)
    ensures Chained(trace[|acts|])
    decreases |acts|
  {
    if acts != [] {
      var n := |acts| - 1;
      var s, a := trace[n], acts[n];
      RunChained(p, trace[..n + 1], acts[..n]);
      if a.Publish? {
        InstallChains(s, a.m, Base(a.m));
      } else if a.Prepend? {
        InstallChains(s, a.m, Filter(a.m, a.f, s.heads[a.m]));
      }
    }
  }

  /** Handlers are never changed, and implemented queries stay implemented. */
  lemma {:induction false} Grows(p: Program, trace: seq<State>, acts: seq<Action>, i: nat, j: nat)
    requires IsRun(p, trace, acts) && i <= j <= |acts|
    ensures trace[i].nodes <= trace[j].nodes && trace[i].chains.Keys <= trace[j].chains.Keys
    decreases j
  {
    if i < j {
      Grows(p, trace, acts, i, j - 1);
    }
  }

  /** A handler once handed out for a message stays reachable, unchanged, from whatever is outermost later,
      so that pointers to it never dangle. */
  lemma {:induction false} HandedOutStays(p: Program, trace: seq<State>, acts: seq<Action>, i: nat, m: MsgId)
    requires IsRun(p, trace, acts) && i <= |acts| && m in trace[i].heads
    ensures var s, n := trace[|acts|], trace[i].heads[m];
      && n < |trace[i].nodes| <= |s.nodes| && s.nodes[n] == trace[i].nodes[n]
      && m in s.heads && s.heads[m] < |s.nodes| && Reaches(s.nodes, s.heads[m], n)
  {
    assert IsRun(p, trace[..i + 1], acts[..i]);
    RunChained(p, trace[..i + 1], acts[..i]);
    Grows(p, trace, acts, i, |acts|);
    RunChained(p, trace, acts);
  }

  /** The filters of m that a call sent now runs through, outermost first. */
  function FiltersOf(s: State, m: MsgId): seq<FilterId> {
    if m in s.heads && s.heads[m] < |s.nodes| then ChainFrom(s.nodes, s.heads[m]) else []
  }

  /** The filters put before m by the first n actions, the last put first. */
  function Prepended(acts: seq<Action>, n: nat, m: MsgId): seq<FilterId>
    requires n <= |acts|
  {
    if n == 0 then []
    else (if acts[n - 1].Prepend? && acts[n - 1].m == m then [acts[n - 1].f] else []) + Prepended(acts, n - 1, m)
  }

  lemma {:induction false} ChainStays(nodes: seq<Node>, more: seq<Node>, n: NodeId)
    requires n < |nodes| && nodes <= more
    ensures ChainFrom(more, n) == ChainFrom(nodes, n)
    decreases n
  {
    if nodes[n].Filter? && nodes[n].previous < n {
      ChainStays(nodes, more, nodes[n].previous);
    }
  }

  lemma {:induction false} StepChain(p: Program, s: State, a: Action, m: MsgId)
    requires Chained(s) && Can(s, a)
    ensures FiltersOf(Next(p, s, a), m) == (if a.Prepend? && a.m == m then [a.f] else []) + FiltersOf(s, m)
  {
    if m in s.heads {
      ChainStays(s.nodes, Next(p, s, a).nodes, s.heads[m]);
    }
  }

  /** The chain of a message consists of the filters put before it so far, the latest outermost. */
  lemma {:induction false} ChainIsPrepended(p: Program, trace: seq<State>, acts: seq<Action>, n: nat, m: MsgId)
    requires IsRun(p, trace, acts) && n <= |acts|
    ensures FiltersOf(trace[n], m) == Prepended(acts, n, m)
    decreases n
  {
    if n > 0 {
      ChainIsPrepended(p, trace, acts, n - 1, m);
      assert IsRun(p, trace[..n], acts[..n - 1]);
      RunChained(p, trace[..n], acts[..n - 1]);
      StepChain(p, trace[n - 1], acts[n - 1], m);
    }
  }

  /** The same for a query of an interface. */
  function PrependedTo(acts: seq<Action>, n: nat, q: QueryId): seq<FilterId>
    requires n <= |acts|
  {
    if n == 0 then []
    else
      (if acts[n - 1].PrependInterface? && acts[n - 1].q == q then [acts[n - 1].f] else [])
        + PrependedTo(acts, n - 1, q)
  }

  /** The chain of an interface's query consists of the filters put before it so far, the latest outermost. */
  lemma {:induction false} InterfaceChainIsPrepended(p: Program, trace: seq<State>, acts: seq<Action>, n: nat,
          q: QueryId)
    requires IsRun(p, trace, acts) && n <= |acts|
    ensures (if q in trace[n].chains then trace[n].chains[q] else []) == PrependedTo(acts, n, q)
    decreases n
  {
    if n > 0 {
      InterfaceChainIsPrepended(p, trace, acts, n - 1, q);
      StepInterfaceChain(p, trace[n - 1], acts[n - 1], q);
    }
  }

  lemma {:induction false} StepInterfaceChain(p: Program, s: State, a: Action, q: QueryId)
    requires Can(s, a)
    ensures var v := Next(p, s, a);
      (if q in v.chains then v.chains[q] else [])
        == (if a.PrependInterface? && a.q == q then [a.f] else []) + (if q in s.chains then s.chains[q] else [])
  {
  }

  /** When, within the first n actions, requests were sent, and when they were executed. */
  function Times(acts: seq<Action>, n: nat, sends: bool): (r: seq<nat>)
    requires n <= |acts|
    ensures forall k :: 0 <= k < |r| ==> r[k] < n && if sends then IsSend(acts[r[k]]) else acts[r[k]].Execute?
  {
    if n == 0 then []
    else
      var meant := if sends then IsSend(acts[n - 1]) else acts[n - 1].Execute?;
      Times(acts, n - 1, sends) + if meant then [n - 1] else []
  }

  /** The requests sent by the first n actions. */
  ghost function AllSent(p: Program, trace: seq<State>, acts: seq<Action>, n: nat): (r: seq<Request>)
    requires IsRun(p, trace, acts) && n <= |acts|
    ensures var t := Times(acts, n, true);
      |r| == |t| && forall k :: 0 <= k < |r| ==> r[k] == Sent(trace[t[k]], acts[t[k]])
  {
    if n == 0 then []
    else AllSent(p, trace, acts, n - 1) + if IsSend(acts[n - 1]) then [Sent(trace[n - 1], acts[n - 1])] else []
  }

  /** The queue holds the requests sent and not yet executed, in order, and the k-th to be executed ran what
      it did then. */
  ghost predicate Served(p: Program, trace: seq<State>, acts: seq<Action>, n: nat)
    requires IsRun(p, trace, acts) && n <= |acts|
  {
    var s, sent, executed := trace[n], AllSent(p, trace, acts, n), Times(acts, n, false);
    && |executed| == |s.ran| <= |sent| && s.queue == sent[|s.ran|..]
    && (forall k :: 0 <= k < |s.ran| ==> s.ran[k] == Runs(p, trace[executed[k]], sent[k]))
    && (forall k :: 0 <= k < |s.ran| ==> Times(acts, n, true)[k] < executed[k])
  }

  lemma {:induction false} SendServed(p: Program, trace: seq<State>, acts: seq<Action>, n: nat)
    requires IsRun(p, trace, acts) && n < |acts| && Served(p, trace, acts, n) && IsSend(acts[n])
    ensures Served(p, trace, acts, n + 1)
  {
    assert trace[n + 1] == Next(p, trace[n], acts[n]);
    assert Times(acts, n + 1, false) == Times(acts, n, false);
    assert AllSent(p, trace, acts, n + 1) == AllSent(p, trace, acts, n) + [Sent(trace[n], acts[n])];
  }

  lemma {:induction false} ExecuteServed(p: Program, trace: seq<State>, acts: seq<Action>, n: nat)
    requires IsRun(p, trace, acts) && n < |acts| && Served(p, trace, acts, n) && acts[n].Execute?
    ensures Served(p, trace, acts, n + 1)
  {
    var s, v, sent := trace[n], trace[n + 1], AllSent(p, trace, acts, n);
    assert v == Next(p, s, acts[n]);
    assert AllSent(p, trace, acts, n + 1) == sent && Times(acts, n + 1, true) == Times(acts, n, true);
    assert Times(acts, n + 1, false) == Times(acts, n, false) + [n];
    assert s.queue[0] == sent[|s.ran|] && s.queue[1..] == sent[|s.ran| + 1..];
  }

  lemma {:induction false} OtherServed(p: Program, trace: seq<State>, acts: seq<Action>, n: nat)
    requires IsRun(p, trace, acts) && n < |acts| && Served(p, trace, acts, n) && !IsSend(acts[n]) && !acts[n].Execute?
    ensures Served(p, trace, acts, n + 1)
  {
    assert trace[n + 1] == Next(p, trace[n], acts[n]);
    assert AllSent(p, trace, acts, n + 1) == AllSent(p, trace, acts, n);
    assert Times(acts, n + 1, true) == Times(acts, n, true) && Times(acts, n + 1, false) == Times(acts, n, false);
  }

  lemma {:induction false} RunServed(p: Program, trace: seq<State>, acts: seq<Action>, n: nat)
    requires IsRun(p, trace, acts) && n <= |acts|
    ensures Served(p, trace, acts, n)
    decreases n
  {
    if n > 0 {
      RunServed(p, trace, acts, n - 1);
      if IsSend(acts[n - 1]) {
        SendServed(p, trace, acts, n - 1);
      } else if acts[n - 1].Execute? {
        ExecuteServed(p, trace, acts, n - 1);
      } else {
        OtherServed(p, trace, acts, n - 1);
      }
    }
  }

  /** A request executed later than it was sent runs through the chain as of then, or as of now. */
  lemma {:induction false} RunsAsOf(p: Program, trace: seq<State>, acts: seq<Action>, i: nat, e: nat)
    requires IsRun(p, trace, acts) && i < e < |acts| && IsSend(acts[i])
    ensures var ran := Runs(p, trace[e], Sent(trace[i], acts[i]));
      && (acts[i].Send? ==> ran == Expected(Prepended(acts, i, acts[i].m), p.lets, acts[i].args))
      && (acts[i].SendInterface? ==>
            && acts[i].q in trace[e].chains
            && ran == InvokeInterface(PrependedTo(acts, e, acts[i].q), p.calls, acts[i].args))
  {
    Grows(p, trace, acts, i, e);
    if acts[i].SendInterface? {
      InterfaceChainIsPrepended(p, trace, acts, e, acts[i].q);
    }
    if acts[i].Send? {
      var head := trace[i].heads[acts[i].m];
      assert IsRun(p, trace[..i + 1], acts[..i]) && IsRun(p, trace[..e + 1], acts[..e]);
      RunChained(p, trace[..i + 1], acts[..i]);
      RunChained(p, trace[..e + 1], acts[..e]);
      ChainIsPrepended(p, trace, acts, i, acts[i].m);
      ChainStays(trace[i].nodes, trace[e].nodes, head);
      InvokeRunsTheChain(trace[e].nodes, head, p.lets, acts[i].args);
    }
  }

  /** When the k-th query that was sent is executed: a published one runs through the filters that had been
      put before it when it was sent, one of an interface through those of when it is executed. */
  lemma {:induction false} ChainsAtSendOrExecution(p: Program, trace: seq<State>, acts: seq<Action>, k: nat)
    requires IsRun(p, trace, acts) && k < |trace[|acts|].ran|
    ensures var n := |acts|;
      var sends, executes := Times(acts, n, true), Times(acts, n, false);
      && |executes| == |trace[n].ran| <= |sends|
      && var send, ran := acts[sends[k]], trace[n].ran[k];
      && (send.Send? ==> ran == Expected(Prepended(acts, sends[k], send.m), p.lets, send.args))
      && (send.SendInterface? ==>
            && send.q in trace[executes[k]].chains
            && ran == InvokeInterface(PrependedTo(acts, executes[k], send.q), p.calls, send.args))
  {
    RunServed(p, trace, acts, |acts|);
    var sends, executes := Times(acts, |acts|, true), Times(acts, |acts|, false);
    assert |AllSent(p, trace, acts, |acts|)| == |sends|;
    RunsAsOf(p, trace, acts, sends[k], executes[k]);
  }

  // ---------- The component as it changes ----------

  class FilteredComponent {
    const program: Program
    var nodes: seq<Node>
    var heads: map<MsgId, NodeId>
    var chains: map<QueryId, seq<FilterId>>
    var queue: seq<Request>
    var ran: seq<seq<Event>>

    function View(): State
      reads this
    {
      State(nodes, heads, chains, queue, ran)
    }

    constructor (program: Program)
      ensures this.program == program && View() == State([], map[], map[], [], [])
    {
      this.program := program;
      nodes, heads, chains, queue, ran := [], map[], map[], [], [];
    }

    method PublishAsyncQuery(m: MsgId)
      requires Can(View(), Publish(m))
      modifies this
      ensures View() == Next(program, old(View()), Publish(m))
    {
      nodes, heads := nodes + [Base(m)], heads[m := |nodes|];
    }

    /** Reports false where the source aborts. */
    method PrependAsyncQueryFilter(m: MsgId, f: FilterId) returns (found: bool)
      modifies this
      ensures found <==> m in old(heads)
      ensures View() == if found then Next(program, old(View()), Prepend(m, f)) else old(View())
    {
      if m !in heads {
        return false;
      }
      var previous := heads[m];
      nodes, heads := nodes + [Filter(m, f, previous)], heads[m := |nodes|];
      found := true;
    }

    method PublishInterfaceQuery(q: QueryId)
      requires Can(View(), Implement(q))
      modifies this
      ensures View() == Next(program, old(View()), Implement(q))
    {
      chains := chains[q := []];
    }

    method PrependInterfaceFilter(q: QueryId, f: FilterId)
      requires Can(View(), PrependInterface(q, f))
      modifies this
      ensures View() == Next(program, old(View()), PrependInterface(q, f))
    {
      var previous := chains[q];
      chains := chains[q := [f] + previous];
    }

    method Enqueue(a: Action)
      requires IsSend(a) && Can(View(), a)
      modifies this
      ensures View() == Next(program, old(View()), a)
    {
      queue := queue + [Sent(View(), a)];
    }

    /** Calls the handler at n, which calls the one before it if it is a filter that lets the call proceed. */
    method CallHandler(n: NodeId, args: Arguments) returns (events: seq<Event>)
      requires n < |nodes| && Linked(nodes)
      ensures events == Invoke(nodes, n, program.lets, args)
      decreases n
    {
      match nodes[n]
      case Base(_) => events := [Handled(args)];
      case Filter(_, f, previous) =>
        events := [Filtered(f, args)];
        var proceed := program.lets(f, args);
        if proceed {
          var more := CallHandler(previous, args);
          events := events + more;
        }
    }

    /** Calls an interface query's handler under the given filters. */
    method CallInterface(filters: seq<FilterId>, args: Arguments) returns (events: seq<Event>)
      ensures events == InvokeInterface(filters, program.calls, args)
      decreases filters
    {
      if filters == [] {
        return [Handled(args)];
      }
      events := [Filtered(filters[0], args)];
      var calls := program.calls(filters[0], args);
      for i := 0 to |calls|
        invariant events + InvokeEach(filters[1..], program.calls, calls[i..])
               == InvokeInterface(filters, program.calls, args)
      {
        var more := CallInterface(filters[1..], calls[i]);
        assert calls[i..][0] == calls[i] && calls[i..][1..] == calls[i + 1..];
        events := events + more;
      }
    }

    /** Runs the first request of the queue. */
    method ExecuteOne()
      requires Linked(nodes) && Can(View(), Execute)
      requires match queue[0] case Pointed(n, _) => n < |nodes| case Named(q, _) => q in chains
      modifies this
      ensures View() == Next(program, old(View()), Execute)
    {
      var request := queue[0];
      var events: seq<Event>;
      match request {
        case Pointed(n, args) => events := CallHandler(n, args);
        case Named(q, args) => events := CallInterface(chains[q], args);
      }
      queue, ran := queue[1..], ran + [events];
    }
  }
}
