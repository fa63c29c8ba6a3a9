/**
 * References to other components' handlers (mono_ref.h, poly_ref.h, interface_ref.h) and the handler
 * tables they resolve against (component_base.h). A reference caches what it resolved for as long as the
 * broker's snapshot that it resolved from is in place.
 */
module References {
  import opened Common
  import Brokers

  type HandlerId = nat
  type SnapshotId = Brokers.SnapshotId

  datatype Kind = Sync | Async

  /** A query of an interface as its component has published it. */
  datatype Published = Published(kind: Kind, executor: ExecId)

  datatype Interface = Interface(id: nat, queries: seq<Published>)

  type Key = (CompId, MsgId)

  /** The components: which exist, and what each has published. `home` and `direct` are their default
      executors and whether they may be called directly; neither changes. */
  datatype Tables = Tables(created: set<CompId>, alive: set<CompId>, home: CompId -> ExecId, direct: CompId -> bool,
                           sync: map<Key, HandlerId>, async: map<Key, HandlerId>,
                           overrides: map<Key, Option<ExecId>>, interfaces: map<Key, Interface>)

  function HandlerOf(t: Tables, kind: Kind, c: CompId, m: MsgId): Option<HandlerId> {
    var handlers := if kind == Sync then t.sync else t.async;
    if (c, m) in handlers then Some(handlers[(c, m)]) else None
  }

  function OverrideOf(t: Tables, c: CompId, m: MsgId): Option<ExecId> {
    if (c, m) in t.overrides then t.overrides[(c, m)] else None
  }

  function ExecutorOf(t: Tables, c: CompId, m: MsgId): ExecId {
    EffectiveExecutor(OverrideOf(t, c, m), t.home(c))
  }

  // ---------- Resolving from scratch ----------

  datatype Resolved = Resolved(handler: HandlerId, receiver: CompId, executor: ExecId, sameExecutor: bool)

  /** What a reference of a component on executor `owner` ought to find: the one living receiver. */
  function Resolve(b: Brokers.State, t: Tables, kind: Kind, m: MsgId, owner: ExecId): Option<Resolved>
    requires Brokers.Valid(b)
  {
    var list := Brokers.ListOf(b, m);
    if |list| != 1 || list[0] !in t.alive || HandlerOf(t, kind, list[0], m).None? then None
    else
      var e := ExecutorOf(t, list[0], m);
      Some(Resolved(HandlerOf(t, kind, list[0], m).value, list[0], e, owner == e))
  }

  datatype Target = Target(receiver: CompId, handler: HandlerId, sameExecutor: bool)

  /** What one association contributes: nothing if its component is gone or has no handler. */
  function ResolveOne(c: CompId, t: Tables, m: MsgId, owner: ExecId): seq<Target> {
    if c in t.alive && (c, m) in t.async then [Target(c, t.async[(c, m)], t.home(c) == owner)] else []
  }

  /** What an event reference ought to find: every association whose component lives and has a handler. */
  function ResolveAll(list: seq<CompId>, t: Tables, m: MsgId, owner: ExecId): seq<Target> {
    if list == [] then [] else ResolveOne(list[0], t, m, owner) + ResolveAll(list[1..], t, m, owner)
  }

  /** The client's copy of a query: its executor, and whether a call needs no queue or no lock. */
  datatype Copied = Copied(kind: Kind, executor: ExecId, callDirectly: bool)

  /** The client's view of an interface. */
  datatype Proxy = Proxy(interface: nat, receiver: CompId, queries: seq<Copied>)

  /** A component may have forbidden that its asynchronous queries are called directly. */
  function CopyOf(direct: bool, q: Published, owner: ExecId): Copied {
    Copied(q.kind, q.executor, q.executor == owner && (q.kind == Async ==> direct))
  }

  function ProxyOf(t: Tables, c: CompId, i: Interface, owner: ExecId): Proxy {
    Proxy(i.id, c, seq(|i.queries|, k requires 0 <= k < |i.queries| => CopyOf(t.direct(c), i.queries[k], owner)))
  }

  function ResolveInterface(b: Brokers.State, t: Tables, m: MsgId, owner: ExecId): Option<Proxy>
    requires Brokers.Valid(b)
  {
    var list := Brokers.ListOf(b, m);
    if |list| != 1 || list[0] !in t.alive || (list[0], m) !in t.interfaces then None
    else Some(ProxyOf(t, list[0], t.interfaces[(list[0], m)], owner))
  }

  // ---------- The cached lookups ----------

  datatype Mono = Mono(kind: Kind, m: MsgId, owner: ExecId, handler: Option<HandlerId>, receivers: Option<SnapshotId>,
                       sameExecutor: bool, receiver: Option<CompId>, executor: Option<ExecId>)

  function EmptyMono(kind: Kind, m: MsgId, owner: ExecId): Mono {
    Mono(kind, m, owner, None, None, false, None, None)
  }

  predicate Cached(b: Brokers.State, r: Mono) {
    r.handler.Some? && !Brokers.Expired(b, r.receivers)
  }

  function LookUp(b: Brokers.State, t: Tables, r: Mono): (Brokers.State, Mono, Option<HandlerId>)
    requires Brokers.Valid(b)
  {
    if Cached(b, r) then (b, r, r.handler)
    else
      var b' := Brokers.Lookup(b, r.m);
      var r1 := r.(receivers := Some(b'.active[r.m]));
      var list := b'.store[b'.active[r.m]];
      if |list| != 1 then (b', r1, None)
      else if list[0] !in t.alive then (b', r1.(receiver := None), None)
      else
        var h := HandlerOf(t, r.kind, list[0], r.m);
        var r2 := r1.(receiver := Some(list[0]), handler := h);
        if h.None? then (b', r2, None)
        else
          var e := ExecutorOf(t, list[0], r.m);
          (b', r2.(executor := Some(e), sameExecutor := r.owner == e), h)
  }

  function Reset(r: Mono): Mono {
    r.(handler := None, receivers := None, receiver := None, executor := None)
  }

  datatype Poly = Poly(m: MsgId, owner: ExecId, receivers: Option<SnapshotId>, targets: seq<Target>)

  function LookUpAll(b: Brokers.State, t: Tables, r: Poly): (Brokers.State, Poly)
    requires Brokers.Valid(b)
  {
    if r.targets != [] && !Brokers.Expired(b, r.receivers) then (b, r)
    else
      var b' := Brokers.Lookup(b, r.m);
      (b', Poly(r.m, r.owner, Some(b'.active[r.m]), ResolveAll(b'.store[b'.active[r.m]], t, r.m, r.owner)))
  }

  datatype Link = Link(m: MsgId, owner: ExecId, receivers: Option<SnapshotId>, proxy: Option<Proxy>,
    receiver: Option<CompId>)

  function LookUpInterface(b: Brokers.State, t: Tables, r: Link): (Brokers.State, Link, Option<Proxy>)
    requires Brokers.Valid(b)
  {
    if r.proxy.Some? && !Brokers.Expired(b, r.receivers) then (b, r, r.proxy)
    else
      var b' := Brokers.Lookup(b, r.m);
      var r1 := r.(receivers := Some(b'.active[r.m]));
      var list := b'.store[b'.active[r.m]];
      if |list| != 1 then (b', r1, None)
      else if list[0] !in t.alive then (b', r1.(receiver := None), None)
      else
        var r2 := r1.(receiver := Some(list[0]));
        if (list[0], r.m) !in t.interfaces then (b', r2, None)
        else
          var p := ProxyOf(t, list[0], t.interfaces[(list[0], r.m)], r.owner);
          (b', r2.(proxy := Some(p)), Some(p))
  }

  // ---------- Coherence ----------

  /** A cache hit gives what resolving from scratch would. */
  ghost predicate Coherent(b: Brokers.State, t: Tables, r: Mono)
    requires Brokers.Valid(b)
  {
    Cached(b, r) ==>
      && r.receiver.Some? && r.executor.Some?
      && Resolve(b, t, r.kind, r.m, r.owner)
           == Some(Resolved(r.handler.value, r.receiver.value, r.executor.value, r.sameExecutor))
  }

  /** The one way a lookup goes wrong: the reference had resolved before, its snapshot has been replaced,
      and the new one does not hold exactly one living receiver, so that the old handler stays. */
  predicate StaleExit(b: Brokers.State, t: Tables, r: Mono)
    requires Brokers.Valid(b)
  {
    r.handler.Some? && Brokers.Expired(b, r.receivers)
    && var list := Brokers.ListOf(b, r.m); |list| != 1 || list[0] !in t.alive
  }

  lemma {:induction false} LookupInPlace(b: Brokers.State, m: MsgId)
    requires Brokers.Valid(b)
    ensures var b' := Brokers.Lookup(b, m);
      && Brokers.Valid(b') && m in b'.active && !Brokers.Expired(b', Some(b'.active[m]))
      && b'.store[b'.active[m]] == Brokers.ListOf(b, m) == Brokers.ListOf(b', m)
  {
    Brokers.PutIsValid(b, m, []);
  }

  /** The receiver, executor and flag left in the reference. */
  predicate Leaves(r: Mono, x: Resolved) {
    r.receiver == Some(x.receiver) && r.executor == Some(x.executor) && r.sameExecutor == x.sameExecutor
  }

  /** From a coherent cache a lookup returns what resolving from scratch gives; when it finds a handler it
      leaves its receiver, executor and same-executor flag with it, and it leaves the cache coherent
      exactly when it does not take the stale exit. */
  lemma {:induction false} LookUpIsResolve(b: Brokers.State, t: Tables, r: Mono)
    requires Brokers.Valid(b) && Coherent(b, t, r)
    ensures var (b', r', h) := LookUp(b, t, r);
      var x := Resolve(b, t, r.kind, r.m, r.owner);
      && Brokers.Valid(b') && Resolve(b', t, r.kind, r.m, r.owner) == x
      && (h.Some? <==> x.Some?)
      && (x.Some? ==> h == Some(x.value.handler))
      && (x.Some? ==> Leaves(r', x.value))
      && (Coherent(b', t, r') <==> !StaleExit(b, t, r))
  {
    LookupInPlace(b, r.m);
  }

  /** The same reference, but forgetting its handler before it resolves again. */
  function LookUpClearing(b: Brokers.State, t: Tables, r: Mono): (Brokers.State, Mono, Option<HandlerId>)
    requires Brokers.Valid(b)
  {
    if Cached(b, r) then LookUp(b, t, r) else LookUp(b, t, r.(handler := None))
  }

  /** That variant stays coherent without any condition. */
  lemma {:induction false} ClearingStaysCoherent(b: Brokers.State, t: Tables, r: Mono)
    requires Brokers.Valid(b) && Coherent(b, t, r)
    ensures var (b', r', h) := LookUpClearing(b, t, r);
      && Brokers.Valid(b') && Coherent(b', t, r')
      && h == (match Resolve(b, t, r.kind, r.m, r.owner) case Some(x) => Some(x.handler) case None => None)
  {
    LookUpIsResolve(b, t, r);
    LookUpIsResolve(b, t, r.(handler := None));
  }

  ghost predicate CoherentLink(b: Brokers.State, t: Tables, r: Link)
    requires Brokers.Valid(b)
  {
    r.proxy.Some? && !Brokers.Expired(b, r.receivers) ==> ResolveInterface(b, t, r.m, r.owner) == r.proxy
  }

  /** The interface reference keeps its old proxy on one exit more: a receiver without the interface. */
  predicate StaleLink(b: Brokers.State, t: Tables, r: Link)
    requires Brokers.Valid(b)
  {
    r.proxy.Some? && Brokers.Expired(b, r.receivers) && ResolveInterface(b, t, r.m, r.owner).None?
  }

  lemma {:induction false} LookUpInterfaceIsResolve(b: Brokers.State, t: Tables, r: Link)
    requires Brokers.Valid(b) && CoherentLink(b, t, r)
    ensures var (b', r', p) := LookUpInterface(b, t, r);
      && Brokers.Valid(b') && p == ResolveInterface(b, t, r.m, r.owner) == ResolveInterface(b', t, r.m, r.owner)
      && (CoherentLink(b', t, r') <==> !StaleLink(b, t, r))
  {
    LookupInPlace(b, r.m);
  }

  ghost predicate CoherentPoly(b: Brokers.State, t: Tables, r: Poly)
    requires Brokers.Valid(b)
  {
    r.targets != [] && !Brokers.Expired(b, r.receivers) ==>
      r.targets == ResolveAll(Brokers.ListOf(b, r.m), t, r.m, r.owner)
  }

  lemma {:induction false} LookUpAllIsResolve(b: Brokers.State, t: Tables, r: Poly)
    requires Brokers.Valid(b) && CoherentPoly(b, t, r)
    ensures var (b', r') := LookUpAll(b, t, r);
      && Brokers.Valid(b') && CoherentPoly(b', t, r')
      && r'.targets == ResolveAll(Brokers.ListOf(b, r.m), t, r.m, r.owner)
  {
    LookupInPlace(b, r.m);
  }

  predicate IsTarget(x: Target, c: CompId, t: Tables, m: MsgId, owner: ExecId) {
    x.receiver == c && (c, m) in t.async && x.handler == t.async[(c, m)] && x.sameExecutor == (t.home(c) == owner)
  }

  /** One target per association of a living component with a handler, in the order of the associations. */
  lemma {:induction false} ResolveAllExact(list: seq<CompId>, t: Tables, m: MsgId, owner: ExecId) returns (at: seq<nat>)
    ensures var targets := ResolveAll(list, t, m, owner);
      && |at| == |targets|
      && (forall k :: 0 <= k < |at| ==> at[k] < |list| && IsTarget(targets[k], list[at[k]], t, m, owner))
      && (forall j, k :: 0 <= j < k < |at| ==> at[j] < at[k])
      && (forall i :: 0 <= i < |list| ==> (i in at <==> list[i] in t.alive && (list[i], m) in t.async))
    decreases |list|
  {
    if list == [] {
      at := [];
    } else {
      var n := |list| - 1;
      at := ResolveAllExact(list[..n], t, m, owner);
      assert list == list[..n] + [list[n]];
      ResolveAllAppend(list[..n], list[n], t, m, owner);
      if list[n] in t.alive && (list[n], m) in t.async {
        at := at + [n];
      }
    }
  }

  lemma {:induction false} ResolveAllAppend(list: seq<CompId>, c: CompId, t: Tables, m: MsgId, owner: ExecId)
    ensures ResolveAll(list + [c], t, m, owner) == ResolveAll(list, t, m, owner) + ResolveOne(c, t, m, owner)
    decreases |list|
  {
    if list == [] {
      assert list + [c] == [c] && [c][1..] == [];
    } else {
      assert (list + [c])[1..] == list[1..] + [c];
      ResolveAllAppend(list[1..], c, t, m, owner);
    }
  }
}
