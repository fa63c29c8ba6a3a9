/**
 * The objects themselves: a component with its tables of handlers (component_base.h) and the references
 * that look handlers up (mono_ref.h, poly_ref.h, interface_ref.h), each method proved against the functions
 * whose runs are studied in Coherence.
 */
module Components {
  import opened Common
  import Brokers
  import opened References
  import Runs = Coherence

  /** One component's map holds what the tables of all components hold for it. */
  ghost predicate Holds<V>(mine: map<MsgId, V>, all: map<Key, V>, c: CompId) {
    && (forall m :: m in mine <==> (c, m) in all)
    && (forall m :: m in mine ==> mine[m] == all[(c, m)])
  }

  class Component {
    const id: CompId
    const home: ExecId
    const direct: bool
    var syncHandlers: map<MsgId, HandlerId>
    var asyncHandlers: map<MsgId, HandlerId>
    var overrides: map<MsgId, Option<ExecId>>
    var interfaces: map<MsgId, Interface>

    constructor (id: CompId, home: ExecId, direct: bool)
      ensures this.id == id && this.home == home && this.direct == direct
      ensures syncHandlers == map[] && asyncHandlers == map[] && overrides == map[] && interfaces == map[]
    {
      this.id, this.home, this.direct := id, home, direct;
      syncHandlers, asyncHandlers, overrides, interfaces := map[], map[], map[], map[];
    }

    ghost predicate Mirrors(t: Tables)
      reads this
    {
      && home == t.home(id) && direct == t.direct(id)
      && Holds(syncHandlers, t.sync, id) && Holds(asyncHandlers, t.async, id)
      && Holds(overrides, t.overrides, id) && Holds(interfaces, t.interfaces, id)
    }

    method LookupHandler(kind: Kind, m: MsgId, ghost t: Tables) returns (h: Option<HandlerId>)
      requires Mirrors(t)
      ensures h == HandlerOf(t, kind, id, m)
    {
      if kind == Sync {
        h := if m in syncHandlers then Some(syncHandlers[m]) else None;
      } else {
        h := if m in asyncHandlers then Some(asyncHandlers[m]) else None;
      }
    }

    method LookupExecutorOverride(m: MsgId, ghost t: Tables) returns (e: Option<ExecId>)
      requires Mirrors(t)
      ensures e == OverrideOf(t, id, m)
    {
      e := if m in overrides then overrides[m] else None;
    }

    method LookupInterface(m: MsgId, ghost t: Tables) returns (i: Option<Interface>)
      requires Mirrors(t)
      ensures i.Some? <==> (id, m) in t.interfaces
      ensures i.Some? ==> i.value == t.interfaces[(id, m)]
    {
      i := if m in interfaces then Some(interfaces[m]) else None;
    }

    method PublishSyncQuery(broker: Brokers.Broker, m: MsgId, h: HandlerId, ghost t: Tables)
      requires Mirrors(t) && Brokers.Valid(broker.View())
      modifies `syncHandlers, broker
      ensures Mirrors(Runs.TablesAfter(t, Runs.PublishSync(id, m, h)))
      ensures syncHandlers == old(syncHandlers)[m := h]
      ensures Brokers.Valid(broker.View()) && broker.View() == Brokers.Associate(old(broker.View()), m, id)
    {
      broker.AssociateWith(m, id);
      syncHandlers := syncHandlers[m := h];
    }

    method PublishAsyncQuery(broker: Brokers.Broker, m: MsgId, h: HandlerId, e: Option<ExecId>, ghost t: Tables)
      requires Mirrors(t) && Brokers.Valid(broker.View())
      modifies `asyncHandlers, `overrides, broker
      ensures Mirrors(Runs.TablesAfter(t, Runs.PublishAsync(id, m, h, e)))
      ensures asyncHandlers == old(asyncHandlers)[m := h] && overrides == old(overrides)[m := e]
      ensures Brokers.Valid(broker.View()) && broker.View() == Brokers.Associate(old(broker.View()), m, id)
    {
      broker.AssociateWith(m, id);
      asyncHandlers := asyncHandlers[m := h];
      overrides := overrides[m := e];
    }

    method SubscribeEvent(broker: Brokers.Broker, m: MsgId, h: HandlerId, ghost t: Tables)
      requires Mirrors(t) && Brokers.Valid(broker.View())
      modifies `asyncHandlers, broker
      ensures Mirrors(Runs.TablesAfter(t, Runs.Subscribe(id, m, h)))
      ensures asyncHandlers == old(asyncHandlers)[m := h]
      ensures Brokers.Valid(broker.View()) && broker.View() == Brokers.Associate(old(broker.View()), m, id)
    {
      broker.AssociateWith(m, id);
      asyncHandlers := asyncHandlers[m := h];
    }

    method PublishInterface(broker: Brokers.Broker, m: MsgId, i: Interface, ghost t: Tables)
      requires Mirrors(t) && Brokers.Valid(broker.View())
      modifies `interfaces, broker
      ensures Mirrors(Runs.TablesAfter(t, Runs.PublishInterface(id, m, i)))
      ensures interfaces == old(interfaces)[m := i]
      ensures Brokers.Valid(broker.View()) && broker.View() == Brokers.Associate(old(broker.View()), m, id)
    {
      broker.AssociateWith(m, id);
      interfaces := interfaces[m := i];
    }

    /** Reports false where the source aborts: nothing to filter. `h` is the new head of the chain. */
    method PrependFilter(broker: Brokers.Broker, m: MsgId, h: HandlerId, ghost t: Tables) returns (found: bool)
      requires Mirrors(t) && Brokers.Valid(broker.View())
      modifies `asyncHandlers, broker
      ensures Brokers.Valid(broker.View()) && (found <==> (id, m) in t.async)
      ensures found ==> Mirrors(Runs.TablesAfter(t, Runs.PrependFilter(id, m, h)))
      ensures asyncHandlers == if found then old(asyncHandlers)[m := h] else old(asyncHandlers)
      ensures found ==> broker.View() == Brokers.Invalidate(old(broker.View()), m)
      ensures !found ==> Mirrors(t) && broker.View() == old(broker.View())
    {
      if m !in asyncHandlers {
        return false;
      }
      asyncHandlers := asyncHandlers[m := h];
      broker.InvalidateId(m);
      found := true;
    }
  }

  /** The components that are alive, as the objects that weak pointers to them lock. */
  ghost predicate Living(components: map<CompId, Component>, t: Tables)
    reads components.Values
  {
    && components.Keys == t.alive
    && forall c :: c in components ==> components[c].id == c && components[c].Mirrors(t)
  }

  class MonoRef {
    const kind: Kind
    const m: MsgId
    const owner: ExecId
    const broker: Brokers.Broker
    var handler: Option<HandlerId>
    var receivers: Option<SnapshotId>
    var sameExecutor: bool
    var receiver: Option<CompId>
    var receiverExecutor: Option<ExecId>

    function View(): Mono
      reads this
    {
      Mono(kind, m, owner, handler, receivers, sameExecutor, receiver, receiverExecutor)
    }

    constructor (kind: Kind, m: MsgId, owner: ExecId, broker: Brokers.Broker)
      ensures View() == EmptyMono(kind, m, owner) && this.broker == broker
    {
      this.kind, this.m, this.owner, this.broker := kind, m, owner, broker;
      handler, receivers, sameExecutor, receiver, receiverExecutor := None, None, false, None, None;
    }

    method Lookup(components: map<CompId, Component>, ghost t: Tables) returns (h: Option<HandlerId>)
      requires Brokers.Valid(broker.View()) && Living(components, t)
      modifies this, broker
      ensures (broker.View(), View(), h) == LookUp(old(broker.View()), t, old(View()))
    {
      if handler.Some? && !Brokers.Expired(broker.View(), receivers) {
        return handler;
      }
      var snapshot := broker.LookUp(m);
      receivers := Some(snapshot);
      var list := broker.store[snapshot];
      if |list| != 1 {
        return None;
      }
      if list[0] !in components {
        receiver := None;
        return None;
      }
      receiver := Some(list[0]);
      var component := components[list[0]];
      handler := component.LookupHandler(kind, m, t);
      if handler.None? {
        return None;
      }
      var e := component.LookupExecutorOverride(m, t);
      receiverExecutor := if e.Some? then e else Some(component.home);
      sameExecutor := owner == receiverExecutor.value;
      return handler;
    }

    method Reset()
      modifies this
      ensures View() == References.Reset(old(View()))
    {
      handler, receivers, receiver, receiverExecutor := None, None, None, None;
    }
  }

  class PolyRef {
    const m: MsgId
    const owner: ExecId
    const broker: Brokers.Broker
    var receivers: Option<SnapshotId>
    var targets: seq<Target>

    function View(): Poly
      reads this
    {
      Poly(m, owner, receivers, targets)
    }

    constructor (m: MsgId, owner: ExecId, broker: Brokers.Broker)
      ensures View() == Poly(m, owner, None, []) && this.broker == broker
    {
      this.m, this.owner, this.broker := m, owner, broker;
      receivers, targets := None, [];
    }

    method Lookup(components: map<CompId, Component>, ghost t: Tables)
      requires Brokers.Valid(broker.View()) && Living(components, t)
      modifies this, broker
      ensures (broker.View(), View()) == LookUpAll(old(broker.View()), t, old(View()))
    {
      if targets != [] && !Brokers.Expired(broker.View(), receivers) {
        return;
      }
      var snapshot := broker.LookUp(m);
      receivers := Some(snapshot);
      var list := broker.store[snapshot];
      targets := [];
      for i := 0 to |list|
        modifies `targets
        invariant targets == ResolveAll(list[..i], t, m, owner)
      {
        assert list[..i + 1] == list[..i] + [list[i]];
        ResolveAllAppend(list[..i], list[i], t, m, owner);
        if list[i] in components {
          var component := components[list[i]];
          var h := component.LookupHandler(Async, m, t);
          if h.Some? {
            targets := targets + [Target(list[i], h.value, component.home == owner)];
          }
        }
      }
      assert list[..|list|] == list;
    }

    method Reset()
      modifies this
      ensures View() == old(View()).(receivers := None, targets := [])
    {
      receivers, targets := None, [];
    }
  }

  class InterfaceRef {
    const m: MsgId
    const owner: ExecId
    const broker: Brokers.Broker
    var receivers: Option<SnapshotId>
    var proxy: Option<Proxy>
    var receiver: Option<CompId>

    function View(): Link
      reads this
    {
      Link(m, owner, receivers, proxy, receiver)
    }

    constructor (m: MsgId, owner: ExecId, broker: Brokers.Broker)
      ensures View() == Link(m, owner, None, None, None) && this.broker == broker
    {
      this.m, this.owner, this.broker := m, owner, broker;
      receivers, proxy, receiver := None, None, None;
    }

    method Lookup(components: map<CompId, Component>, ghost t: Tables) returns (p: Option<Proxy>)
      requires Brokers.Valid(broker.View()) && Living(components, t)
      modifies this, broker
      ensures (broker.View(), View(), p) == LookUpInterface(old(broker.View()), t, old(View()))
    {
      if proxy.Some? && !Brokers.Expired(broker.View(), receivers) {
        return proxy;
      }
      var snapshot := broker.LookUp(m);
      receivers := Some(snapshot);
      var list := broker.store[snapshot];
      if |list| != 1 {
        return None;
      }
      if list[0] !in components {
        receiver := None;
        return None;
      }
      receiver := Some(list[0]);
      var component := components[list[0]];
      var i := component.LookupInterface(m, t);
      if i.None? {
        return None;
      }
      var copied := CopyInterface(component, i.value, t);
      proxy := Some(copied);
      return proxy;
    }

    /** The copy constructors of the interface's queries, one after the other. */
    method CopyInterface(component: Component, i: Interface, ghost t: Tables) returns (p: Proxy)
      requires component.Mirrors(t)
      ensures p == ProxyOf(t, component.id, i, owner)
    {
      var queries := [];
      for k := 0 to |i.queries|
        invariant queries == ProxyOf(t, component.id, i, owner).queries[..k]
      {
        var q := i.queries[k];
        var same := q.executor == owner;
        if q.kind == Async && !component.direct {
          same := false;
        }
        queries := queries + [Copied(q.kind, q.executor, same)];
      }
      p := Proxy(i.id, component.id, queries);
    }

    method Reset()
      modifies this
      ensures View() == old(View()).(receivers := None, proxy := None, receiver := None)
    {
      receivers, proxy, receiver := None, None, None;
    }
  }
}
