/**
 * What stale references come to: runs on which they arise, whether whoever they name is still there, and
 * which of an interface reference's failing exits can be reached. And what stale proxies keep: whether their
 * queries may be called directly.
 */
module Staleness {
  import opened Common
  import Brokers
  import opened References
  import opened Coherence

  // ---------- Whom a lookup leaves in the reference ----------

  /** A reference with a handler has an executor. */
  lemma {:induction false} StepHasExecutor(w: World, a: Action, k: nat)
    requires Brokers.Valid(w.b) && Can(w, a) && k in Next(w, a).monos
    requires k in w.monos && w.monos[k].handler.Some? ==> w.monos[k].executor.Some?
    ensures Next(w, a).monos[k].handler.Some? ==> Next(w, a).monos[k].executor.Some?
  {
  }

  lemma {:induction false} RunHasExecutor(trace: seq<World>, acts: seq<Action>, k: nat)
    requires IsRun(trace, acts) && k in trace[|acts|].monos
    ensures trace[|acts|].monos[k].handler.Some? ==> trace[|acts|].monos[k].executor.Some?
    decreases |acts|
  {
    if acts != [] {
      var n := |acts| - 1;
      LastStep(trace, acts);
      if k in trace[n].monos {
        RunHasExecutor(trace[..n + 1], acts[..n], k);
      }
      StepHasExecutor(trace[n], acts[n], k);
    }
  }

  lemma {:induction false} LookupHoldsReceiver(w: World, k: nat, tainted: bool)
    requires Brokers.Valid(w.b) && k in w.monos && Judged(w, k, tainted)
    requires w.monos[k].receiver.Some? ==> w.monos[k].receiver.value in w.t.alive
    ensures var (_, r, h) := LookUp(w.b, w.t, w.monos[k]);
      h.Some? ==> (r.receiver.Some? && r.receiver.value in w.t.alive <==> !(tainted && w.monos[k].receiver.None?))
  {
    LookupInPlace(w.b, w.monos[k].m);
  }

  /** A lookup that returns a handler leaves a receiver that is alive, which is then held, exactly unless the
      reference is tainted and had lost its receiver. */
  lemma {:induction false} LookupsHoldReceivers(trace: seq<World>, acts: seq<Action>, k: nat)
    requires IsRun(trace, acts) && k in trace[|acts|].monos
    ensures var w := trace[|acts|];
      && Brokers.Valid(w.b)
      && var (_, r, h) := LookUp(w.b, w.t, w.monos[k]);
      && (h.Some? ==>
            (r.receiver.Some? && r.receiver.value in w.t.alive <==>
               !(Tainted(trace, acts, k) && w.monos[k].receiver.None?)))
  {
    RunKnown(trace, acts);
    RunJudged(trace, acts, k);
    var w := trace[|acts|];
    assert w.monos[k].receiver.Some? ==> Pinned(w, w.monos[k].receiver.value);
    LookupHoldsReceiver(w, k, Tainted(trace, acts, k));
  }

  /** The handler kept is one that the receiver held, if any, has had for the message at some time. */
  ghost predicate HandlerBelongs(trace: seq<World>, r: Mono) {
    r.handler.Some? && r.receiver.Some? ==>
      exists i :: 0 <= i < |trace| && HandlerOf(trace[i].t, r.kind, r.receiver.value, r.m) == r.handler
  }

  lemma {:induction false} StepKeepsHandler(w: World, a: Action, k: nat)
    requires Brokers.Valid(w.b) && Can(w, a) && k in Next(w, a).monos
    ensures var r := Next(w, a).monos[k];
      || r.handler.None? || r.receiver.None? || HandlerOf(w.t, r.kind, r.receiver.value, r.m) == r.handler
      || (k in w.monos && (w.monos[k].kind, w.monos[k].m, w.monos[k].handler, w.monos[k].receiver)
                       == (r.kind, r.m, r.handler, r.receiver))
  {
  }

  /** After any run, tainted or not, the handler and the receiver in a reference belong together. */
  lemma {:induction false} HandlersBelong(trace: seq<World>, acts: seq<Action>, k: nat)
    requires IsRun(trace, acts) && k in trace[|acts|].monos
    ensures HandlerBelongs(trace, trace[|acts|].monos[k])
    decreases |acts|
  {
    if acts != [] {
      var n := |acts| - 1;
      LastStep(trace, acts);
      StepKeepsHandler(trace[n], acts[n], k);
      if k in trace[n].monos {
        HandlersBelong(trace[..n + 1], acts[..n], k);
        StillBelongs(trace[..n + 1], trace, trace[n].monos[k]);
      }
    }
  }

  lemma {:induction false} StillBelongs(trace: seq<World>, longer: seq<World>, r: Mono)
    requires trace <= longer && HandlerBelongs(trace, r)
    ensures HandlerBelongs(longer, r)
  {
    if r.handler.Some? && r.receiver.Some? {
      var i :| 0 <= i < |trace| && HandlerOf(trace[i].t, r.kind, r.receiver.value, r.m) == r.handler;
      assert longer[i] == trace[i];
    }
  }

  // ---------- A reference that has lost its receiver ----------

  lemma {:induction false} SomeOrder(ids: set<MsgId>) returns (order: seq<MsgId>)
    ensures Brokers.Enumerates(order, ids)
  {
    if ids == {} {
      order := [];
    } else {
      var m :| m in ids;
      order := SomeOrder(ids - {m});
      Brokers.DistinctAppend(order, m);
      order := order + [m];
    }
  }

  lemma {:induction false} AloneRemoved(b: Brokers.State, order: seq<MsgId>, c: CompId, alive: set<CompId>, m: MsgId,
          weak: Option<SnapshotId>)
    requires Brokers.Valid(b) && Brokers.Enumerates(order, b.active.Keys) && Brokers.Issued(b, weak)
    requires Brokers.ListOf(b, m) == [c] && weak == Some(b.active[m])
    ensures var v := Brokers.DisassociateAll(b, order, c, alive);
      Brokers.Valid(v) && Brokers.ListOf(v, m) == [] && Brokers.Expired(v, weak)
  {
    Brokers.DisassociateAllExact(b, order, c, alive);
    Brokers.SurvivorsOne(c, c, alive);
  }

  /** The receiver c of a resolved reference unpublishes, and m is left to nobody. */
  lemma {:induction false} AfterUnpublish(w: World, k: nat, c: CompId, order: seq<MsgId>) returns (v: World)
    requires Known(w) && Linked(w) && k in w.monos && Brokers.Enumerates(order, w.b.active.Keys)
    requires Cached(w.b, w.monos[k]) && Coherent(w.b, w.t, w.monos[k]) && w.monos[k].receiver == Some(c)
    ensures Can(w, Unpublish(c, order)) && v == Next(w, Unpublish(c, order)) && Brokers.Valid(v.b)
    ensures v.monos == w.monos && v.t == w.t && Brokers.ListOf(v.b, w.monos[k].m) == []
    ensures Brokers.Expired(v.b, w.monos[k].receivers)
  {
    v := Next(w, Unpublish(c, order));
    assert Brokers.ListOf(w.b, w.monos[k].m) == [c];
    AloneRemoved(w.b, order, c, w.t.alive, w.monos[k].m, w.monos[k].receivers);
  }

  /** Another component publishes m and goes: the only receiver listed is dead. */
  ghost predicate CameAndWent(w: World, w1: World, w2: World, w3: World, k: nat, d: CompId, publish: Action) {
    && Brokers.Valid(w.b) && Can(w, Create(d)) && w1 == Next(w, Create(d))
    && Brokers.Valid(w1.b) && Can(w1, publish) && w2 == Next(w1, publish)
    && Brokers.Valid(w2.b) && Can(w2, Destroy(d)) && w3 == Next(w2, Destroy(d))
    && Brokers.Valid(w3.b) && Can(w3, UseMono(k)) && StaleExit(w3.b, w3.t, w3.monos[k])
    && LookUp(w3.b, w3.t, w3.monos[k]).1.receiver.None?
  }

  lemma {:induction false} ComesAndGoes(w: World, k: nat, d: CompId, h: HandlerId)
    returns (w1: World, w2: World, w3: World)
    requires Known(w) && Linked(w) && k in w.monos && d !in w.t.created && w.monos[k].handler.Some?
    requires Brokers.Expired(w.b, w.monos[k].receivers) && Brokers.ListOf(w.b, w.monos[k].m) == []
    ensures CameAndWent(w, w1, w2, w3, k, d, PublishAsync(d, w.monos[k].m, h, None))
  {
    var r := w.monos[k];
    w1 := Next(w, Create(d));
    Brokers.PutReplaces(w1.b, r.m, [] + [d], r.receivers);
    assert [] + [d] == [d];
    w2 := Next(w1, PublishAsync(d, r.m, h, None));
    assert !Pinned(w, d);
    assert Pinned(w2, d) ==> Pinned(w, d);
    w3 := Next(w2, Destroy(d));
    assert Brokers.ListOf(w3.b, r.m) == [d];
  }

  /** It does happen to any resolved reference: its receiver unpublishes, another component publishes the
      message and is gone by the time of the lookup, which the source expects in races. From then on the
      reference answers with a handler of a component that it does not hold. */
  lemma {:induction false} ReceiverLost(trace: seq<World>, acts: seq<Action>, k: nat, d: CompId, h: HandlerId)
    returns (c: CompId, order: seq<MsgId>, longer: seq<World>, more: seq<Action>)
    requires IsRun(trace, acts) && Brokers.Valid(trace[|acts|].b) && k in trace[|acts|].monos
    requires Cached(trace[|acts|].b, trace[|acts|].monos[k]) && !Tainted(trace, acts, k)
    requires d !in trace[|acts|].t.created
    ensures more == acts + [Unpublish(c, order)] + [Create(d)] + [PublishAsync(d, trace[|acts|].monos[k].m, h, None)]
                  + [Destroy(d)] + [UseMono(k)]
    ensures IsRun(longer, more) && longer[0] == trace[0] && k in longer[|more|].monos
    ensures Tainted(longer, more, k) && longer[|more|].monos[k].receiver.None?
  {
    var w := trace[|acts|];
    RunKnown(trace, acts);
    RunJudged(trace, acts, k);
    order := SomeOrder(w.b.active.Keys);
    c := w.monos[k].receiver.value;
    var w0 := AfterUnpublish(w, k, c, order);
    KnownStep(w, Unpublish(c, order));
    LinkedStep(w, Unpublish(c, order));
    var w1, w2, w3 := ComesAndGoes(w0, k, d, h);
    longer, more := Extend(trace, acts, Unpublish(c, order));
    longer, more := LoseReceiver(longer, more, k, d, PublishAsync(d, w.monos[k].m, h, None), w0, w1, w2, w3);
  }

  lemma {:induction false} LoseReceiver(trace: seq<World>, acts: seq<Action>, k: nat, d: CompId, publish: Action,
          w: World, w1: World, w2: World, w3: World) returns (longer: seq<World>, more: seq<Action>)
    requires IsRun(trace, acts) && trace[|acts|] == w && CameAndWent(w, w1, w2, w3, k, d, publish)
    ensures IsRun(longer, more) && more == acts + [Create(d)] + [publish] + [Destroy(d)] + [UseMono(k)]
    ensures longer[0] == trace[0] && k in longer[|more|].monos
    ensures Tainted(longer, more, k) && longer[|more|].monos[k].receiver.None?
  {
    longer, more := Extend(trace, acts, Create(d));
    longer, more := Extend(longer, more, publish);
    longer, more := Extend(longer, more, Destroy(d));
    longer, more := Extend(longer, more, UseMono(k));
  }

  // ---------- Stale interface references ----------

  /** The worlds after another component came, and after it published the interface of link k as well. */
  ghost predicate AlsoPublished(w: World, w1: World, w2: World, k: nat, d: CompId, publish: Action) {
    && Brokers.Valid(w.b) && Can(w, Create(d)) && w1 == Next(w, Create(d))
    && Brokers.Valid(w1.b) && Can(w1, publish) && w2 == Next(w1, publish)
    && Brokers.Valid(w2.b) && Can(w2, UseLink(k)) && StaleLink(w2.b, w2.t, w2.links[k])
  }

  lemma {:induction false} SecondInterface(w: World, k: nat, d: CompId, i: Interface) returns (w1: World, w2: World)
    requires Known(w) && Linked(w) && k in w.links && d !in w.t.created
    requires CachedLink(w.b, w.links[k]) && CoherentLink(w.b, w.t, w.links[k])
    ensures AlsoPublished(w, w1, w2, k, d, PublishInterface(d, w.links[k].m, i))
  {
    var r := w.links[k];
    Brokers.PutReplaces(w.b, r.m, Brokers.ListOf(w.b, r.m) + [d], r.receivers);
    w1 := Next(w, Create(d));
    w2 := Next(w1, PublishInterface(d, r.m, i));
  }

  lemma {:induction false} InterfaceAlsoPublished(trace: seq<World>, acts: seq<Action>, k: nat, d: CompId, i: Interface)
    returns (w1: World, w2: World)
    requires IsRun(trace, acts) && Brokers.Valid(trace[|acts|].b) && k in trace[|acts|].links
    requires CachedLink(trace[|acts|].b, trace[|acts|].links[k]) && !LinkTainted(trace, acts, k)
    requires d !in trace[|acts|].t.created
    ensures AlsoPublished(trace[|acts|], w1, w2, k, d, PublishInterface(d, trace[|acts|].links[k].m, i))
  {
    RunKnown(trace, acts);
    RunLinkJudged(trace, acts, k);
    w1, w2 := SecondInterface(trace[|acts|], k, d, i);
  }

  /** Publishing the interface once more makes any resolved link stale. */
  lemma {:induction false} SecondPublisherTaintsLink(trace: seq<World>, acts: seq<Action>, k: nat, d: CompId,
          i: Interface)
    returns (longer: seq<World>, more: seq<Action>)
    requires IsRun(trace, acts) && Brokers.Valid(trace[|acts|].b) && k in trace[|acts|].links
    requires CachedLink(trace[|acts|].b, trace[|acts|].links[k]) && !LinkTainted(trace, acts, k)
    requires d !in trace[|acts|].t.created
    ensures more == acts + [Create(d)] + [PublishInterface(d, trace[|acts|].links[k].m, i)] + [UseLink(k)]
    ensures IsRun(longer, more) && longer[0] == trace[0] && LinkTainted(longer, more, k)
  {
    var w1, w2 := InterfaceAlsoPublished(trace, acts, k, d, i);
    longer, more := Extend(trace, acts, Create(d));
    longer, more := Extend(longer, more, PublishInterface(d, trace[|acts|].links[k].m, i));
    longer, more := Extend(longer, more, UseLink(k));
  }

  /** The world after component 0 has published interface 0 and been looked up, or not yet. */
  function AfterInterface(links: map<nat, Link>): World {
    World(Brokers.State([[0]], map[0 := 0]),
          Tables({0}, {0}, _ => 0, _ => true, map[], map[], map[], map[(0, 0) := Interface(5, [])]),
          map[], map[], links)
  }

  lemma {:induction false} FirstInterfaceLookup()
    ensures var w := AfterInterface(map[0 := Link(0, 0, None, None, None)]);
      && Brokers.Valid(w.b) && CachedLink(Next(w, UseLink(0)).b, Next(w, UseLink(0)).links[0])
      && !StaleLink(w.b, w.t, w.links[0])
  {
    var w := AfterInterface(map[0 := Link(0, 0, None, None, None)]);
    assert w.b.active[0] == 0;
  }

  /** The first steps of a run: component 0 comes, and publishes interface 0. */
  lemma {:induction false} InterfaceRun() returns (trace: seq<World>, acts: seq<Action>)
    ensures IsRun(trace, acts) && trace[|acts|] == AfterInterface(map[]) && Brokers.Valid(trace[|acts|].b)
  {
    var t := Tables({}, {}, AfterInterface(map[]).t.home, AfterInterface(map[]).t.direct, map[], map[], map[], map[]);
    trace, acts := [World(Brokers.State([], map[]), t, map[], map[], map[])], [];
    trace, acts := Extend(trace, acts, Create(0));
    trace, acts := Extend(trace, acts, PublishInterface(0, 0, Interface(5, [])));
    assert [] + [0] == [0];
  }

  /** A run with such a link. */
  lemma {:induction false} ResolvedLinkRun() returns (trace: seq<World>, acts: seq<Action>)
    ensures IsRun(trace, acts) && Brokers.Valid(trace[|acts|].b) && 0 in trace[|acts|].links
    ensures CachedLink(trace[|acts|].b, trace[|acts|].links[0]) && !LinkTainted(trace, acts, 0)
    ensures 1 !in trace[|acts|].t.created
  {
    trace, acts := InterfaceRun();
    trace, acts := Extend(trace, acts, AddLink(0, 0, 0));
    assert trace[|acts|] == AfterInterface(map[0 := Link(0, 0, None, None, None)]);
    RunLinkJudged(trace, acts, 0);
    FirstInterfaceLookup();
    trace, acts := Extend(trace, acts, UseLink(0));
  }

  // ---------- The extra exit ----------

  /** The message is only ever associated by publishing an interface. */
  predicate InterfaceOnly(acts: seq<Action>, m: MsgId) {
    forall i :: 0 <= i < |acts| ==>
      match acts[i]
      case PublishAsync(_, n, _, _) => n != m
      case PublishSync(_, n, _) => n != m
      case Subscribe(_, n, _) => n != m
      case _ => true
  }

  ghost predicate ListedHaveInterfaces(w: World, m: MsgId)
    requires Brokers.Valid(w.b)
  {
    forall i :: 0 <= i < |Brokers.ListOf(w.b, m)| ==> (Brokers.ListOf(w.b, m)[i], m) in w.t.interfaces
  }

  lemma {:induction false} StepHaveInterfaces(w: World, a: Action, m: MsgId)
    requires Known(w) && Can(w, a) && Brokers.Valid(Next(w, a).b) && ListedHaveInterfaces(w, m) && InterfaceOnly([a], m)
    ensures ListedHaveInterfaces(Next(w, a), m)
  {
    if a.Unpublish? {
      Brokers.DisassociateAllExact(w.b, a.order, a.c, w.t.alive);
      Brokers.SurvivorsKeep(Brokers.ListOf(w.b, m), a.c, w.t.alive, x => (x, m) in w.t.interfaces);
    } else {
      ListAfter(w, a, m);
      PutHaveInterfaces(w, a, m);
    }
  }

  lemma {:induction false} ListAfter(w: World, a: Action, m: MsgId)
    requires Brokers.Valid(w.b) && Can(w, a) && !a.Unpublish? && Brokers.Valid(Next(w, a).b)
    ensures Brokers.ListOf(Next(w, a).b, m) == match PutBy(w, a)
      case Some((n, list)) => if n == m then list else Brokers.ListOf(w.b, m)
      case None => Brokers.ListOf(w.b, m)
  {
    PutsOneList(w, a);
  }

  lemma {:induction false} PutHaveInterfaces(w: World, a: Action, m: MsgId)
    requires Brokers.Valid(w.b) && Can(w, a) && ListedHaveInterfaces(w, m) && InterfaceOnly([a], m)
    ensures PutBy(w, a).Some? && PutBy(w, a).value.0 == m ==>
      forall i :: 0 <= i < |PutBy(w, a).value.1| ==> (PutBy(w, a).value.1[i], m) in TablesAfter(w.t, a).interfaces
  {
    assert [a][0] == a;
  }

  lemma {:induction false} RunHaveInterfaces(trace: seq<World>, acts: seq<Action>, m: MsgId)
    requires IsRun(trace, acts) && InterfaceOnly(acts, m)
    ensures Brokers.Valid(trace[|acts|].b) && ListedHaveInterfaces(trace[|acts|], m)
    decreases |acts|
  {
    RunKnown(trace, acts);
    if acts != [] {
      var n := |acts| - 1;
      LastStep(trace, acts);
      RunHaveInterfaces(trace[..n + 1], acts[..n], m);
      StepHaveInterfaces(trace[n], acts[n], m);
    }
  }

  /** The exit on which an interface reference finds a living receiver without the interface is not reached
      where ids of interfaces are used for nothing else and publishing is one step: a link then goes stale
      on the same exits as a mono reference. */
  lemma {:induction false} ExtraExitUnreached(trace: seq<World>, acts: seq<Action>, k: nat)
    requires IsRun(trace, acts) && k in trace[|acts|].links && InterfaceOnly(acts, trace[|acts|].links[k].m)
    ensures var w := trace[|acts|];
      && Brokers.Valid(w.b)
      && var r, list := w.links[k], Brokers.ListOf(w.b, w.links[k].m);
      && (StaleLink(w.b, w.t, r) <==>
            r.proxy.Some? && Brokers.Expired(w.b, r.receivers) && (|list| != 1 || list[0] !in w.t.alive))
  {
    RunHaveInterfaces(trace, acts, trace[|acts|].links[k].m);
  }

  // ---------- Whom an interface lookup leaves in the reference ----------

  predicate OwnsProxy(r: Link) {
    r.proxy.Some? && r.receiver.Some? ==> r.proxy.value.receiver == r.receiver.value
  }

  lemma {:induction false} StepOwnsProxy(w: World, a: Action, k: nat)
    requires Brokers.Valid(w.b) && Can(w, a) && k in Next(w, a).links
    requires k in w.links ==> OwnsProxy(w.links[k]) && ListedHaveInterfaces(w, w.links[k].m)
    ensures OwnsProxy(Next(w, a).links[k])
    ensures k in w.links ==> Next(w, a).links[k].m == w.links[k].m
  {
    if a == UseLink(k) {
      LookupInPlace(w.b, w.links[k].m);
    }
  }

  lemma {:induction false} RunOwnsProxy(trace: seq<World>, acts: seq<Action>, k: nat)
    requires IsRun(trace, acts) && k in trace[|acts|].links && InterfaceOnly(acts, trace[|acts|].links[k].m)
    ensures OwnsProxy(trace[|acts|].links[k])
    decreases |acts|
  {
    if acts != [] {
      var n := |acts| - 1;
      LastStep(trace, acts);
      if k in trace[n].links {
        SameMessage(trace[n], acts[n], k);
        RunOwnsProxy(trace[..n + 1], acts[..n], k);
        RunHaveInterfaces(trace[..n + 1], acts[..n], trace[n].links[k].m);
      }
      StepOwnsProxy(trace[n], acts[n], k);
    }
  }

  lemma {:induction false} SameMessage(w: World, a: Action, k: nat)
    requires Brokers.Valid(w.b) && Can(w, a) && k in w.links
    ensures k in Next(w, a).links && Next(w, a).links[k].m == w.links[k].m
  {
  }

  /** Looking link k up answers with no proxy, or holds the component of the proxy, which is alive, unless `lost`. */
  ghost predicate HoldsUnless(w: World, k: nat, lost: bool)
    requires Brokers.Valid(w.b) && k in w.links
  {
    var (_, r, p) := LookUpInterface(w.b, w.t, w.links[k]);
    p.Some? ==> (r.receiver == Some(p.value.receiver) && p.value.receiver in w.t.alive <==> !lost)
  }

  lemma {:induction false} LinkHoldsReceiver(w: World, k: nat, tainted: bool)
    requires Brokers.Valid(w.b) && k in w.links && LinkJudged(w, k, tainted)
    requires w.links[k].receiver.Some? ==> w.links[k].receiver.value in w.t.alive
    ensures tainted ==> w.links[k].proxy.Some?
    ensures HoldsUnless(w, k, tainted && w.links[k].receiver != Some(w.links[k].proxy.value.receiver))
  {
    LookupInPlace(w.b, w.links[k].m);
  }

  /** A lookup that answers with a proxy leaves its component in the link, and alive, exactly unless the link is
      tainted and holds another component or none; none, where ids of interfaces are used for nothing else. The
      queries of a proxy refer to their component by plain pointers, so this is what calling them relies on. */
  lemma {:induction false} LinkLookupsHoldReceivers(trace: seq<World>, acts: seq<Action>, k: nat)
    requires IsRun(trace, acts) && k in trace[|acts|].links
    ensures var w, tainted := trace[|acts|], LinkTainted(trace, acts, k);
      && Brokers.Valid(w.b) && (tainted ==> w.links[k].proxy.Some?)
      && HoldsUnless(w, k, tainted && w.links[k].receiver != Some(w.links[k].proxy.value.receiver))
      && (InterfaceOnly(acts, w.links[k].m) ==> HoldsUnless(w, k, tainted && w.links[k].receiver.None?))
  {
    RunKnown(trace, acts);
    RunLinkJudged(trace, acts, k);
    var w := trace[|acts|];
    assert w.links[k].receiver.Some? ==> Pinned(w, w.links[k].receiver.value);
    LinkHoldsReceiver(w, k, LinkTainted(trace, acts, k));
    if InterfaceOnly(acts, w.links[k].m) {
      RunOwnsProxy(trace, acts, k);
    }
  }

  // ---------- Direct calls ----------

  /** The proxy's queries are called directly exactly where they may be: on their own executor, and an
      asynchronous one only if its component allows it. */
  predicate CallsAsAllowed(t: Tables, p: Proxy, owner: ExecId) {
    forall i :: 0 <= i < |p.queries| ==>
      var q := p.queries[i];
      (q.callDirectly <==> q.executor == owner && (q.kind == Async ==> t.direct(p.receiver)))
  }

  lemma {:induction false} StepCallsAsAllowed(w: World, a: Action, k: nat)
    requires Brokers.Valid(w.b) && Can(w, a) && k in Next(w, a).links
    requires k in w.links && w.links[k].proxy.Some? ==> CallsAsAllowed(w.t, w.links[k].proxy.value, w.links[k].owner)
    ensures var r := Next(w, a).links[k];
      r.proxy.Some? ==> CallsAsAllowed(Next(w, a).t, r.proxy.value, r.owner)
  {
    assert Next(w, a).t.direct == w.t.direct;
    if a == UseLink(k) {
      LookupCallsAsAllowed(w.b, w.t, w.links[k]);
    }
  }

  lemma {:induction false} LookupCallsAsAllowed(b: Brokers.State, t: Tables, r: Link)
    requires Brokers.Valid(b) && (r.proxy.Some? ==> CallsAsAllowed(t, r.proxy.value, r.owner))
    ensures var r' := LookUpInterface(b, t, r).1;
      r'.owner == r.owner && (r'.proxy.Some? ==> CallsAsAllowed(t, r'.proxy.value, r'.owner))
  {
  }

  /** Whether a component may be called directly is respected by every proxy on every run, stale or not. */
  lemma {:induction false} ProxiesCallAsAllowed(trace: seq<World>, acts: seq<Action>, k: nat)
    requires IsRun(trace, acts) && k in trace[|acts|].links && trace[|acts|].links[k].proxy.Some?
    ensures var w := trace[|acts|]; CallsAsAllowed(w.t, w.links[k].proxy.value, w.links[k].owner)
    decreases |acts|
  {
    if acts != [] {
      var n := |acts| - 1;
      LastStep(trace, acts);
      if k in trace[n].links && trace[n].links[k].proxy.Some? {
        ProxiesCallAsAllowed(trace[..n + 1], acts[..n], k);
      }
      StepCallsAsAllowed(trace[n], acts[n], k);
    }
  }
}
