/**
 * Cache coherence over whole runs: references of every kind, looked up, reset and made stale in any
 * interleaving with components that come, publish, add filters, unpublish and go.
 */
module Coherence {
  import opened Common
  import Brokers
  import opened References

  datatype World = World(b: Brokers.State, t: Tables, monos: map<nat, Mono>, polys: map<nat, Poly>,
    links: map<nat, Link>)

  datatype Action =
    | Create(c: CompId)
    | Destroy(c: CompId)
    | PublishAsync(c: CompId, m: MsgId, h: HandlerId, executorOverride: Option<ExecId>)
    | PublishSync(c: CompId, m: MsgId, h: HandlerId)
    | Subscribe(c: CompId, m: MsgId, h: HandlerId)
    | PublishInterface(c: CompId, m: MsgId, i: Interface)
    | PrependFilter(c: CompId, m: MsgId, h: HandlerId)
    | Invalidate(m: MsgId)
    | Unpublish(c: CompId, order: seq<MsgId>)
    | AddMono(k: nat, kind: Kind, m: MsgId, owner: ExecId)
    | AddPoly(k: nat, m: MsgId, owner: ExecId)
    | AddLink(k: nat, m: MsgId, owner: ExecId)
    | UseMono(k: nat) | UsePoly(k: nat) | UseLink(k: nat)
    | ResetMono(k: nat) | ResetPoly(k: nat) | ResetLink(k: nat)

  /** Some reference owns a strong pointer to the component. */
  predicate Pinned(w: World, c: CompId) {
    || (exists k :: k in w.monos && w.monos[k].receiver == Some(c))
    || (exists k :: k in w.links && w.links[k].receiver == Some(c))
    || (exists k, i :: k in w.polys && 0 <= i < |w.polys[k].targets| && w.polys[k].targets[i].receiver == c)
  }

  ghost predicate Can(w: World, a: Action) {
    match a
    case Create(c) => c !in w.t.created
    case Destroy(c) => c in w.t.alive && !Pinned(w, c)
    case PublishAsync(c, _, _, _) => c in w.t.alive
    case PublishSync(c, _, _) => c in w.t.alive
    case Subscribe(c, _, _) => c in w.t.alive
    case PublishInterface(c, _, _) => c in w.t.alive
    case PrependFilter(c, m, _) => c in w.t.alive && (c, m) in w.t.async
    case Invalidate(_) => true
    case Unpublish(_, order) => Brokers.Enumerates(order, w.b.active.Keys)
    case AddMono(k, _, _, _) => k !in w.monos
    case AddPoly(k, _, _) => k !in w.polys
    case AddLink(k, _, _) => k !in w.links
    case UseMono(k) => k in w.monos
    case ResetMono(k) => k in w.monos
    case UsePoly(k) => k in w.polys
    case ResetPoly(k) => k in w.polys
    case UseLink(k) => k in w.links
    case ResetLink(k) => k in w.links
  }

  function TablesAfter(t: Tables, a: Action): Tables {
    match a
    case Create(c) => t.(created := t.created + {c}, alive := t.alive + {c})
    case Destroy(c) => t.(alive := t.alive - {c})
    case PublishAsync(c, m, h, e) => t.(async := t.async[(c, m) := h], overrides := t.overrides[(c, m) := e])
    case PublishSync(c, m, h) => t.(sync := t.sync[(c, m) := h])
    case Subscribe(c, m, h) => t.(async := t.async[(c, m) := h])
    case PublishInterface(c, m, i) => t.(interfaces := t.interfaces[(c, m) := i])
    case PrependFilter(c, m, h) => t.(async := t.async[(c, m) := h])
    case _ => t
  }

  ghost function BrokerAfter(w: World, a: Action): Brokers.State
    requires Brokers.Valid(w.b) && Can(w, a)
  {
    match a
    case PublishAsync(c, m, _, _) => Brokers.Associate(w.b, m, c)
    case PublishSync(c, m, _) => Brokers.Associate(w.b, m, c)
    case Subscribe(c, m, _) => Brokers.Associate(w.b, m, c)
    case PublishInterface(c, m, _) => Brokers.Associate(w.b, m, c)
    case PrependFilter(_, m, _) => Brokers.Invalidate(w.b, m)
    case Invalidate(m) => Brokers.Invalidate(w.b, m)
    case Unpublish(c, order) => Brokers.DisassociateAll(w.b, order, c, w.t.alive)
    case UseMono(k) => LookUp(w.b, w.t, w.monos[k]).0
    case UsePoly(k) => LookUpAll(w.b, w.t, w.polys[k]).0
    case UseLink(k) => LookUpInterface(w.b, w.t, w.links[k]).0
    case _ => w.b
  }

  /** Each published function and its association, or the filter and its invalidation, is one step. */
  ghost function Next(w: World, a: Action): World
    requires Brokers.Valid(w.b) && Can(w, a)
  {
    var v := w.(b := BrokerAfter(w, a), t := TablesAfter(w.t, a));
    match a
    case AddMono(k, kind, m, owner) => v.(monos := w.monos[k := EmptyMono(kind, m, owner)])
    case AddPoly(k, m, owner) => v.(polys := w.polys[k := Poly(m, owner, None, [])])
    case AddLink(k, m, owner) => v.(links := w.links[k := Link(m, owner, None, None, None)])
    case UseMono(k) => v.(monos := w.monos[k := LookUp(w.b, w.t, w.monos[k]).1])
    case UsePoly(k) => v.(polys := w.polys[k := LookUpAll(w.b, w.t, w.polys[k]).1])
    case UseLink(k) => v.(links := w.links[k := LookUpInterface(w.b, w.t, w.links[k]).1])
    case ResetMono(k) => v.(monos := w.monos[k := Reset(w.monos[k])])
    case ResetPoly(k) => v.(polys := w.polys[k := w.polys[k].(receivers := None, targets := [])])
    case ResetLink(k) => v.(links := w.links[k := w.links[k].(receivers := None, proxy := None, receiver := None)])
    case _ => v
  }

  // ---------- What always holds ----------

  /** A weak pointer to a snapshot of m is unexpired only while that is the snapshot in place for m. */
  ghost predicate Follows(b: Brokers.State, receivers: Option<SnapshotId>, m: MsgId) {
    && Brokers.Issued(b, receivers)
    && (!Brokers.Expired(b, receivers) ==> m in b.active && receivers == Some(b.active[m]))
  }

  ghost predicate Known(w: World) {
    && Brokers.Valid(w.b)
    && w.t.alive <= w.t.created
    && (forall k :: k in w.t.async || k in w.t.sync || k in w.t.interfaces ==> k.1 in w.b.active)
    && (forall m :: m in w.b.active ==>
          forall i :: 0 <= i < |Brokers.ListOf(w.b, m)| ==> Brokers.ListOf(w.b, m)[i] in w.t.created)
  }

  ghost predicate Linked(w: World)
    requires Brokers.Valid(w.b)
  {
    && (forall k :: k in w.monos ==> Follows(w.b, w.monos[k].receivers, w.monos[k].m))
    && (forall k :: k in w.polys ==> Follows(w.b, w.polys[k].receivers, w.polys[k].m))
    && (forall k :: k in w.links ==> Follows(w.b, w.links[k].receivers, w.links[k].m))
    && (forall c :: Pinned(w, c) ==> c in w.t.alive)
  }

  /** The one list an action puts in place, if any; only unpublishing does more. */
  ghost function PutBy(w: World, a: Action): Option<(MsgId, Brokers.Receivers)>
    requires Brokers.Valid(w.b) && Can(w, a)
  {
    match a
    case PublishAsync(c, m, _, _) => Some((m, Brokers.ListOf(w.b, m) + [c]))
    case PublishSync(c, m, _) => Some((m, Brokers.ListOf(w.b, m) + [c]))
    case Subscribe(c, m, _) => Some((m, Brokers.ListOf(w.b, m) + [c]))
    case PublishInterface(c, m, _) => Some((m, Brokers.ListOf(w.b, m) + [c]))
    case PrependFilter(_, m, _) => if m in w.b.active then Some((m, Brokers.ListOf(w.b, m))) else None
    case Invalidate(m) => if m in w.b.active then Some((m, Brokers.ListOf(w.b, m))) else None
    case UseMono(k) => if Cached(w.b, w.monos[k]) || w.monos[k].m in w.b.active then None else Some((w.monos[k].m, []))
    case UsePoly(k) => if LookUpAll(w.b, w.t, w.polys[k]).0 == w.b then None else Some((w.polys[k].m, []))
    case UseLink(k) => if LookUpInterface(w.b, w.t, w.links[k]).0 == w.b then None else Some((w.links[k].m, []))
    case _ => None
  }

  lemma {:induction false} PutsOneList(w: World, a: Action)
    requires Brokers.Valid(w.b) && Can(w, a) && !a.Unpublish?
    ensures Next(w, a).b == match PutBy(w, a) case None => w.b case Some((m, r)) => Brokers.Put(w.b, m, r)
  {
  }

  lemma {:induction false} BrokerStep(w: World, a: Action, weak: Option<SnapshotId>, m: MsgId)
    requires Known(w) && Can(w, a) && Follows(w.b, weak, m)
    ensures Brokers.Valid(Next(w, a).b) && Follows(Next(w, a).b, weak, m)
    ensures w.b.active.Keys <= Next(w, a).b.active.Keys
    ensures Brokers.Expired(w.b, weak) ==> Brokers.Expired(Next(w, a).b, weak)
  {
    if a.Unpublish? {
      AllRemovedStep(w, a.c, a.order, weak, m);
    } else {
      PutsOneList(w, a);
      var put := PutBy(w, a);
      if put.Some? {
        Brokers.PutReplaces(w.b, put.value.0, put.value.1, weak);
      }
    }
  }

  lemma {:induction false} AllRemovedStep(w: World, c: CompId, order: seq<MsgId>, weak: Option<SnapshotId>, m: MsgId)
    requires Known(w) && Brokers.Enumerates(order, w.b.active.Keys) && Follows(w.b, weak, m)
    ensures var b := Brokers.DisassociateAll(w.b, order, c, w.t.alive);
      && Brokers.Valid(b) && b.active.Keys == w.b.active.Keys && Follows(b, weak, m) && Brokers.Expired(b, weak)
  {
    Brokers.DisassociateAllExact(w.b, order, c, w.t.alive);
  }

  /** The snapshot in place for m is the one that was. */
  ghost predicate Undisturbed(w: World, a: Action, m: MsgId)
    requires Brokers.Valid(w.b) && Can(w, a)
  {
    m in w.b.active && m in Next(w, a).b.active && Next(w, a).b.active[m] == w.b.active[m]
  }

  ghost predicate SameEntries(t: Tables, u: Tables, c: CompId, m: MsgId) {
    && HandlerOf(t, Sync, c, m) == HandlerOf(u, Sync, c, m) && HandlerOf(t, Async, c, m) == HandlerOf(u, Async, c, m)
    && OverrideOf(t, c, m) == OverrideOf(u, c, m) && t.home == u.home && t.direct == u.direct
    && ((c, m) in t.interfaces <==> (c, m) in u.interfaces)
    && ((c, m) in t.interfaces ==> t.interfaces[(c, m)] == u.interfaces[(c, m)])
  }

  /** The id whose entries an action writes. */
  function Writes(a: Action): Option<MsgId> {
    match a
    case PublishAsync(_, m, _, _) => Some(m)
    case PublishSync(_, m, _) => Some(m)
    case Subscribe(_, m, _) => Some(m)
    case PublishInterface(_, m, _) => Some(m)
    case PrependFilter(_, m, _) => Some(m)
    case _ => None
  }

  lemma {:induction false} WritesOnlyThere(t: Tables, a: Action, c: CompId, m: MsgId)
    requires Writes(a) != Some(m)
    ensures SameEntries(TablesAfter(t, a), t, c, m)
  {
  }

  /** Whoever changes what is published for m also replaces the snapshot of m. */
  lemma {:induction false} WritersPut(w: World, a: Action)
    requires Known(w) && Can(w, a) && Writes(a).Some?
    ensures PutBy(w, a).Some? && PutBy(w, a).value.0 == Writes(a).value
  {
    if a.PrependFilter? {
      assert (a.c, a.m).1 in w.b.active;
    }
  }

  /** The dead stay dead, and whom a reference holds stays alive. */
  lemma {:induction false} LivesStep(w: World, a: Action, c: CompId)
    requires Known(w) && Can(w, a)
    ensures c in w.t.created && c in Next(w, a).t.alive ==> c in w.t.alive
    ensures c in w.t.alive && Pinned(w, c) ==> c in Next(w, a).t.alive
    ensures Next(w, a).t.alive <= Next(w, a).t.created && w.t.created <= Next(w, a).t.created
  {
  }

  /** While its snapshot is in place, nothing published for m changes. */
  lemma {:induction false} UndisturbedTables(w: World, a: Action, m: MsgId, c: CompId)
    requires Known(w) && Can(w, a) && Undisturbed(w, a, m)
    ensures SameEntries(Next(w, a).t, w.t, c, m)
  {
    if Writes(a) == Some(m) {
      WritersPut(w, a);
      PutsOneList(w, a);
    }
    WritesOnlyThere(w.t, a, c, m);
  }

  lemma {:induction false} UndisturbedList(w: World, a: Action, m: MsgId)
    requires Known(w) && Can(w, a) && Undisturbed(w, a, m)
    ensures Brokers.Valid(Next(w, a).b) && Brokers.ListOf(Next(w, a).b, m) == Brokers.ListOf(w.b, m)
  {
    if a.Unpublish? {
      AllRemovedStep(w, a.c, a.order, None, m);
      Brokers.DisassociateAllExact(w.b, a.order, a.c, w.t.alive);
    } else {
      PutsOneList(w, a);
      BrokerStep(w, a, None, m);
    }
  }

  // ---------- Mono references ----------

  /** As long as its snapshot is in place, resolving m gives what it gave, if the receiver is held. */
  lemma {:induction false} ResolveStays(w: World, a: Action, kind: Kind, m: MsgId, owner: ExecId)
    requires Known(w) && Linked(w) && Can(w, a) && Undisturbed(w, a, m) && Brokers.Valid(Next(w, a).b)
    ensures var x, y := Resolve(w.b, w.t, kind, m, owner), Resolve(Next(w, a).b, Next(w, a).t, kind, m, owner);
      y == x || (y.None? && x.Some? && !Pinned(w, x.value.receiver))
  {
    UndisturbedList(w, a, m);
    var list := Brokers.ListOf(w.b, m);
    if |list| == 1 {
      UndisturbedTables(w, a, m, list[0]);
      LivesStep(w, a, list[0]);
    }
  }

  lemma {:induction false} OthersKeepMono(w: World, a: Action, k: nat)
    requires Known(w) && Linked(w) && Can(w, a) && k in w.monos && Brokers.Valid(Next(w, a).b)
    requires a != UseMono(k) && a != ResetMono(k) && k in Next(w, a).monos && Next(w, a).monos[k] == w.monos[k]
    requires Cached(Next(w, a).b, w.monos[k])
    ensures Cached(w.b, w.monos[k])
    ensures Coherent(w.b, w.t, w.monos[k]) ==> Coherent(Next(w, a).b, Next(w, a).t, w.monos[k])
    ensures Resolve(w.b, w.t, w.monos[k].kind, w.monos[k].m, w.monos[k].owner).None? ==>
      Resolve(Next(w, a).b, Next(w, a).t, w.monos[k].kind, w.monos[k].m, w.monos[k].owner).None?
  {
    var r := w.monos[k];
    BrokerStep(w, a, r.receivers, r.m);
    ResolveStays(w, a, r.kind, r.m, r.owner);
    if Coherent(w.b, w.t, r) {
      assert Pinned(w, r.receiver.value);
    }
  }

  // ---------- The invariants hold on every run ----------

  ghost predicate ListsCreated(b: Brokers.State, created: set<CompId>)
    requires Brokers.Valid(b)
  {
    forall m, i :: m in b.active && 0 <= i < |Brokers.ListOf(b, m)| ==> Brokers.ListOf(b, m)[i] in created
  }

  lemma {:induction false} PutLists(b: Brokers.State, m: MsgId, r: Brokers.Receivers, before: set<CompId>,
          created: set<CompId>)
    requires Brokers.Valid(b) && ListsCreated(b, before) && before <= created
    requires forall i :: 0 <= i < |r| ==> r[i] in created
    ensures Brokers.Valid(Brokers.Put(b, m, r)) && ListsCreated(Brokers.Put(b, m, r), created)
  {
    Brokers.PutReplaces(b, m, r, None);
    var v := Brokers.Put(b, m, r);
    forall n, i | n in v.active && 0 <= i < |Brokers.ListOf(v, n)| ensures Brokers.ListOf(v, n)[i] in created {
      assert Brokers.ListOf(v, n) == if n == m then r else Brokers.ListOf(b, n);
    }
  }

  lemma {:induction false} RemovedLists(w: World, c: CompId, order: seq<MsgId>)
    requires Known(w) && Brokers.Enumerates(order, w.b.active.Keys)
    ensures var b := Brokers.DisassociateAll(w.b, order, c, w.t.alive);
      Brokers.Valid(b) && ListsCreated(b, w.t.created)
  {
    Brokers.DisassociateAllExact(w.b, order, c, w.t.alive);
    var b := Brokers.DisassociateAll(w.b, order, c, w.t.alive);
    forall m | m in w.b.active
      ensures forall i :: 0 <= i < |Brokers.ListOf(b, m)| ==> Brokers.ListOf(b, m)[i] in w.t.created
    {
      Brokers.SurvivorsKeep(Brokers.ListOf(w.b, m), c, w.t.alive, x => x in w.t.created);
    }
  }

  /** Whom an action lists exists. */
  lemma {:induction false} PutsCreated(w: World, a: Action)
    requires Known(w) && Can(w, a) && PutBy(w, a).Some?
    ensures forall i :: 0 <= i < |PutBy(w, a).value.1| ==> PutBy(w, a).value.1[i] in w.t.created
  {
  }

  lemma {:induction false} ListsStep(w: World, a: Action)
    requires Known(w) && Can(w, a) && Brokers.Valid(Next(w, a).b)
    ensures ListsCreated(Next(w, a).b, Next(w, a).t.created)
  {
    LivesStep(w, a, 0);
    if a.Unpublish? {
      RemovedLists(w, a.c, a.order);
    } else {
      PutsOneList(w, a);
      if PutBy(w, a).Some? {
        PutsCreated(w, a);
        PutLists(w.b, PutBy(w, a).value.0, PutBy(w, a).value.1, w.t.created, Next(w, a).t.created);
      }
    }
  }

  /** A handler, an interface or an override is only ever installed for an id that the broker knows. */
  lemma {:induction false} WrittenIdsKnown(w: World, a: Action)
    requires Known(w) && Can(w, a) && w.b.active.Keys <= Next(w, a).b.active.Keys
    ensures var t := Next(w, a).t;
      forall k :: k in t.async || k in t.sync || k in t.interfaces ==> k.1 in Next(w, a).b.active
  {
    if Writes(a).Some? {
      WritersPut(w, a);
      PutsOneList(w, a);
    }
  }

  lemma {:induction false} KnownStep(w: World, a: Action)
    requires Known(w) && Can(w, a)
    ensures Known(Next(w, a))
  {
    BrokerStep(w, a, None, 0);
    LivesStep(w, a, 0);
    ListsStep(w, a);
    WrittenIdsKnown(w, a);
  }

  /** Only a lookup pins a component. */
  lemma {:induction false} OldPins(w: World, a: Action, c: CompId)
    requires Known(w) && Can(w, a) && Pinned(Next(w, a), c)
    requires !a.UseMono? && !a.UsePoly? && !a.UseLink?
    ensures Pinned(w, c)
  {
  }

  lemma {:induction false} PinnedStep(w: World, a: Action, c: CompId)
    requires Known(w) && Linked(w) && Can(w, a) && Pinned(Next(w, a), c)
    ensures c in Next(w, a).t.alive
  {
    if a.UseMono? || a.UsePoly? || a.UseLink? {
      if !Pinned(w, c) {
        NewPins(w, a, c);
      }
    } else {
      OldPins(w, a, c);
    }
    LivesStep(w, a, c);
  }

  /** A lookup takes a strong pointer to a living component only. */
  lemma {:induction false} NewPins(w: World, a: Action, c: CompId)
    requires Known(w) && Can(w, a) && !Pinned(w, c) && Pinned(Next(w, a), c)
    requires a.UseMono? || a.UsePoly? || a.UseLink?
    ensures c in w.t.alive
  {
    var v := Next(w, a);
    match a
    case UseMono(k) => assert v.monos[k].receiver == Some(c);
    case UseLink(k) => assert v.links[k].receiver == Some(c);
    case UsePoly(k) =>
      var i :| 0 <= i < |v.polys[k].targets| && v.polys[k].targets[i].receiver == c;
      LookupInPlace(w.b, w.polys[k].m);
      var at := ResolveAllExact(Brokers.ListOf(w.b, w.polys[k].m), w.t, w.polys[k].m, w.polys[k].owner);
      assert at[i] in at;
  }

  lemma {:induction false} LinkedStep(w: World, a: Action)
    requires Known(w) && Linked(w) && Can(w, a)
    ensures Brokers.Valid(Next(w, a).b) && Linked(Next(w, a))
  {
    var v := Next(w, a);
    BrokerStep(w, a, None, 0);
    forall k | k in v.monos ensures Follows(v.b, v.monos[k].receivers, v.monos[k].m) {
      MonoFollows(w, a, k);
    }
    forall k | k in v.polys ensures Follows(v.b, v.polys[k].receivers, v.polys[k].m) {
      PolyFollows(w, a, k);
    }
    forall k | k in v.links ensures Follows(v.b, v.links[k].receivers, v.links[k].m) {
      LinkFollows(w, a, k);
    }
    forall c | Pinned(v, c) ensures c in v.t.alive {
      PinnedStep(w, a, c);
    }
  }

  lemma {:induction false} InPlaceFollows(b: Brokers.State, m: MsgId)
    requires Brokers.Valid(b)
    ensures Follows(Brokers.Lookup(b, m), Some(Brokers.Lookup(b, m).active[m]), m)
  {
    LookupInPlace(b, m);
  }

  /** A lookup leaves the reference its old pointer, or one to the snapshot in place. */
  lemma {:induction false} LookUpFollows(b: Brokers.State, t: Tables, r: Mono)
    requires Brokers.Valid(b) && Follows(b, r.receivers, r.m)
    ensures Follows(LookUp(b, t, r).0, LookUp(b, t, r).1.receivers, r.m)
    ensures LookUp(b, t, r).1.m == r.m && LookUp(b, t, r).1.kind == r.kind && LookUp(b, t, r).1.owner == r.owner
  {
    InPlaceFollows(b, r.m);
  }

  lemma {:induction false} LookUpAllFollows(b: Brokers.State, t: Tables, r: Poly)
    requires Brokers.Valid(b) && Follows(b, r.receivers, r.m)
    ensures Follows(LookUpAll(b, t, r).0, LookUpAll(b, t, r).1.receivers, r.m)
    ensures LookUpAll(b, t, r).1.m == r.m && LookUpAll(b, t, r).1.owner == r.owner
  {
    InPlaceFollows(b, r.m);
  }

  lemma {:induction false} LookUpInterfaceFollows(b: Brokers.State, t: Tables, r: Link)
    requires Brokers.Valid(b) && Follows(b, r.receivers, r.m)
    ensures Follows(LookUpInterface(b, t, r).0, LookUpInterface(b, t, r).1.receivers, r.m)
    ensures LookUpInterface(b, t, r).1.m == r.m && LookUpInterface(b, t, r).1.owner == r.owner
  {
    InPlaceFollows(b, r.m);
  }

  lemma {:induction false} MonoFollows(w: World, a: Action, k: nat)
    requires Known(w) && Linked(w) && Can(w, a) && k in Next(w, a).monos && Brokers.Valid(Next(w, a).b)
    ensures Follows(Next(w, a).b, Next(w, a).monos[k].receivers, Next(w, a).monos[k].m)
  {
    if a == UseMono(k) {
      LookUpFollows(w.b, w.t, w.monos[k]);
    } else if k in w.monos {
      BrokerStep(w, a, w.monos[k].receivers, w.monos[k].m);
    }
  }

  lemma {:induction false} PolyFollows(w: World, a: Action, k: nat)
    requires Known(w) && Linked(w) && Can(w, a) && k in Next(w, a).polys && Brokers.Valid(Next(w, a).b)
    ensures Follows(Next(w, a).b, Next(w, a).polys[k].receivers, Next(w, a).polys[k].m)
  {
    if a == UsePoly(k) {
      LookUpAllFollows(w.b, w.t, w.polys[k]);
    } else if k in w.polys {
      BrokerStep(w, a, w.polys[k].receivers, w.polys[k].m);
    }
  }

  lemma {:induction false} LinkFollows(w: World, a: Action, k: nat)
    requires Known(w) && Linked(w) && Can(w, a) && k in Next(w, a).links && Brokers.Valid(Next(w, a).b)
    ensures Follows(Next(w, a).b, Next(w, a).links[k].receivers, Next(w, a).links[k].m)
  {
    if a == UseLink(k) {
      LookUpInterfaceFollows(w.b, w.t, w.links[k]);
    } else if k in w.links {
      BrokerStep(w, a, w.links[k].receivers, w.links[k].m);
    }
  }

  ghost predicate Initial(w: World) {
    && w.b == Brokers.State([], map[]) && w.t.created == {} && w.t.alive == {}
    && w.t.sync == map[] && w.t.async == map[] && w.t.overrides == map[] && w.t.interfaces == map[]
    && w.monos == map[] && w.polys == map[] && w.links == map[]
  }

  ghost predicate IsRun(trace: seq<World>, acts: seq<Action>) {
    && |trace| == |acts| + 1
    && Initial(trace[0])
    && forall i :: 0 <= i < |acts| ==>
         Brokers.Valid(trace[i].b) && Can(trace[i], acts[i]) && trace[i + 1] == Next(trace[i], acts[i])
  }

  lemma {:induction false} RunKnown(trace: seq<World>, acts: seq<Action>)
    requires IsRun(trace, acts)
    ensures Known(trace[|acts|]) && Linked(trace[|acts|])
    decreases |acts|
  {
    if acts != [] {
      var n := |acts| - 1;
      RunKnown(trace[..n + 1], acts[..n]);
      KnownStep(trace[n], acts[n]);
      LinkedStep(trace[n], acts[n]);
    }
  }

  /** The last step of a run, and where it starts from. */
  lemma {:induction false} LastStep(trace: seq<World>, acts: seq<Action>)
    requires IsRun(trace, acts) && acts != []
    ensures var n := |acts| - 1;
      && IsRun(trace[..n + 1], acts[..n])
      && Known(trace[n]) && Linked(trace[n]) && Can(trace[n], acts[n])
      && trace[n + 1] == Next(trace[n], acts[n]) && Brokers.Valid(trace[n + 1].b)
  {
    RunKnown(trace, acts);
    RunKnown(trace[..|acts|], acts[..|acts| - 1]);
  }

  // ---------- Mono references ----------

  /** Whether reference k is tainted after a step, given whether it was before. */
  ghost predicate TaintAfter(w: World, a: Action, v: World, k: nat, before: bool)
    requires Brokers.Valid(w.b) && Can(w, a)
  {
    if a == UseMono(k) then before || StaleExit(w.b, w.t, w.monos[k])
    else a != ResetMono(k) && before && k in w.monos && !Brokers.Expired(v.b, w.monos[k].receivers)
  }

  /** Since reference k was last reset, a lookup of it took the stale exit, and the snapshot which that
      lookup fetched is still in place. */
  ghost predicate Tainted(trace: seq<World>, acts: seq<Action>, k: nat)
    requires IsRun(trace, acts)
    decreases |acts|
  {
    acts != [] &&
    var n := |acts| - 1;
    TaintAfter(trace[n], acts[n], trace[n + 1], k, Tainted(trace[..n + 1], acts[..n], k))
  }

  /** What a reference is like when it is tainted, and when it is not. */
  ghost predicate Judged(w: World, k: nat, tainted: bool)
    requires Brokers.Valid(w.b)
  {
    k in w.monos ==>
      var r := w.monos[k];
      && (Coherent(w.b, w.t, r) <==> !tainted)
      && (tainted ==> Cached(w.b, r) && Resolve(w.b, w.t, r.kind, r.m, r.owner).None?)
  }

  lemma {:induction false} UseJudged(b: Brokers.State, t: Tables, r: Mono, tainted: bool)
    requires Brokers.Valid(b) && (Coherent(b, t, r) <==> !tainted)
    requires tainted ==> Cached(b, r) && Resolve(b, t, r.kind, r.m, r.owner).None?
    ensures var (b', r', h) := LookUp(b, t, r);
      var after := tainted || StaleExit(b, t, r);
      && Brokers.Valid(b') && (Coherent(b', t, r') <==> !after)
      && (after ==> Cached(b', r') && Resolve(b', t, r'.kind, r'.m, r'.owner).None?)
  {
    LookupInPlace(b, r.m);
    if Coherent(b, t, r) {
      LookUpIsResolve(b, t, r);
    }
  }

  lemma {:induction false} OthersJudged(w: World, a: Action, k: nat, tainted: bool)
    requires Known(w) && Linked(w) && Can(w, a) && Brokers.Valid(Next(w, a).b)
    requires k in w.monos && a != UseMono(k) && a != ResetMono(k) && Judged(w, k, tainted)
    ensures Judged(Next(w, a), k, tainted && !Brokers.Expired(Next(w, a).b, w.monos[k].receivers))
  {
    assert Next(w, a).monos[k] == w.monos[k];
    if Cached(Next(w, a).b, w.monos[k]) {
      OthersKeepMono(w, a, k);
    }
  }

  lemma {:induction false} StepJudged(w: World, a: Action, k: nat, tainted: bool)
    requires Known(w) && Linked(w) && Can(w, a) && Brokers.Valid(Next(w, a).b) && Judged(w, k, tainted)
    requires k !in w.monos ==> !tainted
    ensures Judged(Next(w, a), k, TaintAfter(w, a, Next(w, a), k, tainted))
    ensures k !in Next(w, a).monos ==> !TaintAfter(w, a, Next(w, a), k, tainted)
  {
    if a == UseMono(k) {
      UseJudged(w.b, w.t, w.monos[k], tainted);
    } else if k in w.monos && a != ResetMono(k) {
      OthersJudged(w, a, k, tainted);
    }
  }

  lemma {:induction false} RunJudged(trace: seq<World>, acts: seq<Action>, k: nat)
    requires IsRun(trace, acts)
    ensures Brokers.Valid(trace[|acts|].b) && Judged(trace[|acts|], k, Tainted(trace, acts, k))
    ensures k !in trace[|acts|].monos ==> !Tainted(trace, acts, k)
    decreases |acts|
  {
    if acts != [] {
      var n := |acts| - 1;
      LastStep(trace, acts);
      RunJudged(trace[..n + 1], acts[..n], k);
      StepJudged(trace[n], acts[n], k, Tainted(trace[..n + 1], acts[..n], k));
    }
  }

  function HandlerIn(x: Option<Resolved>): Option<HandlerId> {
    match x
    case Some(y) => Some(y.handler)
    case None => None
  }

  /** The cached lookup of any reference, after any run, returns what resolving from scratch would, and
      leaves receiver, executor and flag to match, if and only if the reference is not tainted. */
  lemma {:induction false} MonoLookupsAreFresh(trace: seq<World>, acts: seq<Action>, k: nat)
    requires IsRun(trace, acts) && k in trace[|acts|].monos
    ensures var w := trace[|acts|];
      && Brokers.Valid(w.b)
      && var r := w.monos[k];
      && var x := Resolve(w.b, w.t, r.kind, r.m, r.owner);
      && (LookUp(w.b, w.t, r).2 == HandlerIn(x) <==> !Tainted(trace, acts, k))
      && (!Tainted(trace, acts, k) && x.Some? ==> Leaves(LookUp(w.b, w.t, r).1, x.value))
  {
    RunJudged(trace, acts, k);
    var w := trace[|acts|];
    if !Tainted(trace, acts, k) {
      LookUpIsResolve(w.b, w.t, w.monos[k]);
    }
  }

  /** A run on which reference k never takes the stale exit never taints it. */
  lemma {:induction false} NoStaleExitNoTaint(trace: seq<World>, acts: seq<Action>, k: nat)
    requires IsRun(trace, acts)
    requires forall i :: 0 <= i < |acts| && acts[i] == UseMono(k) ==>
      !StaleExit(trace[i].b, trace[i].t, trace[i].monos[k])
    ensures !Tainted(trace, acts, k)
    decreases |acts|
  {
    if acts != [] {
      NoStaleExitNoTaint(trace[..|acts|], acts[..|acts| - 1], k);
    }
  }

  /** A run goes on with any action that can be taken. */
  lemma {:induction false} Extend(trace: seq<World>, acts: seq<Action>, a: Action)
    returns (longer: seq<World>, more: seq<Action>)
    requires IsRun(trace, acts) && Brokers.Valid(trace[|acts|].b) && Can(trace[|acts|], a)
    ensures more == acts + [a] && IsRun(longer, more) && longer[0] == trace[0]
    ensures longer[|more|] == Next(trace[|acts|], a) && Brokers.Valid(longer[|more|].b)
    ensures forall k: nat ::
      Tainted(longer, more, k) == TaintAfter(trace[|acts|], a, longer[|more|], k, Tainted(trace, acts, k))
    ensures forall k: nat ::
      LinkTainted(longer, more, k) == LinkTaintAfter(trace[|acts|], a, longer[|more|], k, LinkTainted(trace, acts, k))
  {
    longer, more := trace + [Next(trace[|acts|], a)], acts + [a];
    LongerIsRun(trace, acts, a, Next(trace[|acts|], a));
    RunKnown(longer, more);
    assert longer[..|acts| + 1] == trace && more[..|acts|] == acts && longer[|acts|] == trace[|acts|];
  }

  lemma {:induction false} LongerIsRun(trace: seq<World>, acts: seq<Action>, a: Action, v: World)
    requires IsRun(trace, acts) && Brokers.Valid(trace[|acts|].b)
    requires Can(trace[|acts|], a) && v == Next(trace[|acts|], a)
    ensures IsRun(trace + [v], acts + [a])
  {
    var longer, more := trace + [v], acts + [a];
    forall i | 0 <= i < |more|
      ensures Brokers.Valid(longer[i].b) && Can(longer[i], more[i]) && longer[i + 1] == Next(longer[i], more[i])
    {
      if i < |acts| {
        assert longer[i] == trace[i] && longer[i + 1] == trace[i + 1] && more[i] == acts[i];
      }
    }
  }

  /** The worlds after another component came, and after it published the message of reference k as well. */
  ghost predicate Republished(w: World, w1: World, w2: World, k: nat, d: CompId, publish: Action) {
    && Brokers.Valid(w.b) && Can(w, Create(d)) && w1 == Next(w, Create(d))
    && Brokers.Valid(w1.b) && Can(w1, publish) && w2 == Next(w1, publish)
    && Brokers.Valid(w2.b) && Can(w2, UseMono(k)) && StaleExit(w2.b, w2.t, w2.monos[k])
  }

  lemma {:induction false} SecondPublisher(w: World, k: nat, d: CompId, h: HandlerId) returns (w1: World, w2: World)
    requires Known(w) && Linked(w) && k in w.monos && d !in w.t.created
    requires Cached(w.b, w.monos[k]) && Coherent(w.b, w.t, w.monos[k])
    ensures Republished(w, w1, w2, k, d, PublishAsync(d, w.monos[k].m, h, None))
  {
    var r := w.monos[k];
    Brokers.PutReplaces(w.b, r.m, Brokers.ListOf(w.b, r.m) + [d], r.receivers);
    w1 := Next(w, Create(d));
    w2 := Next(w1, PublishAsync(d, r.m, h, None));
  }

  /** Publishing the message once more makes any resolved reference stale: its next lookup fails, and the
      one after that answers with the old handler although there is nothing to resolve. */
  lemma {:induction false} SecondPublisherTaints(trace: seq<World>, acts: seq<Action>, k: nat, d: CompId, h: HandlerId)
    returns (longer: seq<World>, more: seq<Action>)
    requires IsRun(trace, acts) && Brokers.Valid(trace[|acts|].b) && k in trace[|acts|].monos
    requires Cached(trace[|acts|].b, trace[|acts|].monos[k]) && !Tainted(trace, acts, k)
    requires d !in trace[|acts|].t.created
    ensures more == acts + [Create(d)] + [PublishAsync(d, trace[|acts|].monos[k].m, h, None)] + [UseMono(k)]
    ensures IsRun(longer, more) && longer[0] == trace[0] && Tainted(longer, more, k)
  {
    var publish := PublishAsync(d, trace[|acts|].monos[k].m, h, None);
    var w1, w2 := RepublishedAfter(trace, acts, k, d, h);
    longer, more := Extend(trace, acts, Create(d));
    longer, more := Extend(longer, more, publish);
    longer, more := Extend(longer, more, UseMono(k));
  }

  lemma {:induction false} RepublishedAfter(trace: seq<World>, acts: seq<Action>, k: nat, d: CompId, h: HandlerId)
    returns (w1: World, w2: World)
    requires IsRun(trace, acts) && Brokers.Valid(trace[|acts|].b) && k in trace[|acts|].monos
    requires Cached(trace[|acts|].b, trace[|acts|].monos[k]) && !Tainted(trace, acts, k)
    requires d !in trace[|acts|].t.created
    ensures Republished(trace[|acts|], w1, w2, k, d, PublishAsync(d, trace[|acts|].monos[k].m, h, None))
  {
    RunKnown(trace, acts);
    RunJudged(trace, acts, k);
    w1, w2 := SecondPublisher(trace[|acts|], k, d, h);
  }

  /** The world after component 0 has published message 0 and been looked up, or not yet. */
  function AfterPublishing(direct: CompId -> bool, monos: map<nat, Mono>): World {
    World(Brokers.State([[0]], map[0 := 0]),
          Tables({0}, {0}, _ => 0, direct, map[], map[(0, 0) := 7], map[(0, 0) := None], map[]), monos, map[], map[])
  }

  /** A run with such a reference. */
  lemma {:induction false} ResolvedRun(direct: CompId -> bool) returns (trace: seq<World>, acts: seq<Action>)
    ensures IsRun(trace, acts) && Brokers.Valid(trace[|acts|].b) && 0 in trace[|acts|].monos
    ensures Cached(trace[|acts|].b, trace[|acts|].monos[0]) && !Tainted(trace, acts, 0)
    ensures 1 !in trace[|acts|].t.created && trace[|acts|].t.direct == direct
    ensures trace[|acts|].monos[0].executor == Some(trace[|acts|].monos[0].owner)
    ensures trace[|acts|].monos[0].receiver == Some(0)
  {
    var t := Tables({}, {}, AfterPublishing(direct, map[]).t.home, direct, map[], map[], map[], map[]);
    trace, acts := [World(Brokers.State([], map[]), t, map[], map[], map[])], [];
    trace, acts := Extend(trace, acts, Create(0));
    trace, acts := Extend(trace, acts, PublishAsync(0, 0, 7, None));
    assert [] + [0] == [0];
    assert trace[|acts|] == AfterPublishing(direct, map[]);
    trace, acts := Extend(trace, acts, AddMono(0, Async, 0, 0));
    assert trace[|acts|] == AfterPublishing(direct, map[0 := EmptyMono(Async, 0, 0)]);
    RunJudged(trace, acts, 0);
    FirstLookup(direct);
    trace, acts := Extend(trace, acts, UseMono(0));
  }

  lemma {:induction false} FirstLookup(direct: CompId -> bool)
    ensures var w := AfterPublishing(direct, map[0 := EmptyMono(Async, 0, 0)]);
      && Brokers.Valid(w.b) && Cached(Next(w, UseMono(0)).b, Next(w, UseMono(0)).monos[0])
      && !StaleExit(w.b, w.t, w.monos[0])
      && Next(w, UseMono(0)).monos[0].executor == Some(0) && Next(w, UseMono(0)).monos[0].receiver == Some(0)
  {
    var w := AfterPublishing(direct, map[0 := EmptyMono(Async, 0, 0)]);
    assert w.b.active[0] == 0;
  }

  // ---------- Interface references ----------

  lemma {:induction false} ResolveInterfaceStays(w: World, a: Action, m: MsgId, owner: ExecId)
    requires Known(w) && Linked(w) && Can(w, a) && Undisturbed(w, a, m) && Brokers.Valid(Next(w, a).b)
    ensures var x, y := ResolveInterface(w.b, w.t, m, owner), ResolveInterface(Next(w, a).b, Next(w, a).t, m, owner);
      y == x || (y.None? && x.Some? && !Pinned(w, x.value.receiver))
  {
    UndisturbedList(w, a, m);
    var list := Brokers.ListOf(w.b, m);
    if |list| == 1 {
      UndisturbedTables(w, a, m, list[0]);
      LivesStep(w, a, list[0]);
    }
  }

  predicate CachedLink(b: Brokers.State, r: Link) {
    r.proxy.Some? && !Brokers.Expired(b, r.receivers)
  }

  ghost predicate LinkTaintAfter(w: World, a: Action, v: World, k: nat, before: bool)
    requires Brokers.Valid(w.b) && Can(w, a)
  {
    if a == UseLink(k) then before || StaleLink(w.b, w.t, w.links[k])
    else a != ResetLink(k) && before && k in w.links && !Brokers.Expired(v.b, w.links[k].receivers)
  }

  /** Since link k was last reset, a lookup of it failed although it had a proxy, and the snapshot which
      that lookup fetched is still in place. */
  ghost predicate LinkTainted(trace: seq<World>, acts: seq<Action>, k: nat)
    requires IsRun(trace, acts)
    decreases |acts|
  {
    acts != [] &&
    var n := |acts| - 1;
    LinkTaintAfter(trace[n], acts[n], trace[n + 1], k, LinkTainted(trace[..n + 1], acts[..n], k))
  }

  /** A proxy in a link belongs to the receiver that the link holds, unless the link is tainted. */
  ghost predicate LinkJudged(w: World, k: nat, tainted: bool)
    requires Brokers.Valid(w.b)
  {
    k in w.links ==>
      var r := w.links[k];
      && (CoherentLink(w.b, w.t, r) <==> !tainted)
      && (tainted ==> CachedLink(w.b, r) && ResolveInterface(w.b, w.t, r.m, r.owner).None?)
      && (!tainted && CachedLink(w.b, r) ==> r.receiver == Some(r.proxy.value.receiver))
  }

  lemma {:induction false} UseLinkJudged(b: Brokers.State, t: Tables, r: Link, tainted: bool)
    requires Brokers.Valid(b) && (CoherentLink(b, t, r) <==> !tainted)
    requires tainted ==> CachedLink(b, r) && ResolveInterface(b, t, r.m, r.owner).None?
    requires !tainted && CachedLink(b, r) ==> r.receiver == Some(r.proxy.value.receiver)
    ensures var (b', r', p) := LookUpInterface(b, t, r);
      var after := tainted || StaleLink(b, t, r);
      && Brokers.Valid(b') && (CoherentLink(b', t, r') <==> !after)
      && (after ==> CachedLink(b', r') && ResolveInterface(b', t, r'.m, r'.owner).None?)
      && (!after && CachedLink(b', r') ==> r'.receiver == Some(r'.proxy.value.receiver))
  {
    LookupInPlace(b, r.m);
    if CoherentLink(b, t, r) {
      LookUpInterfaceIsResolve(b, t, r);
    }
  }

  lemma {:induction false} OthersKeepLink(w: World, a: Action, k: nat, tainted: bool)
    requires Known(w) && Linked(w) && Can(w, a) && Brokers.Valid(Next(w, a).b)
    requires k in w.links && a != UseLink(k) && a != ResetLink(k) && LinkJudged(w, k, tainted)
    ensures LinkJudged(Next(w, a), k, tainted && !Brokers.Expired(Next(w, a).b, w.links[k].receivers))
  {
    var r := w.links[k];
    assert Next(w, a).links[k] == r;
    if CachedLink(Next(w, a).b, r) {
      BrokerStep(w, a, r.receivers, r.m);
      ResolveInterfaceStays(w, a, r.m, r.owner);
      if !tainted {
        assert Pinned(w, r.receiver.value);
      }
    }
  }

  lemma {:induction false} StepLinkJudged(w: World, a: Action, k: nat, tainted: bool)
    requires Known(w) && Linked(w) && Can(w, a) && Brokers.Valid(Next(w, a).b) && LinkJudged(w, k, tainted)
    requires k !in w.links ==> !tainted
    ensures LinkJudged(Next(w, a), k, LinkTaintAfter(w, a, Next(w, a), k, tainted))
    ensures k !in Next(w, a).links ==> !LinkTaintAfter(w, a, Next(w, a), k, tainted)
  {
    if a == UseLink(k) {
      UseLinkJudged(w.b, w.t, w.links[k], tainted);
    } else if k in w.links && a != ResetLink(k) {
      OthersKeepLink(w, a, k, tainted);
    }
  }

  lemma {:induction false} RunLinkJudged(trace: seq<World>, acts: seq<Action>, k: nat)
    requires IsRun(trace, acts)
    ensures Brokers.Valid(trace[|acts|].b) && LinkJudged(trace[|acts|], k, LinkTainted(trace, acts, k))
    ensures k !in trace[|acts|].links ==> !LinkTainted(trace, acts, k)
    decreases |acts|
  {
    if acts != [] {
      var n := |acts| - 1;
      LastStep(trace, acts);
      RunLinkJudged(trace[..n + 1], acts[..n], k);
      StepLinkJudged(trace[n], acts[n], k, LinkTainted(trace[..n + 1], acts[..n], k));
    }
  }

  /** The same for interfaces: after any run a lookup gives the proxy that resolving from scratch would give
      if and only if the link is not tainted. */
  lemma {:induction false} InterfaceLookupsAreFresh(trace: seq<World>, acts: seq<Action>, k: nat)
    requires IsRun(trace, acts) && k in trace[|acts|].links
    ensures var w := trace[|acts|];
      && Brokers.Valid(w.b)
      && var r := w.links[k];
      && (LookUpInterface(w.b, w.t, r).2 == ResolveInterface(w.b, w.t, r.m, r.owner) <==> !LinkTainted(trace, acts, k))
  {
    RunLinkJudged(trace, acts, k);
    var w := trace[|acts|];
    if !LinkTainted(trace, acts, k) {
      LookUpInterfaceIsResolve(w.b, w.t, w.links[k]);
    }
  }

  /** A run on which no lookup of link k fails while it has a proxy never taints it. */
  lemma {:induction false} NoStaleLinkNoTaint(trace: seq<World>, acts: seq<Action>, k: nat)
    requires IsRun(trace, acts)
    requires forall i :: 0 <= i < |acts| && acts[i] == UseLink(k) ==>
      !StaleLink(trace[i].b, trace[i].t, trace[i].links[k])
    ensures !LinkTainted(trace, acts, k)
    decreases |acts|
  {
    if acts != [] {
      NoStaleLinkNoTaint(trace[..|acts|], acts[..|acts| - 1], k);
    }
  }

  // ---------- Event references ----------

  /** Resolving all is stable as long as each component keeps what it contributes. */
  lemma {:induction false} ResolveAllStays(list: seq<CompId>, t: Tables, u: Tables, m: MsgId, owner: ExecId)
    requires forall i :: 0 <= i < |list| ==> ResolveOne(list[i], t, m, owner) == ResolveOne(list[i], u, m, owner)
    ensures ResolveAll(list, t, m, owner) == ResolveAll(list, u, m, owner)
  {
    if list != [] {
      ResolveAllStays(list[1..], t, u, m, owner);
    }
  }

  /** Whoever contributes to a resolved event reference is held by it. */
  lemma {:induction false} ContributorsPinned(w: World, k: nat, i: nat)
    requires Known(w) && k in w.polys && i < |Brokers.ListOf(w.b, w.polys[k].m)|
    requires w.polys[k].targets == ResolveAll(Brokers.ListOf(w.b, w.polys[k].m), w.t, w.polys[k].m, w.polys[k].owner)
    ensures var c := Brokers.ListOf(w.b, w.polys[k].m)[i];
      c in w.t.alive && (c, w.polys[k].m) in w.t.async ==> Pinned(w, c)
  {
    var r, list := w.polys[k], Brokers.ListOf(w.b, w.polys[k].m);
    var at := ResolveAllExact(list, w.t, r.m, r.owner);
    if list[i] in w.t.alive && (list[i], r.m) in w.t.async {
      var j :| 0 <= j < |at| && at[j] == i;
      assert r.targets[j].receiver == list[i];
    }
  }

  lemma {:induction false} ContributesSame(w: World, a: Action, k: nat, i: nat)
    requires Known(w) && Linked(w) && Can(w, a) && k in w.polys && Brokers.Valid(Next(w, a).b)
    requires Undisturbed(w, a, w.polys[k].m) && i < |Brokers.ListOf(w.b, w.polys[k].m)|
    requires w.polys[k].targets == ResolveAll(Brokers.ListOf(w.b, w.polys[k].m), w.t, w.polys[k].m, w.polys[k].owner)
    ensures var r, c := w.polys[k], Brokers.ListOf(w.b, w.polys[k].m)[i];
      ResolveOne(c, Next(w, a).t, r.m, r.owner) == ResolveOne(c, w.t, r.m, r.owner)
  {
    var c := Brokers.ListOf(w.b, w.polys[k].m)[i];
    UndisturbedTables(w, a, w.polys[k].m, c);
    LivesStep(w, a, c);
    ContributorsPinned(w, k, i);
  }

  lemma {:induction false} OthersKeepPoly(w: World, a: Action, k: nat)
    requires Known(w) && Linked(w) && Can(w, a) && k in w.polys && Brokers.Valid(Next(w, a).b)
    requires a != UsePoly(k) && a != ResetPoly(k) && CoherentPoly(w.b, w.t, w.polys[k])
    ensures CoherentPoly(Next(w, a).b, Next(w, a).t, Next(w, a).polys[k])
  {
    var r, v := w.polys[k], Next(w, a);
    assert v.polys[k] == r;
    if r.targets != [] && !Brokers.Expired(v.b, r.receivers) {
      BrokerStep(w, a, r.receivers, r.m);
      UndisturbedList(w, a, r.m);
      var list := Brokers.ListOf(w.b, r.m);
      forall i | 0 <= i < |list|
        ensures ResolveOne(list[i], w.t, r.m, r.owner) == ResolveOne(list[i], v.t, r.m, r.owner)
      {
        ContributesSame(w, a, k, i);
      }
      ResolveAllStays(list, w.t, v.t, r.m, r.owner);
    }
  }

  lemma {:induction false} RunCoherentPoly(trace: seq<World>, acts: seq<Action>, k: nat)
    requires IsRun(trace, acts)
    ensures Brokers.Valid(trace[|acts|].b)
    ensures k in trace[|acts|].polys ==> CoherentPoly(trace[|acts|].b, trace[|acts|].t, trace[|acts|].polys[k])
    decreases |acts|
  {
    if acts != [] {
      var n := |acts| - 1;
      LastStep(trace, acts);
      var w, a := trace[n], acts[n];
      RunCoherentPoly(trace[..n + 1], acts[..n], k);
      if a == UsePoly(k) {
        LookUpAllIsResolve(w.b, w.t, w.polys[k]);
      } else if k in w.polys && a != ResetPoly(k) {
        OthersKeepPoly(w, a, k);
      }
    }
  }

  /** An event reference never goes stale: after any run a lookup of it gives exactly one target per
      association of a living component that has a handler, in the order in which they associated. */
  lemma {:induction false} PolyLookupsAreFresh(trace: seq<World>, acts: seq<Action>, k: nat)
    requires IsRun(trace, acts) && k in trace[|acts|].polys
    ensures var w := trace[|acts|];
      && Brokers.Valid(w.b)
      && var r := w.polys[k];
      && LookUpAll(w.b, w.t, r).1.targets == ResolveAll(Brokers.ListOf(w.b, r.m), w.t, r.m, r.owner)
  {
    RunCoherentPoly(trace, acts, k);
    LookUpAllIsResolve(trace[|acts|].b, trace[|acts|].t, trace[|acts|].polys[k]);
  }

  /** This needs a subscription to be one step. Were the association visible before the handler, a lookup
      between the two would leave the new subscriber out, for as long as its snapshot stays in place, exactly
      if there is anyone else to be found. */
  lemma {:induction false} SubscribingMustBeAtomic(b: Brokers.State, t: Tables, r: Poly, c: CompId, h: HandlerId)
    requires Brokers.Valid(b) && Follows(b, r.receivers, r.m) && c in t.alive && (c, r.m) !in t.async
    ensures var b1 := Brokers.Associate(b, r.m, c);
      && Brokers.Valid(b1)
      && var (b2, r2) := LookUpAll(b1, t, r);
      && Brokers.Valid(b2)
      && (CoherentPoly(b2, t.(async := t.async[(c, r.m) := h]), r2) <==>
            ResolveAll(Brokers.ListOf(b, r.m), t, r.m, r.owner) == [])
  {
    var b1, list := Brokers.Associate(b, r.m, c), Brokers.ListOf(b, r.m);
    Brokers.PutReplaces(b, r.m, list + [c], r.receivers);
    LookupInPlace(b1, r.m);
    ResolveAllAppend(list, c, t, r.m, r.owner);
    ResolveAllAppend(list, c, t.(async := t.async[(c, r.m) := h]), r.m, r.owner);
    SameCount(list, t, r.m, r.owner, c, h);
  }

  lemma {:induction false} SameCount(list: seq<CompId>, t: Tables, m: MsgId, owner: ExecId, c: CompId, h: HandlerId)
    ensures |ResolveAll(list, t.(async := t.async[(c, m) := h]), m, owner)| >= |ResolveAll(list, t, m, owner)|
  {
    if list != [] {
      SameCount(list[1..], t, m, owner, c, h);
    }
  }
}
