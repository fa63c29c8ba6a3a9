/**
 * What is published is what is found. Lookups are studied against the tables of all components; here both are
 * tied to the actions of the run alone: who came and went, who published or subscribed what and when.
 */
module Publishing {
  import opened Common
  import Brokers
  import opened References
  import opened Coherence
  import Staleness

  // ---------- What the first n actions say ----------

  /** The handler that c last published, subscribed or put as a filter for m. */
  function HandlerGiven(acts: seq<Action>, n: nat, kind: Kind, c: CompId, m: MsgId): Option<HandlerId>
    requires n <= |acts|
  {
    if n == 0 then None
    else
      var before := HandlerGiven(acts, n - 1, kind, c, m);
      match acts[n - 1]
      case PublishAsync(x, id, h, _) => if kind == Async && x == c && id == m then Some(h) else before
      case PublishSync(x, id, h) => if kind == Sync && x == c && id == m then Some(h) else before
      case Subscribe(x, id, h) => if kind == Async && x == c && id == m then Some(h) else before
      case PrependFilter(x, id, h) => if kind == Async && x == c && id == m then Some(h) else before
      case _ => before
  }

  /** The executor that c last published m for, if not its own. */
  function OverrideGiven(acts: seq<Action>, n: nat, c: CompId, m: MsgId): Option<ExecId>
    requires n <= |acts|
  {
    if n == 0 then None
    else
      match acts[n - 1]
      case PublishAsync(x, id, _, e) => if x == c && id == m then e else OverrideGiven(acts, n - 1, c, m)
      case _ => OverrideGiven(acts, n - 1, c, m)
  }

  function InterfaceGiven(acts: seq<Action>, n: nat, c: CompId, m: MsgId): Option<Interface>
    requires n <= |acts|
  {
    if n == 0 then None
    else
      match acts[n - 1]
      case PublishInterface(x, id, i) => if x == c && id == m then Some(i) else InterfaceGiven(acts, n - 1, c, m)
      case _ => InterfaceGiven(acts, n - 1, c, m)
  }

  /** c has come and not gone. */
  predicate Lives(acts: seq<Action>, n: nat, c: CompId)
    requires n <= |acts|
  {
    n > 0 &&
    match acts[n - 1]
    case Create(x) => x == c || Lives(acts, n - 1, c)
    case Destroy(x) => x != c && Lives(acts, n - 1, c)
    case _ => Lives(acts, n - 1, c)
  }

  /** Those of the list that live, but for c. */
  function LivingOthers(list: seq<CompId>, acts: seq<Action>, n: nat, c: CompId): seq<CompId>
    requires n <= |acts|
  {
    if list == [] then []
    else (if Lives(acts, n, list[0]) && list[0] != c then [list[0]] else []) + LivingOthers(list[1..], acts, n, c)
  }

  /** Who is associated with m, in the order in which they associated, each as often as it did: until it, or when
      it is gone anyone, unpublishes. */
  function Listed(acts: seq<Action>, n: nat, m: MsgId): seq<CompId>
    requires n <= |acts|
  {
    if n == 0 then []
    else
      var before := Listed(acts, n - 1, m);
      match acts[n - 1]
      case PublishAsync(c, id, _, _) => if id == m then before + [c] else before
      case PublishSync(c, id, _) => if id == m then before + [c] else before
      case Subscribe(c, id, _) => if id == m then before + [c] else before
      case PublishInterface(c, id, _) => if id == m then before + [c] else before
      case Unpublish(c, _) => LivingOthers(before, acts, n - 1, c)
      case _ => before
  }

  // ---------- The tables hold that ----------

  /** Of c and m the tables hold what the first n actions say. */
  ghost predicate Holds(t: Tables, acts: seq<Action>, n: nat, c: CompId, m: MsgId)
    requires n <= |acts|
  {
    && HandlerOf(t, Sync, c, m) == HandlerGiven(acts, n, Sync, c, m)
    && HandlerOf(t, Async, c, m) == HandlerGiven(acts, n, Async, c, m)
    && OverrideOf(t, c, m) == OverrideGiven(acts, n, c, m)
    && InterfaceOf(t, c, m) == InterfaceGiven(acts, n, c, m)
    && (c in t.alive <==> Lives(acts, n, c))
  }

  function InterfaceOf(t: Tables, c: CompId, m: MsgId): Option<Interface> {
    if (c, m) in t.interfaces then Some(t.interfaces[(c, m)]) else None
  }

  lemma {:induction false} StepHandler(t: Tables, acts: seq<Action>, n: nat, kind: Kind, c: CompId, m: MsgId)
    requires n < |acts| && HandlerOf(t, kind, c, m) == HandlerGiven(acts, n, kind, c, m)
    ensures HandlerOf(TablesAfter(t, acts[n]), kind, c, m) == HandlerGiven(acts, n + 1, kind, c, m)
  {
  }

  lemma {:induction false} StepOthers(t: Tables, acts: seq<Action>, n: nat, c: CompId, m: MsgId)
    requires n < |acts|
    ensures OverrideOf(t, c, m) == OverrideGiven(acts, n, c, m) ==>
      OverrideOf(TablesAfter(t, acts[n]), c, m) == OverrideGiven(acts, n + 1, c, m)
    ensures InterfaceOf(t, c, m) == InterfaceGiven(acts, n, c, m) ==>
      InterfaceOf(TablesAfter(t, acts[n]), c, m) == InterfaceGiven(acts, n + 1, c, m)
    ensures (c in t.alive <==> Lives(acts, n, c)) ==>
      (c in TablesAfter(t, acts[n]).alive <==> Lives(acts, n + 1, c))
  {
  }

  lemma {:induction false} KnownAt(trace: seq<World>, acts: seq<Action>, n: nat)
    requires IsRun(trace, acts) && n <= |acts|
    ensures Known(trace[n])
  {
    assert IsRun(trace[..n + 1], acts[..n]);
    RunKnown(trace[..n + 1], acts[..n]);
  }

  lemma {:induction false} RunHolds(trace: seq<World>, acts: seq<Action>, n: nat, c: CompId, m: MsgId)
    requires IsRun(trace, acts) && n <= |acts|
    ensures Holds(trace[n].t, acts, n, c, m)
    ensures trace[n].t.home == trace[0].t.home && trace[n].t.direct == trace[0].t.direct
    decreases n
  {
    if n > 0 {
      RunHolds(trace, acts, n - 1, c, m);
      StepHolds(trace[n - 1], acts, n - 1, trace[n], c, m);
    }
  }

  lemma {:induction false} StepHolds(w: World, acts: seq<Action>, n: nat, v: World, c: CompId, m: MsgId)
    requires n < |acts| && Brokers.Valid(w.b) && Can(w, acts[n]) && v == Next(w, acts[n]) && Holds(w.t, acts, n, c, m)
    ensures Holds(v.t, acts, n + 1, c, m) && v.t.home == w.t.home && v.t.direct == w.t.direct
  {
    StepHandler(w.t, acts, n, Sync, c, m);
    StepHandler(w.t, acts, n, Async, c, m);
    StepOthers(w.t, acts, n, c, m);
    assert v.t == TablesAfter(w.t, acts[n]);
  }

  lemma {:induction false} SurvivorsLive(list: seq<CompId>, acts: seq<Action>, n: nat, c: CompId, alive: set<CompId>)
    requires n <= |acts| && forall x :: x in alive <==> Lives(acts, n, x)
    ensures Brokers.Survivors(list, c, alive) == LivingOthers(list, acts, n, c)
  {
    if list != [] {
      SurvivorsLive(list[1..], acts, n, c, alive);
    }
  }

  lemma {:induction false} StepListed(w: World, acts: seq<Action>, n: nat, m: MsgId)
    requires n < |acts| && Known(w) && Can(w, acts[n]) && Brokers.Valid(Next(w, acts[n]).b)
    requires Brokers.ListOf(w.b, m) == Listed(acts, n, m)
    requires forall x :: Holds(w.t, acts, n, x, m)
    ensures Brokers.ListOf(Next(w, acts[n]).b, m) == Listed(acts, n + 1, m)
  {
    var a := acts[n];
    if a.Unpublish? {
      Brokers.DisassociateAllExact(w.b, a.order, a.c, w.t.alive);
      assert forall x :: Holds(w.t, acts, n, x, m) ==> (x in w.t.alive <==> Lives(acts, n, x));
      SurvivorsLive(Listed(acts, n, m), acts, n, a.c, w.t.alive);
    } else {
      Staleness.ListAfter(w, a, m);
    }
  }

  /** On every run the broker lists for m whom the actions say. */
  lemma {:induction false} RunListed(trace: seq<World>, acts: seq<Action>, n: nat, m: MsgId)
    requires IsRun(trace, acts) && n <= |acts|
    ensures Brokers.Valid(trace[n].b) && Brokers.ListOf(trace[n].b, m) == Listed(acts, n, m)
    decreases n
  {
    KnownAt(trace, acts, n);
    if n > 0 {
      RunListed(trace, acts, n - 1, m);
      KnownAt(trace, acts, n - 1);
      var i, t := n - 1, trace[n - 1].t;
      forall x ensures Holds(t, acts, i, x, m) {
        RunHolds(trace, acts, i, x, m);
      }
      StepListed(trace[i], acts, i, m);
    }
  }

  // ---------- Changes are noticed, and resets let go ----------

  /** The action changes who or what is there for m. */
  predicate Changes(w: World, a: Action, m: MsgId) {
    match a
    case PublishAsync(_, id, _, _) => id == m
    case PublishSync(_, id, _) => id == m
    case Subscribe(_, id, _) => id == m
    case PublishInterface(_, id, _) => id == m
    case PrependFilter(_, id, _) => id == m
    case Invalidate(id) => id == m
    case Unpublish(_, _) => true
    case _ => false
  }

  /** Whatever has been looked up of m before such an action is expired after it, for every reference. */
  lemma {:induction false} ChangesAreNoticed(w: World, a: Action, weak: Option<SnapshotId>, m: MsgId)
    requires Known(w) && Can(w, a) && Changes(w, a, m) && Follows(w.b, weak, m)
    ensures Brokers.Valid(Next(w, a).b) && Brokers.Expired(Next(w, a).b, weak)
  {
    BrokerStep(w, a, weak, m);
    if a.Unpublish? {
      AllRemovedStep(w, a.c, a.order, weak, m);
    } else {
      PutsOneList(w, a);
      if a.PrependFilter? {
        WritersPut(w, a);
      }
      if PutBy(w, a).Some? {
        Brokers.PutReplaces(w.b, m, PutBy(w, a).value.1, weak);
      }
    }
  }

  /** A reset reference answers its next lookup from scratch, whatever it had found, and holds nobody. */
  lemma {:induction false} ResetsLetGo(w: World, k: nat)
    requires Brokers.Valid(w.b)
    ensures k in w.monos ==>
      var r := Next(w, ResetMono(k)).monos[k];
      r == w.monos[k].(handler := None, receivers := None, receiver := None, executor := None)
    ensures k in w.polys ==>
      var r := Next(w, ResetPoly(k)).polys[k];
      r == w.polys[k].(receivers := None, targets := [])
    ensures k in w.links ==>
      var r := Next(w, ResetLink(k)).links[k];
      r == w.links[k].(receivers := None, proxy := None, receiver := None)
  {
  }

  /** Whom a lookup finds is held by the reference from then on, so that it cannot go before the reference has
      been looked up again or reset. A query reference is not, once it is tainted. */
  lemma {:induction false} FoundAreHeld(trace: seq<World>, acts: seq<Action>, k: nat)
    requires IsRun(trace, acts)
    ensures var w := trace[|acts|];
      && Brokers.Valid(w.b)
      && (k in w.monos && !Tainted(trace, acts, k) ==>
            var (_, r, h) := LookUp(w.b, w.t, w.monos[k]);
            h.Some? ==> r.receiver.Some? && Pinned(Next(w, UseMono(k)), r.receiver.value))
      && (k in w.links && !LinkTainted(trace, acts, k) ==>
            var p := LookUpInterface(w.b, w.t, w.links[k]).2;
            p.Some? ==> Pinned(Next(w, UseLink(k)), p.value.receiver))
      && (k in w.polys ==>
            var targets := LookUpAll(w.b, w.t, w.polys[k]).1.targets;
            forall i :: 0 <= i < |targets| ==> Pinned(Next(w, UsePoly(k)), targets[i].receiver))
  {
    RunKnown(trace, acts);
    RunJudged(trace, acts, k);
    RunLinkJudged(trace, acts, k);
    var w := trace[|acts|];
    if k in w.monos && !Tainted(trace, acts, k) {
      MonoHeld(w, k);
    }
    if k in w.links && !LinkTainted(trace, acts, k) {
      LinkHeld(w, k);
    }
    if k in w.polys {
      PolyHeld(w, k);
    }
  }

  lemma {:induction false} MonoHeld(w: World, k: nat)
    requires Brokers.Valid(w.b) && k in w.monos && Judged(w, k, false)
    ensures var (_, r, h) := LookUp(w.b, w.t, w.monos[k]);
      h.Some? ==> r.receiver.Some? && Pinned(Next(w, UseMono(k)), r.receiver.value)
  {
    LookUpIsResolve(w.b, w.t, w.monos[k]);
    assert Next(w, UseMono(k)).monos[k] == LookUp(w.b, w.t, w.monos[k]).1;
  }

  lemma {:induction false} LinkHeld(w: World, k: nat)
    requires Brokers.Valid(w.b) && k in w.links && LinkJudged(w, k, false)
    ensures var p := LookUpInterface(w.b, w.t, w.links[k]).2;
      p.Some? ==> Pinned(Next(w, UseLink(k)), p.value.receiver)
  {
    UseLinkJudged(w.b, w.t, w.links[k], false);
    LookupInPlace(w.b, w.links[k].m);
    assert Next(w, UseLink(k)).links[k] == LookUpInterface(w.b, w.t, w.links[k]).1;
  }

  lemma {:induction false} PolyHeld(w: World, k: nat)
    requires Brokers.Valid(w.b) && k in w.polys
    ensures var targets := LookUpAll(w.b, w.t, w.polys[k]).1.targets;
      forall i :: 0 <= i < |targets| ==> Pinned(Next(w, UsePoly(k)), targets[i].receiver)
  {
    var v, targets := Next(w, UsePoly(k)), LookUpAll(w.b, w.t, w.polys[k]).1.targets;
    forall i | 0 <= i < |targets| ensures Pinned(v, targets[i].receiver) {
      assert v.polys[k].targets[i].receiver == targets[i].receiver;
    }
  }

  /** References stay what they were made as: for which message and of which kind, and on which executor. */
  lemma {:induction false} ReferencesAsMade(trace: seq<World>, acts: seq<Action>, n: nat, k: nat)
    requires IsRun(trace, acts) && n <= |acts|
    ensures k in trace[n].monos ==>
      exists i :: 0 <= i < n
        && acts[i] == AddMono(k, trace[n].monos[k].kind, trace[n].monos[k].m, trace[n].monos[k].owner)
    ensures k in trace[n].polys ==>
      exists i :: 0 <= i < n && acts[i] == AddPoly(k, trace[n].polys[k].m, trace[n].polys[k].owner)
    ensures k in trace[n].links ==>
      exists i :: 0 <= i < n && acts[i] == AddLink(k, trace[n].links[k].m, trace[n].links[k].owner)
    decreases n
  {
    if n > 0 {
      ReferencesAsMade(trace, acts, n - 1, k);
      StepAsMade(trace[n - 1], acts[n - 1], k);
    }
  }

  lemma {:induction false} StepAsMade(w: World, a: Action, k: nat)
    requires Brokers.Valid(w.b) && Can(w, a)
    ensures var v := Next(w, a);
      && (k in v.monos ==>
            || a == AddMono(k, v.monos[k].kind, v.monos[k].m, v.monos[k].owner)
            || (k in w.monos && (v.monos[k].kind, v.monos[k].m, v.monos[k].owner)
                             == (w.monos[k].kind, w.monos[k].m, w.monos[k].owner)))
      && (k in v.polys ==>
            || a == AddPoly(k, v.polys[k].m, v.polys[k].owner)
            || (k in w.polys && (v.polys[k].m, v.polys[k].owner) == (w.polys[k].m, w.polys[k].owner)))
      && (k in v.links ==>
            || a == AddLink(k, v.links[k].m, v.links[k].owner)
            || (k in w.links && (v.links[k].m, v.links[k].owner) == (w.links[k].m, w.links[k].owner)))
  {
  }

  // ---------- Queries ----------

  /** c is to answer m: it is the only one listed, lives and has given a handler. */
  predicate Answers(acts: seq<Action>, kind: Kind, m: MsgId, c: CompId) {
    var n := |acts|;
    Listed(acts, n, m) == [c] && Lives(acts, n, c) && HandlerGiven(acts, n, kind, c, m).Some?
  }

  /** The reference has c, which it is to call on executor e. */
  predicate Leads(r: Mono, c: CompId, e: ExecId) {
    r.receiver == Some(c) && r.executor == Some(e) && (r.sameExecutor <==> e == r.owner)
  }

  lemma {:induction false} ResolvesTo(b: Brokers.State, t: Tables, r: Mono, c: CompId)
    requires Brokers.Valid(b)
    ensures var x := Resolve(b, t, r.kind, r.m, r.owner);
      && (x.Some? && x.value.receiver == c <==>
            Brokers.ListOf(b, r.m) == [c] && c in t.alive && HandlerOf(t, r.kind, c, r.m).Some?)
      && (x.Some? && x.value.receiver == c ==>
            && Some(x.value.handler) == HandlerOf(t, r.kind, c, r.m)
            && (x.value.sameExecutor <==> x.value.executor == r.owner)
            && match OverrideOf(t, c, r.m)
               case Some(e) => x.value.executor == e
               case None => x.value.executor == t.home(c))
  {
  }

  /** After any run a reference that is not tainted finds c if and only if c is to answer; then with the handler
      that c has given last, and for the executor that c has published it for, or else its own. */
  lemma {:induction false} MonoFinds(trace: seq<World>, acts: seq<Action>, k: nat, c: CompId)
    requires IsRun(trace, acts) && k in trace[|acts|].monos && !Tainted(trace, acts, k)
    ensures var w, n := trace[|acts|], |acts|;
      && Brokers.Valid(w.b)
      && var r := w.monos[k];
      && var (_, r', h) := LookUp(w.b, w.t, r);
      && (h.Some? ==> r'.receiver.Some?)
      && (h.Some? && r'.receiver == Some(c) <==> Answers(acts, r.kind, r.m, c))
      && (Answers(acts, r.kind, r.m, c) ==>
            && h == HandlerGiven(acts, n, r.kind, c, r.m)
            && match OverrideGiven(acts, n, c, r.m)
               case Some(e) => Leads(r', c, e)
               case None => Leads(r', c, trace[0].t.home(c)))
  {
    MonoLookupsAreFresh(trace, acts, k);
    var w := trace[|acts|];
    RunListed(trace, acts, |acts|, w.monos[k].m);
    RunHolds(trace, acts, |acts|, c, w.monos[k].m);
    FindsIn(w, k, c);
  }

  /** What a fresh lookup means in terms of the tables. */
  lemma {:induction false} FindsIn(w: World, k: nat, c: CompId)
    requires Brokers.Valid(w.b) && k in w.monos
    requires var r := w.monos[k];
      var x := Resolve(w.b, w.t, r.kind, r.m, r.owner);
      LookUp(w.b, w.t, r).2 == HandlerIn(x) && (x.Some? ==> Leaves(LookUp(w.b, w.t, r).1, x.value))
    ensures var r := w.monos[k];
      var (_, r', h) := LookUp(w.b, w.t, r);
      var found := Brokers.ListOf(w.b, r.m) == [c] && c in w.t.alive && HandlerOf(w.t, r.kind, c, r.m).Some?;
      && (h.Some? ==> r'.receiver.Some?)
      && (h.Some? && r'.receiver == Some(c) <==> found)
      && (found ==>
            && h == HandlerOf(w.t, r.kind, c, r.m)
            && match OverrideOf(w.t, c, r.m)
               case Some(e) => Leads(r', c, e)
               case None => Leads(r', c, w.t.home(c)))
  {
    var r := w.monos[k];
    ResolvesTo(w.b, w.t, r, c);
    assert LookUp(w.b, w.t, r).1.owner == r.owner;
  }

  predicate WritesAsync(a: Action, c: CompId, m: MsgId) {
    match a
    case PublishAsync(x, id, _, _) => x == c && id == m
    case Subscribe(x, id, _) => x == c && id == m
    case PrependFilter(x, id, _) => x == c && id == m
    case _ => false
  }

  predicate WritesSync(a: Action, c: CompId, m: MsgId) {
    a.PublishSync? && a.c == c && a.m == m
  }

  /** The i-th action is the last of the first n to give a handler. */
  ghost predicate LastToGive(acts: seq<Action>, i: nat, n: nat, kind: Kind, c: CompId, m: MsgId)
    requires n <= |acts|
  {
    && i < n
    && (if kind == Async then WritesAsync(acts[i], c, m) else WritesSync(acts[i], c, m))
    && forall j :: i < j < n ==> if kind == Async then !WritesAsync(acts[j], c, m) else !WritesSync(acts[j], c, m)
  }

  lemma {:induction false} GivenLast(acts: seq<Action>, i: nat, n: nat, kind: Kind, c: CompId, m: MsgId)
    requires n <= |acts| && LastToGive(acts, i, n, kind, c, m)
    ensures HandlerGiven(acts, n, kind, c, m) == Some(acts[i].h)
    ensures acts[i].PublishAsync? ==> OverrideGiven(acts, n, c, m) == acts[i].executorOverride
    decreases n
  {
    if i < n - 1 {
      GivenLast(acts, i, n - 1, kind, c, m);
    }
  }

  lemma {:induction false} NoOverrideGiven(acts: seq<Action>, n: nat, c: CompId, m: MsgId)
    requires n <= |acts| && forall j :: 0 <= j < n ==> !(acts[j].PublishAsync? && acts[j].c == c && acts[j].m == m)
    ensures OverrideGiven(acts, n, c, m) == None
    decreases n
  {
    if n > 0 {
      NoOverrideGiven(acts, n - 1, c, m);
    }
  }

  /** So a published asynchronous query is found as it was published, executor and all. */
  lemma {:induction false} PublishedAsyncIsFound(trace: seq<World>, acts: seq<Action>, k: nat, i: nat, c: CompId)
    requires IsRun(trace, acts) && k in trace[|acts|].monos && !Tainted(trace, acts, k)
    requires trace[|acts|].monos[k].kind == Async && LastToGive(acts, i, |acts|, Async, c, trace[|acts|].monos[k].m)
    requires acts[i].PublishAsync?
    requires Listed(acts, |acts|, trace[|acts|].monos[k].m) == [c] && Lives(acts, |acts|, c)
    ensures var w := trace[|acts|];
      && Brokers.Valid(w.b)
      && var (_, r', h) := LookUp(w.b, w.t, w.monos[k]);
      && h == Some(acts[i].h)
      && match acts[i].executorOverride
         case Some(e) => Leads(r', c, e)
         case None => Leads(r', c, trace[0].t.home(c))
  {
    MonoFinds(trace, acts, k, c);
    GivenLast(acts, i, |acts|, Async, c, trace[|acts|].monos[k].m);
  }

  /** And so is a synchronous one, on the component's own executor if no other was given for the message. */
  lemma {:induction false} PublishedSyncIsFound(trace: seq<World>, acts: seq<Action>, k: nat, i: nat, c: CompId)
    requires IsRun(trace, acts) && k in trace[|acts|].monos && !Tainted(trace, acts, k)
    requires trace[|acts|].monos[k].kind == Sync && LastToGive(acts, i, |acts|, Sync, c, trace[|acts|].monos[k].m)
    requires Listed(acts, |acts|, trace[|acts|].monos[k].m) == [c] && Lives(acts, |acts|, c)
    requires forall j :: 0 <= j < |acts| ==>
      !(acts[j].PublishAsync? && acts[j].c == c && acts[j].m == trace[|acts|].monos[k].m)
    ensures var w := trace[|acts|];
      && Brokers.Valid(w.b)
      && var (_, r', h) := LookUp(w.b, w.t, w.monos[k]);
      && h == Some(acts[i].h) && Leads(r', c, trace[0].t.home(c))
  {
    MonoFinds(trace, acts, k, c);
    GivenLast(acts, i, |acts|, Sync, c, trace[|acts|].monos[k].m);
    NoOverrideGiven(acts, |acts|, c, trace[|acts|].monos[k].m);
  }

  // ---------- Events ----------

  /** After any run an event reaches, in the order of the associations and once for each, exactly the associated
      components that live and have given a handler, by the handler that they have given last, and at once where
      their own executor is the sender's. */
  lemma {:induction false} EventsFind(trace: seq<World>, acts: seq<Action>, k: nat) returns (at: seq<nat>)
    requires IsRun(trace, acts) && k in trace[|acts|].polys
    ensures var w, n := trace[|acts|], |acts|;
      && Brokers.Valid(w.b)
      && var r := w.polys[k];
      && var list, targets := Listed(acts, n, r.m), LookUpAll(w.b, w.t, r).1.targets;
      && |at| == |targets| && (forall i, j :: 0 <= i < j < |at| ==> at[i] < at[j])
      && (forall i :: 0 <= i < |at| ==>
            && at[i] < |list| && targets[i].receiver == list[at[i]]
            && HandlerGiven(acts, n, Async, list[at[i]], r.m) == Some(targets[i].handler)
            && (targets[i].sameExecutor <==> trace[0].t.home(list[at[i]]) == r.owner))
      && (forall i :: 0 <= i < |list| ==>
            (i in at <==> Lives(acts, n, list[i]) && HandlerGiven(acts, n, Async, list[i], r.m).Some?))
  {
    PolyLookupsAreFresh(trace, acts, k);
    var w, n := trace[|acts|], |acts|;
    var r := w.polys[k];
    RunListed(trace, acts, n, r.m);
    var list, targets := Listed(acts, n, r.m), LookUpAll(w.b, w.t, r).1.targets;
    at := ResolveAllExact(list, w.t, r.m, r.owner);
    forall i | 0 <= i < |list|
      ensures Holds(w.t, acts, n, list[i], r.m) && w.t.home(list[i]) == trace[0].t.home(list[i])
    {
      RunHolds(trace, acts, n, list[i], r.m);
    }
    forall i | 0 <= i < |at|
      ensures && at[i] < |list| && targets[i].receiver == list[at[i]]
              && HandlerGiven(acts, n, Async, list[at[i]], r.m) == Some(targets[i].handler)
              && (targets[i].sameExecutor <==> trace[0].t.home(list[at[i]]) == r.owner)
    {
      assert IsTarget(targets[i], list[at[i]], w.t, r.m, r.owner) && Holds(w.t, acts, n, list[at[i]], r.m);
    }
  }

  /** So whoever has subscribed and not left is reached, by the handler of its last subscription. */
  lemma {:induction false} SubscribersAreReached(trace: seq<World>, acts: seq<Action>, k: nat, i: nat, c: CompId)
    returns (j: nat)
    requires IsRun(trace, acts) && k in trace[|acts|].polys
    requires LastToGive(acts, i, |acts|, Async, c, trace[|acts|].polys[k].m)
    requires c in Listed(acts, |acts|, trace[|acts|].polys[k].m) && Lives(acts, |acts|, c)
    ensures var w := trace[|acts|];
      && Brokers.Valid(w.b)
      && var r := w.polys[k];
      && var targets := LookUpAll(w.b, w.t, r).1.targets;
      && j < |targets| && targets[j] == Target(c, acts[i].h, trace[0].t.home(c) == r.owner)
  {
    var m := trace[|acts|].polys[k].m;
    var at := EventsFind(trace, acts, k);
    GivenLast(acts, i, |acts|, Async, c, m);
    var x :| 0 <= x < |Listed(acts, |acts|, m)| && Listed(acts, |acts|, m)[x] == c;
    assert x in at;
    j :| 0 <= j < |at| && at[j] == x;
  }

  /** A subscriber is listed until it, or once it is gone anybody, unpublishes. */
  lemma {:induction false} StaysListed(acts: seq<Action>, i: nat, n: nat, c: CompId, m: MsgId)
    requires i < n <= |acts| && Lives(acts, n, c)
    requires acts[i].Subscribe? || acts[i].PublishAsync? || acts[i].PublishSync? || acts[i].PublishInterface?
    requires acts[i].c == c && acts[i].m == m
    requires forall j :: i < j < n ==> !(acts[j].Unpublish? && acts[j].c == c) && acts[j] != Destroy(c)
                                       && acts[j] != Create(c)
    ensures c in Listed(acts, n, m)
    decreases n
  {
    if i < n - 1 {
      StaysListed(acts, i, n - 1, c, m);
      if acts[n - 1].Unpublish? {
        StaysAmong(Listed(acts, n - 1, m), acts, n - 1, acts[n - 1].c, c);
      }
    }
  }

  lemma {:induction false} StaysAmong(list: seq<CompId>, acts: seq<Action>, n: nat, gone: CompId, c: CompId)
    requires n <= |acts| && c in list && Lives(acts, n, c) && c != gone
    ensures c in LivingOthers(list, acts, n, gone)
  {
    if list[0] != c {
      StaysAmong(list[1..], acts, n, gone, c);
    }
  }

  // ---------- Interfaces ----------

  predicate Offers(acts: seq<Action>, m: MsgId, c: CompId) {
    var n := |acts|;
    Listed(acts, n, m) == [c] && Lives(acts, n, c) && InterfaceGiven(acts, n, c, m).Some?
  }

  /** The proxy is of that interface of c, query by query: each with its executor, and called directly if that is
      the owner's and, for an asynchronous one, c allows it. */
  predicate Mirrors(p: Proxy, c: CompId, i: Interface, owner: ExecId, allowed: bool) {
    && p.interface == i.id && p.receiver == c && |p.queries| == |i.queries|
    && forall j :: 0 <= j < |i.queries| ==>
         && p.queries[j].kind == i.queries[j].kind && p.queries[j].executor == i.queries[j].executor
         && (p.queries[j].callDirectly <==> i.queries[j].executor == owner && (i.queries[j].kind == Async ==> allowed))
  }

  lemma {:induction false} ResolvesToInterface(b: Brokers.State, t: Tables, m: MsgId, owner: ExecId, c: CompId)
    requires Brokers.Valid(b)
    ensures var p := ResolveInterface(b, t, m, owner);
      && (p.Some? && p.value.receiver == c <==>
            Brokers.ListOf(b, m) == [c] && c in t.alive && InterfaceOf(t, c, m).Some?)
      && (p.Some? && p.value.receiver == c ==> Mirrors(p.value, c, InterfaceOf(t, c, m).value, owner, t.direct(c)))
  {
  }

  /** After any run a link that is not tainted has a proxy of c if and only if c is the one to offer the interface;
      then of the interface that c has published last. */
  lemma {:induction false} InterfaceFinds(trace: seq<World>, acts: seq<Action>, k: nat, c: CompId)
    requires IsRun(trace, acts) && k in trace[|acts|].links && !LinkTainted(trace, acts, k)
    ensures var w, n := trace[|acts|], |acts|;
      && Brokers.Valid(w.b)
      && var r := w.links[k];
      && var p := LookUpInterface(w.b, w.t, r).2;
      && (p.Some? && p.value.receiver == c <==> Offers(acts, r.m, c))
      && (Offers(acts, r.m, c) ==>
            Mirrors(p.value, c, InterfaceGiven(acts, n, c, r.m).value, r.owner, trace[0].t.direct(c)))
  {
    InterfaceLookupsAreFresh(trace, acts, k);
    var w := trace[|acts|];
    var r := w.links[k];
    RunListed(trace, acts, |acts|, r.m);
    RunHolds(trace, acts, |acts|, c, r.m);
    ResolvesToInterface(w.b, w.t, r.m, r.owner, c);
  }
}
