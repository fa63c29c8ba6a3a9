/**
 * The broker (broker.cpp): message ids mapped to lists of receivers. The lists are immutable snapshots;
 * every change of an id puts a new one in place, so that weak pointers to the old one expire.
 */
module Brokers {
  import opened Common

  type Receivers = seq<CompId>
  type SnapshotId = nat

  /** `store` holds every snapshot ever allocated, by identity, and `active` the one in place for each id. */
  datatype State = State(store: seq<Receivers>, active: map<MsgId, SnapshotId>)

  ghost predicate Valid(b: State) {
    && (forall m :: m in b.active ==> b.active[m] < |b.store|)
    && (forall m, n :: m in b.active && n in b.active && b.active[m] == b.active[n] ==> m == n)
  }

  /** A weak pointer to a snapshot; only the broker owns snapshots. */
  predicate Expired(b: State, weak: Option<SnapshotId>) {
    weak.None? || weak.value !in b.active.Values
  }

  ghost predicate Issued(b: State, weak: Option<SnapshotId>) {
    weak.Some? ==> weak.value < |b.store|
  }

  function Contents(b: State): map<MsgId, Receivers>
    requires Valid(b)
  {
    map m | m in b.active :: b.store[b.active[m]]
  }

  function ListOf(b: State, m: MsgId): Receivers
    requires Valid(b)
  {
    if m in b.active then b.store[b.active[m]] else []
  }

  function Put(b: State, m: MsgId, r: Receivers): State {
    State(b.store + [r], b.active[m := |b.store|])
  }

  function Associate(b: State, m: MsgId, c: CompId): State
    requires Valid(b)
  {
    Put(b, m, ListOf(b, m) + [c])
  }

  /** Whoever is alive and is not c. */
  function Survivors(r: Receivers, c: CompId, alive: set<CompId>): Receivers {
    if r == [] then []
    else (if r[0] in alive && r[0] != c then [r[0]] else []) + Survivors(r[1..], c, alive)
  }

  function Disassociate(b: State, m: MsgId, c: CompId, alive: set<CompId>): State
    requires Valid(b) && m in b.active
  {
    Put(b, m, Survivors(b.store[b.active[m]], c, alive))
  }

  function Invalidate(b: State, m: MsgId): State
    requires Valid(b)
  {
    if m in b.active then Put(b, m, b.store[b.active[m]]) else b
  }

  function Lookup(b: State, m: MsgId): State
    requires Valid(b)
  {
    if m in b.active then b else Put(b, m, [])
  }

  ghost predicate Known(b: State, ids: seq<MsgId>) {
    forall m :: m in ids ==> m in b.active
  }

  ghost predicate Distinct(ids: seq<MsgId>) {
    ids == [] || (ids[0] !in ids[1..] && Distinct(ids[1..]))
  }

  function DisassociateAll(b: State, order: seq<MsgId>, c: CompId, alive: set<CompId>): State
    requires Valid(b) && Known(b, order)
    decreases |order|
  {
    if order == [] then b
    else
      PutIsValid(b, order[0], Survivors(b.store[b.active[order[0]]], c, alive));
      DisassociateAll(Disassociate(b, order[0], c, alive), order[1..], c, alive)
  }

  lemma {:induction false} PutIsValid(b: State, m: MsgId, r: Receivers)
    requires Valid(b)
    ensures Valid(Put(b, m, r))
    ensures b.store <= Put(b, m, r).store
  {
  }

  /** Replacing a snapshot changes the list of that id and no other, expires the pointers to the one it
      replaces, and leaves every other pointer as it was; an expired pointer never comes back. */
  lemma {:induction false} PutReplaces(b: State, m: MsgId, r: Receivers, weak: Option<SnapshotId>)
    requires Valid(b) && Issued(b, weak)
    ensures var t := Put(b, m, r);
      && Valid(t) && Issued(t, weak) && Contents(t) == Contents(b)[m := r]
      && (Expired(t, weak) <==> Expired(b, weak) || (m in b.active && weak == Some(b.active[m])))
  {
    var t := Put(b, m, r);
    if weak.Some? {
      if weak.value in t.active.Values {
        var n :| n in t.active && t.active[n] == weak.value;
        assert n != m;
        assert b.active[n] == weak.value;
      }
      if weak.value in b.active.Values {
        var n :| n in b.active && b.active[n] == weak.value;
        if n != m {
          assert t.active[n] == weak.value;
        } else {
          assert forall k :: k in t.active && t.active[k] == weak.value ==> k in b.active && b.active[k] == weak.value;
        }
      }
    }
  }

  /** What holds of all that are listed holds of the survivors. */
  lemma {:induction false} SurvivorsKeep(r: Receivers, c: CompId, alive: set<CompId>, p: CompId -> bool)
    requires forall i :: 0 <= i < |r| ==> p(r[i])
    ensures forall i :: 0 <= i < |Survivors(r, c, alive)| ==> p(Survivors(r, c, alive)[i])
  {
    if r != [] {
      SurvivorsKeep(r[1..], c, alive, p);
    }
  }

  /** Exactly the living others survive, each as often as it was listed and in the same order: `at` lists,
      in increasing order, all positions that hold one. */
  lemma {:induction false} SurvivorsExact(r: Receivers, c: CompId, alive: set<CompId>) returns (at: seq<nat>)
    ensures |at| == |Survivors(r, c, alive)|
    ensures forall k :: 0 <= k < |at| ==> at[k] < |r| && r[at[k]] == Survivors(r, c, alive)[k]
    ensures forall j, k :: 0 <= j < k < |at| ==> at[j] < at[k]
    ensures forall i :: 0 <= i < |r| ==> (i in at <==> r[i] in alive && r[i] != c)
  {
    if r == [] {
      at := [];
    } else {
      var n := |r| - 1;
      at := SurvivorsExact(r[..n], c, alive);
      assert r == r[..n] + [r[n]];
      SurvivorsConcat(r[..n], [r[n]], c, alive);
      assert [r[n]][1..] == [];
      if r[n] in alive && r[n] != c {
        at := at + [n];
      }
    }
  }

  lemma {:induction false} SurvivorsOne(x: CompId, c: CompId, alive: set<CompId>)
    ensures Survivors([x], c, alive) == if x in alive && x != c then [x] else []
  {
    assert [x][1..] == [];
  }

  /** Erasing an entry that is not to survive changes nothing of the result; keeping one extends it. */
  lemma {:induction false} EraseOrKeep(r: Receivers, i: nat, c: CompId, alive: set<CompId>)
    requires i < |r| && Survivors(r[..i], c, alive) == r[..i]
    ensures r[i] !in alive || r[i] == c ==>
      Survivors(r[..i] + r[i + 1..], c, alive) == Survivors(r, c, alive) && (r[..i] + r[i + 1..])[..i] == r[..i]
    ensures r[i] in alive && r[i] != c ==> Survivors(r[..i + 1], c, alive) == r[..i + 1]
  {
    SurvivorsOne(r[i], c, alive);
    if r[i] in alive && r[i] != c {
      assert r[..i + 1] == r[..i] + [r[i]];
      SurvivorsConcat(r[..i], [r[i]], c, alive);
    } else {
      assert r == r[..i] + ([r[i]] + r[i + 1..]);
      SurvivorsConcat(r[..i], [r[i]] + r[i + 1..], c, alive);
      SurvivorsConcat([r[i]], r[i + 1..], c, alive);
      SurvivorsConcat(r[..i], r[i + 1..], c, alive);
    }
  }

  lemma {:induction false} SurvivorsConcat(a: Receivers, b: Receivers, c: CompId, alive: set<CompId>)
    ensures Survivors(a + b, c, alive) == Survivors(a, c, alive) + Survivors(b, c, alive)
  {
    if a == [] {
      assert a + b == b;
    } else {
      assert (a + b)[1..] == a[1..] + b;
      SurvivorsConcat(a[1..], b, c, alive);
    }
  }

  // ---------- Whole runs ----------

  datatype Op =
    | Add(m: MsgId, c: CompId)
    | Remove(m: MsgId, c: CompId, alive: set<CompId>)
    | Touch(m: MsgId)
    | Find(m: MsgId)

  predicate Mutates(op: Op, m: MsgId) {
    op.m == m && !op.Find?
  }

  function Do(b: State, op: Op): State
    requires Valid(b)
  {
    match op
    case Add(m, c) => Associate(b, m, c)
    case Remove(m, c, alive) => if m in b.active then Disassociate(b, m, c, alive) else b
    case Touch(m) => Invalidate(b, m)
    case Find(m) => Lookup(b, m)
  }

  /** The abstract broker: a map from ids to lists, where an unknown id has the empty list. */
  function DoAbstract(a: map<MsgId, Receivers>, op: Op): map<MsgId, Receivers> {
    match op
    case Add(m, c) => a[m := (if m in a then a[m] else []) + [c]]
    case Remove(m, c, alive) => if m in a then a[m := Survivors(a[m], c, alive)] else a
    case Touch(_) => a
    case Find(m) => if m in a then a else a[m := []]
  }

  lemma {:induction false} DoIsValid(b: State, op: Op)
    requires Valid(b)
    ensures Valid(Do(b, op)) && b.store <= Do(b, op).store
  {
  }

  function Run(b: State, ops: seq<Op>): (r: State)
    requires Valid(b)
    ensures Valid(r)
    decreases |ops|
  {
    if ops == [] then b else DoIsValid(b, ops[0]); Run(Do(b, ops[0]), ops[1..])
  }

  function RunAbstract(a: map<MsgId, Receivers>, ops: seq<Op>): map<MsgId, Receivers>
    decreases |ops|
  {
    if ops == [] then a else RunAbstract(DoAbstract(a, ops[0]), ops[1..])
  }

  /** Copy-on-write refines the plain map: the lists in place are those of the abstract broker, while every
      snapshot ever handed out keeps the contents it was handed out with. */
  lemma {:induction false} RefinesPlainMap(b: State, ops: seq<Op>)
    requires Valid(b)
    ensures Contents(Run(b, ops)) == RunAbstract(Contents(b), ops)
    ensures b.store <= Run(b, ops).store
    decreases |ops|
  {
    if ops != [] {
      DoIsValid(b, ops[0]);
      DoRefines(b, ops[0]);
      RefinesPlainMap(Do(b, ops[0]), ops[1..]);
    }
  }

  lemma {:induction false} DoRefines(b: State, op: Op)
    requires Valid(b)
    ensures Valid(Do(b, op)) && Contents(Do(b, op)) == DoAbstract(Contents(b), op)
  {
    match op
    case Add(m, c) => PutReplaces(b, m, ListOf(b, m) + [c], None);
    case Remove(m, c, alive) => if m in b.active { PutReplaces(b, m, Survivors(ListOf(b, m), c, alive), None); }
    case Touch(m) =>
      if m in b.active {
        PutReplaces(b, m, ListOf(b, m), None);
        assert Contents(b)[m := ListOf(b, m)] == Contents(b);
      }
    case Find(m) => if m !in b.active { PutReplaces(b, m, [], None); }
  }

  /** A pointer obtained by a lookup of m expires exactly when m is next mutated, whatever happens to other
      ids and however often anything is looked up; until then every lookup of m gives that same snapshot. */
  lemma {:induction false} ExpiresWithMutation(b: State, m: MsgId, ops: seq<Op>)
    requires Valid(b) && m in b.active
    ensures Expired(Run(b, ops), Some(b.active[m])) <==> exists i :: 0 <= i < |ops| && Mutates(ops[i], m)
    ensures !Expired(Run(b, ops), Some(b.active[m])) ==>
      m in Run(b, ops).active && Lookup(Run(b, ops), m).active[m] == b.active[m]
    decreases |ops|
  {
    if ops == [] {
      assert b.active[m] in b.active.Values;
    } else {
      var t := Do(b, ops[0]);
      DoIsValid(b, ops[0]);
      if Mutates(ops[0], m) {
        DoExpires(b, ops[0], Some(b.active[m]));
        StaysExpired(t, Some(b.active[m]), ops[1..]);
      } else {
        assert t.active[m] == b.active[m];
        ExpiresWithMutation(t, m, ops[1..]);
        assert forall i :: 0 <= i < |ops| - 1 ==> ops[1..][i] == ops[i + 1];
      }
    }
  }

  lemma {:induction false} DoExpires(b: State, op: Op, weak: Option<SnapshotId>)
    requires Valid(b) && Issued(b, weak)
    ensures Valid(Do(b, op)) && Issued(Do(b, op), weak)
    ensures Expired(b, weak) ==> Expired(Do(b, op), weak)
    ensures op.m in b.active && Mutates(op, op.m) ==> Expired(Do(b, op), Some(b.active[op.m]))
  {
    match op
    case Add(m, c) =>
      PutReplaces(b, m, ListOf(b, m) + [c], weak);
      if m in b.active { PutReplaces(b, m, ListOf(b, m) + [c], Some(b.active[m])); }
    case Remove(m, c, alive) =>
      if m in b.active {
        PutReplaces(b, m, Survivors(ListOf(b, m), c, alive), weak);
        PutReplaces(b, m, Survivors(ListOf(b, m), c, alive), Some(b.active[m]));
      }
    case Touch(m) =>
      if m in b.active {
        PutReplaces(b, m, ListOf(b, m), weak);
        PutReplaces(b, m, ListOf(b, m), Some(b.active[m]));
      }
    case Find(m) => if m !in b.active { PutReplaces(b, m, [], weak); }
  }

  lemma {:induction false} StaysExpired(b: State, weak: Option<SnapshotId>, ops: seq<Op>)
    requires Valid(b) && Issued(b, weak) && Expired(b, weak)
    ensures Expired(Run(b, ops), weak)
    decreases |ops|
  {
    if ops != [] {
      DoExpires(b, ops[0], weak);
      StaysExpired(Do(b, ops[0]), weak, ops[1..]);
    }
  }

  /** Two lookups with no mutation between give the identical snapshot, even for an id nobody registered. */
  lemma {:induction false} LookupsAgree(b: State, m: MsgId, ops: seq<Op>)
    requires Valid(b) && forall i :: 0 <= i < |ops| ==> !Mutates(ops[i], m)
    ensures var t := Lookup(b, m);
      && Valid(t) && m in t.active && m in Run(t, ops).active
      && Lookup(Run(t, ops), m).active[m] == t.active[m]
  {
    DoIsValid(b, Find(m));
    ExpiresWithMutation(Lookup(b, m), m, ops);
  }

  ghost predicate Enumerates(order: seq<MsgId>, keys: set<MsgId>) {
    (forall m :: m in keys <==> m in order) && Distinct(order)
  }

  lemma {:induction false} DistinctAppend(ids: seq<MsgId>, m: MsgId)
    requires Distinct(ids) && m !in ids
    ensures Distinct(ids + [m])
  {
    if ids == [] {
      assert ids + [m] == [m];
    } else {
      assert (ids + [m])[1..] == ids[1..] + [m];
      DistinctAppend(ids[1..], m);
    }
  }

  /** What removing c from every list leaves: the same ids, and of each listed id exactly the living others,
      in a snapshot that did not exist before. */
  ghost predicate AllRemoved(b: State, t: State, ids: seq<MsgId>, c: CompId, alive: set<CompId>)
    requires Valid(b) && Valid(t)
  {
    && b.store <= t.store && t.active.Keys == b.active.Keys
    && (forall m :: m in b.active && m in ids ==>
          ListOf(t, m) == Survivors(ListOf(b, m), c, alive) && t.active[m] >= |b.store|)
    && (forall m :: m in b.active && m !in ids ==>
          ListOf(t, m) == ListOf(b, m) && t.active[m] == b.active[m])
  }

  /** Removing a component from everything keeps the ids, leaves of every list exactly the living others, in
      their order and as often as they were, and expires every snapshot handed out before. */
  lemma {:induction false} DisassociateAllExact(b: State, order: seq<MsgId>, c: CompId, alive: set<CompId>)
    requires Valid(b) && Known(b, order) && Distinct(order)
    ensures Valid(DisassociateAll(b, order, c, alive))
    ensures AllRemoved(b, DisassociateAll(b, order, c, alive), order, c, alive)
    decreases |order|
  {
    if order != [] {
      var m, rest := order[0], order[1..];
      var t := Disassociate(b, m, c, alive);
      DisassociateFirst(b, order, c, alive);
      DisassociateAllExact(t, rest, c, alive);
      RemovedFirst(b, t, DisassociateAll(t, rest, c, alive), m, rest, c, alive);
      assert order == [m] + rest;
    }
  }

  lemma {:induction false} DisassociateFirst(b: State, order: seq<MsgId>, c: CompId, alive: set<CompId>)
    requires Valid(b) && Known(b, order) && order != []
    ensures var t := Disassociate(b, order[0], c, alive);
      && Valid(t) && Known(t, order[1..])
      && DisassociateAll(b, order, c, alive) == DisassociateAll(t, order[1..], c, alive)
  {
    PutIsValid(b, order[0], Survivors(ListOf(b, order[0]), c, alive));
  }

  lemma {:induction false} RemovedFirst(b: State, t: State, u: State, m: MsgId, rest: seq<MsgId>, c: CompId,
          alive: set<CompId>)
    requires Valid(b) && m in b.active && t == Disassociate(b, m, c, alive) && Valid(t) && Valid(u)
    requires m !in rest && AllRemoved(t, u, rest, c, alive)
    ensures AllRemoved(b, u, [m] + rest, c, alive)
  {
    forall n | n in b.active
      ensures ListOf(t, n) == if n == m then Survivors(ListOf(b, m), c, alive) else ListOf(b, n)
    {
    }
  }

  /** The ids of b are those in `order`, each once, and those still to do. */
  ghost predicate Partly(b: State, order: seq<MsgId>, todo: set<MsgId>) {
    && (forall m :: m in b.active.Keys <==> m in order || m in todo)
    && (forall m :: m in order ==> m !in todo)
    && Distinct(order) && Known(b, order)
  }

  class Broker {
    var store: seq<Receivers>
    var active: map<MsgId, SnapshotId>

    function View(): State
      reads this
    {
      State(store, active)
    }

    constructor ()
      ensures View() == State([], map[]) && Valid(View())
    {
      store, active := [], map[];
    }

    method AssociateWith(m: MsgId, c: CompId)
      requires Valid(View())
      modifies this
      ensures View() == Associate(old(View()), m, c) && Valid(View())
    {
      PutIsValid(View(), m, ListOf(View(), m) + [c]);
      var receivers := [];
      if m in active {
        receivers := store[active[m]];
      }
      receivers := receivers + [c];
      active := active[m := |store|];
      store := store + [receivers];
    }

    /** Reports false where the source aborts: the id was never seen. */
    method DisassociateFrom(m: MsgId, c: CompId, alive: set<CompId>) returns (known: bool)
      requires Valid(View())
      modifies this
      ensures Valid(View()) && (known <==> m in old(active))
      ensures known ==> View() == Disassociate(old(View()), m, c, alive)
      ensures !known ==> View() == old(View())
    {
      if m !in active {
        return false;
      }
      var receivers := store[active[m]];
      ghost var original := receivers;
      var i := 0;
      while i < |receivers|
        invariant i <= |receivers| && View() == old(View())
        invariant Survivors(receivers, c, alive) == Survivors(original, c, alive)
        invariant Survivors(receivers[..i], c, alive) == receivers[..i]
        decreases |receivers| - i
      {
        EraseOrKeep(receivers, i, c, alive);
        if receivers[i] !in alive || receivers[i] == c {
          receivers := receivers[..i] + receivers[i + 1..];
        } else {
          i := i + 1;
        }
      }
      assert receivers[..i] == receivers;
      PutIsValid(View(), m, receivers);
      active := active[m := |store|];
      store := store + [receivers];
      known := true;
    }

    method InvalidateId(m: MsgId)
      requires Valid(View())
      modifies this
      ensures View() == Invalidate(old(View()), m) && Valid(View())
    {
      if m !in active {
        return;
      }
      var receivers := store[active[m]];
      PutIsValid(View(), m, receivers);
      active := active[m := |store|];
      store := store + [receivers];
    }

    /** The ids are visited in an unspecified order; the abort of `DisassociateFrom` is never reached. */
    method DisassociateEverything(c: CompId, alive: set<CompId>) returns (ghost order: seq<MsgId>)
      requires Valid(View())
      modifies this
      ensures Valid(View()) && Enumerates(order, old(active).Keys)
      ensures View() == DisassociateAll(old(View()), order, c, alive)
    {
      var todo := active.Keys;
      order := [];
      ghost var start := View();
      while todo != {}
        invariant Valid(View()) && Partly(start, order, todo)
        invariant todo <= active.Keys
        invariant View() == DisassociateAll(start, order, c, alive)
        decreases todo
      {
        var m :| m in todo;
        DisassociateLast(start, order, m, c, alive);
        var known := DisassociateFrom(m, c, alive);
        assert known;
        DistinctAppend(order, m);
        order := order + [m];
        todo := todo - {m};
      }
    }

    method LookUp(m: MsgId) returns (weak: SnapshotId)
      requires Valid(View())
      modifies this
      ensures View() == Lookup(old(View()), m) && Valid(View())
      ensures m in active && weak == active[m] && !Expired(View(), Some(weak))
    {
      PutIsValid(View(), m, []);
      if m !in active {
        active := active[m := |store|];
        store := store + [[]];
      }
      weak := active[m];
    }
  }

  lemma {:induction false} DisassociateLast(b: State, order: seq<MsgId>, m: MsgId, c: CompId, alive: set<CompId>)
    requires Valid(b) && Known(b, order) && m in b.active
    ensures Valid(DisassociateAll(b, order, c, alive)) && m in DisassociateAll(b, order, c, alive).active
    ensures DisassociateAll(b, order + [m], c, alive) == Disassociate(DisassociateAll(b, order, c, alive), m, c, alive)
    decreases |order|
  {
    if order == [] {
      assert order + [m] == [m];
    } else {
      PutIsValid(b, order[0], Survivors(b.store[b.active[order[0]]], c, alive));
      assert (order + [m])[1..] == order[1..] + [m];
      DisassociateLast(Disassociate(b, order[0], c, alive), order[1..], m, c, alive);
    }
  }
}
