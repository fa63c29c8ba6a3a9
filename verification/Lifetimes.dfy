/**
 * Lifetimes (lifetime.h): each object owns a shared integer, and a weak pointer taken from it is
 * expired once no lifetime object owns that integer any more.
 */
module Lifetimes {

  type Token = nat

  /** A weak pointer to a lifetime's integer; `Null` is a default-constructed or moved-from one. */
  datatype Weak = Null | To(token: Token)

  /** The lifetime objects in existence with the integers they own, and the next integer to allocate. */
  datatype Store = Store(owned: map<nat, Token>, next: Token)

  ghost predicate Valid(s: Store) {
    forall o :: o in s.owned ==> s.owned[o] < s.next
  }

  predicate Expired(s: Store, w: Weak) {
    w.Null? || w.token !in s.owned.Values
  }

  ghost predicate Issued(s: Store, w: Weak) {
    w.To? ==> w.token < s.next
  }

  datatype Op = Create(life: nat) | Reset(life: nat) | Copy(life: nat, from: nat) | Destroy(life: nat)

  predicate Allowed(s: Store, op: Op) {
    match op
    case Create(o) => o !in s.owned
    case Reset(o) => o in s.owned
    case Copy(_, from) => from in s.owned
    case Destroy(o) => o in s.owned
  }

  function Do(s: Store, op: Op): Store
    requires Allowed(s, op)
  {
    match op
    case Create(o) => Store(s.owned[o := s.next], s.next + 1)
    case Reset(o) => Store(s.owned[o := s.next], s.next + 1)
    case Copy(o, from) => s.(owned := s.owned[o := s.owned[from]])
    case Destroy(o) => s.(owned := s.owned - {o})
  }

  function DoAll(s: Store, ops: seq<Op>): Outcome
    decreases |ops|
  {
    if ops == [] then Ran(s)
    else if Allowed(s, ops[0]) then DoAll(Do(s, ops[0]), ops[1..])
    else Refused
  }

  datatype Outcome = Ran(store: Store) | Refused

  lemma {:induction false} DoKeeps(s: Store, op: Op, w: Weak)
    requires Valid(s) && Allowed(s, op) && Issued(s, w)
    ensures Valid(Do(s, op)) && Issued(Do(s, op), w)
    ensures Expired(s, w) ==> Expired(Do(s, op), w)
  {
    var t := Do(s, op);
    if w.To? && Expired(s, w) {
      forall o | o in t.owned ensures t.owned[o] != w.token {
        if o in s.owned {
          assert s.owned[o] in s.owned.Values;
        }
        if op.Copy? {
          assert s.owned[op.from] in s.owned.Values;
        }
      }
    }
  }

  /** An expired pointer stays expired, whatever is done to any lifetime object afterwards. */
  lemma {:induction false} ExpiryIsPermanent(s: Store, ops: seq<Op>, w: Weak)
    requires Valid(s) && Issued(s, w) && Expired(s, w)
    ensures DoAll(s, ops).Ran? ==> Valid(DoAll(s, ops).store) && Expired(DoAll(s, ops).store, w)
    decreases |ops|
  {
    if ops != [] && Allowed(s, ops[0]) {
      DoKeeps(s, ops[0], w);
      ExpiryIsPermanent(Do(s, ops[0]), ops[1..], w);
    }
  }

  /** A reset expires the pointers taken from that object exactly when no copy of it still owns the same
      integer, never touches anyone else's, and leaves the object usable for new pointers. */
  lemma {:induction false} ResetExpiresItsOwn(s: Store, o: nat, w: Weak)
    requires Valid(s) && o in s.owned && Issued(s, w)
    ensures var t := Do(s, Reset(o));
      && !Expired(t, To(t.owned[o]))
      && (w == To(s.owned[o]) ==>
            (Expired(t, w) <==> forall c :: c in s.owned && s.owned[c] == s.owned[o] ==> c == o))
      && (w != To(s.owned[o]) ==> (Expired(t, w) <==> Expired(s, w)))
  {
    var t := Do(s, Reset(o));
    assert t.owned[o] in t.owned.Values;
    if w == To(s.owned[o]) {
      if c :| c in s.owned && s.owned[c] == s.owned[o] && c != o {
        assert t.owned[c] == w.token;
        assert w.token in t.owned.Values;
      }
    } else if w.To? {
      if w.token in s.owned.Values {
        var c :| c in s.owned && s.owned[c] == w.token;
        assert t.owned[c] == w.token;
      }
      if w.token in t.owned.Values {
        var c :| c in t.owned && t.owned[c] == w.token;
        assert c != o;
        assert s.owned[c] == w.token;
      }
    }
  }

  lemma {:induction false} OwnerKeepsAlive(s: Store, o: nat)
    requires o in s.owned
    ensures !Expired(s, To(s.owned[o]))
  {
    assert s.owned[o] in s.owned.Values;
  }

  /** The end of an object expires the pointers to its integer exactly when nobody else owns it, and touches
      no other pointer. */
  lemma {:induction false} DestroyExpiresItsOwn(s: Store, o: nat, w: Weak)
    requires Valid(s) && o in s.owned
    ensures var t := Do(s, Destroy(o));
      && (w == To(s.owned[o]) ==>
            (Expired(t, w) <==> forall c :: c in s.owned && s.owned[c] == s.owned[o] ==> c == o))
      && (w != To(s.owned[o]) ==> (Expired(t, w) <==> Expired(s, w)))
  {
    var t := Do(s, Destroy(o));
    if w.To? {
      if c :| c in s.owned && c != o && s.owned[c] == w.token {
        assert t.owned[c] == w.token;
        OwnerKeepsAlive(t, c);
        OwnerKeepsAlive(s, c);
      }
    }
  }

  /** A new object owns an integer that no pointer yet issued refers to; all others are as they were. */
  lemma {:induction false} CreateIsFresh(s: Store, o: nat, w: Weak)
    requires Valid(s) && o !in s.owned && Issued(s, w)
    ensures var t := Do(s, Create(o));
      o in t.owned && w != To(t.owned[o]) && !Expired(t, To(t.owned[o])) && (Expired(t, w) <==> Expired(s, w))
  {
    var t := Do(s, Create(o));
    OwnerKeepsAlive(t, o);
    if w.To? && !Expired(s, w) {
      var c :| c in s.owned && s.owned[c] == w.token;
      assert t.owned[c] == w.token;
      OwnerKeepsAlive(t, c);
    }
  }

  /** A copy shares the integer: pointers taken from either are the same, and the reset or the end of one of
      them alone does not expire them. What the target of an assignment owned before goes as if it had been
      destroyed, unless it is assigned to itself. */
  lemma {:induction false} CopyShares(s: Store, o: nat, from: nat, w: Weak)
    requires Valid(s) && from in s.owned && Issued(s, w)
    ensures var t := Do(s, Copy(o, from));
      && o in t.owned && from in t.owned && t.owned[o] == t.owned[from] == s.owned[from]
      && (o != from ==>
            && !Expired(Do(t, Reset(o)), To(t.owned[from])) && !Expired(Do(t, Destroy(o)), To(t.owned[from]))
            && !Expired(Do(t, Reset(from)), To(t.owned[o])) && !Expired(Do(t, Destroy(from)), To(t.owned[o])))
      && (Expired(t, w) <==> if o in s.owned && o != from then Expired(Do(s, Destroy(o)), w) else Expired(s, w))
  {
    var t := Do(s, Copy(o, from));
    if o == from {
      assert t.owned == s.owned;
    } else {
      OwnerKeepsAlive(Do(t, Reset(o)), from);
      OwnerKeepsAlive(Do(t, Destroy(o)), from);
      OwnerKeepsAlive(Do(t, Reset(from)), o);
      OwnerKeepsAlive(Do(t, Destroy(from)), o);
      CopyExpires(s, o, from, w);
    }
  }

  lemma {:induction false} CopyExpires(s: Store, o: nat, from: nat, w: Weak)
    requires from in s.owned && o != from
    ensures Expired(Do(s, Copy(o, from)), w) <==> Expired(if o in s.owned then Do(s, Destroy(o)) else s, w)
  {
    var t, rest := Do(s, Copy(o, from)), if o in s.owned then Do(s, Destroy(o)) else s;
    if w.To? {
      if c :| c in t.owned && t.owned[c] == w.token {
        OwnerKeepsAlive(rest, if c == o then from else c);
      }
      if c :| c in rest.owned && rest.owned[c] == w.token {
        assert t.owned[c] == w.token;
        OwnerKeepsAlive(t, c);
      }
    }
  }

  /** All lifetime objects of the process. */
  class LifetimeTable {
    var owned: map<nat, Token>
    var next: Token

    function State(): Store
      reads this
    {
      Store(owned, next)
    }

    constructor ()
      ensures State() == Store(map[], 0) && Valid(State())
    {
      owned, next := map[], 0;
    }

    method Make(life: nat)
      requires Valid(State()) && life !in owned
      modifies this
      ensures State() == Do(old(State()), Create(life)) && Valid(State())
    {
      owned, next := owned[life := next], next + 1;
    }

    method CreateWeakPtr(life: nat) returns (w: Weak)
      requires Valid(State()) && life in owned
      ensures w == To(owned[life]) && Issued(State(), w) && !Expired(State(), w)
    {
      w := To(owned[life]);
      assert owned[life] in owned.Values;
    }

    /** The copy constructor, or assignment. */
    method MakeCopy(life: nat, from: nat)
      requires Valid(State()) && from in owned
      modifies this
      ensures State() == Do(old(State()), Copy(life, from)) && Valid(State())
      ensures life in owned && owned[life] == old(owned)[from] && owned - {life} == old(owned) - {life}
    {
      owned := owned[life := owned[from]];
    }

    /** The destructor. */
    method Drop(life: nat)
      requires Valid(State()) && life in owned
      modifies this
      ensures State() == Do(old(State()), Destroy(life)) && Valid(State())
      ensures owned.Keys == old(owned).Keys - {life}
      ensures forall w :: Issued(old(State()), w) && Expired(old(State()), w) ==> Expired(State(), w)
    {
      ghost var before := State();
      owned := owned - {life};
      forall w | Issued(before, w) && Expired(before, w) ensures Expired(State(), w) {
        DoKeeps(before, Destroy(life), w);
      }
    }

    method Reset(life: nat)
      requires Valid(State()) && life in owned
      modifies this
      ensures State() == Do(old(State()), Op.Reset(life)) && Valid(State())
      ensures forall w :: Issued(old(State()), w) && Expired(old(State()), w) ==> Expired(State(), w)
    {
      ghost var before := State();
      owned, next := owned[life := next], next + 1;
      forall w | Issued(before, w) && Expired(before, w) ensures Expired(State(), w) {
        DoKeeps(before, Op.Reset(life), w);
      }
    }
  }
}
