/**
 * The cells themselves (fixed_any.h) and the growing vectors of tasks that hold them (executor.h): what is
 * constructed, moved and destroyed while tasks are queued, buffers grow, are swapped, run and cleared.
 */
module Cells {
  import opened Common
  import opened Storage

  /** A payload: its type, its value, and its address if it lives inside a cell. */
  datatype Object = Object(type_: Type, value: Value, at: Option<nat>)

  /** The objects alive, how many were ever constructed, and those destroyed, in order. Objects are numbered
      as they are constructed. */
  datatype Memory = Memory(live: map<ObjectId, Object>, constructed: nat, destroyed: seq<ObjectId>)

  /** One fixed_any: the address of its storage, the aligned place in it if that is used, the object, and the
      type that the destructor and the move constructor were made for. */
  datatype Cell = Cell(base: nat, aligned: Option<nat>, objectPtr: Option<ObjectId>, type_: Option<Type>)

  function EmptyCell(base: nat): Cell {
    Cell(base, None, None, None)
  }

  predicate Inline(y: Layout, t: Type) {
    t.size + t.align - 1 <= y.length
  }

  /** The run-time check of alignment does not abort. */
  predicate Checked(o: Object) {
    o.type_.align > 0 && (o.at.Some? ==> o.at.value % o.type_.align == 0)
  }

  /** It is there to abort where an object lies askew, and what lies so may not be destroyed. */
  lemma {:induction false} AskewAborts(h: Memory, c: Cell, id: ObjectId)
    requires c.objectPtr == Some(id) && id in h.live && h.live[id].type_.align > 0
    ensures h.live[id].at.Some? && h.live[id].at.value % h.live[id].type_.align != 0 <==> !Destroyable(h, c)
  {
  }

  function Construct(h: Memory, o: Object): Memory {
    Memory(h.live[h.constructed := o], h.constructed + 1, h.destroyed)
  }

  function Destruct(h: Memory, id: ObjectId): Memory
    requires id in h.live && Checked(h.live[id])
  {
    Memory(h.live - {id}, h.constructed, h.destroyed + [id])
  }

  /** What may be destroyed: nothing, or an object that is alive and where it ought to be. */
  predicate Destroyable(h: Memory, c: Cell) {
    c.objectPtr.Some? ==> c.objectPtr.value in h.live && Checked(h.live[c.objectPtr.value])
  }

  function Destroy(h: Memory, c: Cell): (Memory, Cell)
    requires Destroyable(h, c)
  {
    if c.objectPtr.None? then (h, c)
    else (Destruct(h, c.objectPtr.value), c.(aligned := None, objectPtr := None))
  }

  function AssignValue(y: Layout, h: Memory, c: Cell, t: Type, v: Value): (Memory, Cell)
    requires Destroyable(h, c) && t.align > 0
  {
    var (h1, c1) := Destroy(h, c);
    var aligned := if Inline(y, t) then Some(AlignUp(c.base, t.align)) else None;
    (Construct(h1, Object(t, v, aligned)), c1.(aligned := aligned, objectPtr := Some(h1.constructed), type_ := Some(t)))
  }

  /** Where the move constructor puts the new object: inline types in the target, the others on the heap. */
  function Moved(y: Layout, o: Object, target: Option<nat>): Object {
    o.(at := if Inline(y, o.type_) then target else None)
  }

  function Target(c: Cell, other: Cell): (p: Option<nat>)
    requires other.aligned.Some? ==> other.base <= other.aligned.value
  {
    if other.aligned.Some? then Some(Rebase(other.aligned.value, other.base, c.base)) else None
  }

  /** A cell that holds an object of its type, inside its storage and aligned if the type is one for inline. */
  predicate Full(y: Layout, h: Memory, c: Cell) {
    && c.objectPtr.Some? && c.type_.Some? && c.objectPtr.value in h.live
    && Sane(y, c.type_.value) && c.base % y.maxAlign == 0
    && var o, t := h.live[c.objectPtr.value], c.type_.value;
    && o.type_ == t && o.at == c.aligned && (c.aligned.Some? <==> Inline(y, t))
    && (c.aligned.Some? ==> c.aligned.value % t.align == 0 && Inside(c.aligned.value, t.size, c.base, y.length))
  }

  ghost predicate Issued(h: Memory) {
    forall id :: id in h.live ==> id < h.constructed
  }

  /** What the code asks of its callers but does not check: the source holds an object, and is another cell. */
  ghost predicate Movable(y: Layout, h: Memory, c: Cell, other: Cell) {
    && Issued(h) && Full(y, h, other) && Destroyable(h, c) && c.objectPtr != other.objectPtr
    && c.base % y.maxAlign == 0
  }

  /** Ends what the cell holds, moves the other's object in by its offset, and ends the moved-from object. */
  ghost function AssignMove(y: Layout, h: Memory, c: Cell, other: Cell): (Memory, Cell, Cell)
    requires Movable(y, h, c, other)
  {
    var (h1, c1) := Destroy(h, c);
    var aligned := Target(c, other);
    var h2 := Construct(h1, Moved(y, h1.live[other.objectPtr.value], aligned));
    var (h3, other1) := Destroy(h2, other);
    (h3, Cell(c.base, aligned, Some(h1.constructed), other.type_), other1.(type_ := None))
  }

  // ---------- The account ----------

  ghost predicate Distinct(ids: seq<ObjectId>) {
    forall i, j :: 0 <= i < j < |ids| ==> ids[i] != ids[j]
  }

  /** Every object ever constructed is either alive or was destroyed, exactly once. */
  ghost predicate Accounted(h: Memory) {
    && Issued(h) && Distinct(h.destroyed)
    && (forall i :: 0 <= i < |h.destroyed| ==> h.destroyed[i] < h.constructed && h.destroyed[i] !in h.live)
    && (forall id: nat :: id < h.constructed && id !in h.live ==> id in h.destroyed)
  }

  /** The cells hold one object each. */
  ghost predicate Apart(cells: seq<Cell>) {
    forall i, j :: 0 <= i < j < |cells| ==> cells[i].objectPtr != cells[j].objectPtr
  }

  ghost predicate Owned(h: Memory, cells: seq<Cell>) {
    forall id :: id in h.live ==> exists i :: 0 <= i < |cells| && cells[i].objectPtr == Some(id)
  }

  ghost predicate AllFull(y: Layout, h: Memory, cells: seq<Cell>) {
    forall i :: 0 <= i < |cells| ==> Full(y, h, cells[i])
  }

  /** The cells hold one living object each, and no other object is alive. */
  ghost predicate Stores(y: Layout, h: Memory, cells: seq<Cell>) {
    && AllFull(y, h, cells) && Apart(cells) && Owned(h, cells)
    && Accounted(h) && h.constructed == |h.destroyed| + |cells|
  }

  function ValueOf(h: Memory, c: Cell): Value {
    if c.objectPtr.Some? && c.objectPtr.value in h.live then h.live[c.objectPtr.value].value else 0
  }

  function Values(h: Memory, cells: seq<Cell>): (r: seq<Value>)
    ensures |r| == |cells| && forall i :: 0 <= i < |cells| ==> r[i] == ValueOf(h, cells[i])
  {
    seq(|cells|, i requires 0 <= i < |cells| => ValueOf(h, cells[i]))
  }

  /** A cell whose object is untouched is as full as it was. */
  lemma {:induction false} StaysFull(y: Layout, h: Memory, h': Memory, c: Cell)
    requires Full(y, h, c) && c.objectPtr.value in h'.live && h'.live[c.objectPtr.value] == h.live[c.objectPtr.value]
    ensures Full(y, h', c) && ValueOf(h', c) == ValueOf(h, c)
  {
  }

  lemma {:induction false} NewIsFull(y: Layout, h: Memory, base: nat, t: Type, v: Value)
    requires Sane(y, t) && base % y.maxAlign == 0
    ensures var (h', c) := AssignValue(y, h, EmptyCell(base), t, v);
      && Full(y, h', c) && c.objectPtr == Some(h.constructed) && ValueOf(h', c) == v
      && h' == Construct(h, h'.live[h.constructed])
  {
    AlignUpAligns(base, t.align);
  }

  lemma {:induction false} MovedIsFull(y: Layout, h: Memory, base: nat, other: Cell)
    requires Full(y, h, other) && Issued(h) && base % y.maxAlign == 0
    ensures Movable(y, h, EmptyCell(base), other)
    ensures var (h', c, _) := AssignMove(y, h, EmptyCell(base), other);
      && Full(y, h', c) && c.objectPtr == Some(h.constructed) && ValueOf(h', c) == ValueOf(h, other)
      && h' == Memory(h.live[h.constructed := h'.live[h.constructed]] - {other.objectPtr.value}, h.constructed + 1,
                      h.destroyed + [other.objectPtr.value])
  {
    if other.aligned.Some? {
      RebaseAligned(y, other.type_.value, other.aligned.value, other.base, base);
    }
  }

  lemma {:induction false} EndOne(h: Memory, h': Memory, id: ObjectId)
    requires Accounted(h) && id in h.live
    requires h' == Memory(h.live - {id}, h.constructed, h.destroyed + [id])
    ensures Accounted(h')
  {
    assert forall k: nat :: k in h.destroyed ==> k in h'.destroyed;
    assert h'.destroyed[|h.destroyed|] == id;
  }

  lemma {:induction false} OwnedAfter(h: Memory, cells: seq<Cell>, h': Memory, cells': seq<Cell>,
          gone: Option<ObjectId>)
    requires Owned(h, cells)
    requires forall id :: id in h'.live ==> Some(id) != gone && (id in h.live || id == h.constructed)
    requires forall i :: 0 <= i < |cells| && cells[i].objectPtr != gone ==>
      exists k :: 0 <= k < |cells'| && cells'[k].objectPtr == cells[i].objectPtr
    requires h.constructed in h'.live ==> exists k :: 0 <= k < |cells'| && cells'[k].objectPtr == Some(h.constructed)
    ensures Owned(h', cells')
  {
  }

  /** Wherever its storage is, the first aligned place in it has room for an object of the type. */
  ghost predicate FitsAnywhere(y: Layout, t: Type)
    requires t.align > 0
  {
    forall b: nat :: Inside(AlignUp(b, t.align), t.size, b, y.length)
  }

  /** A value is put inside the cell, at the first aligned place, if and only if there is room for its type
      wherever the cell may be; else on the heap. Its payload is the one new object. */
  lemma {:induction false} PlacedWhereItFits(y: Layout, h: Memory, c: Cell, t: Type, v: Value)
    requires Destroyable(h, c) && t.align > 0 && (c.objectPtr.Some? ==> c.objectPtr.value != h.constructed)
    ensures var (h', c') := AssignValue(y, h, c, t, v);
      && c'.base == c.base && c'.type_ == Some(t) && c'.objectPtr == Some(h.constructed)
      && h.constructed in h'.live && h'.constructed == h.constructed + 1
      && var o := h'.live[h.constructed];
      && o.value == v && o.type_ == t && o.at == c'.aligned
      && (o.at.Some? <==> FitsAnywhere(y, t))
      && (o.at.Some? ==> o.at == Some(AlignUp(c.base, t.align)))
      && h'.live.Keys
           == (if c.objectPtr.Some? then h.live.Keys - {c.objectPtr.value} else h.live.Keys) + {h.constructed}
      && (forall id :: id in h'.live && id != h.constructed ==> id in h.live && h'.live[id] == h.live[id])
  {
    InlineBoundExact(t.size, t.align, y.length);
  }

  lemma {:induction false} AddStores(y: Layout, h: Memory, cells: seq<Cell>, base: nat, t: Type, v: Value)
    requires Stores(y, h, cells) && Sane(y, t) && base % y.maxAlign == 0
    ensures var (h', c) := AssignValue(y, h, EmptyCell(base), t, v);
      && Stores(y, h', cells + [c]) && Values(h', cells + [c]) == Values(h, cells) + [v]
      && (c.aligned.Some? <==> FitsAnywhere(y, t))
  {
    PlacedWhereItFits(y, h, EmptyCell(base), t, v);
    NewIsFull(y, h, base, t, v);
    var (h', c) := AssignValue(y, h, EmptyCell(base), t, v);
    OneMoreStores(y, h, cells, h', c);
  }

  /** A full cell with the new object joins the others. */
  lemma {:induction false} OneMoreStores(y: Layout, h: Memory, cells: seq<Cell>, h': Memory, c: Cell)
    requires Stores(y, h, cells) && Full(y, h', c) && c.objectPtr == Some(h.constructed)
    requires h' == Construct(h, h'.live[h.constructed])
    ensures Stores(y, h', cells + [c]) && Values(h', cells + [c]) == Values(h, cells) + [ValueOf(h', c)]
  {
    var all := cells + [c];
    forall i | 0 <= i < |cells| ensures Full(y, h', all[i]) && ValueOf(h', all[i]) == ValueOf(h, cells[i]) {
      StaysFull(y, h, h', cells[i]);
    }
    assert all[|cells|] == c;
    forall i | 0 <= i < |cells|
      ensures exists k :: 0 <= k < |all| && all[k].objectPtr == cells[i].objectPtr
    {
      assert all[i] == cells[i];
    }
    OwnedAfter(h, cells, h', all, None);
  }

  /** The other cells do not notice. */
  lemma {:induction false} OthersFull(y: Layout, h: Memory, cells: seq<Cell>, i: nat, h': Memory, k: nat)
    requires AllFull(y, h, cells) && Apart(cells) && Issued(h) && i < |cells| && k < |cells| && k != i
    requires cells[i].objectPtr.Some?
    requires forall id: nat :: id < h.constructed && id != cells[i].objectPtr.value && id in h.live ==>
      id in h'.live && h'.live[id] == h.live[id]
    ensures Full(y, h', cells[k]) && ValueOf(h', cells[k]) == ValueOf(h, cells[k])
  {
    assert cells[k].objectPtr != cells[i].objectPtr && Full(y, h, cells[k]);
    StaysFull(y, h, h', cells[k]);
  }

  lemma {:induction false} OwnedByMove(h: Memory, cells: seq<Cell>, i: nat, h': Memory, c: Cell)
    requires Owned(h, cells) && i < |cells| && cells[i].objectPtr.Some? && c.objectPtr == Some(h.constructed)
    requires forall id :: id in h'.live ==> id != cells[i].objectPtr.value && (id in h.live || id == h.constructed)
    ensures Owned(h', cells[i := c])
  {
    var all := cells[i := c];
    assert all[i] == c;
    forall k | 0 <= k < |cells| && cells[k].objectPtr != cells[i].objectPtr
      ensures exists j :: 0 <= j < |all| && all[j].objectPtr == cells[k].objectPtr
    {
      assert all[k] == cells[k];
    }
    OwnedAfter(h, cells, h', all, cells[i].objectPtr);
  }

  /** Moving one object to a new cell keeps all the rest, and the object's value. */
  lemma {:induction false} MoveStores(y: Layout, h: Memory, cells: seq<Cell>, i: nat, base: nat)
    requires Stores(y, h, cells) && i < |cells| && y.maxAlign > 0 && base % y.maxAlign == 0
    ensures Movable(y, h, EmptyCell(base), cells[i])
    ensures var (h', c, _) := AssignMove(y, h, EmptyCell(base), cells[i]);
      && Stores(y, h', cells[i := c]) && Values(h', cells[i := c]) == Values(h, cells)
      && (c.aligned.Some? <==> cells[i].aligned.Some?)
      && (c.aligned.Some? ==> c.aligned.value - base == cells[i].aligned.value - cells[i].base)
  {
    MovedIsFull(y, h, base, cells[i]);
    var (h', c, _) := AssignMove(y, h, EmptyCell(base), cells[i]);
    var all := cells[i := c];
    var h2 := Construct(h, h'.live[h.constructed]);
    assert Accounted(h2);
    EndOne(h2, h', cells[i].objectPtr.value);
    forall k | 0 <= k < |cells| && k != i ensures Full(y, h', all[k]) && ValueOf(h', all[k]) == ValueOf(h, cells[k]) {
      OthersFull(y, h, cells, i, h', k);
    }
    OwnedByMove(h, cells, i, h', c);
  }

  lemma {:induction false} RestFull(y: Layout, h: Memory, cells: seq<Cell>, h': Memory, k: nat)
    requires AllFull(y, h, cells) && Apart(cells) && 0 < k < |cells|
    requires h'.live == h.live - {cells[0].objectPtr.value}
    ensures Full(y, h', cells[k]) && ValueOf(h', cells[k]) == ValueOf(h, cells[k])
  {
    assert cells[0].objectPtr != cells[k].objectPtr;
    assert Full(y, h, cells[0]);
    StaysFull(y, h, h', cells[k]);
  }

  /** Destroying the first cell ends exactly its object. */
  lemma {:induction false} DropStores(y: Layout, h: Memory, cells: seq<Cell>)
    requires Stores(y, h, cells) && cells != []
    ensures Destroyable(h, cells[0])
    ensures Stores(y, Destroy(h, cells[0]).0, cells[1..])
    ensures Values(Destroy(h, cells[0]).0, cells[1..]) == Values(h, cells)[1..]
  {
    assert Full(y, h, cells[0]);
    var h', id, rest := Destroy(h, cells[0]).0, cells[0].objectPtr.value, cells[1..];
    EndOne(h, h', id);
    RestIsFull(y, h, cells, h');
    RestOwned(h, cells, h');
    RestApart(cells);
  }

  lemma {:induction false} RestIsFull(y: Layout, h: Memory, cells: seq<Cell>, h': Memory)
    requires AllFull(y, h, cells) && Apart(cells) && cells != [] && cells[0].objectPtr.Some?
    requires h'.live == h.live - {cells[0].objectPtr.value}
    ensures AllFull(y, h', cells[1..]) && Values(h', cells[1..]) == Values(h, cells)[1..]
  {
    var rest := cells[1..];
    forall k | 0 <= k < |rest| ensures Full(y, h', rest[k]) && ValueOf(h', rest[k]) == Values(h, cells)[1..][k] {
      RestFull(y, h, cells, h', k + 1);
    }
  }

  lemma {:induction false} RestApart(cells: seq<Cell>)
    requires Apart(cells) && cells != []
    ensures Apart(cells[1..])
  {
    forall i, j | 0 <= i < j < |cells[1..]| ensures cells[1..][i].objectPtr != cells[1..][j].objectPtr {
      assert cells[1..][i] == cells[i + 1] && cells[1..][j] == cells[j + 1];
    }
  }

  lemma {:induction false} RestOwned(h: Memory, cells: seq<Cell>, h': Memory)
    requires Owned(h, cells) && cells != [] && cells[0].objectPtr.Some?
    requires h'.live == h.live - {cells[0].objectPtr.value}
    ensures Owned(h', cells[1..])
  {
    forall id | id in h'.live ensures exists i :: 0 <= i < |cells[1..]| && cells[1..][i].objectPtr == Some(id) {
      var i :| 0 <= i < |cells| && cells[i].objectPtr == Some(id);
      assert cells[1..][i - 1] == cells[i];
    }
  }

  // ---------- The buffers of an executor ----------

  ghost predicate Based(y: Layout, bases: seq<nat>) {
    y.maxAlign > 0 && forall i :: 0 <= i < |bases| ==> bases[i] % y.maxAlign == 0
  }

  ghost function MoveOne(y: Layout, h: Memory, cells: seq<Cell>, i: nat, base: nat): (r: (Memory, seq<Cell>))
    requires Stores(y, h, cells) && i < |cells| && y.maxAlign > 0 && base % y.maxAlign == 0
    ensures Stores(y, r.0, r.1) && Values(r.0, r.1) == Values(h, cells)
    ensures |r.1| == |cells| && r.1[..i] == cells[..i]
  {
    MoveStores(y, h, cells, i, base);
    var (h', c, _) := AssignMove(y, h, EmptyCell(base), cells[i]);
    (h', cells[i := c])
  }

  /** A vector that grows moves its cells, one by one, to a new place: here the first n of those from `first`. */
  ghost function MoveAll(y: Layout, h: Memory, cells: seq<Cell>, first: nat, bases: seq<nat>, n: nat)
    : (r: (Memory, seq<Cell>))
    requires Stores(y, h, cells) && Based(y, bases) && n <= |bases| && first + n <= |cells|
    ensures Stores(y, r.0, r.1) && Values(r.0, r.1) == Values(h, cells)
    ensures |r.1| == |cells| && r.1[..first] == cells[..first]
    decreases n
  {
    if n == 0 then (h, cells)
    else
      var (h1, cells1) := MoveAll(y, h, cells, first, bases, n - 1);
      MoveOne(y, h1, cells1, first + n - 1, bases[n - 1])
  }

  ghost function DestroyAll(y: Layout, h: Memory, cells: seq<Cell>, n: nat): (r: Memory)
    requires Stores(y, h, cells) && n <= |cells|
    ensures Stores(y, r, cells[n..]) && Values(r, cells[n..]) == Values(h, cells)[n..]
    decreases n
  {
    if n == 0 then h
    else
      DropStores(y, h, cells);
      assert cells[1..][n - 1..] == cells[n..] && Values(h, cells)[1..][n - 1..] == Values(h, cells)[n..];
      DestroyAll(y, Destroy(h, cells[0]).0, cells[1..], n - 1)
  }

  /** Both buffers of an executor; the consumer is idle, or about to run the task at `next`; the values
      enqueued and those that tasks have been given, so far. */
  datatype Buffers = Buffers(h: Memory, items: seq<Cell>, back: seq<Cell>, next: Option<nat>,
                             appended: seq<Value>, given: seq<Value>)

  datatype Op =
    | Enqueue(t: Type, v: Value, base: nat, moved: Option<seq<nat>>)
    | Swap
    | RunNext
    | Clear

  /** The vector may grow whenever something is enqueued. */
  ghost predicate Can(y: Layout, b: Buffers, op: Op) {
    match op
    case Enqueue(t, _, base, moved) =>
      && Sane(y, t) && base % y.maxAlign == 0 && (moved.Some? ==> Based(y, moved.value) && |moved.value| == |b.items|)
    case Swap => b.next.None?
    case RunNext => b.next.Some? && b.next.value < |b.back|
    case Clear => b.next == Some(|b.back|)
  }

  /** Outside the lock every stored cell holds an object, the back buffer is empty while the consumer is
      idle, and what was enqueued is what was given to tasks, then the rest of the back buffer, then the
      items. */
  ghost predicate Good(y: Layout, b: Buffers) {
    && Stores(y, b.h, b.back + b.items)
    && (b.next.None? ==> b.back == [])
    && (b.next.Some? ==> b.next.value <= |b.back|)
    && b.appended == b.given + Values(b.h, b.back + b.items)[if b.next.Some? then b.next.value else 0..]
  }

  ghost function Grown(y: Layout, b: Buffers, moved: Option<seq<nat>>): (r: (Memory, seq<Cell>))
    requires Good(y, b) && (moved.Some? ==> Based(y, moved.value) && |moved.value| == |b.items|)
    ensures Stores(y, r.0, r.1) && Values(r.0, r.1) == Values(b.h, b.back + b.items) && r.1[..|b.back|] == b.back
  {
    if moved.None? then (b.h, b.back + b.items) else MoveAll(y, b.h, b.back + b.items, |b.back|, moved.value, |b.items|)
  }

  /** After the vector has grown, a new cell is put at its end and filled. */
  function Enqueued(y: Layout, b: Buffers, grown: (Memory, seq<Cell>), t: Type, v: Value, base: nat): Buffers
    requires |b.back| <= |grown.1| && t.align > 0
  {
    var (h, c) := AssignValue(y, grown.0, EmptyCell(base), t, v);
    b.(h := h, items := grown.1[|b.back|..] + [c], appended := b.appended + [v])
  }

  ghost function Next(y: Layout, b: Buffers, op: Op): Buffers
    requires Good(y, b) && Can(y, b, op)
  {
    match op
    case Enqueue(t, v, base, moved) => Enqueued(y, b, Grown(y, b, moved), t, v, base)
    case Swap => b.(items := b.back, back := b.items, next := Some(0))
    case RunNext =>
      b.(next := Some(b.next.value + 1), given := b.given + [ValueOf(b.h, b.back[b.next.value])])
    case Clear => b.(h := DestroyAll(y, b.h, b.back + b.items, |b.back|), back := [], next := None)
  }

  lemma {:induction false} EnqueuedStores(y: Layout, h: Memory, all: seq<Cell>, back: seq<Cell>, t: Type,
          x: Value, base: nat)
    requires Stores(y, h, all) && |back| <= |all| && all[..|back|] == back
    requires Sane(y, t) && base % y.maxAlign == 0
    ensures var (h', c) := AssignValue(y, h, EmptyCell(base), t, x);
      var all' := back + (all[|back|..] + [c]);
      Stores(y, h', all') && Values(h', all') == Values(h, all) + [x]
  {
    AddStores(y, h, all, base, t, x);
    assert back + (all[|back|..] + [AssignValue(y, h, EmptyCell(base), t, x).1])
        == all + [AssignValue(y, h, EmptyCell(base), t, x).1];
  }

  lemma {:induction false} AppendQueued(given: seq<Value>, values: seq<Value>, x: Value, k: nat)
    requires k <= |values|
    ensures given + values[k..] + [x] == given + (values + [x])[k..]
  {
    assert (values + [x])[k..] == values[k..] + [x];
  }

  lemma {:induction false} EnqueueIsGood(y: Layout, b: Buffers, grown: (Memory, seq<Cell>), t: Type, x: Value,
          base: nat)
    requires Good(y, b) && Stores(y, grown.0, grown.1) && Values(grown.0, grown.1) == Values(b.h, b.back + b.items)
    requires grown.1[..|b.back|] == b.back && Sane(y, t) && base % y.maxAlign == 0
    ensures Good(y, Enqueued(y, b, grown, t, x, base))
  {
    EnqueuedStores(y, grown.0, grown.1, b.back, t, x, base);
    AppendQueued(b.given, Values(b.h, b.back + b.items), x, if b.next.Some? then b.next.value else 0);
  }

  lemma {:induction false} SwapIsGood(y: Layout, b: Buffers)
    requires Good(y, b) && Can(y, b, Swap)
    ensures Good(y, Next(y, b, Swap))
  {
    var v := Next(y, b, Swap);
    assert v.back + v.items == b.back + b.items;
  }

  lemma {:induction false} TakeOne(given: seq<Value>, values: seq<Value>, i: nat)
    requires i < |values|
    ensures given + [values[i]] + values[i + 1..] == given + values[i..]
  {
    assert values[i..] == [values[i]] + values[i + 1..];
  }

  lemma {:induction false} RunNextIsGood(y: Layout, b: Buffers)
    requires Good(y, b) && Can(y, b, RunNext)
    ensures Good(y, Next(y, b, RunNext))
  {
    var all, i := b.back + b.items, b.next.value;
    assert all[i] == b.back[i];
    TakeOne(b.given, Values(b.h, all), i);
  }

  lemma {:induction false} ClearedIsGood(y: Layout, b: Buffers, h: Memory)
    requires Stores(y, h, b.items) && b.appended == b.given + Values(h, b.items)
    ensures Good(y, b.(h := h, back := [], next := None))
  {
    assert [] + b.items == b.items && Values(h, b.items)[0..] == Values(h, b.items);
  }

  lemma {:induction false} ClearIsGood(y: Layout, b: Buffers)
    requires Good(y, b) && Can(y, b, Clear)
    ensures Good(y, Next(y, b, Clear))
  {
    var all := b.back + b.items;
    assert all[|b.back|..] == b.items;
    ClearedIsGood(y, b, DestroyAll(y, b.h, all, |b.back|));
  }

  lemma {:induction false} NextIsGood(y: Layout, b: Buffers, op: Op)
    requires Good(y, b) && Can(y, b, op)
    ensures Good(y, Next(y, b, op))
  {
    match op
    case Enqueue(t, x, base, moved) => EnqueueIsGood(y, b, Grown(y, b, moved), t, x, base);
    case Swap => SwapIsGood(y, b);
    case RunNext => RunNextIsGood(y, b);
    case Clear => ClearIsGood(y, b);
  }

  function Start(): Buffers {
    Buffers(Memory(map[], 0, []), [], [], None, [], [])
  }

  /** Any sequence of operations; one that cannot be taken is skipped. */
  ghost function Run(y: Layout, ops: seq<Op>): (b: Buffers)
    ensures Good(y, b)
    decreases |ops|
  {
    if ops == [] then
      Start()
    else
      var n := |ops| - 1;
      var b := Run(y, ops[..n]);
      if Can(y, b, ops[n]) then
        NextIsGood(y, b, ops[n]);
        Next(y, b, ops[n])
      else b
  }

  /** Whatever is enqueued, however often the buffers grow, are swapped, run and cleared: each payload that
      was constructed is alive in exactly one non-empty cell or was destroyed exactly once, so that the
      number constructed less the number destroyed is the number of cells; no precondition that the code
      leaves unchecked is ever violated on the way; and the tasks get the values that were enqueued for
      them, in that order. */
  lemma {:induction false} PayloadsAccounted(y: Layout, ops: seq<Op>)
    ensures var b := Run(y, ops);
      var cells := b.back + b.items;
      && b.h.constructed - |b.h.destroyed| == |cells|
      && (forall id: nat :: id < b.h.constructed ==>
            ((id in b.h.destroyed) <==> !(exists i :: 0 <= i < |cells| && cells[i].objectPtr == Some(id))))
      && Distinct(b.h.destroyed) && Apart(cells) && AllFull(y, b.h, cells)
      && b.given <= b.appended
  {
    var b := Run(y, ops);
    var cells := b.back + b.items;
    forall id: nat | id < b.h.constructed
      ensures (id in b.h.destroyed) <==> !(exists i :: 0 <= i < |cells| && cells[i].objectPtr == Some(id))
    {
      if i :| 0 <= i < |cells| && cells[i].objectPtr == Some(id) {
        assert Full(y, b.h, cells[i]);
      }
    }
  }

  /** Once the consumer is idle and nothing is queued, every payload has been given to its task and
      destroyed. */
  lemma {:induction false} DrainedLeavesNothing(y: Layout, ops: seq<Op>)
    requires Run(y, ops).next.None? && Run(y, ops).items == []
    ensures var b := Run(y, ops);
      b.h.live == map[] && |b.h.destroyed| == b.h.constructed && b.given == b.appended
  {
    var b := Run(y, ops);
    assert b.back + b.items == [];
    assert Owned(b.h, []);
  }
}
