/**
 * The objects of fixed_any.h and the vector of tasks of executor.h as they change in place, proved against
 * the functions of Cells.
 */
module FixedAnys {
  import opened Common
  import opened Storage
  import Cells

  /** Constructors and destructors of payloads, counted. */
  class Heap {
    var live: map<ObjectId, Cells.Object>
    var constructed: nat
    ghost var destroyed: seq<ObjectId>

    ghost function View(): Cells.Memory
      reads this
    {
      Cells.Memory(live, constructed, destroyed)
    }

    constructor ()
      ensures View() == Cells.Start().h
    {
      live, constructed, destroyed := map[], 0, [];
    }

    method New(o: Cells.Object) returns (id: ObjectId)
      modifies this
      ensures id == old(constructed) && View() == Cells.Construct(old(View()), o)
    {
      id := constructed;
      live := live[id := o];
      constructed := constructed + 1;
    }

    method Delete(id: ObjectId)
      requires id in live && Cells.Checked(live[id])
      modifies this
      ensures View() == Cells.Destruct(old(View()), id)
    {
      live := live - {id};
      destroyed := destroyed + [id];
    }
  }

  class FixedAny {
    const layout: Layout
    const heap: Heap
    const base: nat
    var alignedPtr: Option<nat>
    var objectPtr: Option<ObjectId>
    var held: Option<Type>

    function View(): Cells.Cell
      reads this
    {
      Cells.Cell(base, alignedPtr, objectPtr, held)
    }

    constructor (layout: Layout, heap: Heap, base: nat)
      ensures this.layout == layout && this.heap == heap && View() == Cells.EmptyCell(base)
    {
      this.layout, this.heap, this.base := layout, heap, base;
      alignedPtr, objectPtr, held := None, None, None;
    }

    method Destroy()
      requires Cells.Destroyable(heap.View(), View())
      modifies this, heap
      ensures (heap.View(), View()) == Cells.Destroy(old(heap.View()), old(View()))
    {
      if objectPtr.None? {
        return;
      }
      heap.Delete(objectPtr.value);
      objectPtr := None;
      alignedPtr := None;
    }

    method AssignValue(t: Type, v: Value)
      requires Cells.Destroyable(heap.View(), View()) && t.align > 0
      modifies this, heap
      ensures (heap.View(), View()) == Cells.AssignValue(layout, old(heap.View()), old(View()), t, v)
      ensures alignedPtr.Some? <==> Cells.FitsAnywhere(layout, t)
      ensures alignedPtr.Some? ==> alignedPtr.value == AlignUp(base, t.align)
    {
      InlineBoundExact(t.size, t.align, layout.length);
      Destroy();
      if t.size + t.align - 1 <= layout.length {
        alignedPtr := Some(AlignUp(base, t.align));
      } else {
        alignedPtr := None;
      }
      var id := heap.New(Cells.Object(t, v, alignedPtr));
      objectPtr := Some(id);
      held := Some(t);
    }

    method AssignMove(other: FixedAny)
      requires other != this && other.heap == heap && other.layout == layout
      requires Cells.Movable(layout, heap.View(), View(), other.View())
      modifies this, other, heap
      ensures (heap.View(), View(), other.View())
           == Cells.AssignMove(layout, old(heap.View()), old(View()), old(other.View()))
      ensures alignedPtr.Some? <==> old(other.alignedPtr).Some?
      ensures alignedPtr.Some? ==> alignedPtr.value - base == old(other.alignedPtr).value - other.base
      ensures objectPtr.Some? && objectPtr.value in heap.live && old(other.objectPtr).value !in heap.live
      ensures heap.live[objectPtr.value].value == old(heap.live[other.objectPtr.value].value)
      ensures held == old(other.held) && other.objectPtr.None?
    {
      Destroy();
      if other.alignedPtr.Some? {
        alignedPtr := Some(base + (other.alignedPtr.value - other.base));
      } else {
        alignedPtr := None;
      }
      var source := heap.live[other.objectPtr.value];
      var id := heap.New(Cells.Moved(layout, source, alignedPtr));
      objectPtr := Some(id);
      other.Destroy();
      held := other.held;
      other.held := None;
    }
  }

  function Views(cells: seq<FixedAny>): (r: seq<Cells.Cell>)
    reads cells
    ensures |r| == |cells| && forall i :: 0 <= i < |cells| ==> r[i] == cells[i].View()
  {
    seq(|cells|, i requires 0 <= i < |cells| reads cells => cells[i].View())
  }

  lemma {:induction false} UpdateBehind(others: seq<Cells.Cell>, cells: seq<Cells.Cell>, k: nat, c: Cells.Cell)
    requires k < |cells|
    ensures (others + cells)[|others| + k := c] == others + cells[k := c] && (others + cells)[|others| + k] == cells[k]
  {
  }

  ghost predicate Distinct(cells: seq<FixedAny>) {
    forall i, j :: 0 <= i < j < |cells| ==> cells[i] != cells[j]
  }

  lemma {:induction false} UpdateViews(cells: seq<FixedAny>, was: seq<Cells.Cell>, k: nat, cell: FixedAny)
    requires |was| == |cells| && k < |cells|
    requires forall i :: 0 <= i < |cells| && i != k ==> cells[i].View() == was[i]
    ensures Views(cells[k := cell]) == was[k := cell.View()]
  {
  }

  lemma {:induction false} UpdateDistinct(cells: seq<FixedAny>, k: nat, cell: FixedAny)
    requires Distinct(cells) && cell !in cells && k < |cells|
    ensures Distinct(cells[k := cell])
  {
  }

  lemma {:induction false} RelocateBehind(y: Layout, h: Cells.Memory, others: seq<Cells.Cell>,
          cells: seq<Cells.Cell>, k: nat, base: nat)
    requires Cells.Stores(y, h, others + cells) && k < |cells| && y.maxAlign > 0 && base % y.maxAlign == 0
    ensures Cells.Movable(y, h, Cells.EmptyCell(base), cells[k])
    ensures var r := Cells.AssignMove(y, h, Cells.EmptyCell(base), cells[k]);
      && Cells.Stores(y, r.0, others + cells[k := r.1])
      && Cells.Values(r.0, others + cells[k := r.1]) == Cells.Values(h, others + cells)
  {
    var all, i := others + cells, |others| + k;
    assert all[i] == cells[k];
    Cells.MoveStores(y, h, all, i, base);
    var r := Cells.AssignMove(y, h, Cells.EmptyCell(base), all[i]);
    UpdateBehind(others, cells, k, r.1);
    assert Cells.Stores(y, r.0, all[i := r.1]);
  }

  lemma {:induction false} AppendBehind(y: Layout, h: Cells.Memory, others: seq<Cells.Cell>,
          cells: seq<Cells.Cell>, base: nat, t: Type, v: Value)
    requires Cells.Stores(y, h, others + cells) && Sane(y, t) && base % y.maxAlign == 0
    ensures var r := Cells.AssignValue(y, h, Cells.EmptyCell(base), t, v);
      && Cells.Stores(y, r.0, others + (cells + [r.1]))
      && Cells.Values(r.0, others + (cells + [r.1])) == Cells.Values(h, others + cells) + [v]
  {
    Cells.AddStores(y, h, others + cells, base, t, v);
    var r := Cells.AssignValue(y, h, Cells.EmptyCell(base), t, v);
    assert others + (cells + [r.1]) == others + cells + [r.1];
  }

  lemma {:induction false} AppendView(cells: seq<FixedAny>, was: seq<Cells.Cell>, cell: FixedAny)
    requires |was| == |cells| && forall i :: 0 <= i < |cells| ==> cells[i].View() == was[i]
    requires Distinct(cells) && cell !in cells
    ensures Views(cells + [cell]) == was + [cell.View()] && Distinct(cells + [cell])
  {
  }

  lemma {:induction false} DropFirst(y: Layout, h: Cells.Memory, cells: seq<Cells.Cell>,
          others: seq<Cells.Cell>, i: nat)
    requires i < |cells| && Cells.Stores(y, h, cells[i..] + others)
    ensures Cells.Destroyable(h, cells[i])
    ensures var r := Cells.Destroy(h, cells[i]);
      && Cells.Stores(y, r.0, cells[i + 1..] + others)
      && Cells.Values(r.0, cells[i + 1..] + others) == Cells.Values(h, cells[i..] + others)[1..]
      && |r.0.destroyed| == |h.destroyed| + 1
  {
    var all := cells[i..] + others;
    assert all[0] == cells[i] && all[1..] == cells[i + 1..] + others;
    assert Cells.Full(y, h, all[0]);
    Cells.DropStores(y, h, all);
    var r := Cells.Destroy(h, all[0]);
    assert Cells.Stores(y, r.0, all[1..]);
  }

  lemma {:induction false} DropAgain(values: seq<Value>, i: nat)
    requires i < |values|
    ensures values[i..][1..] == values[i + 1..]
  {
  }

  /** One of the two buffers. `others` are the cells of the other one. */
  class TaskVector {
    const layout: Layout
    const heap: Heap
    var cells: seq<FixedAny>

    ghost predicate Valid()
      reads this, cells
    {
      && (forall i :: 0 <= i < |cells| ==> cells[i].heap == heap && cells[i].layout == layout)
      && Distinct(cells)
    }

    constructor (layout: Layout, heap: Heap)
      ensures this.layout == layout && this.heap == heap && cells == [] && Valid()
    {
      this.layout, this.heap, cells := layout, heap, [];
    }

    /** Moves the k-th cell's object to a cell elsewhere, which takes its place. */
    method Relocate(k: nat, base: nat)
      requires Valid() && k < |cells|
      requires Cells.Movable(layout, heap.View(), Cells.EmptyCell(base), cells[k].View())
      modifies this, cells[k], heap
      ensures Valid() && |cells| == |old(cells)| && fresh(cells[k]) && cells[k].base == base
      ensures forall i :: 0 <= i < |cells| && i != k ==> cells[i] == old(cells[i])
      ensures var (h, c, _) := Cells.AssignMove(layout, old(heap.View()), Cells.EmptyCell(base), old(cells[k].View()));
        heap.View() == h && Views(cells) == old(Views(cells))[k := c]
    {
      ghost var was := Views(cells);
      var cell := new FixedAny(layout, heap, base);
      cell.AssignMove(cells[k]);
      UpdateDistinct(cells, k, cell);
      UpdateViews(cells, was, k, cell);
      cells := cells[k := cell];
    }

    /** That keeps every value, also those of the other buffer. */
    method RelocateAmong(k: nat, base: nat, ghost others: seq<Cells.Cell>)
      requires Valid() && k < |cells| && layout.maxAlign > 0 && base % layout.maxAlign == 0
      requires Cells.Stores(layout, heap.View(), others + Views(cells))
      modifies this, cells[k], heap
      ensures Valid() && |cells| == |old(cells)| && fresh(cells[k]) && cells[k].base == base
      ensures forall i :: 0 <= i < |cells| && i != k ==> cells[i] == old(cells[i])
      ensures Cells.Stores(layout, heap.View(), others + Views(cells))
      ensures Cells.Values(heap.View(), others + Views(cells)) == old(Cells.Values(heap.View(), others + Views(cells)))
      ensures heap.constructed == old(heap.constructed) + 1
    {
      RelocateBehind(layout, heap.View(), others, Views(cells), k, base);
      Relocate(k, base);
    }

    /** The vector grows: all its cells move, and every one keeps its value. */
    method Grow(bases: seq<nat>, ghost others: seq<Cells.Cell>)
      requires Valid() && |bases| == |cells| && Cells.Based(layout, bases)
      requires Cells.Stores(layout, heap.View(), others + Views(cells))
      modifies this, cells, heap
      ensures Valid() && fresh(cells) && |cells| == |bases|
      ensures forall i :: 0 <= i < |cells| ==> cells[i].base == bases[i]
      ensures Cells.Stores(layout, heap.View(), others + Views(cells))
      ensures Cells.Values(heap.View(), others + Views(cells)) == old(Cells.Values(heap.View(), others + Views(cells)))
      ensures heap.constructed == old(heap.constructed) + |bases|
    {
      for k := 0 to |bases|
        invariant Valid() && |cells| == |bases|
        invariant forall i :: 0 <= i < k ==> fresh(cells[i]) && cells[i].base == bases[i]
        invariant forall i :: k <= i < |cells| ==> cells[i] == old(cells[i])
        invariant Cells.Stores(layout, heap.View(), others + Views(cells))
        invariant Cells.Values(heap.View(), others + Views(cells))
               == old(Cells.Values(heap.View(), others + Views(cells)))
        invariant heap.constructed == old(heap.constructed) + k
      {
        RelocateAmong(k, bases[k], others);
      }
    }

    /** Appends a task's payload, after growing if the vector has no room. */
    method EmplaceBack(t: Type, v: Value, base: nat, moved: Option<seq<nat>>, ghost others: seq<Cells.Cell>)
      requires Valid() && Sane(layout, t) && base % layout.maxAlign == 0
      requires moved.Some? ==> |moved.value| == |cells| && Cells.Based(layout, moved.value)
      requires Cells.Stores(layout, heap.View(), others + Views(cells))
      modifies this, cells, heap
      ensures Valid() && |cells| == |old(cells)| + 1
      ensures Cells.Stores(layout, heap.View(), others + Views(cells))
      ensures Cells.Values(heap.View(), others + Views(cells))
           == old(Cells.Values(heap.View(), others + Views(cells))) + [v]
    {
      if moved.Some? {
        Grow(moved.value, others);
      }
      ghost var was := Views(cells);
      AppendBehind(layout, heap.View(), others, was, base, t, v);
      var cell := new FixedAny(layout, heap, base);
      cell.AssignValue(t, v);
      AppendView(cells, was, cell);
      cells := cells + [cell];
    }

    /** Destroys all payloads, and no other. */
    method Clear(ghost others: seq<Cells.Cell>)
      requires Valid() && Cells.Stores(layout, heap.View(), Views(cells) + others)
      modifies this, cells, heap
      ensures Valid() && cells == []
      ensures Cells.Stores(layout, heap.View(), others)
      ensures Cells.Values(heap.View(), others) == old(Cells.Values(heap.View(), Views(cells) + others))[|old(cells)|..]
      ensures |heap.destroyed| == |old(heap.destroyed)| + |old(cells)|
    {
      ghost var was, h := Views(cells), heap.View();
      assert was[0..] == was;
      for i := 0 to |cells|
        invariant cells == old(cells) && Valid()
        invariant forall j :: i <= j < |cells| ==> cells[j].View() == was[j]
        invariant Cells.Stores(layout, heap.View(), was[i..] + others)
        invariant Cells.Values(heap.View(), was[i..] + others) == Cells.Values(h, was + others)[i..]
        invariant |heap.destroyed| == |old(heap.destroyed)| + i
      {
        DropFirst(layout, heap.View(), was, others, i);
        DropAgain(Cells.Values(h, was + others), i);
        cells[i].Destroy();
      }
      assert was[|cells|..] + others == others;
      cells := [];
    }
  }
}
