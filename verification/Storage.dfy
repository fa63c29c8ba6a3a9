/**
 * Where queued payloads live (fixed_any.h): inside a cell if the payload and its alignment surely fit, on the
 * heap otherwise. The memory keeps account of every payload object ever constructed and destroyed.
 */
module Storage {

  type ObjectId = nat
  type Value = nat

  /** The size of a cell's storage, and the alignment that every storage address has. */
  datatype Layout = Layout(length: nat, maxAlign: nat)

  datatype Type = Type(id: nat, size: nat, align: nat)

  predicate Sane(y: Layout, t: Type) {
    y.maxAlign > 0 && t.align > 0 && y.maxAlign % t.align == 0
  }

  // ---------- Alignment ----------

  /** The first aligned address from b on. */
  function AlignUp(b: nat, align: nat): nat
    requires align > 0
  {
    if b % align == 0 then b else b + (align - b % align)
  }

  predicate Inside(p: nat, size: nat, b: nat, length: nat) {
    b <= p && p + size <= b + length
  }

  lemma {:induction false} AlignUpAligns(b: nat, align: nat)
    requires align > 0
    ensures AlignUp(b, align) % align == 0 && b <= AlignUp(b, align) < b + align
  {
    var q, r := b / align, b % align;
    assert b == q * align + r;
    if r != 0 {
      assert b + (align - r) == (q + 1) * align;
      MultipleAligned(q + 1, align);
    }
  }

  lemma {:induction false} NotNegative(a: nat, b: nat)
    ensures a * b >= 0
  {
  }

  lemma {:induction false} OneMore(a: int, b: int)
    ensures (a + 1) * b == a * b + b && (-a - 1) * b == (0 - a * b) - b
  {
  }

  lemma {:induction false} MultiplesApart(d: int, align: nat)
    requires align > 0 && d != 0
    ensures d * align >= align || d * align <= -(align as int)
  {
    if d > 0 {
      NotNegative(d - 1, align);
      OneMore(d - 1, align);
    } else {
      NotNegative(-d - 1, align);
      OneMore(-d - 1, align);
    }
  }

  lemma {:induction false} MultipleAligned(q: nat, align: nat)
    requires align > 0
    ensures (q * align) % align == 0
  {
    var x := q * align;
    var d := q - x / align;
    assert d * align == x % align;
    if d != 0 {
      MultiplesApart(d, align);
    }
  }

  lemma {:induction false} SmallRemainder(a: nat, b: nat)
    requires a < b
    ensures a % b == a
  {
  }

  /** The bound that decides for inline storage is exact: it holds if and only if, at every address, the
      first aligned place leaves room for the object. */
  lemma {:induction false} InlineBoundExact(size: nat, align: nat, length: nat)
    requires align > 0
    ensures size + align - 1 <= length <==> forall b: nat :: Inside(AlignUp(b, align), size, b, length)
  {
    forall b: nat ensures AlignUp(b, align) % align == 0 && b <= AlignUp(b, align) < b + align {
      AlignUpAligns(b, align);
    }
    if size + align - 1 > length {
      assert AlignUp(1, align) == align;
      assert !Inside(AlignUp(1, align), size, 1, length);
    }
  }

  lemma {:induction false} SumAligned(a: nat, b: nat, align: nat)
    requires align > 0 && a % align == 0 && b % align == 0
    ensures (a + b) % align == 0
  {
    var p, q := a / align, b / align;
    assert a + b == (p + q) * align;
    MultipleAligned(p + q, align);
  }

  lemma {:induction false} DifferenceAligned(a: nat, b: nat, align: nat)
    requires align > 0 && a % align == 0 && b % align == 0 && b <= a
    ensures (a - b) % align == 0
  {
    var p, q := a / align, b / align;
    assert a - b == (p - q) * align;
    assert p >= q;
    MultipleAligned(p - q, align);
  }

  lemma {:induction false} DividesThrough(b: nat, m: nat, align: nat)
    requires align > 0 && m > 0 && m % align == 0 && b % m == 0
    ensures b % align == 0
  {
    var p, q := b / m, m / align;
    assert b == p * m == p * (q * align) == (p * q) * align;
    MultipleAligned(p * q, align);
  }

  /** The storages of a chain of moves, and where the object is in each. */
  function Rebase(p: nat, from: nat, to: nat): nat
    requires from <= p
  {
    to + (p - from)
  }

  function RebaseAll(p: nat, bases: seq<nat>): nat
    requires bases != [] && bases[0] <= p
    decreases |bases|
  {
    if |bases| == 1 then p else RebaseAll(Rebase(p, bases[0], bases[1]), bases[1..])
  }

  /** Moving an object by its offset, any number of times between storages that are aligned to maxAlign,
      keeps it aligned and inside, provided its alignment divides maxAlign. */
  lemma {:induction false} ChainStaysAligned(y: Layout, t: Type, p: nat, bases: seq<nat>)
    requires Sane(y, t) && bases != [] && forall i :: 0 <= i < |bases| ==> bases[i] % y.maxAlign == 0
    requires p % t.align == 0 && Inside(p, t.size, bases[0], y.length)
    ensures var q := RebaseAll(p, bases);
      q % t.align == 0 && Inside(q, t.size, bases[|bases| - 1], y.length)
    decreases |bases|
  {
    if |bases| > 1 {
      RebaseAligned(y, t, p, bases[0], bases[1]);
      ChainStaysAligned(y, t, Rebase(p, bases[0], bases[1]), bases[1..]);
    }
  }

  lemma {:induction false} RebaseAligned(y: Layout, t: Type, p: nat, from: nat, to: nat)
    requires Sane(y, t) && from % y.maxAlign == 0 && to % y.maxAlign == 0 && p % t.align == 0 && from <= p
    ensures Rebase(p, from, to) % t.align == 0
  {
    DividesThrough(from, y.maxAlign, t.align);
    DividesThrough(to, y.maxAlign, t.align);
    DifferenceAligned(p, from, t.align);
    SumAligned(to, p - from, t.align);
  }

  /** That condition is needed: moves between all storages keep an object aligned exactly when its alignment
      divides maxAlign. */
  lemma {:induction false} RebasingExact(maxAlign: nat, align: nat)
    requires maxAlign > 0 && align > 0
    ensures maxAlign % align == 0 <==>
      forall p: nat, from: nat, to: nat ::
        p % align == 0 && from % maxAlign == 0 && to % maxAlign == 0 && from <= p ==> Rebase(p, from, to) % align == 0
  {
    if maxAlign % align == 0 {
      forall p: nat, from: nat, to: nat | p % align == 0 && from % maxAlign == 0 && to % maxAlign == 0 && from <= p
        ensures Rebase(p, from, to) % align == 0
      {
        RebaseAligned(Layout(0, maxAlign), Type(0, 0, align), p, from, to);
      }
    } else {
      assert Rebase(0, 0, maxAlign) == maxAlign;
      MultipleAligned(0, maxAlign);
    }
  }

  function Power(n: nat): nat {
    if n == 0 then 1 else 2 * Power(n - 1)
  }

  /** Alignments are powers of two, so up to the maximal one, and no further, they all divide it. */
  lemma {:induction false} PowersDivide(m: nat, n: nat)
    ensures Power(n) > 0 && (Power(m) % Power(n) == 0 <==> n <= m)
  {
    PowerPositive(m);
    PowerPositive(n);
    if n > m {
      PowerGrows(m, n);
      SmallRemainder(Power(m), Power(n));
    } else {
      PowersMultiply(m - n, n);
      MultipleAligned(Power(m - n), Power(n));
    }
  }

  lemma {:induction false} PowersMultiply(k: nat, n: nat)
    ensures Power(k + n) == Power(k) * Power(n)
  {
    if k > 0 {
      PowersMultiply(k - 1, n);
    }
  }

  lemma {:induction false} PowerPositive(n: nat)
    ensures Power(n) > 0
  {
    if n > 0 {
      PowerPositive(n - 1);
    }
  }

  lemma {:induction false} PowerGrows(m: nat, n: nat)
    requires m < n
    ensures 0 < Power(m) < Power(n)
  {
    PowerPositive(m);
    if m + 1 < n {
      PowerGrows(m, n - 1);
    }
  }
}
