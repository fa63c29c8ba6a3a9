/** Names shared by every part of the model. */
module Common {

  datatype Option<+T> = None | Some(value: T)

  // Executors, components and messages are known to the model by their identity alone.
  type ExecId = nat
  type CompId = nat
  type MsgId = nat

  /** The executor a query runs on: the override given when it was published, else the component's own. */
  function EffectiveExecutor(executorOverride: Option<ExecId>, defaultExecutor: ExecId): ExecId {
    match executorOverride
    case Some(e) => e
    case None => defaultExecutor
  }

  /** What `f` picks out of each element of `s`, in order. */
  function FlatMap<T, U>(s: seq<T>, f: T -> seq<U>): seq<U> {
    if s == [] then [] else f(s[0]) + FlatMap(s[1..], f)
  }

  lemma {:induction false} FlatMapConcat<T, U>(a: seq<T>, b: seq<T>, f: T -> seq<U>)
    ensures FlatMap(a + b, f) == FlatMap(a, f) + FlatMap(b, f)
  {
    if a == [] {
      assert a + b == b;
    } else {
      assert (a + b)[1..] == a[1..] + b;
      FlatMapConcat(a[1..], b, f);
    }
  }

  lemma {:induction false} FlatMapOne<T, U>(x: T, f: T -> seq<U>)
    ensures FlatMap([x], f) == f(x)
  {
    assert FlatMap([x], f) == f(x) + FlatMap([], f);
  }

  lemma {:induction false} FlatMapAppend<T, U>(a: seq<T>, x: T, f: T -> seq<U>)
    ensures FlatMap(a + [x], f) == FlatMap(a, f) + f(x)
  {
    FlatMapConcat(a, [x], f);
    FlatMapOne(x, f);
  }
}
