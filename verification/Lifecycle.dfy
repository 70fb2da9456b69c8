/** Lifecycle states and the small result types shared by every layer. */
module Lifecycle {

  datatype Option<+T> = None | Some(value: T)

  datatype LifecycleState = UNLOADED | UNCONFIGURED | INACTIVE | ACTIVE | ERROR

  /** The error a continue-after-errors loop finally raises: the earliest one. */
  function First<E>(a: Option<E>, b: Option<E>): Option<E> {
    if a.Some? then a else b
  }

  function Reverse<T>(s: seq<T>): (r: seq<T>)
    ensures |r| == |s|
  {
    if s == [] then [] else Reverse(s[1..]) + [s[0]]
  }

  lemma ReverseAppend<T>(a: seq<T>, b: seq<T>)
    ensures Reverse(a + b) == Reverse(b) + Reverse(a)
  {
    if a == [] {
      assert a + b == b;
    } else {
      assert (a + b)[1..] == a[1..] + b;
      ReverseAppend(a[1..], b);
    }
  }
}
