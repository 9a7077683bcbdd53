/** Shared vocabulary: optional values, bytes, and sums of weights over sequences. */
module Base {

  datatype Option<+T> = None | Some(value: T)

  datatype Result<+T, +E> = Ok(value: T) | Err(error: E)

  type byte = x: int | 0 <= x < 256

  function Max(a: int, b: int): int {
    if a < b then b else a
  }

  function Min(a: int, b: int): int {
    if a < b then a else b
  }

  /** Two to the power of the number of bits. */
  function Power2(bits: nat): (n: nat)
    ensures n >= 1
  {
    if bits == 0 then 1 else 2 * Power2(bits - 1)
  }

  /** The sum of the weights of the elements of a sequence. */
  function Total<T>(xs: seq<T>, weight: T -> nat): nat {
    if xs == [] then 0 else weight(xs[0]) + Total(xs[1..], weight)
  }

  /** Overwriting one element changes the sum by the difference of its weights. */
  lemma {:induction false} TotalUpdate<T>(xs: seq<T>, weight: T -> nat, k: nat, x: T)
    requires k < |xs|
    ensures Total(xs[k := x], weight) + weight(xs[k]) == Total(xs, weight) + weight(x)
  {
    var ys := xs[k := x];
    if k == 0 {
      assert ys[1..] == xs[1..];
    } else {
      assert ys[1..] == xs[1..][k - 1 := x];
      TotalUpdate(xs[1..], weight, k - 1, x);
    }
  }

  lemma {:induction false} TotalAppend<T>(xs: seq<T>, weight: T -> nat, x: T)
    ensures Total(xs + [x], weight) == Total(xs, weight) + weight(x)
  {
    if xs == [] {
      assert xs + [x] == [x];
    } else {
      assert (xs + [x])[1..] == xs[1..] + [x];
      TotalAppend(xs[1..], weight, x);
    }
  }

  /** Weights that are pointwise bounded have a bounded sum. */
  lemma {:induction false} TotalBound<T>(xs: seq<T>, weight: T -> nat, bound: nat)
    requires forall i :: 0 <= i < |xs| ==> weight(xs[i]) <= bound
    ensures Total(xs, weight) <= bound * |xs|
  {
    if xs == [] {
    } else {
      TotalBound(xs[1..], weight, bound);
    }
  }

  lemma Associates<T>(a: seq<T>, b: seq<T>, c: seq<T>)
    ensures a + b + c == a + (b + c)
  {
  }
}
