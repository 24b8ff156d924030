/** Kotlin's `filterNotNull` on lists, with the facts the use cases rely on. */
module Collections {
  import opened Wrappers

  /** Kotlin's `filterNotNull`: the present values, in order. */
  function FilterNotNull<T>(xs: seq<Option<T>>): (ys: seq<T>)
    ensures |ys| <= |xs|
  {
    if xs == [] then []
    else if xs[0].Some? then [xs[0].value] + FilterNotNull(xs[1..])
    else FilterNotNull(xs[1..])
  }

  lemma {:induction false} FilterNotNullAppend<T>(xs: seq<Option<T>>, ys: seq<Option<T>>)
    ensures FilterNotNull(xs + ys) == FilterNotNull(xs) + FilterNotNull(ys)
  {
    if xs == [] {
      assert xs + ys == ys;
    } else {
      assert (xs + ys)[0] == xs[0] && (xs + ys)[1..] == xs[1..] + ys;
      FilterNotNullAppend(xs[1..], ys);
    }
  }

  /** The present value of `x`, as a list of zero or one elements. */
  function Present<T>(x: Option<T>): seq<T> {
    if x.Some? then [x.value] else []
  }

  /** The result splits around position `i`: what comes before, `xs[i]` if present, what comes after. */
  lemma {:induction false} FilterNotNullAround<T>(xs: seq<Option<T>>, i: nat)
    requires i < |xs|
    ensures FilterNotNull(xs) == FilterNotNull(xs[..i]) + Present(xs[i]) + FilterNotNull(xs[i + 1..])
  {
    if i == 0 {
      assert xs[..0] == [];
    } else {
      FilterNotNullAround(xs[1..], i - 1);
      assert xs[..i][0] == xs[0] && xs[..i][1..] == xs[1..][..i - 1];
      assert xs[1..][i - 1] == xs[i] && xs[1..][i..] == xs[i + 1..];
    }
  }

  /**
   * Where each kept value comes from: the `k`-th value is `xs[origins[k]]`, and
   * these positions increase, so the values keep their order.
   */
  lemma {:induction false} FilterNotNullOrigins<T>(xs: seq<Option<T>>) returns (origins: seq<nat>)
    ensures |origins| == |FilterNotNull(xs)|
    ensures forall k :: 0 <= k < |origins| ==>
      origins[k] < |xs| && xs[origins[k]] == Some(FilterNotNull(xs)[k])
    ensures forall k, l :: 0 <= k < l < |origins| ==> origins[k] < origins[l]
  {
    if xs == [] {
      return [];
    }
    var tail := FilterNotNullOrigins(xs[1..]);
    var shifted := Shift(tail);
    if xs[0].Some? {
      origins := [0] + shifted;
    } else {
      origins := shifted;
    }
  }

  /** Every position moved one place to the right. */
  function Shift(ps: seq<nat>): (qs: seq<nat>)
    ensures |qs| == |ps|
    ensures forall k :: 0 <= k < |ps| ==> qs[k] == ps[k] + 1
  {
    if ps == [] then [] else [ps[0] + 1] + Shift(ps[1..])
  }

  /** When every value is present nothing is dropped. */
  lemma {:induction false} FilterNotNullAllPresent<T>(xs: seq<Option<T>>)
    requires forall i :: 0 <= i < |xs| ==> xs[i].Some?
    ensures |FilterNotNull(xs)| == |xs|
    ensures forall i :: 0 <= i < |xs| ==> FilterNotNull(xs)[i] == xs[i].value
  {
    if xs != [] {
      FilterNotNullAllPresent(xs[1..]);
    }
  }
}
