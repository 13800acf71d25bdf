/**
  Sequence operations behind the list payload: `std::vector::resize` and the
  index normalisation shared by `slice` and `splice`.
 */
module ListOps {

  /** `v.resize(n)`: keep the first `n` elements, or extend with `fill`. */
  function Resize<T>(s: seq<T>, n: nat, fill: T): (r: seq<T>)
    ensures |r| == n
    ensures forall i :: 0 <= i < n ==> r[i] == if i < |s| then s[i] else fill
  {
    if n <= |s| then s[..n] else s + seq(n - |s|, _ => fill)
  }

  /** Growing and then shrinking back to the original size restores the sequence. */
  lemma ResizeBack<T>(s: seq<T>, n: nat, fill: T)
    requires n >= |s|
    ensures Resize(Resize(s, n, fill), |s|, fill) == s
  {
  }

  /**
    A position argument of `slice` or `splice` made into an index: a
    negative `x` counts from the end (`max(0, size + x)`), and the result is
    clamped to `size`.
   */
  function ClampIndex(x: int, size: nat): (r: nat)
    ensures r <= size
    ensures x >= 0 ==> r == if x <= size then x else size
    ensures x < 0 ==> r == if size + x >= 0 then size + x else 0
  {
    var y := if x < 0 then (if size + x > 0 then size + x else 0) else x;
    if y < size then y else size
  }
}
