/**
  Properties of the JArray members on the element sequence: `slice` and
  `splice` agree with each other, `splice` can be undone, and the "length"
  and index setters act as described.
 */
module ArrayLemmas {
  import opened Wrappers
  import opened Numeric
  import opened JObjects
  import ListOps

  /** Without arguments `slice` copies the whole array. */
  lemma SliceWhole(elems: seq<Value>)
    ensures SliceOf(elems, []) == elems
  {
  }

  /** `slice(-k)` is the last k elements (all of them when k exceeds the size). */
  lemma SliceNegativeSuffix(elems: seq<Value>, k: int32)
    requires k > 0
    ensures SliceOf(elems, [Int32V(-k)]) == if k <= |elems| then elems[|elems| - k..] else elems
  {
  }

  /** Arguments that are not int32 are ignored by `slice`. */
  lemma SliceIgnoresOtherArgs(elems: seq<Value>, a: Value, b: Value)
    requires !a.Int32V? && !b.Int32V?
    ensures SliceOf(elems, [a, b]) == elems
  {
  }

  /** What `splice(start, count, ...)` removes is what `slice(start, start + count)` copies. */
  lemma SpliceRemovesSlice(elems: seq<Value>, start: int32, count: int32, items: seq<Value>)
    requires start >= 0 && count >= 0 && start + count < TWO_31
    ensures SpliceOf(elems, [Int32V(start), Int32V(count)] + items).removed
         == SliceOf(elems, [Int32V(start), Int32V(start + count)])
  {
    var args := [Int32V(start), Int32V(count)] + items;
    assert Int32Arg(args, 0) == Some(start) && Int32Arg(args, 1) == Some(count);
  }

  /** `splice` loses nothing: putting the removed run back in place of the items restores the array. */
  lemma SpliceRestores(elems: seq<Value>, args: seq<Value>)
    requires |args| > 0
    ensures
      var r := SpliceOf(elems, args);
      var s := ListOps.ClampIndex(Int32ArgOr(args, 0, 0), |elems|);
      && s + |Insertions(args)| <= |r.remaining|
      && r.remaining[..s] + r.removed + r.remaining[s + |Insertions(args)|..] == elems
  {
    var r := SpliceOf(elems, args);
    var s := ListOps.ClampIndex(Int32ArgOr(args, 0, 0), |elems|);
    var c := |r.removed|;
    var ins := Insertions(args);
    assert r.remaining == elems[..s] + ins + elems[s + c..];
    assert r.remaining[..s] == elems[..s];
    assert r.remaining[s + |ins|..] == elems[s + c..];
    assert elems[..s] + elems[s..s + c] + elems[s + c..] == elems;
  }

  /** The size after `splice` is the old size, less what was removed, plus the items. */
  lemma SpliceSize(elems: seq<Value>, args: seq<Value>)
    ensures |SpliceOf(elems, args).remaining| == |elems| - |SpliceOf(elems, args).removed| + |Insertions(args)|
  {
  }

  /** With only a start, `splice` removes everything from there on. */
  lemma SpliceTruncates(elems: seq<Value>, start: int32)
    requires 0 <= start <= |elems|
    ensures SpliceOf(elems, [Int32V(start)]) == Spliced(elems[start..], elems[..start])
  {
    assert Int32Arg([Int32V(start)], 0) == Some(start);
  }

  /** A deleteCount of zero inserts the items at the start and removes nothing. */
  lemma SpliceInsertsOnly(elems: seq<Value>, start: int32, items: seq<Value>)
    requires 0 <= start <= |elems|
    ensures SpliceOf(elems, [Int32V(start), Int32V(0)] + items)
         == Spliced([], elems[..start] + items + elems[start..])
  {
    var args := [Int32V(start), Int32V(0)] + items;
    assert Int32Arg(args, 0) == Some(start) && Int32Arg(args, 1) == Some(0);
    assert Insertions(args) == items;
  }

  /** The "length" setter resizes for a uint32 value, padding with Null, and ignores anything else. */
  lemma LengthSetter(elems: seq<Value>, v: Value)
    ensures v.UInt32V? ==> |SetterEffect(ArrayResize, elems, v)| == v.u
    ensures v.UInt32V? ==> forall i :: 0 <= i < v.u ==>
      SetterEffect(ArrayResize, elems, v)[i] == if i < |elems| then elems[i] else NullV
    ensures !v.UInt32V? ==> SetterEffect(ArrayResize, elems, v) == elems
  {
  }

  /** Growing with the "length" setter and shrinking back restores the elements. */
  lemma LengthGrowShrink(elems: seq<Value>, n: uint32)
    requires |elems| <= n
    ensures SetterEffect(ArrayResize, SetterEffect(ArrayResize, elems, UInt32V(n)), UInt32V(|elems|)) == elems
  {
    ListOps.ResizeBack(elems, n, NullV);
  }

  /** An index setter overwrites in range and does nothing beyond the size. */
  lemma IndexSetter(elems: seq<Value>, i: nat, v: Value)
    ensures i < |elems| ==> SetterEffect(ElementSet(i), elems, v) == elems[i := v]
    ensures i >= |elems| ==> SetterEffect(ElementSet(i), elems, v) == elems
  {
  }

  /** On [1, 2, 3, 4, 5], `slice(-2)` is [4, 5], and `splice(1, 2, x)` removes [2, 3] and leaves [1, x, 4, 5]. */
  lemma FiveElementExamples(x: Value)
    ensures SliceOf([Int32V(1), Int32V(2), Int32V(3), Int32V(4), Int32V(5)], [Int32V(-2)]) == [Int32V(4), Int32V(5)]
    ensures SpliceOf([Int32V(1), Int32V(2), Int32V(3), Int32V(4), Int32V(5)], [Int32V(1), Int32V(2), x])
         == Spliced([Int32V(2), Int32V(3)], [Int32V(1), x, Int32V(4), Int32V(5)])
  {
    var five := [Int32V(1), Int32V(2), Int32V(3), Int32V(4), Int32V(5)];
    assert Int32Arg([Int32V(-2)], 0) == Some(-2) && Int32Arg([Int32V(-2)], 1) == None;
    assert five[3..5] == [Int32V(4), Int32V(5)];
    var args := [Int32V(1), Int32V(2), x];
    assert Int32Arg(args, 0) == Some(1) && Int32Arg(args, 1) == Some(2);
    assert Insertions(args) == [x];
  }
}
