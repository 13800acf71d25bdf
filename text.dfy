/**
  Substring search as `std::string::find` and `std::string::rfind` perform
  it, with `std::string::npos` rendered as `None`.
 */
module Text {
  import opened Wrappers

  /** `needle` occurs in `hay` starting at position `i`. */
  predicate OccursAt(hay: string, needle: string, i: int) {
    0 <= i && i + |needle| <= |hay| && hay[i..i + |needle|] == needle
  }

  /** The first occurrence of `needle` at or after `from`. */
  function FindFrom(hay: string, needle: string, from: nat): (r: Option<nat>)
    ensures r.Some? ==> from <= r.value && OccursAt(hay, needle, r.value)
    ensures r.Some? ==> forall j :: from <= j < r.value ==> !OccursAt(hay, needle, j)
    ensures r.None? ==> forall j :: from <= j ==> !OccursAt(hay, needle, j)
    decreases |hay| - from
  {
    if from + |needle| > |hay| then None
    else if hay[from..from + |needle|] == needle then Some(from)
    else FindFrom(hay, needle, from + 1)
  }

  /** `hay.find(needle)`: the first position where `needle` occurs, if any. */
  function Find(hay: string, needle: string): (r: Option<nat>)
    ensures r.Some? ==> OccursAt(hay, needle, r.value)
    ensures r.Some? ==> forall j :: 0 <= j < r.value ==> !OccursAt(hay, needle, j)
    ensures r.None? <==> forall j :: !OccursAt(hay, needle, j)
  {
    FindFrom(hay, needle, 0)
  }

  /** The last occurrence of `needle` that starts before `bound`. */
  function RFindBelow(hay: string, needle: string, bound: nat): (r: Option<nat>)
    ensures r.Some? ==> r.value < bound && OccursAt(hay, needle, r.value)
    ensures r.Some? ==> forall j :: r.value < j < bound ==> !OccursAt(hay, needle, j)
    ensures r.None? ==> forall j :: 0 <= j < bound ==> !OccursAt(hay, needle, j)
    decreases bound
  {
    if bound == 0 then None
    else if OccursAt(hay, needle, bound - 1) then Some(bound - 1)
    else RFindBelow(hay, needle, bound - 1)
  }

  /** `hay.rfind(needle)`: the last position where `needle` occurs, if any. */
  function RFind(hay: string, needle: string): (r: Option<nat>)
    ensures r.Some? ==> OccursAt(hay, needle, r.value)
    ensures r.Some? ==> forall j :: r.value < j ==> !OccursAt(hay, needle, j)
    ensures r.None? <==> forall j :: !OccursAt(hay, needle, j)
  {
    RFindBelow(hay, needle, |hay| + 1)
  }

  /** An empty needle is found at the start by `find` and at the end by `rfind`. */
  lemma EmptyNeedle(hay: string)
    ensures Find(hay, "") == Some(0)
    ensures RFind(hay, "") == Some(|hay|)
  {
    assert OccursAt(hay, "", 0);
    assert OccursAt(hay, "", |hay|);
  }

  /** When the needle occurs, the first occurrence is at or before the last one. */
  lemma FindBeforeRFind(hay: string, needle: string)
    ensures Find(hay, needle).Some? <==> RFind(hay, needle).Some?
    ensures Find(hay, needle).Some? ==> Find(hay, needle).value <= RFind(hay, needle).value
  {
  }

  /** "zzz" does not occur in "Hello World". */
  lemma NoZzz()
    ensures Find("Hello World", "zzz") == None
  {
    var hay := "Hello World";
    assert 'z' !in hay;
    forall j
      ensures !OccursAt(hay, "zzz", j)
    {
      if 0 <= j && j + 3 <= |hay| {
        assert hay[j] in hay;
      }
    }
  }

  /** An occurrence at `k` with no earlier position holding the needle's first character is the first one. */
  lemma FirstHit(hay: string, needle: string, k: nat)
    requires |needle| > 0 && OccursAt(hay, needle, k)
    requires forall j :: 0 <= j < k ==> hay[j] != needle[0]
    ensures Find(hay, needle) == Some(k)
  {
    var r := Find(hay, needle);
    if r.Some? {
      assert hay[r.value..r.value + |needle|][0] == hay[r.value];
    }
  }

  /** Where "World" first occurs in "Hello World". */
  lemma WorldAtSix(hay: string, needle: string)
    requires hay == "Hello World" && needle == "World"
    ensures Find(hay, needle) == Some(6)
  {
    assert hay[6..11] == needle;
    assert forall j :: 0 <= j < 6 ==> hay[j] != 'W';
    FirstHit(hay, needle, 6);
  }

  /** Strings joined by commas from the front: the first, then a comma and the join of the rest. */
  function Join(parts: seq<string>): string {
    if |parts| == 0 then ""
    else if |parts| == 1 then parts[0]
    else parts[0] + "," + Join(parts[1..])
  }

  /** Joining two non-empty runs of strings is joining each, with a comma between. */
  lemma {:induction false} JoinAppend(a: seq<string>, b: seq<string>)
    requires |a| > 0 && |b| > 0
    ensures Join(a + b) == Join(a) + "," + Join(b)
    decreases |a|
  {
    if |a| == 1 {
      assert (a + b)[1..] == b;
    } else {
      JoinAppend(a[1..], b);
      assert (a + b)[1..] == a[1..] + b;
    }
  }
}
