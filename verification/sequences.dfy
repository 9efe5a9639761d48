/**
 * The array operations the dashboard relies on: `Array.prototype.filter`,
 * de-duplication through a `Set` (`[...new Set(xs)]`), and `d3.max` /
 * `d3.min`, which give `undefined` on an empty array.
 */
module Sequences {
  import opened Wrappers

  predicate NoDuplicates<T(==)>(s: seq<T>)
  {
    forall i, j :: 0 <= i < j < |s| ==> s[i] != s[j]
  }

  /** `s.filter(p)`: the elements of `s` that satisfy `p`. */
  function Filter<T(!new)>(s: seq<T>, p: T -> bool): (r: seq<T>)
    ensures |r| <= |s|
  {
    if s == [] then []
    else Filter(s[..|s| - 1], p) + (if p(s[|s| - 1]) then [s[|s| - 1]] else [])
  }

  /** The filter keeps exactly the elements that satisfy `p`. */
  lemma {:induction false} FilterMembers<T(!new)>(s: seq<T>, p: T -> bool)
    ensures forall x :: x in Filter(s, p) <==> x in s && p(x)
  {
    if s != [] {
      var init := s[..|s| - 1];
      FilterMembers(init, p);
      assert s == init + [s[|s| - 1]];
    }
  }

  /** The positions in `s` of the elements that satisfy `p`, left to right. */
  function SelectedIndices<T>(s: seq<T>, p: T -> bool): seq<nat>
  {
    if s == [] then []
    else SelectedIndices(s[..|s| - 1], p) + (if p(s[|s| - 1]) then [|s| - 1] else [])
  }

  /** The selected positions lie inside `s`, in increasing order. */
  lemma {:induction false} SelectedIndicesIncrease<T>(s: seq<T>, p: T -> bool)
    ensures forall i :: 0 <= i < |SelectedIndices(s, p)| ==> SelectedIndices(s, p)[i] < |s|
    ensures forall i, j :: 0 <= i < j < |SelectedIndices(s, p)| ==> SelectedIndices(s, p)[i] < SelectedIndices(s, p)[j]
  {
    if s != [] {
      SelectedIndicesIncrease(s[..|s| - 1], p);
    }
  }

  /** A position is selected exactly when its element satisfies `p`. */
  lemma {:induction false} SelectedIndicesExact<T>(s: seq<T>, p: T -> bool)
    ensures forall k :: 0 <= k < |s| ==> (p(s[k]) <==> k in SelectedIndices(s, p))
  {
    if s != [] {
      var init := s[..|s| - 1];
      SelectedIndicesExact(init, p);
      SelectedIndicesIncrease(init, p);
      assert forall k :: 0 <= k < |init| ==> s[k] == init[k];
    }
  }

  /** The i-th kept element is the element at the i-th selected position. */
  lemma {:induction false} FilterAtSelected<T(!new)>(s: seq<T>, p: T -> bool)
    ensures |SelectedIndices(s, p)| == |Filter(s, p)|
    ensures forall i :: 0 <= i < |SelectedIndices(s, p)| ==>
      SelectedIndices(s, p)[i] < |s| && Filter(s, p)[i] == s[SelectedIndices(s, p)[i]]
  {
    if s != [] {
      var init := s[..|s| - 1];
      FilterAtSelected(init, p);
      SelectedIndicesIncrease(init, p);
      assert forall k :: 0 <= k < |init| ==> s[k] == init[k];
    }
  }

  /**
   * `Filter` keeps exactly the positions whose element satisfies `p`, and keeps
   * them in their original relative order.
   */
  lemma FilterKeepsOrder<T(!new)>(s: seq<T>, p: T -> bool)
    ensures |SelectedIndices(s, p)| == |Filter(s, p)|
    ensures forall i :: 0 <= i < |SelectedIndices(s, p)| ==>
      SelectedIndices(s, p)[i] < |s| && Filter(s, p)[i] == s[SelectedIndices(s, p)[i]]
    ensures forall i, j :: 0 <= i < j < |SelectedIndices(s, p)| ==> SelectedIndices(s, p)[i] < SelectedIndices(s, p)[j]
    ensures forall k :: 0 <= k < |s| ==> (p(s[k]) <==> k in SelectedIndices(s, p))
  {
    FilterAtSelected(s, p);
    SelectedIndicesIncrease(s, p);
    SelectedIndicesExact(s, p);
  }

  /** Filtering a concatenation filters each part. */
  lemma {:induction false} FilterAppend<T(!new)>(a: seq<T>, b: seq<T>, p: T -> bool)
    ensures Filter(a + b, p) == Filter(a, p) + Filter(b, p)
    decreases |b|
  {
    if b != [] {
      var b0 := b[..|b| - 1];
      assert (a + b)[..|a + b| - 1] == a + b0;
      assert (a + b)[|a + b| - 1] == b[|b| - 1];
      FilterAppend(a, b0, p);
    } else {
      assert a + b == a;
    }
  }

  /** A filter that every element passes changes nothing. */
  lemma {:induction false} FilterAll<T(!new)>(s: seq<T>, p: T -> bool)
    requires forall x :: x in s ==> p(x)
    ensures Filter(s, p) == s
  {
    forall i | 0 <= i < |s| ensures p(s[i])
    {
      assert s[i] in s;
    }
    FilterAllAt(s, p);
  }

  lemma {:induction false} FilterAllAt<T(!new)>(s: seq<T>, p: T -> bool)
    requires forall i :: 0 <= i < |s| ==> p(s[i])
    ensures Filter(s, p) == s
  {
    if s != [] {
      var init := s[..|s| - 1];
      FilterAllAt(init, p);
      assert s == init + [s[|s| - 1]];
    }
  }

  /** A filter that no element passes gives the empty array. */
  lemma FilterNone<T(!new)>(s: seq<T>, p: T -> bool)
    requires forall x :: x in s ==> !p(x)
    ensures Filter(s, p) == []
  {
    FilterMembers(s, p);
    if Filter(s, p) != [] {
      assert Filter(s, p)[0] in Filter(s, p);
    }
  }

  /** `[...new Set(s)]`: each value of `s` once, where it first occurs. */
  function Distinct<T(==,!new)>(s: seq<T>): (r: seq<T>)
    ensures forall x :: x in r <==> x in s
    ensures NoDuplicates(r)
  {
    if s == [] then []
    else
      var d := Distinct(s[..|s| - 1]);
      if s[|s| - 1] in d then d else d + [s[|s| - 1]]
  }

  /**
   * `Distinct` lists values in order of first appearance: before any occurrence
   * in `s` of a later-listed value, an earlier-listed value has already occurred.
   */
  lemma DistinctFirstAppearance<T(!new)>(s: seq<T>)
    ensures forall i, j, k :: 0 <= i < j < |Distinct(s)| && 0 <= k < |s| && s[k] == Distinct(s)[j] ==>
      Distinct(s)[i] in s[..k]
  {
    var d := Distinct(s);
    forall i, j, k | 0 <= i < j < |d| && 0 <= k < |s| && s[k] == d[j]
      ensures d[i] in s[..k]
    {
      FirstAppearanceAt(s, i, j, k);
    }
  }

  lemma {:induction false} FirstAppearanceAt<T(!new)>(s: seq<T>, i: nat, j: nat, k: nat)
    requires i < j < |Distinct(s)| && k < |s| && s[k] == Distinct(s)[j]
    ensures Distinct(s)[i] in s[..k]
  {
    var init := s[..|s| - 1];
    var d0, d := Distinct(init), Distinct(s);
    assert i < |d0| && d[i] == d0[i];
    if k < |s| - 1 {
      assert s[..k] == init[..k];
      assert init[k] == s[k];
      // d[j] occurs in `init`, so it is not the value the last step appended
      assert j < |d0|;
      FirstAppearanceAt(init, i, j, k);
    } else {
      assert s[..k] == init;
    }
  }

  /** `d3.max(s)`: the largest element, or `undefined` for an empty array. */
  function Maximum(s: seq<int>): (m: Option<int>)
    ensures m.None? <==> s == []
    ensures m.Some? ==> m.value in s && forall x :: x in s ==> x <= m.value
  {
    if s == [] then None
    else
      assert s == s[..|s| - 1] + [s[|s| - 1]];
      match Maximum(s[..|s| - 1])
        case None => Some(s[|s| - 1])
        case Some(v) => Some(if s[|s| - 1] > v then s[|s| - 1] else v)
  }

  /** `d3.min(s)`: the smallest element, or `undefined` for an empty array. */
  function Minimum(s: seq<int>): (m: Option<int>)
    ensures m.None? <==> s == []
    ensures m.Some? ==> m.value in s && forall x :: x in s ==> m.value <= x
  {
    if s == [] then None
    else
      assert s == s[..|s| - 1] + [s[|s| - 1]];
      match Minimum(s[..|s| - 1])
        case None => Some(s[|s| - 1])
        case Some(v) => Some(if s[|s| - 1] < v then s[|s| - 1] else v)
  }
}
