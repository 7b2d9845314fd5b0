/** The three LINQ operators the auto-setup code is built from, as functions on sequences. */
module Linq {

  /** Enumerable.Any: true iff some element satisfies the predicate. */
  function Any<T>(xs: seq<T>, p: T -> bool): (r: bool)
    ensures r <==> exists i :: 0 <= i < |xs| && p(xs[i])
  {
    if xs == [] then false
    else
      var r := p(xs[0]) || Any(xs[1..], p);
      assert forall i :: 1 <= i < |xs| ==> xs[i] == xs[1..][i - 1];
      r
  }

  /** Enumerable.Where: the elements that satisfy the predicate, in their original order. */
  function Where<T(!new)>(xs: seq<T>, p: T -> bool): (r: seq<T>)
    ensures |r| <= |xs|
    ensures forall i :: 0 <= i < |r| ==> p(r[i])
  {
    if xs == [] then []
    else
      var init, last := xs[..|xs| - 1], xs[|xs| - 1];
      assert xs == init + [last];
      Where(init, p) + (if p(last) then [last] else [])
  }

  /** Where distributes over concatenation, so it never reorders what it keeps. */
  lemma {:induction false} WhereAppend<T(!new)>(xs: seq<T>, ys: seq<T>, p: T -> bool)
    ensures Where(xs + ys, p) == Where(xs, p) + Where(ys, p)
  {
    if ys == [] {
      assert xs + ys == xs;
    } else {
      var init, last := ys[..|ys| - 1], ys[|ys| - 1];
      var tail := if p(last) then [last] else [];
      assert (xs + ys)[..|xs + ys| - 1] == xs + init;
      assert Where(xs + ys, p) == Where(xs + init, p) + tail;
      assert Where(ys, p) == Where(init, p) + tail;
      WhereAppend(xs, init, p);
    }
  }

  /** Where keeps every element that satisfies the predicate as often as it occurs, and no other. */
  lemma {:induction false} WhereCounts<T(!new)>(xs: seq<T>, p: T -> bool)
    ensures forall x :: multiset(Where(xs, p))[x] == if p(x) then multiset(xs)[x] else 0
  {
    if xs != [] {
      var init, last := xs[..|xs| - 1], xs[|xs| - 1];
      assert xs == init + [last];
      WhereCounts(init, p);
    }
  }

  /** Where over a sequence extended by one element. */
  lemma WhereSnoc<T(!new)>(xs: seq<T>, x: T, p: T -> bool)
    ensures Where(xs + [x], p) == Where(xs, p) + (if p(x) then [x] else [])
  {
    assert (xs + [x])[..|xs + [x]| - 1] == xs;
  }

  /** Enumerable.Select: the image of every element, position by position. */
  function Select<T, U>(xs: seq<T>, f: T -> U): (r: seq<U>)
    ensures |r| == |xs|
    ensures forall i :: 0 <= i < |xs| ==> r[i] == f(xs[i])
  {
    if xs == [] then [] else [f(xs[0])] + Select(xs[1..], f)
  }

  lemma SelectSnoc<T, U>(xs: seq<T>, x: T, f: T -> U)
    ensures Select(xs + [x], f) == Select(xs, f) + [f(x)]
  {
  }

  /** A prefix extended by the next element. */
  lemma PrefixSnoc<T>(xs: seq<T>, i: nat)
    requires i < |xs|
    ensures xs[..i + 1] == xs[..i] + [xs[i]]
  {
  }

  /** Appending one element after a concatenation. */
  lemma AppendSnoc<T>(xs: seq<T>, ys: seq<T>, x: T)
    ensures xs + (ys + [x]) == (xs + ys) + [x]
  {
  }

  /** Select over a prefix extended by the next element. */
  lemma SelectPrefix<T, U>(xs: seq<T>, i: nat, f: T -> U)
    requires i < |xs|
    ensures Select(xs[..i + 1], f) == Select(xs[..i], f) + [f(xs[i])]
  {
    PrefixSnoc(xs, i);
    SelectSnoc(xs[..i], xs[i], f);
  }

  /** The position of the first element that satisfies the predicate, or |xs| if there is none. */
  function FirstIndex<T>(xs: seq<T>, p: T -> bool): (k: nat)
    ensures k <= |xs|
    ensures forall i :: 0 <= i < k ==> !p(xs[i])
    ensures k < |xs| ==> p(xs[k])
  {
    if xs == [] then 0
    else if p(xs[0]) then 0
    else 1 + FirstIndex(xs[1..], p)
  }

  /** FirstIndex is the only position with no match before it and a match at it (or none at all). */
  lemma FirstIndexUnique<T>(xs: seq<T>, p: T -> bool, k: nat)
    requires k <= |xs|
    requires forall i :: 0 <= i < k ==> !p(xs[i])
    requires k < |xs| ==> p(xs[k])
    ensures FirstIndex(xs, p) == k
  {
  }

  /** Appending elements does not move a match already found, and one not found is sought in the tail. */
  lemma FirstIndexAppend<T>(xs: seq<T>, ys: seq<T>, p: T -> bool)
    ensures FirstIndex(xs, p) < |xs| ==> FirstIndex(xs + ys, p) == FirstIndex(xs, p)
    ensures FirstIndex(xs, p) == |xs| ==> FirstIndex(xs + ys, p) == |xs| + FirstIndex(ys, p)
  {
    var k := FirstIndex(xs, p);
    if k < |xs| {
      assert forall i :: 0 <= i < k ==> (xs + ys)[i] == xs[i];
      FirstIndexUnique(xs + ys, p, k);
    } else {
      var j := FirstIndex(ys, p);
      assert forall i :: 0 <= i < |xs| ==> (xs + ys)[i] == xs[i];
      assert forall i :: |xs| <= i < |xs| + j ==> (xs + ys)[i] == ys[i - |xs|];
      FirstIndexUnique(xs + ys, p, |xs| + j);
    }
  }
}
