/**
 `Array.prototype.splice(start, 1)` on a copy of an array, as the delete
 handler uses it, following the start-index rules of the ECMAScript
 Language Specification (section 23.1.3.31, Array.prototype.splice):
 a negative start counts back from the end and stops at 0, a start past
 the end stops at the end, and at most one element is removed.
 */
module Splice {

  /** The index at which `splice(start, 1)` acts on an array of length `len`. */
  function ActualStart(len: nat, start: int): (k: nat)
    ensures k <= len
    ensures 0 <= start <= len ==> k == start
    ensures start > len ==> k == len
    ensures start < 0 && len + start >= 0 ==> k == len + start
    ensures len + start < 0 ==> k == 0
  {
    if start < 0 then
      if len + start < 0 then 0 else len + start
    else if start < len then start
    else len
  }

  /** The array left after `splice(start, 1)`. */
  function RemoveOne<T>(a: seq<T>, start: int): (r: seq<T>)
    ensures var k := ActualStart(|a|, start);
      && |r| == (if k < |a| then |a| - 1 else |a|)
      && (forall j :: 0 <= j < k && j < |r| ==> r[j] == a[j])
      && (forall j :: k <= j < |r| ==> r[j] == a[j + 1])
  {
    var k := ActualStart(|a|, start);
    if k < |a| then a[..k] + a[k + 1..] else a
  }

  /** The copy-then-splice of the delete handler, element by element: copy
      the array and drop the element at the actual start. */
  method CopyWithout<T>(a: seq<T>, start: int) returns (r: seq<T>)
    ensures r == RemoveOne(a, start)
  {
    var k := ActualStart(|a|, start);
    r := [];
    var i := 0;
    while i < |a|
      invariant 0 <= i <= |a|
      invariant |r| == (if i <= k then i else i - 1)
      invariant forall j :: 0 <= j < |r| && j < k ==> r[j] == a[j]
      invariant forall j :: k <= j < |r| ==> r[j] == a[j + 1]
    {
      if i != k {
        r := r + [a[i]];
      }
      i := i + 1;
    }
  }

  /** `s` can be obtained from `t` by deleting elements, keeping the order
      of those that remain. */
  predicate IsSubsequence<T(==)>(s: seq<T>, t: seq<T>)
    decreases |t|
  {
    if |s| == 0 then true
    else if |t| == 0 then false
    else (s[0] == t[0] && IsSubsequence(s[1..], t[1..])) || IsSubsequence(s, t[1..])
  }

  lemma {:induction false} SubsequenceReflexive<T>(s: seq<T>)
    ensures IsSubsequence(s, s)
    decreases |s|
  {
    if |s| > 0 {
      SubsequenceReflexive(s[1..]);
    }
  }

  /** Deleting one element at an index inside the array gives the array with
      that element cut out; every other element keeps its relative order. */
  lemma {:induction false} RemoveOneInRange<T>(a: seq<T>, i: int)
    requires 0 <= i < |a|
    ensures RemoveOne(a, i) == a[..i] + a[i + 1..]
    ensures |RemoveOne(a, i)| == |a| - 1
    ensures IsSubsequence(RemoveOne(a, i), a)
    decreases i
  {
    var r := RemoveOne(a, i);
    assert r == a[..i] + a[i + 1..];
    if i == 0 {
      assert r == a[1..];
      SubsequenceReflexive(a[1..]);
    } else {
      var t := a[1..];
      RemoveOneInRange(t, i - 1);
      assert r[0] == a[0];
      assert r[1..] == t[..i - 1] + t[i..];
    }
  }

  /** Deleting at an index inside the array removes exactly that element:
      nothing is lost or duplicated. */
  lemma RemoveOneMultiset<T>(a: seq<T>, i: int)
    requires 0 <= i < |a|
    ensures multiset(a) == multiset(RemoveOne(a, i)) + multiset{a[i]}
  {
    assert a == a[..i] + [a[i]] + a[i + 1..];
  }

  /** An index at or past the end removes nothing. */
  lemma RemoveOneOutOfRange<T>(a: seq<T>, start: int)
    requires start >= |a|
    ensures RemoveOne(a, start) == a
  {
  }

  /** A negative start addresses the element that many places from the end. */
  lemma RemoveOneNegative<T>(a: seq<T>, start: int)
    requires -|a| <= start < 0
    ensures RemoveOne(a, start) == RemoveOne(a, |a| + start)
  {
  }

  /** A start too negative to reach the array acts on the first element. */
  lemma RemoveOneTooNegative<T>(a: seq<T>, start: int)
    requires start < -|a|
    ensures RemoveOne(a, start) == RemoveOne(a, 0)
  {
  }

  /** Removing the last element undoes an append. */
  lemma RemoveLastUndoesAppend<T>(a: seq<T>, x: T)
    ensures RemoveOne(a + [x], |a|) == a
  {
    assert (a + [x])[..|a|] == a;
  }
}
