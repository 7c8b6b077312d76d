/**
 * Swift's `sorted()` on `[Int]`: ascending order, same elements. It is
 * written here as insertion sort; any sort gives the same answer, as
 * `SortedUnique` shows.
 */
module Sorting {

  predicate Sorted(s: seq<int>) {
    forall i, j :: 0 <= i < j < |s| ==> s[i] <= s[j]
  }

  function Insert(x: int, s: seq<int>): (r: seq<int>)
    requires Sorted(s)
    ensures Sorted(r)
    ensures |r| == |s| + 1
    ensures multiset(r) == multiset(s) + multiset{x}
  {
    if |s| == 0 then [x]
    else if x <= s[0] then [x] + s
    else
      var tail := Insert(x, s[1..]);
      assert s == [s[0]] + s[1..];
      assert forall k :: 0 <= k < |tail| ==> tail[k] in multiset(s[1..]) + multiset{x};
      [s[0]] + tail
  }

  /** `s.sorted()`. */
  function Sort(s: seq<int>): (r: seq<int>)
    ensures Sorted(r)
    ensures |r| == |s|
    ensures multiset(r) == multiset(s)
  {
    if |s| == 0 then []
    else
      assert s == [s[0]] + s[1..];
      Insert(s[0], Sort(s[1..]))
  }

  /** Two ascending sequences with the same elements are equal. */
  lemma {:induction false} SortedUnique(a: seq<int>, b: seq<int>)
    requires Sorted(a) && Sorted(b)
    requires multiset(a) == multiset(b)
    ensures a == b
    decreases |a|
  {
    if |a| == 0 || |b| == 0 {
      assert |a| == |multiset(a)| == |multiset(b)| == |b|;
    } else {
      HeadsEqual(a, b);
      DropHead(a);
      DropHead(b);
      SortedUnique(a[1..], b[1..]);
      SameHeadAndTail(a, b);
    }
  }

  lemma HeadsEqual(a: seq<int>, b: seq<int>)
    requires Sorted(a) && Sorted(b) && |a| > 0 && |b| > 0
    requires multiset(a) == multiset(b)
    ensures a[0] == b[0]
  {
    assert a[0] in multiset(a) && b[0] in multiset(b);
    assert a[0] in b && b[0] in a;
  }

  lemma DropHead(s: seq<int>)
    requires Sorted(s) && |s| > 0
    ensures Sorted(s[1..])
    ensures multiset(s[1..]) == multiset(s) - multiset{s[0]}
  {
    assert s == [s[0]] + s[1..];
  }

  lemma SameHeadAndTail(a: seq<int>, b: seq<int>)
    requires |a| > 0 && |b| > 0 && a[0] == b[0] && a[1..] == b[1..]
    ensures a == b
  {
    assert a == [a[0]] + a[1..];
    assert b == [b[0]] + b[1..];
  }

  /** Sorting an ascending sequence changes nothing. */
  lemma SortOfSorted(s: seq<int>)
    requires Sorted(s)
    ensures Sort(s) == s
  {
    SortedUnique(Sort(s), s);
  }

  /** Sorting twice gives what sorting once gives. */
  lemma SortIdempotent(s: seq<int>)
    ensures Sort(Sort(s)) == Sort(s)
  {
    SortOfSorted(Sort(s));
  }

  /** Sorting keeps the set of elements. */
  lemma SortSameSet(s: seq<int>)
    ensures forall x :: x in Sort(s) <==> x in s
  {
    var r := Sort(s);
    forall x ensures x in r <==> x in s {
      assert x in r <==> x in multiset(r);
      assert x in s <==> x in multiset(s);
    }
  }
}
