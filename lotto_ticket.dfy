/**
 * A ticket: an immutable list of numbers (the source's `let numbers`) and its
 * read-only ascending view. Identity is by value; the source's `UUID` id is
 * not modelled.
 */
module Tickets {
  import opened Sorting
  import opened LottoConstants

  datatype LottoTicket = LottoTicket(numbers: seq<int>) {

    /** `numbers.sorted()`: ascending, and a permutation of `numbers`. */
    function SortedNumbers(): (r: seq<int>)
      ensures Sorted(r)
      ensures |r| == |numbers| && multiset(r) == multiset(numbers)
    {
      Sort(numbers)
    }
  }

  /** Taking the sorted view of the sorted view changes nothing. */
  lemma SortedNumbersIdempotent(t: LottoTicket)
    ensures LottoTicket(t.SortedNumbers()).SortedNumbers() == t.SortedNumbers()
  {
    SortIdempotent(t.numbers);
  }

  /** A ticket whose numbers are already ascending is its own sorted view. */
  lemma SortedNumbersOfSorted(t: LottoTicket)
    requires Sorted(t.numbers)
    ensures t.SortedNumbers() == t.numbers
  {
    SortOfSorted(t.numbers);
  }

  function NumberSet(s: seq<int>): set<int> {
    set x | x in s
  }

  predicate Distinct(s: seq<int>) {
    forall i, j :: 0 <= i < j < |s| ==> s[i] != s[j]
  }

  predicate InNumberRange(n: int) {
    1 <= n <= MaximumNumber
  }

  /** Six distinct numbers from 1 to 45: what a drawn game always is. */
  predicate IsDrawnNumbers(s: seq<int>) {
    && |s| == LotteryNumberSize
    && (forall k :: 0 <= k < |s| ==> InNumberRange(s[k]))
    && Distinct(s)
  }

  /** A list has as many different numbers as entries exactly when no number repeats. */
  lemma {:induction false} NumberSetSize(s: seq<int>)
    ensures |NumberSet(s)| <= |s|
    ensures |NumberSet(s)| == |s| <==> Distinct(s)
  {
    if |s| > 0 {
      var t := s[1..];
      NumberSetSize(t);
      NumberSetCons(s);
      if s[0] in t {
        RepeatedHead(s);
      } else {
        DistinctCons(s);
      }
    }
  }

  lemma NumberSetCons(s: seq<int>)
    requires |s| > 0
    ensures NumberSet(s) == {s[0]} + NumberSet(s[1..])
  {
    assert s == [s[0]] + s[1..];
  }

  lemma RepeatedHead(s: seq<int>)
    requires |s| > 0 && s[0] in s[1..]
    ensures !Distinct(s)
  {
    var j :| 0 <= j < |s[1..]| && s[1..][j] == s[0];
    assert s[0] == s[j + 1];
  }

  lemma DistinctCons(s: seq<int>)
    requires |s| > 0 && s[0] !in s[1..]
    ensures Distinct(s) <==> Distinct(s[1..])
  {
    var t := s[1..];
    if Distinct(t) {
      forall i, j | 0 <= i < j < |s| ensures s[i] != s[j] {
        assert s[j] == t[j - 1];
        if i > 0 {
          assert s[i] == t[i - 1];
        }
      }
    }
  }

  /** The sorted view has the same set of numbers. */
  lemma SortedNumbersSameSet(t: LottoTicket)
    ensures NumberSet(t.SortedNumbers()) == NumberSet(t.numbers)
  {
    SortSameSet(t.numbers);
  }

  /** Sorting keeps a drawn game a drawn game. */
  lemma SortedDrawnNumbers(s: seq<int>)
    requires IsDrawnNumbers(s)
    ensures IsDrawnNumbers(Sort(s))
  {
    var r := Sort(s);
    SortSameSet(s);
    NumberSetSize(s);
    NumberSetSize(r);
    assert NumberSet(r) == NumberSet(s);
    forall k | 0 <= k < |r| ensures InNumberRange(r[k]) {
      assert r[k] in s;
    }
  }
}
