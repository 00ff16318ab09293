/** Rank curves: historical (marks, rank) anchors listed from the best marks down. */
module Curves {

  /** One anchor of a curve: candidates scoring `marks` obtained All-India rank `rank`. */
  datatype RankPoint = RankPoint(marks: real, rank: int)

  function Last(s: seq<RankPoint>): RankPoint
    requires |s| > 0
  {
    s[|s| - 1]
  }

  /** Marks fall strictly from each anchor to the next: no two anchors share a marks value. */
  predicate MarksDescending(s: seq<RankPoint>) {
    forall i :: 0 <= i < |s| - 1 ==> s[i].marks > s[i + 1].marks
  }

  /** Marks never rise from one anchor to the next (what a descending sort establishes). */
  predicate MarksNonIncreasing(s: seq<RankPoint>) {
    forall i :: 0 <= i < |s| - 1 ==> s[i].marks >= s[i + 1].marks
  }

  /** Fewer marks never give a better (smaller) rank. */
  predicate RanksNonDecreasing(s: seq<RankPoint>) {
    forall i :: 0 <= i < |s| - 1 ==> s[i].rank <= s[i + 1].rank
  }

  /** Fewer marks always give a strictly worse rank. */
  predicate RanksIncreasing(s: seq<RankPoint>) {
    forall i :: 0 <= i < |s| - 1 ==> s[i].rank < s[i + 1].rank
  }

  /**
   * Recursive check of both orderings from anchor `i` on. Dafny can evaluate it on a
   * literal curve, which it cannot do for the quantified predicates above.
   */
  predicate CheckCurveFrom(c: seq<RankPoint>, i: nat)
    decreases |c| - i
  {
    i + 1 >= |c| || (c[i].marks > c[i + 1].marks && c[i].rank < c[i + 1].rank && CheckCurveFrom(c, i + 1))
  }

  /** The recursive check accepts exactly the curves ordered from anchor `i` on. */
  lemma {:induction false} CheckCurveFromSound(c: seq<RankPoint>, i: nat)
    ensures CheckCurveFrom(c, i) <==>
            forall j :: i <= j < |c| - 1 ==> c[j].marks > c[j + 1].marks && c[j].rank < c[j + 1].rank
    decreases |c| - i
  {
    if i + 1 < |c| {
      CheckCurveFromSound(c, i + 1);
    }
  }

  lemma CheckedCurveIsOrdered(c: seq<RankPoint>)
    requires CheckCurveFrom(c, 0)
    ensures MarksDescending(c) && RanksIncreasing(c) && RanksNonDecreasing(c)
  {
    CheckCurveFromSound(c, 0);
  }

  /** Strictly descending marks compare strictly between any two anchors, not just neighbours. */
  lemma {:induction false} MarksDescendingPairwise(s: seq<RankPoint>, i: int, j: int)
    requires MarksDescending(s)
    requires 0 <= i < j < |s|
    ensures s[i].marks > s[j].marks
    decreases j - i
  {
    if i + 1 < j {
      MarksDescendingPairwise(s, i + 1, j);
    }
  }

  lemma {:induction false} MarksNonIncreasingPairwise(s: seq<RankPoint>, i: int, j: int)
    requires MarksNonIncreasing(s)
    requires 0 <= i <= j < |s|
    ensures s[i].marks >= s[j].marks
    decreases j - i
  {
    if i < j {
      MarksNonIncreasingPairwise(s, i + 1, j);
    }
  }

  lemma {:induction false} RanksNonDecreasingPairwise(s: seq<RankPoint>, i: int, j: int)
    requires RanksNonDecreasing(s)
    requires 0 <= i <= j < |s|
    ensures s[i].rank <= s[j].rank
    decreases j - i
  {
    if i < j {
      RanksNonDecreasingPairwise(s, i + 1, j);
    }
  }

  /**
   * The first element of a marks-ordered permutation of a strictly descending curve is the
   * curve's first element: both hold the highest marks, and no other anchor shares them.
   */
  lemma SameHead(c: seq<RankPoint>, d: seq<RankPoint>)
    requires MarksDescending(c)
    requires MarksNonIncreasing(d)
    requires multiset(c) == multiset(d)
    requires |c| > 0 && |d| > 0
    ensures d[0] == c[0]
  {
    assert c[0] in multiset(d);
    var j :| 0 <= j < |d| && d[j] == c[0];
    MarksNonIncreasingPairwise(d, 0, j);
    assert d[0] in multiset(c);
    var k :| 0 <= k < |c| && c[k] == d[0];
    if k > 0 {
      MarksDescendingPairwise(c, 0, k);
    }
  }

  /** Removing the shared first element leaves permutations of each other. */
  lemma SameTailMultiset(c: seq<RankPoint>, d: seq<RankPoint>)
    requires multiset(c) == multiset(d)
    requires |c| > 0 && |d| > 0 && d[0] == c[0]
    ensures multiset(c[1..]) == multiset(d[1..])
  {
    assert c == [c[0]] + c[1..];
    assert d == [d[0]] + d[1..];
    assert multiset(c) == multiset{c[0]} + multiset(c[1..]);
    assert multiset(d) == multiset{d[0]} + multiset(d[1..]);
    assert multiset(c[1..]) == multiset(c) - multiset{c[0]};
    assert multiset(d[1..]) == multiset(d) - multiset{d[0]};
  }

  /**
   * The engine sorts every curve by marks, descending, before using it. On a curve whose
   * marks are already strictly descending, every such sort (stable or not) returns the
   * curve unchanged: a permutation ordered by marks is the curve itself.
   */
  lemma {:induction false} SortIsIdentity(c: seq<RankPoint>, d: seq<RankPoint>)
    requires MarksDescending(c)
    requires MarksNonIncreasing(d)
    requires multiset(c) == multiset(d)
    ensures d == c
    decreases |c|
  {
    assert |d| == |multiset(d)| == |multiset(c)| == |c|;
    if |c| > 0 {
      SameHead(c, d);
      SameTailMultiset(c, d);
      SortIsIdentity(c[1..], d[1..]);
      assert c == [c[0]] + c[1..];
      assert d == [d[0]] + d[1..];
    }
  }
}
