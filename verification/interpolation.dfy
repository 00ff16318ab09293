/**
 * Piecewise-linear marks -> rank interpolation with clamping at both ends. The same
 * algorithm appears three times in the repository; the three copies differ only in what
 * they return when the scan over adjacent anchors finds nothing, so that value is a
 * parameter here.
 */
module Interpolation {
  import opened Wrappers
  import opened Numeric
  import opened Curves

  /** How far `marks` has fallen from `upper` towards `lower`, as a fraction of the gap. */
  function Fraction(marks: real, upper: RankPoint, lower: RankPoint): (t: real)
    requires lower.marks < upper.marks
    ensures lower.marks <= marks <= upper.marks ==> 0.0 <= t <= 1.0
    ensures marks == upper.marks ==> t == 0.0
    ensures marks == lower.marks ==> t == 1.0
  {
    (upper.marks - marks) / (upper.marks - lower.marks)
  }

  /** The rounded rank on the straight line between two adjacent anchors. */
  function Between(marks: real, upper: RankPoint, lower: RankPoint): (r: int)
    requires lower.marks < upper.marks
    ensures lower.marks <= marks <= upper.marks && upper.rank <= lower.rank ==> upper.rank <= r <= lower.rank
    ensures marks == upper.marks ==> r == upper.rank
    ensures marks == lower.marks ==> r == lower.rank
  {
    var t := Fraction(marks, upper, lower);
    var d := (lower.rank - upper.rank) as real;
    assert lower.marks <= marks <= upper.marks && upper.rank <= lower.rank
           ==> upper.rank <= Round(upper.rank as real + t * d) <= lower.rank by {
      if lower.marks <= marks <= upper.marks && upper.rank <= lower.rank {
        assert 0.0 <= t * d <= d;
        RoundBetween(upper.rank as real + t * d, upper.rank, lower.rank);
      }
    }
    RoundOfInt(upper.rank);
    RoundOfInt(lower.rank);
    Round(upper.rank as real + t * d)
  }

  /** On one segment, more marks never give a worse rank. */
  lemma BetweenMonotone(m1: real, m2: real, upper: RankPoint, lower: RankPoint)
    requires lower.marks < upper.marks
    requires upper.rank <= lower.rank
    requires m2 <= m1
    ensures Between(m1, upper, lower) <= Between(m2, upper, lower)
  {
    var t1 := Fraction(m1, upper, lower);
    var t2 := Fraction(m2, upper, lower);
    DivideMonotone(upper.marks - m1, upper.marks - m2, upper.marks - lower.marks);
    var d := (lower.rank - upper.rank) as real;
    ScaleMonotone(t1, t2, d);
    RoundMonotone(upper.rank as real + t1 * d, upper.rank as real + t2 * d);
  }

  /**
   * The search loop over adjacent anchors, from index `i` on: the first pair
   * (s[i], s[i+1]) whose marks bracket `marks` decides the rank; None when the loop
   * runs out of pairs.
   */
  function ScanFrom(marks: real, s: seq<RankPoint>, i: nat): Option<int>
    requires MarksDescending(s)
    decreases |s| - i
  {
    if i + 1 >= |s| then None
    else if marks <= s[i].marks && marks >= s[i + 1].marks then Some(Between(marks, s[i], s[i + 1]))
    else ScanFrom(marks, s, i + 1)
  }

  /**
   * Clamp to the first anchor's rank at or above its marks, to the last anchor's rank at
   * or below its marks, otherwise interpolate on the bracketing segment; `fallback` is
   * what the code returns after a scan that found no segment.
   */
  function ClampInterpolate(marks: real, s: seq<RankPoint>, fallback: int): int
    requires |s| > 0
    requires MarksDescending(s)
  {
    if marks >= s[0].marks then s[0].rank
    else if marks <= Last(s).marks then Last(s).rank
    else match ScanFrom(marks, s, 0)
      case Some(r) => r
      case None => fallback
  }

  /** The scan reaches any segment that brackets `marks` and returns that segment's rank. */
  lemma {:induction false} ScanFinds(marks: real, s: seq<RankPoint>, i: nat, k: nat)
    requires MarksDescending(s)
    requires i <= k < |s| - 1
    requires s[k + 1].marks <= marks <= s[k].marks
    requires marks <= s[i].marks
    ensures ScanFrom(marks, s, i) == Some(Between(marks, s[k], s[k + 1]))
    decreases k - i
  {
    if marks >= s[i + 1].marks {
      if i < k {
        if i + 1 < k {
          MarksDescendingPairwise(s, i + 1, k);
        }
        assert marks == s[k].marks;
      }
    } else {
      ScanFinds(marks, s, i + 1, k);
    }
  }

  /**
   * The reference description of the interpolator: whenever two adjacent anchors bracket
   * `marks` (ends included), the result is the rounded point on the line between them.
   */
  lemma InterpolateOnSegment(marks: real, s: seq<RankPoint>, k: nat, fallback: int)
    requires MarksDescending(s)
    requires k < |s| - 1
    requires s[k + 1].marks <= marks <= s[k].marks
    ensures ClampInterpolate(marks, s, fallback) == Between(marks, s[k], s[k + 1])
  {
    if marks >= s[0].marks {
      if k > 0 {
        MarksDescendingPairwise(s, 0, k);
      }
    } else if marks <= Last(s).marks {
      if k + 1 < |s| - 1 {
        MarksDescendingPairwise(s, k + 1, |s| - 1);
      }
    } else {
      ScanFinds(marks, s, 0, k);
    }
  }

  /** Finds a segment that brackets `marks`, searching from anchor `i` on. */
  lemma {:induction false} LocateFrom(marks: real, s: seq<RankPoint>, i: nat) returns (k: nat)
    requires MarksDescending(s)
    requires i < |s| - 1
    requires Last(s).marks <= marks <= s[i].marks
    ensures i <= k < |s| - 1
    ensures s[k + 1].marks <= marks <= s[k].marks
    decreases |s| - i
  {
    if marks >= s[i + 1].marks {
      k := i;
    } else {
      k := LocateFrom(marks, s, i + 1);
    }
  }

  /** Every marks value between the last and the first anchor lies on some segment. */
  lemma Locate(marks: real, s: seq<RankPoint>) returns (k: nat)
    requires MarksDescending(s)
    requires |s| >= 2
    requires Last(s).marks <= marks <= s[0].marks
    ensures k < |s| - 1
    ensures s[k + 1].marks <= marks <= s[k].marks
  {
    k := LocateFrom(marks, s, 0);
  }

  /**
   * After the two clamps the scan always finds a segment, so the value returned after the
   * loop is unreachable and does not influence the result.
   */
  lemma FallbackUnreachable(marks: real, s: seq<RankPoint>, f1: int, f2: int)
    requires |s| > 0
    requires MarksDescending(s)
    ensures Last(s).marks < marks < s[0].marks ==> ScanFrom(marks, s, 0).Some?
    ensures ClampInterpolate(marks, s, f1) == ClampInterpolate(marks, s, f2)
  {
    if Last(s).marks < marks < s[0].marks {
      var k := Locate(marks, s);
      ScanFinds(marks, s, 0, k);
    }
  }

  /** An anchor's own marks give exactly that anchor's rank (t = 0 or t = 1). */
  lemma InterpolateAnchor(s: seq<RankPoint>, k: nat, fallback: int)
    requires MarksDescending(s)
    requires k < |s|
    ensures ClampInterpolate(s[k].marks, s, fallback) == s[k].rank
  {
    if k < |s| - 1 {
      InterpolateOnSegment(s[k].marks, s, k, fallback);
    } else if k > 0 {
      InterpolateOnSegment(s[k].marks, s, k - 1, fallback);
    }
  }

  /** The result never leaves the range spanned by the first and the last anchor's rank. */
  lemma InterpolateBounds(marks: real, s: seq<RankPoint>, fallback: int)
    requires |s| > 0
    requires MarksDescending(s)
    requires RanksNonDecreasing(s)
    ensures s[0].rank <= ClampInterpolate(marks, s, fallback) <= Last(s).rank
  {
    RanksNonDecreasingPairwise(s, 0, |s| - 1);
    if Last(s).marks < marks < s[0].marks {
      var k := Locate(marks, s);
      InterpolateOnSegment(marks, s, k, fallback);
      RanksNonDecreasingPairwise(s, 0, k);
      RanksNonDecreasingPairwise(s, k + 1, |s| - 1);
    }
  }

  /** Higher marks never yield a numerically larger (worse) rank. */
  lemma InterpolateMonotone(m1: real, m2: real, s: seq<RankPoint>, fallback: int)
    requires |s| > 0
    requires MarksDescending(s)
    requires RanksNonDecreasing(s)
    requires m2 <= m1
    ensures ClampInterpolate(m1, s, fallback) <= ClampInterpolate(m2, s, fallback)
  {
    InterpolateBounds(m1, s, fallback);
    InterpolateBounds(m2, s, fallback);
    if m1 < s[0].marks && Last(s).marks < m2 {
      var k1 := Locate(m1, s);
      var k2 := Locate(m2, s);
      InterpolateOnSegment(m1, s, k1, fallback);
      InterpolateOnSegment(m2, s, k2, fallback);
      if k1 == k2 {
        BetweenMonotone(m1, m2, s[k1], s[k1 + 1]);
      } else if k1 < k2 {
        RanksNonDecreasingPairwise(s, k1 + 1, k2);
      } else {
        if k2 + 1 < k1 {
          MarksDescendingPairwise(s, k2 + 1, k1);
        }
        assert m1 == m2;
      }
    }
  }
}
