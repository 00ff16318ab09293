/** The metrics derived from a predicted rank: rank band, GATE score, percentile, tier. */
module Metrics {
  import opened Numeric

  /** The assumed topper's marks in the score formula. */
  const TopperMarks: real := 90.0

  /** Score the formula gives at the qualifying marks. */
  const QualifyingScore: int := 350

  /** Highest and lowest score the engine reports. */
  const MaxScore: int := 1000

  /** Highest percentile the engine reports. */
  const MaxPercentile: real := 99.99

  /** A predicted rank with a band of uncertainty around it. */
  datatype RankRange = RankRange(min: int, max: int)

  /**
   * The band reported around `baseRank`: five percent of it (rounded) on either side, with
   * the lower end never below rank 1.
   */
  function RankBand(baseRank: int): (r: RankRange)
    ensures r.min >= 1
    ensures baseRank >= 1 ==> r.min <= baseRank <= r.max
    ensures r.min == MaxInt(1, baseRank - (r.max - baseRank))
    ensures -0.5 < (r.max - baseRank) as real - baseRank as real * 0.05 <= 0.5
  {
    var variance := Round(baseRank as real * 0.05);
    assert baseRank >= 0 ==> variance >= 0 by {
      if baseRank >= 0 {
        RoundMonotone(0.0, baseRank as real * 0.05);
        RoundOfInt(0);
      }
    }
    RankRange(MaxInt(1, baseRank - variance), baseRank + variance)
  }

  /**
   * GATE score = 350 + 650 * (M - Mq) / (Mt - Mq), rounded and clamped to [0, 1000], and 0
   * below the qualifying marks. The source divides by zero when the cutoff equals the
   * topper's marks; that case is excluded.
   */
  function CalculateGateScore(marks: real, cutoff: real): (score: int)
    requires cutoff != TopperMarks
    ensures 0 <= score <= MaxScore
    ensures marks < cutoff ==> score == 0
    ensures cutoff < TopperMarks && marks >= cutoff ==> score >= QualifyingScore
    ensures cutoff < TopperMarks && marks == cutoff ==> score == QualifyingScore
    ensures cutoff < TopperMarks && marks >= TopperMarks ==> score == MaxScore
    ensures cutoff < TopperMarks && cutoff <= marks <= TopperMarks
            ==> -0.5 < score as real - (350.0 + 650.0 * ((marks - cutoff) / (TopperMarks - cutoff))) <= 0.5
  {
    if marks < cutoff then 0
    else
      var raw := RawGateScore(marks, cutoff);
      assert cutoff < TopperMarks ==> QualifyingScore <= Round(raw) by {
        if cutoff < TopperMarks {
          RawGateScoreBounds(marks, cutoff);
          RoundMonotone(350.0, raw);
          RoundOfInt(350);
        }
      }
      assert cutoff < TopperMarks && marks <= TopperMarks ==> Round(raw) <= MaxScore by {
        if cutoff < TopperMarks && marks <= TopperMarks {
          RawGateScoreBounds(marks, cutoff);
          RoundMonotone(raw, 1000.0);
          RoundOfInt(1000);
        }
      }
      assert cutoff < TopperMarks && marks >= TopperMarks ==> MaxScore <= Round(raw) by {
        if cutoff < TopperMarks && marks >= TopperMarks {
          RawGateScoreBounds(marks, cutoff);
          RoundMonotone(1000.0, raw);
          RoundOfInt(1000);
        }
      }
      MinInt(MaxScore, MaxInt(0, Round(raw)))
  }

  /** The score formula before rounding and clamping. */
  function RawGateScore(marks: real, cutoff: real): real
    requires cutoff != TopperMarks
  {
    350.0 + 650.0 * ((marks - cutoff) / (TopperMarks - cutoff))
  }

  lemma RawGateScoreBounds(marks: real, cutoff: real)
    requires cutoff < TopperMarks
    requires marks >= cutoff
    ensures RawGateScore(marks, cutoff) >= 350.0
    ensures marks == cutoff ==> RawGateScore(marks, cutoff) == 350.0
    ensures marks >= TopperMarks ==> RawGateScore(marks, cutoff) >= 1000.0
    ensures marks <= TopperMarks ==> RawGateScore(marks, cutoff) <= 1000.0
  {
    var g := TopperMarks - cutoff;
    var q := (marks - cutoff) / g;
    DivideMonotone(0.0, marks - cutoff, g);
    assert q >= 0.0;
    if marks >= TopperMarks {
      DivideMonotone(g, marks - cutoff, g);
      assert g / g == 1.0;
      assert q >= 1.0;
    }
    if marks <= TopperMarks {
      DivideMonotone(marks - cutoff, g, g);
      assert g / g == 1.0;
      assert q <= 1.0;
    }
  }

  /** With a cutoff below the topper's marks the score is 0 exactly when the candidate fails to qualify. */
  lemma GateScoreZeroIffUnqualified(marks: real, cutoff: real)
    requires cutoff < TopperMarks
    ensures CalculateGateScore(marks, cutoff) == 0 <==> marks < cutoff
  {
  }

  /** More marks never lower the score. */
  lemma GateScoreMonotone(m1: real, m2: real, cutoff: real)
    requires cutoff < TopperMarks
    requires m2 <= m1
    ensures CalculateGateScore(m2, cutoff) <= CalculateGateScore(m1, cutoff)
  {
    if m2 >= cutoff {
      var g := TopperMarks - cutoff;
      DivideMonotone(m2 - cutoff, m1 - cutoff, g);
      RoundMonotone(RawGateScore(m2, cutoff), RawGateScore(m1, cutoff));
    }
  }

  /**
   * `x.toFixed(2)` read back as a number: the nearest multiple of 0.01, ties away from
   * zero, computed on exact reals.
   */
  function ToFixed2(x: real): (r: real)
    ensures (r * 100.0).Floor as real == r * 100.0
    ensures x - 0.005 <= r <= x + 0.005
    ensures x >= 0.0 ==> r >= 0.0
  {
    if x >= 0.0 then
      Hundredths(Round(x * 100.0), x * 100.0);
      RoundMonotone(0.0, x * 100.0);
      RoundOfInt(0);
      Round(x * 100.0) as real / 100.0
    else
      Hundredths(Round(-x * 100.0), -x * 100.0);
      Hundredths(-Round(-x * 100.0), x * 100.0);
      -(Round(-x * 100.0) as real / 100.0)
  }

  /** n / 100 is a whole number of hundredths, within 0.005 of y / 100 when n is within 0.5 of y. */
  lemma Hundredths(n: int, y: real)
    ensures (n as real / 100.0) * 100.0 == n as real
    ensures -(n as real / 100.0) == (-n) as real / 100.0
    ensures n as real - 0.5 <= y <= n as real + 0.5 ==> y / 100.0 - 0.005 <= n as real / 100.0 <= y / 100.0 + 0.005
  {
  }

  lemma ToFixed2Monotone(x: real, y: real)
    requires x <= y
    ensures ToFixed2(x) <= ToFixed2(y)
  {
    if 0.0 <= x {
      RoundMonotone(x * 100.0, y * 100.0);
    } else if y < 0.0 {
      RoundMonotone(-y * 100.0, -x * 100.0);
    } else {
      assert Round(-x * 100.0) >= 0 by { RoundMonotone(0.0, -x * 100.0); RoundOfInt(0); }
    }
  }

  /** The percentile the rank beats, before rounding and clamping. */
  function ExactPercentile(rank: int, totalAppeared: int): real
    requires totalAppeared > 0
  {
    (totalAppeared - rank) as real / totalAppeared as real * 100.0
  }

  /**
   * Percentile of `rank` among `totalAppeared` candidates, to two decimals and clamped to
   * [0, 99.99]; a non-positive rank or total gives 0.
   */
  function CalculatePercentile(rank: int, totalAppeared: int): (p: real)
    ensures rank <= 0 || totalAppeared <= 0 ==> p == 0.0
    ensures 0.0 <= p <= MaxPercentile
    ensures rank > 0 && totalAppeared > 0 && 0.0 <= ExactPercentile(rank, totalAppeared) <= MaxPercentile
            ==> ExactPercentile(rank, totalAppeared) - 0.005 <= p <= ExactPercentile(rank, totalAppeared) + 0.005
    ensures rank > 0 && totalAppeared > 0 && ExactPercentile(rank, totalAppeared) > MaxPercentile ==> p == MaxPercentile
    ensures rank > 0 && totalAppeared > 0 && ExactPercentile(rank, totalAppeared) < 0.0 ==> p == 0.0
  {
    if rank <= 0 || totalAppeared <= 0 then 0.0
    else
      var exact := ExactPercentile(rank, totalAppeared);
      var fixed := ToFixed2(exact);
      assert ToFixed2(MaxPercentile) == MaxPercentile by { RoundOfInt(9999); }
      assert ToFixed2(0.0) == 0.0 by { RoundOfInt(0); }
      assert 0.0 <= exact <= MaxPercentile ==> fixed <= MaxPercentile by {
        if 0.0 <= exact <= MaxPercentile { ToFixed2Monotone(exact, MaxPercentile); }
      }
      assert exact > MaxPercentile ==> fixed >= MaxPercentile by {
        if exact > MaxPercentile { ToFixed2Monotone(MaxPercentile, exact); }
      }
      assert exact < 0.0 ==> fixed <= 0.0 by {
        if exact < 0.0 { ToFixed2Monotone(exact, 0.0); }
      }
      MaxReal(0.0, MinReal(MaxPercentile, fixed))
  }

  /** A better (smaller) rank never yields a lower percentile. */
  lemma PercentileMonotone(r1: int, r2: int, totalAppeared: int)
    requires 0 < r1 <= r2
    ensures CalculatePercentile(r2, totalAppeared) <= CalculatePercentile(r1, totalAppeared)
  {
    if totalAppeared > 0 {
      var t := totalAppeared as real;
      DivideMonotone((totalAppeared - r2) as real, (totalAppeared - r1) as real, t);
      ScaleMonotone((totalAppeared - r2) as real / t, (totalAppeared - r1) as real / t, 100.0);
      ToFixed2Monotone(ExactPercentile(r2, totalAppeared), ExactPercentile(r1, totalAppeared));
    }
  }

  /** Performance tiers, best first. */
  datatype PerformanceLevel = Exceptional | Excellent | Good | Average | BelowAverage

  /** Position of a tier on the ladder: 4 for exceptional down to 0 for below-average. */
  function Standing(l: PerformanceLevel): nat {
    match l
    case Exceptional => 4
    case Excellent => 3
    case Good => 2
    case Average => 1
    case BelowAverage => 0
  }

  /** The first rung of the ladder (99, 97, 90, 75) that the percentile reaches. */
  function GetPerformanceLevel(percentile: real): (l: PerformanceLevel)
    ensures l == Exceptional <==> percentile >= 99.0
    ensures l == Excellent <==> 97.0 <= percentile < 99.0
    ensures l == Good <==> 90.0 <= percentile < 97.0
    ensures l == Average <==> 75.0 <= percentile < 90.0
    ensures l == BelowAverage <==> percentile < 75.0
  {
    if percentile >= 99.0 then Exceptional
    else if percentile >= 97.0 then Excellent
    else if percentile >= 90.0 then Good
    else if percentile >= 75.0 then Average
    else BelowAverage
  }

  /** A higher percentile never lands on a lower rung. */
  lemma PerformanceLevelMonotone(p1: real, p2: real)
    requires p1 <= p2
    ensures Standing(GetPerformanceLevel(p1)) <= Standing(GetPerformanceLevel(p2))
  {
  }
}
