/**
 * The older JavaScript `calculateAIR`: one fixed anchor table for every branch and
 * category, clamp-and-interpolate over it, and 35000 after an unsuccessful scan.
 */
module LegacyPredictJs {
  import opened Curves
  import opened Interpolation
  import opened Numeric
  import opened RankData
  import Predictor

  const JsTable: seq<RankPoint> := [
    RankPoint(90.0, 1), RankPoint(80.0, 150), RankPoint(70.0, 800), RankPoint(60.0, 3000),
    RankPoint(50.0, 9000), RankPoint(40.0, 18000), RankPoint(30.0, 28000)
  ]

  /** What the code returns after the scan over adjacent anchors finds nothing. */
  const ScanFallback: int := 35000

  /** Rank at the bottom anchor of the table. */
  const BottomRank: int := 28000

  lemma JsTableWellFormed()
    ensures CurveWellFormed(JsTable)
    ensures JsTable[0] == RankPoint(90.0, 1) && Last(JsTable) == RankPoint(30.0, BottomRank)
  {
    CheckedCurveIsOrdered(JsTable);
  }

  /**
   * `calculateAIR(branch, category, marks)`. The result lies in [1, 28000], so the 35000
   * after the loop is never returned; 90 marks or more give rank 1 and 30 or fewer 28000.
   */
  function CalculateAir(branch: string, category: string, marks: real): (r: int)
    ensures 1 <= r <= BottomRank
    ensures r != ScanFallback
    ensures marks >= 90.0 ==> r == 1
    ensures marks <= 30.0 ==> r == BottomRank
  {
    JsTableWellFormed();
    FallbackUnreachable(marks, JsTable, ScanFallback, BottomRank);
    InterpolateBounds(marks, JsTable, BottomRank);
    ClampInterpolate(marks, JsTable, ScanFallback)
  }

  /** Branch and category do not influence the result. */
  lemma IgnoresBranchAndCategory(b1: string, c1: string, b2: string, c2: string, marks: real)
    ensures CalculateAir(b1, c1, marks) == CalculateAir(b2, c2, marks)
  {
  }

  /** More marks never give a worse rank. */
  lemma CalculateAirMonotone(branch: string, category: string, m1: real, m2: real)
    requires m2 <= m1
    ensures CalculateAir(branch, category, m1) <= CalculateAir(branch, category, m2)
  {
    JsTableWellFormed();
    InterpolateMonotone(m1, m2, JsTable, ScanFallback);
  }

  /** Between two adjacent anchors the result is the rounded point on the line between them. */
  lemma OnSegment(branch: string, category: string, marks: real, k: nat)
    requires k < |JsTable| - 1
    requires JsTable[k + 1].marks <= marks <= JsTable[k].marks
    ensures CalculateAir(branch, category, marks) == Between(marks, JsTable[k], JsTable[k + 1])
    ensures JsTable[k].rank <= CalculateAir(branch, category, marks) <= JsTable[k + 1].rank
  {
    JsTableWellFormed();
    InterpolateOnSegment(marks, JsTable, k, ScanFallback);
  }

  /** 85 marks is halfway from 90 -> 1 to 80 -> 150: 1 + 74.5 = 75.5, which rounds up to 76. */
  lemma HalfRoundsUp(branch: string, category: string)
    ensures CalculateAir(branch, category, 85.0) == 76
  {
    JsTableWellFormed();
    InterpolateOnSegment(85.0, JsTable, 0, ScanFallback);
    assert Fraction(85.0, RankPoint(90.0, 1), RankPoint(80.0, 150)) == 0.5;
  }

  /** At 80 marks this table gives rank 150, while the dataset's CSE/general curve gives 30. */
  lemma DiffersFromEngine()
    ensures CalculateAir("CSE", "general", 80.0) == 150
    ensures Predictor.InterpolateRank(80.0, CseGeneral) == 30
  {
    JsTableWellFormed();
    InterpolateAnchor(JsTable, 1, ScanFallback);
    CseGeneralIsWellFormed();
    InterpolateAnchor(CseGeneral, 3, Last(CseGeneral).rank);
  }
}
