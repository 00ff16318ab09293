/**
 * The older TypeScript `calculateAIR`: the same clamp-and-interpolate algorithm over a
 * nested table that only defines the CSE paper, with CSE/general standing in for any
 * branch or category the table lacks.
 */
module LegacyPredictTs {
  import opened Curves
  import opened Interpolation
  import opened Numeric
  import opened RankData
  import Predictor

  const CseGeneralTable: seq<RankPoint> := [
    RankPoint(90.0, 1), RankPoint(82.0, 15), RankPoint(75.0, 150), RankPoint(70.0, 500),
    RankPoint(65.0, 1400), RankPoint(60.0, 3000), RankPoint(55.0, 5800), RankPoint(50.0, 9000),
    RankPoint(45.0, 13500), RankPoint(40.0, 18500), RankPoint(35.0, 22000), RankPoint(25.0, 35000)
  ]

  const CseObcTable: seq<RankPoint> := [
    RankPoint(90.0, 1), RankPoint(75.0, 80), RankPoint(65.0, 1000), RankPoint(55.0, 4200),
    RankPoint(45.0, 10000), RankPoint(35.0, 18000), RankPoint(25.0, 30000)
  ]

  const CseScStTable: seq<RankPoint> := [
    RankPoint(90.0, 1), RankPoint(65.0, 500), RankPoint(50.0, 2000), RankPoint(35.0, 12000),
    RankPoint(20.0, 25000)
  ]

  const CseEwsTable: seq<RankPoint> := [
    RankPoint(90.0, 1), RankPoint(75.0, 100), RankPoint(60.0, 1500), RankPoint(45.0, 8000),
    RankPoint(30.0, 24000)
  ]

  /** The table, keyed by branch code and then by category key. */
  const Rd: map<string, map<string, seq<RankPoint>>> := map[
    "CSE" := map["general" := CseGeneralTable, "obc" := CseObcTable, "sc_st" := CseScStTable, "ews" := CseEwsTable]
  ]

  /** Highest rank any of the tables reaches. */
  const WorstRank: int := 35000

  /** The curve for a request: the table's own entry when there is one, otherwise CSE/general. */
  function Table(branch: string, category: string): (s: seq<RankPoint>)
    ensures s == CseGeneralTable || s == CseObcTable || s == CseScStTable || s == CseEwsTable
    ensures branch in Rd && category in Rd[branch] ==> s == Rd[branch][category]
    ensures !(branch in Rd && category in Rd[branch]) ==> s == CseGeneralTable
  {
    if branch in Rd && category in Rd[branch] then Rd[branch][category] else Rd["CSE"]["general"]
  }

  /** Every table is a well-formed curve: at least four anchors, rank 1 first, both orders strict. */
  lemma TablesWellFormed()
    ensures CurveWellFormed(CseGeneralTable) && CurveWellFormed(CseObcTable)
    ensures CurveWellFormed(CseScStTable) && CurveWellFormed(CseEwsTable)
    ensures Last(CseGeneralTable).rank == WorstRank
  {
    CheckedCurveIsOrdered(CseGeneralTable);
    CheckedCurveIsOrdered(CseObcTable);
    CheckedCurveIsOrdered(CseScStTable);
    CheckedCurveIsOrdered(CseEwsTable);
  }

  /** Every curve the lookup can return is well formed, tops out at 90 marks and ends at most at rank 35000. */
  lemma TableWellFormed(branch: string, category: string)
    ensures CurveWellFormed(Table(branch, category))
    ensures Table(branch, category)[0].marks == 90.0
    ensures Last(Table(branch, category)).rank <= WorstRank
  {
    TablesWellFormed();
  }

  /**
   * `calculateAIR(br, cat, marks)`: clamp to rank 1 at or above the top anchor, to the last
   * anchor at or below the bottom one, interpolate in between; after an unsuccessful scan
   * the code returns the last anchor's rank.
   */
  function CalculateAir(branch: string, category: string, marks: real): (r: int)
    ensures 1 <= r <= WorstRank
    ensures marks >= 90.0 ==> r == 1
  {
    TableWellFormed(branch, category);
    var s := Table(branch, category);
    InterpolateBounds(marks, s, Last(s).rank);
    ClampInterpolate(marks, s, Last(s).rank)
  }

  /** Only CSE is in the table, so every other branch gets the CSE/general result whatever the category. */
  lemma OtherBranchesUseCseGeneral(branch: string, category: string, marks: real)
    requires branch != "CSE"
    ensures CalculateAir(branch, category, marks) == CalculateAir("CSE", "general", marks)
  {
    assert branch !in Rd;
  }

  /** A CSE category key outside the four also falls back to CSE/general. */
  lemma UnknownCategoryUsesCseGeneral(category: string, marks: real)
    requires category !in {"general", "obc", "sc_st", "ews"}
    ensures CalculateAir("CSE", category, marks) == CalculateAir("CSE", "general", marks)
  {
    assert category !in Rd["CSE"];
  }

  /** CSE/general clamps: 90 marks or more give rank 1, 25 marks or fewer give rank 35000. */
  lemma CseGeneralClamps(marks: real)
    ensures marks >= 90.0 ==> CalculateAir("CSE", "general", marks) == 1
    ensures marks <= 25.0 ==> CalculateAir("CSE", "general", marks) == 35000
  {
    TablesWellFormed();
  }

  /**
   * Between two adjacent anchors of the looked-up curve the result is the rounded point on
   * the line between them, so it lies between their ranks.
   */
  lemma OnSegment(branch: string, category: string, marks: real, k: nat)
    requires k < |Table(branch, category)| - 1
    requires Table(branch, category)[k + 1].marks <= marks <= Table(branch, category)[k].marks
    ensures var s := Table(branch, category);
            && CalculateAir(branch, category, marks) == Between(marks, s[k], s[k + 1])
            && s[k].rank <= CalculateAir(branch, category, marks) <= s[k + 1].rank
  {
    TableWellFormed(branch, category);
    var s := Table(branch, category);
    InterpolateOnSegment(marks, s, k, Last(s).rank);
  }

  /** The value returned after the loop plays no part: any other value there gives the same results. */
  lemma FinalReturnUnreachable(branch: string, category: string, marks: real, other: int)
    ensures CalculateAir(branch, category, marks) == ClampInterpolate(marks, Table(branch, category), other)
  {
    TableWellFormed(branch, category);
    var s := Table(branch, category);
    FallbackUnreachable(marks, s, Last(s).rank, other);
  }

  /** More marks never give a worse rank. */
  lemma CalculateAirMonotone(branch: string, category: string, m1: real, m2: real)
    requires m2 <= m1
    ensures CalculateAir(branch, category, m1) <= CalculateAir(branch, category, m2)
  {
    TableWellFormed(branch, category);
    var s := Table(branch, category);
    InterpolateMonotone(m1, m2, s, Last(s).rank);
  }

  /** CSE/general: 60 marks sit on an anchor (rank 3000); 57.5 is halfway to 55 -> 5800, so 4400. */
  lemma CseGeneralExamples()
    ensures CalculateAir("CSE", "general", 60.0) == 3000
    ensures CalculateAir("CSE", "general", 57.5) == 4400
  {
    TablesWellFormed();
    InterpolateAnchor(CseGeneralTable, 5, 35000);
    InterpolateOnSegment(57.5, CseGeneralTable, 5, 35000);
    assert Fraction(57.5, RankPoint(60.0, 3000), RankPoint(55.0, 5800)) == 0.5;
    RoundOfInt(4400);
  }

  /** Every CSE/general anchor of this table is also an anchor of the dataset's CSE/general curve. */
  lemma GeneralAnchorsInDataset()
    ensures forall p :: p in CseGeneralTable ==> p in CseGeneral
  {
  }

  /**
   * At every anchor of this table's CSE/general curve the two engines agree: both return
   * the anchor's own rank.
   */
  lemma AgreesWithEngineAtAnchors(k: nat)
    requires k < |CseGeneralTable|
    ensures CalculateAir("CSE", "general", CseGeneralTable[k].marks)
            == Predictor.InterpolateRank(CseGeneralTable[k].marks, CseGeneral)
  {
    TablesWellFormed();
    CseGeneralIsWellFormed();
    GeneralAnchorsInDataset();
    var p := CseGeneralTable[k];
    assert p in CseGeneral;
    var j :| 0 <= j < |CseGeneral| && CseGeneral[j] == p;
    InterpolateAnchor(CseGeneralTable, k, 35000);
    InterpolateAnchor(CseGeneral, j, Last(CseGeneral).rank);
  }

  /**
   * Between anchors the engines part ways, since the dataset curve has more anchors:
   * CSE/general at 57.5 marks gives 4400 here and 4300 from the engine; CSE/sc_st at 50
   * gives 2000 here (an anchor) and 3750 from the engine (halfway from 55 -> 2000 to 45 -> 5500).
   */
  lemma DiffersFromEngineBetweenAnchors()
    ensures CalculateAir("CSE", "general", 57.5) == 4400
    ensures Predictor.InterpolateRank(57.5, CseGeneral) == 4300
    ensures CalculateAir("CSE", "sc_st", 50.0) == 2000
    ensures Predictor.InterpolateRank(50.0, CseScSt) == 3750
  {
    CseGeneralExamples();
    Predictor.CseGeneralAt57_5();
    ScStAt50();
    EngineScStAt50();
  }

  lemma ScStAt50()
    ensures CalculateAir("CSE", "sc_st", 50.0) == 2000
  {
    TablesWellFormed();
    InterpolateAnchor(CseScStTable, 2, 25000);
  }

  lemma EngineScStAt50()
    ensures Predictor.InterpolateRank(50.0, CseScSt) == 3750
  {
    CseScStIsWellFormed();
    InterpolateOnSegment(50.0, CseScSt, 3, Last(CseScSt).rank);
    assert CseScSt[3] == RankPoint(55.0, 2000) && CseScSt[4] == RankPoint(45.0, 5500);
    assert Fraction(50.0, RankPoint(55.0, 2000), RankPoint(45.0, 5500)) == 0.5;
    RoundOfInt(3750);
  }
}
