/**
 * The prediction orchestrator: branch and category lookup, rank interpolation, derived
 * metrics and the institute and recruiter eligibility filters, assembled into one result.
 */
module Predictor {
  import opened Wrappers
  import opened Curves
  import opened Interpolation
  import opened Metrics
  import opened RankData
  import opened Seqs
  import opened Numeric

  /** At most this many institutes and recruiters are reported. */
  const MaxInstitutes: nat := 6
  const MaxPsus: nat := 5

  /** A rank up to 1.5 times an institute's closing rank still counts as probable. */
  const InstituteOvershoot: real := 1.5

  /** Constant reference row of the percentile breakdown. */
  const TopIitPercentile: real := 99.5

  /** The two ways a prediction can fail; both are caller-input errors. */
  datatype PredictError = BranchNotFound(branch: string) | CategoryNotFound(category: string)

  datatype BranchInfo = BranchInfo(name: string, fullName: string, color: string)

  datatype BreakdownRow = BreakdownRow(title: string, value: real, color: string)

  datatype PredictionResult = PredictionResult(
    rank: int,
    rankRange: RankRange,
    percentile: real,
    gateScore: int,
    qualified: bool,
    cutoffMarks: real,
    totalAppeared: int,
    probableInstitutes: seq<InstituteCutoff>,
    eligiblePsus: seq<PsuInfo>,
    branchInfo: BranchInfo,
    performanceLevel: PerformanceLevel,
    percentileBreakdown: seq<BreakdownRow>)

  /** Reads a category key; None for any string that names no category. */
  function ParseCategory(key: string): (c: Option<Category>)
    ensures c.Some? ==> CategoryKey(c.value) == key
    ensures c.None? ==> forall k: Category :: CategoryKey(k) != key
  {
    if key == "general" then Some(General)
    else if key == "obc" then Some(Obc)
    else if key == "sc_st" then Some(ScSt)
    else if key == "ews" then Some(Ews)
    else None
  }

  /** Every category's key reads back as that category. */
  lemma ParseCategoryKey(c: Category)
    ensures ParseCategory(CategoryKey(c)) == Some(c)
  {
  }

  /** The engine's interpolator: clamp at both ends, and the last anchor's rank after an unsuccessful scan. */
  function InterpolateRank(marks: real, data: seq<RankPoint>): int
    requires |data| > 0
    requires MarksDescending(data)
  {
    ClampInterpolate(marks, data, Last(data).rank)
  }

  /** The category's cutoff, or the general cutoff when the branch lists none for it. */
  function ResolveCutoff(b: BranchData, c: Category): real
    requires General in b.cutoffs
  {
    if c in b.cutoffs then b.cutoffs[c] else b.cutoffs[General]
  }

  predicate InstituteMatches(inst: InstituteCutoff, branch: string, rank: int) {
    && branch in inst.branches
    && rank >= inst.rankRange.min
    && rank as real <= inst.rankRange.max as real * InstituteOvershoot
  }

  /** Every institute that matches, in dataset order. */
  function MatchingInstitutes(institutes: seq<InstituteCutoff>, branch: string, rank: int): (r: seq<InstituteCutoff>)
    ensures IsSubsequence(r, institutes)
    ensures forall inst :: inst in r <==> inst in institutes && InstituteMatches(inst, branch, rank)
    ensures forall inst :: multiset(r)[inst] == if InstituteMatches(inst, branch, rank) then multiset(institutes)[inst] else 0
  {
    Filter(institutes, inst => InstituteMatches(inst, branch, rank))
  }

  /**
   * Institutes admitting `branch` whose band contains `rank` (with the upper end stretched
   * by half), the first six in dataset order.
   */
  function ProbableInstitutes(institutes: seq<InstituteCutoff>, branch: string, rank: int): (r: seq<InstituteCutoff>)
    ensures |r| <= MaxInstitutes && |r| <= |MatchingInstitutes(institutes, branch, rank)|
    ensures |r| == MinInt(MaxInstitutes, |MatchingInstitutes(institutes, branch, rank)|)
    ensures IsSubsequence(r, institutes)
    ensures forall inst :: inst in r ==> InstituteMatches(inst, branch, rank)
    ensures |r| < MaxInstitutes ==> forall inst :: inst in institutes && InstituteMatches(inst, branch, rank) ==> inst in r
    ensures r == MatchingInstitutes(institutes, branch, rank)[..|r|]
  {
    var matching := MatchingInstitutes(institutes, branch, rank);
    TakeKeepsSubsequence(matching, institutes, MaxInstitutes);
    Take(matching, MaxInstitutes)
  }

  predicate PsuEligible(psu: PsuInfo, branch: string, score: int) {
    branch in psu.branches && score >= psu.minScore
  }

  /** Every eligible recruiter, in dataset order. */
  function EligibleAll(psus: seq<PsuInfo>, branch: string, score: int): (r: seq<PsuInfo>)
    ensures IsSubsequence(r, psus)
    ensures forall psu :: psu in r <==> psu in psus && PsuEligible(psu, branch, score)
    ensures forall psu :: multiset(r)[psu] == if PsuEligible(psu, branch, score) then multiset(psus)[psu] else 0
  {
    Filter(psus, psu => PsuEligible(psu, branch, score))
  }

  /** Recruiters shortlisting `branch` whose minimum score `score` reaches, the first five in dataset order. */
  function EligiblePsus(psus: seq<PsuInfo>, branch: string, score: int): (r: seq<PsuInfo>)
    ensures |r| <= MaxPsus && |r| <= |EligibleAll(psus, branch, score)|
    ensures |r| == MinInt(MaxPsus, |EligibleAll(psus, branch, score)|)
    ensures IsSubsequence(r, psus)
    ensures forall psu :: psu in r ==> PsuEligible(psu, branch, score)
    ensures |r| < MaxPsus ==> forall psu :: psu in psus && PsuEligible(psu, branch, score) ==> psu in r
    ensures r == EligibleAll(psus, branch, score)[..|r|]
  {
    var eligible := EligibleAll(psus, branch, score);
    TakeKeepsSubsequence(eligible, psus, MaxPsus);
    Take(eligible, MaxPsus)
  }

  /** The prediction for one request against dataset `d`. */
  function PredictWith(d: Dataset, branch: string, category: string, marks: real): Result<PredictionResult, PredictError>
    requires EngineReady(d.branches)
  {
    if branch !in d.branches then Failure(BranchNotFound(branch))
    else
      var b := d.branches[branch];
      match ParseCategory(category)
      case None => Failure(CategoryNotFound(category))
      case Some(c) =>
        if c !in b.rankData then Failure(CategoryNotFound(category))
        else
          var curve := b.rankData[c];
          var cutoff := ResolveCutoff(b, c);
          var baseRank := InterpolateRank(marks, curve);
          var percentile := CalculatePercentile(baseRank, b.totalAppeared);
          var gateScore := CalculateGateScore(marks, cutoff);
          Success(PredictionResult(
            baseRank,
            RankBand(baseRank),
            percentile,
            gateScore,
            marks >= cutoff,
            cutoff,
            b.totalAppeared,
            ProbableInstitutes(d.institutes, branch, baseRank),
            EligiblePsus(d.psus, branch, gateScore),
            BranchInfo(b.name, b.fullName, b.color),
            GetPerformanceLevel(percentile),
            [ BreakdownRow("Your Percentile", percentile, "#00F5FF"),
              BreakdownRow("Qualifying Threshold", CalculatePercentile(b.avgQualified, b.totalAppeared), "#8B5CF6"),
              BreakdownRow("Top IIT Threshold", TopIitPercentile, "#F59E0B") ]))
  }

  /** True when the request names a known branch and a category that branch has a curve for. */
  predicate KnownRequest(d: Dataset, branch: string, category: string) {
    && branch in d.branches
    && ParseCategory(category).Some?
    && ParseCategory(category).value in d.branches[branch].rankData
  }

  /** A prediction fails exactly on an unknown branch or category, with the matching error. */
  lemma PredictFailsOnlyOnUnknownInput(d: Dataset, branch: string, category: string, marks: real)
    requires EngineReady(d.branches)
    ensures PredictWith(d, branch, category, marks).Success? <==> KnownRequest(d, branch, category)
    ensures branch !in d.branches ==> PredictWith(d, branch, category, marks) == Failure(BranchNotFound(branch))
    ensures branch in d.branches && !KnownRequest(d, branch, category)
            ==> PredictWith(d, branch, category, marks) == Failure(CategoryNotFound(category))
  {
  }

  /**
   * Qualification: the reported cutoff is the category's (or the general one when the
   * category has none), the candidate qualifies exactly at or above it, and the score is 0
   * exactly when the candidate does not qualify and at least 350 otherwise.
   */
  lemma PredictQualification(d: Dataset, branch: string, c: Category, marks: real)
    requires EngineReady(d.branches)
    requires KnownRequest(d, branch, CategoryKey(c))
    ensures var r := PredictWith(d, branch, CategoryKey(c), marks).value;
            var cutoffs := d.branches[branch].cutoffs;
            && (c in cutoffs ==> r.cutoffMarks == cutoffs[c])
            && (c !in cutoffs ==> r.cutoffMarks == cutoffs[General])
            && (r.qualified <==> marks >= r.cutoffMarks)
            && (r.gateScore == 0 <==> !r.qualified)
            && (r.qualified ==> QualifyingScore <= r.gateScore <= MaxScore)
  {
    ParseCategoryKey(c);
    var b := d.branches[branch];
    GateScoreZeroIffUnqualified(marks, ResolveCutoff(b, c));
  }

  /**
   * Bounds of a successful prediction: the rank lies between 1 and the curve's last rank,
   * the band contains it and starts at 1 or above, the percentile lies in [0, 99.99] and
   * the score in [0, 1000].
   */
  lemma PredictBounds(d: Dataset, branch: string, category: string, marks: real)
    requires EngineReady(d.branches)
    requires KnownRequest(d, branch, category)
    ensures var r := PredictWith(d, branch, category, marks).value;
            var curve := d.branches[branch].rankData[ParseCategory(category).value];
            && 1 <= r.rank <= Last(curve).rank
            && 1 <= r.rankRange.min <= r.rank <= r.rankRange.max
            && 0.0 <= r.percentile <= MaxPercentile
            && 0 <= r.gateScore <= MaxScore
  {
    var curve := d.branches[branch].rankData[ParseCategory(category).value];
    InterpolateBounds(marks, curve, Last(curve).rank);
  }

  /**
   * More marks never make a prediction worse: the rank does not grow, and score,
   * percentile and performance tier do not fall.
   */
  lemma PredictMonotone(d: Dataset, branch: string, category: string, m1: real, m2: real)
    requires EngineReady(d.branches)
    requires KnownRequest(d, branch, category)
    requires m2 <= m1
    ensures var hi := PredictWith(d, branch, category, m1).value;
            var lo := PredictWith(d, branch, category, m2).value;
            && hi.rank <= lo.rank
            && lo.gateScore <= hi.gateScore
            && lo.percentile <= hi.percentile
            && Standing(lo.performanceLevel) <= Standing(hi.performanceLevel)
  {
    var b := d.branches[branch];
    var c := ParseCategory(category).value;
    var curve := b.rankData[c];
    InterpolateMonotone(m1, m2, curve, Last(curve).rank);
    InterpolateBounds(m1, curve, Last(curve).rank);
    GateScoreMonotone(m1, m2, ResolveCutoff(b, c));
    var r1 := InterpolateRank(m1, curve);
    var r2 := InterpolateRank(m2, curve);
    PercentileMonotone(r1, r2, b.totalAppeared);
    PerformanceLevelMonotone(CalculatePercentile(r2, b.totalAppeared), CalculatePercentile(r1, b.totalAppeared));
  }

  /** The three breakdown rows: the candidate, the average qualifier and the top-IIT reference, all valid percentiles. */
  lemma PredictBreakdown(d: Dataset, branch: string, category: string, marks: real)
    requires EngineReady(d.branches)
    requires KnownRequest(d, branch, category)
    ensures var r := PredictWith(d, branch, category, marks).value;
            var b := d.branches[branch];
            && |r.percentileBreakdown| == 3
            && r.percentileBreakdown[0].value == r.percentile
            && r.percentileBreakdown[1].value == CalculatePercentile(b.avgQualified, b.totalAppeared)
            && r.percentileBreakdown[2].value == TopIitPercentile
            && forall row :: row in r.percentileBreakdown ==> 0.0 <= row.value <= MaxPercentile
  {
  }

  /** The prediction over the repository's own dataset. */
  function PredictRank(branch: string, category: string, marks: real): Result<PredictionResult, PredictError>
  {
    DatasetIsWellFormed();
    PredictWith(GateDataset, branch, category, marks)
  }

  /** How a successful prediction is assembled from the branch record it looks up. */
  lemma PredictWithParts(d: Dataset, branch: string, c: Category, marks: real)
    requires EngineReady(d.branches)
    requires branch in d.branches
    requires c in d.branches[branch].rankData
    ensures var b := d.branches[branch];
            var r := PredictWith(d, branch, CategoryKey(c), marks);
            && r.Success?
            && r.value.rank == InterpolateRank(marks, b.rankData[c])
            && r.value.cutoffMarks == ResolveCutoff(b, c)
            && r.value.qualified == (marks >= ResolveCutoff(b, c))
            && r.value.gateScore == CalculateGateScore(marks, ResolveCutoff(b, c))
            && r.value.rankRange == RankBand(r.value.rank)
            && r.value.percentile == CalculatePercentile(r.value.rank, b.totalAppeared)
            && r.value.performanceLevel == GetPerformanceLevel(r.value.percentile)
  {
    ParseCategoryKey(c);
  }

  /** The CSE record of the dataset, with its general curve and cutoff. */
  lemma CseRecord()
    ensures "CSE" in GateDataset.branches && GateDataset.branches["CSE"] == Cse
    ensures General in Cse.rankData && Cse.rankData[General] == CseGeneral
    ensures Cse.cutoffs[General] == 25.0 && Cse.totalAppeared == 145000
  {
  }

  /** Every request the HTTP route lets through (a known branch code, one of the four category keys) gets a result. */
  lemma ValidatedRequestSucceeds(branch: string, c: Category, marks: real)
    requires branch in GateBranchData
    ensures PredictRank(branch, CategoryKey(c), marks).Success?
  {
    DatasetIsWellFormed();
    BranchIsWellFormed(branch);
    ParseCategoryKey(c);
    assert CategoryWellFormed(GateBranchData[branch], c);
  }

  /** A branch code the dataset does not define is rejected, whatever the category and marks. */
  lemma UnknownBranchRejected(branch: string, category: string, marks: real)
    requires branch !in GateBranchData
    ensures PredictRank(branch, category, marks) == Failure(BranchNotFound(branch))
  {
    DatasetIsWellFormed();
  }

  /** A category key outside the four is rejected on every known branch, whatever the marks. */
  lemma UnknownCategoryRejected(branch: string, category: string, marks: real)
    requires branch in GateBranchData
    requires ParseCategory(category).None?
    ensures PredictRank(branch, category, marks) == Failure(CategoryNotFound(category))
  {
    DatasetIsWellFormed();
  }

  /**
   * CSE, general category, 57.5 marks: between the anchors 58 -> 4000 and 55 -> 5800 the
   * rank is 4000 + (0.5 / 3) * 1800 = 4300, with a band of 5% (215) either side; the
   * candidate clears the 25-mark cutoff and the percentile (about 97.03) is "excellent".
   */
  lemma CseGeneralMidRange()
    ensures var r := PredictRank("CSE", "general", 57.5);
            && r.Success?
            && r.value.rank == 4300
            && r.value.rankRange == RankRange(4085, 4515)
            && r.value.qualified
            && r.value.cutoffMarks == 25.0
            && r.value.performanceLevel == Excellent
  {
    DatasetIsWellFormed();
    CseRecord();
    PredictWithParts(GateDataset, "CSE", General, 57.5);
    CseGeneralAt57_5();
    BandAt4300();
    PercentileAt4300();
  }

  lemma CseGeneralAt57_5()
    ensures InterpolateRank(57.5, CseGeneral) == 4300
  {
    InterpolateOnSegment(57.5, CseGeneral, 12, Last(CseGeneral).rank);
    assert CseGeneral[12] == RankPoint(58.0, 4000) && CseGeneral[13] == RankPoint(55.0, 5800);
    assert Fraction(57.5, RankPoint(58.0, 4000), RankPoint(55.0, 5800)) == 1.0 / 6.0;
    RoundOfInt(4300);
  }

  lemma BandAt4300()
    ensures RankBand(4300) == RankRange(4085, 4515)
  {
    assert 4300 as real * 0.05 == 215.0;
    RoundOfInt(215);
  }

  lemma PercentileAt4300()
    ensures GetPerformanceLevel(CalculatePercentile(4300, 145000)) == Excellent
  {
    assert ExactPercentile(4300, 145000) == 140700.0 / 1450.0;
  }

  /** CSE, general category, at or above the top anchor (90 marks): rank 1 and the full score. */
  lemma CseGeneralTopper(marks: real)
    requires marks >= 90.0
    ensures var r := PredictRank("CSE", "general", marks);
            && r.Success?
            && r.value.rank == 1
            && r.value.rankRange == RankRange(1, 1)
            && r.value.gateScore == MaxScore
  {
    DatasetIsWellFormed();
    CseRecord();
    PredictWithParts(GateDataset, "CSE", General, marks);
    RoundOfInt(0);
  }

  /**
   * CSE, general category, below the 25-mark cutoff: the rank is clamped to the last
   * anchor (35000), the candidate does not qualify and the score is 0.
   */
  lemma CseGeneralBelowCutoff(marks: real)
    requires marks < 25.0
    ensures var r := PredictRank("CSE", "general", marks);
            && r.Success?
            && r.value.rank == 35000
            && !r.value.qualified
            && r.value.gateScore == 0
  {
    DatasetIsWellFormed();
    CseRecord();
    PredictWithParts(GateDataset, "CSE", General, marks);
  }
}
