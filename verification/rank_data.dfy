/**
 * The static reference dataset: per-branch rank curves and cutoffs, recruiter (PSU)
 * score thresholds and institute admission rank bands, with the invariants the engine
 * relies on checked against the literal values.
 */
module RankData {
  import opened Curves
  import opened Metrics

  /** Reservation category of a candidate. */
  datatype Category = General | Obc | ScSt | Ews

  /** The key under which the dataset and the callers name a category. */
  function CategoryKey(c: Category): string {
    match c
    case General => "general"
    case Obc => "obc"
    case ScSt => "sc_st"
    case Ews => "ews"
  }

  /**
   * One GATE paper. Cutoffs are qualifying marks per category; `rankData` holds one rank
   * curve per category. The display icon is not modelled.
   */
  datatype BranchData = BranchData(
    name: string,
    fullName: string,
    code: string,
    totalAppeared: int,
    avgQualified: int,
    cutoffs: map<Category, real>,
    rankData: map<Category, seq<RankPoint>>,
    color: string)

  datatype InstituteTier = IitTop | IitMid | NitTop | NitMid

  /** Admission rank band of an institute and the branches it admits through GATE. */
  datatype InstituteCutoff = InstituteCutoff(
    institute: string,
    tier: InstituteTier,
    rankRange: RankRange,
    branches: seq<string>)

  datatype PsuTier = TopTier | Tier2 | Tier3

  /** A recruiter's minimum GATE score and the branches it shortlists from; the package text is not modelled. */
  datatype PsuInfo = PsuInfo(
    name: string,
    shortName: string,
    minScore: int,
    branches: seq<string>,
    category: PsuTier)

  /** Everything the engine reads. */
  datatype Dataset = Dataset(
    branches: map<string, BranchData>,
    psus: seq<PsuInfo>,
    institutes: seq<InstituteCutoff>)

  const MinCurvePoints: nat := 4

  /** A usable curve: enough anchors, the best one at rank 1, marks falling and ranks rising strictly. */
  predicate CurveWellFormed(c: seq<RankPoint>) {
    && |c| >= MinCurvePoints
    && c[0].rank == 1
    && MarksDescending(c)
    && RanksIncreasing(c)
  }

  /**
   * What the engine needs of a branch for category `c`: a well-formed curve starting at the
   * same topper marks as the general curve, and a cutoff between 0 and the topper marks of
   * the score formula.
   */
  predicate CategoryWellFormed(b: BranchData, c: Category) {
    && General in b.rankData
    && c in b.rankData
    && CurveWellFormed(b.rankData[c])
    && CurveWellFormed(b.rankData[General])
    && b.rankData[c][0].marks == b.rankData[General][0].marks
    && c in b.cutoffs
    && 0.0 <= b.cutoffs[c] < TopperMarks
  }

  /**
   * A branch record usable for every category, with the cutoffs ordered
   * sc_st <= obc == ews <= general and fewer qualifiers than candidates.
   */
  predicate BranchWellFormed(b: BranchData) {
    && (forall c :: CategoryWellFormed(b, c))
    && ScSt in b.cutoffs && Obc in b.cutoffs && Ews in b.cutoffs && General in b.cutoffs
    && b.cutoffs[ScSt] <= b.cutoffs[Obc] == b.cutoffs[Ews] <= b.cutoffs[General]
    && 0 < b.avgQualified < b.totalAppeared
  }

  /** Checking the four categories one by one covers them all. */
  lemma EveryCategory(b: BranchData)
    requires CategoryWellFormed(b, General) && CategoryWellFormed(b, Obc)
    requires CategoryWellFormed(b, ScSt) && CategoryWellFormed(b, Ews)
    ensures forall c :: CategoryWellFormed(b, c)
  {
    forall c: Category
      ensures CategoryWellFormed(b, c)
    {
      match c
      case General =>
      case Obc =>
      case ScSt =>
      case Ews =>
    }
  }

  /** An institute band is a non-empty range of positive ranks over known branches. */
  predicate InstituteWellFormed(inst: InstituteCutoff, branches: map<string, BranchData>) {
    && 1 <= inst.rankRange.min <= inst.rankRange.max
    && forall code :: code in inst.branches ==> code in branches
  }

  /** A recruiter threshold is a reachable score over known branches. */
  predicate PsuWellFormed(psu: PsuInfo, branches: map<string, BranchData>) {
    && 0 <= psu.minScore <= MaxScore
    && forall code :: code in psu.branches ==> code in branches
  }

  /**
   * The weaker condition the engine itself needs of a branch: every curve it has is well
   * formed, a general cutoff exists (the fallback for missing categories), and every cutoff
   * lies below the topper marks.
   */
  predicate BranchUsable(b: BranchData) {
    && (forall c :: c in b.rankData ==> CurveWellFormed(b.rankData[c]))
    && General in b.cutoffs
    && (forall c :: c in b.cutoffs ==> 0.0 <= b.cutoffs[c] < TopperMarks)
  }

  predicate EngineReady(branches: map<string, BranchData>) {
    forall code :: code in branches ==> BranchUsable(branches[code])
  }

  lemma WellFormedBranchIsUsable(b: BranchData)
    requires BranchWellFormed(b)
    ensures BranchUsable(b)
    ensures forall c :: c in b.rankData
  {
    forall c: Category
      ensures c in b.rankData && CurveWellFormed(b.rankData[c])
    {
      assert CategoryWellFormed(b, c);
    }
    forall c | c in b.cutoffs
      ensures 0.0 <= b.cutoffs[c] < TopperMarks
    {
      assert CategoryWellFormed(b, c);
    }
    assert CategoryWellFormed(b, General);
  }

  predicate DatasetWellFormed(d: Dataset) {
    && (forall code :: code in d.branches ==> BranchWellFormed(d.branches[code]))
    && (forall inst :: inst in d.institutes ==> InstituteWellFormed(inst, d.branches))
    && (forall psu :: psu in d.psus ==> PsuWellFormed(psu, d.branches))
  }

  // Computer Science & Engineering
  const CseGeneral: seq<RankPoint> := [
    RankPoint(90.0, 1), RankPoint(85.0, 5), RankPoint(82.0, 15), RankPoint(80.0, 30), RankPoint(77.0, 80),
    RankPoint(75.0, 150), RankPoint(72.0, 300), RankPoint(70.0, 500), RankPoint(68.0, 800), RankPoint(65.0, 1400),
    RankPoint(62.0, 2200), RankPoint(60.0, 3000), RankPoint(58.0, 4000), RankPoint(55.0, 5800), RankPoint(52.0, 7500),
    RankPoint(50.0, 9000), RankPoint(47.0, 11500), RankPoint(45.0, 13500), RankPoint(42.0, 16000), RankPoint(40.0, 18500),
    RankPoint(35.0, 22000), RankPoint(30.0, 28000), RankPoint(25.0, 35000)
  ]

  const CseObc: seq<RankPoint> := [
    RankPoint(90.0, 1), RankPoint(82.0, 10), RankPoint(75.0, 80), RankPoint(70.0, 350), RankPoint(65.0, 1000),
    RankPoint(60.0, 2200), RankPoint(55.0, 4200), RankPoint(50.0, 6800), RankPoint(45.0, 10000), RankPoint(40.0, 14000),
    RankPoint(35.0, 18000), RankPoint(25.0, 30000)
  ]

  const CseScSt: seq<RankPoint> := [
    RankPoint(90.0, 1), RankPoint(75.0, 50), RankPoint(65.0, 500), RankPoint(55.0, 2000), RankPoint(45.0, 5500),
    RankPoint(35.0, 12000), RankPoint(20.0, 25000)
  ]

  const CseEws: seq<RankPoint> := [
    RankPoint(90.0, 1), RankPoint(82.0, 10), RankPoint(75.0, 100), RankPoint(65.0, 900), RankPoint(55.0, 3800),
    RankPoint(45.0, 9500), RankPoint(30.0, 25000)
  ]

  const Cse: BranchData := BranchData(
    "CSE", "Computer Science & Engineering", "CS", 145000, 23000,
    map[General := 25.0, Obc := 22.5, ScSt := 16.67, Ews := 22.5],
    map[General := CseGeneral, Obc := CseObc, ScSt := CseScSt, Ews := CseEws],
    "#00F5FF")

  // Data Science & Artificial Intelligence
  const DaGeneral: seq<RankPoint> := [
    RankPoint(85.0, 1), RankPoint(80.0, 5), RankPoint(75.0, 25), RankPoint(72.0, 60), RankPoint(70.0, 100),
    RankPoint(67.0, 200), RankPoint(65.0, 350), RankPoint(62.0, 600), RankPoint(60.0, 900), RankPoint(57.0, 1400),
    RankPoint(55.0, 1900), RankPoint(52.0, 2600), RankPoint(50.0, 3300), RankPoint(47.0, 4000), RankPoint(45.0, 4800),
    RankPoint(40.0, 6000), RankPoint(35.0, 8000), RankPoint(30.0, 10000), RankPoint(25.0, 13000)
  ]

  const DaObc: seq<RankPoint> := [
    RankPoint(85.0, 1), RankPoint(70.0, 60), RankPoint(60.0, 600), RankPoint(50.0, 2200), RankPoint(40.0, 5000),
    RankPoint(30.0, 9500), RankPoint(25.0, 12000)
  ]

  const DaScSt: seq<RankPoint> := [
    RankPoint(85.0, 1), RankPoint(65.0, 200), RankPoint(50.0, 1000), RankPoint(35.0, 4000), RankPoint(20.0, 10000)
  ]

  const DaEws: seq<RankPoint> := [
    RankPoint(85.0, 1), RankPoint(70.0, 70), RankPoint(55.0, 1500), RankPoint(40.0, 5500), RankPoint(25.0, 12000)
  ]

  const Da: BranchData := BranchData(
    "DA", "Data Science & Artificial Intelligence", "DA", 22000, 4500,
    map[General := 25.0, Obc := 22.5, ScSt := 16.67, Ews := 22.5],
    map[General := DaGeneral, Obc := DaObc, ScSt := DaScSt, Ews := DaEws],
    "#8B5CF6")

  // Mechanical Engineering
  const MeGeneral: seq<RankPoint> := [
    RankPoint(88.0, 1), RankPoint(82.0, 10), RankPoint(78.0, 40), RankPoint(75.0, 100), RankPoint(72.0, 250),
    RankPoint(70.0, 450), RankPoint(67.0, 800), RankPoint(65.0, 1300), RankPoint(62.0, 2000), RankPoint(60.0, 2900),
    RankPoint(57.0, 4200), RankPoint(55.0, 5500), RankPoint(52.0, 7500), RankPoint(50.0, 9500), RankPoint(47.0, 12000),
    RankPoint(45.0, 15000), RankPoint(42.0, 18000), RankPoint(40.0, 21000), RankPoint(35.0, 28000), RankPoint(30.0, 36000),
    RankPoint(28.0, 42000)
  ]

  const MeObc: seq<RankPoint> := [
    RankPoint(88.0, 1), RankPoint(75.0, 80), RankPoint(65.0, 1000), RankPoint(55.0, 4500), RankPoint(45.0, 12000),
    RankPoint(35.0, 24000), RankPoint(28.0, 38000)
  ]

  const MeScSt: seq<RankPoint> := [
    RankPoint(88.0, 1), RankPoint(70.0, 300), RankPoint(55.0, 3000), RankPoint(40.0, 15000), RankPoint(25.0, 35000)
  ]

  const MeEws: seq<RankPoint> := [
    RankPoint(88.0, 1), RankPoint(75.0, 100), RankPoint(60.0, 2500), RankPoint(45.0, 12000), RankPoint(30.0, 34000)
  ]

  const Me: BranchData := BranchData(
    "ME", "Mechanical Engineering", "ME", 187000, 28000,
    map[General := 28.52, Obc := 25.67, ScSt := 19.01, Ews := 25.67],
    map[General := MeGeneral, Obc := MeObc, ScSt := MeScSt, Ews := MeEws],
    "#F59E0B")

  // Electronics & Communication Engineering
  const EceGeneral: seq<RankPoint> := [
    RankPoint(90.0, 1), RankPoint(82.0, 15), RankPoint(76.0, 80), RankPoint(72.0, 250), RankPoint(68.0, 700),
    RankPoint(65.0, 1200), RankPoint(62.0, 2000), RankPoint(60.0, 2800), RankPoint(57.0, 4200), RankPoint(55.0, 5500),
    RankPoint(52.0, 7500), RankPoint(50.0, 9200), RankPoint(45.0, 13000), RankPoint(40.0, 17500), RankPoint(35.0, 23000),
    RankPoint(30.0, 30000), RankPoint(25.0, 38000)
  ]

  const EceObc: seq<RankPoint> := [
    RankPoint(90.0, 1), RankPoint(72.0, 180), RankPoint(62.0, 1500), RankPoint(52.0, 6000), RankPoint(40.0, 14500),
    RankPoint(28.0, 28000)
  ]

  const EceScSt: seq<RankPoint> := [
    RankPoint(90.0, 1), RankPoint(65.0, 800), RankPoint(50.0, 5500), RankPoint(35.0, 16000), RankPoint(22.0, 35000)
  ]

  const EceEws: seq<RankPoint> := [
    RankPoint(90.0, 1), RankPoint(70.0, 500), RankPoint(55.0, 4800), RankPoint(40.0, 15500), RankPoint(25.0, 34000)
  ]

  const Ece: BranchData := BranchData(
    "ECE", "Electronics & Communication Engineering", "EC", 112000, 17000,
    map[General := 25.0, Obc := 22.5, ScSt := 16.67, Ews := 22.5],
    map[General := EceGeneral, Obc := EceObc, ScSt := EceScSt, Ews := EceEws],
    "#10B981")

  // Electrical Engineering
  const EeGeneral: seq<RankPoint> := [
    RankPoint(88.0, 1), RankPoint(80.0, 20), RankPoint(74.0, 100), RankPoint(70.0, 300), RankPoint(66.0, 800),
    RankPoint(62.0, 1800), RankPoint(58.0, 3200), RankPoint(55.0, 4800), RankPoint(52.0, 6500), RankPoint(48.0, 9000),
    RankPoint(45.0, 11500), RankPoint(40.0, 15500), RankPoint(35.0, 20000), RankPoint(28.0, 30000)
  ]

  const EeObc: seq<RankPoint> := [
    RankPoint(88.0, 1), RankPoint(70.0, 250), RankPoint(58.0, 2600), RankPoint(45.0, 9500), RankPoint(30.0, 24000)
  ]

  const EeScSt: seq<RankPoint> := [
    RankPoint(88.0, 1), RankPoint(62.0, 1200), RankPoint(45.0, 8000), RankPoint(28.0, 28000)
  ]

  const EeEws: seq<RankPoint> := [
    RankPoint(88.0, 1), RankPoint(68.0, 600), RankPoint(50.0, 7000), RankPoint(30.0, 27000)
  ]

  const Ee: BranchData := BranchData(
    "EE", "Electrical Engineering", "EE", 95000, 15000,
    map[General := 25.4, Obc := 22.86, ScSt := 16.93, Ews := 22.86],
    map[General := EeGeneral, Obc := EeObc, ScSt := EeScSt, Ews := EeEws],
    "#F59E0B")

  // Civil Engineering
  const CeGeneral: seq<RankPoint> := [
    RankPoint(85.0, 1), RankPoint(78.0, 20), RankPoint(73.0, 100), RankPoint(68.0, 400), RankPoint(64.0, 1000),
    RankPoint(60.0, 2000), RankPoint(56.0, 3500), RankPoint(52.0, 5500), RankPoint(48.0, 8000), RankPoint(44.0, 11000),
    RankPoint(40.0, 14000), RankPoint(35.0, 19000), RankPoint(30.0, 25000), RankPoint(26.0, 32000)
  ]

  const CeObc: seq<RankPoint> := [
    RankPoint(85.0, 1), RankPoint(68.0, 350), RankPoint(55.0, 3000), RankPoint(40.0, 12000), RankPoint(27.0, 30000)
  ]

  const CeScSt: seq<RankPoint> := [
    RankPoint(85.0, 1), RankPoint(60.0, 1500), RankPoint(40.0, 10000), RankPoint(20.0, 28000)
  ]

  const CeEws: seq<RankPoint> := [
    RankPoint(85.0, 1), RankPoint(65.0, 800), RankPoint(48.0, 8500), RankPoint(28.0, 28000)
  ]

  const Ce: BranchData := BranchData(
    "CE", "Civil Engineering", "CE", 122000, 19000,
    map[General := 26.02, Obc := 23.42, ScSt := 17.35, Ews := 23.42],
    map[General := CeGeneral, Obc := CeObc, ScSt := CeScSt, Ews := CeEws],
    "#64748B")

  // Chemical Engineering
  const ChGeneral: seq<RankPoint> := [
    RankPoint(83.0, 1), RankPoint(76.0, 15), RankPoint(70.0, 80), RankPoint(66.0, 200), RankPoint(62.0, 500),
    RankPoint(58.0, 1000), RankPoint(54.0, 1800), RankPoint(50.0, 2800), RankPoint(46.0, 3800), RankPoint(42.0, 4800),
    RankPoint(38.0, 6000), RankPoint(30.0, 9000), RankPoint(25.0, 13000)
  ]

  const ChObc: seq<RankPoint> := [
    RankPoint(83.0, 1), RankPoint(65.0, 400), RankPoint(50.0, 2500), RankPoint(35.0, 7000), RankPoint(25.0, 12000)
  ]

  const ChScSt: seq<RankPoint> := [
    RankPoint(83.0, 1), RankPoint(55.0, 1200), RankPoint(35.0, 5500), RankPoint(22.0, 12000)
  ]

  const ChEws: seq<RankPoint> := [
    RankPoint(83.0, 1), RankPoint(60.0, 800), RankPoint(40.0, 5000), RankPoint(25.0, 12000)
  ]

  const Ch: BranchData := BranchData(
    "CH", "Chemical Engineering", "CH", 28000, 4800,
    map[General := 28.08, Obc := 25.27, ScSt := 18.72, Ews := 25.27],
    map[General := ChGeneral, Obc := ChObc, ScSt := ChScSt, Ews := ChEws],
    "#06B6D4")

  // Production & Industrial Engineering
  const PiGeneral: seq<RankPoint> := [
    RankPoint(80.0, 1), RankPoint(72.0, 20), RankPoint(66.0, 80), RankPoint(60.0, 250), RankPoint(55.0, 600),
    RankPoint(50.0, 1100), RankPoint(45.0, 1800), RankPoint(40.0, 2500), RankPoint(35.0, 3500), RankPoint(30.0, 5000),
    RankPoint(27.0, 7000)
  ]

  const PiObc: seq<RankPoint> := [
    RankPoint(80.0, 1), RankPoint(60.0, 200), RankPoint(45.0, 1500), RankPoint(30.0, 5500)
  ]

  const PiScSt: seq<RankPoint> := [
    RankPoint(80.0, 1), RankPoint(50.0, 800), RankPoint(30.0, 4500), RankPoint(20.0, 8000)
  ]

  const PiEws: seq<RankPoint> := [
    RankPoint(80.0, 1), RankPoint(55.0, 600), RankPoint(35.0, 4000), RankPoint(25.0, 7500)
  ]

  const Pi: BranchData := BranchData(
    "PI", "Production & Industrial Engineering", "PI", 14000, 2500,
    map[General := 26.5, Obc := 23.85, ScSt := 17.67, Ews := 23.85],
    map[General := PiGeneral, Obc := PiObc, ScSt := PiScSt, Ews := PiEws],
    "#84CC16")

  const GateBranchData: map<string, BranchData> :=
    map["CSE" := Cse, "DA" := Da, "ME" := Me, "ECE" := Ece, "EE" := Ee, "CE" := Ce, "CH" := Ch, "PI" := Pi]

  const PsuData: seq<PsuInfo> := [
    PsuInfo("Bharat Electronics Limited", "BEL", 600, ["ECE", "EE", "ME", "CSE"], TopTier),
    PsuInfo("ONGC", "ONGC", 580, ["ME", "EE", "CE", "CH"], TopTier),
    PsuInfo("NTPC", "NTPC", 570, ["ME", "EE", "CE"], TopTier),
    PsuInfo("BHEL", "BHEL", 560, ["ME", "EE", "ECE"], TopTier),
    PsuInfo("Power Grid", "PGCIL", 550, ["EE", "ECE"], TopTier),
    PsuInfo("BPCL", "BPCL", 580, ["ME", "EE", "CH"], TopTier),
    PsuInfo("HPCL", "HPCL", 580, ["ME", "EE", "CH", "CE"], TopTier),
    PsuInfo("IOCL", "IOCL", 560, ["ME", "EE", "CH", "CE", "ECE", "CSE"], TopTier),
    PsuInfo("Coal India", "CIL", 520, ["ME", "EE", "CE", "CH"], Tier2),
    PsuInfo("GAIL", "GAIL", 550, ["ME", "EE", "CH", "CE"], Tier2),
    PsuInfo("AAI", "AAI", 500, ["ECE", "EE", "CSE"], Tier2),
    PsuInfo("DRDO", "DRDO", 550, ["CSE", "ECE", "ME", "EE"], TopTier)
  ]

  const InstituteCutoffs: seq<InstituteCutoff> := [
    InstituteCutoff("IIT Bombay", IitTop, RankRange(1, 200), ["CSE", "DA", "EE", "ME"]),
    InstituteCutoff("IIT Delhi", IitTop, RankRange(1, 250), ["CSE", "DA", "EE", "ME"]),
    InstituteCutoff("IIT Madras", IitTop, RankRange(1, 300), ["CSE", "DA", "EE", "ME", "CE"]),
    InstituteCutoff("IIT Kharagpur", IitTop, RankRange(1, 400), ["CSE", "DA", "ECE", "ME", "EE", "CE"]),
    InstituteCutoff("IIT Kanpur", IitTop, RankRange(1, 350), ["CSE", "DA", "EE", "ME"]),
    InstituteCutoff("IIT Roorkee", IitMid, RankRange(100, 600), ["CSE", "ECE", "ME", "EE", "CE"]),
    InstituteCutoff("IIT Hyderabad", IitMid, RankRange(200, 900), ["CSE", "DA", "ECE", "ME"]),
    InstituteCutoff("IIT Guwahati", IitMid, RankRange(250, 1000), ["CSE", "ECE", "ME", "EE", "CE"]),
    InstituteCutoff("IIT BHU", IitMid, RankRange(300, 1500), ["CSE", "ECE", "ME", "EE", "CE"]),
    InstituteCutoff("IIT Indore", IitMid, RankRange(400, 2000), ["CSE", "ECE", "ME", "EE"]),
    InstituteCutoff("NIT Trichy", NitTop, RankRange(500, 3000), ["CSE", "ECE", "ME", "EE", "CE"]),
    InstituteCutoff("NIT Warangal", NitTop, RankRange(600, 4000), ["CSE", "ECE", "ME", "EE", "CE"]),
    InstituteCutoff("NIT Surathkal", NitTop, RankRange(700, 5000), ["CSE", "ECE", "ME", "EE", "CE"]),
    InstituteCutoff("NIT Calicut", NitMid, RankRange(1000, 7000), ["CSE", "ECE", "ME", "EE", "CE"]),
    InstituteCutoff("NIT Rourkela", NitMid, RankRange(1200, 8000), ["CSE", "ECE", "ME", "EE", "CE"])
  ]

  const GateDataset: Dataset := Dataset(GateBranchData, PsuData, InstituteCutoffs)

  lemma CseGeneralIsWellFormed()
    ensures CurveWellFormed(CseGeneral)
  {
    assert CheckCurveFrom(CseGeneral, 18);
    assert CheckCurveFrom(CseGeneral, 12);
    assert CheckCurveFrom(CseGeneral, 6);
    CheckedCurveIsOrdered(CseGeneral);
  }

  lemma CseObcIsWellFormed()
    ensures CurveWellFormed(CseObc)
  {
    CheckedCurveIsOrdered(CseObc);
  }

  lemma CseScStIsWellFormed()
    ensures CurveWellFormed(CseScSt)
  {
    CheckedCurveIsOrdered(CseScSt);
  }

  lemma CseEwsIsWellFormed()
    ensures CurveWellFormed(CseEws)
  {
    CheckedCurveIsOrdered(CseEws);
  }

  lemma CseIsWellFormed()
    ensures BranchWellFormed(Cse)
  {
    CseGeneralIsWellFormed();
    CseObcIsWellFormed();
    CseScStIsWellFormed();
    CseEwsIsWellFormed();
    EveryCategory(Cse);
  }

  lemma DaGeneralIsWellFormed()
    ensures CurveWellFormed(DaGeneral)
  {
    assert CheckCurveFrom(DaGeneral, 12);
    assert CheckCurveFrom(DaGeneral, 6);
    CheckedCurveIsOrdered(DaGeneral);
  }

  lemma DaObcIsWellFormed()
    ensures CurveWellFormed(DaObc)
  {
    CheckedCurveIsOrdered(DaObc);
  }

  lemma DaScStIsWellFormed()
    ensures CurveWellFormed(DaScSt)
  {
    CheckedCurveIsOrdered(DaScSt);
  }

  lemma DaEwsIsWellFormed()
    ensures CurveWellFormed(DaEws)
  {
    CheckedCurveIsOrdered(DaEws);
  }

  lemma DaIsWellFormed()
    ensures BranchWellFormed(Da)
  {
    DaGeneralIsWellFormed();
    DaObcIsWellFormed();
    DaScStIsWellFormed();
    DaEwsIsWellFormed();
    EveryCategory(Da);
  }

  lemma MeGeneralIsWellFormed()
    ensures CurveWellFormed(MeGeneral)
  {
    assert CheckCurveFrom(MeGeneral, 18);
    assert CheckCurveFrom(MeGeneral, 12);
    assert CheckCurveFrom(MeGeneral, 6);
    CheckedCurveIsOrdered(MeGeneral);
  }

  lemma MeObcIsWellFormed()
    ensures CurveWellFormed(MeObc)
  {
    CheckedCurveIsOrdered(MeObc);
  }

  lemma MeScStIsWellFormed()
    ensures CurveWellFormed(MeScSt)
  {
    CheckedCurveIsOrdered(MeScSt);
  }

  lemma MeEwsIsWellFormed()
    ensures CurveWellFormed(MeEws)
  {
    CheckedCurveIsOrdered(MeEws);
  }

  lemma MeIsWellFormed()
    ensures BranchWellFormed(Me)
  {
    MeGeneralIsWellFormed();
    MeObcIsWellFormed();
    MeScStIsWellFormed();
    MeEwsIsWellFormed();
    EveryCategory(Me);
  }

  lemma EceGeneralIsWellFormed()
    ensures CurveWellFormed(EceGeneral)
  {
    assert CheckCurveFrom(EceGeneral, 12);
    assert CheckCurveFrom(EceGeneral, 6);
    CheckedCurveIsOrdered(EceGeneral);
  }

  lemma EceObcIsWellFormed()
    ensures CurveWellFormed(EceObc)
  {
    CheckedCurveIsOrdered(EceObc);
  }

  lemma EceScStIsWellFormed()
    ensures CurveWellFormed(EceScSt)
  {
    CheckedCurveIsOrdered(EceScSt);
  }

  lemma EceEwsIsWellFormed()
    ensures CurveWellFormed(EceEws)
  {
    CheckedCurveIsOrdered(EceEws);
  }

  lemma EceIsWellFormed()
    ensures BranchWellFormed(Ece)
  {
    EceGeneralIsWellFormed();
    EceObcIsWellFormed();
    EceScStIsWellFormed();
    EceEwsIsWellFormed();
    EveryCategory(Ece);
  }

  lemma EeGeneralIsWellFormed()
    ensures CurveWellFormed(EeGeneral)
  {
    CheckedCurveIsOrdered(EeGeneral);
  }

  lemma EeObcIsWellFormed()
    ensures CurveWellFormed(EeObc)
  {
    CheckedCurveIsOrdered(EeObc);
  }

  lemma EeScStIsWellFormed()
    ensures CurveWellFormed(EeScSt)
  {
    CheckedCurveIsOrdered(EeScSt);
  }

  lemma EeEwsIsWellFormed()
    ensures CurveWellFormed(EeEws)
  {
    CheckedCurveIsOrdered(EeEws);
  }

  lemma EeIsWellFormed()
    ensures BranchWellFormed(Ee)
  {
    EeGeneralIsWellFormed();
    EeObcIsWellFormed();
    EeScStIsWellFormed();
    EeEwsIsWellFormed();
    EveryCategory(Ee);
  }

  lemma CeGeneralIsWellFormed()
    ensures CurveWellFormed(CeGeneral)
  {
    CheckedCurveIsOrdered(CeGeneral);
  }

  lemma CeObcIsWellFormed()
    ensures CurveWellFormed(CeObc)
  {
    CheckedCurveIsOrdered(CeObc);
  }

  lemma CeScStIsWellFormed()
    ensures CurveWellFormed(CeScSt)
  {
    CheckedCurveIsOrdered(CeScSt);
  }

  lemma CeEwsIsWellFormed()
    ensures CurveWellFormed(CeEws)
  {
    CheckedCurveIsOrdered(CeEws);
  }

  lemma CeIsWellFormed()
    ensures BranchWellFormed(Ce)
  {
    CeGeneralIsWellFormed();
    CeObcIsWellFormed();
    CeScStIsWellFormed();
    CeEwsIsWellFormed();
    EveryCategory(Ce);
  }

  lemma ChGeneralIsWellFormed()
    ensures CurveWellFormed(ChGeneral)
  {
    CheckedCurveIsOrdered(ChGeneral);
  }

  lemma ChObcIsWellFormed()
    ensures CurveWellFormed(ChObc)
  {
    CheckedCurveIsOrdered(ChObc);
  }

  lemma ChScStIsWellFormed()
    ensures CurveWellFormed(ChScSt)
  {
    CheckedCurveIsOrdered(ChScSt);
  }

  lemma ChEwsIsWellFormed()
    ensures CurveWellFormed(ChEws)
  {
    CheckedCurveIsOrdered(ChEws);
  }

  lemma ChIsWellFormed()
    ensures BranchWellFormed(Ch)
  {
    ChGeneralIsWellFormed();
    ChObcIsWellFormed();
    ChScStIsWellFormed();
    ChEwsIsWellFormed();
    EveryCategory(Ch);
  }

  lemma PiGeneralIsWellFormed()
    ensures CurveWellFormed(PiGeneral)
  {
    CheckedCurveIsOrdered(PiGeneral);
  }

  lemma PiObcIsWellFormed()
    ensures CurveWellFormed(PiObc)
  {
    CheckedCurveIsOrdered(PiObc);
  }

  lemma PiScStIsWellFormed()
    ensures CurveWellFormed(PiScSt)
  {
    CheckedCurveIsOrdered(PiScSt);
  }

  lemma PiEwsIsWellFormed()
    ensures CurveWellFormed(PiEws)
  {
    CheckedCurveIsOrdered(PiEws);
  }

  lemma PiIsWellFormed()
    ensures BranchWellFormed(Pi)
  {
    PiGeneralIsWellFormed();
    PiObcIsWellFormed();
    PiScStIsWellFormed();
    PiEwsIsWellFormed();
    EveryCategory(Pi);
  }

  lemma InstitutesAreWellFormed()
    ensures forall inst :: inst in InstituteCutoffs ==> InstituteWellFormed(inst, GateBranchData)
  {
  }

  lemma PsusAreWellFormed()
    ensures forall psu :: psu in PsuData ==> PsuWellFormed(psu, GateBranchData)
  {
  }

  lemma CseEntryIsWellFormed()
    ensures BranchWellFormed(GateBranchData["CSE"])
  {
    CseIsWellFormed();
  }

  lemma DaEntryIsWellFormed()
    ensures BranchWellFormed(GateBranchData["DA"])
  {
    DaIsWellFormed();
  }

  lemma MeEntryIsWellFormed()
    ensures BranchWellFormed(GateBranchData["ME"])
  {
    MeIsWellFormed();
  }

  lemma EceEntryIsWellFormed()
    ensures BranchWellFormed(GateBranchData["ECE"])
  {
    EceIsWellFormed();
  }

  lemma EeEntryIsWellFormed()
    ensures BranchWellFormed(GateBranchData["EE"])
  {
    EeIsWellFormed();
  }

  lemma CeEntryIsWellFormed()
    ensures BranchWellFormed(GateBranchData["CE"])
  {
    CeIsWellFormed();
  }

  lemma ChEntryIsWellFormed()
    ensures BranchWellFormed(GateBranchData["CH"])
  {
    ChIsWellFormed();
  }

  lemma PiEntryIsWellFormed()
    ensures BranchWellFormed(GateBranchData["PI"])
  {
    PiIsWellFormed();
  }

  lemma BranchIsWellFormed(code: string)
    requires code in GateBranchData
    ensures BranchWellFormed(GateBranchData[code])
  {
    assert code in {"CSE", "DA", "ME", "ECE", "EE", "CE", "CH", "PI"};
    if code == "CSE" { CseEntryIsWellFormed(); }
    else if code == "DA" { DaEntryIsWellFormed(); }
    else if code == "ME" { MeEntryIsWellFormed(); }
    else if code == "ECE" { EceEntryIsWellFormed(); }
    else if code == "EE" { EeEntryIsWellFormed(); }
    else if code == "CE" { CeEntryIsWellFormed(); }
    else if code == "CH" { ChEntryIsWellFormed(); }
    else { PiEntryIsWellFormed(); }
  }

  lemma BranchesAreWellFormed()
    ensures forall code :: code in GateBranchData ==> BranchWellFormed(GateBranchData[code])
  {
    forall code | code in GateBranchData
      ensures BranchWellFormed(GateBranchData[code])
    {
      BranchIsWellFormed(code);
    }
  }

  /** The literal dataset satisfies every invariant the engine relies on. */
  lemma DatasetIsWellFormed()
    ensures DatasetWellFormed(GateDataset)
    ensures EngineReady(GateDataset.branches)
  {
    BranchesAreWellFormed();
    forall code | code in GateBranchData
      ensures BranchUsable(GateBranchData[code])
    {
      WellFormedBranchIsUsable(GateBranchData[code]);
    }
    InstitutesAreWellFormed();
    PsusAreWellFormed();
  }
}
