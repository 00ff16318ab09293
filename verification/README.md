# GATE rank predictor — prediction engine model

A Dafny model of the rank predictor's engine. The engine takes a GATE paper (branch), a reservation category and the candidate's marks. From these it computes:

- an All-India Rank (AIR), by piecewise-linear interpolation over historical marks→rank anchors;
- a ±5% rank band around that rank;
- the normalised GATE score;
- the percentile among all candidates of the paper;
- a performance tier;
- the first six institutes whose admission band fits the rank;
- the first five public-sector recruiters (PSUs) whose score threshold the candidate reaches.

The model also covers the static dataset and the two older `calculateAIR` interpolators.

Modules, one per concern:

- `Numeric` (numeric.dfy): `Math.round`, `Math.min` and `Math.max` on exact reals.
- `Curves` (curves.dfy): anchors, curve orderings, and why sorting a strictly descending curve changes nothing.
- `Interpolation` (interpolation.dfy): the clamp-and-interpolate algorithm. The repository has three copies of it, and they differ only in the value returned after an unsuccessful scan, so that value is a parameter here.
- `Metrics` (metrics.dfy): rank band, score formula, `toFixed(2)`, percentile and performance tier.
- `Seqs` (seqs.dfy): `filter` and `slice(0, n)`, and the order-preserving subsequence relation they keep.
- `RankData` (rank_data.dfy): the dataset as literal constants, its well-formedness predicates, and proofs that the literal data meets them.
- `Predictor` (predictor.dfy): `predictRank` over any well-formed dataset (`PredictWith`) and over the repository's own dataset (`PredictRank`).
- `LegacyPredictTs` and `LegacyPredictJs` (legacy_predict_ts.dfy, legacy_predict_js.dfy): the two older interpolators, with lemmas on where they agree and where they differ from the engine.

Modelling choices:

- Marks are `real`; ranks and scores are `int`.
- `Math.round(x)` is `Floor(x + 0.5)`.
- `toFixed(2)` rounds to the nearest hundredth on exact reals, with ties going away from zero.
- A branch or category the dataset lacks makes `predictRank` throw. The model returns a `Failure` result instead.

Two facts about the code are worth stating up front:

- **57.5 marks on CSE/general.** The older `lib/predict.ts` table gives 4400 here, from its anchors 60→3000 and 55→5800. `predictRank` gives 4300, because its dataset has anchors at 58→4000 and 55→5800 (`Predictor.CseGeneralMidRange`). `LegacyPredictTs.DiffersFromEngineBetweenAnchors` proves both values.
- **Rounding.** `Math.round` rounds halves up: 75.5 becomes 76 (`LegacyPredictJs.HalfRoundsUp`).

## Model

| member | source | states |
|---|---|---|
| Numeric.Round | lib/predictor.ts:65 | `Math.round` returns the integer within half a unit of its argument, with halves going up |
| Curves.SortIsIdentity | lib/predictor.ts:50 | sorting by descending marks leaves a strictly descending curve unchanged, so the sort can be skipped on the dataset's curves |
| Curves.CheckedCurveIsOrdered | lib/rankData.ts:39-97 | a curve passing the anchor-by-anchor check has strictly descending marks and strictly increasing ranks |
| Interpolation.Fraction | lib/predictor.ts:63 | the interpolation fraction t lies in [0, 1] on the segment, is 0 at the upper anchor and 1 at the lower one |
| Interpolation.Between | lib/predictor.ts:61-65 | the rounded point between two adjacent anchors lies between their ranks and equals an anchor's rank at that anchor's marks |
| Interpolation.BetweenMonotone | lib/predictor.ts:63-65 | on one segment, more marks never give a larger rank |
| Interpolation.InterpolateOnSegment | lib/predictor.ts:53-67 | whenever two adjacent anchors bracket the marks (ends included), the interpolator returns the rounded point between them; this holds for the clamped ends as well |
| Interpolation.FallbackUnreachable | lib/predictor.ts:53-69 | after the two clamps the scan always finds a segment, so the value after the loop never affects the result |
| Interpolation.InterpolateAnchor | lib/predictor.ts:57-66 | marks equal to an anchor's marks give exactly that anchor's rank |
| Interpolation.InterpolateBounds | lib/predictor.ts:48-70 | the result lies between the first anchor's rank and the last anchor's rank, so clamping holds at both ends |
| Interpolation.InterpolateMonotone | lib/predictor.ts:57-66 | higher marks never yield a numerically larger rank |
| Metrics.RankBand | lib/predictor.ts:127-131 | the band starts at 1 or above, contains a positive rank, and its half-width is 5% of the rank to within rounding |
| Metrics.CalculateGateScore | lib/predictor.ts:74-83 | the score is in [0, 1000] and is 0 below the cutoff; with the cutoff Mq below 90, marks M in [Mq, 90] score 350 + 650·(M − Mq)/(90 − Mq) rounded half up, at least 350 whenever qualified, exactly 350 at the cutoff and 1000 from 90 marks up |
| Metrics.GateScoreZeroIffUnqualified | lib/predictor.ts:79-82 | the score is 0 exactly when the marks are below the cutoff |
| Metrics.GateScoreMonotone | lib/predictor.ts:77-83 | more marks never lower the score |
| Metrics.ToFixed2 | lib/predictor.ts:91 | `toFixed(2)` yields a whole number of hundredths within 0.005 of its argument, non-negative for a non-negative argument |
| Metrics.ToFixed2Monotone | lib/predictor.ts:91 | two-decimal rounding keeps the order of its arguments |
| Metrics.CalculatePercentile | lib/predictor.ts:88-92 | 0 for a non-positive rank or total; always in [0, 99.99]; within 0.005 of the exact share beaten when that share is in range; exactly 99.99 when the share is above 99.99 and exactly 0 when it is below 0 |
| Metrics.PercentileMonotone | lib/predictor.ts:88-92 | a better rank never gives a lower percentile |
| Metrics.GetPerformanceLevel | lib/predictor.ts:97-105 | each tier holds exactly on its band of percentiles: 99 and up, [97, 99), [90, 97), [75, 90), below 75 |
| Metrics.PerformanceLevelMonotone | lib/predictor.ts:97-105 | a higher percentile never lands on a lower tier |
| Seqs.Filter | lib/predictor.ts:138-142 | the filtered list keeps every passing occurrence (duplicates included) and drops every failing one, in the original order |
| Seqs.Take | lib/predictor.ts:143 | `slice(0, n)` is the prefix of length min(n, length) |
| Seqs.TakeKeepsSubsequence | lib/predictor.ts:138-143 | a prefix of an order-preserving subsequence is still one |
| RankData.WellFormedBranchIsUsable | lib/predictor.ts:117-121 | a well-formed branch has a curve for every category and gives the engine what it needs: ordered curves, a general cutoff, all cutoffs in [0, 90) |
| RankData.CseIsWellFormed | lib/rankData.ts:30-98 | the CSE record has four curves of at least 4 anchors, each starting at rank 1 at the same top marks, strictly ordered, with cutoffs sc_st ≤ obc = ews ≤ general < 90 and 0 < avgQualified < totalAppeared |
| RankData.DaIsWellFormed | lib/rankData.ts:100-155 | the same invariants for the DA record |
| RankData.MeIsWellFormed | lib/rankData.ts:157-214 | the same invariants for the ME record |
| RankData.EceIsWellFormed | lib/rankData.ts:216-268 | the same invariants for the ECE record |
| RankData.EeIsWellFormed | lib/rankData.ts:270-316 | the same invariants for the EE record |
| RankData.CeIsWellFormed | lib/rankData.ts:318-364 | the same invariants for the CE record |
| RankData.ChIsWellFormed | lib/rankData.ts:366-411 | the same invariants for the CH record |
| RankData.PiIsWellFormed | lib/rankData.ts:413-455 | the same invariants for the PI record |
| RankData.BranchIsWellFormed | lib/rankData.ts:29-456 | every entry of the branch table is well formed |
| RankData.InstitutesAreWellFormed | lib/rankData.ts:495-511 | every institute band has 1 ≤ min ≤ max and lists only branch codes that the branch table defines |
| RankData.PsusAreWellFormed | lib/rankData.ts:470-483 | every PSU threshold lies in [0, 1000] and lists only defined branch codes |
| RankData.DatasetIsWellFormed | lib/rankData.ts:29-511 | the whole literal dataset satisfies every invariant above and is ready for the engine |
| Predictor.ParseCategory | lib/predictor.ts:13 | a key parses to the category whose key it is, and fails only for strings that are no category's key |
| Predictor.ProbableInstitutes | lib/predictor.ts:138-143 | at most 6 institutes, an order-preserving subsequence of the institute list, each admitting the branch with min ≤ rank ≤ 1.5·max; exactly the first min(6, number of matches) matches |
| Predictor.EligiblePsus | lib/predictor.ts:146-149 | at most 5 recruiters, an order-preserving subsequence of the recruiter list, each shortlisting the branch with score ≥ minScore; exactly the first min(5, number of eligible) eligible recruiters |
| Predictor.PredictFailsOnlyOnUnknownInput | lib/predictor.ts:113-118 | a prediction succeeds exactly for a known branch with a curve for the category; otherwise it fails with the branch error or the category error, in that order |
| Predictor.PredictQualification | lib/predictor.ts:120-134 | the cutoff is the category's own, or general when the category has none; qualified exactly when marks ≥ cutoff; score 0 exactly when not qualified, otherwise in [350, 1000] |
| Predictor.PredictBounds | lib/predictor.ts:124-135 | the rank lies in [1, last anchor rank]; the band starts at 1 or above and contains the rank; percentile in [0, 99.99]; score in [0, 1000] |
| Predictor.PredictMonotone | lib/predictor.ts:124-135 | more marks never worsen the rank and never lower the score, percentile or tier |
| Predictor.PredictBreakdown | lib/predictor.ts:152-156 | three rows: the candidate's percentile, the average qualifier's percentile and 99.5, all in [0, 99.99] |
| Predictor.ValidatedRequestSucceeds | app/api/predict/route.ts:24-37 | any branch code in the dataset with any of the four category keys (the inputs the route accepts) gets a result |
| Predictor.UnknownBranchRejected | lib/predictor.ts:113-114 | a branch code missing from the dataset fails with the branch error |
| Predictor.UnknownCategoryRejected | lib/predictor.ts:116-118 | on every branch of the dataset, a category key outside the four fails with the category error, whatever the marks |
| Predictor.CseGeneralMidRange | lib/rankData.ts:40-64 | CSE/general at 57.5 marks: rank 4300, band [4085, 4515], qualified against the 25-mark cutoff, tier "excellent" |
| Predictor.CseGeneralTopper | lib/rankData.ts:40-41 | CSE/general at 90 marks or more: rank 1, band [1, 1], score 1000 |
| Predictor.CseGeneralBelowCutoff | lib/rankData.ts:36-64 | CSE/general below 25 marks: rank 35000, not qualified, score 0 |
| LegacyPredictTs.Table | lib/predict.ts:23-28 | the lookup returns the table's entry when both keys exist and CSE/general otherwise |
| LegacyPredictTs.TablesWellFormed | lib/predict.ts:24 | the four CSE tables are strictly ordered curves starting at rank 1 |
| LegacyPredictTs.CalculateAir | lib/predict.ts:21-41 | the result lies in [1, 35000] and is 1 from 90 marks up |
| LegacyPredictTs.OtherBranchesUseCseGeneral | lib/predict.ts:23-28 | every branch other than CSE gives the CSE/general result, whatever the category |
| LegacyPredictTs.UnknownCategoryUsesCseGeneral | lib/predict.ts:28 | an unknown CSE category key gives the CSE/general result |
| LegacyPredictTs.CseGeneralClamps | lib/predict.ts:24-32 | on CSE/general, 90 marks or more give 1 and 25 or fewer give 35000 |
| LegacyPredictTs.OnSegment | lib/predict.ts:34-38 | between adjacent anchors the result is the rounded point between them and lies between their ranks |
| LegacyPredictTs.FinalReturnUnreachable | lib/predict.ts:31-40 | the return after the loop never affects the result |
| LegacyPredictTs.CalculateAirMonotone | lib/predict.ts:34-39 | more marks never give a worse rank |
| LegacyPredictTs.CseGeneralExamples | lib/predict.ts:24-37 | CSE/general: 60 marks give 3000, 57.5 give 4400 |
| LegacyPredictTs.AgreesWithEngineAtAnchors | lib/predict.ts:24 | at every anchor of the CSE/general table, this interpolator and the engine return the same rank |
| LegacyPredictTs.DiffersFromEngineBetweenAnchors | lib/predict.ts:24-37 | between anchors they differ: CSE/general at 57.5 gives 4400 here and 4300 in the engine; CSE/sc_st at 50 gives 2000 here and 3750 in the engine |
| LegacyPredictJs.JsTableWellFormed | lib/predict.js:13 | the fixed table is a strictly ordered curve from 90→1 to 30→28000 |
| LegacyPredictJs.CalculateAir | lib/predict.js:12-28 | the result lies in [1, 28000] and is never 35000; 90 marks or more give 1, 30 or fewer give 28000 |
| LegacyPredictJs.IgnoresBranchAndCategory | lib/predict.js:12-13 | branch and category do not affect the result |
| LegacyPredictJs.CalculateAirMonotone | lib/predict.js:19-26 | for every branch and category, more marks never give a worse rank |
| LegacyPredictJs.OnSegment | lib/predict.js:19-25 | for every branch and category, between adjacent anchors the result is the rounded point between them and lies between their ranks |
| LegacyPredictJs.HalfRoundsUp | lib/predict.js:23-24 | for every branch and category, 85 marks give 76, because 75.5 rounds up |
| LegacyPredictJs.DiffersFromEngine | lib/predict.js:13 | at 80 marks this table gives 150 while the engine's CSE/general curve gives 30 |

## Left out

- Array sorting is not modelled. Curves are required to be strictly descending by marks; `Curves.SortIsIdentity` shows that the sort would return them unchanged, and every curve in the dataset and in both older tables is proved descending.
- IEEE-754 double arithmetic is not modelled. `Math.round`, the division in the interpolation fraction and `toFixed(2)` are computed on exact reals, so last-bit rounding differences of the original are out of scope. Marks are reals, so `NaN` marks are not modelled either. In the original they make every comparison false: lib/predict.js:27 then returns 35000, lib/predictor.ts:69 returns the last anchor's rank, and the score at lib/predictor.ts:82 is `NaN`. No caller in the repository passes `NaN`: the route reads marks from a JSON body, which has no `NaN`, and the dashboard rejects it with `isNaN`.
- Metrics.CalculateGateScore: requires the cutoff to differ from the topper's 90 marks. With that cutoff the original returns 1000 for marks above 90, because `Math.min` clamps the infinite quotient. It returns `NaN` at exactly 90 marks, where the quotient is 0/0. The dataset's cutoffs all lie below 90 (`RankData.DatasetIsWellFormed`), so the engine never reaches that case.
- Metrics.CalculatePercentile: states the result within 0.005 of the exact percentile rather than its exact two-decimal digits, because the digits of `toFixed` depend on binary floating point.
- Keys that JavaScript objects inherit from their prototype are not modelled. Lookups are on maps, so such keys are simply unknown. In the original they throw instead of failing with the engine's own errors:
  - a branch named `toString` reads `rankData` of a function, which is undefined, and indexing it throws (lib/predictor.ts:117);
  - a category key such as `toString` or `constructor` on a known branch passes the `rankData` check and reaches `[...data]` with a non-iterable function, which throws (lib/predictor.ts:50);
  - in lib/predict.ts:28-29, a CSE category `constructor` also throws instead of falling back to CSE/general, so `LegacyPredictTs.UnknownCategoryUsesCseGeneral` describes only keys that are not inherited.
- Display-only fields are dropped: the branch icon and the PSU package text. Names, full names and colours are kept as opaque strings.
- The HTTP route, session lookup and database writes are not part of this model (app/api/predict/route.ts beyond its input checks). Its branch and category checks are stated as `Predictor.ValidatedRequestSucceeds`. Its 0–100 marks check is not needed, because every property holds for all marks.
- The user and prediction schemas, the login flow, the pages, the components and the three.js scenes are not part of this model. They hold no engine logic.
- The `BRANCHES` and `CATS` display lists in the two older modules are not modelled, since nothing in the computation reads them.
