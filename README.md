# Chronic-disease risk scoring, modelled in Dafny

ClinicCal scores chronic-disease risk in two independently written places:

- **The assessment service** (`RiskV4Helper`). It validates a patient record and fills in the BMI. It then scores five diseases by adding bracketed points:
  - diabetes, hypertension and stroke;
  - major adverse cardiovascular events (MACE);
  - heart disease.

  Each score is capped at 100 and mapped to LOW / MEDIUM / HIGH / VERY_HIGH. The headline score is the worst disease. The service also estimates a ten-year risk per disease and builds fixed recommendation lists.
- **The interactive calculator** (`calculateMetaRiskV4`). It first evaluates the 3-of-5 metabolic-syndrome definition of Taiwan's Health Promotion Administration. It then scores diabetes, hypertension, stroke and cardiovascular disease with its own tables. It also gives general advice.

The same file holds the integer bedside scores and questionnaires. Each one is a sum or count followed by a band table:

- Child-Pugh, CHA2DS2-VASc, HAS-BLED, HEART, CURB-65, mMRC;
- ACT, CAT, IPSS;
- PHQ-9, GAD-7, ISI, BSRS-5, GDS-15;
- Fagerström, FINDRISC, AD8;
- the metabolic-syndrome checklist.

The two engines are modelled separately, each as written.

- The imperative parts become methods. These are the scorers that add to a running score and push factors, the list builders, the metabolic-syndrome evaluator that sets flags and pushes missing criteria, and the point-score loops. Each method is proved equal to a specification function.
- What the source promises is proved about those functions as lemmas: bounds, overrides, bracket exclusivity, the maximum aggregation, count ⇒ verdict, and list shapes.
- One module relates the two engines. It shows where they agree (level thresholds, stroke age ladder, metabolic verdict). It also shows where they diverge: the calculator's cardiovascular age ladder is the service's heart-disease ladder, and its cluster bonus is half of MACE's.

Modules:

| file | module | contents |
|---|---|---|
| `wrappers.dfy` | `Wrappers`, `Tally` | `Option`, `Result`, JavaScript truthiness; counting and summing lemmas |
| `risk_types.dfy` | `RiskTypes` | the service's input, factor and result records |
| `risk_v4_rules.dfy` | `RiskV4Rules` | specification functions of the service and their properties |
| `risk_v4_helper.dfy` | `RiskV4Helper` | the service's scorers and builders as methods |
| `meta_risk_types.dfy` | `MetaRiskTypes` | the calculator's input and result records |
| `meta_risk_rules.dfy` | `MetaRiskRules` | specification functions of `calculateMetaRiskV4` and their properties |
| `meta_risk_v4.dfy` | `MetaRiskV4` | `calculateMetaRiskV4` as methods |
| `calculator_types.dfy` | `CalculatorTypes` | the bedside `CalculatorResult` |
| `point_scores.dfy` | `PointScores` | Child-Pugh, CHA2DS2-VASc, HAS-BLED, HEART, CURB-65, mMRC, metabolic checklist, FINDRISC, AD8 |
| `questionnaires.dfy` | `Questionnaires` | ACT, CAT, IPSS, PHQ-9, GAD-7, ISI, BSRS-5, Fagerström, GDS-15 |
| `copy_comparison.dfy` | `CopyComparison` | agreements and divergences between the two engines |

Modelling conventions:

- **Truthiness.** An optional lab value is `Option<real>`. `Truthy(x)` means present and non-zero. Wherever the code writes `if (input.x)` or `input.x && …`, a reading of 0 counts as absent.
- **Booleans.** Optional boolean flags are plain booleans, with `undefined` read as `false`.
- **Factors.** A service factor is its name, points and weight. The calculator's factors and advice are enumerations, each naming one fixed text of the source.
- **Late advice.** The calculator pushes advice into `dmRecs` and `htnRecs` after their records were built. Those records alias the arrays, so the model returns the final lists.
- **Calculator results.** A bedside result carries the number it shows, its interpretation, its colour and its next step. The display template around the number is not modelled.

Two guards are modelled exactly as they are written:

- The error thrown at RiskV4Helper.ts:730 says the age must lie in 0-120. But the guard `!input.age` at :729 also rejects an age of 0, and the model follows the guard.
- Blood pressure counts for the metabolic syndrome only when both `sbp` and `dbp` are truthy, which is the `sbp && dbp` test at calculations.ts:656. A high systolic reading alone leaves the criterion missing and not met.

## Model

| member | source | states |
|---|---|---|
| RiskV4Rules.ScoreToRiskLevel | ClinicCal/meta_cal/services/RiskV4Helper.ts:710-715 | below 25 is LOW, 25–49 MEDIUM, 50–74 HIGH, from 75 VERY_HIGH, each as an if-and-only-if |
| RiskV4Rules.ScoreToRiskLevelMonotone | ClinicCal/meta_cal/services/RiskV4Helper.ts:710-715 | a higher score never maps to a lower level |
| RiskV4Rules.CalculateOverallRisk | ClinicCal/meta_cal/services/RiskV4Helper.ts:720-723 | the overall score is at least every disease score and equal to one of them |
| RiskV4Rules.ValidateInput | ClinicCal/meta_cal/services/RiskV4Helper.ts:728-735 | passes exactly for an age in 1..120 with a gender; a missing or zero age or one out of range fails first, then a missing gender |
| RiskV4Rules.CalculateBmi | ClinicCal/meta_cal/services/RiskV4Helper.ts:701-705 | a BMI exists exactly when height and weight are truthy, and then BMI × (height/100)² = weight |
| RiskV4Rules.EnrichInput | ClinicCal/meta_cal/services/RiskV4Helper.ts:37-43 | only `bmi` changes; a truthy BMI is kept, a falsy one is replaced by the computed BMI or left absent |
| RiskV4Rules.EnrichInputIdempotent | ClinicCal/meta_cal/services/RiskV4Helper.ts:37-43 | filling in the BMI a second time changes nothing |
| RiskV4Rules.EnrichInputExample | ClinicCal/meta_cal/services/RiskV4Helper.ts:701-705 | 160 cm and 60 kg give a BMI of 23.4375 |
| RiskV4Rules.DiabetesFactorsAccount | ClinicCal/meta_cal/services/RiskV4Helper.ts:116-222 | every factor recorded added points, with weight points/100, and the factors add up to the bracket points |
| RiskV4Rules.DiabetesRiskFacts | ClinicCal/meta_cal/services/RiskV4Helper.ts:99-239 | score in [0,100], level is the quantised score, a diagnosis forces the fixed result, otherwise the score is the capped factor total; ten-year risk in [0,100] |
| RiskV4Rules.TenYearDiabetesRisk | ClinicCal/meta_cal/services/RiskV4Helper.ts:740-746 | at most 100, and non-negative for a non-negative score |
| RiskV4Rules.HypertensionFactorsAccount | ClinicCal/meta_cal/services/RiskV4Helper.ts:262-346 | every factor recorded added points, with weight points/100, and the factors add up to the points |
| RiskV4Rules.HypertensionRiskFacts | ClinicCal/meta_cal/services/RiskV4Helper.ts:245-359 | well formed, never a ten-year risk, a diagnosis forces the fixed result, otherwise the capped factor total |
| RiskV4Rules.StrokeFactorsAccount | ClinicCal/meta_cal/services/RiskV4Helper.ts:382-461 | every factor recorded added points, with weight points/100, and the factors add up to the points |
| RiskV4Rules.TenYearStrokeRisk | ClinicCal/meta_cal/services/RiskV4Helper.ts:751-756 | at most 100, and non-negative for a non-negative score |
| RiskV4Rules.StrokeRiskFacts | ClinicCal/meta_cal/services/RiskV4Helper.ts:365-476 | well formed; a ten-year risk in [0,100] exactly when no prior stroke; a prior stroke forces the fixed result |
| RiskV4Rules.MaceFactorsAccount | ClinicCal/meta_cal/services/RiskV4Helper.ts:486-561 | every factor recorded added points, with weight points/100, and the factors add up to the points |
| RiskV4Rules.MaceAsWrittenDiffersOnlyAfterPriorEvent | ClinicCal/meta_cal/services/RiskV4Helper.ts:486-513 | the factor list as written equals the corrected one exactly when there is no prior heart disease or stroke |
| RiskV4Rules.MaceAsWrittenMisreportsAgeSex | ClinicCal/meta_cal/services/RiskV4Helper.ts:506-513 | a 30-year-old man with heart disease gets an age/sex factor of weight 0.4 that added no points |
| RiskV4Rules.TenYearMaceRisk | ClinicCal/meta_cal/services/RiskV4Helper.ts:761-766 | at most 100, and non-negative for a non-negative score |
| RiskV4Rules.MaceRiskFacts | ClinicCal/meta_cal/services/RiskV4Helper.ts:482-575 | MACE is never forced: well formed, capped factor total, ten-year risk in [0,100] |
| RiskV4Rules.HeartDiseaseFactorsAccount | ClinicCal/meta_cal/services/RiskV4Helper.ts:598-681 | every factor recorded added points, with weight points/100, and the factors add up to the points |
| RiskV4Rules.TenYearHeartDiseaseRisk | ClinicCal/meta_cal/services/RiskV4Helper.ts:771-776 | at most 100, and non-negative for a non-negative score |
| RiskV4Rules.HeartDiseaseRiskFacts | ClinicCal/meta_cal/services/RiskV4Helper.ts:581-696 | well formed; a ten-year risk in [0,100] exactly when not diagnosed; a diagnosis forces the fixed result |
| RiskV4Rules.DiabetesAdviceEscalation | ClinicCal/meta_cal/services/RiskV4Helper.ts:864-881 | the specialist and glucose-tolerance items appear exactly at HIGH and VERY_HIGH |
| RiskV4Rules.HypertensionAdviceEscalation | ClinicCal/meta_cal/services/RiskV4Helper.ts:886-903 | the medication item appears exactly at HIGH and VERY_HIGH |
| RiskV4Rules.StrokeAdviceEscalation | ClinicCal/meta_cal/services/RiskV4Helper.ts:908-930 | the quit-smoking item exactly for a smoker, the antiplatelet and carotid items exactly at HIGH and above, and the stroke-signs item last |
| RiskV4Rules.MaceAdviceEscalation | ClinicCal/meta_cal/services/RiskV4Helper.ts:935-954 | 8 items with the specialist exactly at HIGH and above, otherwise 4 |
| RiskV4Rules.HeartDiseaseAdviceEscalation | ClinicCal/meta_cal/services/RiskV4Helper.ts:959-979 | 8 items with the cardiologist exactly at HIGH and above, otherwise 5 |
| RiskV4Rules.GeneralAdviceSizes | ClinicCal/meta_cal/services/RiskV4Helper.ts:781-806 | 2, 3, 4 and 3 items for LOW, MEDIUM, HIGH and VERY_HIGH |
| RiskV4Rules.GeneralAdviceTiersDisjoint | ClinicCal/meta_cal/services/RiskV4Helper.ts:781-806 | no item appears in two tiers |
| RiskV4Rules.LifestyleAdviceContents | ClinicCal/meta_cal/services/RiskV4Helper.ts:811-835 | weight control exactly from a truthy BMI of 24, exercise exactly when absent, 0 or under 150 minutes, quitting exactly for a smoker, alcohol exactly above 14 drinks |
| RiskV4Rules.LifestyleAdviceShape | ClinicCal/meta_cal/services/RiskV4Helper.ts:811-835 | 3 to 7 items, always ending with diet, sleep and stress management |
| RiskV4Rules.FollowUpAdviceShape | ClinicCal/meta_cal/services/RiskV4Helper.ts:840-859 | 5 items at HIGH and VERY_HIGH, 4 otherwise, ending with ECG and fundus checks |
| RiskV4Rules.Report | ClinicCal/meta_cal/services/RiskV4Helper.ts:45-92 | the report echoes the enriched input, its overall score is the maximum of the five, and its level is that score quantised |
| RiskV4Rules.Assess | ClinicCal/meta_cal/services/RiskV4Helper.ts:32-93 | fails exactly when validation fails, with its error; otherwise reports on the enriched input |
| RiskV4Rules.OverallOfFive | ClinicCal/meta_cal/services/RiskV4Helper.ts:53-61 | the maximum of five results is at least each and equal to one |
| RiskV4Rules.AssessOverallIsWorstDisease | ClinicCal/meta_cal/services/RiskV4Helper.ts:32-93 | a valid input succeeds; the overall score is the worst of the five disease scores, in [0,100], with its level |
| RiskV4Rules.ScoresInRange | ClinicCal/meta_cal/services/RiskV4Helper.ts:224 | every disease score lies in [0,100] |
| RiskV4Rules.DiagnosisOverridesEverything | ClinicCal/meta_cal/services/RiskV4Helper.ts:104-114 | two diagnosed patients get identical results for that disease, whatever else differs |
| RiskV4Rules.OlderNeverLowersDiabetesRisk | ClinicCal/meta_cal/services/RiskV4Helper.ts:117-120 | with all else fixed, an older age never lowers the diabetes score |
| RiskV4Rules.OlderNeverLowersHypertensionRisk | ClinicCal/meta_cal/services/RiskV4Helper.ts:245-359 | with all else fixed, an older age never lowers the hypertension score |
| RiskV4Rules.OlderNeverLowersStrokeRisk | ClinicCal/meta_cal/services/RiskV4Helper.ts:365-476 | with all else fixed, an older age never lowers the stroke score |
| RiskV4Rules.OlderNeverLowersMaceRisk | ClinicCal/meta_cal/services/RiskV4Helper.ts:497-504 | with all else fixed, an older age never lowers the MACE score |
| RiskV4Rules.OlderNeverLowersHeartDiseaseRisk | ClinicCal/meta_cal/services/RiskV4Helper.ts:581-696 | with all else fixed, an older age never lowers the heart-disease score |
| RiskV4Rules.DiabetesSeventyOutranksThirty | ClinicCal/meta_cal/services/RiskV4Helper.ts:117-120 | below the cap, the diabetes score at 70 is strictly above that at 30 |
| RiskV4Rules.MacePriorEventAddsForty | ClinicCal/meta_cal/services/RiskV4Helper.ts:487-495 | prior heart disease or prior stroke adds exactly 40 MACE points before the cap |
| RiskV4Rules.MaceClusterBonus | ClinicCal/meta_cal/services/RiskV4Helper.ts:516-531 | at least two of the four major factors add 10 per factor, fewer add nothing |
| RiskV4Rules.MaceLowHdlAddsTen | ClinicCal/meta_cal/services/RiskV4Helper.ts:552-560 | a truthy HDL below 40 adds exactly 10 MACE points |
| RiskV4Rules.MaceMultipleRisksOutrankSingle | ClinicCal/meta_cal/services/RiskV4Helper.ts:482-575 | a patient with four major risk factors outranks one with diabetes alone |
| RiskV4Rules.TenYearCapNeverBinds | ClinicCal/meta_cal/services/RiskV4Helper.ts:740-776 | for a score in [0,100] no ten-year chain reaches its cap |
| RiskV4Helper.CalculateRisk | ClinicCal/meta_cal/services/RiskV4Helper.ts:32-93 | the assessment equals `Assess`: a validation failure or the full report |
| RiskV4Helper.CalculateDiabetesRisk | ClinicCal/meta_cal/services/RiskV4Helper.ts:99-239 | the accumulated result equals the diabetes specification |
| RiskV4Helper.CalculateHypertensionRisk | ClinicCal/meta_cal/services/RiskV4Helper.ts:245-359 | the accumulated result equals the hypertension specification |
| RiskV4Helper.CalculateStrokeRisk | ClinicCal/meta_cal/services/RiskV4Helper.ts:365-476 | the accumulated result equals the stroke specification |
| RiskV4Helper.CalculateMaceRisk | ClinicCal/meta_cal/services/RiskV4Helper.ts:482-575 | the accumulated result equals the corrected MACE specification |
| RiskV4Helper.CalculateHeartDiseaseRisk | ClinicCal/meta_cal/services/RiskV4Helper.ts:581-696 | the accumulated result equals the heart-disease specification |
| RiskV4Helper.CalculateTenYearDiabetesRisk | ClinicCal/meta_cal/services/RiskV4Helper.ts:740-746 | the multiplied risk equals its specification |
| RiskV4Helper.CalculateTenYearStrokeRisk | ClinicCal/meta_cal/services/RiskV4Helper.ts:751-756 | the multiplied risk equals its specification |
| RiskV4Helper.CalculateTenYearMaceRisk | ClinicCal/meta_cal/services/RiskV4Helper.ts:761-766 | the multiplied risk equals its specification |
| RiskV4Helper.CalculateTenYearHeartDiseaseRisk | ClinicCal/meta_cal/services/RiskV4Helper.ts:771-776 | the multiplied risk equals its specification |
| RiskV4Helper.GenerateGeneralRecommendations | ClinicCal/meta_cal/services/RiskV4Helper.ts:781-806 | the pushed list equals the tier of the level |
| RiskV4Helper.GenerateLifestyleModifications | ClinicCal/meta_cal/services/RiskV4Helper.ts:811-835 | the pushed list equals the lifestyle specification |
| RiskV4Helper.GenerateMedicalFollowUp | ClinicCal/meta_cal/services/RiskV4Helper.ts:840-859 | the pushed list equals the follow-up specification |
| RiskV4Helper.GenerateDiabetesRecommendations | ClinicCal/meta_cal/services/RiskV4Helper.ts:864-881 | the pushed list equals the diabetes advice of the level |
| RiskV4Helper.GenerateHypertensionRecommendations | ClinicCal/meta_cal/services/RiskV4Helper.ts:886-903 | the pushed list equals the hypertension advice of the level |
| RiskV4Helper.GenerateStrokeRecommendations | ClinicCal/meta_cal/services/RiskV4Helper.ts:908-930 | the pushed list equals the stroke advice of smoking and level |
| RiskV4Helper.GenerateMaceRecommendations | ClinicCal/meta_cal/services/RiskV4Helper.ts:935-954 | the pushed list equals the MACE advice of the level |
| RiskV4Helper.GenerateHeartDiseaseRecommendations | ClinicCal/meta_cal/services/RiskV4Helper.ts:959-979 | the pushed list equals the heart-disease advice of the level |
| MetaRiskRules.GetRiskLevel | ClinicCal/utils/calculations.ts:625-630 | below 25 is LOW, 25–49 MEDIUM, 50–74 HIGH, from 75 VERY_HIGH, each as an if-and-only-if |
| MetaRiskRules.GetRiskLevelMonotone | ClinicCal/utils/calculations.ts:625-630 | a higher score never maps to a lower level |
| MetaRiskRules.MetaBmi | ClinicCal/utils/calculations.ts:633 | 0 unless weight and height are truthy, otherwise weight over height in metres squared |
| MetaRiskRules.MetabolicStatusCount | ClinicCal/utils/calculations.ts:688-689 | the count of met criteria lies in 0..5, is 0 or 5 exactly when none or all are met, and the syndrome holds exactly from 3 |
| MetaRiskRules.MedicationMeetsCriterion | ClinicCal/utils/calculations.ts:654-678 | each medication flag meets its criterion, whatever was measured, and that criterion is never missing |
| MetaRiskRules.MissingCriteriaContents | ClinicCal/utils/calculations.ts:645-686 | exactly the unmeasured, unmedicated criteria are listed, in checking order, none twice, and none of them is met |
| MetaRiskRules.SystolicAloneIsMissing | ClinicCal/utils/calculations.ts:654-660 | with only a systolic reading, blood pressure is missing and not met, however high the reading |
| MetaRiskRules.DiabetesRiskFacts | ClinicCal/utils/calculations.ts:698-730 | score in [0,100] with its level; a diagnosis forces 100, VERY_HIGH and one label; otherwise the capped sum of the rules |
| MetaRiskRules.HypertensionRiskFacts | ClinicCal/utils/calculations.ts:739-768 | score in [0,100] with its level; a diagnosis forces 100, VERY_HIGH and one label; otherwise the capped sum of the rules |
| MetaRiskRules.StrokeRiskFacts | ClinicCal/utils/calculations.ts:777-801 | score in [0,100] with its level; a prior stroke forces 100, VERY_HIGH and one label; otherwise the capped sum of the rules |
| MetaRiskRules.CvdRiskFacts | ClinicCal/utils/calculations.ts:809-848 | score in [0,100] with its level; a diagnosis forces 100, VERY_HIGH and one label; otherwise the capped sum of the rules |
| MetaRiskRules.MetaAdviceEscalation | ClinicCal/utils/calculations.ts:698-769 | the lifestyle items appear exactly above LOW when undiagnosed; a diagnosis gives its two fixed items; stroke and CVD advice is empty |
| MetaRiskRules.MetaRiskOverall | ClinicCal/utils/calculations.ts:850-877 | the overall score is the largest of the four, in [0,100], with `getRiskLevel` of it, and Part A's status is reported |
| MetaRiskRules.GeneralAdviceShape | ClinicCal/utils/calculations.ts:852-861 | the syndrome warning first and exactly with the syndrome; from 50 two action items plus the smoking item for a smoker; below 50 two maintenance items |
| MetaRiskRules.OlderNeverLowersDiabetesScore | ClinicCal/utils/calculations.ts:703-705 | with all else fixed, an older age never lowers the diabetes score |
| MetaRiskRules.OlderNeverLowersHypertensionScore | ClinicCal/utils/calculations.ts:748-750 | with all else fixed, an older age never lowers the hypertension score |
| MetaRiskRules.OlderNeverLowersStrokeScore | ClinicCal/utils/calculations.ts:783-785 | with all else fixed, an older age never lowers the stroke score |
| MetaRiskRules.OlderNeverLowersCvdScore | ClinicCal/utils/calculations.ts:813-819 | with all else fixed, an older age never lowers the cardiovascular score |
| MetaRiskRules.CvdClusterBonus | ClinicCal/utils/calculations.ts:832-837 | two or more clustered factors add 5 each, fewer add nothing |
| MetaRiskV4.CalculateMetaRiskV4 | ClinicCal/utils/calculations.ts:632-880 | the computed result equals the calculator's specification |
| MetaRiskV4.EvaluateMetabolicSyndrome | ClinicCal/utils/calculations.ts:636-689 | the flags, count, verdict and missing list equal Part A's specification |
| MetaRiskV4.CheckCriterion | ClinicCal/utils/calculations.ts:645-686 | one criterion's flag is its rule, and the missing list grows by it exactly when it is missing |
| MetaRiskV4.ScoreDiabetes | ClinicCal/utils/calculations.ts:693-731 | the diabetes record, with the late advice, equals its specification |
| MetaRiskV4.AccumulateDiabetes | ClinicCal/utils/calculations.ts:703-719 | the uncapped sum and labels equal the diabetes rules |
| MetaRiskV4.DiabetesBrackets | ClinicCal/utils/calculations.ts:703-715 | the age, BMI, glucose and HbA1c brackets each add at most one step |
| MetaRiskV4.ScoreHypertension | ClinicCal/utils/calculations.ts:734-769 | the hypertension record, with the late advice, equals its specification |
| MetaRiskV4.AccumulateHypertension | ClinicCal/utils/calculations.ts:744-757 | the uncapped sum and labels equal the hypertension rules |
| MetaRiskV4.ScoreStroke | ClinicCal/utils/calculations.ts:772-801 | the stroke record equals its specification |
| MetaRiskV4.AccumulateStroke | ClinicCal/utils/calculations.ts:781-791 | the uncapped sum and labels equal the stroke rules |
| MetaRiskV4.AddStrokeAgePoints | ClinicCal/utils/calculations.ts:783-785 | adds exactly the one stroke age bracket |
| MetaRiskV4.ScoreCvd | ClinicCal/utils/calculations.ts:804-848 | the cardiovascular record equals its specification |
| MetaRiskV4.AccumulateCvd | ClinicCal/utils/calculations.ts:813-837 | the uncapped sum and labels equal the cardiovascular rules |
| MetaRiskV4.AddCvdAgePoints | ClinicCal/utils/calculations.ts:813-819 | adds exactly the one sex-specific age bracket |
| MetaRiskV4.CountCvdRiskFactors | ClinicCal/utils/calculations.ts:832-836 | the counter equals the number of clustered factors present |
| MetaRiskV4.GenerateGeneralRecommendations | ClinicCal/utils/calculations.ts:852-861 | the pushed list equals the general-advice specification |
| PointScores.BilirubinPoints | ClinicCal/utils/calculations.ts:210 | 1 to 3 points |
| PointScores.AlbuminPoints | ClinicCal/utils/calculations.ts:211 | 1 to 3 points |
| PointScores.InrPoints | ClinicCal/utils/calculations.ts:212 | 1 to 3 points |
| PointScores.ChildPughPoints | ClinicCal/utils/calculations.ts:209-214 | the total lies between 3 and 9 above ascites plus encephalopathy |
| PointScores.ChildPughClass | ClinicCal/utils/calculations.ts:216-222 | class A up to 6, B from 7 to 9, C above; red exactly for C, and the transplant advice exactly when red |
| PointScores.CalculateChildPugh | ClinicCal/utils/calculations.ts:208-223 | the accumulated result equals the class of the points |
| PointScores.ChildPughRange | ClinicCal/utils/calculations.ts:208-214 | with ascites and encephalopathy graded 1 to 3, the total lies in 5..15 |
| PointScores.ChildPughWorseLabsNeverImprove | ClinicCal/utils/calculations.ts:208-222 | worse laboratory values never lower the points or the colour |
| PointScores.ChaAgePoints | ClinicCal/utils/calculations.ts:241-242 | 2 exactly from 75, 1 exactly from 65 to 74, 0 exactly below 65 |
| PointScores.Cha2ds2VascScore | ClinicCal/utils/calculations.ts:238-246 | at most 9, a woman at least 1, and the sex point alone exactly when no other factor is present |
| PointScores.Cha2ds2VascBand | ClinicCal/utils/calculations.ts:248-268 | a man is green at 0 and yellow at 1, a woman green at 1 and yellow at 2; the aspirin and anticoagulant advice exactly for green and red |
| PointScores.CalculateCha2ds2Vasc | ClinicCal/utils/calculations.ts:229-269 | the computed result equals the banded score |
| PointScores.AccumulateCha2ds2Vasc | ClinicCal/utils/calculations.ts:238-246 | the running total equals the score |
| PointScores.Cha2ds2VascLowIffNoRiskFactor | ClinicCal/utils/calculations.ts:229-269 | the result is green exactly when no factor other than sex is present |
| PointScores.Cha2ds2VascSexOnlyShiftsScore | ClinicCal/utils/calculations.ts:246-266 | a woman scores one more than a man with the same factors, with the same interpretation, colour and advice |
| PointScores.HasBledScore | ClinicCal/utils/calculations.ts:282-291 | at most 9 |
| PointScores.HasBledCountsFlags | ClinicCal/utils/calculations.ts:282-291 | the score is the number of true flags, 0 exactly when none is set |
| PointScores.HasBledBand | ClinicCal/utils/calculations.ts:293-304 | red and high risk exactly from 3, never yellow, routine follow-up exactly below 3 |
| PointScores.CalculateHasBled | ClinicCal/utils/calculations.ts:271-305 | the counted result equals the banded score |
| PointScores.HeartScore | ClinicCal/utils/calculations.ts:307-317 | the total of the five parts; green exactly up to 3, red exactly above 6, discharge exactly when green |
| PointScores.HeartScoreMonotone | ClinicCal/utils/calculations.ts:307-317 | a higher total never lowers the colour |
| PointScores.Curb65Score | ClinicCal/utils/calculations.ts:421-422 | at most 5 |
| PointScores.Curb65CountsCriteria | ClinicCal/utils/calculations.ts:421-422 | the score is the number of criteria met |
| PointScores.Curb65Band | ClinicCal/utils/calculations.ts:423-428 | green exactly up to 1, yellow exactly at 2; outpatient care up to 1, admission above |
| PointScores.CalculateCurb65 | ClinicCal/utils/calculations.ts:420-429 | the counted result equals the banded score |
| PointScores.Mmrc | ClinicCal/utils/calculations.ts:431-445 | grades 0 to 4 read their description from the table and any other grade has none; red exactly from grade 2, never yellow |
| PointScores.CheckMetabolicSyndrome | ClinicCal/utils/calculations.ts:580-588 | the value is the number of true flags, in 0..5; red and the syndrome label exactly from 3; never yellow |
| PointScores.FindriscScore | ClinicCal/utils/calculations.ts:600 | between 0 and 10 above the age, BMI, waist and family points |
| PointScores.FindriscBand | ClinicCal/utils/calculations.ts:602-616 | green up to 11, yellow 12 to 14, red from 15, and the testing advice exactly when red |
| PointScores.FindriscRiskAnswersNeverHelp | ClinicCal/utils/calculations.ts:600-616 | inactivity adds 2, a poor diet 1, medication 2 and high glucose 5, and none of these answers lowers the colour |
| PointScores.Ad8 | ClinicCal/utils/calculations.ts:1028-1041 | red and positive exactly from 2, routine follow-up exactly below, never yellow |
| Questionnaires.ActAdult | ClinicCal/utils/calculations.ts:383-403 | the sum; fully controlled exactly from 25, well controlled 20 to 24, red exactly below 20, never yellow |
| Questionnaires.ActChild | ClinicCal/utils/calculations.ts:405-418 | the sum; red and uncontrolled exactly up to 19, never yellow |
| Questionnaires.ActBetterAnswersNeverWorsen | ClinicCal/utils/calculations.ts:383-418 | better answers never worsen either ACT colour |
| Questionnaires.Cat | ClinicCal/utils/calculations.ts:448-473 | the sum; green below 10, yellow 10 to 19, very high from 30, symptomatic advice exactly from 10 |
| CalculatorTypes.IntToString | ClinicCal/utils/calculations.ts:900 | the text interpolated for the quality-of-life index: digits, with a leading '-' for a negative number, that denote the number |
| Questionnaires.Ipss | ClinicCal/utils/calculations.ts:887-902 | the sum; green up to 7, red above 19; the next step reports the quality-of-life index |
| Questionnaires.Phq9 | ClinicCal/utils/calculations.ts:908-920 | the sum; green up to 4, yellow 5 to 14, red from 15, referral exactly from 10 |
| Questionnaires.Phq9Range | ClinicCal/utils/calculations.ts:908-909 | nine answers of 0 to 3 total 0..27 |
| Questionnaires.Gad7 | ClinicCal/utils/calculations.ts:922-933 | the sum; green up to 4, yellow 5 to 14, red from 15, assessment exactly from 10 |
| Questionnaires.Isi | ClinicCal/utils/calculations.ts:935-946 | the sum; green up to 7, red from 22, no next step |
| Questionnaires.MoodScalesMonotone | ClinicCal/utils/calculations.ts:908-946 | higher answers never lower the PHQ-9, GAD-7 or ISI colour |
| Questionnaires.Bsrs5Band | ClinicCal/utils/calculations.ts:955-970 | green up to 9, red from 15, an empty next step exactly up to 5 |
| Questionnaires.Bsrs5 | ClinicCal/utils/calculations.ts:948-981 | a suicide item of 2 or more makes it red with the risk suffix and crisis-line advice, 1 appends the watch note, 0 keeps the band; red exactly when suicide ≥ 2 or sum ≥ 15 |
| Questionnaires.Fagerstrom | ClinicCal/utils/calculations.ts:1006-1022 | the sum; green up to 4, yellow at 5, replacement therapy advised exactly from 4 |
| Questionnaires.GdsScore | ClinicCal/utils/calculations.ts:987-993 | at most one point per answer |
| Questionnaires.Gds15Band | ClinicCal/utils/calculations.ts:995-1003 | green up to 4, red from 12, further assessment exactly when not green |
| Questionnaires.CalculateGds15 | ClinicCal/utils/calculations.ts:983-1004 | the loop's score equals the item-by-item score and the result its band |
| Questionnaires.GdsScoreCountsDepressiveAnswers | ClinicCal/utils/calculations.ts:984-993 | the score counts exactly the "no" answers on items 0, 4, 6, 10, 12 and the "yes" answers elsewhere |
| Questionnaires.GdsFlipOneAnswer | ClinicCal/utils/calculations.ts:987-993 | changing one answer moves the score by exactly one, up when the new answer is the depressive one |
| Questionnaires.GdsExtremes | ClinicCal/utils/calculations.ts:987-993 | all non-depressive answers score 0, all depressive answers score one per item |
| CopyComparison.LevelThresholdsAgree | ClinicCal/utils/calculations.ts:625-630 | `getRiskLevel` and the service's `scoreToRiskLevel` give the same rank for every score |
| CopyComparison.CvdClusterIsHalfOfMace | ClinicCal/utils/calculations.ts:832-837 | both engines count the same clustered factors, and the calculator's bonus is half the service's MACE bonus |
| CopyComparison.CvdAgeLadderIsHeartDiseaseLadder | ClinicCal/utils/calculations.ts:813-819 | the calculator's cardiovascular age ladder is the service's heart-disease ladder, 5 points above MACE's in every non-zero bracket |
| CopyComparison.StrokeAgeLaddersAgree | ClinicCal/utils/calculations.ts:783-785 | the two stroke age ladders agree |
| CopyComparison.MetabolicCheckAgreesWithCalculator | ClinicCal/utils/calculations.ts:580-588 | the bedside checklist, fed Part A's five flags, counts Part A's criteria and is red exactly for Part A's syndrome verdict |

## Left out

- `calculateRisk`'s `uuidv4()` assessment id and `new Date()` timestamp are non-deterministic, so the report has neither.
- The display strings are not modelled. This covers the `toFixed` values and descriptions of the service's factors, the `${score} 分`, `Grade N` and `N 項異常` value templates of the bedside results. Calculator advice and factor labels are enumerations, each naming one fixed text.
- Floating-point rounding is not modelled. Lab values, BMI and ten-year risks are exact reals, and `weight / (height/100)²` is exact division.
- `Math.max` of an empty list (`-Infinity`) cannot arise, because the service always passes five results. `RiskV4Rules.CalculateOverallRisk` therefore requires a non-empty list.
- A gender string outside the enumeration cannot be expressed. The input type has only the two genders, and the service's gender is absent or one of them.
- JavaScript numbers are typed by field. Ages, counts, minutes and years are integers; lab values, BMI, height, weight and alcohol are reals.
- The floating-point formula calculators are not part of this model. These are CKD-EPI, MDRD, UACR/TTKR/UKCR, corrected calcium, osmolality, Fib-4, APRI, Framingham, ABG, the HbA1c/eAG/GA conversions, HOMA-IR and `calculateBMI` with `toFixed`. As a result the grey colour, used only by `calculateBMI`, has no constructor.
- The unused `cutoff` variable of CHA2DS2-VASc has no effect and is not modelled.
- Questionnaires.Fagerstrom, Questionnaires.Ipss, Questionnaires.Cat: take any list of integers, as the source does. They state no range of the total, because the source does not bound the item count or the item values.
- PointScores.Mmrc: an out-of-table grade reads `undefined` in the source. It is modelled as a missing interpretation.
- RiskV4Helper.CalculateRisk, RiskV4Rules.Report, RiskV4Rules.Assess: the report carries the corrected MACE factor list (`MaceFactors`), not the list the service ships (`MaceFactorsAsWritten`, see Findings). The two differ exactly after a prior heart disease or stroke, in the age/sex factor alone. Scores, levels, ten-year risks and advice are unaffected.
- `InputData` omits the fields of risk.types.ts that no scorer or builder reads: `heartRate`, `creatinine`, `smokesPerDay`, `onHypertensionMeds`, `onDiabetesMeds` and `onStatins`. The report's echoed `inputData` therefore lacks them.
- The Express routes, controllers, persistence models and React pages are not part of this model.

## Findings

| source | as written | input that shows it | evidently intended | confidence | as-written member | corrected member |
|---|---|---|---|---|---|---|
| ClinicCal/meta_cal/services/RiskV4Helper.ts:506-513 | The age/sex factor is pushed when the running MACE score is positive, with weight `riskScore / 100`. That score already includes the 40 points of a prior event. | A 30-year-old man with heart disease. He gets an age/sex factor of weight 0.4, although age and sex added no points. | The factor is reported only when age and sex added points, with weight those points over 100. | not executed | RiskV4Rules.MaceAsWrittenMisreportsAgeSex | RiskV4Helper.CalculateMaceRisk |
