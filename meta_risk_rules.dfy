/**
 * The rules of the interactive calculator's risk engine, as functions of the
 * form: the metabolic-syndrome evaluation (Taiwan Health Promotion
 * Administration, 3 of 5 criteria), four capped additive disease scores, the
 * overall maximum and the general advice. The properties the calculator
 * promises are lemmas about these functions.
 */
module MetaRiskRules {
  import opened Wrappers
  import opened Tally
  import opened MetaRiskTypes

  /** `getRiskLevel`: cut points 25, 50 and 75. */
  function GetRiskLevel(score: int): (level: MetaRiskLevel)
    ensures level == Low <==> score < 25
    ensures level == Medium <==> 25 <= score < 50
    ensures level == High <==> 50 <= score < 75
    ensures level == VeryHigh <==> 75 <= score
  {
    if score < 25 then Low
    else if score < 50 then Medium
    else if score < 75 then High
    else VeryHigh
  }

  /** A higher score never maps to a lower level. */
  lemma GetRiskLevelMonotone(s1: int, s2: int)
    requires s1 <= s2
    ensures GetRiskLevel(s1).Rank() <= GetRiskLevel(s2).Rank()
  {
  }

  /**
   * `weight / (height/100)^2` when both are truthy, else 0: a missing BMI
   * reads as 0 and so falls below every BMI bracket.
   */
  function MetaBmi(input: MetaRiskInput): (bmi: real)
    ensures !(Truthy(input.weight) && Truthy(input.height)) ==> bmi == 0.0
    ensures Truthy(input.weight) && Truthy(input.height) ==>
      bmi * (input.height.value / 100.0) * (input.height.value / 100.0) == input.weight.value
  {
    if Truthy(input.weight) && Truthy(input.height) then
      var metres := input.height.value / 100.0;
      input.weight.value / (metres * metres)
    else 0.0
  }

  // ------------------------------------------------------------------
  // Metabolic syndrome
  // ------------------------------------------------------------------

  /**
   * A criterion is reported missing when no medication flag settles it and
   * its measurement is blank or zero; blood pressure needs both readings.
   */
  predicate MeasurementMissing(input: MetaRiskInput, c: Criterion)
  {
    match c
    case Waist => !Truthy(input.waist)
    case BloodPressure => !input.onHypertensionMeds && !(Truthy(input.sbp) && Truthy(input.dbp))
    case Glucose => !input.onDiabetesMeds && !Truthy(input.fastingGlucose)
    case Triglycerides => !input.onLipidMeds && !Truthy(input.tg)
    case Hdl => !Truthy(input.hdl)
  }

  /** Whether a criterion is met: a medication flag, or a measured value past the sex-specific cut-off. */
  predicate CriterionMet(input: MetaRiskInput, c: Criterion)
  {
    match c
    case Waist =>
      Truthy(input.waist) && (if input.gender == Male then input.waist.value >= 90.0 else input.waist.value >= 80.0)
    case BloodPressure =>
      input.onHypertensionMeds
      || (Truthy(input.sbp) && Truthy(input.dbp) && (input.sbp.value >= 130.0 || input.dbp.value >= 85.0))
    case Glucose =>
      input.onDiabetesMeds || (Truthy(input.fastingGlucose) && input.fastingGlucose.value >= 100.0)
    case Triglycerides =>
      input.onLipidMeds || (Truthy(input.tg) && input.tg.value >= 150.0)
    case Hdl =>
      Truthy(input.hdl) && (if input.gender == Male then input.hdl.value < 40.0 else input.hdl.value < 50.0)
  }

  function MetDetailsOf(input: MetaRiskInput): MetDetails
  {
    MetDetails(CriterionMet(input, Waist), CriterionMet(input, BloodPressure), CriterionMet(input, Glucose),
               CriterionMet(input, Triglycerides), CriterionMet(input, Hdl))
  }

  /** `[c]` when the criterion is missing, nothing otherwise. */
  function IfMissing(input: MetaRiskInput, c: Criterion): seq<Criterion>
  {
    if MeasurementMissing(input, c) then [c] else []
  }

  /** The missing criteria in checking order. */
  function MissingCriteria(input: MetaRiskInput): seq<Criterion>
  {
    IfMissing(input, Waist) + IfMissing(input, BloodPressure) + IfMissing(input, Glucose)
    + IfMissing(input, Triglycerides) + IfMissing(input, Hdl)
  }

  /** Part A of `calculateMetaRiskV4`: details, count of met criteria, verdict and missing list. */
  function MetabolicStatusOf(input: MetaRiskInput): MetabolicStatus
  {
    var details := MetDetailsOf(input);
    var count := CountTrue(details.Values());
    MetabolicStatus(count >= 3, count, details, MissingCriteria(input))
  }

  /** The count of met criteria lies in 0..5, is 0 or 5 exactly when none or all are met, and decides the verdict. */
  lemma MetabolicStatusCount(input: MetaRiskInput)
    ensures var s := MetabolicStatusOf(input);
      && 0 <= s.criteriaMet <= 5
      && (s.isMetabolicSyndrome <==> s.criteriaMet >= 3)
      && (s.criteriaMet == 0 <==> forall c: Criterion :: !s.details.Met(c))
      && (s.criteriaMet == 5 <==> forall c: Criterion :: s.details.Met(c))
      && s.details == MetDetailsOf(input)
  {
    var d := MetDetailsOf(input);
    CountTrue5(d.waist, d.bp, d.glucose, d.tg, d.hdl);
    assert d.Met(Waist) == d.waist && d.Met(BloodPressure) == d.bp && d.Met(Glucose) == d.glucose;
    assert d.Met(Triglycerides) == d.tg && d.Met(Hdl) == d.hdl;
  }

  /** Each medication flag meets its own criterion whatever was measured, and the criterion is never missing. */
  lemma MedicationMeetsCriterion(input: MetaRiskInput)
    ensures input.onHypertensionMeds ==>
      MetabolicStatusOf(input).details.bp && BloodPressure !in MetabolicStatusOf(input).missingValues
    ensures input.onDiabetesMeds ==>
      MetabolicStatusOf(input).details.glucose && Glucose !in MetabolicStatusOf(input).missingValues
    ensures input.onLipidMeds ==>
      MetabolicStatusOf(input).details.tg && Triglycerides !in MetabolicStatusOf(input).missingValues
  {
    MissingCriteriaContents(input);
  }

  /**
   * The missing list holds exactly the criteria with neither a value nor a
   * medication flag, each once, in the order waist, BP, glucose, TG, HDL;
   * and a missing criterion is never met.
   */
  lemma {:induction false} MissingCriteriaContents(input: MetaRiskInput)
    ensures forall c: Criterion :: c in MissingCriteria(input) <==> MeasurementMissing(input, c)
    ensures forall c: Criterion :: MeasurementMissing(input, c) ==> !CriterionMet(input, c)
    ensures Ascending(MissingCriteria(input))
    ensures |MissingCriteria(input)| <= 5
  {
    var w, b, g, t, h := IfMissing(input, Waist), IfMissing(input, BloodPressure), IfMissing(input, Glucose),
                         IfMissing(input, Triglycerides), IfMissing(input, Hdl);
    assert MissingCriteria(input) == w + b + g + t + h;
    forall c: Criterion
      ensures c in MissingCriteria(input) <==> MeasurementMissing(input, c)
    {
      assert c in w + b + g + t + h <==> c in w || c in b || c in g || c in t || c in h;
    }
    AppendAscending(w, b, 1);
    AppendAscending(w + b, g, 2);
    AppendAscending(w + b + g, t, 3);
    AppendAscending(w + b + g + t, h, 4);
  }

  /** Criteria listed in strictly increasing checking order, hence each at most once. */
  predicate Ascending(s: seq<Criterion>)
  {
    forall i, j :: 0 <= i < j < |s| ==> s[i].Index() < s[j].Index()
  }

  /** Appending at most one criterion that comes after everything listed keeps the list ascending. */
  lemma AppendAscending(a: seq<Criterion>, b: seq<Criterion>, k: nat)
    requires Ascending(a) && forall x :: x in a ==> x.Index() < k
    requires |b| <= 1 && forall x :: x in b ==> x.Index() == k
    ensures Ascending(a + b) && forall x :: x in a + b ==> x.Index() <= k
  {
    forall i, j | 0 <= i < j < |a + b|
      ensures (a + b)[i].Index() < (a + b)[j].Index()
    {
      if j >= |a| {
        assert (a + b)[j] in b && (a + b)[i] in a;
      }
    }
  }

  /** Blood pressure with only a systolic reading is missing and not met, however high that reading is. */
  lemma SystolicAloneIsMissing(input: MetaRiskInput)
    requires !input.onHypertensionMeds && Truthy(input.sbp) && !Truthy(input.dbp)
    ensures BloodPressure in MetabolicStatusOf(input).missingValues
    ensures !MetabolicStatusOf(input).details.bp
  {
    MissingCriteriaContents(input);
  }

  // ------------------------------------------------------------------
  // Shared pieces of the four scorers
  // ------------------------------------------------------------------

  /** `[f]` when the condition holds, nothing otherwise: one conditional `factors.push`. */
  function Note(condition: bool, f: MetaFactor): seq<MetaFactor>
  {
    if condition then [f] else []
  }

  /** `Math.min(raw, 100)`, then the level of the capped score. */
  function Scored(name: string, raw: int, factors: seq<MetaFactor>, advice: seq<MetaAdvice>): DiseaseRisk
  {
    var score := Cap(raw);
    DiseaseRisk(name, score, GetRiskLevel(score), factors, advice)
  }

  // ------------------------------------------------------------------
  // 1. Diabetes
  // ------------------------------------------------------------------

  function DmAgePoints(age: int): nat
  {
    if age >= 65 then 30 else if age >= 55 then 20 else if age >= 45 then 10 else 0
  }

  function DmBmiPoints(bmi: real): nat
  {
    if bmi >= 32.0 then 25 else if bmi >= 28.0 then 20 else if bmi >= 24.0 then 10 else 0
  }

  function DmBmiFactor(bmi: real): seq<MetaFactor>
  {
    if bmi >= 32.0 then [SevereObesity] else if bmi >= 28.0 then [Obesity] else if bmi >= 24.0 then [Overweight] else []
  }

  function DmGlucosePoints(fg: Option<real>): nat
  {
    if Truthy(fg) && fg.value >= 126.0 then 30 else if Truthy(fg) && fg.value >= 100.0 then 20 else 0
  }

  function DmGlucoseFactor(fg: Option<real>): seq<MetaFactor>
  {
    if Truthy(fg) && fg.value >= 126.0 then [GlucoseAtLeast126]
    else if Truthy(fg) && fg.value >= 100.0 then [GlucoseElevated]
    else []
  }

  function DmHba1cPoints(a1c: Option<real>): nat
  {
    if Truthy(a1c) && a1c.value >= 6.5 then 30 else if Truthy(a1c) && a1c.value >= 5.7 then 20 else 0
  }

  function DmHba1cFactor(a1c: Option<real>): seq<MetaFactor>
  {
    if Truthy(a1c) && a1c.value >= 6.5 then [Hba1cAtLeast65]
    else if Truthy(a1c) && a1c.value >= 5.7 then [Hba1cElevated]
    else []
  }

  /** Exercise counts as lacking when it is filled in and under 150 minutes, 0 included. */
  predicate LacksExercise(input: MetaRiskInput)
  {
    input.exerciseMins.Some? && input.exerciseMins.value < 150
  }

  /** The uncapped diabetes sum of an undiagnosed patient. */
  function DmPoints(input: MetaRiskInput, bmi: real): nat
  {
    DmAgePoints(input.age) + DmBmiPoints(bmi) + DmGlucosePoints(input.fastingGlucose) + DmHba1cPoints(input.hba1c)
    + Flag(input.fhDiabetes, 15) + Flag(input.hasHypertension, 10) + Flag(LacksExercise(input), 10)
  }

  /** Age adds points without a factor label; every other rule labels what it adds. */
  function DmFactors(input: MetaRiskInput, bmi: real): seq<MetaFactor>
  {
    DmBmiFactor(bmi) + DmGlucoseFactor(input.fastingGlucose) + DmHba1cFactor(input.hba1c)
    + Note(input.fhDiabetes, FamilyHistoryDiabetes) + Note(input.hasHypertension, HypertensionHistory)
    + Note(LacksExercise(input), LackOfExercise)
  }

  /** The lifestyle items appended once the level is known, for an undiagnosed patient above LOW. */
  function DmEscalation(hasDiabetes: bool, level: MetaRiskLevel): seq<MetaAdvice>
  {
    if level != Low && !hasDiabetes then [DietAndWeightLoss, IncreaseExercise] else []
  }

  /** The diabetes risk as finally returned, including the items pushed after the record was built. */
  function DiabetesRiskOf(input: MetaRiskInput, bmi: real): DiseaseRisk
  {
    if input.hasDiabetes then
      DiseaseRisk(DIABETES_NAME, 100, GetRiskLevel(100), [DiagnosedDiabetes],
                  [ContinuePrescribedMedication, MonitorBloodGlucose] + DmEscalation(true, GetRiskLevel(100)))
    else
      var score := Cap(DmPoints(input, bmi));
      Scored(DIABETES_NAME, DmPoints(input, bmi), DmFactors(input, bmi), DmEscalation(false, GetRiskLevel(score)))
  }

  // ------------------------------------------------------------------
  // 2. Hypertension
  // ------------------------------------------------------------------

  /** At least one truthy reading at or past its cut-off. */
  predicate BpAtLeast(input: MetaRiskInput, systolic: real, diastolic: real)
  {
    (Truthy(input.sbp) && input.sbp.value >= systolic) || (Truthy(input.dbp) && input.dbp.value >= diastolic)
  }

  function HtnBpPoints(input: MetaRiskInput): nat
  {
    if BpAtLeast(input, 140.0, 90.0) then 40
    else if BpAtLeast(input, 130.0, 85.0) then 30
    else if BpAtLeast(input, 120.0, 80.0) then 20
    else 0
  }

  function HtnBpFactor(input: MetaRiskInput): seq<MetaFactor>
  {
    if BpAtLeast(input, 140.0, 90.0) then [BpAtLeast140Over90]
    else if BpAtLeast(input, 130.0, 85.0) then [BpAtLeast130Over85]
    else if BpAtLeast(input, 120.0, 80.0) then [BpAtLeast120Over80]
    else []
  }

  function HtnAgePoints(age: int): nat
  {
    if age >= 65 then 35 else if age >= 55 then 25 else if age >= 40 then 15 else 0
  }

  function HtnBmiPoints(bmi: real): nat
  {
    if bmi >= 28.0 then 20 else if bmi >= 24.0 then 15 else 0
  }

  predicate DrinksTooMuch(input: MetaRiskInput)
  {
    Truthy(input.alcoholWeekly) && input.alcoholWeekly.value > 14.0
  }

  function HtnPoints(input: MetaRiskInput, bmi: real): nat
  {
    HtnBpPoints(input) + HtnAgePoints(input.age) + HtnBmiPoints(bmi) + Flag(input.fhHeart, 15)
    + Flag(input.isSmoker, 10) + Flag(DrinksTooMuch(input), 10)
  }

  /** Only the blood-pressure bracket, smoking and drinking are labelled. */
  function HtnFactors(input: MetaRiskInput): seq<MetaFactor>
  {
    HtnBpFactor(input) + Note(input.isSmoker, Smoking) + Note(DrinksTooMuch(input), ExcessAlcohol)
  }

  function HtnEscalation(hasHypertension: bool, level: MetaRiskLevel): seq<MetaAdvice>
  {
    if level != Low && !hasHypertension then [DashDiet, LoseWeightAndExercise] else []
  }

  function HypertensionRiskOf(input: MetaRiskInput, bmi: real): DiseaseRisk
  {
    if input.hasHypertension then
      DiseaseRisk(HYPERTENSION_NAME, 100, GetRiskLevel(100), [DiagnosedHypertension],
                  [TakePrescribedMedication, MonitorBloodPressureDaily] + HtnEscalation(true, GetRiskLevel(100)))
    else
      var score := Cap(HtnPoints(input, bmi));
      Scored(HYPERTENSION_NAME, HtnPoints(input, bmi), HtnFactors(input), HtnEscalation(false, GetRiskLevel(score)))
  }

  // ------------------------------------------------------------------
  // 3. Stroke
  // ------------------------------------------------------------------

  predicate StrokeHypertensive(input: MetaRiskInput)
  {
    input.hasHypertension || (Truthy(input.sbp) && input.sbp.value >= 140.0)
  }

  function StrokeAgePoints(age: int): nat
  {
    if age >= 75 then 35 else if age >= 65 then 25 else if age >= 55 then 15 else 0
  }

  predicate HighTotalCholesterol(input: MetaRiskInput)
  {
    Truthy(input.tc) && input.tc.value >= 240.0
  }

  function StrokePoints(input: MetaRiskInput): nat
  {
    Flag(StrokeHypertensive(input), 35) + StrokeAgePoints(input.age) + Flag(input.hasDiabetes, 20)
    + Flag(input.hasHeartDisease, 20) + Flag(input.isSmoker, 15) + Flag(HighTotalCholesterol(input), 10)
    + Flag(input.fhStroke, 10)
  }

  function StrokeFactors(input: MetaRiskInput): seq<MetaFactor>
  {
    Note(StrokeHypertensive(input), Hypertension) + Note(input.hasDiabetes, Diabetes)
    + Note(input.hasHeartDisease, HeartDisease) + Note(input.isSmoker, Smoking)
  }

  /** The stroke risk carries no advice. */
  function StrokeRiskOf(input: MetaRiskInput): DiseaseRisk
  {
    if input.hasStroke then DiseaseRisk(STROKE_NAME, 100, GetRiskLevel(100), [PriorStroke], [])
    else Scored(STROKE_NAME, StrokePoints(input), StrokeFactors(input), [])
  }

  // ------------------------------------------------------------------
  // 4. Cardiovascular disease
  // ------------------------------------------------------------------

  /** 25 or 15 points: a man from 45 and 35, a woman from 55 and 45. */
  function CvdAgePoints(age: int, gender: MetaGender): nat
  {
    if gender == Male then (if age >= 45 then 25 else if age >= 35 then 15 else 0)
    else (if age >= 55 then 25 else if age >= 45 then 15 else 0)
  }

  /** 20 after more than ten (truthy) years of smoking, 15 otherwise, for a smoker. */
  function CvdSmokingPoints(input: MetaRiskInput): nat
  {
    if !input.isSmoker then 0
    else if TruthyInt(input.smokeYears) && input.smokeYears.value > 10 then 20
    else 15
  }

  predicate HighLdlCholesterol(input: MetaRiskInput)
  {
    Truthy(input.ldl) && input.ldl.value >= 160.0
  }

  /** Diabetes, hypertension, smoking and LDL of at least 160 counted together. */
  function CvdRiskFactorCount(input: MetaRiskInput): nat
  {
    CountTrue([input.hasDiabetes, input.hasHypertension, input.isSmoker, HighLdlCholesterol(input)])
  }

  /** Five points per clustered factor once there are at least two. */
  function CvdClusterPoints(input: MetaRiskInput): nat
  {
    var count := CvdRiskFactorCount(input);
    if count >= 2 then count * 5 else 0
  }

  function CvdPoints(input: MetaRiskInput): nat
  {
    CvdAgePoints(input.age, input.gender) + Flag(input.fhHeart, 20) + Flag(input.hasDiabetes, 20)
    + Flag(input.hasHypertension, 15) + Flag(HighTotalCholesterol(input), 15) + CvdSmokingPoints(input)
    + Flag(Truthy(input.tg) && input.tg.value >= 200.0, 10) + CvdClusterPoints(input)
  }

  function CvdFactors(input: MetaRiskInput): seq<MetaFactor>
  {
    Note(input.hasDiabetes, Diabetes) + Note(input.hasHypertension, Hypertension)
    + Note(HighTotalCholesterol(input), HighCholesterol) + Note(input.isSmoker, Smoking)
  }

  /** The cardiovascular risk carries no advice. */
  function CvdRiskOf(input: MetaRiskInput): DiseaseRisk
  {
    if input.hasHeartDisease then DiseaseRisk(CVD_NAME, 100, GetRiskLevel(100), [DiagnosedCardiovascularDisease], [])
    else Scored(CVD_NAME, CvdPoints(input), CvdFactors(input), [])
  }

  // ------------------------------------------------------------------
  // Aggregation and general advice
  // ------------------------------------------------------------------

  /** `Math.max(a, b, c, d)`. */
  function Max4(a: int, b: int, c: int, d: int): int
  {
    var ab := if a >= b then a else b;
    var cd := if c >= d then c else d;
    if ab >= cd then ab else cd
  }

  function GeneralAdviceOf(isMetabolicSyndrome: bool, overallScore: int, isSmoker: bool): seq<MetaAdvice>
  {
    (if isMetabolicSyndrome then [MetabolicSyndromeWarning] else [])
    + (if overallScore >= 50 then [FullHealthCheck, ChangeLifestyleNow] + (if isSmoker then [QuittingIsMostEffective] else [])
       else [KeepHealthyHabits, TrackCheckupValues])
  }

  /** `calculateMetaRiskV4`. */
  function MetaRisk(input: MetaRiskInput): MetaRiskResult
  {
    var bmi := MetaBmi(input);
    var status := MetabolicStatusOf(input);
    var dm := DiabetesRiskOf(input, bmi);
    var htn := HypertensionRiskOf(input, bmi);
    var stroke := StrokeRiskOf(input);
    var cvd := CvdRiskOf(input);
    var overall := Max4(dm.score, htn.score, stroke.score, cvd.score);
    MetaRiskResult(overall, GetRiskLevel(overall), dm, htn, stroke, cvd, status,
                   GeneralAdviceOf(status.isMetabolicSyndrome, overall, input.isSmoker))
  }

  // ------------------------------------------------------------------
  // Properties of the four scores and the aggregate
  // ------------------------------------------------------------------

  /** A diagnosis forces 100 and VERY_HIGH with its one label; otherwise the capped sum, in [0, 100]. */
  lemma DiabetesRiskFacts(input: MetaRiskInput, bmi: real)
    ensures var r := DiabetesRiskOf(input, bmi);
      && 0 <= r.score <= 100 && r.level == GetRiskLevel(r.score) && r.name == DIABETES_NAME
      && (input.hasDiabetes ==> r.score == 100 && r.level == VeryHigh && r.factors == [DiagnosedDiabetes])
      && (!input.hasDiabetes ==> r.score == Cap(DmPoints(input, bmi)) && r.factors == DmFactors(input, bmi))
  {
  }

  lemma HypertensionRiskFacts(input: MetaRiskInput, bmi: real)
    ensures var r := HypertensionRiskOf(input, bmi);
      && 0 <= r.score <= 100 && r.level == GetRiskLevel(r.score) && r.name == HYPERTENSION_NAME
      && (input.hasHypertension ==> r.score == 100 && r.level == VeryHigh && r.factors == [DiagnosedHypertension])
      && (!input.hasHypertension ==> r.score == Cap(HtnPoints(input, bmi)) && r.factors == HtnFactors(input))
  {
  }

  lemma StrokeRiskFacts(input: MetaRiskInput)
    ensures var r := StrokeRiskOf(input);
      && 0 <= r.score <= 100 && r.level == GetRiskLevel(r.score) && r.name == STROKE_NAME
      && (input.hasStroke ==> r.score == 100 && r.level == VeryHigh && r.factors == [PriorStroke])
      && (!input.hasStroke ==> r.score == Cap(StrokePoints(input)) && r.factors == StrokeFactors(input))
  {
  }

  lemma CvdRiskFacts(input: MetaRiskInput)
    ensures var r := CvdRiskOf(input);
      && 0 <= r.score <= 100 && r.level == GetRiskLevel(r.score) && r.name == CVD_NAME
      && (input.hasHeartDisease ==> r.score == 100 && r.level == VeryHigh && r.factors == [DiagnosedCardiovascularDisease])
      && (!input.hasHeartDisease ==> r.score == Cap(CvdPoints(input)) && r.factors == CvdFactors(input))
  {
  }

  /**
   * The lifestyle items are appended to the diabetes and hypertension advice
   * exactly when that level is above LOW and the patient is undiagnosed; a
   * diagnosis gives its two fixed items; stroke and CVD give no advice.
   */
  lemma MetaAdviceEscalation(input: MetaRiskInput, bmi: real)
    ensures var dm := DiabetesRiskOf(input, bmi);
      && (DietAndWeightLoss in dm.recommendations <==> dm.level != Low && !input.hasDiabetes)
      && (IncreaseExercise in dm.recommendations <==> dm.level != Low && !input.hasDiabetes)
      && (input.hasDiabetes ==> dm.recommendations == [ContinuePrescribedMedication, MonitorBloodGlucose])
      && (!input.hasDiabetes && dm.level == Low ==> dm.recommendations == [])
    ensures var htn := HypertensionRiskOf(input, bmi);
      && (DashDiet in htn.recommendations <==> htn.level != Low && !input.hasHypertension)
      && (LoseWeightAndExercise in htn.recommendations <==> htn.level != Low && !input.hasHypertension)
      && (input.hasHypertension ==> htn.recommendations == [TakePrescribedMedication, MonitorBloodPressureDaily])
      && (!input.hasHypertension && htn.level == Low ==> htn.recommendations == [])
    ensures StrokeRiskOf(input).recommendations == [] && CvdRiskOf(input).recommendations == []
  {
  }

  /** `Math.max` of four: at least each argument and equal to one of them. */
  lemma Max4Facts(a: int, b: int, c: int, d: int)
    ensures var m := Max4(a, b, c, d);
      a <= m && b <= m && c <= m && d <= m && (m == a || m == b || m == c || m == d)
  {
  }

  /**
   * The overall score is the largest of the four scores, lies in [0, 100],
   * and its level is `getRiskLevel` of it; the metabolic status is Part A's.
   */
  lemma MetaRiskOverall(input: MetaRiskInput)
    ensures var r := MetaRisk(input);
      && r.diabetes.score <= r.overallScore && r.hypertension.score <= r.overallScore
      && r.stroke.score <= r.overallScore && r.cvd.score <= r.overallScore
      && (r.overallScore == r.diabetes.score || r.overallScore == r.hypertension.score
          || r.overallScore == r.stroke.score || r.overallScore == r.cvd.score)
      && 0 <= r.overallScore <= 100
      && r.overallLevel == GetRiskLevel(r.overallScore)
      && r.metabolicStatus == MetabolicStatusOf(input)
  {
    var bmi := MetaBmi(input);
    var dm, htn, stroke, cvd := DiabetesRiskOf(input, bmi), HypertensionRiskOf(input, bmi), StrokeRiskOf(input), CvdRiskOf(input);
    DiabetesRiskFacts(input, bmi);
    HypertensionRiskFacts(input, bmi);
    StrokeRiskFacts(input);
    CvdRiskFacts(input);
    Max4Facts(dm.score, htn.score, stroke.score, cvd.score);
  }

  /**
   * The syndrome warning comes first and only with the syndrome; from an
   * overall 50 the two action items follow, plus the smoking item for a
   * smoker; below 50 the two maintenance items follow.
   */
  lemma GeneralAdviceShape(isMetabolicSyndrome: bool, overallScore: int, isSmoker: bool)
    ensures var g := GeneralAdviceOf(isMetabolicSyndrome, overallScore, isSmoker);
      && (|g| > 0 && g[0] == MetabolicSyndromeWarning <==> isMetabolicSyndrome)
      && (MetabolicSyndromeWarning in g <==> isMetabolicSyndrome)
      && (FullHealthCheck in g <==> overallScore >= 50)
      && (ChangeLifestyleNow in g <==> overallScore >= 50)
      && (QuittingIsMostEffective in g <==> overallScore >= 50 && isSmoker)
      && (KeepHealthyHabits in g <==> overallScore < 50)
      && |g| == Ord(isMetabolicSyndrome) + (if overallScore >= 50 then 2 + Ord(isSmoker) else 2)
  {
  }

  // ------------------------------------------------------------------
  // Age monotonicity
  // ------------------------------------------------------------------

  /** Getting older, all else fixed, never lowers the diabetes score. */
  lemma OlderNeverLowersDiabetesScore(input: MetaRiskInput, older: int, bmi: real)
    requires input.age <= older
    ensures DiabetesRiskOf(input, bmi).score <= DiabetesRiskOf(input.(age := older), bmi).score
  {
    var o := input.(age := older);
    assert DmPoints(input, bmi) <= DmPoints(o, bmi) by {
      assert DmAgePoints(input.age) <= DmAgePoints(older);
      assert LacksExercise(o) == LacksExercise(input);
    }
  }

  /** Getting older, all else fixed, never lowers the hypertension score. */
  lemma OlderNeverLowersHypertensionScore(input: MetaRiskInput, older: int, bmi: real)
    requires input.age <= older
    ensures HypertensionRiskOf(input, bmi).score <= HypertensionRiskOf(input.(age := older), bmi).score
  {
    var o := input.(age := older);
    assert HtnPoints(input, bmi) <= HtnPoints(o, bmi) by {
      assert HtnAgePoints(input.age) <= HtnAgePoints(older);
      assert HtnBpPoints(o) == HtnBpPoints(input) && DrinksTooMuch(o) == DrinksTooMuch(input);
    }
  }

  /** Getting older, all else fixed, never lowers the stroke score. */
  lemma OlderNeverLowersStrokeScore(input: MetaRiskInput, older: int)
    requires input.age <= older
    ensures StrokeRiskOf(input).score <= StrokeRiskOf(input.(age := older)).score
  {
    var o := input.(age := older);
    assert StrokePoints(input) <= StrokePoints(o) by {
      assert StrokeAgePoints(input.age) <= StrokeAgePoints(older);
      assert StrokeHypertensive(o) == StrokeHypertensive(input) && HighTotalCholesterol(o) == HighTotalCholesterol(input);
    }
  }

  /** Getting older, all else fixed, never lowers the cardiovascular score. */
  lemma OlderNeverLowersCvdScore(input: MetaRiskInput, older: int)
    requires input.age <= older
    ensures CvdRiskOf(input).score <= CvdRiskOf(input.(age := older)).score
  {
    var o := input.(age := older);
    assert CvdPoints(input) <= CvdPoints(o) by {
      assert CvdAgePoints(input.age, input.gender) <= CvdAgePoints(older, input.gender);
      assert CvdClusterPoints(o) == CvdClusterPoints(input) && CvdSmokingPoints(o) == CvdSmokingPoints(input);
      assert HighTotalCholesterol(o) == HighTotalCholesterol(input);
    }
  }

  /** Two or more clustered factors add five points each to the cardiovascular sum; one or none adds nothing. */
  lemma CvdClusterBonus(input: MetaRiskInput)
    ensures CvdRiskFactorCount(input) <= 4
    ensures CvdClusterPoints(input) == if CvdRiskFactorCount(input) >= 2 then 5 * CvdRiskFactorCount(input) else 0
    ensures CvdRiskFactorCount(input)
         == Ord(input.hasDiabetes) + Ord(input.hasHypertension) + Ord(input.isSmoker) + Ord(HighLdlCholesterol(input))
  {
    CountTrue4(input.hasDiabetes, input.hasHypertension, input.isSmoker, HighLdlCholesterol(input));
  }
}
