/**
 * The rules of the risk assessment service (RiskV4Helper) as pure
 * functions: the input guard, the BMI fill-in, one bracket ladder per
 * factor, one factor table per disease, the ten-year multipliers, the
 * recommendation lists, the level mapper and the max aggregator. The
 * imperative scorers in module RiskV4Helper are proved equal to these, and
 * the lemmas here state what the engine promises about them.
 */
module RiskV4Rules {
  import opened Wrappers
  import opened Tally
  import opened RiskTypes

  const CALCULATION_VERSION: string := "v4.0.0"

  // ------------------------------------------------------------------
  // Level mapper and aggregator
  // ------------------------------------------------------------------

  /** The shared score-to-level quantiser: cut points 25, 50 and 75. */
  function ScoreToRiskLevel(score: int): (level: RiskLevel)
    ensures level == Low <==> score < 25
    ensures level == Medium <==> 25 <= score < 50
    ensures level == High <==> 50 <= score < 75
    ensures level == VeryHigh <==> 75 <= score
  {
    if score < 25 then Low
    else if score < 50 then Medium
    else if score < 75 then High
    else VeryHigh
  }

  /** A higher score never maps to a lower level. */
  lemma ScoreToRiskLevelMonotone(s1: int, s2: int)
    requires s1 <= s2
    ensures ScoreToRiskLevel(s1).Rank() <= ScoreToRiskLevel(s2).Rank()
  {
  }

  /** `Math.max(...results.map(r => r.riskScore))`: the worst disease drives the headline. */
  function CalculateOverallRisk(results: seq<DiseaseRiskResult>): (overall: int)
    requires |results| > 0
    ensures forall i :: 0 <= i < |results| ==> results[i].riskScore <= overall
    ensures exists i :: 0 <= i < |results| && results[i].riskScore == overall
  {
    if |results| == 1 then results[0].riskScore
    else
      var rest := CalculateOverallRisk(results[1..]);
      assert forall i :: 1 <= i < |results| ==> results[i] == results[1..][i - 1];
      if results[0].riskScore >= rest then results[0].riskScore else rest
  }

  // ------------------------------------------------------------------
  // Input guard and BMI fill-in
  // ------------------------------------------------------------------

  /** The guard run before any scorer: `!age || age < 0 || age > 120`, then `!gender`. */
  function ValidateInput(input: InputData): (o: Outcome<ValidationError>)
    ensures o == Pass <==> input.age.Some? && 1 <= input.age.value <= 120 && input.gender.Some?
    ensures o == Fail(AgeOutOfRange) <==> !(input.age.Some? && 1 <= input.age.value <= 120)
    ensures o == Fail(GenderRequired)
        <==> input.age.Some? && 1 <= input.age.value <= 120 && input.gender.None?
  {
    if !TruthyInt(input.age) || input.age.value < 0 || input.age.value > 120 then Fail(AgeOutOfRange)
    else if input.gender.None? then Fail(GenderRequired)
    else Pass
  }

  /** `calculateBMI`: weight over height in metres squared, when both are truthy. */
  function CalculateBmi(height: Option<real>, weight: Option<real>): (bmi: Option<real>)
    ensures bmi.Some? <==> Truthy(height) && Truthy(weight)
    ensures bmi.Some? ==> bmi.value != 0.0
    ensures bmi.Some? ==> bmi.value * (height.value / 100.0) * (height.value / 100.0) == weight.value
  {
    if !Truthy(height) || !Truthy(weight) then None
    else
      var metres := height.value / 100.0;
      Some(weight.value / (metres * metres))
  }

  /** `{ ...input, bmi: input.bmi || calculateBMI(height, weight) }`. */
  function EnrichInput(input: InputData): (enriched: InputData)
    ensures enriched == input.(bmi := enriched.bmi)
    ensures Truthy(input.bmi) ==> enriched.bmi == input.bmi
    ensures !Truthy(input.bmi) && Truthy(input.height) && Truthy(input.weight) ==>
      enriched.bmi.Some? && enriched.bmi.value * (input.height.value / 100.0) * (input.height.value / 100.0) == input.weight.value
    ensures !Truthy(input.bmi) && !(Truthy(input.height) && Truthy(input.weight)) ==> enriched.bmi.None?
  {
    input.(bmi := if Truthy(input.bmi) then input.bmi else CalculateBmi(input.height, input.weight))
  }

  /** Filling in BMI twice changes nothing more than filling it in once. */
  lemma EnrichInputIdempotent(input: InputData)
    ensures EnrichInput(EnrichInput(input)) == EnrichInput(input)
  {
  }

  /** Height 160 cm and weight 60 kg give a BMI of 23.4375. */
  lemma EnrichInputExample(input: InputData)
    requires input.bmi.None? && input.height == Some(160.0) && input.weight == Some(60.0)
    ensures EnrichInput(input).bmi == Some(23.4375)
  {
  }

  // ------------------------------------------------------------------
  // Factor lists
  // ------------------------------------------------------------------

  /** The factor a scorer pushes for `points`, or nothing when it adds no points. */
  function Entry(name: FactorName, points: nat): seq<Factor>
  {
    if points > 0 then [Factor(name, points, points as real / 100.0)] else []
  }

  /** The sum of the points of a factor list. */
  function Total(factors: seq<Factor>): int
  {
    if factors == [] then 0 else factors[0].points + Total(factors[1..])
  }

  /** Every factor added points, and its weight is its points over 100. */
  ghost predicate Recorded(factors: seq<Factor>)
  {
    forall i :: 0 <= i < |factors| ==>
      factors[i].points > 0 && factors[i].weight == factors[i].points as real / 100.0
  }

  lemma {:induction false} TotalAppend(a: seq<Factor>, b: seq<Factor>)
    ensures Total(a + b) == Total(a) + Total(b)
  {
    if a != [] {
      assert (a + b)[0] == a[0];
      assert (a + b)[1..] == a[1..] + b;
      TotalAppend(a[1..], b);
    } else {
      assert a + b == b;
    }
  }

  lemma EntryFacts(name: FactorName, points: nat)
    ensures Total(Entry(name, points)) == points
    ensures Recorded(Entry(name, points))
    ensures |Entry(name, points)| <= 1
  {
  }

  lemma RecordedAppend(a: seq<Factor>, b: seq<Factor>)
    requires Recorded(a) && Recorded(b)
    ensures Recorded(a + b)
  {
    forall i | 0 <= i < |a + b|
      ensures (a + b)[i].points > 0 && (a + b)[i].weight == (a + b)[i].points as real / 100.0
    {
      if i >= |a| {
        assert (a + b)[i] == b[i - |a|];
      }
    }
  }

  /**
   * Two entries appended to a list: the total grows by their points and
   * the list stays well recorded.
   */
  lemma Push2(fs: seq<Factor>, n1: FactorName, p1: nat, n2: FactorName, p2: nat)
    requires Recorded(fs)
    ensures Total(fs + Entry(n1, p1) + Entry(n2, p2)) == Total(fs) + p1 + p2
    ensures Recorded(fs + Entry(n1, p1) + Entry(n2, p2))
  {
    EntryFacts(n1, p1);
    EntryFacts(n2, p2);
    TotalAppend(fs, Entry(n1, p1));
    TotalAppend(fs + Entry(n1, p1), Entry(n2, p2));
    RecordedAppend(fs, Entry(n1, p1));
    RecordedAppend(fs + Entry(n1, p1), Entry(n2, p2));
  }

  lemma Push1(fs: seq<Factor>, n1: FactorName, p1: nat)
    requires Recorded(fs)
    ensures Total(fs + Entry(n1, p1)) == Total(fs) + p1
    ensures Recorded(fs + Entry(n1, p1))
  {
    EntryFacts(n1, p1);
    TotalAppend(fs, Entry(n1, p1));
    RecordedAppend(fs, Entry(n1, p1));
  }

  /**
   * A disease result as the scorers produce it: a score in [0, 100] that is
   * also the percentage, the level the shared mapper gives it, and factors
   * whose weights are their points over 100.
   */
  ghost predicate WellFormed(r: DiseaseRiskResult)
  {
    && 0 <= r.riskScore <= 100
    && r.riskPercentage == r.riskScore
    && r.riskLevel == ScoreToRiskLevel(r.riskScore)
    && Recorded(r.factors)
  }

  /** The fixed result of an already-diagnosed disease. */
  function Diagnosed(disease: DiseaseType, name: FactorName, tenYear: Option<real>, advice: seq<Advice>): DiseaseRiskResult
  {
    DiseaseRiskResult(disease, 100, 100, VeryHigh, tenYear, [Factor(name, 100, 1.0)], advice)
  }

  /** Escalation items are added at HIGH and VERY_HIGH. */
  predicate Escalated(level: RiskLevel)
  {
    level == High || level == VeryHigh
  }

  // ------------------------------------------------------------------
  // Diabetes
  // ------------------------------------------------------------------

  function DiabetesAgePoints(age: int): nat
  {
    if 45 <= age < 55 then 10
    else if 55 <= age < 65 then 20
    else if age >= 65 then 30
    else 0
  }

  function DiabetesBmiPoints(bmi: Option<real>): nat
  {
    if !Truthy(bmi) then 0
    else if 24.0 <= bmi.value < 28.0 then 10
    else if 28.0 <= bmi.value < 32.0 then 20
    else if bmi.value >= 32.0 then 25
    else 0
  }

  function DiabetesGlucosePoints(glucose: Option<real>): nat
  {
    if !Truthy(glucose) then 0
    else if 100.0 <= glucose.value < 126.0 then 20
    else if glucose.value >= 126.0 then 30
    else 0
  }

  function DiabetesHba1cPoints(hba1c: Option<real>): nat
  {
    if !Truthy(hba1c) then 0
    else if 5.7 <= hba1c.value < 6.5 then 20
    else if hba1c.value >= 6.5 then 30
    else 0
  }

  /** `exerciseMinutesPerWeek !== undefined && exerciseMinutesPerWeek < 150`: zero minutes count. */
  function ExerciseDeficitPoints(minutes: Option<int>): nat
  {
    if minutes.Some? && minutes.value < 150 then 10 else 0
  }

  /** The diabetes factor table, in the order the scorer pushes it. */
  function DiabetesFactors(input: InputData): seq<Factor>
    requires input.age.Some?
  {
    Entry(Age, DiabetesAgePoints(input.age.value))
    + Entry(Bmi, DiabetesBmiPoints(input.bmi))
    + Entry(FastingGlucose, DiabetesGlucosePoints(input.fastingGlucose))
    + Entry(HbA1c, DiabetesHba1cPoints(input.hba1c))
    + Entry(FamilyHistoryDiabetes, Flag(input.familyHistoryDiabetes, 15))
    + Entry(HypertensionHistory, Flag(input.hasHypertension, 10))
    + Entry(LackOfExercise, ExerciseDeficitPoints(input.exerciseMinutesPerWeek))
  }

  /** Every point the diabetes scorer adds is reported in exactly one factor. */
  lemma DiabetesFactorsAccount(input: InputData)
    requires input.age.Some?
    ensures Recorded(DiabetesFactors(input))
    ensures Total(DiabetesFactors(input))
         == DiabetesAgePoints(input.age.value) + DiabetesBmiPoints(input.bmi)
          + DiabetesGlucosePoints(input.fastingGlucose) + DiabetesHba1cPoints(input.hba1c)
          + Flag(input.familyHistoryDiabetes, 15) + Flag(input.hasHypertension, 10)
          + ExerciseDeficitPoints(input.exerciseMinutesPerWeek)
  {
    var fs := Entry(Age, DiabetesAgePoints(input.age.value));
    EntryFacts(Age, DiabetesAgePoints(input.age.value));
    Push2(fs, Bmi, DiabetesBmiPoints(input.bmi), FastingGlucose, DiabetesGlucosePoints(input.fastingGlucose));
    fs := fs + Entry(Bmi, DiabetesBmiPoints(input.bmi)) + Entry(FastingGlucose, DiabetesGlucosePoints(input.fastingGlucose));
    Push2(fs, HbA1c, DiabetesHba1cPoints(input.hba1c), FamilyHistoryDiabetes, Flag(input.familyHistoryDiabetes, 15));
    fs := fs + Entry(HbA1c, DiabetesHba1cPoints(input.hba1c)) + Entry(FamilyHistoryDiabetes, Flag(input.familyHistoryDiabetes, 15));
    Push2(fs, HypertensionHistory, Flag(input.hasHypertension, 10), LackOfExercise, ExerciseDeficitPoints(input.exerciseMinutesPerWeek));
  }

  function TenYearDiabetesRisk(input: InputData, baseScore: int): (risk: real)
    requires input.age.Some?
    ensures risk <= 100.0
    ensures baseScore >= 0 ==> risk >= 0.0
  {
    CapReal(baseScore as real * 0.15
            * (if input.age.value >= 45 then 1.5 else 1.0)
            * (if input.familyHistoryDiabetes then 1.3 else 1.0))
  }

  function DiabetesAdvice(level: RiskLevel): (advice: seq<Advice>)
  {
    (if Escalated(level) then [ConsultEndocrinologist, OralGlucoseToleranceTest] else [])
    + [LowGlycaemicCarbs, MonitorBloodGlucose, KeepHealthyWeight, IncreasePhysicalActivity]
  }

  const DIAGNOSED_DIABETES_ADVICE: seq<Advice> :=
    [ContinuePrescribedMedication, MonitorBloodGlucose, ControlDiet, ExerciseRegularly]

  /** The diabetes result: forced by a diagnosis, otherwise scored from its table. */
  function DiabetesRisk(input: InputData): (r: DiseaseRiskResult)
    requires input.age.Some?
  {
    if input.hasDiabetes then
      Diagnosed(Diabetes, DiagnosedDiabetes, Some(100.0), DIAGNOSED_DIABETES_ADVICE)
    else
      var factors := DiabetesFactors(input);
      var score := Cap(Total(factors));
      var level := ScoreToRiskLevel(score);
      DiseaseRiskResult(Diabetes, score, score, level, Some(TenYearDiabetesRisk(input, score)), factors, DiabetesAdvice(level))
  }

  /**
   * The diabetes result is well formed and carries a ten-year risk in
   * [0, 100]; a diagnosis forces it, otherwise its score is the capped
   * total of the factors it reports.
   */
  lemma DiabetesRiskFacts(input: InputData)
    requires input.age.Some?
    ensures WellFormed(DiabetesRisk(input)) && DiabetesRisk(input).diseaseType == Diabetes
    ensures DiabetesRisk(input).tenYearRisk.Some?
    ensures 0.0 <= DiabetesRisk(input).tenYearRisk.value <= 100.0
    ensures input.hasDiabetes ==>
      DiabetesRisk(input) == Diagnosed(Diabetes, DiagnosedDiabetes, Some(100.0), DIAGNOSED_DIABETES_ADVICE)
    ensures !input.hasDiabetes ==> DiabetesRisk(input).riskScore == Cap(Total(DiabetesRisk(input).factors))
  {
    DiabetesFactorsAccount(input);
  }

  // ------------------------------------------------------------------
  // Hypertension
  // ------------------------------------------------------------------

  /** Only the highest blood-pressure bracket applies, and only when both readings are truthy. */
  function HypertensionBpPoints(systolic: Option<real>, diastolic: Option<real>): nat
  {
    if !(Truthy(systolic) && Truthy(diastolic)) then 0
    else if systolic.value >= 140.0 || diastolic.value >= 90.0 then 40
    else if systolic.value >= 130.0 || diastolic.value >= 85.0 then 30
    else if systolic.value >= 120.0 || diastolic.value >= 80.0 then 20
    else 0
  }

  function HypertensionAgePoints(age: int): nat
  {
    if 40 <= age < 55 then 15
    else if 55 <= age < 65 then 25
    else if age >= 65 then 35
    else 0
  }

  function HypertensionBmiPoints(bmi: Option<real>): nat
  {
    if Truthy(bmi) && bmi.value >= 24.0 then (if bmi.value >= 28.0 then 20 else 15) else 0
  }

  function ExcessAlcoholPoints(drinks: Option<real>): nat
  {
    if Truthy(drinks) && drinks.value > 14.0 then 10 else 0
  }

  function HypertensionFactors(input: InputData): seq<Factor>
    requires input.age.Some?
  {
    Entry(BloodPressure, HypertensionBpPoints(input.systolicBP, input.diastolicBP))
    + Entry(Age, HypertensionAgePoints(input.age.value))
    + Entry(Bmi, HypertensionBmiPoints(input.bmi))
    + Entry(FamilyHistoryCardiovascular, Flag(input.familyHistoryHeartDisease, 15))
    + Entry(Smoking, Flag(input.isSmoker, 10))
    + Entry(ExcessAlcohol, ExcessAlcoholPoints(input.alcoholConsumption))
  }

  lemma HypertensionFactorsAccount(input: InputData)
    requires input.age.Some?
    ensures Recorded(HypertensionFactors(input))
    ensures Total(HypertensionFactors(input))
         == HypertensionBpPoints(input.systolicBP, input.diastolicBP) + HypertensionAgePoints(input.age.value)
          + HypertensionBmiPoints(input.bmi) + Flag(input.familyHistoryHeartDisease, 15)
          + Flag(input.isSmoker, 10) + ExcessAlcoholPoints(input.alcoholConsumption)
  {
    var fs := Entry(BloodPressure, HypertensionBpPoints(input.systolicBP, input.diastolicBP));
    EntryFacts(BloodPressure, HypertensionBpPoints(input.systolicBP, input.diastolicBP));
    Push2(fs, Age, HypertensionAgePoints(input.age.value), Bmi, HypertensionBmiPoints(input.bmi));
    fs := fs + Entry(Age, HypertensionAgePoints(input.age.value)) + Entry(Bmi, HypertensionBmiPoints(input.bmi));
    Push2(fs, FamilyHistoryCardiovascular, Flag(input.familyHistoryHeartDisease, 15), Smoking, Flag(input.isSmoker, 10));
    fs := fs + Entry(FamilyHistoryCardiovascular, Flag(input.familyHistoryHeartDisease, 15)) + Entry(Smoking, Flag(input.isSmoker, 10));
    Push1(fs, ExcessAlcohol, ExcessAlcoholPoints(input.alcoholConsumption));
  }

  function HypertensionAdvice(level: RiskLevel): (advice: seq<Advice>)
  {
    [LimitSalt, DashDiet, MonitorBloodPressure, ExerciseRegularly, KeepHealthyWeight]
    + (if Escalated(level) then [MayNeedAntihypertensives] else [])
  }

  const DIAGNOSED_HYPERTENSION_ADVICE: seq<Advice> :=
    [TakePrescribedMedication, MonitorBloodPressure, LimitSodium, KeepHealthyWeight]

  /** The hypertension result; it never carries a ten-year risk. */
  function HypertensionRisk(input: InputData): (r: DiseaseRiskResult)
    requires input.age.Some?
  {
    if input.hasHypertension then
      Diagnosed(Hypertension, DiagnosedHypertension, None, DIAGNOSED_HYPERTENSION_ADVICE)
    else
      var factors := HypertensionFactors(input);
      var score := Cap(Total(factors));
      var level := ScoreToRiskLevel(score);
      DiseaseRiskResult(Hypertension, score, score, level, None, factors, HypertensionAdvice(level))
  }

  /** The hypertension result is well formed and never carries a ten-year risk. */
  lemma HypertensionRiskFacts(input: InputData)
    requires input.age.Some?
    ensures WellFormed(HypertensionRisk(input)) && HypertensionRisk(input).diseaseType == Hypertension
    ensures HypertensionRisk(input).tenYearRisk.None?
    ensures input.hasHypertension ==>
      HypertensionRisk(input) == Diagnosed(Hypertension, DiagnosedHypertension, None, DIAGNOSED_HYPERTENSION_ADVICE)
    ensures !input.hasHypertension ==> HypertensionRisk(input).riskScore == Cap(Total(HypertensionRisk(input).factors))
  {
    HypertensionFactorsAccount(input);
  }

  // ------------------------------------------------------------------
  // Stroke
  // ------------------------------------------------------------------

  function StrokeHypertensionPoints(input: InputData): nat
  {
    if input.hasHypertension || (Truthy(input.systolicBP) && input.systolicBP.value >= 140.0) then 35 else 0
  }

  function StrokeAgePoints(age: int): nat
  {
    if 55 <= age < 65 then 15
    else if 65 <= age < 75 then 25
    else if age >= 75 then 35
    else 0
  }

  function HighCholesterolPoints(total: Option<real>, points: nat): nat
  {
    if Truthy(total) && total.value >= 240.0 then points else 0
  }

  function StrokeFactors(input: InputData): seq<Factor>
    requires input.age.Some?
  {
    Entry(HypertensionFactor, StrokeHypertensionPoints(input))
    + Entry(Age, StrokeAgePoints(input.age.value))
    + Entry(DiabetesFactor, Flag(input.hasDiabetes, 20))
    + Entry(HeartDiseaseFactor, Flag(input.hasHeartDisease, 20))
    + Entry(Smoking, Flag(input.isSmoker, 15))
    + Entry(HighCholesterol, HighCholesterolPoints(input.totalCholesterol, 10))
    + Entry(FamilyHistoryStroke, Flag(input.familyHistoryStroke, 10))
  }

  lemma StrokeFactorsAccount(input: InputData)
    requires input.age.Some?
    ensures Recorded(StrokeFactors(input))
    ensures Total(StrokeFactors(input))
         == StrokeHypertensionPoints(input) + StrokeAgePoints(input.age.value)
          + Flag(input.hasDiabetes, 20) + Flag(input.hasHeartDisease, 20)
          + Flag(input.isSmoker, 15) + HighCholesterolPoints(input.totalCholesterol, 10)
          + Flag(input.familyHistoryStroke, 10)
  {
    var fs := Entry(HypertensionFactor, StrokeHypertensionPoints(input));
    EntryFacts(HypertensionFactor, StrokeHypertensionPoints(input));
    Push2(fs, Age, StrokeAgePoints(input.age.value), DiabetesFactor, Flag(input.hasDiabetes, 20));
    fs := fs + Entry(Age, StrokeAgePoints(input.age.value)) + Entry(DiabetesFactor, Flag(input.hasDiabetes, 20));
    Push2(fs, HeartDiseaseFactor, Flag(input.hasHeartDisease, 20), Smoking, Flag(input.isSmoker, 15));
    fs := fs + Entry(HeartDiseaseFactor, Flag(input.hasHeartDisease, 20)) + Entry(Smoking, Flag(input.isSmoker, 15));
    Push2(fs, HighCholesterol, HighCholesterolPoints(input.totalCholesterol, 10), FamilyHistoryStroke, Flag(input.familyHistoryStroke, 10));
  }

  function TenYearStrokeRisk(input: InputData, baseScore: int): (risk: real)
    requires input.age.Some?
    ensures risk <= 100.0
    ensures baseScore >= 0 ==> risk >= 0.0
  {
    CapReal(baseScore as real * 0.12
            * (if input.age.value >= 65 then 2.0 else 1.0)
            * (if input.hasHypertension then 1.5 else 1.0))
  }

  function StrokeAdvice(isSmoker: bool, level: RiskLevel): (advice: seq<Advice>)
  {
    [ControlBloodPressureToTarget, ControlGlucoseIfDiabetic, ControlLipids]
    + (if isSmoker then [QuitSmokingNow] else [])
    + (if Escalated(level) then [ConsiderAntiplatelets, CarotidUltrasound] else [])
    + [RecogniseStrokeSigns]
  }

  const DIAGNOSED_STROKE_ADVICE: seq<Advice> :=
    [StrictBloodPressureControl, TakeAntiplatelets, ControlLipids, RegularReview]

  /** The stroke result: forced by a prior stroke (with no ten-year risk), otherwise scored. */
  function StrokeRisk(input: InputData): (r: DiseaseRiskResult)
    requires input.age.Some?
  {
    if input.hasStroke then
      Diagnosed(Stroke, PriorStroke, None, DIAGNOSED_STROKE_ADVICE)
    else
      var factors := StrokeFactors(input);
      var score := Cap(Total(factors));
      var level := ScoreToRiskLevel(score);
      DiseaseRiskResult(Stroke, score, score, level, Some(TenYearStrokeRisk(input, score)), factors,
                        StrokeAdvice(input.isSmoker, level))
  }

  /** The stroke result is well formed; a ten-year risk in [0, 100] exactly when not forced. */
  lemma StrokeRiskFacts(input: InputData)
    requires input.age.Some?
    ensures WellFormed(StrokeRisk(input)) && StrokeRisk(input).diseaseType == Stroke
    ensures StrokeRisk(input).tenYearRisk.Some? <==> !input.hasStroke
    ensures StrokeRisk(input).tenYearRisk.Some? ==> 0.0 <= StrokeRisk(input).tenYearRisk.value <= 100.0
    ensures input.hasStroke ==> StrokeRisk(input) == Diagnosed(Stroke, PriorStroke, None, DIAGNOSED_STROKE_ADVICE)
    ensures !input.hasStroke ==> StrokeRisk(input).riskScore == Cap(Total(StrokeRisk(input).factors))
  {
    StrokeFactorsAccount(input);
  }

  // ------------------------------------------------------------------
  // MACE (no diagnosis override)
  // ------------------------------------------------------------------

  function MacePriorEventPoints(input: InputData): nat
  {
    if input.hasHeartDisease || input.hasStroke then 40 else 0
  }

  /** Age by sex: a man from 35 and 45, anyone else from 45 and 55. */
  function MaceAgeSexPoints(age: int, gender: Option<Gender>): nat
  {
    if gender == Some(Male) then (if age >= 45 then 20 else if age >= 35 then 10 else 0)
    else (if age >= 55 then 20 else if age >= 45 then 10 else 0)
  }

  function HighLdl(ldl: Option<real>): bool
  {
    Truthy(ldl) && ldl.value >= 160.0
  }

  /** The clustered major risk factors: diabetes, hypertension, smoking, LDL at least 160. */
  function MaceRiskFactorCount(input: InputData): nat
  {
    CountTrue([input.hasDiabetes, input.hasHypertension, input.isSmoker, HighLdl(input.ldlCholesterol)])
  }

  function MaceClusterPoints(input: InputData): nat
  {
    var count := MaceRiskFactorCount(input);
    if count >= 2 then 10 * count else 0
  }

  function MaceLdlPoints(ldl: Option<real>): nat
  {
    if !Truthy(ldl) then 0
    else if ldl.value >= 160.0 then 20
    else if ldl.value >= 130.0 then 15
    else if ldl.value >= 100.0 then 10
    else 0
  }

  function LowHdlPoints(hdl: Option<real>): nat
  {
    if Truthy(hdl) && hdl.value < 40.0 then 10 else 0
  }

  /** The MACE factor table, with the age/sex factor reporting its own points. */
  function MaceFactors(input: InputData): seq<Factor>
    requires input.age.Some?
  {
    Entry(PriorCardiovascularEvent, MacePriorEventPoints(input))
    + Entry(AgeSex, MaceAgeSexPoints(input.age.value, input.gender))
    + Entry(MultipleRiskFactors, MaceClusterPoints(input))
    + Entry(LdlCholesterol, MaceLdlPoints(input.ldlCholesterol))
    + Entry(LowHdl, LowHdlPoints(input.hdlCholesterol))
  }

  /**
   * The MACE factor list as the service builds it: the age/sex factor is
   * pushed whenever the running score is positive and is weighted by the
   * running score, which already holds the 40 points of a prior event.
   */
  function MaceFactorsAsWritten(input: InputData): seq<Factor>
    requires input.age.Some?
  {
    var running := MacePriorEventPoints(input) + MaceAgeSexPoints(input.age.value, input.gender);
    Entry(PriorCardiovascularEvent, MacePriorEventPoints(input))
    + (if running > 0 then [Factor(AgeSex, MaceAgeSexPoints(input.age.value, input.gender), running as real / 100.0)] else [])
    + Entry(MultipleRiskFactors, MaceClusterPoints(input))
    + Entry(LdlCholesterol, MaceLdlPoints(input.ldlCholesterol))
    + Entry(LowHdl, LowHdlPoints(input.hdlCholesterol))
  }

  lemma MaceFactorsAccount(input: InputData)
    requires input.age.Some?
    ensures Recorded(MaceFactors(input))
    ensures Total(MaceFactors(input))
         == MacePriorEventPoints(input) + MaceAgeSexPoints(input.age.value, input.gender)
          + MaceClusterPoints(input) + MaceLdlPoints(input.ldlCholesterol) + LowHdlPoints(input.hdlCholesterol)
  {
    var fs := Entry(PriorCardiovascularEvent, MacePriorEventPoints(input));
    EntryFacts(PriorCardiovascularEvent, MacePriorEventPoints(input));
    Push2(fs, AgeSex, MaceAgeSexPoints(input.age.value, input.gender), MultipleRiskFactors, MaceClusterPoints(input));
    fs := fs + Entry(AgeSex, MaceAgeSexPoints(input.age.value, input.gender)) + Entry(MultipleRiskFactors, MaceClusterPoints(input));
    Push2(fs, LdlCholesterol, MaceLdlPoints(input.ldlCholesterol), LowHdl, LowHdlPoints(input.hdlCholesterol));
  }

  /**
   * As written, the age/sex factor is misreported exactly when there was a
   * prior cardiovascular event; without one both lists coincide.
   */
  lemma MaceAsWrittenDiffersOnlyAfterPriorEvent(input: InputData)
    requires input.age.Some?
    ensures MaceFactorsAsWritten(input) == MaceFactors(input) <==> !(input.hasHeartDisease || input.hasStroke)
  {
    var a := MaceAgeSexPoints(input.age.value, input.gender);
    var prior := Entry(PriorCardiovascularEvent, MacePriorEventPoints(input));
    var tail := Entry(MultipleRiskFactors, MaceClusterPoints(input))
              + Entry(LdlCholesterol, MaceLdlPoints(input.ldlCholesterol))
              + Entry(LowHdl, LowHdlPoints(input.hdlCholesterol));
    var written := if MacePriorEventPoints(input) + a > 0
                   then [Factor(AgeSex, a, (MacePriorEventPoints(input) + a) as real / 100.0)] else [];
    assert MaceFactorsAsWritten(input) == prior + written + tail;
    assert MaceFactors(input) == prior + Entry(AgeSex, a) + tail;
    if input.hasHeartDisease || input.hasStroke {
      assert |prior| == 1;
      assert (prior + written + tail)[1] == written[0];
      if a > 0 {
        assert (prior + Entry(AgeSex, a) + tail)[1] == Entry(AgeSex, a)[0];
        assert written[0].weight != Entry(AgeSex, a)[0].weight;
      } else {
        assert |prior + written + tail| != |prior + Entry(AgeSex, a) + tail|;
      }
    }
  }

  /**
   * A 30-year-old man with heart disease: as written, MACE reports an
   * age/sex factor of weight 0.4 to which age and sex contributed nothing.
   */
  lemma MaceAsWrittenMisreportsAgeSex(input: InputData)
    requires input.age == Some(30) && input.gender == Some(Male) && input.hasHeartDisease
    ensures MaceFactorsAsWritten(input)[..2] == [Factor(PriorCardiovascularEvent, 40, 0.4), Factor(AgeSex, 0, 0.4)]
    ensures !Recorded(MaceFactorsAsWritten(input))
    ensures MaceFactors(input)[0] == Factor(PriorCardiovascularEvent, 40, 0.4)
    ensures forall i :: 0 <= i < |MaceFactors(input)| ==> MaceFactors(input)[i].name != AgeSex
  {
    assert MaceFactorsAsWritten(input)[1] == Factor(AgeSex, 0, 0.4);
  }

  function TenYearMaceRisk(input: InputData, baseScore: int): (risk: real)
    requires input.age.Some?
    ensures risk <= 100.0
    ensures baseScore >= 0 ==> risk >= 0.0
  {
    CapReal(baseScore as real * 0.2
            * (if input.age.value >= 55 then 1.8 else 1.0)
            * (if input.isSmoker then 1.4 else 1.0))
  }

  function MaceAdvice(level: RiskLevel): (advice: seq<Advice>)
  {
    (if Escalated(level) then [ConsultCardiovascularSpecialist, MayNeedStatins, ConsiderAspirin, RegularCardiacTests] else [])
    + [ControlAllRiskFactors, LowSaturatedFatDiet, ExerciseRegularly, KeepHealthyWeight]
  }

  /** The MACE result: always scored, never forced. */
  function MaceRisk(input: InputData): (r: DiseaseRiskResult)
    requires input.age.Some?
  {
    var factors := MaceFactors(input);
    var score := Cap(Total(factors));
    var level := ScoreToRiskLevel(score);
    DiseaseRiskResult(Mace, score, score, level, Some(TenYearMaceRisk(input, score)), factors, MaceAdvice(level))
  }

  /** The MACE result is always scored: well formed, capped total, ten-year risk in [0, 100]. */
  lemma MaceRiskFacts(input: InputData)
    requires input.age.Some?
    ensures WellFormed(MaceRisk(input)) && MaceRisk(input).diseaseType == Mace
    ensures MaceRisk(input).riskScore == Cap(Total(MaceRisk(input).factors))
    ensures MaceRisk(input).tenYearRisk.Some?
    ensures 0.0 <= MaceRisk(input).tenYearRisk.value <= 100.0
  {
    MaceFactorsAccount(input);
  }

  // ------------------------------------------------------------------
  // Heart disease
  // ------------------------------------------------------------------

  function HeartAgeSexPoints(age: int, gender: Option<Gender>): nat
  {
    if gender == Some(Male) then (if age >= 45 then 25 else if age >= 35 then 15 else 0)
    else (if age >= 55 then 25 else if age >= 45 then 15 else 0)
  }

  /** 15 for a smoker, 20 after more than ten (truthy) years of smoking. */
  function HeartSmokingPoints(input: InputData): nat
  {
    if !input.isSmoker then 0
    else if TruthyInt(input.smokeYears) && input.smokeYears.value > 10 then 20
    else 15
  }

  function HighTriglyceridePoints(tg: Option<real>): nat
  {
    if Truthy(tg) && tg.value >= 200.0 then 10 else 0
  }

  function HeartDiseaseFactors(input: InputData): seq<Factor>
    requires input.age.Some?
  {
    Entry(Age, HeartAgeSexPoints(input.age.value, input.gender))
    + Entry(FamilyHistoryHeartDisease, Flag(input.familyHistoryHeartDisease, 20))
    + Entry(HypertensionFactor, Flag(input.hasHypertension, 15))
    + Entry(DiabetesFactor, Flag(input.hasDiabetes, 20))
    + Entry(Smoking, HeartSmokingPoints(input))
    + Entry(HighCholesterol, HighCholesterolPoints(input.totalCholesterol, 15))
    + Entry(HighTriglycerides, HighTriglyceridePoints(input.triglycerides))
  }

  lemma HeartDiseaseFactorsAccount(input: InputData)
    requires input.age.Some?
    ensures Recorded(HeartDiseaseFactors(input))
    ensures Total(HeartDiseaseFactors(input))
         == HeartAgeSexPoints(input.age.value, input.gender) + Flag(input.familyHistoryHeartDisease, 20)
          + Flag(input.hasHypertension, 15) + Flag(input.hasDiabetes, 20)
          + HeartSmokingPoints(input) + HighCholesterolPoints(input.totalCholesterol, 15)
          + HighTriglyceridePoints(input.triglycerides)
  {
    var fs := Entry(Age, HeartAgeSexPoints(input.age.value, input.gender));
    EntryFacts(Age, HeartAgeSexPoints(input.age.value, input.gender));
    Push2(fs, FamilyHistoryHeartDisease, Flag(input.familyHistoryHeartDisease, 20), HypertensionFactor, Flag(input.hasHypertension, 15));
    fs := fs + Entry(FamilyHistoryHeartDisease, Flag(input.familyHistoryHeartDisease, 20)) + Entry(HypertensionFactor, Flag(input.hasHypertension, 15));
    Push2(fs, DiabetesFactor, Flag(input.hasDiabetes, 20), Smoking, HeartSmokingPoints(input));
    fs := fs + Entry(DiabetesFactor, Flag(input.hasDiabetes, 20)) + Entry(Smoking, HeartSmokingPoints(input));
    Push2(fs, HighCholesterol, HighCholesterolPoints(input.totalCholesterol, 15), HighTriglycerides, HighTriglyceridePoints(input.triglycerides));
  }

  /** The multiplier applies to a man from 45 and a woman from 55; not to an unknown sex. */
  function TenYearHeartDiseaseRisk(input: InputData, baseScore: int): (risk: real)
    requires input.age.Some?
    ensures risk <= 100.0
    ensures baseScore >= 0 ==> risk >= 0.0
  {
    var risk := baseScore as real * 0.18;
    var risk := if input.gender == Some(Male) && input.age.value >= 45 then risk * 1.6 else risk;
    var risk := if input.gender == Some(Female) && input.age.value >= 55 then risk * 1.6 else risk;
    CapReal(risk)
  }

  function HeartDiseaseAdvice(level: RiskLevel): (advice: seq<Advice>)
  {
    [HeartHealthyDiet, RegularAerobicExercise, ControlBloodPressureAndLipids]
    + (if Escalated(level) then [ConsultCardiologist, StressTestOrAngiography, ConsiderDrugTherapy] else [])
    + [RecogniseHeartAttack, EmergencyPlan]
  }

  /** The diabetes list gains the specialist and glucose-tolerance items exactly at HIGH and VERY_HIGH. */
  lemma DiabetesAdviceEscalation(level: RiskLevel)
    ensures ConsultEndocrinologist in DiabetesAdvice(level) <==> Escalated(level)
    ensures OralGlucoseToleranceTest in DiabetesAdvice(level) <==> Escalated(level)
  {
  }

  /** The hypertension list gains the medication item exactly at HIGH and VERY_HIGH. */
  lemma HypertensionAdviceEscalation(level: RiskLevel)
    ensures MayNeedAntihypertensives in HypertensionAdvice(level) <==> Escalated(level)
  {
  }

  /**
   * The stroke list gains the smoking item exactly for a smoker, the
   * escalation items exactly at HIGH and VERY_HIGH, and always ends with
   * the warning-signs item.
   */
  lemma StrokeAdviceEscalation(level: RiskLevel, isSmoker: bool)
    ensures QuitSmokingNow in StrokeAdvice(isSmoker, level) <==> isSmoker
    ensures ConsiderAntiplatelets in StrokeAdvice(isSmoker, level) <==> Escalated(level)
    ensures CarotidUltrasound in StrokeAdvice(isSmoker, level) <==> Escalated(level)
    ensures StrokeAdvice(isSmoker, level)[|StrokeAdvice(isSmoker, level)| - 1] == RecogniseStrokeSigns
  {
  }

  /** The MACE list has four standing items and four more at HIGH and VERY_HIGH. */
  lemma MaceAdviceEscalation(level: RiskLevel)
    ensures ConsultCardiovascularSpecialist in MaceAdvice(level) <==> Escalated(level)
    ensures |MaceAdvice(level)| == if Escalated(level) then 8 else 4
  {
  }

  /** The heart-disease list has five standing items and three more at HIGH and VERY_HIGH. */
  lemma HeartDiseaseAdviceEscalation(level: RiskLevel)
    ensures ConsultCardiologist in HeartDiseaseAdvice(level) <==> Escalated(level)
    ensures |HeartDiseaseAdvice(level)| == if Escalated(level) then 8 else 5
  {
  }

  const DIAGNOSED_HEART_DISEASE_ADVICE: seq<Advice> :=
    [TakeMedicationRegularly, CardiacRehabilitation, ControlRiskFactors, RegularCardiacCheckup]

  function HeartDiseaseRisk(input: InputData): (r: DiseaseRiskResult)
    requires input.age.Some?
  {
    if input.hasHeartDisease then
      Diagnosed(HeartDisease, DiagnosedHeartDisease, None, DIAGNOSED_HEART_DISEASE_ADVICE)
    else
      var factors := HeartDiseaseFactors(input);
      var score := Cap(Total(factors));
      var level := ScoreToRiskLevel(score);
      DiseaseRiskResult(HeartDisease, score, score, level, Some(TenYearHeartDiseaseRisk(input, score)), factors,
                        HeartDiseaseAdvice(level))
  }

  /** The heart-disease result is well formed; a ten-year risk in [0, 100] exactly when not forced. */
  lemma HeartDiseaseRiskFacts(input: InputData)
    requires input.age.Some?
    ensures WellFormed(HeartDiseaseRisk(input)) && HeartDiseaseRisk(input).diseaseType == HeartDisease
    ensures HeartDiseaseRisk(input).tenYearRisk.Some? <==> !input.hasHeartDisease
    ensures HeartDiseaseRisk(input).tenYearRisk.Some? ==> 0.0 <= HeartDiseaseRisk(input).tenYearRisk.value <= 100.0
    ensures input.hasHeartDisease ==>
      HeartDiseaseRisk(input) == Diagnosed(HeartDisease, DiagnosedHeartDisease, None, DIAGNOSED_HEART_DISEASE_ADVICE)
    ensures !input.hasHeartDisease ==> HeartDiseaseRisk(input).riskScore == Cap(Total(HeartDiseaseRisk(input).factors))
  {
    HeartDiseaseFactorsAccount(input);
  }

  // ------------------------------------------------------------------
  // Assessment-wide recommendation lists
  // ------------------------------------------------------------------

  /** One fixed list per overall level; a higher tier replaces a lower one. */
  function GeneralAdvice(level: RiskLevel): (advice: seq<Advice>)
  {
    match level
    case Low => [KeepHealthyLifestyle, CheckupEvery1To2Years]
    case Medium => [AnnualFullCheckup, ImproveLifestyle, ConsiderPersonalAssessment]
    case High => [ConsultDoctorSoon, MonitorEvery3To6Months, MayNeedMedication, ImproveLifestyleNow]
    case VeryHigh => [SeekMedicalCareNow, ComprehensiveTreatmentPlan, FollowUpEvery1To3Months]
  }

  /** The tiers hold two, three, four and three items, from LOW to VERY_HIGH. */
  lemma GeneralAdviceSizes(level: RiskLevel)
    ensures |GeneralAdvice(level)| == [2, 3, 4, 3][level.Rank()]
  {
  }

  /** No item of one tier appears in another. */
  lemma GeneralAdviceTiersDisjoint(l1: RiskLevel, l2: RiskLevel, a: Advice)
    requires l1 != l2
    ensures !(a in GeneralAdvice(l1) && a in GeneralAdvice(l2))
  {
  }

  /** `[item]` when the condition holds, nothing otherwise. */
  function When(condition: bool, item: Advice): (advice: seq<Advice>)
  {
    if condition then [item] else []
  }

  /** Conditional items, then the three universal ones. */
  function LifestyleAdvice(input: InputData): (advice: seq<Advice>)
  {
    var weight := When(Truthy(input.bmi) && input.bmi.value >= 24.0, ControlWeight);
    var exercise := When(!TruthyInt(input.exerciseMinutesPerWeek) || input.exerciseMinutesPerWeek.value < 150, IncreaseExercise);
    var smoking := When(input.isSmoker, QuitSmoking);
    var alcohol := When(Truthy(input.alcoholConsumption) && input.alcoholConsumption.value > 14.0, LimitAlcohol);
    weight + exercise + smoking + alcohol + [HealthyDiet, AdequateSleep, StressManagement]
  }

  /**
   * Each conditional item appears exactly when its condition holds (an
   * unset or zero exercise time counts as too little).
   */
  lemma LifestyleAdviceContents(input: InputData)
    ensures ControlWeight in LifestyleAdvice(input) <==> Truthy(input.bmi) && input.bmi.value >= 24.0
    ensures IncreaseExercise in LifestyleAdvice(input)
        <==> input.exerciseMinutesPerWeek.None? || input.exerciseMinutesPerWeek.value < 150
    ensures QuitSmoking in LifestyleAdvice(input) <==> input.isSmoker
    ensures LimitAlcohol in LifestyleAdvice(input)
        <==> Truthy(input.alcoholConsumption) && input.alcoholConsumption.value > 14.0
  {
    var weight := When(Truthy(input.bmi) && input.bmi.value >= 24.0, ControlWeight);
    var exercise := When(!TruthyInt(input.exerciseMinutesPerWeek) || input.exerciseMinutesPerWeek.value < 150, IncreaseExercise);
    var smoking := When(input.isSmoker, QuitSmoking);
    var alcohol := When(Truthy(input.alcoholConsumption) && input.alcoholConsumption.value > 14.0, LimitAlcohol);
    var tail := [HealthyDiet, AdequateSleep, StressManagement];
    assert LifestyleAdvice(input) == weight + exercise + smoking + alcohol + tail;
    assert IncreaseExercise !in weight && QuitSmoking !in weight && LimitAlcohol !in weight;
    assert ControlWeight !in exercise && QuitSmoking !in exercise && LimitAlcohol !in exercise;
    assert ControlWeight !in smoking && IncreaseExercise !in smoking && LimitAlcohol !in smoking;
    assert ControlWeight !in alcohol && IncreaseExercise !in alcohol && QuitSmoking !in alcohol;
  }

  /** Three to seven items, always closing with diet, sleep and stress management. */
  lemma LifestyleAdviceShape(input: InputData)
    ensures 3 <= |LifestyleAdvice(input)| <= 7
    ensures LifestyleAdvice(input)[|LifestyleAdvice(input)| - 3..] == [HealthyDiet, AdequateSleep, StressManagement]
  {
    var front := When(Truthy(input.bmi) && input.bmi.value >= 24.0, ControlWeight)
      + When(!TruthyInt(input.exerciseMinutesPerWeek) || input.exerciseMinutesPerWeek.value < 150, IncreaseExercise)
      + When(input.isSmoker, QuitSmoking)
      + When(Truthy(input.alcoholConsumption) && input.alcoholConsumption.value > 14.0, LimitAlcohol);
    assert LifestyleAdvice(input) == front + [HealthyDiet, AdequateSleep, StressManagement];
  }

  /** Frequent monitoring at HIGH and above, routine otherwise, then two standing items. */
  function FollowUpAdvice(level: RiskLevel): (advice: seq<Advice>)
  {
    (if Escalated(level) then [BloodPressureWeekly, GlucoseMonitoring, LipidsEvery3To6Months]
     else [BloodPressureMonthly, GlucoseLipidsYearly])
    + [EcgAsAdvised, FundusExam]
  }

  /** Five items at HIGH and above, four otherwise, always ending with ECG and fundus checks. */
  lemma FollowUpAdviceShape(level: RiskLevel)
    ensures |FollowUpAdvice(level)| == if Escalated(level) then 5 else 4
    ensures FollowUpAdvice(level)[|FollowUpAdvice(level)| - 2..] == [EcgAsAdvised, FundusExam]
  {
  }

  // ------------------------------------------------------------------
  // The whole assessment
  // ------------------------------------------------------------------

  /**
   * The report for validated, BMI-filled input: five disease results, the
   * largest of their scores as the headline and its level.
   */
  function Report(enriched: InputData): (out: OutputData)
    requires enriched.age.Some?
    ensures out.inputData == enriched
    ensures out.overallRiskScore == CalculateOverallRisk([out.diabetesRisk, out.hypertensionRisk, out.strokeRisk,
                                                          out.maceRisk, out.heartDiseaseRisk])
    ensures out.overallRiskLevel == ScoreToRiskLevel(out.overallRiskScore)
  {
    var diabetes := DiabetesRisk(enriched);
    var hypertension := HypertensionRisk(enriched);
    var stroke := StrokeRisk(enriched);
    var mace := MaceRisk(enriched);
    var heart := HeartDiseaseRisk(enriched);
    var overall := CalculateOverallRisk([diabetes, hypertension, stroke, mace, heart]);
    var level := ScoreToRiskLevel(overall);
    OutputData(enriched, diabetes, hypertension, stroke, mace, heart, level, overall,
               GeneralAdvice(level), LifestyleAdvice(enriched), FollowUpAdvice(level),
               CALCULATION_VERSION)
  }

  /**
   * `calculateRisk`: validate, fill in BMI, score five diseases, aggregate,
   * recommend. Any age from 1 to 120 with a gender is assessed; anything
   * else throws the guard's error.
   */
  function Assess(input: InputData): (out: Result<OutputData, ValidationError>)
    ensures out.Failure? <==> ValidateInput(input).Fail?
    ensures out.Failure? ==> ValidateInput(input) == Fail(out.error)
    ensures out.Success? ==> out.value.inputData == EnrichInput(input)
  {
    match ValidateInput(input)
    case Fail(e) => Failure(e)
    case Pass => Success(Report(EnrichInput(input)))
  }

  /** The maximum of five results is at least each of them and equal to one of them. */
  lemma OverallOfFive(d: DiseaseRiskResult, h: DiseaseRiskResult, s: DiseaseRiskResult, m: DiseaseRiskResult, c: DiseaseRiskResult)
    ensures var overall := CalculateOverallRisk([d, h, s, m, c]);
      && d.riskScore <= overall && h.riskScore <= overall && s.riskScore <= overall
      && m.riskScore <= overall && c.riskScore <= overall
      && overall in [d.riskScore, h.riskScore, s.riskScore, m.riskScore, c.riskScore]
      && (overall == d.riskScore || overall == h.riskScore || overall == s.riskScore
          || overall == m.riskScore || overall == c.riskScore)
  {
    var results := [d, h, s, m, c];
    var overall := CalculateOverallRisk(results);
    assert results[0] == d && results[1] == h && results[2] == s && results[3] == m && results[4] == c;
    var k :| 0 <= k < 5 && results[k].riskScore == overall;
  }

  /**
   * On accepted input the headline score is the largest of the five
   * disease scores, lies in [0, 100], and its level is the shared mapping.
   */
  lemma AssessOverallIsWorstDisease(input: InputData)
    requires input.age.Some? && 1 <= input.age.value <= 120 && input.gender.Some?
    ensures Assess(input).Success?
    ensures var out := Assess(input).value;
      && out.diabetesRisk.riskScore <= out.overallRiskScore && out.hypertensionRisk.riskScore <= out.overallRiskScore
      && out.strokeRisk.riskScore <= out.overallRiskScore && out.maceRisk.riskScore <= out.overallRiskScore
      && out.heartDiseaseRisk.riskScore <= out.overallRiskScore
      && out.overallRiskScore in [out.diabetesRisk.riskScore, out.hypertensionRisk.riskScore, out.strokeRisk.riskScore,
                                  out.maceRisk.riskScore, out.heartDiseaseRisk.riskScore]
      && 0 <= out.overallRiskScore <= 100
      && out.overallRiskLevel == ScoreToRiskLevel(out.overallRiskScore)
  {
    var enriched := EnrichInput(input);
    var out := Report(enriched);
    assert Assess(input) == Success(out);
    assert out.diabetesRisk == DiabetesRisk(enriched) && out.hypertensionRisk == HypertensionRisk(enriched)
        && out.strokeRisk == StrokeRisk(enriched) && out.maceRisk == MaceRisk(enriched)
        && out.heartDiseaseRisk == HeartDiseaseRisk(enriched);
    ScoresInRange(enriched);
    OverallOfFive(out.diabetesRisk, out.hypertensionRisk, out.strokeRisk, out.maceRisk, out.heartDiseaseRisk);
  }

  /** Every disease score lies in [0, 100]. */
  lemma ScoresInRange(input: InputData)
    requires input.age.Some?
    ensures 0 <= DiabetesRisk(input).riskScore <= 100 && 0 <= HypertensionRisk(input).riskScore <= 100
    ensures 0 <= StrokeRisk(input).riskScore <= 100 && 0 <= MaceRisk(input).riskScore <= 100
    ensures 0 <= HeartDiseaseRisk(input).riskScore <= 100
  {
    DiabetesRiskFacts(input);
    HypertensionRiskFacts(input);
    StrokeRiskFacts(input);
    MaceRiskFacts(input);
    HeartDiseaseRiskFacts(input);
  }

  // ------------------------------------------------------------------
  // Override and monotonicity properties
  // ------------------------------------------------------------------

  /** A diagnosis fixes the result: no other field is consulted. */
  lemma DiagnosisOverridesEverything(a: InputData, b: InputData)
    requires a.age.Some? && b.age.Some?
    ensures a.hasDiabetes && b.hasDiabetes ==> DiabetesRisk(a) == DiabetesRisk(b)
    ensures a.hasHypertension && b.hasHypertension ==> HypertensionRisk(a) == HypertensionRisk(b)
    ensures a.hasStroke && b.hasStroke ==> StrokeRisk(a) == StrokeRisk(b)
    ensures a.hasHeartDisease && b.hasHeartDisease ==> HeartDiseaseRisk(a) == HeartDiseaseRisk(b)
  {
  }

  lemma CapMonotone(x: int, y: int)
    requires x <= y
    ensures Cap(x) <= Cap(y)
  {
  }

  /** Getting older, all else fixed, never lowers the diabetes score. */
  lemma OlderNeverLowersDiabetesRisk(input: InputData, older: int)
    requires input.age.Some? && input.age.value <= older
    ensures DiabetesRisk(input).riskScore <= DiabetesRisk(input.(age := Some(older))).riskScore
  {
    DiabetesFactorsAccount(input);
    DiabetesFactorsAccount(input.(age := Some(older)));
  }

  /** Getting older, all else fixed, never lowers the hypertension score. */
  lemma OlderNeverLowersHypertensionRisk(input: InputData, older: int)
    requires input.age.Some? && input.age.value <= older
    ensures HypertensionRisk(input).riskScore <= HypertensionRisk(input.(age := Some(older))).riskScore
  {
    HypertensionFactorsAccount(input);
    HypertensionFactorsAccount(input.(age := Some(older)));
  }

  /** Getting older, all else fixed, never lowers the stroke score. */
  lemma OlderNeverLowersStrokeRisk(input: InputData, older: int)
    requires input.age.Some? && input.age.value <= older
    ensures StrokeRisk(input).riskScore <= StrokeRisk(input.(age := Some(older))).riskScore
  {
    if !input.hasStroke {
      var o := input.(age := Some(older));
      assert StrokeAgePoints(input.age.value) <= StrokeAgePoints(older);
      assert Total(StrokeFactors(input)) <= Total(StrokeFactors(o)) by {
        StrokeFactorsAccount(input);
        StrokeFactorsAccount(o);
        assert StrokeHypertensionPoints(o) == StrokeHypertensionPoints(input);
      }
      assert StrokeRisk(input).riskScore == Cap(Total(StrokeFactors(input)));
      assert StrokeRisk(o).riskScore == Cap(Total(StrokeFactors(o)));
    }
  }

  /** Getting older, all else fixed, never lowers the MACE score. */
  lemma OlderNeverLowersMaceRisk(input: InputData, older: int)
    requires input.age.Some? && input.age.value <= older
    ensures MaceRisk(input).riskScore <= MaceRisk(input.(age := Some(older))).riskScore
  {
    var o := input.(age := Some(older));
    assert MaceAgeSexPoints(input.age.value, input.gender) <= MaceAgeSexPoints(older, input.gender);
    assert Total(MaceFactors(input)) <= Total(MaceFactors(o)) by {
      MaceFactorsAccount(input);
      MaceFactorsAccount(o);
      assert MaceRiskFactorCount(o) == MaceRiskFactorCount(input);
    }
    assert MaceRisk(input).riskScore == Cap(Total(MaceFactors(input)));
    assert MaceRisk(o).riskScore == Cap(Total(MaceFactors(o)));
  }

  /** Getting older, all else fixed, never lowers the heart-disease score. */
  lemma OlderNeverLowersHeartDiseaseRisk(input: InputData, older: int)
    requires input.age.Some? && input.age.value <= older
    ensures HeartDiseaseRisk(input).riskScore <= HeartDiseaseRisk(input.(age := Some(older))).riskScore
  {
    if !input.hasHeartDisease {
      var o := input.(age := Some(older));
      assert HeartAgeSexPoints(input.age.value, input.gender) <= HeartAgeSexPoints(older, input.gender);
      assert Total(HeartDiseaseFactors(input)) <= Total(HeartDiseaseFactors(o)) by {
        HeartDiseaseFactorsAccount(input);
        HeartDiseaseFactorsAccount(o);
        assert HeartSmokingPoints(o) == HeartSmokingPoints(input);
      }
      assert HeartDiseaseRisk(input).riskScore == Cap(Total(HeartDiseaseFactors(input)));
      assert HeartDiseaseRisk(o).riskScore == Cap(Total(HeartDiseaseFactors(o)));
    }
  }

  /** A 70-year-old scores 30 diabetes points more than a 30-year-old, short of the cap. */
  lemma DiabetesSeventyOutranksThirty(input: InputData)
    requires input.age == Some(30) && !input.hasDiabetes
    requires DiabetesRisk(input).riskScore < 100
    ensures DiabetesRisk(input.(age := Some(70))).riskScore > DiabetesRisk(input).riskScore
  {
    DiabetesFactorsAccount(input);
    DiabetesFactorsAccount(input.(age := Some(70)));
  }

  /** A prior heart disease or stroke adds exactly 40 MACE points before the cap. */
  lemma MacePriorEventAddsForty(input: InputData)
    requires input.age.Some? && !input.hasHeartDisease && !input.hasStroke
    ensures Total(MaceFactors(input.(hasHeartDisease := true))) == Total(MaceFactors(input)) + 40
    ensures Total(MaceFactors(input.(hasStroke := true))) == Total(MaceFactors(input)) + 40
  {
    MaceFactorsAccount(input);
    MaceFactorsAccount(input.(hasHeartDisease := true));
    MaceFactorsAccount(input.(hasStroke := true));
    assert MaceClusterPoints(input.(hasHeartDisease := true)) == MaceClusterPoints(input);
    assert MaceClusterPoints(input.(hasStroke := true)) == MaceClusterPoints(input);
  }

  /** Clustering: at least two of the four major factors add ten points per factor. */
  lemma MaceClusterBonus(input: InputData)
    ensures MaceRiskFactorCount(input) <= 4
    ensures MaceRiskFactorCount(input) < 2 ==> MaceClusterPoints(input) == 0
    ensures MaceRiskFactorCount(input) >= 2 ==> MaceClusterPoints(input) == 10 * MaceRiskFactorCount(input)
    ensures input.hasDiabetes && input.hasHypertension && input.isSmoker && HighLdl(input.ldlCholesterol)
            ==> MaceClusterPoints(input) == 40
  {
    CountTrue4(input.hasDiabetes, input.hasHypertension, input.isSmoker, HighLdl(input.ldlCholesterol));
  }

  /** Low HDL (truthy and below 40) adds 10 MACE points. */
  lemma MaceLowHdlAddsTen(input: InputData, hdl: real)
    requires input.age.Some? && !Truthy(input.hdlCholesterol) && hdl != 0.0 && hdl < 40.0
    ensures Total(MaceFactors(input.(hdlCholesterol := Some(hdl)))) == Total(MaceFactors(input)) + 10
  {
    MaceFactorsAccount(input);
    MaceFactorsAccount(input.(hdlCholesterol := Some(hdl)));
    assert MaceClusterPoints(input.(hdlCholesterol := Some(hdl))) == MaceClusterPoints(input);
  }

  /**
   * A 50-year-old diabetic man who also has hypertension, smokes and has
   * LDL 180 scores more MACE points than with diabetes alone.
   */
  lemma MaceMultipleRisksOutrankSingle(single: InputData)
    requires single.age == Some(50) && single.gender == Some(Male) && single.hasDiabetes
    requires !single.hasHypertension && !single.isSmoker && single.ldlCholesterol.None?
    requires !single.hasHeartDisease && !single.hasStroke && single.hdlCholesterol.None?
    ensures MaceRisk(single.(hasHypertension := true, isSmoker := true, ldlCholesterol := Some(180.0))).riskScore
          > MaceRisk(single).riskScore
  {
    var multiple := single.(hasHypertension := true, isSmoker := true, ldlCholesterol := Some(180.0));
    MaceFactorsAccount(single);
    MaceFactorsAccount(multiple);
    MaceClusterBonus(single);
    MaceClusterBonus(multiple);
    CountTrue4(true, false, false, false);
  }

  /** With a score in [0, 100] no ten-year multiplier chain reaches the cap. */
  lemma TenYearCapNeverBinds(input: InputData, baseScore: int)
    requires input.age.Some? && 0 <= baseScore <= 100
    ensures TenYearDiabetesRisk(input, baseScore) <= 29.25
    ensures TenYearStrokeRisk(input, baseScore) <= 36.0
    ensures TenYearMaceRisk(input, baseScore) <= 50.4
    ensures TenYearHeartDiseaseRisk(input, baseScore) <= 28.8
  {
  }
}
