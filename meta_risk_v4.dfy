/**
 * `calculateMetaRiskV4` as it runs: the metabolic details object is updated
 * flag by flag, the missing list and the factor and advice arrays are pushed
 * to, and each score is accumulated with `+=`. Each part is proved to build
 * exactly what the functions of `MetaRiskRules` describe.
 */
module MetaRiskV4 {
  import opened Wrappers
  import opened Tally
  import opened MetaRiskTypes
  import opened MetaRiskRules

  /** The whole calculation: BMI, Part A, the four scores, the maximum and the general advice. */
  method CalculateMetaRiskV4(input: MetaRiskInput) returns (result: MetaRiskResult)
    ensures result == MetaRisk(input)
  {
    var bmi := 0.0;
    if Truthy(input.weight) && Truthy(input.height) {
      var metres := input.height.value / 100.0;
      bmi := input.weight.value / (metres * metres);
    }
    assert bmi == MetaBmi(input);
    var metabolicStatus := EvaluateMetabolicSyndrome(input);
    var dmRisk := ScoreDiabetes(input, bmi);
    var htnRisk := ScoreHypertension(input, bmi);
    var strokeRisk := ScoreStroke(input);
    var cvdRisk := ScoreCvd(input);
    var overallScore := Max4(dmRisk.score, htnRisk.score, strokeRisk.score, cvdRisk.score);
    var generalRecs := GenerateGeneralRecommendations(metabolicStatus.isMetabolicSyndrome, overallScore, input.isSmoker);
    result := MetaRiskResult(overallScore, GetRiskLevel(overallScore), dmRisk, htnRisk, strokeRisk, cvdRisk,
                             metabolicStatus, generalRecs);
  }

  /** Part A: set each met criterion, push each missing one, then count. */
  method EvaluateMetabolicSyndrome(input: MetaRiskInput) returns (status: MetabolicStatus)
    ensures status == MetabolicStatusOf(input)
  {
    var metDetails := MetDetails(false, false, false, false, false);
    var missingValues: seq<Criterion> := [];
    var met: bool;

    met, missingValues := CheckCriterion(input, Waist, missingValues);
    metDetails := metDetails.(waist := met);
    assert missingValues == IfMissing(input, Waist);
    met, missingValues := CheckCriterion(input, BloodPressure, missingValues);
    metDetails := metDetails.(bp := met);
    met, missingValues := CheckCriterion(input, Glucose, missingValues);
    metDetails := metDetails.(glucose := met);
    met, missingValues := CheckCriterion(input, Triglycerides, missingValues);
    metDetails := metDetails.(tg := met);
    met, missingValues := CheckCriterion(input, Hdl, missingValues);
    metDetails := metDetails.(hdl := met);

    var criteriaMet := CountTrue(metDetails.Values());
    var isMetabolicSyndrome := criteriaMet >= 3;
    status := MetabolicStatus(isMetabolicSyndrome, criteriaMet, metDetails, missingValues);
  }

  /**
   * One criterion's block: a medication flag settles it; otherwise a present
   * measurement is compared with its cut-off and an absent one is pushed to
   * the missing list.
   */
  method CheckCriterion(input: MetaRiskInput, c: Criterion, missingValues: seq<Criterion>)
    returns (met: bool, newMissing: seq<Criterion>)
    ensures met == CriterionMet(input, c)
    ensures newMissing == missingValues + IfMissing(input, c)
  {
    met, newMissing := false, missingValues;
    match c
    case Waist =>
      if Truthy(input.waist) {
        if input.gender == Male && input.waist.value >= 90.0 { met := true; }
        if input.gender == Female && input.waist.value >= 80.0 { met := true; }
      } else {
        newMissing := newMissing + [Waist];
      }
    case BloodPressure =>
      if input.onHypertensionMeds {
        met := true;
      } else if Truthy(input.sbp) && Truthy(input.dbp) {
        if input.sbp.value >= 130.0 || input.dbp.value >= 85.0 { met := true; }
      } else {
        newMissing := newMissing + [BloodPressure];
      }
    case Glucose =>
      if input.onDiabetesMeds {
        met := true;
      } else if Truthy(input.fastingGlucose) {
        if input.fastingGlucose.value >= 100.0 { met := true; }
      } else {
        newMissing := newMissing + [Glucose];
      }
    case Triglycerides =>
      if input.onLipidMeds {
        met := true;
      } else if Truthy(input.tg) {
        if input.tg.value >= 150.0 { met := true; }
      } else {
        newMissing := newMissing + [Triglycerides];
      }
    case Hdl =>
      if Truthy(input.hdl) {
        if input.gender == Male && input.hdl.value < 40.0 { met := true; }
        if input.gender == Female && input.hdl.value < 50.0 { met := true; }
      } else {
        newMissing := newMissing + [Hdl];
      }
  }

  /** 1. Diabetes, with the lifestyle items pushed after the record is built. */
  method ScoreDiabetes(input: MetaRiskInput, bmi: real) returns (dmRisk: DiseaseRisk)
    ensures dmRisk == DiabetesRiskOf(input, bmi)
  {
    var dmScore := 0;
    var dmFactors: seq<MetaFactor> := [];
    var dmRecs: seq<MetaAdvice> := [];

    if input.hasDiabetes {
      dmScore := 100;
      dmFactors := dmFactors + [DiagnosedDiabetes];
      dmRecs := dmRecs + [ContinuePrescribedMedication, MonitorBloodGlucose];
    } else {
      dmScore, dmFactors := AccumulateDiabetes(input, bmi);
      dmScore := if dmScore < 100 then dmScore else 100;
    }

    var level := GetRiskLevel(dmScore);
    // The returned record shares dmRecs, so these late pushes are part of it.
    if level != Low && !input.hasDiabetes {
      dmRecs := dmRecs + [DietAndWeightLoss, IncreaseExercise];
    }
    dmRisk := DiseaseRisk(DIABETES_NAME, dmScore, level, dmFactors, dmRecs);
  }

  /** The diabetes rules of an undiagnosed patient, before the cap. */
  method AccumulateDiabetes(input: MetaRiskInput, bmi: real) returns (dmScore: int, dmFactors: seq<MetaFactor>)
    ensures dmScore == DmPoints(input, bmi)
    ensures dmFactors == DmFactors(input, bmi)
  {
    dmScore, dmFactors := DiabetesBrackets(input, bmi);
    dmScore, dmFactors := Apply(dmScore, dmFactors, input.fhDiabetes, 15, FamilyHistoryDiabetes);
    dmScore, dmFactors := Apply(dmScore, dmFactors, input.hasHypertension, 10, HypertensionHistory);
    dmScore, dmFactors := Apply(dmScore, dmFactors, input.exerciseMins.Some? && input.exerciseMins.value < 150,
                                10, LackOfExercise);
  }

  /** The four bracketed diabetes rules: age, BMI, fasting glucose and HbA1c. */
  method DiabetesBrackets(input: MetaRiskInput, bmi: real) returns (dmScore: int, dmFactors: seq<MetaFactor>)
    ensures dmScore == DmAgePoints(input.age) + DmBmiPoints(bmi) + DmGlucosePoints(input.fastingGlucose)
                       + DmHba1cPoints(input.hba1c)
    ensures dmFactors == DmBmiFactor(bmi) + DmGlucoseFactor(input.fastingGlucose) + DmHba1cFactor(input.hba1c)
  {
    dmScore := 0;
    dmFactors := [];
    if input.age >= 65 { dmScore := dmScore + 30; }
    else if input.age >= 55 { dmScore := dmScore + 20; }
    else if input.age >= 45 { dmScore := dmScore + 10; }

    if bmi >= 32.0 { dmScore := dmScore + 25; dmFactors := dmFactors + [SevereObesity]; }
    else if bmi >= 28.0 { dmScore := dmScore + 20; dmFactors := dmFactors + [Obesity]; }
    else if bmi >= 24.0 { dmScore := dmScore + 10; dmFactors := dmFactors + [Overweight]; }
    assert dmScore == DmAgePoints(input.age) + DmBmiPoints(bmi) && dmFactors == DmBmiFactor(bmi);

    var fg := input.fastingGlucose;
    if Truthy(fg) && fg.value >= 126.0 { dmScore := dmScore + 30; dmFactors := dmFactors + [GlucoseAtLeast126]; }
    else if Truthy(fg) && fg.value >= 100.0 { dmScore := dmScore + 20; dmFactors := dmFactors + [GlucoseElevated]; }
    assert dmScore == DmAgePoints(input.age) + DmBmiPoints(bmi) + DmGlucosePoints(fg);
    assert dmFactors == DmBmiFactor(bmi) + DmGlucoseFactor(fg);

    var a1c := input.hba1c;
    if Truthy(a1c) && a1c.value >= 6.5 { dmScore := dmScore + 30; dmFactors := dmFactors + [Hba1cAtLeast65]; }
    else if Truthy(a1c) && a1c.value >= 5.7 { dmScore := dmScore + 20; dmFactors := dmFactors + [Hba1cElevated]; }
  }

  /** 2. Hypertension, with the lifestyle items pushed after the record is built. */
  method ScoreHypertension(input: MetaRiskInput, bmi: real) returns (htnRisk: DiseaseRisk)
    ensures htnRisk == HypertensionRiskOf(input, bmi)
  {
    var htnScore := 0;
    var htnFactors: seq<MetaFactor> := [];
    var htnRecs: seq<MetaAdvice> := [];

    if input.hasHypertension {
      htnScore := 100;
      htnFactors := htnFactors + [DiagnosedHypertension];
      htnRecs := htnRecs + [TakePrescribedMedication, MonitorBloodPressureDaily];
    } else {
      htnScore, htnFactors := AccumulateHypertension(input, bmi);
      htnScore := if htnScore < 100 then htnScore else 100;
    }

    var level := GetRiskLevel(htnScore);
    // The returned record shares htnRecs, so these late pushes are part of it.
    if level != Low && !input.hasHypertension {
      htnRecs := htnRecs + [DashDiet, LoseWeightAndExercise];
    }
    htnRisk := DiseaseRisk(HYPERTENSION_NAME, htnScore, level, htnFactors, htnRecs);
  }

  /** The hypertension rules of an undiagnosed patient, before the cap. */
  method AccumulateHypertension(input: MetaRiskInput, bmi: real) returns (htnScore: int, htnFactors: seq<MetaFactor>)
    ensures htnScore == HtnPoints(input, bmi)
    ensures htnFactors == HtnFactors(input)
  {
    htnScore := 0;
    htnFactors := [];
    var sbp, dbp := input.sbp, input.dbp;
    if (Truthy(sbp) && sbp.value >= 140.0) || (Truthy(dbp) && dbp.value >= 90.0) {
      htnScore := htnScore + 40;
      htnFactors := htnFactors + [BpAtLeast140Over90];
    } else if (Truthy(sbp) && sbp.value >= 130.0) || (Truthy(dbp) && dbp.value >= 85.0) {
      htnScore := htnScore + 30;
      htnFactors := htnFactors + [BpAtLeast130Over85];
    } else if (Truthy(sbp) && sbp.value >= 120.0) || (Truthy(dbp) && dbp.value >= 80.0) {
      htnScore := htnScore + 20;
      htnFactors := htnFactors + [BpAtLeast120Over80];
    }
    assert htnScore == HtnBpPoints(input) && htnFactors == HtnBpFactor(input);

    if input.age >= 65 { htnScore := htnScore + 35; }
    else if input.age >= 55 { htnScore := htnScore + 25; }
    else if input.age >= 40 { htnScore := htnScore + 15; }

    if bmi >= 28.0 { htnScore := htnScore + 20; }
    else if bmi >= 24.0 { htnScore := htnScore + 15; }
    assert htnScore == HtnBpPoints(input) + HtnAgePoints(input.age) + HtnBmiPoints(bmi);

    if input.fhHeart { htnScore := htnScore + 15; }
    htnScore, htnFactors := Apply(htnScore, htnFactors, input.isSmoker, 10, Smoking);
    htnScore, htnFactors := Apply(htnScore, htnFactors,
                                  Truthy(input.alcoholWeekly) && input.alcoholWeekly.value > 14.0, 10, ExcessAlcohol);
  }

  /** 3. Stroke: no advice is ever pushed. */
  method ScoreStroke(input: MetaRiskInput) returns (strokeRisk: DiseaseRisk)
    ensures strokeRisk == StrokeRiskOf(input)
  {
    var strokeScore := 0;
    var strokeFactors: seq<MetaFactor> := [];
    var strokeRecs: seq<MetaAdvice> := [];

    if input.hasStroke {
      strokeScore := 100;
      strokeFactors := strokeFactors + [PriorStroke];
    } else {
      strokeScore, strokeFactors := AccumulateStroke(input);
      strokeScore := if strokeScore < 100 then strokeScore else 100;
    }
    strokeRisk := DiseaseRisk(STROKE_NAME, strokeScore, GetRiskLevel(strokeScore), strokeFactors, strokeRecs);
  }

  /** The stroke rules of an undiagnosed patient, before the cap. */
  method AccumulateStroke(input: MetaRiskInput) returns (strokeScore: int, strokeFactors: seq<MetaFactor>)
    ensures strokeScore == StrokePoints(input)
    ensures strokeFactors == StrokeFactors(input)
  {
    strokeScore, strokeFactors := Apply(0, [], StrokeHypertensive(input), 35, Hypertension);
    assert strokeFactors == Note(StrokeHypertensive(input), Hypertension);
    strokeScore := AddStrokeAgePoints(strokeScore, input.age);
    strokeScore, strokeFactors := Apply(strokeScore, strokeFactors, input.hasDiabetes, 20, Diabetes);
    strokeScore, strokeFactors := Apply(strokeScore, strokeFactors, input.hasHeartDisease, 20, HeartDisease);
    strokeScore, strokeFactors := Apply(strokeScore, strokeFactors, input.isSmoker, 15, Smoking);
    strokeScore := Add(strokeScore, HighTotalCholesterol(input), 10);
    strokeScore := Add(strokeScore, input.fhStroke, 10);
  }

  /** The stroke age ladder: 35, 25 or 15 points from 75, 65 and 55. */
  method AddStrokeAgePoints(strokeScore: int, age: int) returns (newScore: int)
    ensures newScore == strokeScore + StrokeAgePoints(age)
  {
    newScore := strokeScore;
    if age >= 75 { newScore := newScore + 35; }
    else if age >= 65 { newScore := newScore + 25; }
    else if age >= 55 { newScore := newScore + 15; }
  }

  /** 4. Cardiovascular disease: the 25/15 age ladder and five points per clustered factor. */
  method ScoreCvd(input: MetaRiskInput) returns (cvdRisk: DiseaseRisk)
    ensures cvdRisk == CvdRiskOf(input)
  {
    var cvdScore := 0;
    var cvdFactors: seq<MetaFactor> := [];
    var cvdRecs: seq<MetaAdvice> := [];

    if input.hasHeartDisease {
      cvdScore := 100;
      cvdFactors := cvdFactors + [DiagnosedCardiovascularDisease];
    } else {
      cvdScore, cvdFactors := AccumulateCvd(input);
      cvdScore := if cvdScore < 100 then cvdScore else 100;
    }
    cvdRisk := DiseaseRisk(CVD_NAME, cvdScore, GetRiskLevel(cvdScore), cvdFactors, cvdRecs);
  }

  /** The cardiovascular rules of an undiagnosed patient, before the cap. */
  method AccumulateCvd(input: MetaRiskInput) returns (cvdScore: int, cvdFactors: seq<MetaFactor>)
    ensures cvdScore == CvdPoints(input)
    ensures cvdFactors == CvdFactors(input)
  {
    cvdScore := AddCvdAgePoints(0, input.age, input.gender);
    cvdScore := Add(cvdScore, input.fhHeart, 20);
    cvdScore, cvdFactors := Apply(cvdScore, [], input.hasDiabetes, 20, Diabetes);
    assert cvdFactors == Note(input.hasDiabetes, Diabetes);
    cvdScore, cvdFactors := Apply(cvdScore, cvdFactors, input.hasHypertension, 15, Hypertension);
    cvdScore, cvdFactors := Apply(cvdScore, cvdFactors, HighTotalCholesterol(input), 15, HighCholesterol);
    var sScore := if TruthyInt(input.smokeYears) && input.smokeYears.value > 10 then 20 else 15;
    cvdScore, cvdFactors := Apply(cvdScore, cvdFactors, input.isSmoker, sScore, Smoking);
    assert Flag(input.isSmoker, sScore) == CvdSmokingPoints(input);
    cvdScore := Add(cvdScore, Truthy(input.tg) && input.tg.value >= 200.0, 10);
    assert cvdScore + CvdClusterPoints(input) == CvdPoints(input);

    var factorsCount := CountCvdRiskFactors(input);
    cvdScore := Add(cvdScore, factorsCount >= 2, factorsCount * 5);
    assert Flag(factorsCount >= 2, factorsCount * 5) == CvdClusterPoints(input);
  }

  /** The sex-specific cardiovascular age ladder: 25 or 15 points. */
  method AddCvdAgePoints(cvdScore: int, age: int, gender: MetaGender) returns (newScore: int)
    ensures newScore == cvdScore + CvdAgePoints(age, gender)
  {
    newScore := cvdScore;
    if gender == Male {
      if age >= 45 { newScore := newScore + 25; }
      else if age >= 35 { newScore := newScore + 15; }
    } else {
      if age >= 55 { newScore := newScore + 25; }
      else if age >= 45 { newScore := newScore + 15; }
    }
  }

  /** The clustered factors counted one by one. */
  method CountCvdRiskFactors(input: MetaRiskInput) returns (factorsCount: nat)
    ensures factorsCount == CvdRiskFactorCount(input)
  {
    factorsCount := 0;
    if input.hasDiabetes { factorsCount := factorsCount + 1; }
    if input.hasHypertension { factorsCount := factorsCount + 1; }
    if input.isSmoker { factorsCount := factorsCount + 1; }
    if Truthy(input.ldl) && input.ldl.value >= 160.0 { factorsCount := factorsCount + 1; }
    assert factorsCount == Ord(input.hasDiabetes) + Ord(input.hasHypertension) + Ord(input.isSmoker)
                         + Ord(HighLdlCholesterol(input));
    CountTrue4(input.hasDiabetes, input.hasHypertension, input.isSmoker, HighLdlCholesterol(input));
  }

  /** One `if (rule) { score += points; }` step. */
  method Add(score: int, holds: bool, points: nat) returns (newScore: int)
    ensures newScore == score + Flag(holds, points)
  {
    newScore := score;
    if holds {
      newScore := newScore + points;
    }
  }

  /** One `if (rule) { score += points; factors.push(factor); }` step. */
  method Apply(score: int, factors: seq<MetaFactor>, holds: bool, points: nat, factor: MetaFactor)
    returns (newScore: int, newFactors: seq<MetaFactor>)
    ensures newScore == score + Flag(holds, points)
    ensures newFactors == factors + Note(holds, factor)
  {
    newScore, newFactors := score, factors;
    if holds {
      newScore := newScore + points;
      newFactors := newFactors + [factor];
    }
  }

  /** The general advice, pushed item by item. */
  method GenerateGeneralRecommendations(isMetabolicSyndrome: bool, overallScore: int, isSmoker: bool)
    returns (generalRecs: seq<MetaAdvice>)
    ensures generalRecs == GeneralAdviceOf(isMetabolicSyndrome, overallScore, isSmoker)
  {
    generalRecs := [];
    if isMetabolicSyndrome {
      generalRecs := generalRecs + [MetabolicSyndromeWarning];
    }
    ghost var head := generalRecs;
    if overallScore >= 50 {
      generalRecs := generalRecs + [FullHealthCheck, ChangeLifestyleNow];
      if isSmoker { generalRecs := generalRecs + [QuittingIsMostEffective]; }
    } else {
      generalRecs := generalRecs + [KeepHealthyHabits, TrackCheckupValues];
    }
    assert generalRecs == head + generalRecs[|head|..];
  }
}
