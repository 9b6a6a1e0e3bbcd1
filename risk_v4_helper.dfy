/**
 * The risk assessment service as its static methods compute it: each
 * scorer accumulates a running score and pushes a factor per contributing
 * rule, each builder pushes recommendation items, and each ten-year helper
 * multiplies a running value in place. Every method is proved equal to its
 * specification in module RiskV4Rules.
 */
module RiskV4Helper {
  import opened Wrappers
  import opened Tally
  import opened RiskTypes
  import opened RiskV4Rules

  /** `calculateRisk`: a thrown validation error becomes `Failure`. */
  method CalculateRisk(input: InputData) returns (out: Result<OutputData, ValidationError>)
    ensures out == Assess(input)
  {
    var check := ValidateInput(input);
    if check.Fail? {
      return Failure(check.error);
    }
    var enrichedInput := EnrichInput(input);
    var diabetesRisk := CalculateDiabetesRisk(enrichedInput);
    var hypertensionRisk := CalculateHypertensionRisk(enrichedInput);
    var strokeRisk := CalculateStrokeRisk(enrichedInput);
    var maceRisk := CalculateMaceRisk(enrichedInput);
    var heartDiseaseRisk := CalculateHeartDiseaseRisk(enrichedInput);
    var overallRiskScore := CalculateOverallRisk([diabetesRisk, hypertensionRisk, strokeRisk, maceRisk, heartDiseaseRisk]);
    var overallRiskLevel := ScoreToRiskLevel(overallRiskScore);
    var generalRecommendations := GenerateGeneralRecommendations(overallRiskLevel);
    var lifestyleModifications := GenerateLifestyleModifications(enrichedInput);
    var medicalFollowUp := GenerateMedicalFollowUp(overallRiskLevel);
    out := Success(OutputData(enrichedInput, diabetesRisk, hypertensionRisk, strokeRisk, maceRisk, heartDiseaseRisk,
                              overallRiskLevel, overallRiskScore, generalRecommendations, lifestyleModifications,
                              medicalFollowUp, CALCULATION_VERSION));
  }

  /**
   * The step every scorer repeats: when a rule scores, push its factor
   * (weight = points / 100) and add its points to the running score.
   */
  method AddFactor(factors: seq<Factor>, riskScore: int, name: FactorName, points: nat)
    returns (factors': seq<Factor>, riskScore': int)
    ensures factors' == factors + Entry(name, points)
    ensures riskScore' == riskScore + points
    ensures riskScore' - Total(factors') == riskScore - Total(factors)
  {
    EntryFacts(name, points);
    TotalAppend(factors, Entry(name, points));
    factors', riskScore' := factors, riskScore;
    if points > 0 {
      factors' := factors' + [Factor(name, points, points as real / 100.0)];
      riskScore' := riskScore' + points;
    }
  }

  /**
   * `calculateDiabetesRisk`. Each bracket ladder is its point function from
   * RiskV4Rules; a rule that scores pushes its factor and adds its points.
   */
  method CalculateDiabetesRisk(input: InputData) returns (r: DiseaseRiskResult)
    requires input.age.Some?
    ensures r == DiabetesRisk(input)
  {
    if input.hasDiabetes {
      return DiseaseRiskResult(Diabetes, 100, 100, VeryHigh, Some(100.0), [Factor(DiagnosedDiabetes, 100, 1.0)],
                               [ContinuePrescribedMedication, MonitorBloodGlucose, ControlDiet, ExerciseRegularly]);
    }
    var factors: seq<Factor> := [];
    var riskScore := 0;

    factors, riskScore := AddFactor(factors, riskScore, Age, DiabetesAgePoints(input.age.value));
    assert factors == Entry(Age, DiabetesAgePoints(input.age.value));
    factors, riskScore := AddFactor(factors, riskScore, Bmi, DiabetesBmiPoints(input.bmi));
    factors, riskScore := AddFactor(factors, riskScore, FastingGlucose, DiabetesGlucosePoints(input.fastingGlucose));
    factors, riskScore := AddFactor(factors, riskScore, HbA1c, DiabetesHba1cPoints(input.hba1c));
    factors, riskScore := AddFactor(factors, riskScore, FamilyHistoryDiabetes, Flag(input.familyHistoryDiabetes, 15));
    factors, riskScore := AddFactor(factors, riskScore, HypertensionHistory, Flag(input.hasHypertension, 10));
    factors, riskScore := AddFactor(factors, riskScore, LackOfExercise, ExerciseDeficitPoints(input.exerciseMinutesPerWeek));

    assert factors == DiabetesFactors(input);
    assert riskScore == Total(factors);
    riskScore := if riskScore < 100 then riskScore else 100;
    var riskLevel := ScoreToRiskLevel(riskScore);
    var tenYearRisk := CalculateTenYearDiabetesRisk(input, riskScore);
    var recommendations := GenerateDiabetesRecommendations(riskLevel);
    r := DiseaseRiskResult(Diabetes, riskScore, riskScore, riskLevel, Some(tenYearRisk), factors, recommendations);
  }

  method CalculateHypertensionRisk(input: InputData) returns (r: DiseaseRiskResult)
    requires input.age.Some?
    ensures r == HypertensionRisk(input)
  {
    if input.hasHypertension {
      return DiseaseRiskResult(Hypertension, 100, 100, VeryHigh, None, [Factor(DiagnosedHypertension, 100, 1.0)],
                               [TakePrescribedMedication, MonitorBloodPressure, LimitSodium, KeepHealthyWeight]);
    }
    var factors: seq<Factor> := [];
    var riskScore := 0;

    factors, riskScore := AddFactor(factors, riskScore, BloodPressure, HypertensionBpPoints(input.systolicBP, input.diastolicBP));
    assert factors == Entry(BloodPressure, HypertensionBpPoints(input.systolicBP, input.diastolicBP));
    factors, riskScore := AddFactor(factors, riskScore, Age, HypertensionAgePoints(input.age.value));
    factors, riskScore := AddFactor(factors, riskScore, Bmi, HypertensionBmiPoints(input.bmi));
    factors, riskScore := AddFactor(factors, riskScore, FamilyHistoryCardiovascular, Flag(input.familyHistoryHeartDisease, 15));
    factors, riskScore := AddFactor(factors, riskScore, Smoking, Flag(input.isSmoker, 10));
    factors, riskScore := AddFactor(factors, riskScore, ExcessAlcohol, ExcessAlcoholPoints(input.alcoholConsumption));

    assert factors == HypertensionFactors(input);
    assert riskScore == Total(factors);
    riskScore := if riskScore < 100 then riskScore else 100;
    var riskLevel := ScoreToRiskLevel(riskScore);
    var recommendations := GenerateHypertensionRecommendations(riskLevel);
    r := DiseaseRiskResult(Hypertension, riskScore, riskScore, riskLevel, None, factors, recommendations);
  }

  method CalculateStrokeRisk(input: InputData) returns (r: DiseaseRiskResult)
    requires input.age.Some?
    ensures r == StrokeRisk(input)
  {
    if input.hasStroke {
      return DiseaseRiskResult(Stroke, 100, 100, VeryHigh, None, [Factor(PriorStroke, 100, 1.0)],
                               [StrictBloodPressureControl, TakeAntiplatelets, ControlLipids, RegularReview]);
    }
    var factors: seq<Factor> := [];
    var riskScore := 0;

    factors, riskScore := AddFactor(factors, riskScore, HypertensionFactor, StrokeHypertensionPoints(input));
    assert factors == Entry(HypertensionFactor, StrokeHypertensionPoints(input));
    factors, riskScore := AddFactor(factors, riskScore, Age, StrokeAgePoints(input.age.value));
    factors, riskScore := AddFactor(factors, riskScore, DiabetesFactor, Flag(input.hasDiabetes, 20));
    factors, riskScore := AddFactor(factors, riskScore, HeartDiseaseFactor, Flag(input.hasHeartDisease, 20));
    factors, riskScore := AddFactor(factors, riskScore, Smoking, Flag(input.isSmoker, 15));
    factors, riskScore := AddFactor(factors, riskScore, HighCholesterol, HighCholesterolPoints(input.totalCholesterol, 10));
    factors, riskScore := AddFactor(factors, riskScore, FamilyHistoryStroke, Flag(input.familyHistoryStroke, 10));

    assert factors == StrokeFactors(input);
    assert riskScore == Total(factors);
    riskScore := if riskScore < 100 then riskScore else 100;
    var riskLevel := ScoreToRiskLevel(riskScore);
    var tenYearRisk := CalculateTenYearStrokeRisk(input, riskScore);
    var recommendations := GenerateStrokeRecommendations(input, riskLevel);
    r := DiseaseRiskResult(Stroke, riskScore, riskScore, riskLevel, Some(tenYearRisk), factors, recommendations);
  }

  /**
   * `calculateMACERisk`, with the age/sex factor pushed for its own points
   * (MaceFactorsAsWritten is the list the service builds).
   */
  method CalculateMaceRisk(input: InputData) returns (r: DiseaseRiskResult)
    requires input.age.Some?
    ensures r == MaceRisk(input)
  {
    var factors: seq<Factor> := [];
    var riskScore := 0;

    factors, riskScore := AddFactor(factors, riskScore, PriorCardiovascularEvent, MacePriorEventPoints(input));
    assert factors == Entry(PriorCardiovascularEvent, MacePriorEventPoints(input));
    factors, riskScore := AddFactor(factors, riskScore, AgeSex, MaceAgeSexPoints(input.age.value, input.gender));

    var riskFactorCount: nat := 0;
    if input.hasDiabetes { riskFactorCount := riskFactorCount + 1; }
    if input.hasHypertension { riskFactorCount := riskFactorCount + 1; }
    if input.isSmoker { riskFactorCount := riskFactorCount + 1; }
    if Truthy(input.ldlCholesterol) && input.ldlCholesterol.value >= 160.0 { riskFactorCount := riskFactorCount + 1; }
    assert riskFactorCount == Ord(input.hasDiabetes) + Ord(input.hasHypertension) + Ord(input.isSmoker)
                            + Ord(HighLdl(input.ldlCholesterol));
    CountTrue4(input.hasDiabetes, input.hasHypertension, input.isSmoker, HighLdl(input.ldlCholesterol));
    assert riskFactorCount == MaceRiskFactorCount(input);
    var multiFactorScore := if riskFactorCount >= 2 then riskFactorCount * 10 else 0;
    assert multiFactorScore == MaceClusterPoints(input);
    factors, riskScore := AddFactor(factors, riskScore, MultipleRiskFactors, multiFactorScore);

    assert factors == Entry(PriorCardiovascularEvent, MacePriorEventPoints(input))
                    + Entry(AgeSex, MaceAgeSexPoints(input.age.value, input.gender))
                    + Entry(MultipleRiskFactors, MaceClusterPoints(input));
    factors, riskScore := AddFactor(factors, riskScore, LdlCholesterol, MaceLdlPoints(input.ldlCholesterol));
    factors, riskScore := AddFactor(factors, riskScore, LowHdl, LowHdlPoints(input.hdlCholesterol));

    assert factors == MaceFactors(input);
    assert riskScore == Total(factors);
    riskScore := if riskScore < 100 then riskScore else 100;
    var riskLevel := ScoreToRiskLevel(riskScore);
    var tenYearRisk := CalculateTenYearMaceRisk(input, riskScore);
    var recommendations := GenerateMaceRecommendations(riskLevel);
    r := DiseaseRiskResult(Mace, riskScore, riskScore, riskLevel, Some(tenYearRisk), factors, recommendations);
  }

  method CalculateHeartDiseaseRisk(input: InputData) returns (r: DiseaseRiskResult)
    requires input.age.Some?
    ensures r == HeartDiseaseRisk(input)
  {
    if input.hasHeartDisease {
      return DiseaseRiskResult(HeartDisease, 100, 100, VeryHigh, None, [Factor(DiagnosedHeartDisease, 100, 1.0)],
                               [TakeMedicationRegularly, CardiacRehabilitation, ControlRiskFactors, RegularCardiacCheckup]);
    }
    var factors: seq<Factor> := [];
    var riskScore := 0;

    factors, riskScore := AddFactor(factors, riskScore, Age, HeartAgeSexPoints(input.age.value, input.gender));
    assert factors == Entry(Age, HeartAgeSexPoints(input.age.value, input.gender));
    factors, riskScore := AddFactor(factors, riskScore, FamilyHistoryHeartDisease, Flag(input.familyHistoryHeartDisease, 20));
    factors, riskScore := AddFactor(factors, riskScore, HypertensionFactor, Flag(input.hasHypertension, 15));
    factors, riskScore := AddFactor(factors, riskScore, DiabetesFactor, Flag(input.hasDiabetes, 20));
    factors, riskScore := AddFactor(factors, riskScore, Smoking, HeartSmokingPoints(input));
    factors, riskScore := AddFactor(factors, riskScore, HighCholesterol, HighCholesterolPoints(input.totalCholesterol, 15));
    factors, riskScore := AddFactor(factors, riskScore, HighTriglycerides, HighTriglyceridePoints(input.triglycerides));

    assert factors == HeartDiseaseFactors(input);
    assert riskScore == Total(factors);
    riskScore := if riskScore < 100 then riskScore else 100;
    var riskLevel := ScoreToRiskLevel(riskScore);
    var tenYearRisk := CalculateTenYearHeartDiseaseRisk(input, riskScore);
    var recommendations := GenerateHeartDiseaseRecommendations(riskLevel);
    r := DiseaseRiskResult(HeartDisease, riskScore, riskScore, riskLevel, Some(tenYearRisk), factors, recommendations);
  }

  // ------------------------------------------------------------------
  // Ten-year helpers: a running value multiplied in place, then capped
  // ------------------------------------------------------------------

  method CalculateTenYearDiabetesRisk(input: InputData, baseScore: int) returns (risk: real)
    requires input.age.Some?
    ensures risk == TenYearDiabetesRisk(input, baseScore)
  {
    risk := baseScore as real * 0.15;
    if input.age.value >= 45 { risk := risk * 1.5; }
    if input.familyHistoryDiabetes { risk := risk * 1.3; }
    if risk > 100.0 { risk := 100.0; }
  }

  method CalculateTenYearStrokeRisk(input: InputData, baseScore: int) returns (risk: real)
    requires input.age.Some?
    ensures risk == TenYearStrokeRisk(input, baseScore)
  {
    risk := baseScore as real * 0.12;
    if input.age.value >= 65 { risk := risk * 2.0; }
    if input.hasHypertension { risk := risk * 1.5; }
    if risk > 100.0 { risk := 100.0; }
  }

  method CalculateTenYearMaceRisk(input: InputData, baseScore: int) returns (risk: real)
    requires input.age.Some?
    ensures risk == TenYearMaceRisk(input, baseScore)
  {
    risk := baseScore as real * 0.2;
    if input.age.value >= 55 { risk := risk * 1.8; }
    if input.isSmoker { risk := risk * 1.4; }
    if risk > 100.0 { risk := 100.0; }
  }

  method CalculateTenYearHeartDiseaseRisk(input: InputData, baseScore: int) returns (risk: real)
    requires input.age.Some?
    ensures risk == TenYearHeartDiseaseRisk(input, baseScore)
  {
    risk := baseScore as real * 0.18;
    if input.gender == Some(Male) && input.age.value >= 45 { risk := risk * 1.6; }
    if input.gender == Some(Female) && input.age.value >= 55 { risk := risk * 1.6; }
    if risk > 100.0 { risk := 100.0; }
  }

  // ------------------------------------------------------------------
  // Recommendation builders
  // ------------------------------------------------------------------

  method GenerateGeneralRecommendations(riskLevel: RiskLevel) returns (recommendations: seq<Advice>)
    ensures recommendations == GeneralAdvice(riskLevel)
  {
    recommendations := [];
    if riskLevel == Low {
      recommendations := recommendations + [KeepHealthyLifestyle];
      recommendations := recommendations + [CheckupEvery1To2Years];
    } else if riskLevel == Medium {
      recommendations := recommendations + [AnnualFullCheckup];
      recommendations := recommendations + [ImproveLifestyle];
      recommendations := recommendations + [ConsiderPersonalAssessment];
    } else if riskLevel == High {
      recommendations := recommendations + [ConsultDoctorSoon];
      recommendations := recommendations + [MonitorEvery3To6Months];
      recommendations := recommendations + [MayNeedMedication];
      recommendations := recommendations + [ImproveLifestyleNow];
    } else {
      recommendations := recommendations + [SeekMedicalCareNow];
      recommendations := recommendations + [ComprehensiveTreatmentPlan];
      recommendations := recommendations + [FollowUpEvery1To3Months];
    }
  }

  method GenerateLifestyleModifications(input: InputData) returns (modifications: seq<Advice>)
    ensures modifications == LifestyleAdvice(input)
  {
    modifications := [];
    if Truthy(input.bmi) && input.bmi.value >= 24.0 {
      modifications := modifications + [ControlWeight];
    }
    assert modifications == When(Truthy(input.bmi) && input.bmi.value >= 24.0, ControlWeight);
    ghost var head := modifications;
    if !TruthyInt(input.exerciseMinutesPerWeek) || input.exerciseMinutesPerWeek.value < 150 {
      modifications := modifications + [IncreaseExercise];
    }
    assert modifications == head + When(!TruthyInt(input.exerciseMinutesPerWeek) || input.exerciseMinutesPerWeek.value < 150, IncreaseExercise);
    head := modifications;
    if input.isSmoker {
      modifications := modifications + [QuitSmoking];
    }
    assert modifications == head + When(input.isSmoker, QuitSmoking);
    head := modifications;
    if Truthy(input.alcoholConsumption) && input.alcoholConsumption.value > 14.0 {
      modifications := modifications + [LimitAlcohol];
    }
    assert modifications == head + When(Truthy(input.alcoholConsumption) && input.alcoholConsumption.value > 14.0, LimitAlcohol);
    modifications := modifications + [HealthyDiet];
    modifications := modifications + [AdequateSleep];
    modifications := modifications + [StressManagement];
  }

  method GenerateMedicalFollowUp(riskLevel: RiskLevel) returns (followUp: seq<Advice>)
    ensures followUp == FollowUpAdvice(riskLevel)
  {
    followUp := [];
    if riskLevel == VeryHigh || riskLevel == High {
      followUp := followUp + [BloodPressureWeekly];
      followUp := followUp + [GlucoseMonitoring];
      followUp := followUp + [LipidsEvery3To6Months];
    } else {
      followUp := followUp + [BloodPressureMonthly];
      followUp := followUp + [GlucoseLipidsYearly];
    }
    followUp := followUp + [EcgAsAdvised];
    followUp := followUp + [FundusExam];
  }

  method GenerateDiabetesRecommendations(riskLevel: RiskLevel) returns (recommendations: seq<Advice>)
    ensures recommendations == DiabetesAdvice(riskLevel)
  {
    recommendations := [];
    if riskLevel == VeryHigh || riskLevel == High {
      recommendations := recommendations + [ConsultEndocrinologist];
      recommendations := recommendations + [OralGlucoseToleranceTest];
    }
    recommendations := recommendations + [LowGlycaemicCarbs];
    recommendations := recommendations + [MonitorBloodGlucose];
    recommendations := recommendations + [KeepHealthyWeight];
    recommendations := recommendations + [IncreasePhysicalActivity];
  }

  method GenerateHypertensionRecommendations(riskLevel: RiskLevel) returns (recommendations: seq<Advice>)
    ensures recommendations == HypertensionAdvice(riskLevel)
  {
    recommendations := [];
    recommendations := recommendations + [LimitSalt];
    recommendations := recommendations + [DashDiet];
    recommendations := recommendations + [MonitorBloodPressure];
    recommendations := recommendations + [ExerciseRegularly];
    recommendations := recommendations + [KeepHealthyWeight];
    if riskLevel == VeryHigh || riskLevel == High {
      recommendations := recommendations + [MayNeedAntihypertensives];
    }
  }

  method GenerateStrokeRecommendations(input: InputData, riskLevel: RiskLevel) returns (recommendations: seq<Advice>)
    ensures recommendations == StrokeAdvice(input.isSmoker, riskLevel)
  {
    recommendations := [];
    recommendations := recommendations + [ControlBloodPressureToTarget];
    recommendations := recommendations + [ControlGlucoseIfDiabetic];
    recommendations := recommendations + [ControlLipids];
    if input.isSmoker {
      recommendations := recommendations + [QuitSmokingNow];
    }
    if riskLevel == VeryHigh || riskLevel == High {
      recommendations := recommendations + [ConsiderAntiplatelets];
      recommendations := recommendations + [CarotidUltrasound];
    }
    recommendations := recommendations + [RecogniseStrokeSigns];
  }

  method GenerateMaceRecommendations(riskLevel: RiskLevel) returns (recommendations: seq<Advice>)
    ensures recommendations == MaceAdvice(riskLevel)
  {
    recommendations := [];
    if riskLevel == VeryHigh || riskLevel == High {
      recommendations := recommendations + [ConsultCardiovascularSpecialist];
      recommendations := recommendations + [MayNeedStatins];
      recommendations := recommendations + [ConsiderAspirin];
      recommendations := recommendations + [RegularCardiacTests];
    }
    recommendations := recommendations + [ControlAllRiskFactors];
    recommendations := recommendations + [LowSaturatedFatDiet];
    recommendations := recommendations + [ExerciseRegularly];
    recommendations := recommendations + [KeepHealthyWeight];
  }

  method GenerateHeartDiseaseRecommendations(riskLevel: RiskLevel) returns (recommendations: seq<Advice>)
    ensures recommendations == HeartDiseaseAdvice(riskLevel)
  {
    recommendations := [];
    recommendations := recommendations + [HeartHealthyDiet];
    recommendations := recommendations + [RegularAerobicExercise];
    recommendations := recommendations + [ControlBloodPressureAndLipids];
    if riskLevel == VeryHigh || riskLevel == High {
      recommendations := recommendations + [ConsultCardiologist];
      recommendations := recommendations + [StressTestOrAngiography];
      recommendations := recommendations + [ConsiderDrugTherapy];
    }
    recommendations := recommendations + [RecogniseHeartAttack];
    recommendations := recommendations + [EmergencyPlan];
  }
}
