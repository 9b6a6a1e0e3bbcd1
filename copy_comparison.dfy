/**
 * The service engine and the interactive calculator score the same
 * diseases with separately written rules. These lemmas state where the two
 * copies agree and where they diverge, for a calculator form carried over
 * to the service's input.
 */
module CopyComparison {
  import opened Wrappers
  import opened Tally
  import RiskTypes
  import RiskV4Rules
  import MetaRiskTypes
  import MetaRiskRules
  import PointScores
  import CalculatorTypes

  function AsServiceGender(g: MetaRiskTypes.MetaGender): RiskTypes.Gender
  {
    match g
    case Male => RiskTypes.Male
    case Female => RiskTypes.Female
  }

  /** The calculator form as service input: no stored BMI, and the medication flags have no counterpart. */
  function AsServiceInput(m: MetaRiskTypes.MetaRiskInput): (input: RiskTypes.InputData)
    ensures input.age == Some(m.age) && input.bmi.None?
    ensures input.ldlCholesterol == m.ldl && input.hasDiabetes == m.hasDiabetes
  {
    RiskTypes.InputData(
      Some(m.age), Some(AsServiceGender(m.gender)), m.height, m.weight, None, m.sbp, m.dbp, m.fastingGlucose,
      m.hba1c, m.tc, m.ldl, m.hdl, m.tg, m.hasDiabetes, m.hasHypertension, m.hasHeartDisease, m.hasStroke,
      m.fhDiabetes, m.fhHeart, m.fhStroke, m.isSmoker, m.smokeYears, m.alcoholWeekly, m.exerciseMins)
  }

  /** Both copies band a score at the same thresholds 25, 50 and 75. */
  lemma LevelThresholdsAgree(score: int)
    ensures MetaRiskRules.GetRiskLevel(score).Rank() == RiskV4Rules.ScoreToRiskLevel(score).Rank()
  {
  }

  /** Both copies count the same clustered factors; the calculator adds 5 per factor, the service 10. */
  lemma CvdClusterIsHalfOfMace(m: MetaRiskTypes.MetaRiskInput)
    ensures MetaRiskRules.CvdRiskFactorCount(m) == RiskV4Rules.MaceRiskFactorCount(AsServiceInput(m))
    ensures 2 * MetaRiskRules.CvdClusterPoints(m) == RiskV4Rules.MaceClusterPoints(AsServiceInput(m))
  {
    var input := AsServiceInput(m);
    assert [m.hasDiabetes, m.hasHypertension, m.isSmoker, MetaRiskRules.HighLdlCholesterol(m)]
        == [input.hasDiabetes, input.hasHypertension, input.isSmoker, RiskV4Rules.HighLdl(input.ldlCholesterol)];
  }

  /**
   * The calculator's cardiovascular age ladder is the service's heart-disease
   * ladder, not its MACE ladder: it pays 5 more points in every non-zero bracket.
   */
  lemma CvdAgeLadderIsHeartDiseaseLadder(age: int, g: MetaRiskTypes.MetaGender)
    ensures MetaRiskRules.CvdAgePoints(age, g) == RiskV4Rules.HeartAgeSexPoints(age, Some(AsServiceGender(g)))
    ensures var mace := RiskV4Rules.MaceAgeSexPoints(age, Some(AsServiceGender(g)));
            MetaRiskRules.CvdAgePoints(age, g) == if mace > 0 then mace + 5 else 0
  {
  }

  /** The two stroke age ladders agree. */
  lemma StrokeAgeLaddersAgree(age: int)
    ensures MetaRiskRules.StrokeAgePoints(age) == RiskV4Rules.StrokeAgePoints(age)
  {
  }

  /** The bedside metabolic-syndrome check, fed the calculator's five criteria, reaches the calculator's verdict. */
  lemma MetabolicCheckAgreesWithCalculator(m: MetaRiskTypes.MetaRiskInput)
    ensures var d := MetaRiskRules.MetDetailsOf(m);
            var check := PointScores.CheckMetabolicSyndrome(d.waist, d.bp, d.glucose, d.tg, d.hdl);
            var status := MetaRiskRules.MetabolicStatusOf(m);
            check.value == status.criteriaMet
            && (check.color == CalculatorTypes.Red <==> status.isMetabolicSyndrome)
  {
    var d := MetaRiskRules.MetDetailsOf(m);
    CountTrue5(d.waist, d.bp, d.glucose, d.tg, d.hdl);
  }
}
