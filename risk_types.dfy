/**
 * The data model of the risk assessment service: the patient record it
 * consumes, the per-disease result it builds and the assessment it returns.
 */
module RiskTypes {
  import opened Wrappers

  datatype Gender = Male | Female

  /** Ordinal risk levels; `Rank` gives their order. */
  datatype RiskLevel = Low | Medium | High | VeryHigh
  {
    function Rank(): nat
    {
      match this
      case Low => 0
      case Medium => 1
      case High => 2
      case VeryHigh => 3
    }
  }

  datatype DiseaseType = Diabetes | Hypertension | Stroke | Mace | HeartDisease

  /**
   * The patient record. An optional number is `None` when the field is
   * undefined; an optional flag that is undefined reads as `false`.
   * Fields the engine never reads (heart rate, creatinine, cigarettes per
   * day, medication flags) are not modelled.
   */
  datatype InputData = InputData(
    age: Option<int>,
    gender: Option<Gender>,
    height: Option<real>,
    weight: Option<real>,
    bmi: Option<real>,
    systolicBP: Option<real>,
    diastolicBP: Option<real>,
    fastingGlucose: Option<real>,
    hba1c: Option<real>,
    totalCholesterol: Option<real>,
    ldlCholesterol: Option<real>,
    hdlCholesterol: Option<real>,
    triglycerides: Option<real>,
    hasDiabetes: bool,
    hasHypertension: bool,
    hasHeartDisease: bool,
    hasStroke: bool,
    familyHistoryDiabetes: bool,
    familyHistoryHeartDisease: bool,
    familyHistoryStroke: bool,
    isSmoker: bool,
    smokeYears: Option<int>,
    alcoholConsumption: Option<real>,
    exerciseMinutesPerWeek: Option<int>)

  /** The names under which contributing factors are reported. */
  datatype FactorName =
    | DiagnosedDiabetes | DiagnosedHypertension | PriorStroke | DiagnosedHeartDisease
    | Age | Bmi | FastingGlucose | HbA1c | FamilyHistoryDiabetes | HypertensionHistory
    | LackOfExercise | BloodPressure | FamilyHistoryCardiovascular | Smoking | ExcessAlcohol
    | HypertensionFactor | DiabetesFactor | HeartDiseaseFactor | HighCholesterol
    | FamilyHistoryStroke | PriorCardiovascularEvent | AgeSex | MultipleRiskFactors
    | LdlCholesterol | LowHdl | FamilyHistoryHeartDisease | HighTriglycerides
  {
    function Text(): string
    {
      match this
      case DiagnosedDiabetes => "已确诊糖尿病"
      case DiagnosedHypertension => "已确诊高血压"
      case PriorStroke => "既往中风史"
      case DiagnosedHeartDisease => "已确诊心脏病"
      case Age => "年龄"
      case Bmi => "BMI"
      case FastingGlucose => "空腹血糖"
      case HbA1c => "糖化血红蛋白"
      case FamilyHistoryDiabetes => "糖尿病家族史"
      case HypertensionHistory => "高血压史"
      case LackOfExercise => "缺乏运动"
      case BloodPressure => "血压"
      case FamilyHistoryCardiovascular => "心血管疾病家族史"
      case Smoking => "吸烟"
      case ExcessAlcohol => "饮酒过量"
      case HypertensionFactor => "高血压"
      case DiabetesFactor => "糖尿病"
      case HeartDiseaseFactor => "心脏病"
      case HighCholesterol => "高胆固醇"
      case FamilyHistoryStroke => "中风家族史"
      case PriorCardiovascularEvent => "既往心血管事件"
      case AgeSex => "年龄性别因素"
      case MultipleRiskFactors => "多重危险因素"
      case LdlCholesterol => "LDL胆固醇"
      case LowHdl => "HDL胆固醇过低"
      case FamilyHistoryHeartDisease => "心脏病家族史"
      case HighTriglycerides => "高甘油三酯"
    }
  }

  /**
   * A contributing factor: its name, the points it added to the score and
   * its reported weight (points / 100 by design).
   */
  datatype Factor = Factor(name: FactorName, points: int, weight: real)

  /** The fixed recommendation texts. */
  datatype Advice =
    // already diagnosed
    | ContinuePrescribedMedication | MonitorBloodGlucose | ControlDiet | ExerciseRegularly
    | TakePrescribedMedication | MonitorBloodPressure | LimitSodium | KeepHealthyWeight
    | StrictBloodPressureControl | TakeAntiplatelets | ControlLipids | RegularReview
    | TakeMedicationRegularly | CardiacRehabilitation | ControlRiskFactors | RegularCardiacCheckup
    // general, by overall level
    | KeepHealthyLifestyle | CheckupEvery1To2Years
    | AnnualFullCheckup | ImproveLifestyle | ConsiderPersonalAssessment
    | ConsultDoctorSoon | MonitorEvery3To6Months | MayNeedMedication | ImproveLifestyleNow
    | SeekMedicalCareNow | ComprehensiveTreatmentPlan | FollowUpEvery1To3Months
    // lifestyle
    | ControlWeight | IncreaseExercise | QuitSmoking | LimitAlcohol
    | HealthyDiet | AdequateSleep | StressManagement
    // medical follow-up
    | BloodPressureWeekly | GlucoseMonitoring | LipidsEvery3To6Months
    | BloodPressureMonthly | GlucoseLipidsYearly | EcgAsAdvised | FundusExam
    // diabetes
    | ConsultEndocrinologist | OralGlucoseToleranceTest | LowGlycaemicCarbs | IncreasePhysicalActivity
    // hypertension
    | LimitSalt | DashDiet | MayNeedAntihypertensives
    // stroke
    | ControlBloodPressureToTarget | ControlGlucoseIfDiabetic | QuitSmokingNow
    | ConsiderAntiplatelets | CarotidUltrasound | RecogniseStrokeSigns
    // MACE
    | ConsultCardiovascularSpecialist | MayNeedStatins | ConsiderAspirin | RegularCardiacTests
    | ControlAllRiskFactors | LowSaturatedFatDiet
    // heart disease
    | HeartHealthyDiet | RegularAerobicExercise | ControlBloodPressureAndLipids
    | ConsultCardiologist | StressTestOrAngiography | ConsiderDrugTherapy
    | RecogniseHeartAttack | EmergencyPlan
  {
    function Text(): string
    {
      match this
      case ContinuePrescribedMedication => "继续按医嘱服药"
      case MonitorBloodGlucose => "定期监测血糖"
      case ControlDiet => "控制饮食"
      case ExerciseRegularly => "规律运动"
      case TakePrescribedMedication => "按医嘱服药"
      case MonitorBloodPressure => "定期监测血压"
      case LimitSodium => "限制钠摄入"
      case KeepHealthyWeight => "保持健康体重"
      case StrictBloodPressureControl => "严格控制血压"
      case TakeAntiplatelets => "服用抗血小板药物"
      case ControlLipids => "控制血脂"
      case RegularReview => "定期复查"
      case TakeMedicationRegularly => "规律服药"
      case CardiacRehabilitation => "心脏康复"
      case ControlRiskFactors => "控制危险因素"
      case RegularCardiacCheckup => "定期心脏检查"
      case KeepHealthyLifestyle => "继续保持健康的生活方式"
      case CheckupEvery1To2Years => "定期进行健康检查（每1-2年）"
      case AnnualFullCheckup => "建议每年进行一次全面健康检查"
      case ImproveLifestyle => "积极改善生活方式，控制危险因素"
      case ConsiderPersonalAssessment => "考虑咨询医生进行个性化风险评估"
      case ConsultDoctorSoon => "强烈建议尽快咨询医生"
      case MonitorEvery3To6Months => "需要密切监测健康指标（每3-6个月）"
      case MayNeedMedication => "可能需要药物干预"
      case ImproveLifestyleNow => "必须立即改善生活方式"
      case SeekMedicalCareNow => "立即就医，需要专业医疗干预"
      case ComprehensiveTreatmentPlan => "需要制定综合治疗方案"
      case FollowUpEvery1To3Months => "定期复诊和监测（每1-3个月）"
      case ControlWeight => "控制体重：目标BMI < 24"
      case IncreaseExercise => "增加运动：每周至少150分钟中等强度有氧运动"
      case QuitSmoking => "戒烟：这是降低心血管风险最重要的措施"
      case LimitAlcohol => "限制饮酒：男性每天不超过2个标准饮品，女性不超过1个"
      case HealthyDiet => "健康饮食：多吃蔬菜水果，减少盐、糖和饱和脂肪摄入"
      case AdequateSleep => "充足睡眠：每晚7-8小时"
      case StressManagement => "压力管理：学习放松技巧，保持心理健康"
      case BloodPressureWeekly => "血压监测：每周至少2-3次"
      case GlucoseMonitoring => "血糖监测：如有糖尿病风险，定期检测空腹血糖和HbA1c"
      case LipidsEvery3To6Months => "血脂检查：每3-6个月检查一次"
      case BloodPressureMonthly => "血压监测：每月1-2次"
      case GlucoseLipidsYearly => "血糖血脂检查：每年1次"
      case EcgAsAdvised => "心电图检查：根据医生建议"
      case FundusExam => "眼底检查：如有糖尿病或高血压"
      case ConsultEndocrinologist => "立即咨询内分泌科医生"
      case OralGlucoseToleranceTest => "进行口服葡萄糖耐量试验（OGTT）"
      case LowGlycaemicCarbs => "控制碳水化合物摄入，选择低血糖指数食物"
      case IncreasePhysicalActivity => "增加体育活动"
      case LimitSalt => "限制钠摄入（每日 < 6克盐）"
      case DashDiet => "采用DASH饮食（富含蔬菜、水果、低脂乳制品）"
      case MayNeedAntihypertensives => "可能需要降压药物治疗，请咨询医生"
      case ControlBloodPressureToTarget => "严格控制血压至目标值"
      case ControlGlucoseIfDiabetic => "控制血糖（如有糖尿病）"
      case QuitSmokingNow => "立即戒烟"
      case ConsiderAntiplatelets => "考虑服用阿司匹林等抗血小板药物（需医生评估）"
      case CarotidUltrasound => "定期进行颈动脉超声检查"
      case RecogniseStrokeSigns => "识别中风预警信号（FAST：面部、手臂、语言、时间）"
      case ConsultCardiovascularSpecialist => "强烈建议咨询心血管专科医生"
      case MayNeedStatins => "可能需要他汀类药物降低LDL胆固醇"
      case ConsiderAspirin => "考虑服用阿司匹林（需医生评估）"
      case RegularCardiacTests => "定期进行心脏检查（心电图、超声心动图等）"
      case ControlAllRiskFactors => "控制所有心血管危险因素"
      case LowSaturatedFatDiet => "健康饮食：减少饱和脂肪和反式脂肪"
      case HeartHealthyDiet => "采用心脏健康饮食"
      case RegularAerobicExercise => "规律进行有氧运动"
      case ControlBloodPressureAndLipids => "控制血压和血脂"
      case ConsultCardiologist => "咨询心脏专科医生"
      case StressTestOrAngiography => "可能需要负荷试验或冠脉造影"
      case ConsiderDrugTherapy => "考虑药物治疗（他汀类、β受体阻滞剂等）"
      case RecogniseHeartAttack => "学习识别心脏病发作症状"
      case EmergencyPlan => "制定应急计划"
    }
  }

  /**
   * One disease's result. `riskPercentage` always equals `riskScore`;
   * `tenYearRisk` is absent for hypertension and for a diagnosed stroke or
   * heart disease.
   */
  datatype DiseaseRiskResult = DiseaseRiskResult(
    diseaseType: DiseaseType,
    riskScore: int,
    riskPercentage: int,
    riskLevel: RiskLevel,
    tenYearRisk: Option<real>,
    factors: seq<Factor>,
    recommendations: seq<Advice>)

  /** The two validation failures `calculateRisk` throws. */
  datatype ValidationError = AgeOutOfRange | GenderRequired
  {
    function Message(): string
    {
      match this
      case AgeOutOfRange => "年龄必须在 0-120 之间"
      case GenderRequired => "性别为必填项"
    }
  }

  /** The assessment, without its generated identifier and timestamp. */
  datatype OutputData = OutputData(
    inputData: InputData,
    diabetesRisk: DiseaseRiskResult,
    hypertensionRisk: DiseaseRiskResult,
    strokeRisk: DiseaseRiskResult,
    maceRisk: DiseaseRiskResult,
    heartDiseaseRisk: DiseaseRiskResult,
    overallRiskLevel: RiskLevel,
    overallRiskScore: int,
    generalRecommendations: seq<Advice>,
    lifestyleModifications: seq<Advice>,
    medicalFollowUp: seq<Advice>,
    calculationVersion: string)
}
