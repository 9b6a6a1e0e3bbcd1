/**
 * The data model of the interactive metabolic risk calculator: the form it
 * reads, the metabolic-syndrome status and per-disease risks it derives, and
 * the result it returns.
 */
module MetaRiskTypes {
  import opened Wrappers

  datatype MetaGender = Male | Female

  /** Ordinal risk levels; `Rank` gives their order. */
  datatype MetaRiskLevel = Low | Medium | High | VeryHigh
  {
    function Rank(): nat
    {
      match this
      case Low => 0
      case Medium => 1
      case High => 2
      case VeryHigh => 3
    }
  }

  /**
   * The calculator form. Age and gender are always filled in; an optional
   * number is `None` when left blank; an optional flag left blank reads as
   * `false`. Ages, years and minutes are integers, measurements are reals.
   */
  datatype MetaRiskInput = MetaRiskInput(
    age: int,
    gender: MetaGender,
    height: Option<real>,
    weight: Option<real>,
    waist: Option<real>,
    sbp: Option<real>,
    dbp: Option<real>,
    fastingGlucose: Option<real>,
    hba1c: Option<real>,
    tc: Option<real>,
    ldl: Option<real>,
    hdl: Option<real>,
    tg: Option<real>,
    hasDiabetes: bool,
    hasHypertension: bool,
    hasHeartDisease: bool,
    hasStroke: bool,
    fhDiabetes: bool,
    fhHeart: bool,
    fhStroke: bool,
    isSmoker: bool,
    smokeYears: Option<int>,
    alcoholWeekly: Option<real>,
    exerciseMins: Option<int>,
    onHypertensionMeds: bool,
    onDiabetesMeds: bool,
    onLipidMeds: bool)

  /** The five criteria of the 3-of-5 metabolic syndrome definition, in the order they are checked. */
  datatype Criterion = Waist | BloodPressure | Glucose | Triglycerides | Hdl
  {
    /** Position in the checking order. */
    function Index(): nat
    {
      match this
      case Waist => 0
      case BloodPressure => 1
      case Glucose => 2
      case Triglycerides => 3
      case Hdl => 4
    }

    /** The label reported when the criterion's measurement is missing. */
    function Label(): string
    {
      match this
      case Waist => "腰圍"
      case BloodPressure => "血壓"
      case Glucose => "血糖"
      case Triglycerides => "三酸甘油酯"
      case Hdl => "HDL膽固醇"
    }
  }

  /** Which of the five criteria are met. */
  datatype MetDetails = MetDetails(waist: bool, bp: bool, glucose: bool, tg: bool, hdl: bool)
  {
    function Met(c: Criterion): bool
    {
      match c
      case Waist => waist
      case BloodPressure => bp
      case Glucose => glucose
      case Triglycerides => tg
      case Hdl => hdl
    }

    /** The flags in declaration order, as `Object.values` lists them. */
    function Values(): seq<bool>
    {
      [waist, bp, glucose, tg, hdl]
    }
  }

  datatype MetabolicStatus = MetabolicStatus(
    isMetabolicSyndrome: bool,
    criteriaMet: int,
    details: MetDetails,
    missingValues: seq<Criterion>)

  /** The factor labels the four scorers report. */
  datatype MetaFactor =
    | DiagnosedDiabetes | SevereObesity | Obesity | Overweight | GlucoseAtLeast126 | GlucoseElevated
    | Hba1cAtLeast65 | Hba1cElevated | FamilyHistoryDiabetes | HypertensionHistory | LackOfExercise
    | DiagnosedHypertension | BpAtLeast140Over90 | BpAtLeast130Over85 | BpAtLeast120Over80
    | Smoking | ExcessAlcohol | PriorStroke | Hypertension | Diabetes | HeartDisease
    | DiagnosedCardiovascularDisease | HighCholesterol
  {
    function Text(): string
    {
      match this
      case DiagnosedDiabetes => "已確診糖尿病"
      case SevereObesity => "重度肥胖"
      case Obesity => "肥胖"
      case Overweight => "過重"
      case GlucoseAtLeast126 => "空腹血糖 ≥ 126"
      case GlucoseElevated => "空腹血糖偏高"
      case Hba1cAtLeast65 => "HbA1c ≥ 6.5%"
      case Hba1cElevated => "HbA1c 5.7-6.4%"
      case FamilyHistoryDiabetes => "糖尿病家族史"
      case HypertensionHistory => "高血壓病史"
      case LackOfExercise => "缺乏運動"
      case DiagnosedHypertension => "已確診高血壓"
      case BpAtLeast140Over90 => "血壓值 ≥ 140/90"
      case BpAtLeast130Over85 => "血壓值偏高 (130/85)"
      case BpAtLeast120Over80 => "正常偏高血壓 (120/80)"
      case Smoking => "吸菸"
      case ExcessAlcohol => "飲酒過量"
      case PriorStroke => "既往中風史"
      case Hypertension => "高血壓"
      case Diabetes => "糖尿病"
      case HeartDisease => "心臟病"
      case DiagnosedCardiovascularDisease => "已確診心血管疾病"
      case HighCholesterol => "高膽固醇"
    }
  }

  /** The recommendation texts of the calculator. */
  datatype MetaAdvice =
    | ContinuePrescribedMedication | MonitorBloodGlucose | DietAndWeightLoss | IncreaseExercise
    | TakePrescribedMedication | MonitorBloodPressureDaily | DashDiet | LoseWeightAndExercise
    | MetabolicSyndromeWarning | FullHealthCheck | ChangeLifestyleNow | QuittingIsMostEffective
    | KeepHealthyHabits | TrackCheckupValues
  {
    function Text(): string
    {
      match this
      case ContinuePrescribedMedication => "繼續按醫嘱服藥"
      case MonitorBloodGlucose => "定期監測血糖"
      case DietAndWeightLoss => "建議飲食控制與減重"
      case IncreaseExercise => "增加運動量"
      case TakePrescribedMedication => "按醫嘱服藥"
      case MonitorBloodPressureDaily => "每日監測血壓"
      case DashDiet => "採用 DASH 飲食 (限鹽/高纖)"
      case LoseWeightAndExercise => "減重與運動"
      case MetabolicSyndromeWarning => "⚠️ 您符合「代謝症候群」診斷。請積極進行生活型態調整。"
      case FullHealthCheck => "建議進行全面健康檢查。"
      case ChangeLifestyleNow => "必須立即改善生活型態 (戒菸、減重)。"
      case QuittingIsMostEffective => "戒菸是降低風險最有效的方法。"
      case KeepHealthyHabits => "維持目前健康生活習慣。"
      case TrackCheckupValues => "定期追蹤健檢數值。"
    }
  }

  const DIABETES_NAME: string := "糖尿病風險 (Diabetes)"
  const HYPERTENSION_NAME: string := "高血壓風險 (Hypertension)"
  const STROKE_NAME: string := "中風風險 (Stroke)"
  const CVD_NAME: string := "心血管疾病風險 (CVD/MACE)"

  /** One disease's score (0-100), level, contributing factors and advice. */
  datatype DiseaseRisk = DiseaseRisk(
    name: string,
    score: int,
    level: MetaRiskLevel,
    factors: seq<MetaFactor>,
    recommendations: seq<MetaAdvice>)

  datatype MetaRiskResult = MetaRiskResult(
    overallScore: int,
    overallLevel: MetaRiskLevel,
    diabetes: DiseaseRisk,
    hypertension: DiseaseRisk,
    stroke: DiseaseRisk,
    cvd: DiseaseRisk,
    metabolicStatus: MetabolicStatus,
    generalRecommendations: seq<MetaAdvice>)
}
