/**
 * The point-score calculators of the bedside toolbox: Child-Pugh,
 * CHA2DS2-VASc, HAS-BLED, HEART, CURB-65, mMRC, the metabolic-syndrome
 * check, FINDRISC and AD8. Those that accumulate a running score are
 * methods proved equal to a scoring function; the others are functions.
 */
module PointScores {
  import opened Wrappers
  import opened Tally
  import opened CalculatorTypes

  const FOLLOW_UP: string := "定期追蹤。"

  // ------------------------------------------------------------------
  // Child-Pugh
  // ------------------------------------------------------------------

  function BilirubinPoints(bili: real): (p: nat)
    ensures 1 <= p <= 3
  {
    if bili < 2.0 then 1 else if bili <= 3.0 then 2 else 3
  }

  function AlbuminPoints(alb: real): (p: nat)
    ensures 1 <= p <= 3
  {
    if alb > 3.5 then 1 else if alb >= 2.8 then 2 else 3
  }

  function InrPoints(inr: real): (p: nat)
    ensures 1 <= p <= 3
  {
    if inr < 1.7 then 1 else if inr <= 2.3 then 2 else 3
  }

  /** Each laboratory value brings 1 to 3 points; ascites and encephalopathy are added as given. */
  function ChildPughPoints(bili: real, alb: real, inr: real, ascites: int, enceph: int): (points: int)
    ensures 3 + ascites + enceph <= points <= 9 + ascites + enceph
  {
    BilirubinPoints(bili) + AlbuminPoints(alb) + InrPoints(inr) + ascites + enceph
  }

  /** Class A up to 6 points, class B up to 9, class C above; only class C is red and points to transplant. */
  function ChildPughClass(points: int): (r: CalculatorResult)
    ensures r.value == points
    ensures r.interpretation == Some("Class A") <==> points <= 6
    ensures r.interpretation == Some("Class B") <==> 7 <= points <= 9
    ensures r.interpretation == Some("Class C") <==> points > 9
    ensures r.color == Red <==> r.interpretation == Some("Class C")
    ensures r.nextSteps == Some("預後不佳，需評估移植。") <==> r.color == Red
  {
    var nextSteps := if points > 9 then "預後不佳，需評估移植。" else FOLLOW_UP;
    if points <= 6 then Shown(points, "Class A", Green, Some(nextSteps))
    else if points <= 9 then Shown(points, "Class B", Yellow, Some(nextSteps))
    else Shown(points, "Class C", Red, Some(nextSteps))
  }

  method CalculateChildPugh(bili: real, alb: real, inr: real, ascites: int, enceph: int) returns (r: CalculatorResult)
    ensures r == ChildPughClass(ChildPughPoints(bili, alb, inr, ascites, enceph))
  {
    var points := 0;
    if bili < 2.0 { points := points + 1; } else if bili <= 3.0 { points := points + 2; } else { points := points + 3; }
    if alb > 3.5 { points := points + 1; } else if alb >= 2.8 { points := points + 2; } else { points := points + 3; }
    if inr < 1.7 { points := points + 1; } else if inr <= 2.3 { points := points + 2; } else { points := points + 3; }
    points := points + ascites;
    points := points + enceph;

    var grade := "";
    var color := Green;
    if points <= 6 { grade := "Class A"; color := Green; }
    else if points <= 9 { grade := "Class B"; color := Yellow; }
    else { grade := "Class C"; color := Red; }
    r := Shown(points, grade, color, Some(if points > 9 then "預後不佳，需評估移植。" else FOLLOW_UP));
  }

  /** With ascites and encephalopathy graded 1 to 3, the total lies in 5..15. */
  lemma ChildPughRange(bili: real, alb: real, inr: real, ascites: int, enceph: int)
    requires 1 <= ascites <= 3 && 1 <= enceph <= 3
    ensures 5 <= ChildPughPoints(bili, alb, inr, ascites, enceph) <= 15
  {
  }

  /** Higher bilirubin, lower albumin or higher INR never improve the class. */
  lemma ChildPughWorseLabsNeverImprove(bili: real, alb: real, inr: real, bili2: real, alb2: real, inr2: real,
                                       ascites: int, enceph: int)
    requires bili <= bili2 && alb2 <= alb && inr <= inr2
    ensures ChildPughPoints(bili, alb, inr, ascites, enceph) <= ChildPughPoints(bili2, alb2, inr2, ascites, enceph)
    ensures ChildPughClass(ChildPughPoints(bili, alb, inr, ascites, enceph)).color.Severity()
         <= ChildPughClass(ChildPughPoints(bili2, alb2, inr2, ascites, enceph)).color.Severity()
  {
  }

  // ------------------------------------------------------------------
  // CHA2DS2-VASc
  // ------------------------------------------------------------------

  datatype Sex = Male | Female

  /** The age brackets are exclusive: 2 points from 75, 1 point from 65 to 74, none below. */
  function ChaAgePoints(age: int): (p: nat)
    ensures p == 2 <==> age >= 75
    ensures p == 1 <==> 65 <= age < 75
    ensures p == 0 <==> age < 65
  {
    if age >= 75 then 2 else if age >= 65 then 1 else 0
  }

  /** The stroke risk factors of the patient, apart from sex. */
  predicate HasChaRiskFactor(age: int, chf: bool, htn: bool, stroke: bool, vascular: bool, diabetes: bool)
  {
    chf || htn || age >= 65 || diabetes || stroke || vascular
  }

  /** The score lies in 0..9 and a woman scores at least 1. */
  function Cha2ds2VascScore(age: int, sex: Sex, chf: bool, htn: bool, stroke: bool, vascular: bool, diabetes: bool)
    : (score: nat)
    ensures score <= 9
    ensures sex == Female ==> score >= 1
    ensures score == Flag(sex == Female, 1) <==> !HasChaRiskFactor(age, chf, htn, stroke, vascular, diabetes)
  {
    Flag(chf, 1) + Flag(htn, 1) + ChaAgePoints(age) + Flag(diabetes, 1) + Flag(stroke, 2) + Flag(vascular, 1)
    + Flag(sex == Female, 1)
  }

  /** Low for a man at 0 and a woman at 1, moderate one point above, high otherwise. */
  function Cha2ds2VascBand(sex: Sex, score: int): (r: CalculatorResult)
    ensures r.value == score
    ensures sex == Male ==> (r.color == Green <==> score == 0) && (r.color == Yellow <==> score == 1)
    ensures sex == Female ==> (r.color == Green <==> score == 1) && (r.color == Yellow <==> score == 2)
    ensures r.color == Green <==> r.nextSteps == Some("不需抗凝血劑治療，或考慮 Aspirin。")
    ensures r.color == Red <==> r.nextSteps == Some("強烈建議口服抗凝血劑 (NOAC 優先)。")
  {
    if (sex == Male && score == 0) || (sex == Female && score == 1) then
      Shown(score, "低風險 (Low risk)", Green, Some("不需抗凝血劑治療，或考慮 Aspirin。"))
    else if (sex == Male && score == 1) || (sex == Female && score == 2) then
      Shown(score, "中度風險 (Moderate risk)", Yellow, Some("考慮口服抗凝血劑 (NOAC/Warfarin)。"))
    else
      Shown(score, "高風險 (High risk)", Red, Some("強烈建議口服抗凝血劑 (NOAC 優先)。"))
  }

  function Cha2ds2Vasc(age: int, sex: Sex, chf: bool, htn: bool, stroke: bool, vascular: bool, diabetes: bool)
    : CalculatorResult
  {
    Cha2ds2VascBand(sex, Cha2ds2VascScore(age, sex, chf, htn, stroke, vascular, diabetes))
  }

  method CalculateCha2ds2Vasc(age: int, sex: Sex, chf: bool, htn: bool, stroke: bool, vascular: bool, diabetes: bool)
    returns (r: CalculatorResult)
    ensures r == Cha2ds2Vasc(age, sex, chf, htn, stroke, vascular, diabetes)
  {
    var score := AccumulateCha2ds2Vasc(age, sex, chf, htn, stroke, vascular, diabetes);
    if (sex == Male && score == 0) || (sex == Female && score == 1) {
      r := Shown(score, "低風險 (Low risk)", Green, Some("不需抗凝血劑治療，或考慮 Aspirin。"));
    } else if (sex == Male && score == 1) || (sex == Female && score == 2) {
      r := Shown(score, "中度風險 (Moderate risk)", Yellow, Some("考慮口服抗凝血劑 (NOAC/Warfarin)。"));
    } else {
      r := Shown(score, "高風險 (High risk)", Red, Some("強烈建議口服抗凝血劑 (NOAC 優先)。"));
    }
  }

  /** The running total of the CHA2DS2-VASc points. */
  method AccumulateCha2ds2Vasc(age: int, sex: Sex, chf: bool, htn: bool, stroke: bool, vascular: bool, diabetes: bool)
    returns (score: int)
    ensures score == Cha2ds2VascScore(age, sex, chf, htn, stroke, vascular, diabetes)
  {
    score := 0;
    if chf { score := score + 1; }
    if htn { score := score + 1; }
    assert score == Flag(chf, 1) + Flag(htn, 1);
    if age >= 75 { score := score + 2; }
    else if age >= 65 { score := score + 1; }
    assert score == Flag(chf, 1) + Flag(htn, 1) + ChaAgePoints(age);
    if diabetes { score := score + 1; }
    if stroke { score := score + 2; }
    assert score == Flag(chf, 1) + Flag(htn, 1) + ChaAgePoints(age) + Flag(diabetes, 1) + Flag(stroke, 2);
    if vascular { score := score + 1; }
    if sex == Female { score := score + 1; }
  }

  /** The patient is low risk exactly when no factor other than sex is present. */
  lemma Cha2ds2VascLowIffNoRiskFactor(age: int, sex: Sex, chf: bool, htn: bool, stroke: bool, vascular: bool,
                                      diabetes: bool)
    ensures Cha2ds2Vasc(age, sex, chf, htn, stroke, vascular, diabetes).color == Green
        <==> !HasChaRiskFactor(age, chf, htn, stroke, vascular, diabetes)
  {
  }

  /**
   * Sex shifts the score by one point and the cut-offs by one point too, so a
   * woman and a man with the same risk factors get the same interpretation,
   * colour and advice.
   */
  lemma {:induction false} Cha2ds2VascSexOnlyShiftsScore(age: int, chf: bool, htn: bool, stroke: bool,
                                                         vascular: bool, diabetes: bool)
    ensures var woman := Cha2ds2Vasc(age, Female, chf, htn, stroke, vascular, diabetes);
            var man := Cha2ds2Vasc(age, Male, chf, htn, stroke, vascular, diabetes);
            woman.value == man.value + 1 && woman.interpretation == man.interpretation
            && woman.color == man.color && woman.nextSteps == man.nextSteps
  {
    var m := Cha2ds2VascScore(age, Male, chf, htn, stroke, vascular, diabetes);
    assert Cha2ds2VascScore(age, Female, chf, htn, stroke, vascular, diabetes) == m + 1;
  }

  // ------------------------------------------------------------------
  // HAS-BLED
  // ------------------------------------------------------------------

  /** One point per flag set. */
  function HasBledScore(htn: bool, abnormalRenal: bool, abnormalLiver: bool, stroke: bool, bleeding: bool,
                        labileInr: bool, elderly: bool, drugs: bool, alcohol: bool): (score: nat)
    ensures score <= 9
  {
    Ord(htn) + Ord(abnormalRenal) + Ord(abnormalLiver) + Ord(stroke) + Ord(bleeding) + Ord(labileInr) + Ord(elderly)
    + Ord(drugs) + Ord(alcohol)
  }

  /** The HAS-BLED score is the number of true flags, zero exactly when none is set. */
  lemma HasBledCountsFlags(htn: bool, abnormalRenal: bool, abnormalLiver: bool, stroke: bool, bleeding: bool,
                           labileInr: bool, elderly: bool, drugs: bool, alcohol: bool)
    ensures var flags := [htn, abnormalRenal, abnormalLiver, stroke, bleeding, labileInr, elderly, drugs, alcohol];
            HasBledScore(htn, abnormalRenal, abnormalLiver, stroke, bleeding, labileInr, elderly, drugs, alcohol)
            == CountTrue(flags)
    ensures HasBledScore(htn, abnormalRenal, abnormalLiver, stroke, bleeding, labileInr, elderly, drugs, alcohol) == 0
        <==> !(htn || abnormalRenal || abnormalLiver || stroke || bleeding || labileInr || elderly || drugs || alcohol)
  {
    CountTrue9(htn, abnormalRenal, abnormalLiver, stroke, bleeding, labileInr, elderly, drugs, alcohol);
  }

  /** High bleeding risk, red and frequent review exactly from 3 points. */
  function HasBledBand(score: int): (r: CalculatorResult)
    ensures r.value == score
    ensures r.color == Red <==> score >= 3
    ensures r.color != Yellow
    ensures r.interpretation == Some("出血高風險 (High Risk)") <==> score >= 3
    ensures r.nextSteps == Some(FOLLOW_UP) <==> score < 3
  {
    if score >= 3 then
      Shown(score, "出血高風險 (High Risk)", Red, Some("使用抗凝血劑需頻繁回診監測，並校正可逆因子。"))
    else
      Shown(score, "出血低至中度風險", Green, Some(FOLLOW_UP))
  }

  method CalculateHasBled(htn: bool, abnormalRenal: bool, abnormalLiver: bool, stroke: bool, bleeding: bool,
                          labileInr: bool, elderly: bool, drugs: bool, alcohol: bool) returns (r: CalculatorResult)
    ensures r == HasBledBand(HasBledScore(htn, abnormalRenal, abnormalLiver, stroke, bleeding, labileInr, elderly,
                                          drugs, alcohol))
  {
    var score: nat := 0;
    score := Increment(score, htn);
    score := Increment(score, abnormalRenal);
    score := Increment(score, abnormalLiver);
    score := Increment(score, stroke);
    score := Increment(score, bleeding);
    score := Increment(score, labileInr);
    score := Increment(score, elderly);
    score := Increment(score, drugs);
    score := Increment(score, alcohol);

    if score >= 3 {
      r := Shown(score, "出血高風險 (High Risk)", Red, Some("使用抗凝血劑需頻繁回診監測，並校正可逆因子。"));
    } else {
      r := Shown(score, "出血低至中度風險", Green, Some(FOLLOW_UP));
    }
  }

  /** `if (flag) score++;` */
  method Increment(score: nat, flag: bool) returns (newScore: nat)
    ensures newScore == score + Ord(flag)
  {
    newScore := score;
    if flag {
      newScore := newScore + 1;
    }
  }

  // ------------------------------------------------------------------
  // HEART
  // ------------------------------------------------------------------

  /** Low up to 3, moderate up to 6, high above; discharge is considered only when low. */
  function HeartScore(h: int, e: int, a: int, r: int, t: int): (res: CalculatorResult)
    ensures res.value == h + e + a + r + t
    ensures res.color == Green <==> res.value <= 3
    ensures res.color == Red <==> res.value > 6
    ensures res.nextSteps == Some("考慮 Discharge") <==> res.color == Green
  {
    var total := h + e + a + r + t;
    var nextSteps := Some(if total <= 3 then "考慮 Discharge" else "需留觀或住院");
    if total <= 3 then Shown(total, "低風險 (MACE 1.7%)", Green, nextSteps)
    else if total <= 6 then Shown(total, "中風險 (MACE 16.6%)", Yellow, nextSteps)
    else Shown(total, "高風險 (MACE 50.1%)", Red, nextSteps)
  }

  /** A higher total never lowers the colour. */
  lemma HeartScoreMonotone(h: int, e: int, a: int, r: int, t: int, h2: int, e2: int, a2: int, r2: int, t2: int)
    requires h + e + a + r + t <= h2 + e2 + a2 + r2 + t2
    ensures HeartScore(h, e, a, r, t).color.Severity() <= HeartScore(h2, e2, a2, r2, t2).color.Severity()
  {
  }

  // ------------------------------------------------------------------
  // CURB-65
  // ------------------------------------------------------------------

  /** One point each for confusion, urea above 19, respiratory rate from 30, low blood pressure and age 65. */
  function Curb65Score(c: bool, bun: real, rr: int, bpLow: bool, age65: bool): (score: nat)
    ensures score <= 5
  {
    Ord(c) + Ord(bun > 19.0) + Ord(rr >= 30) + Ord(bpLow) + Ord(age65)
  }

  /** The CURB-65 score is the number of criteria met. */
  lemma Curb65CountsCriteria(c: bool, bun: real, rr: int, bpLow: bool, age65: bool)
    ensures Curb65Score(c, bun, rr, bpLow, age65) == CountTrue([c, bun > 19.0, rr >= 30, bpLow, age65])
  {
    CountTrue5(c, bun > 19.0, rr >= 30, bpLow, age65);
  }

  /** Outpatient care up to 1 point; from 2 points admission is considered; red from 3. */
  function Curb65Band(score: int): (r: CalculatorResult)
    ensures r.value == score
    ensures r.color == Green <==> score <= 1
    ensures r.color == Yellow <==> score == 2
    ensures r.nextSteps == Some("門診治療") <==> score <= 1
    ensures r.nextSteps == Some("考慮住院") <==> score > 1
  {
    CalculatorResult(score,
      Some(if score <= 1 then "低風險" else if score == 2 then "中度風險" else "高風險"),
      if score <= 1 then Green else if score == 2 then Yellow else Red,
      Some(if score <= 1 then "門診治療" else "考慮住院"))
  }

  method CalculateCurb65(c: bool, bun: real, rr: int, bpLow: bool, age65: bool) returns (r: CalculatorResult)
    ensures r == Curb65Band(Curb65Score(c, bun, rr, bpLow, age65))
  {
    var score: nat := 0;
    score := Increment(score, c);
    score := Increment(score, bun > 19.0);
    score := Increment(score, rr >= 30);
    score := Increment(score, bpLow);
    score := Increment(score, age65);
    r := CalculatorResult(score,
      Some(if score <= 1 then "低風險" else if score == 2 then "中度風險" else "高風險"),
      if score <= 1 then Green else if score == 2 then Yellow else Red,
      Some(if score <= 1 then "門診治療" else "考慮住院"));
  }

  // ------------------------------------------------------------------
  // mMRC dyspnoea grade
  // ------------------------------------------------------------------

  const MMRC_GRADES: seq<string> := [
    "劇烈運動時才感覺呼吸困難 (0級)",
    "平路快走或爬小坡時感覺呼吸困難 (1級)",
    "平路慢走也會喘，需停下休息 (2級)",
    "平路走約100公尺或幾分鐘就需停下休息 (3級)",
    "穿衣/梳洗或太喘無法出門 (4級)"
  ]

  /** Grades 0 to 4 read their description from the table; any other grade has none. Red from grade 2. */
  function Mmrc(grade: int): (r: CalculatorResult)
    ensures r.value == grade
    ensures r.interpretation.Some? <==> 0 <= grade < 5
    ensures r.interpretation.Some? ==> r.interpretation.value == MMRC_GRADES[grade]
    ensures r.color == Red <==> grade >= 2
    ensures r.color != Yellow
  {
    CalculatorResult(grade,
      if 0 <= grade < |MMRC_GRADES| then Some(MMRC_GRADES[grade]) else None,
      if grade >= 2 then Red else Green,
      Some(if grade >= 2 then "症狀明顯 (Symptomatic)，屬 GOLD Group B 或 E。" else "症狀輕微，屬 GOLD Group A。"))
  }

  // ------------------------------------------------------------------
  // Metabolic-syndrome check
  // ------------------------------------------------------------------

  /** The number of abnormal findings among five; the syndrome is present from three. */
  function CheckMetabolicSyndrome(waist: bool, bp: bool, glu: bool, tg: bool, hdl: bool): (r: CalculatorResult)
    ensures 0 <= r.value <= 5
    ensures r.value == Ord(waist) + Ord(bp) + Ord(glu) + Ord(tg) + Ord(hdl)
    ensures r.color == Red <==> r.value >= 3
    ensures r.interpretation == Some("代謝症候群") <==> r.value >= 3
    ensures r.color != Yellow
  {
    var count := CountTrue([waist, bp, glu, tg, hdl]);
    CountTrue5(waist, bp, glu, tg, hdl);
    CalculatorResult(count,
      Some(if count >= 3 then "代謝症候群" else "非代謝症候群"),
      if count >= 3 then Red else Green,
      Some(if count >= 3 then "積極生活型態調整" else "定期追蹤"))
  }

  // ------------------------------------------------------------------
  // FINDRISC
  // ------------------------------------------------------------------

  function FindriscScore(ageGroup: int, bmiGroup: int, waistGroup: int, activity: bool, diet: bool, meds: bool,
                         highGlu: bool, family: int): (score: int)
    ensures ageGroup + bmiGroup + waistGroup + family <= score <= ageGroup + bmiGroup + waistGroup + family + 10
  {
    ageGroup + bmiGroup + waistGroup + (if activity then 0 else 2) + (if diet then 0 else 1) + (if meds then 2 else 0)
    + (if highGlu then 5 else 0) + family
  }

  /** The ten-year band of a FINDRISC score; testing is urged from 15 points. */
  function FindriscBand(score: int): (r: CalculatorResult)
    ensures r.value == score
    ensures r.color == Green <==> score <= 11
    ensures r.color == Yellow <==> 12 <= score <= 14
    ensures r.color == Red <==> score >= 15
    ensures r.nextSteps == Some("強烈建議進行 OGTT 或 HbA1c 檢查，並積極減重。") <==> r.color == Red
  {
    var interp :=
      if score < 7 then "低風險 (Low risk, 1%)"
      else if score <= 11 then "輕微風險 (Slightly elevated, 4%)"
      else if score <= 14 then "中度風險 (Moderate, 17%)"
      else if score <= 20 then "高風險 (High, 33%)"
      else "極高風險 (Very high, 50%)";
    var color := if score <= 11 then Green else if score <= 14 then Yellow else Red;
    Shown(score, "未來10年罹患糖尿病機率: " + interp, color,
          Some(if score >= 15 then "強烈建議進行 OGTT 或 HbA1c 檢查，並積極減重。" else "維持健康生活。"))
  }

  function Findrisc(ageGroup: int, bmiGroup: int, waistGroup: int, activity: bool, diet: bool, meds: bool,
                    highGlu: bool, family: int): CalculatorResult
  {
    FindriscBand(FindriscScore(ageGroup, bmiGroup, waistGroup, activity, diet, meds, highGlu, family))
  }

  /** Each unhealthy answer can only raise the score and never lowers the colour. */
  lemma FindriscRiskAnswersNeverHelp(ageGroup: int, bmiGroup: int, waistGroup: int, activity: bool, diet: bool,
                                     meds: bool, highGlu: bool, family: int)
    ensures FindriscScore(ageGroup, bmiGroup, waistGroup, false, diet, meds, highGlu, family)
         == FindriscScore(ageGroup, bmiGroup, waistGroup, true, diet, meds, highGlu, family) + 2
    ensures FindriscScore(ageGroup, bmiGroup, waistGroup, activity, diet, meds, true, family)
         == FindriscScore(ageGroup, bmiGroup, waistGroup, activity, diet, meds, false, family) + 5
    ensures FindriscScore(ageGroup, bmiGroup, waistGroup, activity, false, meds, highGlu, family)
         == FindriscScore(ageGroup, bmiGroup, waistGroup, activity, true, meds, highGlu, family) + 1
    ensures FindriscScore(ageGroup, bmiGroup, waistGroup, activity, diet, true, highGlu, family)
         == FindriscScore(ageGroup, bmiGroup, waistGroup, activity, diet, false, highGlu, family) + 2
    ensures Findrisc(ageGroup, bmiGroup, waistGroup, true, diet, meds, highGlu, family).color.Severity()
         <= Findrisc(ageGroup, bmiGroup, waistGroup, false, diet, meds, highGlu, family).color.Severity()
    ensures Findrisc(ageGroup, bmiGroup, waistGroup, activity, true, meds, highGlu, family).color.Severity()
         <= Findrisc(ageGroup, bmiGroup, waistGroup, activity, false, meds, highGlu, family).color.Severity()
    ensures Findrisc(ageGroup, bmiGroup, waistGroup, activity, diet, false, highGlu, family).color.Severity()
         <= Findrisc(ageGroup, bmiGroup, waistGroup, activity, diet, true, highGlu, family).color.Severity()
    ensures Findrisc(ageGroup, bmiGroup, waistGroup, activity, diet, meds, false, family).color.Severity()
         <= Findrisc(ageGroup, bmiGroup, waistGroup, activity, diet, meds, true, family).color.Severity()
  {
  }

  // ------------------------------------------------------------------
  // AD8
  // ------------------------------------------------------------------

  /** Positive, red and referred exactly from 2 points. */
  function Ad8(score: int): (r: CalculatorResult)
    ensures r.value == score
    ensures r.color == Red <==> score >= 2
    ensures r.interpretation == Some("可能患有失智症 (Positive)") <==> score >= 2
    ensures r.nextSteps == Some(FOLLOW_UP) <==> score < 2
    ensures r.color != Yellow
  {
    if score >= 2 then Shown(score, "可能患有失智症 (Positive)", Red, Some("建議就醫進行完整評估。"))
    else Shown(score, "目前無明顯失智徵兆 (Negative)", Green, Some(FOLLOW_UP))
  }
}
