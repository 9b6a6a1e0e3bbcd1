/**
 * The sum-and-band questionnaires of the bedside toolbox (ACT, CAT, IPSS,
 * PHQ-9, GAD-7, ISI, BSRS-5, Fagerström) and the GDS-15, whose answers are
 * scored one by one in a loop. Each total is `scores.reduce((a, b) => a + b, 0)`,
 * i.e. `Sum`, followed by a table of bands.
 */
module Questionnaires {
  import opened Wrappers
  import opened Tally
  import opened CalculatorTypes

  const FOLLOW_UP: string := "定期追蹤。"
  const KEEP_TREATMENT: string := "維持目前治療。"

  // ------------------------------------------------------------------
  // Asthma Control Test
  // ------------------------------------------------------------------

  /** Fully controlled from 25, well controlled from 20, otherwise not well controlled and red. */
  function ActAdult(scores: seq<int>): (r: CalculatorResult)
    ensures r.value == Sum(scores)
    ensures r.interpretation == Some("控制完全 (Fully Controlled)") <==> r.value >= 25
    ensures r.interpretation == Some("控制良好 (Well Controlled)") <==> 20 <= r.value < 25
    ensures r.color == Red <==> r.value < 20
    ensures r.color != Yellow
    ensures r.nextSteps == Some(KEEP_TREATMENT) <==> r.color == Green
  {
    var total := Sum(scores);
    if total >= 25 then Shown(total, "控制完全 (Fully Controlled)", Green, Some(KEEP_TREATMENT))
    else if total >= 20 then Shown(total, "控制良好 (Well Controlled)", Green, Some(KEEP_TREATMENT))
    else Shown(total, "控制不佳 (Not Well Controlled)", Red, Some("需調整藥物或評估吸入器技巧/遵囑性。"))
  }

  /** The childhood test: uncontrolled and red up to 19. */
  function ActChild(scores: seq<int>): (r: CalculatorResult)
    ensures r.value == Sum(scores)
    ensures r.color == Red <==> r.value <= 19
    ensures r.color != Yellow
    ensures r.interpretation == Some("控制不佳 (Uncontrolled)") <==> r.color == Red
    ensures r.nextSteps == Some(KEEP_TREATMENT) <==> r.color == Green
  {
    var total := Sum(scores);
    var nextSteps := Some(if total <= 19 then "需調整治療計畫。" else KEEP_TREATMENT);
    if total <= 19 then Shown(total, "控制不佳 (Uncontrolled)", Red, nextSteps)
    else Shown(total, "控制良好 (Well Controlled)", Green, nextSteps)
  }

  /** A better answer on the adult or the childhood test never worsens the colour (control is better when higher). */
  lemma ActBetterAnswersNeverWorsen(scores: seq<int>, better: seq<int>)
    requires |scores| == |better|
    requires forall i :: 0 <= i < |scores| ==> scores[i] <= better[i]
    ensures ActAdult(better).color.Severity() <= ActAdult(scores).color.Severity()
    ensures ActChild(better).color.Severity() <= ActChild(scores).color.Severity()
  {
    SumMonotone(scores, better);
  }

  // ------------------------------------------------------------------
  // COPD Assessment Test
  // ------------------------------------------------------------------

  /** Low impact below 10, medium below 20, high below 30, very high from 30; symptomatic from 10. */
  function Cat(scores: seq<int>): (r: CalculatorResult)
    ensures r.value == Sum(scores)
    ensures r.color == Green <==> r.value < 10
    ensures r.color == Yellow <==> 10 <= r.value < 20
    ensures r.interpretation == Some("極嚴重影響 (Very High)") <==> r.value >= 30
    ensures r.nextSteps == Some("症狀顯著，屬 GOLD Group B 或 E。") <==> r.value >= 10
  {
    var total := Sum(scores);
    var nextSteps := Some(if total >= 10 then "症狀顯著，屬 GOLD Group B 或 E。" else "症狀輕微，屬 GOLD Group A。");
    if total < 10 then Shown(total, "低影響 (Low Impact)", Green, nextSteps)
    else if total < 20 then Shown(total, "中度影響 (Medium)", Yellow, nextSteps)
    else if total < 30 then Shown(total, "高度影響 (High)", Red, nextSteps)
    else Shown(total, "極嚴重影響 (Very High)", Red, nextSteps)
  }

  // ------------------------------------------------------------------
  // International Prostate Symptom Score
  // ------------------------------------------------------------------

  /** Mild up to 7, moderate up to 19, severe above; the next step only reports the quality-of-life index. */
  function Ipss(scores: seq<int>, qol: int): (r: CalculatorResult)
    ensures r.value == Sum(scores)
    ensures r.color == Green <==> r.value <= 7
    ensures r.color == Red <==> r.value > 19
    ensures r.nextSteps == Some("生活品質指數 (QoL): " + IntToString(qol))
  {
    var total := Sum(scores);
    var nextSteps := Some("生活品質指數 (QoL): " + IntToString(qol));
    if total <= 7 then Shown(total, "輕度症狀 (Mild)", Green, nextSteps)
    else if total <= 19 then Shown(total, "中度症狀 (Moderate)", Yellow, nextSteps)
    else Shown(total, "重度症狀 (Severe)", Red, nextSteps)
  }

  // ------------------------------------------------------------------
  // PHQ-9, GAD-7, ISI
  // ------------------------------------------------------------------

  /** Five depression bands at 4, 9, 14 and 19; referral from 10. */
  function Phq9(scores: seq<int>): (r: CalculatorResult)
    ensures r.value == Sum(scores)
    ensures r.color == Green <==> r.value <= 4
    ensures r.color == Yellow <==> 5 <= r.value <= 14
    ensures r.color == Red <==> r.value >= 15
    ensures r.nextSteps == Some("建議進一步評估或轉診。") <==> r.value >= 10
  {
    var total := Sum(scores);
    var nextSteps := Some(if total >= 10 then "建議進一步評估或轉診。" else FOLLOW_UP);
    if total <= 4 then Shown(total, "無憂鬱傾向 (None)", Green, nextSteps)
    else if total <= 9 then Shown(total, "輕微憂鬱 (Mild)", Yellow, nextSteps)
    else if total <= 14 then Shown(total, "中度憂鬱 (Moderate)", Yellow, nextSteps)
    else if total <= 19 then Shown(total, "中重度憂鬱 (Moderately Severe)", Red, nextSteps)
    else Shown(total, "重度憂鬱 (Severe)", Red, nextSteps)
  }

  /** Nine answers scored 0 to 3 total 0..27, so every band is reachable and none is exceeded. */
  lemma Phq9Range(scores: seq<int>)
    requires |scores| == 9
    requires forall i :: 0 <= i < |scores| ==> 0 <= scores[i] <= 3
    ensures 0 <= Phq9(scores).value <= 27
  {
    SumBounds(scores, 0, 3);
  }

  /** Four anxiety bands at 4, 9 and 14; further assessment from 10. */
  function Gad7(scores: seq<int>): (r: CalculatorResult)
    ensures r.value == Sum(scores)
    ensures r.color == Green <==> r.value <= 4
    ensures r.color == Yellow <==> 5 <= r.value <= 14
    ensures r.color == Red <==> r.value >= 15
    ensures r.nextSteps == Some("建議進一步評估。") <==> r.value >= 10
  {
    var total := Sum(scores);
    var nextSteps := Some(if total >= 10 then "建議進一步評估。" else FOLLOW_UP);
    if total <= 4 then Shown(total, "無焦慮傾向 (None)", Green, nextSteps)
    else if total <= 9 then Shown(total, "輕微焦慮 (Mild)", Yellow, nextSteps)
    else if total <= 14 then Shown(total, "中度焦慮 (Moderate)", Yellow, nextSteps)
    else Shown(total, "重度焦慮 (Severe)", Red, nextSteps)
  }

  /** Four insomnia bands at 7, 14 and 21; the result carries no next step. */
  function Isi(scores: seq<int>): (r: CalculatorResult)
    ensures r.value == Sum(scores)
    ensures r.color == Green <==> r.value <= 7
    ensures r.color == Red <==> r.value >= 22
    ensures r.nextSteps == None
  {
    var total := Sum(scores);
    if total <= 7 then Shown(total, "無臨床顯著失眠 (None)", Green, None)
    else if total <= 14 then Shown(total, "輕微失眠 (Subthreshold)", Yellow, None)
    else if total <= 21 then Shown(total, "中度失眠 (Moderate)", Yellow, None)
    else Shown(total, "重度失眠 (Severe)", Red, None)
  }

  /** Raising any answer never lowers the colour of PHQ-9, GAD-7 or ISI. */
  lemma MoodScalesMonotone(scores: seq<int>, worse: seq<int>)
    requires |scores| == |worse|
    requires forall i :: 0 <= i < |scores| ==> scores[i] <= worse[i]
    ensures Phq9(scores).color.Severity() <= Phq9(worse).color.Severity()
    ensures Gad7(scores).color.Severity() <= Gad7(worse).color.Severity()
    ensures Isi(scores).color.Severity() <= Isi(worse).color.Severity()
  {
    SumMonotone(scores, worse);
  }

  // ------------------------------------------------------------------
  // BSRS-5 with the suicide item
  // ------------------------------------------------------------------

  const SUICIDE_RISK: string := " + 自殺風險 (Suicide Risk)"
  const SUICIDE_WARNING: string := "⚠️ 自殺意念評分較高，請立刻尋求專業醫療協助或撥打 1925 安心專線。"
  const SUICIDE_WATCH: string := " (留意自殺意念)"

  /** The distress band of the five-item sum; the normal band has an empty next step. */
  function Bsrs5Band(sum5: int): (r: CalculatorResult)
    ensures r.value == sum5
    ensures r.interpretation.Some? && r.nextSteps.Some?
    ensures r.color == Green <==> sum5 <= 9
    ensures r.color == Red <==> sum5 >= 15
    ensures r.nextSteps == Some("") <==> sum5 <= 5
  {
    if sum5 <= 5 then Shown(sum5, "身心適應良好 (Normal)", Green, Some(""))
    else if sum5 <= 9 then Shown(sum5, "輕度情緒困擾 (Mild)", Green, Some("建議找家人朋友談談，抒發情緒。"))
    else if sum5 <= 14 then Shown(sum5, "中度情緒困擾 (Moderate)", Yellow, Some("建議尋求心理諮商或專業醫療協助。"))
    else Shown(sum5, "重度情緒困擾 (Severe)", Red, Some("建議由精神科醫師診治。"))
  }

  /**
   * A suicide item of 2 or more overrides the band: red, the suicide-risk
   * suffix and the crisis-line advice. A suicide item of exactly 1 keeps the
   * band and appends a watch note to its advice.
   */
  function Bsrs5(scores: seq<int>, suicideScore: int): (r: CalculatorResult)
    ensures r.value == Sum(scores)
    ensures var band := Bsrs5Band(Sum(scores));
      && (suicideScore >= 2 ==>
            r.color == Red && r.interpretation == Some(band.interpretation.value + SUICIDE_RISK)
            && r.nextSteps == Some(SUICIDE_WARNING))
      && (suicideScore == 1 ==>
            r.color == band.color && r.interpretation == band.interpretation
            && r.nextSteps == Some(band.nextSteps.value + SUICIDE_WATCH))
      && (suicideScore < 1 ==> r == band)
    ensures r.color == Red <==> suicideScore >= 2 || Sum(scores) >= 15
  {
    var band := Bsrs5Band(Sum(scores));
    if suicideScore >= 2 then
      band.(interpretation := Some(band.interpretation.value + SUICIDE_RISK), color := Red,
            nextSteps := Some(SUICIDE_WARNING))
    else if suicideScore == 1 then
      band.(nextSteps := Some(band.nextSteps.value + SUICIDE_WATCH))
    else
      band
  }

  // ------------------------------------------------------------------
  // Fagerström Test for Nicotine Dependence
  // ------------------------------------------------------------------

  /** Five dependence bands at 2, 4, 5 and 7; replacement therapy is advised from 4. */
  function Fagerstrom(scores: seq<int>): (r: CalculatorResult)
    ensures r.value == Sum(scores)
    ensures r.color == Green <==> r.value <= 4
    ensures r.color == Yellow <==> r.value == 5
    ensures r.nextSteps == Some("建議使用尼古丁替代療法 (NRT) 或戒菸藥物輔助。") <==> r.value >= 4
  {
    var total := Sum(scores);
    var nextSteps := Some(if total >= 4 then "建議使用尼古丁替代療法 (NRT) 或戒菸藥物輔助。"
                          else "可嘗試靠意志力戒菸，或低劑量 NRT。");
    if total <= 2 then Shown(total, "極低成癮度 (Very Low)", Green, nextSteps)
    else if total <= 4 then Shown(total, "低成癮度 (Low)", Green, nextSteps)
    else if total <= 5 then Shown(total, "中度成癮度 (Medium)", Yellow, nextSteps)
    else if total <= 7 then Shown(total, "高成癮度 (High)", Red, nextSteps)
    else Shown(total, "極高成癮度 (Very High)", Red, nextSteps)
  }

  // ------------------------------------------------------------------
  // Geriatric Depression Scale, 15 items
  // ------------------------------------------------------------------

  /** `reverseIndices.includes(idx)` for the reverse-scored items 0, 4, 6, 10 and 12. */
  predicate ReverseScored(idx: int)
  {
    idx == 0 || idx == 4 || idx == 6 || idx == 10 || idx == 12
  }

  /** An answer scores a point when it is "no" on a reverse-scored item and "yes" on any other. */
  predicate Depressive(answer: bool, idx: int)
  {
    if ReverseScored(idx) then !answer else answer
  }

  /** The points of the answers, item by item in order; at most one per answer. */
  function GdsScore(answers: seq<bool>): (score: nat)
    ensures score <= |answers|
    decreases |answers|
  {
    if answers == [] then 0
    else
      var last := |answers| - 1;
      GdsScore(answers[..last]) + Ord(Depressive(answers[last], last))
  }

  /** Normal up to 4, mild up to 8, moderate up to 11, severe above; further assessment from 5. */
  function Gds15Band(score: int): (r: CalculatorResult)
    ensures r.value == score
    ensures r.color == Green <==> score <= 4
    ensures r.color == Red <==> score >= 12
    ensures r.nextSteps == Some("建議進一步評估。") <==> r.color != Green
  {
    var nextSteps := Some(if score >= 5 then "建議進一步評估。" else FOLLOW_UP);
    if score <= 4 then Shown(score, "正常 (Normal)", Green, nextSteps)
    else if score <= 8 then Shown(score, "輕微憂鬱 (Mild)", Yellow, nextSteps)
    else if score <= 11 then Shown(score, "中度憂鬱 (Moderate)", Yellow, nextSteps)
    else Shown(score, "嚴重憂鬱 (Severe)", Red, nextSteps)
  }

  method CalculateGds15(answers: seq<bool>) returns (r: CalculatorResult)
    ensures r == Gds15Band(GdsScore(answers))
  {
    var reverseIndices := [0, 4, 6, 10, 12];
    var score := 0;
    var idx := 0;
    while idx < |answers|
      invariant 0 <= idx <= |answers|
      invariant score == GdsScore(answers[..idx])
    {
      var ans := answers[idx];
      assert idx in reverseIndices <==> ReverseScored(idx);
      if idx in reverseIndices {
        if !ans { score := score + 1; }
      } else {
        if ans { score := score + 1; }
      }
      assert answers[..idx + 1][..idx] == answers[..idx];
      idx := idx + 1;
    }
    assert answers[..|answers|] == answers;
    r := Gds15Band(score);
  }

  /** The score counts exactly the depressive answers. */
  lemma {:induction false} GdsScoreCountsDepressiveAnswers(answers: seq<bool>)
    ensures GdsScore(answers) == CountTrue(seq(|answers|, i requires 0 <= i < |answers| => Depressive(answers[i], i)))
    decreases |answers|
  {
    var n := |answers|;
    var flags := seq(n, i requires 0 <= i < n => Depressive(answers[i], i));
    if n > 0 {
      var prefix := answers[..n - 1];
      GdsScoreCountsDepressiveAnswers(prefix);
      var prefixFlags := seq(n - 1, i requires 0 <= i < n - 1 => Depressive(prefix[i], i));
      assert flags == prefixFlags + [Depressive(answers[n - 1], n - 1)];
      CountTrueAppend(prefixFlags, [Depressive(answers[n - 1], n - 1)]);
      assert CountTrue([Depressive(answers[n - 1], n - 1)]) == Ord(Depressive(answers[n - 1], n - 1));
    }
  }

  /** Changing one answer moves the score by exactly one point, up when the new answer is the depressive one. */
  lemma {:induction false} GdsFlipOneAnswer(answers: seq<bool>, k: nat)
    requires k < |answers|
    ensures GdsScore(answers[k := !answers[k]]) + Ord(Depressive(answers[k], k))
         == GdsScore(answers) + Ord(!Depressive(answers[k], k))
    decreases |answers|
  {
    var n := |answers|;
    var flipped := answers[k := !answers[k]];
    if k == n - 1 {
      assert flipped[..n - 1] == answers[..n - 1];
    } else {
      assert flipped[..n - 1] == answers[..n - 1][k := !answers[k]];
      GdsFlipOneAnswer(answers[..n - 1], k);
    }
  }

  /** Answering every item the non-depressive way scores 0; answering every item the depressive way scores one per item. */
  lemma {:induction false} GdsExtremes(answers: seq<bool>)
    ensures (forall i :: 0 <= i < |answers| ==> !Depressive(answers[i], i)) ==> GdsScore(answers) == 0
    ensures (forall i :: 0 <= i < |answers| ==> Depressive(answers[i], i)) ==> GdsScore(answers) == |answers|
    decreases |answers|
  {
    if answers != [] {
      var n := |answers|;
      GdsExtremes(answers[..n - 1]);
      assert forall i :: 0 <= i < n - 1 ==> answers[..n - 1][i] == answers[i];
    }
  }
}
