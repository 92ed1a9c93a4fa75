/**
 * The heart-disease risk rule of Beats.py.
 *
 * `CalculateHeartRisk` starts an accumulator at 0, adds a fixed number of
 * points for each of five independent risk factors (age, systolic blood
 * pressure, total cholesterol, diabetes, smoking) and caps the total at 100.
 * It is proved equal to `RiskScore`, the specification that sums the five
 * per-factor contributions and saturates the sum.
 *
 * The two decision rules the page applies to the result are pure functions
 * here: `Level` bands the score into Low / Moderate / High, and
 * `Recommendations` picks the ordered advice messages from the inputs.
 */
module Beats {

  /** The only answer of the yes/no questions that scores; any other string scores 0. */
  const Yes: string := "Yes"

  // ---------------------------------------------------------------------------
  // Per-factor contributions
  // ---------------------------------------------------------------------------

  /** Age band: over 65, 56 to 65, 46 to 55, or 45 and under. */
  function AgePoints(age: int): (p: nat)
    ensures p == 20 <==> age > 65
    ensures p == 15 <==> 55 < age <= 65
    ensures p == 10 <==> 45 < age <= 55
    ensures p == 0 <==> age <= 45
  {
    if age > 65 then 20
    else if age > 55 then 15
    else if age > 45 then 10
    else 0
  }

  /** Systolic band, inclusive lower bounds: 180 and up, 160 to 179, 140 to 159, below 140. */
  function BloodPressurePoints(systolicBp: int): (p: nat)
    ensures p == 25 <==> systolicBp >= 180
    ensures p == 20 <==> 160 <= systolicBp < 180
    ensures p == 15 <==> 140 <= systolicBp < 160
    ensures p == 0 <==> systolicBp < 140
  {
    if systolicBp >= 180 then 25
    else if systolicBp >= 160 then 20
    else if systolicBp >= 140 then 15
    else 0
  }

  /** Cholesterol band, exclusive lower bounds: over 240, 201 to 240, 200 and under. */
  function CholesterolPoints(cholesterol: int): (p: nat)
    ensures p == 20 <==> cholesterol > 240
    ensures p == 15 <==> 200 < cholesterol <= 240
    ensures p == 0 <==> cholesterol <= 200
  {
    if cholesterol > 240 then 20
    else if cholesterol > 200 then 15
    else 0
  }

  /** A yes/no factor (diabetes, smoking): 20 points for exactly "Yes", nothing otherwise. */
  function FlagPoints(answer: string): (p: nat)
    ensures p == 20 <==> answer == Yes
    ensures p == 0 <==> answer != Yes
  {
    if answer == Yes then 20 else 0
  }

  // ---------------------------------------------------------------------------
  // The score
  // ---------------------------------------------------------------------------

  /** The sum of the five contributions before the cap. */
  function RawTotal(age: int, systolicBp: int, cholesterol: int, diabetes: string, smoking: string): (t: nat)
    ensures t <= 105
    ensures t % 5 == 0
  {
    AgePoints(age) + BloodPressurePoints(systolicBp) + CholesterolPoints(cholesterol)
    + FlagPoints(diabetes) + FlagPoints(smoking)
  }

  /** The risk percentage: the raw total, saturated at 100. */
  function RiskScore(age: int, systolicBp: int, cholesterol: int, diabetes: string, smoking: string): (r: nat)
    ensures r <= 100
    ensures r <= RawTotal(age, systolicBp, cholesterol, diabetes, smoking)
    ensures RawTotal(age, systolicBp, cholesterol, diabetes, smoking) <= 100
            ==> r == RawTotal(age, systolicBp, cholesterol, diabetes, smoking)
    ensures RawTotal(age, systolicBp, cholesterol, diabetes, smoking) > 100 ==> r == 100
  {
    var t := RawTotal(age, systolicBp, cholesterol, diabetes, smoking);
    if t < 100 then t else 100
  }

  /**
   * The scoring routine as the page runs it: one accumulator, one if/elif
   * chain per factor, then the cap.
   */
  method CalculateHeartRisk(age: int, systolicBp: int, cholesterol: int, diabetes: string, smoking: string)
    returns (riskScore: int)
    ensures riskScore == RiskScore(age, systolicBp, cholesterol, diabetes, smoking)
    ensures 0 <= riskScore <= 100
  {
    riskScore := 0;

    if age > 65 {
      riskScore := riskScore + 20;
    } else if age > 55 {
      riskScore := riskScore + 15;
    } else if age > 45 {
      riskScore := riskScore + 10;
    }

    if systolicBp >= 180 {
      riskScore := riskScore + 25;
    } else if systolicBp >= 160 {
      riskScore := riskScore + 20;
    } else if systolicBp >= 140 {
      riskScore := riskScore + 15;
    }

    if cholesterol > 240 {
      riskScore := riskScore + 20;
    } else if cholesterol > 200 {
      riskScore := riskScore + 15;
    }

    if diabetes == Yes {
      riskScore := riskScore + 20;
    }

    if smoking == Yes {
      riskScore := riskScore + 20;
    }

    if 100 < riskScore {
      riskScore := 100;
    }
  }

  // ---------------------------------------------------------------------------
  // Risk level
  // ---------------------------------------------------------------------------

  datatype RiskLevel = Low | Moderate | High

  /** Position of a level in the order Low < Moderate < High. */
  function Severity(level: RiskLevel): nat
  {
    match level
    case Low => 0
    case Moderate => 1
    case High => 2
  }

  /** Banding of the score: below 30 Low, below 60 Moderate, otherwise High. */
  function Level(score: int): (level: RiskLevel)
    ensures level == Low <==> score < 30
    ensures level == Moderate <==> 30 <= score < 60
    ensures level == High <==> 60 <= score
  {
    if score < 30 then Low
    else if score < 60 then Moderate
    else High
  }

  // ---------------------------------------------------------------------------
  // Recommendations
  // ---------------------------------------------------------------------------

  const BloodPressureAdvice: string := "- Monitor your blood pressure regularly"
  const CholesterolAdvice: string := "- Consider lifestyle changes to lower cholesterol"
  const SmokingAdvice: string := "- Consider smoking cessation programs"
  const DiabetesAdvice: string := "- Maintain regular diabetes checkups"

  /** Position of a message in the fixed display order; 4 for any other text. */
  function AdviceRank(message: string): nat
  {
    if message == BloodPressureAdvice then 0
    else if message == CholesterolAdvice then 1
    else if message == SmokingAdvice then 2
    else if message == DiabetesAdvice then 3
    else 4
  }

  /** The advice lines written under "Recommendations:", in the order the page writes them. */
  function Recommendations(systolicBp: int, cholesterol: int, diabetes: string, smoking: string): (rs: seq<string>)
    ensures BloodPressureAdvice in rs <==> systolicBp >= 140
    ensures CholesterolAdvice in rs <==> cholesterol > 200
    ensures SmokingAdvice in rs <==> smoking == Yes
    ensures DiabetesAdvice in rs <==> diabetes == Yes
    ensures forall i :: 0 <= i < |rs| ==> AdviceRank(rs[i]) < 4
    ensures forall i, j :: 0 <= i < j < |rs| ==> AdviceRank(rs[i]) < AdviceRank(rs[j])
  {
    (if systolicBp >= 140 then [BloodPressureAdvice] else [])
    + (if cholesterol > 200 then [CholesterolAdvice] else [])
    + (if smoking == Yes then [SmokingAdvice] else [])
    + (if diabetes == Yes then [DiabetesAdvice] else [])
  }

  // ---------------------------------------------------------------------------
  // Properties of the score
  // ---------------------------------------------------------------------------

  /** Raising a numeric factor, or answering "Yes" where it was not, never lowers the score. */
  lemma ScoreMonotone(
    age: int, systolicBp: int, cholesterol: int, diabetes: string, smoking: string,
    age': int, systolicBp': int, cholesterol': int, diabetes': string, smoking': string)
    requires age <= age' && systolicBp <= systolicBp' && cholesterol <= cholesterol'
    requires diabetes == Yes ==> diabetes' == Yes
    requires smoking == Yes ==> smoking' == Yes
    ensures RiskScore(age, systolicBp, cholesterol, diabetes, smoking)
            <= RiskScore(age', systolicBp', cholesterol', diabetes', smoking')
  {
  }

  /** With every factor in its top band the raw total is 105, so the cap is what makes it 100. */
  lemma TopBandsSaturate(age: int, systolicBp: int, cholesterol: int, diabetes: string, smoking: string)
    requires age > 65 && systolicBp >= 180 && cholesterol > 240 && diabetes == Yes && smoking == Yes
    ensures RawTotal(age, systolicBp, cholesterol, diabetes, smoking) == 105
    ensures RiskScore(age, systolicBp, cholesterol, diabetes, smoking) == 100
  {
  }

  /** The values the input widgets can produce: age 18-120, systolic 90-200, cholesterol 100-300, "No"/"Yes". */
  predicate InFormRange(age: int, systolicBp: int, cholesterol: int, diabetes: string, smoking: string)
  {
    18 <= age <= 120 && 90 <= systolicBp <= 200 && 100 <= cholesterol <= 300
    && (diabetes == "No" || diabetes == Yes) && (smoking == "No" || smoking == Yes)
  }

  /** The scores that can occur at all: 0, and every multiple of 5 from 10 to 100. */
  predicate Attainable(score: int)
  {
    score == 0 || (10 <= score <= 100 && score % 5 == 0)
  }

  /** Every score is attainable, whatever the inputs. */
  lemma ScoreIsAttainable(age: int, systolicBp: int, cholesterol: int, diabetes: string, smoking: string)
    ensures Attainable(RiskScore(age, systolicBp, cholesterol, diabetes, smoking))
  {
  }

  /** Every attainable score is produced by some answers the form accepts. */
  lemma AttainableIsReached(score: int)
    requires Attainable(score)
    ensures exists age, systolicBp, cholesterol, diabetes, smoking ::
              InFormRange(age, systolicBp, cholesterol, diabetes, smoking)
              && RiskScore(age, systolicBp, cholesterol, diabetes, smoking) == score
  {
    var (age, systolicBp, cholesterol, diabetes, smoking) := AnswersScoring(score);
    assert InFormRange(age, systolicBp, cholesterol, diabetes, smoking)
           && RiskScore(age, systolicBp, cholesterol, diabetes, smoking) == score;
  }

  /**
   * Form answers (age, systolic, cholesterol, diabetes, smoking) chosen for
   * `AttainableIsReached`; ages 40/50/60 sit in the 0/10/15 bands, systolic
   * 120/150/170/190 in the 0/15/20/25 bands, cholesterol 180/220/260 in the
   * 0/15/20 bands.
   */
  function AnswersScoring(score: int): (int, int, int, string, string)
  {
    if score == 0 then (40, 120, 180, "No", "No")
    else if score == 10 then (50, 120, 180, "No", "No")
    else if score == 15 then (40, 120, 220, "No", "No")
    else if score == 20 then (40, 120, 180, "No", Yes)
    else if score == 25 then (40, 190, 180, "No", "No")
    else if score == 30 then (40, 150, 220, "No", "No")
    else if score == 35 then (40, 120, 220, "No", Yes)
    else if score == 40 then (40, 120, 180, Yes, Yes)
    else if score == 45 then (40, 190, 180, "No", Yes)
    else if score == 50 then (40, 150, 220, "No", Yes)
    else if score == 55 then (40, 120, 220, Yes, Yes)
    else if score == 60 then (40, 120, 260, Yes, Yes)
    else if score == 65 then (40, 190, 180, Yes, Yes)
    else if score == 70 then (40, 150, 220, Yes, Yes)
    else if score == 75 then (40, 150, 260, Yes, Yes)
    else if score == 80 then (40, 170, 260, Yes, Yes)
    else if score == 85 then (40, 190, 260, Yes, Yes)
    else if score == 90 then (50, 170, 260, Yes, Yes)
    else if score == 95 then (50, 190, 260, Yes, Yes)
    else (60, 190, 260, Yes, Yes)
  }

  // ---------------------------------------------------------------------------
  // Properties of the level and the recommendations
  // ---------------------------------------------------------------------------

  /** A higher score never gives a lower level. */
  lemma LevelMonotone(score: int, score': int)
    requires score <= score'
    ensures Severity(Level(score)) <= Severity(Level(score'))
  {
  }

  /**
   * Each message is shown exactly when its factor scores points, by the same
   * threshold test the scoring uses.
   */
  lemma AdviceMatchesScoring(systolicBp: int, cholesterol: int, diabetes: string, smoking: string)
    ensures BloodPressureAdvice in Recommendations(systolicBp, cholesterol, diabetes, smoking)
            <==> BloodPressurePoints(systolicBp) > 0
    ensures CholesterolAdvice in Recommendations(systolicBp, cholesterol, diabetes, smoking)
            <==> CholesterolPoints(cholesterol) > 0
    ensures SmokingAdvice in Recommendations(systolicBp, cholesterol, diabetes, smoking)
            <==> FlagPoints(smoking) > 0
    ensures DiabetesAdvice in Recommendations(systolicBp, cholesterol, diabetes, smoking)
            <==> FlagPoints(diabetes) > 0
    ensures Recommendations(systolicBp, cholesterol, diabetes, smoking) == []
            <==> BloodPressurePoints(systolicBp) + CholesterolPoints(cholesterol)
                 + FlagPoints(diabetes) + FlagPoints(smoking) == 0
  {
  }

  /** Without any advice only age can contribute, so the level is Low. */
  lemma NoAdviceMeansLowRisk(age: int, systolicBp: int, cholesterol: int, diabetes: string, smoking: string)
    requires Recommendations(systolicBp, cholesterol, diabetes, smoking) == []
    ensures RiskScore(age, systolicBp, cholesterol, diabetes, smoking) <= 20
    ensures Level(RiskScore(age, systolicBp, cholesterol, diabetes, smoking)) == Low
  {
  }

  /**
   * No two factors reach 60 between them, and age has no message, so a High
   * result always comes with at least two messages.
   */
  lemma HighRiskHasAdvice(age: int, systolicBp: int, cholesterol: int, diabetes: string, smoking: string)
    requires Level(RiskScore(age, systolicBp, cholesterol, diabetes, smoking)) == High
    ensures |Recommendations(systolicBp, cholesterol, diabetes, smoking)| >= 2
  {
  }
}
