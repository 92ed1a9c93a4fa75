# Beats heart-risk calculator, modelled in Dafny

Beats is a one-page heart-disease risk questionnaire. Its logic is the
additive scoring rule `calculate_heart_risk` in `Beats.py`. The rule adds fixed
points for age, systolic blood pressure, total cholesterol, diabetes and smoking,
then caps the total at 100 %. The page then applies two decision rules to the
result: a Low / Moderate / High banding and a list of advice messages.

`beats.dfy` (module `Beats`) holds:

- `CalculateHeartRisk`: the routine as written, with one accumulator and one
  if/elif chain per factor followed by the cap. It is proved equal to
  `RiskScore`.
- `RiskScore`: the specification. It is the saturated sum (`RawTotal`) of five
  per-factor contributions (`AgePoints`, `BloodPressurePoints`,
  `CholesterolPoints`, `FlagPoints`).
- `Level` and `Recommendations`: the banding and the advice selection, taken
  out of the page handler as pure functions.
- Lemmas on monotonicity, saturation, the exact set of scores that can occur,
  and how the advice agrees with the points.

The properties hold for all integers and all strings. The form's widget ranges
(age 18-120, systolic 90-200, cholesterol 100-300, "No"/"Yes") appear only in
`InFormRange`. That predicate is used to show that every score that can occur
is reachable from the form. A yes/no answer scores only when it is exactly
`"Yes"`: `"yes"` or `"YES"` scores 0, as in the source's string comparison.

Later iterations of the application (four condition scores, lab findings, BMI,
login and history) are not in `Beats.py` and are not part of this model. The
Moderate/High boundary is therefore 60, the value `Beats.py` uses.
`CalculateHeartRisk`'s cap `if 100 < riskScore { riskScore := 100; }` is
Python's `min(risk_score, 100)`. Python integers are unbounded, like Dafny's,
so there is no overflow to model.

## Model

| member | source | states |
|---|---|---|
| Beats.AgePoints | Beats.py:6-12 | age contributes 20 exactly when over 65, 15 exactly for 56-65, 10 exactly for 46-55 and 0 exactly at 45 or under; the bands exclude each other |
| Beats.BloodPressurePoints | Beats.py:14-20 | systolic contributes 25 exactly from 180, 20 exactly for 160-179, 15 exactly for 140-159 and 0 exactly below 140 (inclusive lower bounds) |
| Beats.CholesterolPoints | Beats.py:22-26 | cholesterol contributes 20 exactly above 240, 15 exactly for 201-240 and 0 exactly at 200 or under (exclusive lower bounds) |
| Beats.FlagPoints | Beats.py:28-34 | a diabetes or smoking answer contributes 20 exactly when it is the string "Yes" and 0 for every other string |
| Beats.RawTotal | Beats.py:3-34 | the uncapped sum of the five contributions is at most 105 and always a multiple of 5 |
| Beats.RiskScore | Beats.py:3-36 | the score lies in 0..100, never exceeds the raw total, equals it when the raw total is at most 100, and is 100 when it exceeds 100 |
| Beats.CalculateHeartRisk | Beats.py:3-36 | the accumulator-and-cap routine returns exactly `RiskScore` of its inputs, hence a value in 0..100 |
| Beats.Level | Beats.py:59-64 | Low exactly when the score is below 30, Moderate exactly when 30 <= score < 60, High exactly when score >= 60; the three bands cover all scores without overlap |
| Beats.Recommendations | Beats.py:67-75 | the blood-pressure, cholesterol, smoking and diabetes messages each appear exactly when systolic >= 140, cholesterol > 200, smoking is "Yes", diabetes is "Yes"; every entry is one of the four, and they come without repeats in that fixed order |
| Beats.ScoreMonotone | Beats.py:3-36 | raising age, systolic or cholesterol, or turning a diabetes or smoking answer into "Yes", never lowers the score |
| Beats.TopBandsSaturate | Beats.py:3-36 | with every factor in its top band the raw total is 105 and the capped score is exactly 100 |
| Beats.ScoreIsAttainable | Beats.py:3-36 | every score is 0 or a multiple of 5 between 10 and 100 (5 never occurs) |
| Beats.AttainableIsReached | Beats.py:3-46 | every such value is the score of some answers within the form's widget ranges |
| Beats.LevelMonotone | Beats.py:59-64 | a higher score never maps to a less severe level |
| Beats.AdviceMatchesScoring | Beats.py:15-75 | each message is shown exactly when its factor's contribution (lines 15-20, 23-26, 29-34) is positive; the list is empty exactly when those four factors contribute 0 |
| Beats.NoAdviceMeansLowRisk | Beats.py:3-75 | when no message is shown only age can score, so the score is at most 20 and the level is Low |
| Beats.HighRiskHasAdvice | Beats.py:3-75 | a High level always comes with at least two messages, since no two factors reach 60 together and age has no message |

## Left out

- Page rendering and event handling: `st.title`, `st.header`, `st.subheader`, `st.write`, `st.success`, `st.warning`, `st.error` and `st.button` (Beats.py:1, 39-75). The banner text with the embedded percentage is not modelled; `Level` and `Recommendations` model its decisions.
- The input widgets `st.number_input` and `st.selectbox` (Beats.py:42-46). Their ranges are recorded as `InFormRange` and are not preconditions, because the scoring properties hold for every integer.
- `st.progress(risk_score/100)` (Beats.py:56): floating-point division that feeds a UI widget.
- The `if __name__ == '__main__'` entry point (Beats.py:77-78).
- Idempotence (the same inputs give the same score) has no lemma. Dafny functions are deterministic by construction, and `CalculateHeartRisk` reads no state.
