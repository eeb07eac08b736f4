/**
 * The decision logic of the diabetes risk prediction system: weighted and
 * voting fusion of the base models' probabilities, the 0.5 decision
 * threshold, the three risk buckets, the rule-based advice and the derived
 * interaction features. The base models themselves (training, predict_proba,
 * f1_score, the StandardScaler) are foreign library calls; their outputs
 * enter this model as parameters.
 */
module DiabetesRisk {
  import opened Wrappers
  import opened Table

  // ==================== Risk levels ====================

  /** The three risk buckets, with the label and colour the system reports. */
  datatype RiskLevel = Low | Medium | High {
    function Label(): string
    {
      match this
      case Low => "低风险"
      case Medium => "中等风险"
      case High => "高风险"
    }

    function Colour(): string
    {
      match this
      case Low => "green"
      case Medium => "orange"
      case High => "red"
    }

    /** The order of severity of the buckets. */
    function Rank(): nat
    {
      match this
      case Low => 0
      case Medium => 1
      case High => 2
    }
  }

  /** Maps a fused risk score to its bucket: [.., 0.3) low, [0.3, 0.6) medium, [0.6, ..) high. */
  function AssessRiskLevel(riskScore: real): (level: RiskLevel)
    ensures level == Low <==> riskScore < 0.3
    ensures level == Medium <==> 0.3 <= riskScore < 0.6
    ensures level == High <==> 0.6 <= riskScore
  {
    if riskScore < 0.3 then Low
    else if riskScore < 0.6 then Medium
    else High
  }

  /** A higher score never lands in a less severe bucket. */
  lemma AssessRiskLevelMonotone(a: real, b: real)
    requires a <= b
    ensures AssessRiskLevel(a).Rank() <= AssessRiskLevel(b).Rank()
  {
  }

  // ==================== Interaction features ====================

  /** The constant added to Glucose before dividing by it. */
  const Epsilon: real := 0.000001

  /** The exception pandas raises when a column or key is absent. */
  datatype Error = KeyError(key: string)

  /** Elementwise Insulin / (Glucose + 1e-6). */
  function InsulinGlucoseRatio(insulin: Column, glucose: Column): (r: Column)
    requires |insulin| == |glucose|
    requires forall i :: 0 <= i < |glucose| ==> glucose[i] + Epsilon != 0.0
    ensures |r| == |insulin|
    ensures forall i :: 0 <= i < |r| ==> r[i] == insulin[i] / (glucose[i] + Epsilon)
  {
    seq(|insulin|, i requires 0 <= i < |insulin| => insulin[i] / (glucose[i] + Epsilon))
  }

  /** The column names `feature_engineering` adds, and `predict_single_patient` computes. */
  const DerivedColumns: set<string> := {"BMI_Age", "Glucose_BMI", "Insulin_Glucose_Ratio"}

  /**
   * feature_engineering: a copy of the frame with BMI_Age and Glucose_BMI added,
   * and Insulin_Glucose_Ratio added when the frame has an Insulin column.
   * A missing BMI, Age or Glucose column raises KeyError, in the order the
   * source reads them.
   */
  function FeatureEngineering(df: Frame, n: nat): (r: Result<Frame, Error>)
    requires Rectangular(df, n)
    requires "Glucose" in df && "Insulin" in df ==> forall i :: 0 <= i < n ==> df["Glucose"][i] + Epsilon != 0.0
    ensures r == Failure(KeyError("BMI")) <==> "BMI" !in df
    ensures r == Failure(KeyError("Age")) <==> "BMI" in df && "Age" !in df
    ensures r == Failure(KeyError("Glucose")) <==> "BMI" in df && "Age" in df && "Glucose" !in df
    ensures r.Success? <==> "BMI" in df && "Age" in df && "Glucose" in df
    ensures r.Success? ==> Rectangular(r.value, n)
    ensures r.Success? ==> r.value.Keys == df.Keys + {"BMI_Age", "Glucose_BMI"}
                                            + (if "Insulin" in df then {"Insulin_Glucose_Ratio"} else {})
    ensures r.Success? ==> forall i :: 0 <= i < n ==>
              r.value["BMI_Age"][i] == df["BMI"][i] * df["Age"][i]
              && r.value["Glucose_BMI"][i] == df["Glucose"][i] * df["BMI"][i]
    ensures r.Success? && "Insulin" in df ==> forall i :: 0 <= i < n ==>
              r.value["Insulin_Glucose_Ratio"][i] == df["Insulin"][i] / (df["Glucose"][i] + Epsilon)
    ensures r.Success? ==> forall c :: c in df && c !in DerivedColumns ==> r.value[c] == df[c]
  {
    if "BMI" !in df then Failure(KeyError("BMI"))
    else if "Age" !in df then Failure(KeyError("Age"))
    else if "Glucose" !in df then Failure(KeyError("Glucose"))
    else
      var products := df["BMI_Age" := Times(df["BMI"], df["Age"])]
                        ["Glucose_BMI" := Times(df["Glucose"], df["BMI"])];
      if "Insulin" in products && "Glucose" in products then
        Success(products["Insulin_Glucose_Ratio" := InsulinGlucoseRatio(df["Insulin"], df["Glucose"])])
      else
        Success(products)
  }

  /**
   * The feature derivation of predict_single_patient on one patient record:
   * all three features are computed unconditionally, so a missing BMI, Age,
   * Glucose or Insulin raises KeyError.
   */
  function DeriveFeatures(patient: Record): (r: Result<Record, Error>)
    requires "Glucose" in patient && "Insulin" in patient ==> patient["Glucose"] + Epsilon != 0.0
    ensures r == Failure(KeyError("BMI")) <==> "BMI" !in patient
    ensures r == Failure(KeyError("Age")) <==> "BMI" in patient && "Age" !in patient
    ensures r == Failure(KeyError("Glucose")) <==> "BMI" in patient && "Age" in patient && "Glucose" !in patient
    ensures (r == Failure(KeyError("Insulin")))
              <==> ("BMI" in patient && "Age" in patient && "Glucose" in patient && "Insulin" !in patient)
    ensures r.Success? <==> "BMI" in patient && "Age" in patient && "Glucose" in patient && "Insulin" in patient
    ensures r.Success? ==> r.value.Keys == patient.Keys + DerivedColumns
    ensures r.Success? ==>
              && r.value["BMI_Age"] == patient["BMI"] * patient["Age"]
              && r.value["Glucose_BMI"] == patient["Glucose"] * patient["BMI"]
              && r.value["Insulin_Glucose_Ratio"] == patient["Insulin"] / (patient["Glucose"] + Epsilon)
    ensures r.Success? ==> forall c :: c in patient && c !in DerivedColumns ==> r.value[c] == patient[c]
  {
    if "BMI" !in patient then Failure(KeyError("BMI"))
    else if "Age" !in patient then Failure(KeyError("Age"))
    else if "Glucose" !in patient then Failure(KeyError("Glucose"))
    else if "Insulin" !in patient then Failure(KeyError("Insulin"))
    else
      Success(patient["BMI_Age" := patient["BMI"] * patient["Age"]]
                     ["Glucose_BMI" := patient["Glucose"] * patient["BMI"]]
                     ["Insulin_Glucose_Ratio" := patient["Insulin"] / (patient["Glucose"] + Epsilon)])
  }

  /**
   * The frame path and the single-record path agree: deriving the features of
   * row r gives row r of the engineered frame when the frame has Insulin, and
   * raises KeyError('Insulin') when it has not (the frame path then skips the ratio).
   */
  lemma FeaturesAgreeRowwise(df: Frame, n: nat, r: nat)
    requires Rectangular(df, n) && r < n
    requires "Glucose" in df && "Insulin" in df ==> forall i :: 0 <= i < n ==> df["Glucose"][i] + Epsilon != 0.0
    requires FeatureEngineering(df, n).Success?
    ensures "Insulin" in df ==> DeriveFeatures(Row(df, r)) == Success(Row(FeatureEngineering(df, n).value, r))
    ensures "Insulin" !in df ==> DeriveFeatures(Row(df, r)) == Failure(KeyError("Insulin"))
  {
    var rec := Row(df, r);
    var fe := FeatureEngineering(df, n).value;
    var d := DeriveFeatures(rec);
    if "Insulin" in df {
      assert d.Success?;
      var expected := Row(fe, r);
      assert d.value.Keys == expected.Keys;
      forall c | c in expected
        ensures d.value[c] == expected[c]
      {
        if c !in DerivedColumns {
          assert d.value[c] == rec[c] == df[c][r] == fe[c][r];
        }
      }
      assert d.value == expected;
    }
  }

  // ==================== Fusion ====================

  datatype FusionMethod = Weighted | Voting

  /** The base models, in the order build_base_models inserts them into the model dictionary. */
  const BaseModels: seq<string> := ["RandomForest", "GradientBoosting", "LogisticRegression"]

  /**
   * The key order of a Python dict after d[k] = v: a new key goes last, a key
   * already present keeps its place.
   */
  function KeyInserted(keys: seq<string>, k: string): (r: seq<string>)
    ensures k in r && |keys| <= |r| <= |keys| + 1 && r[..|keys|] == keys
    ensures forall m :: m in r ==> m in keys || m == k
    ensures Distinct(keys) ==> Distinct(r)
  {
    if k in keys then keys else keys + [k]
  }

  /** Into an empty dictionary, the three assignments of build_base_models leave the keys in BaseModels order. */
  lemma BaseModelsInsertedIntoEmpty()
    ensures KeyInserted(KeyInserted(KeyInserted([], BaseModels[0]), BaseModels[1]), BaseModels[2]) == BaseModels
  {
    var one := KeyInserted([], BaseModels[0]);
    assert one == [BaseModels[0]];
    var two := KeyInserted(one, BaseModels[1]);
    assert BaseModels[1] !in one;
    assert two == [BaseModels[0], BaseModels[1]];
    assert BaseModels[2] !in two;
  }

  /** The weight of each model, in model order. */
  function WeightsOf(models: seq<string>, weights: map<string, real>): (w: seq<real>)
    requires forall i :: 0 <= i < |models| ==> models[i] in weights
    ensures |w| == |models|
    ensures forall i :: 0 <= i < |w| ==> w[i] == weights[models[i]]
  {
    seq(|models|, i requires 0 <= i < |models| => weights[models[i]])
  }

  /** The sum of the first k weights. */
  function WeightTotal(w: seq<real>, k: nat): real
    requires k <= |w|
  {
    if k == 0 then 0.0 else WeightTotal(w, k - 1) + w[k - 1]
  }

  /** Every model has a probability for row r. */
  predicate HasRow(probs: seq<seq<real>>, r: nat)
  {
    forall i :: 0 <= i < |probs| ==> r < |probs[i]|
  }

  /** The accumulator of weighted fusion for row r after the first k models: Σ_{i<k} w[i]·probs[i][r]. */
  function WeightedSum(probs: seq<seq<real>>, w: seq<real>, k: nat, r: nat): real
    requires k <= |probs| && |probs| == |w| && HasRow(probs, r)
  {
    if k == 0 then 0.0 else WeightedSum(probs, w, k - 1, r) + w[k - 1] * probs[k - 1][r]
  }

  /** The number of the first k models whose probability for row r is at least 0.5. */
  function Votes(probs: seq<seq<real>>, k: nat, r: nat): (v: nat)
    requires k <= |probs| && HasRow(probs, r)
  {
    if k == 0 then 0 else Votes(probs, k - 1, r) + (if probs[k - 1][r] >= 0.5 then 1 else 0)
  }

  /** The weighted sum lies between 0 and the total weight when weights are non-negative and probabilities in [0, 1]. */
  lemma {:induction false} WeightedSumBounds(probs: seq<seq<real>>, w: seq<real>, k: nat, r: nat)
    requires k <= |probs| && |probs| == |w| && HasRow(probs, r)
    requires forall i :: 0 <= i < |w| ==> 0.0 <= w[i]
    requires forall i :: 0 <= i < |probs| ==> 0.0 <= probs[i][r] <= 1.0
    ensures 0.0 <= WeightedSum(probs, w, k, r) <= WeightTotal(w, k)
  {
    if k > 0 {
      WeightedSumBounds(probs, w, k - 1, r);
      assert 0.0 <= w[k - 1] * probs[k - 1][r] <= w[k - 1];
    }
  }

  /** The fused probability of weighted fusion is a probability. */
  lemma FusedProbabilityInUnitInterval(probs: seq<seq<real>>, w: seq<real>, r: nat)
    requires |probs| == |w| && HasRow(probs, r)
    requires forall i :: 0 <= i < |w| ==> 0.0 <= w[i]
    requires WeightTotal(w, |w|) > 0.0
    requires forall i :: 0 <= i < |probs| ==> 0.0 <= probs[i][r] <= 1.0
    ensures 0.0 <= WeightedSum(probs, w, |probs|, r) / WeightTotal(w, |w|) <= 1.0
  {
    WeightedSumBounds(probs, w, |probs|, r);
    Ratio(WeightedSum(probs, w, |probs|, r), WeightTotal(w, |w|));
  }

  /** When every model gives row r the same probability p, weighted fusion returns p. */
  lemma {:induction false} UnanimousFusion(probs: seq<seq<real>>, w: seq<real>, k: nat, r: nat, p: real)
    requires k <= |probs| && |probs| == |w| && HasRow(probs, r)
    requires forall i :: 0 <= i < |probs| ==> probs[i][r] == p
    ensures WeightedSum(probs, w, k, r) == p * WeightTotal(w, k)
  {
    if k > 0 {
      UnanimousFusion(probs, w, k - 1, r, p);
    }
  }

  /** With the three base models, the voting label is 1 exactly when at least two models vote for it. */
  lemma MajorityOfThree(probs: seq<seq<real>>, r: nat)
    requires |probs| == |BaseModels| && HasRow(probs, r)
    ensures 2 * Votes(probs, |probs|, r) >= |BaseModels| <==> Votes(probs, |probs|, r) >= 2
  {
  }

  /**
   * The weighted branch of fusion_predict: accumulates w[i]·probs[i] over the
   * models row by row, divides by the total weight, and thresholds at 0.5.
   */
  method WeightedFusion(probs: seq<seq<real>>, w: seq<real>, n: nat) returns (pred: seq<int>, prob: seq<real>)
    requires |probs| == |w| && forall i :: 0 <= i < |probs| ==> |probs[i]| == n
    requires WeightTotal(w, |w|) != 0.0
    ensures |pred| == n && |prob| == n
    ensures forall r :: 0 <= r < n ==> prob[r] == WeightedSum(probs, w, |probs|, r) / WeightTotal(w, |w|)
    ensures forall r :: 0 <= r < n ==> (pred[r] == 1 <==> prob[r] >= 0.5) && (pred[r] == 0 <==> prob[r] < 0.5)
  {
    var total := WeightTotal(w, |w|);
    var acc := new real[n](_ => 0.0);
    var i := 0;
    while i < |probs|
      invariant 0 <= i <= |probs|
      invariant forall r :: 0 <= r < n ==> acc[r] == WeightedSum(probs, w, i, r)
    {
      var r := 0;
      while r < n
        invariant 0 <= r <= n
        invariant forall s :: 0 <= s < r ==> acc[s] == WeightedSum(probs, w, i + 1, s)
        invariant forall s :: r <= s < n ==> acc[s] == WeightedSum(probs, w, i, s)
      {
        acc[r] := acc[r] + w[i] * probs[i][r];
        r := r + 1;
      }
      i := i + 1;
    }
    var r := 0;
    while r < n
      invariant 0 <= r <= n
      invariant forall s :: 0 <= s < r ==> acc[s] == WeightedSum(probs, w, |probs|, s) / total
      invariant forall s :: r <= s < n ==> acc[s] == WeightedSum(probs, w, |probs|, s)
    {
      acc[r] := acc[r] / total;
      r := r + 1;
    }
    prob := acc[..];
    pred := seq(n, s requires 0 <= s < n => if prob[s] >= 0.5 then 1 else 0);
  }

  /**
   * The voting branch of fusion_predict: counts, per row, the models whose
   * probability is at least 0.5; the label is 1 when the count reaches half
   * the number of models, and the probability returned is the label itself.
   */
  method VotingFusion(probs: seq<seq<real>>, n: nat) returns (pred: seq<int>, prob: seq<real>)
    requires forall i :: 0 <= i < |probs| ==> |probs[i]| == n
    ensures |pred| == n && |prob| == n
    ensures forall r :: 0 <= r < n ==>
              (pred[r] == 1 <==> 2 * Votes(probs, |probs|, r) >= |probs|)
              && (pred[r] == 0 <==> 2 * Votes(probs, |probs|, r) < |probs|)
              && prob[r] == pred[r] as real
  {
    var votes := new nat[n](_ => 0);
    var i := 0;
    while i < |probs|
      invariant 0 <= i <= |probs|
      invariant forall r :: 0 <= r < n ==> votes[r] == Votes(probs, i, r)
    {
      var r := 0;
      while r < n
        invariant 0 <= r <= n
        invariant forall s :: 0 <= s < r ==> votes[s] == Votes(probs, i + 1, s)
        invariant forall s :: r <= s < n ==> votes[s] == Votes(probs, i, s)
      {
        votes[r] := votes[r] + (if probs[i][r] >= 0.5 then 1 else 0);
        r := r + 1;
      }
      i := i + 1;
    }
    var counted := votes[..];
    var half := |probs| as real / 2.0;
    pred := seq(n, s requires 0 <= s < n => if counted[s] as real >= half then 1 else 0);
    prob := seq(n, s requires 0 <= s < n => pred[s] as real);
  }

  // ==================== Medical advice ====================

  const FurtherExamination := "建议进一步检查，可能存在糖尿病风险"
  const HealthyLifestyle := "目前指标正常，建议保持健康生活方式"

  /** One rule of generate_medical_advice: advise `text` when the indicator `key` exceeds `limit`. */
  datatype AdviceRule = AdviceRule(key: string, limit: real, text: string)

  /** The rules in the order the source checks them. */
  const AdviceRules: seq<AdviceRule> := [
    AdviceRule("Glucose", 140.0, "血糖偏高，建议控制碳水化合物摄入"),
    AdviceRule("BMI", 30.0, "BMI偏高，建议增加运动、控制体重"),
    AdviceRule("BloodPressure", 85.0, "血压偏高，建议低盐饮食、规律作息"),
    AdviceRule("Age", 45.0, "年龄较大，建议定期体检、监测血糖")
  ]

  /** The two recommendations given when no rule fires. */
  const DefaultAdvice: seq<string> := ["保持健康饮食和适量运动", "定期进行健康检查"]

  /** patient_data.get(key, 0): the recorded value, or 0 for an indicator the record lacks. */
  function Lookup(patient: Record, key: string): (v: real)
    ensures key in patient ==> v == patient[key]
    ensures key !in patient ==> v == 0.0
    ensures v != 0.0 ==> key in patient
  {
    if key in patient then patient[key] else 0.0
  }

  /**
   * A rule fires when the indicator exceeds its limit strictly; an absent
   * indicator reads as 0, so it fires only under a negative limit, which no
   * rule of AdviceRules has.
   */
  function Fires(patient: Record, rule: AdviceRule): (b: bool)
    ensures rule.key in patient ==> (b <==> patient[rule.key] > rule.limit)
    ensures rule.key !in patient ==> (b <==> rule.limit < 0.0)
  {
    Lookup(patient, rule.key) > rule.limit
  }

  /** The texts of the rules that fire, in rule order. */
  function FiredAdvice(patient: Record, rules: seq<AdviceRule>): seq<string>
  {
    if rules == [] then []
    else
      var last := rules[|rules| - 1];
      FiredAdvice(patient, rules[..|rules| - 1]) + (if Fires(patient, last) then [last.text] else [])
  }

  /** The recommendation list of a patient: the fired rules, or the defaults when none fires. */
  function Recommendations(patient: Record): seq<string>
  {
    var fired := FiredAdvice(patient, AdviceRules);
    if fired == [] then DefaultAdvice else fired
  }

  /** The result of generate_medical_advice. */
  datatype Advice = Advice(riskLevel: string, riskScore: real, diagnosis: string, recommendations: seq<string>)

  /** The four threshold checks of generate_medical_advice, appending in order. */
  method RuleRecommendations(patient: Record) returns (recommendations: seq<string>)
    ensures recommendations == FiredAdvice(patient, AdviceRules)
  {
    recommendations := [];
    assert AdviceRules[..0] == [];
    if Lookup(patient, "Glucose") > 140.0 {
      recommendations := recommendations + ["血糖偏高，建议控制碳水化合物摄入"];
    }
    FiredAdviceStep(patient, AdviceRules, 0);
    assert recommendations == FiredAdvice(patient, AdviceRules[..1]);
    if Lookup(patient, "BMI") > 30.0 {
      recommendations := recommendations + ["BMI偏高，建议增加运动、控制体重"];
    }
    FiredAdviceStep(patient, AdviceRules, 1);
    assert recommendations == FiredAdvice(patient, AdviceRules[..2]);
    if Lookup(patient, "BloodPressure") > 85.0 {
      recommendations := recommendations + ["血压偏高，建议低盐饮食、规律作息"];
    }
    FiredAdviceStep(patient, AdviceRules, 2);
    assert recommendations == FiredAdvice(patient, AdviceRules[..3]);
    if Lookup(patient, "Age") > 45.0 {
      recommendations := recommendations + ["年龄较大，建议定期体检、监测血糖"];
    }
    FiredAdviceStep(patient, AdviceRules, 3);
    assert AdviceRules[..4] == AdviceRules;
  }

  /** generate_medical_advice, appending to the recommendation list as the source does. */
  method GenerateMedicalAdvice(riskScore: real, patient: Record) returns (advice: Advice)
    ensures advice.riskLevel == AssessRiskLevel(riskScore).Label()
    ensures advice.riskScore == riskScore
    ensures advice.diagnosis == (if riskScore >= 0.5 then FurtherExamination else HealthyLifestyle)
    ensures advice.recommendations == Recommendations(patient)
  {
    var level := AssessRiskLevel(riskScore);
    var diagnosis := if riskScore >= 0.5 then FurtherExamination else HealthyLifestyle;
    var recommendations := RuleRecommendations(patient);
    if recommendations == [] {
      recommendations := recommendations + [DefaultAdvice[0]];
      recommendations := recommendations + [DefaultAdvice[1]];
    }
    advice := Advice(level.Label(), riskScore, diagnosis, recommendations);
  }

  /** At most one recommendation per rule. */
  lemma {:induction false} FiredAdviceLength(patient: Record, rules: seq<AdviceRule>)
    ensures |FiredAdvice(patient, rules)| <= |rules|
  {
    if rules != [] {
      FiredAdviceLength(patient, rules[..|rules| - 1]);
    }
  }

  /** The list holds between one and four recommendations. */
  lemma RecommendationsNeverEmpty(patient: Record)
    ensures 1 <= |Recommendations(patient)| <= |AdviceRules|
  {
    FiredAdviceLength(patient, AdviceRules);
  }

  /** Checking one more rule appends its text, if it fires, to what the earlier rules advised. */
  lemma FiredAdviceStep(patient: Record, rules: seq<AdviceRule>, k: nat)
    requires k < |rules|
    ensures FiredAdvice(patient, rules[..k + 1])
              == FiredAdvice(patient, rules[..k]) + (if Fires(patient, rules[k]) then [rules[k].text] else [])
  {
    assert rules[..k + 1][..k] == rules[..k];
  }

  /** Every advised text is the text of a rule that fires. */
  lemma {:induction false} FiredAdviceSound(patient: Record, rules: seq<AdviceRule>, t: string)
    requires t in FiredAdvice(patient, rules)
    ensures exists i :: 0 <= i < |rules| && rules[i].text == t && Fires(patient, rules[i])
  {
    var front := rules[..|rules| - 1];
    if t in FiredAdvice(patient, front) {
      FiredAdviceSound(patient, front, t);
      var i :| 0 <= i < |front| && front[i].text == t && Fires(patient, front[i]);
      assert rules[i] == front[i];
    } else {
      assert rules[|rules| - 1].text == t && Fires(patient, rules[|rules| - 1]);
    }
  }

  /** The text of every rule that fires is advised. */
  lemma {:induction false} FiredAdviceComplete(patient: Record, rules: seq<AdviceRule>, k: nat)
    requires k < |rules| && Fires(patient, rules[k])
    ensures rules[k].text in FiredAdvice(patient, rules)
  {
    if k < |rules| - 1 {
      var front := rules[..|rules| - 1];
      assert front[k] == rules[k];
      FiredAdviceComplete(patient, front, k);
    }
  }

  /**
   * Each of the four recommendations appears exactly when its indicator
   * exceeds its limit, and the two defaults appear exactly when none does.
   */
  lemma RecommendationsFollowRules(patient: Record, k: nat)
    requires k < |AdviceRules|
    ensures AdviceRules[k].text in Recommendations(patient) <==> Fires(patient, AdviceRules[k])
    ensures (Recommendations(patient) == DefaultAdvice)
              <==> (forall i :: 0 <= i < |AdviceRules| ==> !Fires(patient, AdviceRules[i]))
  {
    var fired := FiredAdvice(patient, AdviceRules);
    if Fires(patient, AdviceRules[k]) {
      FiredAdviceComplete(patient, AdviceRules, k);
    } else if AdviceRules[k].text in fired {
      FiredAdviceSound(patient, AdviceRules, AdviceRules[k].text);
    }
    if fired != [] {
      assert fired[0] in fired;
      FiredAdviceSound(patient, AdviceRules, fired[0]);
      assert fired[0] != DefaultAdvice[0];
    } else {
      forall i | 0 <= i < |AdviceRules|
        ensures !Fires(patient, AdviceRules[i])
      {
        if Fires(patient, AdviceRules[i]) {
          FiredAdviceComplete(patient, AdviceRules, i);
        }
      }
    }
  }

  // ==================== The system object ====================

  /** The model-holding object: its model names and the fusion weight dictionary. */
  class RiskPredictionSystem {
    var models: seq<string>
    var fusionWeights: map<string, real>

    ghost predicate Valid()
      reads this
    {
      Distinct(models)
    }

    /** __init__: no models and no weights yet. */
    constructor ()
      ensures Valid() && models == [] && fusionWeights == map[]
    {
      models := [];
      fusionWeights := map[];
    }

    /**
     * build_base_models: assigns the three models, in order, to their keys of
     * the model dictionary.
     */
    method BuildBaseModels()
      requires Valid()
      modifies this`models
      ensures Valid()
      ensures models == KeyInserted(KeyInserted(KeyInserted(old(models), BaseModels[0]), BaseModels[1]), BaseModels[2])
      ensures forall m :: m in BaseModels ==> m in models
      ensures old(models) == [] ==> models == BaseModels
    {
      BaseModelsInsertedIntoEmpty();
      models := KeyInserted(models, "RandomForest");
      models := KeyInserted(models, "GradientBoosting");
      models := KeyInserted(models, "LogisticRegression");
    }

    /**
     * calculate_fusion_weights: stores each model's training F1 score (f1[i],
     * computed by the foreign f1_score) as its weight.
     */
    method CalculateFusionWeights(f1: seq<real>)
      requires Valid() && |f1| == |models|
      modifies this`fusionWeights
      ensures Valid()
      ensures fusionWeights.Keys == old(fusionWeights).Keys + (set m | m in models)
      ensures forall i :: 0 <= i < |models| ==> fusionWeights[models[i]] == f1[i]
      ensures forall m :: m in old(fusionWeights) && m !in models ==> fusionWeights[m] == old(fusionWeights)[m]
    {
      var i := 0;
      while i < |models|
        invariant 0 <= i <= |models|
        invariant fusionWeights.Keys == old(fusionWeights).Keys + (set j | 0 <= j < i :: models[j])
        invariant forall j :: 0 <= j < i ==> fusionWeights[models[j]] == f1[j]
        invariant forall m :: m in old(fusionWeights) && m !in models[..i] ==> fusionWeights[m] == old(fusionWeights)[m]
      {
        fusionWeights := fusionWeights[models[i] := f1[i]];
        i := i + 1;
      }
      assert models[..i] == models;
    }

    /** The precondition of weighted fusion: weights keyed by exactly the models, with a non-zero total. */
    ghost predicate WeightsReady()
      reads this
    {
      fusionWeights.Keys == (set m | m in models)
      && WeightTotal(WeightsOf(models, fusionWeights), |models|) != 0.0
    }

    /**
     * fusion_predict on n rows, given probs[i][r], the probability model i
     * assigns row r. Weighted: the weighted average of the probabilities,
     * label 1 exactly when it is at least 0.5. Voting: label 1 exactly when at
     * least half the models give 0.5 or more; the probability is the label.
     */
    method FusionPredict(probs: seq<seq<real>>, n: nat, mode: FusionMethod) returns (pred: seq<int>, prob: seq<real>)
      requires Valid()
      requires |probs| == |models| && forall i :: 0 <= i < |probs| ==> |probs[i]| == n
      requires mode == Weighted ==> WeightsReady()
      ensures |pred| == n && |prob| == n
      ensures mode == Weighted ==>
                var w := WeightsOf(models, fusionWeights);
                forall r :: 0 <= r < n ==>
                  prob[r] == WeightedSum(probs, w, |probs|, r) / WeightTotal(w, |w|)
                  && (pred[r] == 1 <==> prob[r] >= 0.5) && (pred[r] == 0 <==> prob[r] < 0.5)
      ensures mode == Voting ==>
                forall r :: 0 <= r < n ==>
                  (pred[r] == 1 <==> 2 * Votes(probs, |probs|, r) >= |models|)
                  && (pred[r] == 0 <==> 2 * Votes(probs, |probs|, r) < |models|)
                  && prob[r] == pred[r] as real
    {
      if mode == Weighted {
        pred, prob := WeightedFusion(probs, WeightsOf(models, fusionWeights), n);
      } else {
        pred, prob := VotingFusion(probs, n);
      }
    }

    /**
     * predict_single_patient: derives the three features (raising KeyError
     * when an indicator is missing), then fuses, with weights, the
     * probabilities that the base models assign the scaled record (probs[i]
     * for model i, from the foreign scaler and predict_proba).
     */
    method PredictSinglePatient(patient: Record, probs: seq<real>) returns (res: Result<(int, real), Error>)
      requires Valid() && WeightsReady() && |probs| == |models|
      requires "Glucose" in patient && "Insulin" in patient ==> patient["Glucose"] + Epsilon != 0.0
      ensures DeriveFeatures(patient).Failure? ==> res == Failure(DeriveFeatures(patient).error)
      ensures DeriveFeatures(patient).Success? ==>
                var w := WeightsOf(models, fusionWeights);
                var rows := seq(|probs|, i requires 0 <= i < |probs| => [probs[i]]);
                res.Success?
                && res.value.1 == WeightedSum(rows, w, |rows|, 0) / WeightTotal(w, |w|)
                && (res.value.0 == 1 <==> res.value.1 >= 0.5)
                && (res.value.0 == 0 <==> res.value.1 < 0.5)
    {
      var features := DeriveFeatures(patient);
      if features.Failure? {
        return Failure(features.error);
      }
      var rows := seq(|probs|, i requires 0 <= i < |probs| => [probs[i]]);
      var pred, prob := FusionPredict(rows, 1, Weighted);
      res := Success((pred[0], prob[0]));
    }
  }
}
