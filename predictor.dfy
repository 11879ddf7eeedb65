/**
 * The prediction endpoint of the server (app.py): the request guards, the
 * one-hot encoding of the submitted symptom names against the persisted
 * vocabulary, the response fields and the health message.
 * The fitted classifier is opaque: it enters as two function values.
 */
module Predictor {
  import opened Prelude
  import Training

  /** The loaded model: the forest's `predict` and `predict_proba` on one input vector. */
  datatype Classifier = Classifier(
    predict: seq<int> -> int,
    probabilities: seq<int> -> (real, real))   // (not diabetes, diabetes)

  /** Process-wide state after start-up: both artifacts loaded, or neither. */
  datatype Server = NotLoaded | Loaded(model: Classifier, vocabulary: seq<string>)

  datatype Response =
    | Failed(status: int, error: string)
    | Succeeded(
        prediction: string,
        confidence: real,
        diabetesProbability: real,
        notDiabetesProbability: real,
        symptomsCount: nat,
        message: string)

  const ModelNotLoaded := "Model not loaded. Please run train_model.py first."
  const NoSymptoms := "Please select at least one symptom"

  const HighRisk := "⚠️ High risk of Diabetes detected. Please consult a doctor immediately."
  const ModerateRisk := "⚠️ Moderate risk of Diabetes. Consult a healthcare professional."
  const LowRiskMonitor := "✓ Low risk of Diabetes, but monitoring is recommended."
  const HealthyLifestyle := "✓ Low risk of Diabetes. Maintain a healthy lifestyle!"
  const ConsultAdvised := "✓ Symptoms suggest low diabetes risk, but medical consultation is advised."

  /**
   * The feature vector of a request: slot `i` is 1 exactly when `vocabulary[i]`
   * was submitted and `i` is the first position that name occupies.
   */
  function OneHot(vocabulary: seq<string>, symptoms: seq<string>): (v: seq<int>)
    ensures |v| == |vocabulary|
    ensures forall i :: 0 <= i < |v| ==> v[i] == 0 || v[i] == 1
  {
    seq(|vocabulary|, i requires 0 <= i < |vocabulary| =>
      if vocabulary[i] in symptoms && IndexOf(vocabulary, vocabulary[i]) == i then 1 else 0)
  }

  /**
   * `np.zeros(len(feature_columns))`, then for each submitted name found in
   * the vocabulary, a 1 at that name's first index.
   */
  method Encode(vocabulary: seq<string>, symptoms: seq<string>) returns (a: array<int>)
    ensures fresh(a)
    ensures a.Length == |vocabulary|
    ensures a[..] == OneHot(vocabulary, symptoms)
  {
    a := new int[|vocabulary|](_ => 0);
    for k := 0 to |symptoms|
      invariant a.Length == |vocabulary|
      invariant a[..] == OneHot(vocabulary, symptoms[..k])
    {
      var symptom := symptoms[k];
      OneHotStep(vocabulary, symptoms[..k], symptom);
      if symptom in vocabulary {
        var idx := IndexOf(vocabulary, symptom);
        a[idx] := 1;
      }
      assert symptoms[..k + 1] == symptoms[..k] + [symptom];
    }
    assert symptoms[..|symptoms|] == symptoms;
  }

  /** Appending one name sets at most the slot of its first occurrence. */
  lemma OneHotStep(vocabulary: seq<string>, done: seq<string>, symptom: string)
    ensures symptom in vocabulary ==>
      OneHot(vocabulary, done + [symptom]) == OneHot(vocabulary, done)[IndexOf(vocabulary, symptom) := 1]
    ensures symptom !in vocabulary ==>
      OneHot(vocabulary, done + [symptom]) == OneHot(vocabulary, done)
  {
  }

  /** `max(probability) * 100`. */
  function Confidence(notDiabetes: real, diabetes: real): (c: real)
    ensures c == 100.0 * notDiabetes || c == 100.0 * diabetes
    ensures c >= 100.0 * notDiabetes && c >= 100.0 * diabetes
  {
    (if notDiabetes >= diabetes then notDiabetes else diabetes) * 100.0
  }

  /** The `prediction` field of the response. */
  function PredictionLabel(prediction: int): (text: string)
    ensures text == "Diabetes" || text == "Not Diabetes"
    ensures text == "Diabetes" <==> prediction == 1
  {
    if prediction == 1 then "Diabetes" else "Not Diabetes"
  }

  /** `get_health_message`: one of five fixed messages chosen by class and confidence. */
  function HealthMessage(prediction: int, confidence: real): (m: string)
    ensures m in {HighRisk, ModerateRisk, LowRiskMonitor, HealthyLifestyle, ConsultAdvised}
    ensures (m == HighRisk || m == ModerateRisk) <==> prediction == 1 && confidence > 60.0
  {
    if prediction == 1 then
      if confidence > 80.0 then HighRisk
      else if confidence > 60.0 then ModerateRisk
      else LowRiskMonitor
    else
      if confidence > 80.0 then HealthyLifestyle
      else ConsultAdvised
  }

  /**
   * The `/api/predict` handler. `symptoms` is the request's `symptoms` field
   * (`None` when absent); `round2` stands for Python's `round(x, 2)`.
   */
  method Predict(server: Server, symptoms: Option<seq<string>>, round2: real -> real)
    returns (r: Response)
    ensures server.NotLoaded? ==> r == Failed(500, ModelNotLoaded)
    ensures server.Loaded? && symptoms.GetOr([]) == [] ==> r == Failed(400, NoSymptoms)
    ensures server.Loaded? && symptoms.GetOr([]) != [] ==>
      var submitted := symptoms.GetOr([]);
      var v := OneHot(server.vocabulary, submitted);
      var prediction := server.model.predict(v);
      var (pNot, pYes) := server.model.probabilities(v);
      var confidence := Confidence(pNot, pYes);
      && r.Succeeded?
      && r.prediction == PredictionLabel(prediction)
      && r.confidence == round2(confidence)
      && r.diabetesProbability == round2(pYes * 100.0)
      && r.notDiabetesProbability == round2(pNot * 100.0)
      && r.symptomsCount == |submitted|
      && r.message == HealthMessage(prediction, confidence)
  {
    if server.NotLoaded? {
      return Failed(500, ModelNotLoaded);
    }
    var selected := symptoms.GetOr([]);
    if selected == [] {
      return Failed(400, NoSymptoms);
    }
    var input := Encode(server.vocabulary, selected);
    var prediction := server.model.predict(input[..]);
    var probability := server.model.probabilities(input[..]);
    var confidence := Confidence(probability.0, probability.1);
    r := Succeeded(
      PredictionLabel(prediction),
      round2(confidence),
      round2(probability.1 * 100.0),
      round2(probability.0 * 100.0),
      |selected|,
      HealthMessage(prediction, confidence));
  }

  /** Slot `i` is 1 exactly when some submitted, known name has its first occurrence at `i`. */
  lemma OneHotSlot(vocabulary: seq<string>, symptoms: seq<string>, i: nat)
    requires i < |vocabulary|
    ensures OneHot(vocabulary, symptoms)[i] == 1 <==>
      exists s :: s in symptoms && s in vocabulary && IndexOf(vocabulary, s) == i
  {
    if OneHot(vocabulary, symptoms)[i] == 1 {
      assert vocabulary[i] in symptoms && vocabulary[i] in vocabulary;
    }
  }

  /** With a duplicate-free vocabulary, slot `i` is 1 exactly when `vocabulary[i]` was submitted. */
  lemma OneHotMembership(vocabulary: seq<string>, symptoms: seq<string>, i: nat)
    requires Distinct(vocabulary) && i < |vocabulary|
    ensures OneHot(vocabulary, symptoms)[i] == 1 <==> vocabulary[i] in symptoms
  {
    DistinctIndexOf(vocabulary, i);
  }

  /** Names outside the vocabulary change nothing; only-unknown names give the zero vector. */
  lemma OneHotIgnoresUnknown(vocabulary: seq<string>, symptoms: seq<string>, unknown: seq<string>)
    requires forall s :: s in unknown ==> s !in vocabulary
    ensures OneHot(vocabulary, symptoms + unknown) == OneHot(vocabulary, symptoms)
    ensures OneHot(vocabulary, unknown) == seq(|vocabulary|, _ => 0)
  {
  }

  /** Reordering or repeating the submitted names gives the same vector. */
  lemma OneHotOrderInsensitive(vocabulary: seq<string>, a: seq<string>, b: seq<string>)
    requires forall s :: s in a <==> s in b
    ensures OneHot(vocabulary, a) == OneHot(vocabulary, b)
  {
  }

  /** The five tiers of the health message, with 80 and 60 falling to the lower tier. */
  lemma HealthMessageTiers(prediction: int, confidence: real)
    ensures HealthMessage(prediction, confidence) == HighRisk <==> prediction == 1 && confidence > 80.0
    ensures HealthMessage(prediction, confidence) == ModerateRisk <==>
      prediction == 1 && 60.0 < confidence <= 80.0
    ensures HealthMessage(prediction, confidence) == LowRiskMonitor <==> prediction == 1 && confidence <= 60.0
    ensures HealthMessage(prediction, confidence) == HealthyLifestyle <==> prediction != 1 && confidence > 80.0
    ensures HealthMessage(prediction, confidence) == ConsultAdvised <==> prediction != 1 && confidence <= 80.0
  {
  }

  /** The message alone tells whether the class was 1: no text is shared by the two branches. */
  lemma HealthMessageRevealsClass(p1: int, c1: real, p2: int, c2: real)
    requires HealthMessage(p1, c1) == HealthMessage(p2, c2)
    ensures p1 == 1 <==> p2 == 1
  {
    HealthMessageTiers(p1, c1);
    HealthMessageTiers(p2, c2);
  }

  /** For class 1, higher confidence never yields a milder message. */
  lemma HealthMessageMonotone(c1: real, c2: real)
    requires c1 <= c2
    ensures Severity(HealthMessage(1, c1)) <= Severity(HealthMessage(1, c2))
  {
  }

  /** The rank of the class-1 messages, mildest first. */
  function Severity(m: string): nat {
    if m == HighRisk then 2 else if m == ModerateRisk then 1 else 0
  }

  /** The vocabulary the trainer persists has no repeated name, so its encoding is exact membership. */
  lemma TrainedVocabularyEncoding(t: Training.Table, symptoms: seq<string>, i: nat)
    requires Training.WellFormed(t) && Training.Prepare(t).Success?
    requires i < |Training.Prepare(t).value.features|
    ensures var vocabulary := Training.Prepare(t).value.features;
      OneHot(vocabulary, symptoms)[i] == 1 <==> vocabulary[i] in symptoms
  {
    var vocabulary := Training.Prepare(t).value.features;
    Training.FeatureColumnsInOrder(t);
    var p := IndexOf(t.columns, Training.LabelColumn);
    assert Distinct(vocabulary) by {
      forall a, b | 0 <= a < b < |vocabulary| ensures vocabulary[a] != vocabulary[b] {
        var a' := if a < p then a else a + 1;
        var b' := if b < p then b else b + 1;
        assert vocabulary[a] == t.columns[a'] && vocabulary[b] == t.columns[b'];
      }
    }
    OneHotMembership(vocabulary, symptoms, i);
  }
}
