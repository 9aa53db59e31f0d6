/**
 * The prediction request of app.py (predict): encode the categorical form
 * fields with the stored label encoders, count the selected issues, lay the
 * eight features out in the training order, run the two estimators, decode
 * the risk class, bucket the score, and attach the tips.
 *
 * The label encoders and the risk decoder are maps; the two estimators are
 * arbitrary functions passed in, since their internals are not modelled.
 */
module Inference {
  import opened Wrappers
  import opened Tips
  import Training

  /** The fields of the prediction form, sleep and water already parsed as numbers. */
  datatype Form = Form(
    stress: string,
    sleep: real,
    water: real,
    pollution: string,
    coloring: string,
    issues: seq<string>,
    budget: string,
    genetics: string)

  /** The loaded artifacts: per-column label encoders, the two estimators and the risk-label decoder. */
  datatype Models = Models(
    labelEncoders: map<string, map<string, int>>,
    scoreModel: seq<real> -> real,
    riskModel: seq<real> -> int,
    riskLabels: map<int, string>)

  datatype Prediction = Prediction(score: real, risk: string, resultClass: string, tips: seq<string>)

  /** Why a prediction fails: no encoder for a column, a category the encoder never saw, or an unknown risk class. */
  datatype PredictError =
    | MissingEncoder(column: string)
    | UnseenCategory(column: string, value: string)
    | UnknownRiskClass(id: int)

  /** The five categorical columns with the form field each one encodes, in the order they are encoded. */
  function Categoricals(form: Form): seq<(string, string)> {
    [("Stress Level", form.stress), ("Pollution Exposure", form.pollution),
     ("Hair Coloring Frequency", form.coloring), ("Hair Care Budget", form.budget),
     ("Genetic/Hormonal Wellness", form.genetics)]
  }

  /** LabelEncoder.transform of one value: its code, or the failure Python raises. */
  function Transform(encoders: map<string, map<string, int>>, column: string, value: string): Result<int, PredictError> {
    if column !in encoders then Failure(MissingEncoder(column))
    else if value !in encoders[column] then Failure(UnseenCategory(column, value))
    else Success(encoders[column][value])
  }

  /** The first `k` categorical fields all encode. */
  predicate EncodableBefore(encoders: map<string, map<string, int>>, form: Form, k: nat) {
    forall j :: 0 <= j < k && j < |Categoricals(form)| ==>
      Transform(encoders, Categoricals(form)[j].0, Categoricals(form)[j].1).Success?
  }

  /** Every categorical field has an encoder that knows its value. */
  predicate Encodable(encoders: map<string, map<string, int>>, form: Form) {
    EncodableBefore(encoders, form, |Categoricals(form)|)
  }

  /** The inference issue count: the number of selected issues, repeats included. */
  function SelectedIssueCount(issues: seq<string>): nat {
    |issues|
  }

  /** The feature vector in the order in which app.py lays it out. */
  function InferenceVector(stressCode: int, sleep: real, water: real, pollutionCode: int, coloringCode: int,
                           issueCount: nat, budgetCode: int, geneticsCode: int): seq<real>
  {
    [stressCode as real, sleep, water, pollutionCode as real, coloringCode as real,
     issueCount as real, budgetCode as real, geneticsCode as real]
  }

  /** The feature vector of an encodable form. */
  function FormVector(encoders: map<string, map<string, int>>, form: Form): (v: seq<real>)
    requires Encodable(encoders, form)
    ensures |v| == 8
  {
    var cats := Categoricals(form);
    assert cats[0] == ("Stress Level", form.stress) && cats[1] == ("Pollution Exposure", form.pollution);
    assert cats[2] == ("Hair Coloring Frequency", form.coloring) && cats[3] == ("Hair Care Budget", form.budget);
    assert cats[4] == ("Genetic/Hormonal Wellness", form.genetics);
    assert Transform(encoders, "Stress Level", form.stress).Success?;
    assert Transform(encoders, "Pollution Exposure", form.pollution).Success?;
    assert Transform(encoders, "Hair Coloring Frequency", form.coloring).Success?;
    assert Transform(encoders, "Hair Care Budget", form.budget).Success?;
    assert Transform(encoders, "Genetic/Hormonal Wellness", form.genetics).Success?;
    InferenceVector(
      encoders["Stress Level"][form.stress], form.sleep, form.water,
      encoders["Pollution Exposure"][form.pollution], encoders["Hair Coloring Frequency"][form.coloring],
      SelectedIssueCount(form.issues), encoders["Hair Care Budget"][form.budget],
      encoders["Genetic/Hormonal Wellness"][form.genetics])
  }

  /** The coarse bucket shown with the score. */
  function ResultClass(score: real): string {
    if score > 40.0 then "good" else "bad"
  }

  /** The bucket is "good" exactly above 40; 40 itself is "bad". */
  lemma ResultClassThreshold(score: real)
    ensures ResultClass(score) == "good" <==> score > 40.0
    ensures ResultClass(score) == "bad" <==> score <= 40.0
    ensures ResultClass(40.0) == "bad" && ResultClass(40.0001) == "good"
  {
  }

  /**
   * The inference vector puts every encoded value where the training matrix
   * has the column of that name: the two column orders agree.
   */
  lemma InferenceOrderMatchesTraining(row: Training.EncodedRow)
    ensures Training.SelectColumns(row, Training.FeatureColumns)
         == Success(InferenceVector(row.stressLevel, row.sleepHours, row.waterIntake, row.pollutionExposure,
                                    row.hairColoringFrequency, row.hairIssuesCount, row.hairCareBudget,
                                    row.geneticWellness))
  {
    var selected := Training.SelectColumns(row, Training.FeatureColumns);
    var expected := InferenceVector(row.stressLevel, row.sleepHours, row.waterIntake, row.pollutionExposure,
                                    row.hairColoringFrequency, row.hairIssuesCount, row.hairCareBudget,
                                    row.geneticWellness);
    forall i | 0 <= i < |Training.FeatureColumns|
      ensures Training.Cell(row, Training.FeatureColumns[i]) == Some(expected[i])
    {
    }
    assert selected.value == expected;
  }

  /** The columns that hold the form's raw numbers and its issue count rather than an encoded category. */
  const NumericColumns: seq<string> := ["Sleep Hours", "Water Intake (L)", "Hair Issues Count"]

  /**
   * The vector built from a form puts each value in the slot of the training
   * column it belongs to: a categorical slot holds the code its own encoder
   * gives the matching form field, and the other three slots hold sleep,
   * water and the number of selected issues.
   */
  lemma FormVectorFollowsTrainingColumns(encoders: map<string, map<string, int>>, form: Form)
    requires Encodable(encoders, form)
    ensures |FormVector(encoders, form)| == |Training.FeatureColumns|
    ensures forall i :: 0 <= i < |Training.FeatureColumns| ==>
      Training.FeatureColumns[i] in NumericColumns
      || exists k :: 0 <= k < |Categoricals(form)| && Categoricals(form)[k].0 == Training.FeatureColumns[i]
    ensures forall i, k ::
      (0 <= i < |Training.FeatureColumns| && 0 <= k < |Categoricals(form)|
       && Categoricals(form)[k].0 == Training.FeatureColumns[i]) ==>
        FormVector(encoders, form)[i] == encoders[Categoricals(form)[k].0][Categoricals(form)[k].1] as real
    ensures forall i :: 0 <= i < |Training.FeatureColumns| && Training.FeatureColumns[i] == "Sleep Hours" ==>
      FormVector(encoders, form)[i] == form.sleep
    ensures forall i :: 0 <= i < |Training.FeatureColumns| && Training.FeatureColumns[i] == "Water Intake (L)" ==>
      FormVector(encoders, form)[i] == form.water
    ensures forall i :: 0 <= i < |Training.FeatureColumns| && Training.FeatureColumns[i] == "Hair Issues Count" ==>
      FormVector(encoders, form)[i] == |form.issues| as real
  {
    var cats := Categoricals(form);
    assert cats[0] == ("Stress Level", form.stress) && cats[1] == ("Pollution Exposure", form.pollution);
    assert cats[2] == ("Hair Coloring Frequency", form.coloring) && cats[3] == ("Hair Care Budget", form.budget);
    assert cats[4] == ("Genetic/Hormonal Wellness", form.genetics);
    assert Transform(encoders, "Stress Level", form.stress).Success?;
    assert Transform(encoders, "Pollution Exposure", form.pollution).Success?;
    assert Transform(encoders, "Hair Coloring Frequency", form.coloring).Success?;
    assert Transform(encoders, "Hair Care Budget", form.budget).Success?;
    assert Transform(encoders, "Genetic/Hormonal Wellness", form.genetics).Success?;
  }

  /**
   * A multi-select list and its comma-joined text give the same count, as
   * long as no issue name holds a comma and the list is not one empty name.
   */
  lemma TrainingAndInferenceCountsAgree(issues: seq<string>)
    requires forall i :: 0 <= i < |issues| ==> ',' !in issues[i]
    requires issues != [""]
    ensures Training.IssueCount(Training.Join(issues, ',')) == SelectedIssueCount(issues)
  {
    if issues != [] {
      var text := Training.Join(issues, ',');
      if |issues| == 1 {
        assert text == issues[0];
      } else {
        assert text == issues[0] + [','] + Training.Join(issues[1..], ',');
      }
      assert text != "";
      Training.SplitJoin(issues, ',');
    }
  }

  /** A name holding a comma is one issue at inference time but two pieces at training time. */
  lemma CountsDisagreeOnCommaInName()
    ensures SelectedIssueCount(["Dry, frizzy"]) == 1
    ensures Training.IssueCount(Training.Join(["Dry, frizzy"], ',')) == 2
  {
    assert multiset("Dry, frizzy")[','] == 1;
  }

  /** The prediction request after form parsing, with the source's early exit on the first failure. */
  method Predict(models: Models, form: Form) returns (r: Result<Prediction, PredictError>)
    ensures r.Success? <==> Encodable(models.labelEncoders, form)
                            && models.riskModel(FormVector(models.labelEncoders, form)) in models.riskLabels
    ensures r.Success? ==>
      var v := FormVector(models.labelEncoders, form);
      r.value == Prediction(models.scoreModel(v), models.riskLabels[models.riskModel(v)],
                            ResultClass(models.scoreModel(v)), ExpectedTips(form.stress, form.sleep, form.water, form.issues))
    ensures r.Failure? ==> (r.error.UnknownRiskClass? <==> Encodable(models.labelEncoders, form))
    ensures r.Failure? && r.error.UnknownRiskClass? ==>
      r.error.id == models.riskModel(FormVector(models.labelEncoders, form))
    ensures r.Failure? && !r.error.UnknownRiskClass? ==>
      exists k :: 0 <= k < |Categoricals(form)| && EncodableBefore(models.labelEncoders, form, k)
        && Transform(models.labelEncoders, Categoricals(form)[k].0, Categoricals(form)[k].1) == Failure(r.error)
  {
    var encoders := models.labelEncoders;
    ghost var cats := Categoricals(form);
    assert cats[0] == ("Stress Level", form.stress) && cats[1] == ("Pollution Exposure", form.pollution);
    assert cats[2] == ("Hair Coloring Frequency", form.coloring) && cats[3] == ("Hair Care Budget", form.budget);
    assert cats[4] == ("Genetic/Hormonal Wellness", form.genetics);
    var stressCode := Transform(encoders, "Stress Level", form.stress);
    if stressCode.Failure? {
      return Failure(stressCode.error);
    }
    var pollutionCode := Transform(encoders, "Pollution Exposure", form.pollution);
    if pollutionCode.Failure? {
      return Failure(pollutionCode.error);
    }
    var coloringCode := Transform(encoders, "Hair Coloring Frequency", form.coloring);
    if coloringCode.Failure? {
      return Failure(coloringCode.error);
    }
    var budgetCode := Transform(encoders, "Hair Care Budget", form.budget);
    if budgetCode.Failure? {
      return Failure(budgetCode.error);
    }
    var geneticsCode := Transform(encoders, "Genetic/Hormonal Wellness", form.genetics);
    if geneticsCode.Failure? {
      return Failure(geneticsCode.error);
    }

    assert Encodable(encoders, form);
    var input := FormVector(encoders, form);

    var score := models.scoreModel(input);
    var risk := models.riskModel(input);
    if risk !in models.riskLabels {
      return Failure(UnknownRiskClass(risk));
    }
    var riskLabel := models.riskLabels[risk];

    var resultClass := ResultClass(score);
    var tips := GenerateTips(form.stress, form.sleep, form.water, form.issues);
    r := Success(Prediction(score, riskLabel, resultClass, tips));
  }
}
