/**
 * Evaluating a classifier on a held-out split: fit it if it has not been
 * fitted, predict the test messages, and gather the metrics record.
 *
 * Fitting, prediction and the ROC AUC computation of the library are
 * opaque: fitting is a `Learner` from a pipeline and training data to the
 * functions the fitted pipeline offers, and the AUC is a `RocAuc` function of
 * labels and scores.  The counting metrics are defined here exactly, on
 * whole counts, with the library's `zero_division=0` convention.
 */
module Evaluation {
  import opened Wrappers
  import opened Json
  import opened Dataset
  import opened Text
  import opened Modeling

  // ---------------------------------------------------------------------------
  // Fitted models

  /** What fitting learned: labels, decision values and positive-class probabilities per message. */
  datatype Learned = Learned(
    labels: seq<string> -> seq<Bit>,
    decisionScores: seq<string> -> seq<real>,
    positiveProba: seq<string> -> seq<real>)

  /** Every fitted function returns one output per input message. */
  ghost predicate OnePerInput(l: Learned) {
    && (forall X :: |l.labels(X)| == |X|)
    && (forall X :: |l.decisionScores(X)| == |X|)
    && (forall X :: |l.positiveProba(X)| == |X|)
  }

  type LearnedModel = l: Learned | OnePerInput(l)
    witness Learned(X => seq(|X|, i => 0), X => seq(|X|, i => 0.0), X => seq(|X|, i => 0.0))

  /** The library's `fit`: a pipeline trained on messages and labels. */
  type Learner = (Pipeline, seq<string>, seq<Bit>) -> LearnedModel

  /** The library's `roc_auc_score` on true labels and scores. */
  type RocAuc = (seq<Bit>, seq<real>) -> real

  /** A fitted pipeline: which scoring methods it exposes is decided by its pipeline. */
  datatype FittedModel = FittedModel(pipeline: Pipeline, learned: LearnedModel)

  // ---------------------------------------------------------------------------
  // ROC AUC

  datatype ScoreSource = FromDecisionFunction | FromPositiveProba | NoScores

  /** `_compute_auc`'s order of preference: decision values, then class-1 probabilities, then nothing. */
  function ScoreSourceOf(p: Pipeline): (s: ScoreSource)
    ensures s == FromDecisionFunction <==> HasDecisionFunction(p)
    ensures s == FromPositiveProba <==> !HasDecisionFunction(p) && HasPredictProba(p)
    ensures s == NoScores <==> !HasDecisionFunction(p) && !HasPredictProba(p)
  {
    if HasDecisionFunction(p) then FromDecisionFunction
    else if HasPredictProba(p) then FromPositiveProba
    else NoScores
  }

  /** The `ValueError` `roc_auc_score` raises when the true labels hold a single class. */
  const OneClassMessage := "Only one class present in y_true. ROC AUC score is not defined in that case."

  /** Both classes occur among the labels. */
  predicate BothClasses(y: seq<Bit>) {
    0 in y && 1 in y
  }

  /** `roc_auc_score`: defined only when both classes occur in the true labels. */
  function RocAucScore(rocAuc: RocAuc, yTrue: seq<Bit>, scores: seq<real>): (r: Result<real, string>)
    ensures r.Ok? <==> BothClasses(yTrue)
    ensures r.Ok? ==> r.value == rocAuc(yTrue, scores)
    ensures r.Err? ==> r.error == OneClassMessage
  {
    if BothClasses(yTrue) then Ok(rocAuc(yTrue, scores)) else Err(OneClassMessage)
  }

  /**
   * `_compute_auc`: the AUC from the preferred score source, `None` without
   * one, and the library's error when it is computed on a single class.
   */
  function ComputeAuc(m: FittedModel, XTest: seq<string>, yTest: seq<Bit>, rocAuc: RocAuc): (r: Result<Option<real>, string>)
    ensures r == Ok(None) <==> !HasDecisionFunction(m.pipeline) && !HasPredictProba(m.pipeline)
    ensures r.Err? <==> (HasDecisionFunction(m.pipeline) || HasPredictProba(m.pipeline)) && !BothClasses(yTest)
    ensures r.Err? ==> r.error == OneClassMessage
    ensures HasDecisionFunction(m.pipeline) && BothClasses(yTest) ==>
      r == Ok(Some(rocAuc(yTest, m.learned.decisionScores(XTest))))
    ensures !HasDecisionFunction(m.pipeline) && HasPredictProba(m.pipeline) && BothClasses(yTest) ==>
      r == Ok(Some(rocAuc(yTest, m.learned.positiveProba(XTest))))
  {
    match ScoreSourceOf(m.pipeline)
    case FromDecisionFunction =>
      var auc :- RocAucScore(rocAuc, yTest, m.learned.decisionScores(XTest));
      Ok(Some(auc))
    case FromPositiveProba =>
      var auc :- RocAucScore(rocAuc, yTest, m.learned.positiveProba(XTest));
      Ok(Some(auc))
    case NoScores => Ok(None)
  }

  /**
   * For the three factory models the AUC is always computed: the
   * support-vector and logistic models score by decision values, naive Bayes
   * by probabilities.  So it fails exactly when the test labels hold one class.
   */
  lemma FactoryModelsHaveAuc(modelName: string, learned: LearnedModel, XTest: seq<string>, yTest: seq<Bit>, rocAuc: RocAuc)
    requires GetModelPipeline(modelName).Ok?
    ensures var m := FittedModel(GetModelPipeline(modelName).value, learned);
      && (ComputeAuc(m, XTest, yTest, rocAuc).Ok? <==> BothClasses(yTest))
      && (BothClasses(yTest) ==> ComputeAuc(m, XTest, yTest, rocAuc).value.Some?)
      && (Lower(modelName) == "multinomial_nb" <==> ScoreSourceOf(m.pipeline) == FromPositiveProba)
      && (Lower(modelName) != "multinomial_nb" <==> ScoreSourceOf(m.pipeline) == FromDecisionFunction)
  {
    ClassifierPerName(modelName);
  }

  // ---------------------------------------------------------------------------
  // Counting metrics

  /** The number of positions `k` where the true label is `a` and the predicted label is `b`. */
  function CountPairs(yTrue: seq<Bit>, yPred: seq<Bit>, a: Bit, b: Bit): (n: nat)
    requires |yTrue| == |yPred|
    ensures n <= |yTrue|
  {
    if yTrue == [] then 0
    else (if yTrue[0] == a && yPred[0] == b then 1 else 0) + CountPairs(yTrue[1..], yPred[1..], a, b)
  }

  /** The number of positions where prediction and truth agree. */
  function CountCorrect(yTrue: seq<Bit>, yPred: seq<Bit>): (n: nat)
    requires |yTrue| == |yPred|
    ensures n <= |yTrue|
  {
    if yTrue == [] then 0
    else (if yTrue[0] == yPred[0] then 1 else 0) + CountCorrect(yTrue[1..], yPred[1..])
  }

  /** The number of positions holding label `a`. */
  function CountLabel(y: seq<Bit>, a: Bit): (n: nat)
    ensures n <= |y|
  {
    if y == [] then 0 else (if y[0] == a then 1 else 0) + CountLabel(y[1..], a)
  }

  /** True negatives, false positives, false negatives and true positives, with 1 the positive class. */
  datatype Outcomes = Outcomes(tn: nat, fp: nat, fn: nat, tp: nat)

  function Tally(yTrue: seq<Bit>, yPred: seq<Bit>): Outcomes
    requires |yTrue| == |yPred|
  {
    Outcomes(CountPairs(yTrue, yPred, 0, 0), CountPairs(yTrue, yPred, 0, 1),
             CountPairs(yTrue, yPred, 1, 0), CountPairs(yTrue, yPred, 1, 1))
  }

  /** Every example falls in exactly one cell; the diagonal is the correct predictions. */
  lemma {:induction false} TallyPartitions(yTrue: seq<Bit>, yPred: seq<Bit>)
    requires |yTrue| == |yPred|
    ensures var t := Tally(yTrue, yPred);
      && t.tn + t.fp + t.fn + t.tp == |yTrue|
      && t.tn + t.tp == CountCorrect(yTrue, yPred)
      && t.fn + t.tp == CountLabel(yTrue, 1)
      && t.fp + t.tp == CountLabel(yPred, 1)
  {
    if yTrue != [] {
      TallyPartitions(yTrue[1..], yPred[1..]);
    }
  }

  /** A ratio with the `zero_division=0` convention. */
  function Ratio(num: nat, den: nat): (r: real)
    ensures den == 0 ==> r == 0.0
    ensures den > 0 ==> r * den as real == num as real
    ensures num <= den ==> 0.0 <= r <= 1.0
  {
    if den == 0 then 0.0 else num as real / den as real
  }

  function Precision(t: Outcomes): real {
    Ratio(t.tp, t.tp + t.fp)
  }

  function Recall(t: Outcomes): real {
    Ratio(t.tp, t.tp + t.fn)
  }

  /** The F1 score from counts; it is 0 when precision and recall are both undefined. */
  function F1(t: Outcomes): real {
    Ratio(2 * t.tp, 2 * t.tp + t.fp + t.fn)
  }

  /** Cancelling a non-zero factor on both sides of an equation. */
  lemma CancelFactor(x: real, y: real, k: real)
    requires k != 0.0 && x * k == y * k
    ensures x == y
  {
  }

  lemma ExpandLeft(f: real, p: real, r: real, a: real, b: real)
    ensures f * (p + r) * (a * b * (a + b)) == (f * (a + b)) * ((p * a) * b + (r * b) * a)
  {
  }

  lemma ExpandRight(p: real, r: real, a: real, b: real)
    ensures 2.0 * p * r * (a * b * (a + b)) == 2.0 * (p * a) * (r * b) * (a + b)
  {
  }

  lemma Regroup(tp: real, a: real, b: real)
    ensures 2.0 * tp * (tp * b + tp * a) == 2.0 * tp * tp * (a + b)
  {
  }

  lemma PositiveProduct(a: real, b: real)
    requires a > 0.0 && b > 0.0
    ensures a * b * (a + b) > 0.0
  {
  }

  lemma PositiveFactor(x: real, a: real, y: real)
    requires a > 0.0 && y > 0.0 && x * a == y
    ensures x > 0.0
  {
  }

  lemma DivideOut(x: real, y: real, z: real)
    requires y != 0.0 && x * y == z
    ensures x == z / y
  {
  }

  /** The harmonic-mean identity on the reals, given how p, r and f relate to the counts. */
  lemma HarmonicMean(tp: real, a: real, b: real, p: real, r: real, f: real)
    requires tp > 0.0 && a > 0.0 && b > 0.0
    requires p * a == tp && r * b == tp && f * (a + b) == 2.0 * tp
    ensures p + r > 0.0
    ensures f == 2.0 * p * r / (p + r)
  {
    PositiveFactor(p, a, tp);
    PositiveFactor(r, b, tp);
    PositiveProduct(a, b);
    var k := a * b * (a + b);
    ExpandLeft(f, p, r, a, b);
    ExpandRight(p, r, a, b);
    Regroup(tp, a, b);
    CancelFactor(f * (p + r), 2.0 * p * r, k);
    DivideOut(f, p + r, 2.0 * p * r);
  }

  /** With at least one true positive, F1 is the harmonic mean of precision and recall. */
  lemma F1IsHarmonicMean(t: Outcomes)
    requires t.tp > 0
    ensures Precision(t) + Recall(t) > 0.0
    ensures F1(t) == 2.0 * Precision(t) * Recall(t) / (Precision(t) + Recall(t))
  {
    HarmonicMean(t.tp as real, (t.tp + t.fp) as real, (t.tp + t.fn) as real, Precision(t), Recall(t), F1(t));
  }

  /** F1 is zero exactly when nothing positive was predicted correctly. */
  lemma F1ZeroIffNoTruePositive(t: Outcomes)
    ensures F1(t) == 0.0 <==> t.tp == 0
  {
  }

  // ---------------------------------------------------------------------------
  // Confusion matrix

  /** The labels that occur in truth or prediction, in increasing order. */
  function PresentLabels(yTrue: seq<Bit>, yPred: seq<Bit>): (labels: seq<Bit>)
    ensures forall a: Bit :: a in labels <==> a in yTrue || a in yPred
    ensures forall i, j :: 0 <= i < j < |labels| ==> labels[i] < labels[j]
  {
    var has0 := 0 in yTrue || 0 in yPred;
    var has1 := 1 in yTrue || 1 in yPred;
    (if has0 then [0] else []) + (if has1 then [1] else [])
  }

  /**
   * `confusion_matrix`: rows are true labels and columns predicted labels,
   * both over the labels present, in increasing order.
   */
  function ConfusionMatrix(yTrue: seq<Bit>, yPred: seq<Bit>): (m: seq<seq<nat>>)
    requires |yTrue| == |yPred|
    ensures var labels := PresentLabels(yTrue, yPred);
      && |m| == |labels|
      && (forall i :: 0 <= i < |m| ==> |m[i]| == |labels|)
      && (forall i, j :: 0 <= i < |m| && 0 <= j < |labels| ==> m[i][j] == CountPairs(yTrue, yPred, labels[i], labels[j]))
  {
    var labels := PresentLabels(yTrue, yPred);
    seq(|labels|, i requires 0 <= i < |labels| =>
      seq(|labels|, j requires 0 <= j < |labels| => CountPairs(yTrue, yPred, labels[i], labels[j])))
  }

  /** Label `a` never occurs in truth or prediction: no position pairs it with anything. */
  lemma {:induction false} AbsentLabelCountsZero(yTrue: seq<Bit>, yPred: seq<Bit>, a: Bit, b: Bit)
    requires |yTrue| == |yPred|
    requires (a !in yTrue && a !in yPred) || (b !in yTrue && b !in yPred)
    ensures CountPairs(yTrue, yPred, a, b) == 0
    ensures CountPairs(yTrue, yPred, b, a) == 0
  {
    if yTrue != [] {
      assert yTrue[0] == yTrue[0 + 0] && yTrue[1..] == yTrue[1..];
      assert forall x :: x in yTrue[1..] ==> x in yTrue;
      assert forall x :: x in yPred[1..] ==> x in yPred;
      AbsentLabelCountsZero(yTrue[1..], yPred[1..], a, b);
    }
  }

  /**
   * The matrix is 2x2, read as [[TN, FP], [FN, TP]], exactly when both labels
   * occur; otherwise it is the single count of the one label present.
   */
  lemma ConfusionMatrixShape(yTrue: seq<Bit>, yPred: seq<Bit>)
    requires |yTrue| == |yPred| && |yTrue| >= 1
    ensures var m := ConfusionMatrix(yTrue, yPred);
      var t := Tally(yTrue, yPred);
      && (|m| == 2 <==> (0 in yTrue || 0 in yPred) && (1 in yTrue || 1 in yPred))
      && (|m| == 2 ==> m == [[t.tn, t.fp], [t.fn, t.tp]])
      && (|m| == 1 ==> m == [[|yTrue|]])
  {
    var m := ConfusionMatrix(yTrue, yPred);
    var t := Tally(yTrue, yPred);
    var labels := PresentLabels(yTrue, yPred);
    TallyPartitions(yTrue, yPred);
    assert yTrue[0] in yTrue;
    if |labels| == 1 {
      var a := labels[0];
      var b: Bit := 1 - a;
      assert b !in labels;
      AbsentLabelCountsZero(yTrue, yPred, b, a);
      AbsentLabelCountsZero(yTrue, yPred, b, b);
      assert CountPairs(yTrue, yPred, a, a) == |yTrue| by {
        if a == 0 { assert b == 1; } else { assert b == 0; }
      }
      assert |m| == 1 && |m[0]| == 1 && m[0][0] == |yTrue|;
      assert m[0] == [|yTrue|];
      assert m == [[|yTrue|]];
    } else {
      assert labels == [0, 1];
      assert |m[0]| == 2 && m[0][0] == t.tn && m[0][1] == t.fp;
      assert |m[1]| == 2 && m[1][0] == t.fn && m[1][1] == t.tp;
      assert m[0] == [t.tn, t.fp] && m[1] == [t.fn, t.tp];
    }
  }

  // ---------------------------------------------------------------------------
  // The metrics record

  datatype EvaluationRecord = EvaluationRecord(
    model: string, accuracy: real, precision: real, recall: real, f1: real,
    rocAuc: Option<real>, confusionMatrix: seq<seq<nat>>)

  /**
   * The record `evaluate_model` returns for a fitted model on a test split,
   * or the error of the AUC computation, which comes before the other metrics.
   */
  function MakeRecord(modelName: string, m: FittedModel, XTest: seq<string>, yTest: seq<Bit>, rocAuc: RocAuc)
    : (r: Result<EvaluationRecord, string>)
    requires |XTest| == |yTest| >= 1
    ensures r.Err? <==> ComputeAuc(m, XTest, yTest, rocAuc).Err?
    ensures r.Err? ==> r.error == OneClassMessage
    ensures r.Ok? ==> var preds := m.learned.labels(XTest);
      var t := Tally(yTest, preds);
      && r.value.model == modelName
      && r.value.accuracy == Ratio(CountCorrect(yTest, preds), |yTest|)
      && r.value.precision == Ratio(t.tp, CountLabel(preds, 1))
      && r.value.recall == Ratio(t.tp, CountLabel(yTest, 1))
      && r.value.f1 == F1(t)
      && r.value.rocAuc == ComputeAuc(m, XTest, yTest, rocAuc).value
      && r.value.confusionMatrix == ConfusionMatrix(yTest, preds)
    ensures r.Ok? ==> 0.0 <= r.value.accuracy <= 1.0 && 0.0 <= r.value.precision <= 1.0
    ensures r.Ok? ==> 0.0 <= r.value.recall <= 1.0 && 0.0 <= r.value.f1 <= 1.0
  {
    var preds := m.learned.labels(XTest);
    var auc :- ComputeAuc(m, XTest, yTest, rocAuc);
    var t := Tally(yTest, preds);
    TallyPartitions(yTest, preds);
    var accuracy := Ratio(CountCorrect(yTest, preds), |yTest|);
    Ok(EvaluationRecord(modelName, accuracy, Precision(t), Recall(t), F1(t), auc, ConfusionMatrix(yTest, preds)))
  }

  function OptionalNumber(o: Option<real>): Json {
    match o
    case None => JNull
    case Some(x) => JNumber(x)
  }

  function MatrixJson(m: seq<seq<nat>>): Json {
    JArray(seq(|m|, i requires 0 <= i < |m| =>
      JArray(seq(|m[i]|, j requires 0 <= j < |m[i]| => JNumber(m[i][j] as real)))))
  }

  /** The record as the JSON object written to a metrics file. */
  function EncodeRecord(r: EvaluationRecord): (o: JsonObject)
    ensures o.Keys == {"model", "accuracy", "precision", "recall", "f1", "roc_auc", "confusion_matrix"}
  {
    map["model" := JString(r.model), "accuracy" := JNumber(r.accuracy), "precision" := JNumber(r.precision),
        "recall" := JNumber(r.recall), "f1" := JNumber(r.f1), "roc_auc" := OptionalNumber(r.rocAuc),
        "confusion_matrix" := MatrixJson(r.confusionMatrix)]
  }

  /** Reading a number field back; `null` is an absent value. */
  function DecodeNumber(o: JsonObject, key: string): (r: Option<real>)
    ensures r.Some? <==> key in o && o[key].JNumber?
  {
    if key in o && o[key].JNumber? then Some(o[key].n) else None
  }

  function DecodeCount(j: Json): (r: Option<nat>)
    ensures r.Some? ==> j == JNumber(r.value as real)
  {
    if j.JNumber? && j.n >= 0.0 && j.n.Floor as real == j.n then Some(j.n.Floor) else None
  }

  function DecodeRow(items: seq<Json>): (r: Option<seq<nat>>)
    ensures r.Some? ==> |r.value| == |items| && forall j :: 0 <= j < |items| ==> items[j] == JNumber(r.value[j] as real)
  {
    if items == [] then Some([])
    else match (DecodeCount(items[0]), DecodeRow(items[1..]))
      case (Some(x), Some(rest)) => Some([x] + rest)
      case _ => None
  }

  function DecodeMatrix(rows: seq<Json>): (r: Option<seq<seq<nat>>>)
    ensures r.Some? ==> |r.value| == |rows|
    ensures r.Some? ==> forall i :: 0 <= i < |rows| ==> rows[i].JArray? && DecodeRow(rows[i].items) == Some(r.value[i])
  {
    if rows == [] then Some([])
    else if !rows[0].JArray? then None
    else match (DecodeRow(rows[0].items), DecodeMatrix(rows[1..]))
      case (Some(x), Some(rest)) => Some([x] + rest)
      case _ => None
  }

  /** Reading a metrics record back from its JSON object. */
  function DecodeRecord(o: JsonObject): (r: Option<EvaluationRecord>)
    ensures r.Some? ==> "model" in o && o["model"] == JString(r.value.model)
    ensures r.Some? ==> "f1" in o && o["f1"] == JNumber(r.value.f1)
  {
    if "model" !in o || !o["model"].JString? || "roc_auc" !in o || "confusion_matrix" !in o
       || !o["confusion_matrix"].JArray? then None
    else
      var accuracy := DecodeNumber(o, "accuracy");
      var precision := DecodeNumber(o, "precision");
      var recall := DecodeNumber(o, "recall");
      var f1 := DecodeNumber(o, "f1");
      var auc := if o["roc_auc"].JNull? then Some(None)
                 else if o["roc_auc"].JNumber? then Some(Some(o["roc_auc"].n)) else None;
      var matrix := DecodeMatrix(o["confusion_matrix"].items);
      if accuracy.None? || precision.None? || recall.None? || f1.None? || auc.None? || matrix.None? then None
      else Some(EvaluationRecord(o["model"].s, accuracy.value, precision.value, recall.value, f1.value,
                                 auc.value, matrix.value))
  }

  lemma {:induction false} RowRoundTrip(row: seq<nat>)
    ensures DecodeRow(seq(|row|, j requires 0 <= j < |row| => JNumber(row[j] as real))) == Some(row)
  {
    var items := seq(|row|, j requires 0 <= j < |row| => JNumber(row[j] as real));
    if row != [] {
      assert items[1..] == seq(|row[1..]|, j requires 0 <= j < |row[1..]| => JNumber(row[1..][j] as real));
      RowRoundTrip(row[1..]);
      assert DecodeCount(items[0]) == Some(row[0]);
      assert [row[0]] + row[1..] == row;
    }
  }

  lemma {:induction false} MatrixRoundTrip(m: seq<seq<nat>>)
    ensures DecodeMatrix(MatrixJson(m).items) == Some(m)
  {
    var rows := MatrixJson(m).items;
    if m != [] {
      assert rows[1..] == MatrixJson(m[1..]).items;
      MatrixRoundTrip(m[1..]);
      RowRoundTrip(m[0]);
      assert [m[0]] + m[1..] == m;
    }
  }

  /** A metrics file read back gives the record that was written. */
  lemma RecordRoundTrip(r: EvaluationRecord)
    ensures DecodeRecord(EncodeRecord(r)) == Some(r)
  {
    MatrixRoundTrip(r.confusionMatrix);
  }

  // ---------------------------------------------------------------------------
  // evaluate_model

  /** An estimator object: its pipeline and, once fitted, what it learned (`classes_` is set). */
  class Estimator {
    const pipeline: Pipeline
    var fitted: Option<FittedModel>
    ghost var fits: nat

    constructor (p: Pipeline)
      ensures pipeline == p && fitted == None && fits == 0
    {
      pipeline := p;
      fitted := None;
      fits := 0;
    }

    /** `hasattr(model, "classes_")`. */
    predicate IsFitted()
      reads this
    {
      fitted.Some?
    }

    /** `fit`: trains the pipeline, replacing whatever was learned before. */
    method Fit(XTrain: seq<string>, yTrain: seq<Bit>, learn: Learner)
      modifies this`fitted, this`fits
      ensures fitted == Some(FittedModel(pipeline, learn(pipeline, XTrain, yTrain)))
      ensures fits == old(fits) + 1
    {
      fitted := Some(FittedModel(pipeline, learn(pipeline, XTrain, yTrain)));
      fits := fits + 1;
    }

    /** `evaluate_model`: fits only an unfitted estimator, then scores it on the test split. */
    method EvaluateModel(XTrain: seq<string>, yTrain: seq<Bit>, XTest: seq<string>, yTest: seq<Bit>,
                         modelName: string, learn: Learner, rocAuc: RocAuc) returns (record: Result<EvaluationRecord, string>)
      requires |XTest| == |yTest| >= 1
      modifies this`fitted, this`fits
      ensures old(fitted).Some? ==> fitted == old(fitted) && fits == old(fits)
      ensures old(fitted).None? ==>
        fitted == Some(FittedModel(pipeline, learn(pipeline, XTrain, yTrain))) && fits == old(fits) + 1
      ensures fitted.Some? && record == MakeRecord(modelName, fitted.value, XTest, yTest, rocAuc)
      ensures record.Err? <==> ComputeAuc(fitted.value, XTest, yTest, rocAuc).Err?
    {
      if !IsFitted() {
        Fit(XTrain, yTrain, learn);
      }
      record := MakeRecord(modelName, fitted.value, XTest, yTest, rocAuc);
    }
  }
}
