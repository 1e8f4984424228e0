/**
 * The model factory: a model name, matched case-insensitively, selects one of
 * three text-classification pipelines.  Every pipeline has the same three
 * steps (clean the text, weigh word n-grams, classify) and differs only in
 * its classifier.  Pipelines are descriptors: the hyper-parameters of each
 * step, with the configured constants filled in.
 */
module Modeling {
  import opened Wrappers
  import opened Text
  import opened Preprocessing

  // ---------------------------------------------------------------------------
  // Configuration (config.py)

  /** The seed passed to every estimator that takes one. */
  const RandomState: int := 42

  datatype TfidfParams = TfidfParams(ngramMin: nat, ngramMax: nat, minDf: nat)

  /** Unigrams and bigrams, keeping every term that occurs at least once. */
  const DefaultTfidf: TfidfParams := TfidfParams(1, 2, 1)

  // ---------------------------------------------------------------------------
  // Pipelines

  datatype Classifier =
    | LinearSvc(c: real, randomState: int)
    | MultinomialNb(alpha: real)
    | LogisticRegression(c: real, maxIter: nat, solver: string, randomState: int)

  datatype Step =
    | Clean(cleaner: TextCleaner)
    | Tfidf(params: TfidfParams)
    | Clf(classifier: Classifier)

  /** A scikit-learn `Pipeline`: named steps applied in order. */
  datatype Pipeline = Pipeline(steps: seq<(string, Step)>)

  /** The names the factory accepts, in the order the comparison script trains them. */
  const AvailableModels: seq<string> := ["linear_svc", "multinomial_nb", "log_reg"]

  datatype ModelError = UnsupportedModel(requested: string)

  /** The three steps every builder produces around its classifier. */
  function TextPipeline(clf: Classifier): (p: Pipeline)
    ensures |p.steps| == 3
    ensures p.steps[0].0 == "clean" && p.steps[1].0 == "tfidf" && p.steps[2].0 == "clf"
    ensures p.steps[2].1 == Clf(clf)
  {
    Pipeline([("clean", Clean(DefaultTextCleaner())), ("tfidf", Tfidf(DefaultTfidf)), ("clf", Clf(clf))])
  }

  /** `_linear_svc_pipeline`: a linear SVM with `C=1.0` and `random_state=42`. */
  function LinearSvcPipeline(): (p: Pipeline)
    ensures IsTextPipeline(p) && FinalClassifier(p) == Some(LinearSvc(1.0, 42))
  {
    TextPipeline(LinearSvc(1.0, RandomState))
  }

  /** `_multinomial_nb_pipeline`: naive Bayes with `alpha=0.5`. */
  function MultinomialNbPipeline(): (p: Pipeline)
    ensures IsTextPipeline(p) && FinalClassifier(p) == Some(MultinomialNb(0.5))
  {
    TextPipeline(MultinomialNb(0.5))
  }

  /** `_log_reg_pipeline`: logistic regression with `C=1.0`, 200 iterations, liblinear, `random_state=42`. */
  function LogRegPipeline(): (p: Pipeline)
    ensures IsTextPipeline(p) && FinalClassifier(p) == Some(LogisticRegression(1.0, 200, "liblinear", 42))
  {
    TextPipeline(LogisticRegression(1.0, 200, "liblinear", RandomState))
  }

  /** The shape every factory pipeline has: clean with `clean_text`, default TF-IDF, then a classifier. */
  ghost predicate IsTextPipeline(p: Pipeline) {
    && |p.steps| == 3
    && p.steps[0] == ("clean", Clean(TextCleaner(CleanText)))
    && p.steps[1] == ("tfidf", Tfidf(TfidfParams(1, 2, 1)))
    && p.steps[2].0 == "clf" && p.steps[2].1.Clf?
  }

  /** `get_model_pipeline`: the name is lower-cased before it is looked up. */
  function GetModelPipeline(modelName: string): (r: Result<Pipeline, ModelError>)
    ensures r.Ok? <==> Lower(modelName) in AvailableModels
    ensures r.Err? ==> r.error == UnsupportedModel(modelName)
    ensures r.Ok? ==> IsTextPipeline(r.value)
  {
    var normalized := Lower(modelName);
    if normalized !in AvailableModels then Err(UnsupportedModel(modelName))
    else if normalized == "linear_svc" then Ok(LinearSvcPipeline())
    else if normalized == "multinomial_nb" then Ok(MultinomialNbPipeline())
    else Ok(LogRegPipeline())
  }

  /** The classifier of a pipeline's last step, when it is one. */
  function FinalClassifier(p: Pipeline): (r: Option<Classifier>)
    ensures r.Some? <==> p.steps != [] && p.steps[|p.steps| - 1].1.Clf?
  {
    if p.steps != [] && p.steps[|p.steps| - 1].1.Clf? then Some(p.steps[|p.steps| - 1].1.classifier)
    else None
  }

  /** The classifier each accepted name selects, with the configured hyper-parameters. */
  lemma ClassifierPerName(modelName: string)
    ensures Lower(modelName) == "linear_svc" ==>
      GetModelPipeline(modelName).Ok? && FinalClassifier(GetModelPipeline(modelName).value) == Some(LinearSvc(1.0, 42))
    ensures Lower(modelName) == "multinomial_nb" ==>
      GetModelPipeline(modelName).Ok? && FinalClassifier(GetModelPipeline(modelName).value) == Some(MultinomialNb(0.5))
    ensures Lower(modelName) == "log_reg" ==>
      GetModelPipeline(modelName).Ok? &&
      FinalClassifier(GetModelPipeline(modelName).value) == Some(LogisticRegression(1.0, 200, "liblinear", 42))
  {
  }

  /** Names that differ only in the case of ASCII letters select the same pipeline. */
  lemma CaseInsensitive(modelName: string)
    ensures GetModelPipeline(modelName).Ok? <==> GetModelPipeline(Lower(modelName)).Ok?
    ensures GetModelPipeline(modelName).Ok? ==>
      GetModelPipeline(modelName).value == GetModelPipeline(Lower(modelName)).value
  {
    LowerIdempotent(modelName);
  }

  /** Every listed name is already in lower case, so the factory accepts it as is. */
  lemma AvailableModelsAccepted(i: nat)
    requires i < |AvailableModels|
    ensures GetModelPipeline(AvailableModels[i]).Ok?
    ensures FinalClassifier(GetModelPipeline(AvailableModels[i]).value).Some?
  {
    var n := AvailableModels[i];
    assert forall k :: 0 <= k < |n| ==> !IsAsciiUpper(n[k]);
    LowerOfLower(n);
  }

  /** "LINEAR_SVC" selects the linear support-vector pipeline. */
  lemma UpperCaseNameAccepted()
    ensures GetModelPipeline("LINEAR_SVC") == Ok(LinearSvcPipeline())
  {
    assert Lower("LINEAR_SVC") == "linear_svc";
  }

  /** "svm" is not a listed name: the factory refuses it and names it in the error. */
  lemma UnknownNameRefused()
    ensures GetModelPipeline("svm") == Err(UnsupportedModel("svm"))
  {
    assert Lower("svm") == "svm";
  }

  // ---------------------------------------------------------------------------
  // Which scoring methods a fitted pipeline exposes

  /**
   * A pipeline exposes `decision_function` or `predict_proba` exactly when its
   * final estimator does: the margin classifiers have a decision function,
   * the probabilistic ones class probabilities.
   */
  function HasDecisionFunction(p: Pipeline): (b: bool)
    ensures b <==> FinalClassifier(p).Some? && !FinalClassifier(p).value.MultinomialNb?
  {
    match FinalClassifier(p)
    case Some(LinearSvc(_, _)) => true
    case Some(LogisticRegression(_, _, _, _)) => true
    case _ => false
  }

  function HasPredictProba(p: Pipeline): (b: bool)
    ensures b <==> FinalClassifier(p).Some? && !FinalClassifier(p).value.LinearSvc?
  {
    match FinalClassifier(p)
    case Some(MultinomialNb(_)) => true
    case Some(LogisticRegression(_, _, _, _)) => true
    case _ => false
  }
}
