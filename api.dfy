/**
 * The request handlers of the serving API and the usage counters they keep.
 *
 * Each handler is a method on `SpamService`, which holds the counter record
 * `_api_metrics` and a reference to the artifact cache.  Beside each handler
 * a pure function gives the new counters and the answer it must produce; the
 * properties the service promises are stated on those functions.
 */
module Api {
  import opened Wrappers
  import opened Json
  import opened Schemas
  import opened ModelLoader

  const ApiVersion: string := "1.0.0"
  const ModelNotLoadedDetail: string := "Model not loaded. Please check server logs."
  /** The first line of the message Pydantic gives when `model_name` is not a string. */
  const InvalidModelNameDetail: string := "1 validation error for HealthResponse"
  /** What `str(IndexError)` says when `confidences[i]` is out of range. */
  const IndexErrorMessage: string := "list index out of range"

  datatype Failure =
    | Unprocessable(error: ValidationError)   // 422: the body failed validation, no handler ran
    | HttpError(status: nat, detail: string)  // an `HTTPException` raised by the handler
    | Unhandled(body: ErrorResponse)          // the generic exception handler

  function StatusCode(f: Failure): nat {
    match f
    case Unprocessable(_) => 422
    case HttpError(s, _) => s
    case Unhandled(_) => 500
  }

  /** The module-global `_api_metrics` dictionary. */
  datatype UsageMetrics = UsageMetrics(
    startTime: real, totalPredictions: nat, totalRequests: nat, spamDetected: nat, hamDetected: nat)

  /** Every prediction counted is counted as exactly one of spam or ham. */
  predicate Balanced(u: UsageMetrics) {
    u.totalPredictions == u.spamDetected + u.hamDetected
  }

  predicate SamePredictionCounters(u: UsageMetrics, v: UsageMetrics) {
    u.totalPredictions == v.totalPredictions && u.spamDetected == v.spamDetected && u.hamDetected == v.hamDetected
  }

  function CountRequest(u: UsageMetrics): UsageMetrics {
    u.(totalRequests := u.totalRequests + 1)
  }

  function Tally(u: UsageMetrics, predictions: nat, spam: nat, ham: nat): UsageMetrics {
    u.(totalPredictions := u.totalPredictions + predictions,
       spamDetected := u.spamDetected + spam,
       hamDetected := u.hamDetected + ham)
  }

  /** `/`: static information, served without touching the counters. */
  function RootInfo(): (r: map<string, string>)
    ensures "version" in r && r["version"] == ApiVersion
    ensures "health" in r && r["health"] == "/health"
  {
    map["name" := "Spam Detector API", "version" := ApiVersion, "status" := "running",
        "docs" := "/docs", "health" := "/health"]
  }

  // ---------------------------------------------------------------------------
  // Prediction logic

  /** One prediction record: spam exactly when the label is 1, the message echoed. */
  function MakeResult(message: string, lbl: int, confidence: Option<Confidence>): (r: PredictionResult)
    ensures r.message == message && r.confidence == confidence
    ensures r.isSpam <==> lbl == 1
    ensures r.prediction == "spam" <==> lbl == 1
    ensures r.prediction == LabelName(r.isSpam)
  {
    var isSpam := lbl == 1;
    PredictionResult(message, LabelName(isSpam), isSpam, confidence)
  }

  /** The confidence of a single message: absent without a decision function or when it raises. */
  function SingleConfidence(model: TrainedModel, message: string): (r: Option<Confidence>)
    ensures model.decisionFunction.None? ==> r == None
    ensures r.Some? <==> model.decisionFunction.Some? && model.decisionFunction.value([message]).Ok?
    ensures r.Some? ==> r.value == Sigmoid(model.decisionFunction.value([message]).value[0])
  {
    match model.decisionFunction
    case None => None
    case Some(f) =>
      match f([message])
      case Err(_) => None
      case Ok(ds) => Some(Sigmoid(ds[0]))
  }

  /** The confidences of a batch: one decision failure makes every confidence absent. */
  function BatchConfidences(model: TrainedModel, messages: seq<string>): (r: seq<Option<Confidence>>)
    ensures |r| == |messages|
    ensures (forall i :: 0 <= i < |r| ==> r[i].None?) || (forall i :: 0 <= i < |r| ==> r[i].Some?)
    ensures model.decisionFunction.None? ==> forall i :: 0 <= i < |r| ==> r[i] == None
    ensures model.decisionFunction.Some? && model.decisionFunction.value(messages).Err? ==>
      forall i :: 0 <= i < |r| ==> r[i] == None
    ensures model.decisionFunction.Some? && model.decisionFunction.value(messages).Ok? ==>
      forall i :: 0 <= i < |r| ==> r[i] == Some(Sigmoid(model.decisionFunction.value(messages).value[i]))
  {
    var absent := seq(|messages|, i => None);
    match model.decisionFunction
    case None => absent
    case Some(f) =>
      match f(messages)
      case Err(_) => absent
      case Ok(ds) => seq(|ds|, i requires 0 <= i < |ds| => Some(Sigmoid(ds[i])))
  }

  function Min(a: nat, b: nat): nat {
    if a <= b then a else b
  }

  /**
   * The records the batch loop builds: `zip` stops at the shorter of messages
   * and labels, and `confidences[i]` raises once `i` passes its end.
   */
  function BatchResults(messages: seq<string>, labels: seq<int>, confidences: seq<Option<Confidence>>)
    : (r: Result<seq<PredictionResult>, string>)
    ensures r.Err? <==> |confidences| < |messages| && |confidences| < |labels|
    ensures r.Err? ==> r.error == IndexErrorMessage
    ensures r.Ok? ==>
      && |r.value| <= |messages| && |r.value| <= |labels|
      && (|r.value| == |messages| || |r.value| == |labels|)
      && forall k :: 0 <= k < |r.value| ==>
           && r.value[k].message == messages[k]
           && (r.value[k].isSpam <==> labels[k] == 1)
           && r.value[k].prediction == LabelName(r.value[k].isSpam)
           && r.value[k].confidence == confidences[k]
  {
    var n := Min(|messages|, |labels|);
    if |confidences| < n then Err(IndexErrorMessage)
    else Ok(seq(n, k requires 0 <= k < n => MakeResult(messages[k], labels[k], confidences[k])))
  }

  /** The loop of `predict_batch` that appends one record per message and counts the labels. */
  method BuildBatchResults(messages: seq<string>, labels: seq<int>, confidences: seq<Option<Confidence>>)
    returns (r: Result<seq<PredictionResult>, string>, spamCount: nat, hamCount: nat)
    ensures r == BatchResults(messages, labels, confidences)
    ensures r.Ok? ==> spamCount == CountSpam(r.value) && spamCount + hamCount == |r.value|
  {
    var n := Min(|messages|, |labels|);
    var results: seq<PredictionResult> := [];
    spamCount, hamCount := 0, 0;
    var i := 0;
    while i < n
      invariant 0 <= i <= n && i <= |confidences|
      invariant results == seq(i, k requires 0 <= k < i => MakeResult(messages[k], labels[k], confidences[k]))
      invariant spamCount == CountSpam(results) && spamCount + hamCount == i
    {
      var isSpam := labels[i] == 1;
      if isSpam {
        spamCount := spamCount + 1;
      } else {
        hamCount := hamCount + 1;
      }
      if i >= |confidences| {
        return Err(IndexErrorMessage), spamCount, hamCount;
      }
      var record := PredictionResult(messages[i], LabelName(isSpam), isSpam, confidences[i]);
      CountSpamAppend(results, record);
      results := results + [record];
      i := i + 1;
    }
    r := Ok(results);
  }

  /** `predict` on a one-message batch, then confidence and record construction. */
  function PredictOutcome(model: TrainedModel, message: string): (r: Result<PredictResponse, string>)
    ensures r.Ok? <==> model.predict([message]).Ok?
    ensures r.Err? ==> r.error == "Prediction failed: " + model.predict([message]).error
    ensures r.Ok? ==>
      && r.value.message == message
      && (r.value.isSpam <==> model.predict([message]).value[0] == 1)
      && r.value.prediction == LabelName(r.value.isSpam)
      && r.value.confidence == SingleConfidence(model, message)
  {
    match model.predict([message])
    case Err(e) => Err("Prediction failed: " + e)
    case Ok(labels) => Ok(ToResponse(MakeResult(message, labels[0], SingleConfidence(model, message))))
  }

  /** The answer of a batch prediction once the model is in hand. */
  function BatchOutcome(model: TrainedModel, messages: seq<string>): (r: Result<PredictBatchResponse, string>)
    ensures r.Ok? <==> model.predict(messages).Ok?
    ensures r.Err? ==> r.error == "Batch prediction failed: " + model.predict(messages).error
    ensures r.Ok? ==>
      && ConsistentBatch(r.value)
      && |r.value.predictions| == |messages|
      && forall i :: 0 <= i < |messages| ==>
           && r.value.predictions[i].message == messages[i]
           && (r.value.predictions[i].isSpam <==> model.predict(messages).value[i] == 1)
           && r.value.predictions[i].confidence == BatchConfidences(model, messages)[i]
  {
    match model.predict(messages)
    case Err(e) => Err("Batch prediction failed: " + e)
    case Ok(labels) =>
      match BatchResults(messages, labels, BatchConfidences(model, messages))
      case Err(e) => Err("Batch prediction failed: " + e)
      case Ok(rs) =>
        var spam := CountSpam(rs);
        Ok(PredictBatchResponse(rs, |rs|, spam, |rs| - spam))
  }

  // ---------------------------------------------------------------------------
  // Handlers as functions of the counters and the cache slot

  /** New counters and the answer: what a handler call must leave behind. */
  datatype Answer<T> = Answer(usage: UsageMetrics, response: Result<T, Failure>)

  /** `/predict` */
  function PredictAnswer(u: UsageMetrics, slot: Option<TrainedModel>, body: Json): (a: Answer<PredictResponse>)
    ensures ParsePredictRequest(body).Err? ==> a.usage == u && a.response.Err? && StatusCode(a.response.error) == 422
    ensures ParsePredictRequest(body).Ok? ==> a.usage.totalRequests == u.totalRequests + 1
    ensures a.usage.startTime == u.startTime
    ensures a.response.Err? ==> SamePredictionCounters(a.usage, u)
    ensures ParsePredictRequest(body).Ok? && slot.None? ==>
      a.response == Err(HttpError(500, ModelNotLoadedDetail))
    ensures a.response.Ok? ==>
      && slot.Some? && ParsePredictRequest(body).Ok?
      && PredictOutcome(slot.value, ParsePredictRequest(body).value.message) == Ok(a.response.value)
      && a.usage.totalPredictions == u.totalPredictions + 1
      && a.usage.spamDetected == u.spamDetected + (if a.response.value.isSpam then 1 else 0)
      && a.usage.hamDetected == u.hamDetected + (if a.response.value.isSpam then 0 else 1)
    ensures Balanced(u) ==> Balanced(a.usage)
  {
    match ParsePredictRequest(body)
    case Err(e) => Answer(u, Err(Unprocessable(e)))
    case Ok(req) =>
      var counted := CountRequest(u);
      if slot.None? then Answer(counted, Err(HttpError(500, ModelNotLoadedDetail)))
      else match PredictOutcome(slot.value, req.message)
        case Err(e) => Answer(counted, Err(HttpError(500, e)))
        case Ok(resp) =>
          Answer(Tally(counted, 1, if resp.isSpam then 1 else 0, if resp.isSpam then 0 else 1), Ok(resp))
  }

  /** `/predict/batch` */
  function BatchAnswer(u: UsageMetrics, slot: Option<TrainedModel>, body: Json): (a: Answer<PredictBatchResponse>)
    ensures ParseBatchRequest(body).Err? ==> a.usage == u && a.response.Err? && StatusCode(a.response.error) == 422
    ensures ParseBatchRequest(body).Ok? ==> a.usage.totalRequests == u.totalRequests + 1
    ensures a.usage.startTime == u.startTime
    ensures a.response.Err? ==> SamePredictionCounters(a.usage, u)
    ensures ParseBatchRequest(body).Ok? && slot.None? ==>
      a.response == Err(HttpError(500, ModelNotLoadedDetail))
    ensures a.response.Ok? ==>
      && slot.Some? && ParseBatchRequest(body).Ok?
      && BatchOutcome(slot.value, ParseBatchRequest(body).value.messages) == Ok(a.response.value)
      && ConsistentBatch(a.response.value)
      && a.usage.totalPredictions == u.totalPredictions + a.response.value.total
      && a.usage.spamDetected == u.spamDetected + a.response.value.spamCount
      && a.usage.hamDetected == u.hamDetected + a.response.value.hamCount
    ensures Balanced(u) ==> Balanced(a.usage)
  {
    match ParseBatchRequest(body)
    case Err(e) => Answer(u, Err(Unprocessable(e)))
    case Ok(req) =>
      var counted := CountRequest(u);
      if slot.None? then Answer(counted, Err(HttpError(500, ModelNotLoadedDetail)))
      else match BatchOutcome(slot.value, req.messages)
        case Err(e) => Answer(counted, Err(HttpError(500, e)))
        case Ok(resp) => Answer(Tally(counted, |req.messages|, resp.spamCount, resp.hamCount), Ok(resp))
  }

  /** The health answer built from a model-info record. */
  function HealthAnswer(info: ModelInfo): (r: Result<HealthResponse, Failure>)
    ensures r.Ok? ==> r.value.status == "healthy" && r.value.version == ApiVersion
    ensures r.Ok? ==> r.value.modelLoaded == info.Loaded?
    ensures info.NotLoaded? ==> r.Ok? && r.value.modelName == None
    ensures info.Loaded? ==> (r.Ok? <==> info.modelName.JString? || info.modelName.JNull?)
    ensures info.Loaded? && info.modelName.JString? ==> r == Ok(HealthResponse("healthy", true, Some(info.modelName.s), ApiVersion))
    ensures r.Err? ==> StatusCode(r.error) == 500
  {
    match info
    case NotLoaded(_, _) => Ok(HealthResponse("healthy", false, None, ApiVersion))
    case Loaded(_, name, _, _, _, _, _) =>
      match name
      case JString(s) => Ok(HealthResponse("healthy", true, Some(s), ApiVersion))
      case JNull => Ok(HealthResponse("healthy", true, None, ApiVersion))
      case _ => Err(Unhandled(ErrorResponse("Internal server error", Some(InvalidModelNameDetail))))
  }

  // ---------------------------------------------------------------------------
  // The service

  class SpamService {
    var usage: UsageMetrics
    const cache: ArtifactCache

    predicate Valid()
      reads this
    {
      Balanced(usage)
    }

    /** The module is imported at `start`: every counter is zero. */
    constructor (cache: ArtifactCache, start: real)
      ensures this.cache == cache && Valid()
      ensures usage == UsageMetrics(start, 0, 0, 0, 0)
    {
      this.cache := cache;
      usage := UsageMetrics(start, 0, 0, 0, 0);
    }

    /** `lifespan`: the only place that asks the cache to load; a failure is swallowed. */
    method Startup(fs: FileStore)
      modifies cache`modelSlot, cache`modelLoads
      ensures old(cache.modelSlot).Some? ==> cache.modelSlot == old(cache.modelSlot)
      ensures old(cache.modelSlot).None? ==>
        cache.modelSlot == (if LoadModel(fs, DefaultModelPath).Ok? then Some(LoadModel(fs, DefaultModelPath).value) else None)
    {
      var _ := cache.GetModel(fs, DefaultModelPath, false);
    }

    /** `/health`: always "healthy"; `model_loaded` mirrors the model slot. */
    method HealthCheck(fs: FileStore) returns (r: Result<HealthResponse, Failure>)
      requires Valid()
      modifies this`usage, cache`metricsSlot, cache`metricsLoads
      ensures Valid() && usage == CountRequest(old(usage))
      ensures cache.modelSlot.None? ==>
        r == Ok(HealthResponse("healthy", false, None, ApiVersion)) && cache.metricsSlot == old(cache.metricsSlot)
      ensures cache.modelSlot.Some? ==>
        && cache.metricsSlot == Some(if old(cache.metricsSlot).Some? then old(cache.metricsSlot).value
                                     else LoadMetrics(fs, DefaultMetricsPath))
        && r == HealthAnswer(LoadedInfo(cache.metricsSlot.value))
    {
      usage := CountRequest(usage);
      var info := cache.GetModelInfo(fs);
      r := HealthAnswer(info);
    }

    /** `/predict` */
    method Predict(body: Json) returns (r: Result<PredictResponse, Failure>)
      requires Valid()
      modifies this`usage
      ensures Valid()
      ensures Answer(usage, r) == PredictAnswer(old(usage), cache.modelSlot, body)
    {
      var parsed := ParsePredictRequest(body);
      if parsed.Err? {
        return Err(Unprocessable(parsed.error));
      }
      var message := parsed.value.message;
      usage := usage.(totalRequests := usage.totalRequests + 1);
      var loaded := cache.IsModelLoaded();
      if !loaded {
        return Err(HttpError(500, ModelNotLoadedDetail));
      }
      var model := cache.modelSlot.value;
      var labels := model.predict([message]);
      if labels.Err? {
        return Err(HttpError(500, "Prediction failed: " + labels.error));
      }
      var isSpam := labels.value[0] == 1;
      var confidence := SingleConfidence(model, message);
      usage := usage.(totalPredictions := usage.totalPredictions + 1);
      if isSpam {
        usage := usage.(spamDetected := usage.spamDetected + 1);
      } else {
        usage := usage.(hamDetected := usage.hamDetected + 1);
      }
      r := Ok(PredictResponse(LabelName(isSpam), isSpam, confidence, message));
    }

    /** `/predict/batch`: the counters move only after every record is built. */
    method PredictBatch(body: Json) returns (r: Result<PredictBatchResponse, Failure>)
      requires Valid()
      modifies this`usage
      ensures Valid()
      ensures Answer(usage, r) == BatchAnswer(old(usage), cache.modelSlot, body)
    {
      var parsed := ParseBatchRequest(body);
      if parsed.Err? {
        return Err(Unprocessable(parsed.error));
      }
      var messages := parsed.value.messages;
      usage := usage.(totalRequests := usage.totalRequests + 1);
      var loaded := cache.IsModelLoaded();
      if !loaded {
        return Err(HttpError(500, ModelNotLoadedDetail));
      }
      var model := cache.modelSlot.value;
      var labels := model.predict(messages);
      if labels.Err? {
        return Err(HttpError(500, "Batch prediction failed: " + labels.error));
      }
      var confidences := BatchConfidences(model, messages);
      // One label and one confidence per message: the loop cannot raise here.
      var results, spamCount, hamCount := BuildBatchResults(messages, labels.value, confidences);
      assert results.Ok?;
      usage := usage.(totalPredictions := usage.totalPredictions + |messages|,
                      spamDetected := usage.spamDetected + spamCount,
                      hamDetected := usage.hamDetected + hamCount);
      r := Ok(PredictBatchResponse(results.value, |results.value|, spamCount, hamCount));
    }

    /** `/metrics`: the counters are read after this request has been counted. */
    method GetApiMetrics(fs: FileStore, now: real) returns (r: MetricsResponse)
      requires Valid()
      modifies this`usage, cache`metricsSlot, cache`metricsLoads
      ensures Valid() && usage == CountRequest(old(usage))
      ensures cache.metricsSlot == Some(r.modelMetrics)
      ensures old(cache.metricsSlot).Some? ==> r.modelMetrics == old(cache.metricsSlot).value
      ensures old(cache.metricsSlot).None? ==> r.modelMetrics == LoadMetrics(fs, DefaultMetricsPath)
      ensures r.systemMetrics == SystemMetrics(
        now - usage.startTime, usage.totalRequests, usage.totalPredictions,
        usage.spamDetected, usage.hamDetected, cache.modelSlot.Some?)
    {
      usage := CountRequest(usage);
      var modelMetrics := cache.GetMetrics(fs, DefaultMetricsPath, false);
      var loaded := cache.IsModelLoaded();
      var system := SystemMetrics(
        now - usage.startTime, usage.totalRequests, usage.totalPredictions,
        usage.spamDetected, usage.hamDetected, loaded);
      r := MetricsResponse(modelMetrics, system);
    }
  }
}
