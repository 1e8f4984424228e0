/**
 * The request and response records of the serving API and the validation
 * that Pydantic applies to request bodies before a handler runs.  A body that
 * fails validation is answered with status 422 and never reaches a handler.
 */
module Schemas {
  import opened Wrappers
  import opened Json

  // ---------------------------------------------------------------------------
  // Requests

  datatype PredictRequest = PredictRequest(message: string)

  datatype PredictBatchRequest = PredictBatchRequest(messages: seq<string>)

  /** `max_length=100` on `PredictBatchRequest.messages`. */
  const MaxBatchSize: nat := 100

  /** `min_length=1` on `message`: any non-empty string, whitespace-only included. */
  predicate ValidPredictRequest(r: PredictRequest) {
    |r.message| >= 1
  }

  /** Between 1 and 100 messages; the messages themselves are unconstrained. */
  predicate ValidBatchRequest(r: PredictBatchRequest) {
    1 <= |r.messages| <= MaxBatchSize
  }

  datatype ValidationError =
    | NotAnObject
    | MissingField(field: string)
    | WrongType(field: string)
    | TooShort(field: string)
    | TooLong(field: string)

  /** Pydantic's validation of a `/predict` body; extra keys are ignored. */
  function ParsePredictRequest(body: Json): (r: Result<PredictRequest, ValidationError>)
    ensures r.Ok? <==>
      && body.JObject? && "message" in body.fields
      && body.fields["message"].JString? && |body.fields["message"].s| >= 1
    ensures r.Ok? ==> ValidPredictRequest(r.value) && r.value.message == body.fields["message"].s
  {
    if !body.JObject? then Err(NotAnObject)
    else if "message" !in body.fields then Err(MissingField("message"))
    else match body.fields["message"]
      case JString(s) => if |s| >= 1 then Ok(PredictRequest(s)) else Err(TooShort("message"))
      case _ => Err(WrongType("message"))
  }

  /** The strings of a JSON array, when every item is a string. */
  function StringItems(items: seq<Json>): (r: Option<seq<string>>)
    ensures r.Some? <==> forall i :: 0 <= i < |items| ==> items[i].JString?
    ensures r.Some? ==> |r.value| == |items| && forall i :: 0 <= i < |items| ==> r.value[i] == items[i].s
  {
    if items == [] then Some([])
    else if !items[0].JString? then None
    else match StringItems(items[1..])
      case None => None
      case Some(rest) => Some([items[0].s] + rest)
  }

  /** Pydantic's validation of a `/predict/batch` body. */
  function ParseBatchRequest(body: Json): (r: Result<PredictBatchRequest, ValidationError>)
    ensures r.Ok? <==>
      && body.JObject? && "messages" in body.fields && body.fields["messages"].JArray?
      && (forall i :: 0 <= i < |body.fields["messages"].items| ==> body.fields["messages"].items[i].JString?)
      && 1 <= |body.fields["messages"].items| <= MaxBatchSize
    ensures r.Ok? ==>
      && ValidBatchRequest(r.value)
      && |r.value.messages| == |body.fields["messages"].items|
      && forall i :: 0 <= i < |r.value.messages| ==> r.value.messages[i] == body.fields["messages"].items[i].s
  {
    if !body.JObject? then Err(NotAnObject)
    else if "messages" !in body.fields then Err(MissingField("messages"))
    else match body.fields["messages"]
      case JArray(items) =>
        if |items| < 1 then Err(TooShort("messages"))
        else if |items| > MaxBatchSize then Err(TooLong("messages"))
        else (match StringItems(items)
          case None => Err(WrongType("messages"))
          case Some(messages) => Ok(PredictBatchRequest(messages)))
      case _ => Err(WrongType("messages"))
  }

  function EncodePredictRequest(r: PredictRequest): Json {
    JObject(map["message" := JString(r.message)])
  }

  function EncodeBatchRequest(r: PredictBatchRequest): Json {
    JObject(map["messages" := JArray(seq(|r.messages|, i requires 0 <= i < |r.messages| => JString(r.messages[i])))])
  }

  /** A request that satisfies its constraints survives validation unchanged. */
  lemma PredictRequestRoundTrip(r: PredictRequest)
    ensures ParsePredictRequest(EncodePredictRequest(r)) == (if ValidPredictRequest(r) then Ok(r) else Err(TooShort("message")))
  {
  }

  lemma BatchRequestRoundTrip(r: PredictBatchRequest)
    requires ValidBatchRequest(r)
    ensures ParseBatchRequest(EncodeBatchRequest(r)) == Ok(r)
  {
    var body := EncodeBatchRequest(r);
    var parsed := ParseBatchRequest(body);
    assert parsed.Ok?;
    assert parsed.value.messages == r.messages;
  }

  // ---------------------------------------------------------------------------
  // Responses

  /** `float(1 / (1 + exp(-d)))` for a decision value `d`, kept symbolic. */
  datatype Confidence = Sigmoid(decision: real)

  datatype PredictionResult = PredictionResult(
    message: string, prediction: string, isSpam: bool, confidence: Option<Confidence>)

  datatype PredictResponse = PredictResponse(
    prediction: string, isSpam: bool, confidence: Option<Confidence>, message: string)

  /** The class name of a label decision. */
  function LabelName(isSpam: bool): (r: string)
    ensures r == "spam" <==> isSpam
    ensures r == "spam" || r == "ham"
  {
    if isSpam then "spam" else "ham"
  }

  function ToResult(p: PredictResponse): (r: PredictionResult)
    ensures r.message == p.message && r.prediction == p.prediction
    ensures r.isSpam == p.isSpam && r.confidence == p.confidence
  {
    PredictionResult(p.message, p.prediction, p.isSpam, p.confidence)
  }

  function ToResponse(r: PredictionResult): (p: PredictResponse)
    ensures p.message == r.message && p.prediction == r.prediction
    ensures p.isSpam == r.isSpam && p.confidence == r.confidence
  {
    PredictResponse(r.prediction, r.isSpam, r.confidence, r.message)
  }

  /** `PredictionResult` and `PredictResponse` carry exactly the same four fields. */
  lemma ResultResponseBijection(p: PredictResponse, r: PredictionResult)
    ensures ToResponse(ToResult(p)) == p
    ensures ToResult(ToResponse(r)) == r
  {
  }

  datatype PredictBatchResponse = PredictBatchResponse(
    predictions: seq<PredictionResult>, total: int, spamCount: int, hamCount: int)

  function CountSpam(rs: seq<PredictionResult>): (n: nat)
    ensures n <= |rs|
  {
    if rs == [] then 0 else (if rs[0].isSpam then 1 else 0) + CountSpam(rs[1..])
  }

  lemma {:induction false} CountSpamAppend(rs: seq<PredictionResult>, x: PredictionResult)
    ensures CountSpam(rs + [x]) == CountSpam(rs) + (if x.isSpam then 1 else 0)
  {
    if rs != [] {
      assert (rs + [x])[1..] == rs[1..] + [x];
      CountSpamAppend(rs[1..], x);
    } else {
      assert [] + [x] == [x];
    }
  }

  /** The shape the API promises for a batch answer. */
  predicate ConsistentBatch(r: PredictBatchResponse) {
    && r.total == |r.predictions|
    && r.spamCount == CountSpam(r.predictions)
    && r.spamCount + r.hamCount == r.total
    && forall i :: 0 <= i < |r.predictions| ==> r.predictions[i].prediction == LabelName(r.predictions[i].isSpam)
  }

  /** The documented example answer of `/predict/batch`. */
  const BatchExample: PredictBatchResponse := PredictBatchResponse(
    [ PredictionResult("Meeting at 3pm", "ham", false, Some(Sigmoid(2.944))),
      PredictionResult("WIN FREE MONEY!!!", "spam", true, Some(Sigmoid(4.595))) ],
    2, 1, 1)

  lemma BatchExampleConsistent()
    ensures ConsistentBatch(BatchExample)
  {
    assert CountSpam(BatchExample.predictions) == 1 by {
      assert BatchExample.predictions[1..][1..] == [];
    }
  }

  datatype HealthResponse = HealthResponse(
    status: string, modelLoaded: bool, modelName: Option<string>, version: string)

  /** The `system_metrics` dictionary of `/metrics`. */
  datatype SystemMetrics = SystemMetrics(
    uptimeSeconds: real, totalRequests: nat, totalPredictions: nat,
    spamDetected: nat, hamDetected: nat, modelLoaded: bool)

  datatype MetricsResponse = MetricsResponse(modelMetrics: JsonObject, systemMetrics: SystemMetrics)

  datatype ErrorResponse = ErrorResponse(error: string, detail: Option<string>)

  function OptionalString(o: Option<string>): Json {
    match o
    case None => JNull
    case Some(s) => JString(s)
  }

  function EncodeHealth(h: HealthResponse): Json {
    JObject(map["status" := JString(h.status), "model_loaded" := JBool(h.modelLoaded),
                "model_name" := OptionalString(h.modelName), "version" := JString(h.version)])
  }

  /** An optional string field: absent or `null` reads as `None`. */
  function DecodeOptionalString(fields: JsonObject, key: string): (r: Result<Option<string>, ValidationError>)
    ensures key !in fields ==> r == Ok(None)
    ensures r.Ok? && r.value.Some? ==> key in fields && fields[key] == JString(r.value.value)
  {
    if key !in fields then Ok(None)
    else match fields[key]
      case JNull => Ok(None)
      case JString(s) => Ok(Some(s))
      case _ => Err(WrongType(key))
  }

  function DecodeRequiredString(fields: JsonObject, key: string): (r: Result<string, ValidationError>)
    ensures r.Ok? <==> key in fields && fields[key].JString?
    ensures r.Ok? ==> r.value == fields[key].s
  {
    if key !in fields then Err(MissingField(key))
    else match fields[key]
      case JString(s) => Ok(s)
      case _ => Err(WrongType(key))
  }

  /** Reading a health answer: `status`, `model_loaded` and `version` are required, `model_name` is not. */
  function DecodeHealth(j: Json): (r: Result<HealthResponse, ValidationError>)
    ensures r.Ok? ==> j.JObject? && "status" in j.fields && "model_loaded" in j.fields && "version" in j.fields
    ensures r.Ok? <==>
      && j.JObject?
      && "status" in j.fields && j.fields["status"].JString?
      && "model_loaded" in j.fields && j.fields["model_loaded"].JBool?
      && "version" in j.fields && j.fields["version"].JString?
      && ("model_name" in j.fields ==> j.fields["model_name"].JNull? || j.fields["model_name"].JString?)
    ensures r.Ok? ==>
      && r.value.status == j.fields["status"].s
      && r.value.modelLoaded == j.fields["model_loaded"].b
      && r.value.version == j.fields["version"].s
      && r.value.modelName ==
           (if "model_name" in j.fields && j.fields["model_name"].JString? then Some(j.fields["model_name"].s) else None)
    ensures j.JObject? && "model_name" !in j.fields && r.Ok? ==> r.value.modelName == None
  {
    if !j.JObject? then Err(NotAnObject)
    else
      var status :- DecodeRequiredString(j.fields, "status");
      var loaded :- (if "model_loaded" !in j.fields then Err(MissingField("model_loaded"))
                     else if j.fields["model_loaded"].JBool? then Ok(j.fields["model_loaded"].b)
                     else Err(WrongType("model_loaded")));
      var name :- DecodeOptionalString(j.fields, "model_name");
      var version :- DecodeRequiredString(j.fields, "version");
      Ok(HealthResponse(status, loaded, name, version))
  }

  lemma HealthRoundTrip(h: HealthResponse)
    ensures DecodeHealth(EncodeHealth(h)) == Ok(h)
  {
  }

  function EncodeError(e: ErrorResponse): Json {
    JObject(map["error" := JString(e.error), "detail" := OptionalString(e.detail)])
  }

  /** Reading an error answer: `error` is required, `detail` is not. */
  function DecodeError(j: Json): (r: Result<ErrorResponse, ValidationError>)
    ensures r.Ok? <==> j.JObject? && "error" in j.fields && j.fields["error"].JString?
                       && ("detail" in j.fields ==> j.fields["detail"].JNull? || j.fields["detail"].JString?)
    ensures r.Ok? && "detail" !in j.fields ==> r.value.detail == None
  {
    if !j.JObject? then Err(NotAnObject)
    else
      var error :- DecodeRequiredString(j.fields, "error");
      var detail :- DecodeOptionalString(j.fields, "detail");
      Ok(ErrorResponse(error, detail))
  }

  lemma ErrorRoundTrip(e: ErrorResponse)
    ensures DecodeError(EncodeError(e)) == Ok(e)
  {
  }
}
