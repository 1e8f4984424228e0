/**
 * The artifact cache of the serving API: two module-global slots, one for the
 * trained model and one for its metrics record, filled from storage on first
 * use or on a forced reload.
 *
 * Storage is an abstract map from paths to stored blobs; `joblib.load` and
 * `json.load` become the choice of blob kind.  The trained model itself is
 * opaque: a labeller over a batch of messages with an optional decision
 * function, as a scikit-learn pipeline presents itself to the API.
 */
module ModelLoader {
  import opened Wrappers
  import opened Json

  type Path = string

  /**
   * A fitted classifier as the API sees it: `predict` maps a batch of messages
   * to one label each (or raises), and `decision_function` is present only for
   * margin classifiers and may raise as well.
   */
  datatype Predictor = Predictor(
    predict: seq<string> -> Result<seq<int>, string>,
    decisionFunction: Option<seq<string> -> Result<seq<real>, string>>)

  /** The scikit-learn contract: a successful call returns one output per input message. */
  ghost predicate OnePerInput(p: Predictor) {
    && (forall X :: p.predict(X).Ok? ==> |p.predict(X).value| == |X|)
    && (p.decisionFunction.Some? ==>
          forall X :: p.decisionFunction.value(X).Ok? ==> |p.decisionFunction.value(X).value| == |X|)
  }

  type TrainedModel = p: Predictor | OnePerInput(p)
    witness Predictor(X => Ok(seq(|X|, i => 0)), None)

  /** What a path in storage holds: a pickled model, a JSON document, or anything else. */
  datatype Blob =
    | ModelFile(model: TrainedModel)
    | JsonFile(document: Json)
    | OtherFile

  type FileStore = map<Path, Blob>

  /** `models/linear_svc.joblib` and `models/linear_svc_metrics.json` under the project root. */
  const DefaultModelPath: Path := "models/linear_svc.joblib"
  const DefaultMetricsPath: Path := "models/linear_svc_metrics.json"

  datatype LoadError =
    | ModelNotFound(path: Path)           // FileNotFoundError, raised before any read
    | DeserializationFailed(path: Path)   // whatever joblib.load raised, re-raised

  /** `load_model`: a missing path is reported before deserialisation is attempted. */
  function LoadModel(fs: FileStore, path: Path): (r: Result<TrainedModel, LoadError>)
    ensures path !in fs <==> r == Err(ModelNotFound(path))
    ensures r.Ok? <==> path in fs && fs[path].ModelFile?
    ensures r.Ok? ==> r.value == fs[path].model
  {
    if path !in fs then Err(ModelNotFound(path))
    else match fs[path]
      case ModelFile(m) => Ok(m)
      case _ => Err(DeserializationFailed(path))
  }

  /**
   * `load_metrics` never raises: a missing path or a file that does not parse
   * as a JSON object yields the empty record.
   */
  function LoadMetrics(fs: FileStore, path: Path): (r: JsonObject)
    ensures path !in fs ==> r == map[]
    ensures r != map[] ==> path in fs && fs[path] == JsonFile(JObject(r))
    ensures path in fs && fs[path].JsonFile? && fs[path].document.JObject? ==> r == fs[path].document.fields
  {
    if path !in fs then map[]
    else match fs[path]
      case JsonFile(JObject(fields)) => fields
      case _ => map[]
  }

  /** The record `get_model_info` returns. */
  datatype ModelInfo =
    | NotLoaded(modelPath: Path, message: string)
    | Loaded(modelPath: Path, modelName: Json, accuracy: Json, precision: Json,
             recall: Json, f1Score: Json, rocAuc: Json)

  /** `dict.get(key)`, or `dict.get(key, default)`. */
  function Get(m: JsonObject, key: string, default: Json := JNull): (r: Json)
    ensures key in m ==> r == m[key]
    ensures key !in m ==> r == default
  {
    if key in m then m[key] else default
  }

  /** The loaded-model record, read from a metrics record. */
  function LoadedInfo(metrics: JsonObject): (r: ModelInfo)
    ensures r.Loaded? && r.modelPath == DefaultModelPath
    ensures r.modelName == if "model" in metrics then metrics["model"] else JString("unknown")
    ensures r.accuracy == if "accuracy" in metrics then metrics["accuracy"] else JNull
    ensures r.precision == if "precision" in metrics then metrics["precision"] else JNull
    ensures r.recall == if "recall" in metrics then metrics["recall"] else JNull
    ensures r.f1Score == if "f1" in metrics then metrics["f1"] else JNull
    ensures r.rocAuc == if "roc_auc" in metrics then metrics["roc_auc"] else JNull
  {
    Loaded(DefaultModelPath, Get(metrics, "model", JString("unknown")), Get(metrics, "accuracy"),
           Get(metrics, "precision"), Get(metrics, "recall"), Get(metrics, "f1"), Get(metrics, "roc_auc"))
  }

  /**
   * The two module-global slots `_model_cache` and `_metrics_cache`.  The ghost
   * counters record how often each slot consulted storage.
   */
  class ArtifactCache {
    var modelSlot: Option<TrainedModel>
    var metricsSlot: Option<JsonObject>
    ghost var modelLoads: nat
    ghost var metricsLoads: nat

    /** Both slots start as `None` when the module is imported. */
    constructor ()
      ensures modelSlot == None && metricsSlot == None
      ensures modelLoads == 0 && metricsLoads == 0
    {
      modelSlot := None;
      metricsSlot := None;
      modelLoads := 0;
      metricsLoads := 0;
    }

    /** `is_model_loaded`: reports whether a model is cached, and changes nothing (it never loads). */
    method IsModelLoaded() returns (loaded: bool)
      ensures loaded <==> modelSlot.Some?
    {
      loaded := modelSlot.Some?;
    }

    /**
     * `get_model`: storage is read only when the slot is empty or a reload is
     * forced; a failed load propagates and leaves the slot as it was.
     */
    method GetModel(fs: FileStore, path: Path, forceReload: bool) returns (r: Result<TrainedModel, LoadError>)
      modifies this`modelSlot, this`modelLoads
      ensures old(modelSlot).Some? && !forceReload ==>
        r == Ok(old(modelSlot).value) && modelSlot == old(modelSlot) && modelLoads == old(modelLoads)
      ensures old(modelSlot).None? || forceReload ==>
        r == LoadModel(fs, path) && modelLoads == old(modelLoads) + 1
      ensures modelSlot == if r.Ok? then Some(r.value) else old(modelSlot)
    {
      if modelSlot.None? || forceReload {
        modelLoads := modelLoads + 1;
        r := LoadModel(fs, path);
        if r.Ok? {
          modelSlot := Some(r.value);
        }
      } else {
        r := Ok(modelSlot.value);
      }
    }

    /**
     * `get_metrics`: whatever `load_metrics` returned is cached, the empty
     * record included, so a missing file is consulted once unless forced.
     */
    method GetMetrics(fs: FileStore, path: Path, forceReload: bool) returns (m: JsonObject)
      modifies this`metricsSlot, this`metricsLoads
      ensures old(metricsSlot).Some? && !forceReload ==>
        m == old(metricsSlot).value && metricsSlot == old(metricsSlot) && metricsLoads == old(metricsLoads)
      ensures old(metricsSlot).None? || forceReload ==>
        m == LoadMetrics(fs, path) && metricsLoads == old(metricsLoads) + 1
      ensures metricsSlot == Some(m)
    {
      if metricsSlot.None? || forceReload {
        metricsLoads := metricsLoads + 1;
        m := LoadMetrics(fs, path);
        metricsSlot := Some(m);
      } else {
        m := metricsSlot.value;
      }
    }

    /**
     * `get_model_info`: without a model it reports the default path and leaves
     * the metrics slot alone; with one it reads the (cached) metrics record.
     */
    method GetModelInfo(fs: FileStore) returns (info: ModelInfo)
      modifies this`metricsSlot, this`metricsLoads
      ensures modelSlot.None? ==>
        && info == NotLoaded(DefaultModelPath, "Model not loaded yet")
        && metricsSlot == old(metricsSlot) && metricsLoads == old(metricsLoads)
      ensures modelSlot.Some? ==>
        && metricsSlot == Some(if old(metricsSlot).Some? then old(metricsSlot).value
                               else LoadMetrics(fs, DefaultMetricsPath))
        && info == LoadedInfo(metricsSlot.value)
    {
      var loaded := IsModelLoaded();
      if !loaded {
        info := NotLoaded(DefaultModelPath, "Model not loaded yet");
      } else {
        var metrics := GetMetrics(fs, DefaultMetricsPath, false);
        info := LoadedInfo(metrics);
      }
    }
  }

  /**
   * A first `get_metrics` on storage without the metrics file caches `{}`; a
   * second call answers `{}` again even if the file has appeared since.
   */
  method MissingMetricsCachedEmpty(before: FileStore, after: FileStore) returns (first: JsonObject, second: JsonObject)
    requires DefaultMetricsPath !in before
    ensures first == map[] && second == map[]
  {
    var cache := new ArtifactCache();
    first := cache.GetMetrics(before, DefaultMetricsPath, false);
    second := cache.GetMetrics(after, DefaultMetricsPath, false);
    assert cache.metricsLoads == 1;
  }

  /**
   * A forced reload from a corrupt or missing file keeps serving the model
   * already in the slot.
   */
  method FailedReloadKeepsModel(good: FileStore, bad: FileStore, path: Path) returns (loaded: bool, served: Option<TrainedModel>)
    requires path in good && good[path].ModelFile?
    requires !LoadModel(bad, path).Ok?
    ensures loaded && served == Some(good[path].model)
  {
    var cache := new ArtifactCache();
    var first := cache.GetModel(good, path, false);
    var again := cache.GetModel(bad, path, true);
    assert again.Err?;
    loaded := cache.IsModelLoaded();
    served := cache.modelSlot;
  }
}
