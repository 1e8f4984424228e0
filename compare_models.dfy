/**
 * The model comparison script: every factory model is built, fitted and
 * evaluated on one train/test split; its fitted pipeline and its metrics
 * record are written under the output directory, and the records are ranked
 * by F1, best first.
 *
 * The output directory is a map from paths to stored blobs, the same storage
 * the serving API's artifact cache reads, so the two ends can be related.
 */
module CompareModels {
  import opened Wrappers
  import opened Json
  import opened Dataset
  import opened Modeling
  import opened Evaluation
  import opened ModelLoader

  // ---------------------------------------------------------------------------
  // Artifact names

  function ModelArtifactPath(dir: Path, modelName: string): Path {
    dir + "/" + modelName + ".joblib"
  }

  function MetricsArtifactPath(dir: Path, modelName: string): Path {
    dir + "/" + modelName + "_metrics.json"
  }

  function ComparisonPath(dir: Path): Path {
    dir + "/model_comparison.json"
  }

  /** The artifacts written for linear_svc under `models` are the ones the API loads by default. */
  lemma DefaultArtifactsAreLinearSvc()
    ensures ModelArtifactPath("models", AvailableModels[0]) == DefaultModelPath
    ensures MetricsArtifactPath("models", AvailableModels[0]) == DefaultMetricsPath
  {
  }

  /**
   * No two artifacts of one run share a path: the three names have distinct
   * lengths, model files end in ".joblib", and the comparison file name is
   * shorter than every metrics file name.
   */
  lemma ArtifactPathsDistinct(dir: Path, i: nat, j: nat)
    requires i < |AvailableModels| && j < |AvailableModels|
    ensures i != j ==> ModelArtifactPath(dir, AvailableModels[i]) != ModelArtifactPath(dir, AvailableModels[j])
    ensures i != j ==> MetricsArtifactPath(dir, AvailableModels[i]) != MetricsArtifactPath(dir, AvailableModels[j])
    ensures ModelArtifactPath(dir, AvailableModels[i]) != MetricsArtifactPath(dir, AvailableModels[j])
    ensures ModelArtifactPath(dir, AvailableModels[i]) != ComparisonPath(dir)
    ensures MetricsArtifactPath(dir, AvailableModels[i]) != ComparisonPath(dir)
  {
    var mi, mj := ModelArtifactPath(dir, AvailableModels[i]), ModelArtifactPath(dir, AvailableModels[j]);
    var si, sj := MetricsArtifactPath(dir, AvailableModels[i]), MetricsArtifactPath(dir, AvailableModels[j]);
    var c := ComparisonPath(dir);
    assert mi[|mi| - 1] == 'b' && sj[|sj| - 1] == 'n' && c[|c| - 1] == 'n';
    assert |si| != |c|;
  }

  // ---------------------------------------------------------------------------
  // Ranking by F1

  /** Highest F1 first. */
  predicate RankedByF1(s: seq<EvaluationRecord>) {
    forall i, j :: 0 <= i < j < |s| ==> s[i].f1 >= s[j].f1
  }

  /** Places `x` after every record whose F1 is at least its own. */
  function InsertByF1(s: seq<EvaluationRecord>, x: EvaluationRecord): (r: seq<EvaluationRecord>)
    ensures |r| == |s| + 1
  {
    if s == [] then [x]
    else if s[0].f1 >= x.f1 then [s[0]] + InsertByF1(s[1..], x)
    else [x] + s
  }

  /**
   * `list.sort(key=f1, reverse=True)`: a stable sort on decreasing F1, written
   * as insertion of each record, in list order, into the ranking of those before it.
   */
  function RankByF1(s: seq<EvaluationRecord>): (r: seq<EvaluationRecord>)
    ensures |r| == |s|
  {
    if s == [] then [] else InsertByF1(RankByF1(s[..|s| - 1]), s[|s| - 1])
  }

  /** The records with F1 equal to `v`, in order. */
  function WithF1(s: seq<EvaluationRecord>, v: real): (r: seq<EvaluationRecord>)
    ensures |r| <= |s|
  {
    if s == [] then [] else (if s[0].f1 == v then [s[0]] else []) + WithF1(s[1..], v)
  }

  lemma {:induction false} InsertPermutes(s: seq<EvaluationRecord>, x: EvaluationRecord)
    ensures multiset(InsertByF1(s, x)) == multiset(s) + multiset{x}
  {
    if s != [] && s[0].f1 >= x.f1 {
      InsertPermutes(s[1..], x);
      assert s == [s[0]] + s[1..];
    }
  }

  lemma {:induction false} InsertKeepsRanking(s: seq<EvaluationRecord>, x: EvaluationRecord)
    requires RankedByF1(s)
    ensures RankedByF1(InsertByF1(s, x))
    ensures s != [] && s[0].f1 >= x.f1 ==> InsertByF1(s, x)[0] == s[0]
  {
    if s != [] && s[0].f1 >= x.f1 {
      var rest := InsertByF1(s[1..], x);
      RankedTail(s);
      InsertKeepsRanking(s[1..], x);
      InsertPermutes(s[1..], x);
      forall k | 0 <= k < |rest|
        ensures s[0].f1 >= rest[k].f1
      {
        assert rest[k] in multiset(rest);
        assert rest[k] in multiset(s[1..]) || rest[k] == x;
        if rest[k] != x {
          var m :| 0 <= m < |s[1..]| && s[1..][m] == rest[k];
          assert s[m + 1] == rest[k];
        }
      }
    }
  }

  lemma {:induction false} RankPermutes(s: seq<EvaluationRecord>)
    ensures multiset(RankByF1(s)) == multiset(s)
  {
    if s != [] {
      var init, last := s[..|s| - 1], s[|s| - 1];
      RankPermutes(init);
      InsertPermutes(RankByF1(init), last);
      assert s == init + [last];
      assert multiset(s) == multiset(init) + multiset{last};
    }
  }

  lemma {:induction false} RankIsRanked(s: seq<EvaluationRecord>)
    ensures RankedByF1(RankByF1(s))
  {
    if s != [] {
      var init := s[..|s| - 1];
      RankIsRanked(init);
      InsertKeepsRanking(RankByF1(init), s[|s| - 1]);
    }
  }

  lemma {:induction false} WithF1Append(a: seq<EvaluationRecord>, b: seq<EvaluationRecord>, v: real)
    ensures WithF1(a + b, v) == WithF1(a, v) + WithF1(b, v)
  {
    if a != [] {
      assert (a + b)[1..] == a[1..] + b;
      WithF1Append(a[1..], b, v);
    } else {
      assert a + b == b;
    }
  }

  lemma RankedTail(s: seq<EvaluationRecord>)
    requires RankedByF1(s) && s != []
    ensures RankedByF1(s[1..])
  {
    forall i, j | 0 <= i < j < |s[1..]| ensures s[1..][i].f1 >= s[1..][j].f1 {
      assert s[1..][i] == s[i + 1] && s[1..][j] == s[j + 1];
    }
  }

  /** A ranked list whose first F1 is below `v` holds no record with F1 `v`. */
  lemma {:induction false} NoneEqualBelowHead(s: seq<EvaluationRecord>, v: real)
    requires RankedByF1(s) && s != [] && s[0].f1 < v
    ensures WithF1(s, v) == []
  {
    if |s| > 1 {
      RankedTail(s);
      assert s[1].f1 <= s[0].f1;
      NoneEqualBelowHead(s[1..], v);
    }
  }

  /** Inserting keeps the records of each F1 in order, with `x` after those already there. */
  lemma {:induction false} InsertIsStable(s: seq<EvaluationRecord>, x: EvaluationRecord, v: real)
    requires RankedByF1(s)
    ensures WithF1(InsertByF1(s, x), v) == WithF1(s, v) + WithF1([x], v)
  {
    if s == [] {
      assert InsertByF1(s, x) == [x];
    } else if s[0].f1 >= x.f1 {
      RankedTail(s);
      InsertIsStable(s[1..], x, v);
      var head, tail := [s[0]], s[1..];
      WithF1Append(head, InsertByF1(tail, x), v);
      WithF1Append(head, tail, v);
      assert head + tail == s;
      calc {
        WithF1(InsertByF1(s, x), v);
        WithF1(head + InsertByF1(tail, x), v);
        WithF1(head, v) + WithF1(InsertByF1(tail, x), v);
        WithF1(head, v) + (WithF1(tail, v) + WithF1([x], v));
        (WithF1(head, v) + WithF1(tail, v)) + WithF1([x], v);
        WithF1(s, v) + WithF1([x], v);
      }
    } else {
      WithF1Append([x], s, v);
      assert InsertByF1(s, x) == [x] + s;
      if x.f1 == v {
        NoneEqualBelowHead(s, v);
      }
    }
  }

  /** The ranking is stable: for every F1 value, its records appear in their original order. */
  lemma {:induction false} RankIsStable(s: seq<EvaluationRecord>, v: real)
    ensures WithF1(RankByF1(s), v) == WithF1(s, v)
  {
    if s != [] {
      var init, last := s[..|s| - 1], s[|s| - 1];
      RankIsStable(init, v);
      RankIsRanked(init);
      InsertIsStable(RankByF1(init), last, v);
      WithF1Append(init, [last], v);
      assert s == init + [last];
    }
  }

  /** The first ranked record is one of the records, and no record has a higher F1. */
  lemma BestHasMaxF1(s: seq<EvaluationRecord>)
    requires s != []
    ensures RankByF1(s)[0] in s
    ensures forall i :: 0 <= i < |s| ==> s[i].f1 <= RankByF1(s)[0].f1
  {
    var r := RankByF1(s);
    RankPermutes(s);
    RankIsRanked(s);
    assert r[0] in multiset(r);
    forall i | 0 <= i < |s|
      ensures s[i].f1 <= r[0].f1
    {
      assert s[i] in multiset(r);
      var k :| 0 <= k < |r| && r[k] == s[i];
    }
  }

  lemma {:induction false} FirstWithF1(s: seq<EvaluationRecord>, k: nat)
    requires k < |s|
    requires forall j :: 0 <= j < k ==> s[j].f1 != s[k].f1
    ensures WithF1(s, s[k].f1) != [] && WithF1(s, s[k].f1)[0] == s[k]
  {
    if k > 0 {
      FirstWithF1(s[1..], k - 1);
    }
  }

  /**
   * Among records tied for the highest F1, the best is the one listed first:
   * ties keep the order in which the models were trained.
   */
  lemma BestIsFirstMaximum(s: seq<EvaluationRecord>, k: nat)
    requires k < |s|
    requires forall j :: 0 <= j < |s| ==> s[j].f1 <= s[k].f1
    requires forall j :: 0 <= j < k ==> s[j].f1 < s[k].f1
    ensures RankByF1(s)[0] == s[k]
  {
    var r := RankByF1(s);
    BestHasMaxF1(s);
    var top := r[0].f1;
    assert top == s[k].f1 by {
      var m :| 0 <= m < |s| && s[m] == r[0];
    }
    RankIsStable(s, top);
    FirstWithF1(s, k);
    FirstWithF1(r, 0);
  }

  // ---------------------------------------------------------------------------
  // The comparison run

  /** One train/test split and the library's fitting and AUC functions. */
  datatype Experiment = Experiment(
    xTrain: seq<string>, yTrain: seq<Bit>, xTest: seq<string>, yTest: seq<Bit>,
    learn: Learner, rocAuc: RocAuc)

  predicate ValidExperiment(e: Experiment) {
    |e.xTest| == |e.yTest| >= 1
  }

  /** The pipeline of the `i`-th listed model. */
  function PipelineAt(i: nat): Pipeline
    requires i < |AvailableModels|
  {
    AvailableModelsAccepted(i);
    GetModelPipeline(AvailableModels[i]).value
  }

  /** The `i`-th model once fitted on the training split. */
  function TrainedAt(e: Experiment, i: nat): FittedModel
    requires i < |AvailableModels|
  {
    FittedModel(PipelineAt(i), e.learn(PipelineAt(i), e.xTrain, e.yTrain))
  }

  /** Evaluating the `i`-th fitted model: its metrics record, or the AUC error. */
  function EvaluationAt(e: Experiment, i: nat): Result<EvaluationRecord, string>
    requires ValidExperiment(e) && i < |AvailableModels|
  {
    MakeRecord(AvailableModels[i], TrainedAt(e, i), e.xTest, e.yTest, e.rocAuc)
  }

  /** Every listed model has a score source, so each evaluation fails exactly on a one-class test split. */
  lemma EvaluationFailsOnOneClass(e: Experiment, i: nat)
    requires ValidExperiment(e) && i < |AvailableModels|
    ensures EvaluationAt(e, i).Err? <==> !BothClasses(e.yTest)
    ensures EvaluationAt(e, i).Err? ==> EvaluationAt(e, i).error == OneClassMessage
  {
    AvailableModelsAccepted(i);
    FactoryModelsHaveAuc(AvailableModels[i], TrainedAt(e, i).learned, e.xTest, e.yTest, e.rocAuc);
  }

  function RecordAt(e: Experiment, i: nat): EvaluationRecord
    requires ValidExperiment(e) && BothClasses(e.yTest) && i < |AvailableModels|
  {
    EvaluationFailsOnOneClass(e, i);
    EvaluationAt(e, i).value
  }

  /** The records in training order, before ranking. */
  function RecordsInOrder(e: Experiment): (r: seq<EvaluationRecord>)
    requires ValidExperiment(e) && BothClasses(e.yTest)
    ensures |r| == |AvailableModels|
    ensures forall i :: 0 <= i < |r| ==> r[i] == RecordAt(e, i)
  {
    seq(|AvailableModels|, i requires 0 <= i < |AvailableModels| => RecordAt(e, i))
  }

  /** A fitted pipeline as the API serves it: labels always, decision values when it has them. */
  function ServedModel(m: FittedModel): (p: TrainedModel)
    ensures p.decisionFunction.Some? <==> HasDecisionFunction(m.pipeline)
    ensures forall X :: p.predict(X) == Ok(m.learned.labels(X))
  {
    Predictor(X => Ok(m.learned.labels(X)),
              if HasDecisionFunction(m.pipeline) then Some(X => Ok(m.learned.decisionScores(X))) else None)
  }

  /** The two artifacts of one model: the fitted pipeline and its metrics record. */
  datatype Artifact = Artifact(modelName: string, model: TrainedModel, metrics: JsonObject)

  function ArtifactAt(e: Experiment, i: nat): Artifact
    requires ValidExperiment(e) && BothClasses(e.yTest) && i < |AvailableModels|
  {
    Artifact(AvailableModels[i], ServedModel(TrainedAt(e, i)), EncodeRecord(RecordAt(e, i)))
  }

  function ArtifactsInOrder(e: Experiment): (r: seq<Artifact>)
    requires ValidExperiment(e) && BothClasses(e.yTest)
    ensures |r| == |AvailableModels|
    ensures forall i :: 0 <= i < |r| ==> r[i] == ArtifactAt(e, i)
  {
    seq(|AvailableModels|, i requires 0 <= i < |AvailableModels| => ArtifactAt(e, i))
  }

  /** Storage after writing each artifact pair in turn; a later write to a path replaces an earlier one. */
  function Writes(store: FileStore, dir: Path, artifacts: seq<Artifact>): FileStore {
    if artifacts == [] then store
    else
      var last := artifacts[|artifacts| - 1];
      Writes(store, dir, artifacts[..|artifacts| - 1])
        [ModelArtifactPath(dir, last.modelName) := ModelFile(last.model)]
        [MetricsArtifactPath(dir, last.modelName) := JsonFile(JObject(last.metrics))]
  }

  function RankingJson(ranking: seq<EvaluationRecord>): Json {
    JArray(seq(|ranking|, i requires 0 <= i < |ranking| => JObject(EncodeRecord(ranking[i]))))
  }

  /** Storage after a whole run: every model's artifacts, then the ranked comparison. */
  function RunOutput(store: FileStore, dir: Path, e: Experiment): FileStore
    requires ValidExperiment(e) && BothClasses(e.yTest)
  {
    Writes(store, dir, ArtifactsInOrder(e))[ComparisonPath(dir) := JsonFile(RankingJson(RankByF1(RecordsInOrder(e))))]
  }

  /**
   * One iteration of the loop: build, fit and evaluate the `i`-th model; the
   * artifacts to write exist only once the evaluation succeeded.
   */
  method TrainOne(e: Experiment, i: nat) returns (record: Result<EvaluationRecord, string>, artifact: Option<Artifact>)
    requires ValidExperiment(e) && i < |AvailableModels|
    ensures record == EvaluationAt(e, i)
    ensures !BothClasses(e.yTest) ==> record == Err(OneClassMessage) && artifact == None
    ensures BothClasses(e.yTest) ==> record == Ok(RecordAt(e, i)) && artifact == Some(ArtifactAt(e, i))
  {
    var name := AvailableModels[i];
    AvailableModelsAccepted(i);
    var pipeline := GetModelPipeline(name);
    var model := new Estimator(pipeline.value);
    model.Fit(e.xTrain, e.yTrain, e.learn);
    record := model.EvaluateModel(e.xTrain, e.yTrain, e.xTest, e.yTest, name, e.learn, e.rocAuc);
    assert model.fits == 1;
    EvaluationFailsOnOneClass(e, i);
    if record.Err? {
      return record, None;
    }
    artifact := Some(Artifact(name, ServedModel(model.fitted.value), EncodeRecord(record.value)));
  }

  lemma PrefixGrows<T>(s: seq<T>, i: nat)
    requires i < |s|
    ensures s[..i + 1] == s[..i] + [s[i]]
  {
  }

  lemma WholePrefix<T>(s: seq<T>)
    ensures s[..|s|] == s
  {
  }

  /** One stored artifact pair more: what the loop body writes. */
  lemma WritesOneMore(store: FileStore, dir: Path, written: seq<Artifact>, a: Artifact)
    ensures Writes(store, dir, written + [a]) ==
      Writes(store, dir, written)[ModelArtifactPath(dir, a.modelName) := ModelFile(a.model)]
                                 [MetricsArtifactPath(dir, a.modelName) := JsonFile(JObject(a.metrics))]
  {
    assert (written + [a])[..|written|] == written;
  }

  /**
   * The loop of `main`: each listed model in order is trained, evaluated and
   * written out.  On a one-class test split the first evaluation raises,
   * before anything is written.
   */
  method TrainAll(e: Experiment, dir: Path, store: FileStore) returns (records: Result<seq<EvaluationRecord>, string>, files: FileStore)
    requires ValidExperiment(e)
    ensures !BothClasses(e.yTest) ==> records == Err(OneClassMessage) && files == store
    ensures BothClasses(e.yTest) ==> records == Ok(RecordsInOrder(e)) && files == Writes(store, dir, ArtifactsInOrder(e))
  {
    var done: seq<EvaluationRecord> := [];
    ghost var written: seq<Artifact> := [];
    files := store;
    var i := 0;
    while i < |AvailableModels|
      invariant 0 <= i <= |AvailableModels|
      invariant !BothClasses(e.yTest) ==> i == 0 && files == store
      invariant BothClasses(e.yTest) ==>
        && done == RecordsInOrder(e)[..i]
        && written == ArtifactsInOrder(e)[..i]
        && files == Writes(store, dir, written)
    {
      var record, artifact := TrainOne(e, i);
      if record.Err? {
        return Err(record.error), files;
      }
      PrefixGrows(RecordsInOrder(e), i);
      PrefixGrows(ArtifactsInOrder(e), i);
      var a := artifact.value;
      WritesOneMore(store, dir, written, a);
      done := done + [record.value];
      files := files[ModelArtifactPath(dir, a.modelName) := ModelFile(a.model)];
      files := files[MetricsArtifactPath(dir, a.modelName) := JsonFile(JObject(a.metrics))];
      written := written + [a];
      i := i + 1;
    }
    WholePrefix(RecordsInOrder(e));
    WholePrefix(ArtifactsInOrder(e));
    records := Ok(done);
  }

  /** What a finished comparison reports: the ranking and its first record. */
  datatype Comparison = Comparison(ranking: seq<EvaluationRecord>, best: EvaluationRecord)

  /**
   * `main` after the split: train, evaluate and write out every listed model,
   * then rank the records by F1, write the ranking and report the first.  On a
   * one-class test split it stops with the AUC error and storage is unchanged.
   */
  method TrainAndCompare(e: Experiment, dir: Path, store: FileStore) returns (r: Result<Comparison, string>, files: FileStore)
    requires ValidExperiment(e)
    ensures r.Err? <==> !BothClasses(e.yTest)
    ensures r.Err? ==> r.error == OneClassMessage && files == store
    ensures r.Ok? ==>
      && r.value.ranking == RankByF1(RecordsInOrder(e))
      && r.value.best == r.value.ranking[0]
      && files == RunOutput(store, dir, e)
  {
    var records;
    records, files := TrainAll(e, dir, store);
    if records.Err? {
      return Err(records.error), files;
    }
    var ranking := RankByF1(records.value);
    files := files[ComparisonPath(dir) := JsonFile(RankingJson(ranking))];
    r := Ok(Comparison(ranking, ranking[0]));
  }

  /** Paths of two artifact pairs that never coincide. */
  predicate PathsApart(dir: Path, a: string, b: string) {
    && ModelArtifactPath(dir, a) != ModelArtifactPath(dir, b)
    && ModelArtifactPath(dir, a) != MetricsArtifactPath(dir, b)
    && MetricsArtifactPath(dir, a) != ModelArtifactPath(dir, b)
    && MetricsArtifactPath(dir, a) != MetricsArtifactPath(dir, b)
  }

  /** The first pair written survives when no later pair shares a path with it. */
  lemma {:induction false} FirstArtifactKept(store: FileStore, dir: Path, artifacts: seq<Artifact>)
    requires artifacts != []
    requires ModelArtifactPath(dir, artifacts[0].modelName) != MetricsArtifactPath(dir, artifacts[0].modelName)
    requires forall k :: 1 <= k < |artifacts| ==> PathsApart(dir, artifacts[0].modelName, artifacts[k].modelName)
    ensures var files := Writes(store, dir, artifacts);
      && ModelArtifactPath(dir, artifacts[0].modelName) in files
      && files[ModelArtifactPath(dir, artifacts[0].modelName)] == ModelFile(artifacts[0].model)
      && MetricsArtifactPath(dir, artifacts[0].modelName) in files
      && files[MetricsArtifactPath(dir, artifacts[0].modelName)] == JsonFile(JObject(artifacts[0].metrics))
  {
    if |artifacts| > 1 {
      var init := artifacts[..|artifacts| - 1];
      assert init[0] == artifacts[0];
      assert PathsApart(dir, artifacts[0].modelName, artifacts[|artifacts| - 1].modelName);
      FirstArtifactKept(store, dir, init);
    } else {
      assert artifacts[..0] == [];
    }
  }

  /** The default load reads the first pair when it was written for linear_svc under `models`. */
  lemma DefaultLoadReadsFirst(store: FileStore, artifacts: seq<Artifact>, comparison: Blob)
    requires artifacts != [] && artifacts[0].modelName == "linear_svc"
    requires forall k :: 1 <= k < |artifacts| ==> PathsApart("models", "linear_svc", artifacts[k].modelName)
    ensures var files := Writes(store, "models", artifacts)[ComparisonPath("models") := comparison];
      && LoadModel(files, DefaultModelPath) == Ok(artifacts[0].model)
      && LoadMetrics(files, DefaultMetricsPath) == artifacts[0].metrics
  {
    DefaultArtifactsAreLinearSvc();
    ArtifactPathsDistinct("models", 0, 0);
    FirstArtifactKept(store, "models", artifacts);
  }

  /**
   * After a run into `models`, the API's default load finds the fitted
   * linear_svc pipeline, and its metrics record reads back intact.
   */
  lemma ServingFindsLinearSvc(store: FileStore, e: Experiment)
    requires ValidExperiment(e) && BothClasses(e.yTest)
    ensures var files := RunOutput(store, "models", e);
      && LoadModel(files, DefaultModelPath) == Ok(ServedModel(TrainedAt(e, 0)))
      && DecodeRecord(LoadMetrics(files, DefaultMetricsPath)) == Some(RecordAt(e, 0))
      && LoadedInfo(LoadMetrics(files, DefaultMetricsPath)).modelName == JString("linear_svc")
  {
    var artifacts := ArtifactsInOrder(e);
    assert artifacts[0] == ArtifactAt(e, 0);
    forall k | 1 <= k < |artifacts|
      ensures PathsApart("models", "linear_svc", artifacts[k].modelName)
    {
      assert artifacts[k].modelName == AvailableModels[k];
      ArtifactPathsDistinct("models", 0, k);
      ArtifactPathsDistinct("models", k, 0);
    }
    DefaultLoadReadsFirst(store, artifacts, JsonFile(RankingJson(RankByF1(RecordsInOrder(e)))));
    RecordRoundTrip(RecordAt(e, 0));
  }
}
