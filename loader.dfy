/**
 * The `ModelLoader` object (model_loader.py, lines 17-94): its fields, the
 * loading of the saved bundle, and `predict`.
 */
module Loader {
  import opened Wrappers
  import opened Features
  import opened Scoring

  /**
   * The trained pipeline, seen only through `predict_proba`: for one aligned
   * row it gives the probability of the positive class, or `None` when the
   * call raises.
   */
  datatype Pipeline = Pipeline(predictProba: seq<Value> -> Option<real>)

  /** The training configuration saved with the pipeline; `predict` never reads it. */
  datatype Config = Config(settings: map<string, Value>)

  /**
   * The dictionary saved in the model file. Each entry is `None` when its key
   * is absent.
   */
  datatype Bundle = Bundle(
    pipeline: Option<Pipeline>,
    config: Option<Config>,
    featureNames: Option<seq<string>>,
    optimalThreshold: Option<real>)

  /**
   * Why `joblib.load` raises: `FileNotFoundError` (the file vanished after
   * the existence test, or a file it refers to is missing), or anything else.
   */
  datatype ReadError = NoSuchFile | Unreadable

  /** How `load_model` ends: normally, with `FileNotFoundError`, or with `RuntimeError`. */
  datatype LoadOutcome = Loaded | FileNotFound | LoadFailed

  /** Why `predict` raises. */
  datatype PredictError =
    | NotLoaded          // the readiness check, lines 63-64
    | FeatureNamesUnset  // iterating a `None` feature list at line 70
    | ScoringFailed      // `predict_proba` raised; re-raised at lines 92-94
    | ThresholdUnset     // comparing with a `None` threshold at line 82; re-raised

  const DefaultModelPath: string := "models/xgboost_pipeline.joblib"

  /**
   * How many of the keys `pipeline`, `config`, `feature_names`,
   * `optimal_threshold` are read, in that order, before the first absent one
   * (lines 40-43 assign them one after the other).
   */
  function LeadingKeys(b: Bundle): (n: nat)
    ensures n <= 4
    ensures n == 4 <==>
      b.pipeline.Some? && b.config.Some? && b.featureNames.Some? && b.optimalThreshold.Some?
    ensures n >= 1 <==> b.pipeline.Some?
  {
    if b.pipeline.None? then 0
    else if b.config.None? then 1
    else if b.featureNames.None? then 2
    else if b.optimalThreshold.None? then 3
    else 4
  }

  /**
   * Reference definition of `predict` (lines 59-94) over the loader's fields.
   */
  function Score(
    pipeline: Option<Pipeline>,
    featureNames: Option<seq<string>>,
    threshold: Option<real>,
    features: FeatureMap): (r: Result<Prediction, PredictError>)
    ensures pipeline.None? ==> r == Err(NotLoaded)
    ensures r.Ok? ==> pipeline.Some? && featureNames.Some? && threshold.Some?
  {
    if pipeline.None? then Err(NotLoaded)
    else if featureNames.None? then Err(FeatureNamesUnset)
    else
      var proba := pipeline.value.predictProba(AlignedRow(features, featureNames.value));
      if proba.None? then Err(ScoringFailed)
      else if threshold.None? then Err(ThresholdUnset)
      else Ok(Decide(proba.value, threshold.value))
  }

  class ModelLoader {
    var modelPath: string
    var pipeline: Option<Pipeline>
    var config: Option<Config>
    var featureNames: Option<seq<string>>
    var optimalThreshold: Option<real>

    /** Lines 18-23: nothing is loaded yet. */
    constructor (path: string := DefaultModelPath)
      ensures modelPath == path
      ensures pipeline == None && config == None
      ensures featureNames == None && optimalThreshold == None
    {
      modelPath := path;
      pipeline := None;
      config := None;
      featureNames := None;
      optimalThreshold := None;
    }

    /** The readiness gate of `predict` (line 63). */
    predicate IsLoaded()
      reads this
    {
      pipeline.Some?
    }

    /**
     * Lines 25-57. `fileExists` is the existence test of line 28 and
     * `contents` what `joblib.load` returns or raises (line 37). A
     * `FileNotFoundError` is re-raised as it is (lines 48-50); every other
     * error, including a `KeyError` for an absent bundle key, becomes a
     * `RuntimeError` (lines 52-57). The fields are assigned one by one, so a
     * bundle that lacks a later key leaves the earlier fields assigned.
     */
    method LoadModel(fileExists: bool, contents: Result<Bundle, ReadError>) returns (outcome: LoadOutcome)
      modifies this
      ensures modelPath == old(modelPath)
      ensures !fileExists ==> outcome == FileNotFound
      ensures fileExists && contents == Err(NoSuchFile) ==> outcome == FileNotFound
      ensures fileExists && contents == Err(Unreadable) ==> outcome == LoadFailed
      ensures fileExists && contents.Ok? ==>
        outcome == if LeadingKeys(contents.value) == 4 then Loaded else LoadFailed
      ensures var n := if fileExists && contents.Ok? then LeadingKeys(contents.value) else 0;
        && pipeline == (if n >= 1 then contents.value.pipeline else old(pipeline))
        && config == (if n >= 2 then contents.value.config else old(config))
        && featureNames == (if n >= 3 then contents.value.featureNames else old(featureNames))
        && optimalThreshold == (if n >= 4 then contents.value.optimalThreshold else old(optimalThreshold))
      ensures outcome == Loaded ==> IsLoaded() && featureNames.Some? && optimalThreshold.Some?
    {
      if !fileExists {
        return FileNotFound;
      }
      if contents.Err? {
        return if contents.error == NoSuchFile then FileNotFound else LoadFailed;
      }
      var b := contents.value;
      if b.pipeline.None? {
        return LoadFailed;
      }
      pipeline := b.pipeline;
      if b.config.None? {
        return LoadFailed;
      }
      config := b.config;
      if b.featureNames.None? {
        return LoadFailed;
      }
      featureNames := b.featureNames;
      if b.optimalThreshold.None? {
        return LoadFailed;
      }
      optimalThreshold := b.optimalThreshold;
      return Loaded;
    }

    /**
     * Lines 59-94. Changes no field; the result is what `Score` gives for the
     * loader's fields and the input.
     */
    method Predict(features: FeatureMap) returns (result: Result<Prediction, PredictError>)
      ensures result == Score(pipeline, featureNames, optimalThreshold, features)
      ensures !IsLoaded() ==> result == Err(NotLoaded)
      ensures result.Ok? ==> IsLoaded() && featureNames.Some? && optimalThreshold.Some?
    {
      if pipeline.None? {
        return Err(NotLoaded);
      }
      if featureNames.None? {
        return Err(FeatureNamesUnset);
      }
      var row := AlignFeatures(features, featureNames.value);
      var proba := pipeline.value.predictProba(row);
      if proba.None? {
        return Err(ScoringFailed);
      }
      if optimalThreshold.None? {
        return Err(ThresholdUnset);
      }
      return Ok(Decide(proba.value, optimalThreshold.value));
    }
  }

  /** A loader that has not been loaded refuses to predict (lines 18-23, 63-64). */
  method FreshLoaderRefuses(features: FeatureMap) returns (result: Result<Prediction, PredictError>)
    ensures result == Err(NotLoaded)
  {
    var loader := new ModelLoader();
    result := loader.Predict(features);
  }

  /**
   * After a successful load, `predict` scores with the bundle's pipeline,
   * feature names and threshold.
   */
  method LoadThenPredict(path: string, b: Bundle, features: FeatureMap)
    returns (outcome: LoadOutcome, result: Result<Prediction, PredictError>)
    requires LeadingKeys(b) == 4
    ensures outcome == Loaded
    ensures result == Score(b.pipeline, b.featureNames, b.optimalThreshold, features)
  {
    var loader := new ModelLoader(path);
    outcome := loader.LoadModel(true, Ok(b));
    result := loader.Predict(features);
  }

  /**
   * A bundle without `feature_names` makes `load_model` fail after it has
   * assigned `pipeline`; `predict` then passes the readiness check and
   * raises on the missing feature list instead of scoring.
   */
  method PartialLoadNeverScores(p: Pipeline, c: Config, t: real, features: FeatureMap)
    returns (outcome: LoadOutcome, loaded: bool, result: Result<Prediction, PredictError>)
    ensures outcome == LoadFailed
    ensures loaded
    ensures result == Err(FeatureNamesUnset)
  {
    var loader := new ModelLoader();
    outcome := loader.LoadModel(true, Ok(Bundle(Some(p), Some(c), None, Some(t))));
    loaded := loader.IsLoaded();
    result := loader.Predict(features);
  }

  /**
   * A bundle without `config` makes `load_model` fail right after it has
   * assigned `pipeline`; `predict` then passes the readiness check and
   * raises on the still unset feature list instead of scoring.
   */
  method ConfiglessLoadNeverScores(p: Pipeline, names: seq<string>, t: real, features: FeatureMap)
    returns (outcome: LoadOutcome, loaded: bool, result: Result<Prediction, PredictError>)
    ensures outcome == LoadFailed
    ensures loaded
    ensures result == Err(FeatureNamesUnset)
  {
    var loader := new ModelLoader();
    outcome := loader.LoadModel(true, Ok(Bundle(Some(p), None, Some(names), Some(t))));
    loaded := loader.IsLoaded();
    result := loader.Predict(features);
  }

  /**
   * A bundle without `optimal_threshold` fails to load after the other three
   * fields are assigned; `predict` then runs the pipeline on the aligned row
   * and raises only when it compares with the missing threshold.
   */
  method ThresholdlessLoadRunsPipeline(
    p: Pipeline, c: Config, names: seq<string>, features: FeatureMap)
    returns (outcome: LoadOutcome, result: Result<Prediction, PredictError>)
    ensures outcome == LoadFailed
    ensures result == if p.predictProba(AlignedRow(features, names)).Some?
                      then Err(ThresholdUnset) else Err(ScoringFailed)
  {
    var loader := new ModelLoader();
    outcome := loader.LoadModel(true, Ok(Bundle(Some(p), Some(c), Some(names), None)));
    result := loader.Predict(features);
  }

  /**
   * A reload that stops at the absent `optimal_threshold` keeps the earlier
   * threshold beside the new pipeline and feature names, and `predict` then
   * scores with that mixture.
   */
  method FailedReloadMixesFields(
    path: string, a: Bundle, pb: Pipeline, cb: Config, nb: seq<string>, features: FeatureMap)
    returns (first: LoadOutcome, second: LoadOutcome, result: Result<Prediction, PredictError>)
    requires LeadingKeys(a) == 4
    ensures first == Loaded && second == LoadFailed
    ensures result == Score(Some(pb), Some(nb), a.optimalThreshold, features)
    ensures pb.predictProba(AlignedRow(features, nb)).Some? ==>
      result == Ok(Decide(pb.predictProba(AlignedRow(features, nb)).value, a.optimalThreshold.value))
  {
    var loader := new ModelLoader(path);
    first := loader.LoadModel(true, Ok(a));
    second := loader.LoadModel(true, Ok(Bundle(Some(pb), Some(cb), Some(nb), None)));
    result := loader.Predict(features);
  }

  /** Two calls with the same input give the same answer (unit tests 79-98, 254-275). */
  method PredictIsReproducible(loader: ModelLoader, features: FeatureMap)
    returns (r1: Result<Prediction, PredictError>, r2: Result<Prediction, PredictError>)
    ensures r1 == r2
  {
    r1 := loader.Predict(features);
    r2 := loader.Predict(features);
  }

  /** Without a pipeline the answer is the not-loaded error, whatever the rest. */
  lemma NotLoadedIgnoresEverythingElse(
    names1: Option<seq<string>>, t1: Option<real>, f1: FeatureMap,
    names2: Option<seq<string>>, t2: Option<real>, f2: FeatureMap)
    ensures Score(None, names1, t1, f1) == Err(NotLoaded)
    ensures Score(None, names1, t1, f1) == Score(None, names2, t2, f2)
  {
  }

  /**
   * `predict` succeeds exactly when the three fields are set and the
   * pipeline scores the aligned row, and then its answer is the thresholded
   * probability: no default prediction stands in for a failure.
   */
  lemma ScoreOkIff(
    pipeline: Option<Pipeline>, featureNames: Option<seq<string>>,
    threshold: Option<real>, features: FeatureMap)
    ensures Score(pipeline, featureNames, threshold, features).Ok? <==>
      && pipeline.Some? && featureNames.Some? && threshold.Some?
      && pipeline.value.predictProba(AlignedRow(features, featureNames.value)).Some?
    ensures Score(pipeline, featureNames, threshold, features).Ok? ==>
      Score(pipeline, featureNames, threshold, features).value == Decide(
        pipeline.value.predictProba(AlignedRow(features, featureNames.value)).value,
        threshold.value)
  {
  }

  /**
   * The label of a successful prediction follows the threshold rule, and a
   * probability in [0, 1] gives a confidence in [0, 1].
   */
  lemma ScoreLabelAndConfidence(
    pipeline: Pipeline, names: seq<string>, threshold: real, features: FeatureMap)
    requires Score(Some(pipeline), Some(names), Some(threshold), features).Ok?
    ensures var proba := pipeline.predictProba(AlignedRow(features, names)).value;
      var p := Score(Some(pipeline), Some(names), Some(threshold), features).value;
      && (p.prediction == Oui <==> proba >= threshold)
      && (p.prediction == Non <==> proba < threshold)
      && p.confidenceScore == (if p.prediction == Oui then proba else 1.0 - proba)
      && (0.0 <= proba <= 1.0 ==> 0.0 <= p.confidenceScore <= 1.0)
  {
  }

  /** An input key that is not an expected feature does not change the answer. */
  lemma UnknownKeyDoesNotChangeScore(
    pipeline: Option<Pipeline>, names: seq<string>, threshold: Option<real>,
    features: FeatureMap, k: string, v: Value)
    requires k !in names
    ensures Score(pipeline, Some(names), threshold, features[k := v])
         == Score(pipeline, Some(names), threshold, features)
  {
    UnknownKeyIsDropped(features, names, k, v);
  }

  /**
   * Inputs that agree on every expected name, present or missing, get the
   * same answer.
   */
  lemma ScoreDependsOnlyOnExpected(
    pipeline: Option<Pipeline>, names: seq<string>, threshold: Option<real>,
    f1: FeatureMap, f2: FeatureMap)
    requires forall n :: n in names ==> Cell(f1, n) == Cell(f2, n)
    ensures Score(pipeline, Some(names), threshold, f1) == Score(pipeline, Some(names), threshold, f2)
  {
    SameRowIff(f1, f2, names);
  }

  /**
   * The empty mapping is scored on the all-missing row; it fails only if
   * the pipeline itself does.
   */
  lemma EmptyInputIsScored(pipeline: Pipeline, names: seq<string>, threshold: real)
    ensures var row := seq(|names|, _ => Missing);
      Score(Some(pipeline), Some(names), Some(threshold), map[])
        == if pipeline.predictProba(row).Some?
           then Ok(Decide(pipeline.predictProba(row).value, threshold))
           else Err(ScoringFailed)
  {
    EmptyInputAlignsToMissing(names);
  }
}
