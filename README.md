# ModelLoader scoring model

This project models the scoring core of a small prediction service for
employee attrition: the `ModelLoader` object in `model_loader.py`. The loader
holds a trained pipeline, the ordered list of feature names the pipeline
expects and an optimal decision threshold. Its `predict` turns a feature
mapping into one aligned row, asks the pipeline for the probability of the
positive class, and answers with a label (`"Oui"` or `"Non"`) and a
confidence score.

Modules:

- `Wrappers` (`wrappers.dfy`): `Option` (Python `None`) and `Result` (a raised exception).
- `Features` (`features.dfy`): feature values with a `Missing` case, the
  reference row `AlignedRow`, and the imperative alignment of lines 67-75:
  `FillMissing` is the loop that adds missing columns, `AlignFeatures` adds
  the column selection.
- `Scoring` (`scoring.dfy`): `Label`, `Confidence` and `Decide` (lines
  82-90), with lemmas on the threshold rule and confidence.
- `Loader` (`loader.dfy`): the `ModelLoader` class with its fields, its
  constructor, `LoadModel` and `Predict`; `Score` is the reference
  definition of `predict` over the fields, and lemmas state its properties;
  small client methods show the loader's life cycle.

The pipeline is a value wrapping a total function from an aligned row to
`Option<real>`: the positive-class probability, or `None` when
`predict_proba` raises. Probabilities and thresholds are reals.

The intended behaviour of the service is that a scorer whose load failed
stays unloaded, so that every scoring request fails before any inference;
that the threshold and the confidence lie in [0, 1]; and that `predict`
reports the threshold it used. Where the code differs, the model follows
the code:

- `load_model` assigns `pipeline`, `config`, `feature_names` and
  `optimal_threshold` one after the other (lines 40-43), and a failure
  part-way leaves the fields assigned so far in place.
  - On a fresh loader, a bundle that lacks `config` or `feature_names`
    leaves `pipeline` set: `predict` passes its readiness check (line 63)
    and raises a `TypeError` when it iterates the `None` feature list
    (line 70). `PartialLoadNeverScores` states the `feature_names` case and
    `ConfiglessLoadNeverScores` the `config` case.
  - On a fresh loader, a bundle that lacks only `optimal_threshold` leaves
    the other three set: `predict` runs the pipeline (line 79) and raises
    only at the comparison of line 82. Inference is attempted.
    `ThresholdlessLoadRunsPipeline` states this.
  - On a loader that was loaded before, a reload that fails part-way mixes
    new and old fields. A reload whose bundle lacks `optimal_threshold`
    keeps the old threshold beside the new pipeline and feature names, and
    `predict` returns a prediction computed from that mixture.
    `FailedReloadMixesFields` states this.
- The code checks neither the threshold nor the probability against [0, 1].
  The model proves the confidence bound only when the probability is in
  [0, 1].
- The unit and functional tests expect `threshold_used` and `probability`
  keys. `predict` returns only `prediction` and `confidence_score` (lines
  87-90), so the model's `Prediction` has only those two.

## Model

| member | source | states |
|---|---|---|
| `Features.Cell` | model_loader.py:70-72 | defines the value one expected column takes: the input's value when the name is a key, the missing value otherwise |
| `Features.AlignedRow` | model_loader.py:67-75 | the aligned row has one entry per expected name, in order; entry j is the input's value for name j, or the missing value when the name is absent |
| `Features.FillMissing` | model_loader.py:67-72 | after the loop the frame's columns are the input's keys plus every expected name; input values are unchanged and every added column holds the missing value |
| `Features.AlignFeatures` | model_loader.py:67-75 | the selected row has exactly one entry per expected name, in order; an entry present in the input is passed through unchanged, an absent one is missing; it equals the reference row |
| `Features.EmptyInputAlignsToMissing` | model_loader.py:70-72 | an empty mapping is not an error: it aligns to a row of missing values, one per expected name |
| `Features.UnknownKeyIsDropped` | model_loader.py:74-75 | adding or changing a key that is not an expected name leaves the row unchanged |
| `Features.OnlyExpectedKeysMatter` | model_loader.py:75 | the row equals the row of the input restricted to the expected names |
| `Features.SameRowIff` | model_loader.py:67-75 | two inputs give the same row if and only if they agree, present or missing, on every expected name |
| `Scoring.Label` | model_loader.py:82 | defines the label: `"Oui"` when the probability reaches the threshold, otherwise `"Non"`; it is always one of the two |
| `Scoring.Confidence` | model_loader.py:85 | defines the confidence of a label: the probability for `"Oui"`, its complement otherwise; it is in [0, 1] when the probability is |
| `Scoring.Decide` | model_loader.py:82-90 | defines the returned prediction from the probability and threshold; its label is one of the two names and its confidence is in [0, 1] when the probability is |
| `Scoring.LabelIsOuiOrNon` | model_loader.py:82 | the label is always `"Oui"` or `"Non"`, and the two differ |
| `Scoring.LabelFollowsThreshold` | model_loader.py:82 | the label is `"Oui"` exactly when the probability is at least the threshold, and `"Non"` exactly when it is below |
| `Scoring.ConfidenceOfLabel` | model_loader.py:85 | the confidence is the probability for `"Oui"` and one minus the probability for `"Non"` |
| `Scoring.ConfidenceInUnitInterval` | model_loader.py:85-89 | a probability in [0, 1] gives a confidence in [0, 1] |
| `Scoring.ProbabilityRecoverable` | model_loader.py:82-85 | the probability is recovered from the returned label and confidence |
| `Scoring.ConfidenceMargin` | model_loader.py:82-85 | a `"Oui"` confidence is at least the threshold; a `"Non"` confidence exceeds one minus the threshold |
| `Scoring.LabelMonotone` | model_loader.py:82 | raising the probability never turns `"Oui"` into `"Non"` |
| `Loader.LeadingKeys` | model_loader.py:40-43 | counts the bundle keys read before the first absent one; it is 4 exactly when all four keys are present |
| `Loader.Score` | model_loader.py:59-94 | reference definition of `predict` over the loader's fields: the readiness check, the feature-list iteration, the pipeline call on the aligned row, the threshold comparison, then the decision; no pipeline gives `NotLoaded`, and a success needs all three fields set |
| `Loader.ModelLoader.IsLoaded` | model_loader.py:63 | defines readiness as a pipeline being set |
| `Loader.ModelLoader.constructor` | model_loader.py:18-23 | the model path is stored and the four fields start unset |
| `Loader.ModelLoader.LoadModel` | model_loader.py:25-57 | a missing file, or a `FileNotFoundError` from the read, gives `FileNotFound`; any other failing read gives `LoadFailed`; in these cases the fields are unchanged; otherwise the fields are assigned in order up to the first absent key, and the outcome is `Loaded` exactly when all four keys are present, which makes the loader ready |
| `Loader.ModelLoader.Predict` | model_loader.py:59-94 | changes no field; refuses with `NotLoaded` when no pipeline is set; returns the reference answer `Score` for the fields and input, and a success only when all three fields are set |
| `Loader.FreshLoaderRefuses` | model_loader.py:18-64 | a freshly constructed loader answers every input with `NotLoaded` |
| `Loader.LoadThenPredict` | model_loader.py:37-94 | after loading a complete bundle, the outcome is `Loaded` and `predict` scores with the bundle's pipeline, feature names and threshold |
| `Loader.PartialLoadNeverScores` | model_loader.py:40-72 | a bundle without `feature_names` fails to load but leaves the loader ready; `predict` then raises on the missing feature list and does not score |
| `Loader.ConfiglessLoadNeverScores` | model_loader.py:40-72 | a bundle without `config` fails to load but leaves the loader ready; `predict` then raises on the unset feature list and does not score |
| `Loader.ThresholdlessLoadRunsPipeline` | model_loader.py:40-94 | a bundle without `optimal_threshold` fails to load; `predict` then runs the pipeline on the aligned row and raises `ThresholdUnset` at the comparison, or `ScoringFailed` if the pipeline raised first |
| `Loader.FailedReloadMixesFields` | model_loader.py:40-94 | after a complete load, a reload lacking `optimal_threshold` fails, yet `predict` scores with the new pipeline and feature names and the old threshold |
| `Loader.PredictIsReproducible` | tests/unit/test_model_loader.py:79-98 | two calls with the same input on the same loader give the same label and confidence: `predict` changes no field and adds no nondeterminism of its own; the pipeline is modelled as a function of the row, so the pipeline's own determinism is assumed, not proved |
| `Loader.NotLoadedIgnoresEverythingElse` | model_loader.py:63-64 | without a pipeline the answer is `NotLoaded`, whatever the other fields and the input are |
| `Loader.ScoreOkIff` | model_loader.py:77-94 | `predict` succeeds exactly when the three fields are set and the pipeline scores the aligned row, and then answers the thresholded probability; a scoring failure is never replaced by a default prediction |
| `Loader.ScoreLabelAndConfidence` | model_loader.py:82-89 | on success the label is `"Oui"` iff the pipeline's probability reaches the threshold, the confidence is that probability or its complement, and it lies in [0, 1] when the probability does |
| `Loader.UnknownKeyDoesNotChangeScore` | model_loader.py:67-79 | an input key that is not an expected feature does not change the answer |
| `Loader.ScoreDependsOnlyOnExpected` | model_loader.py:67-79 | inputs that agree on every expected name get the same answer |
| `Loader.EmptyInputIsScored` | model_loader.py:67-79 | the empty mapping is scored on the all-missing row and fails only when the pipeline itself fails |

## Left out

- File system access in `load_model` (lines 28 and 37): the existence test and the result of `joblib.load` (a bundle, a `FileNotFoundError`, or another error) are parameters of `LoadModel`.
- `pipeline.predict_proba` (line 79): a foreign classifier call, modelled as an opaque function from the aligned row to a probability or a failure; picking element `[0, 1]` of its output is folded into that function. Modelling it as a function assumes the classifier is deterministic. The function sees only the values of the selected row, not the column labels the real DataFrame carries, so the model makes the pipeline's answer independent of the feature names; this matters only when a pipeline meets a feature list from another bundle, as after a reload that fails at `feature_names`.
- IEEE floating point and the `float(...)` conversion (line 89): probabilities, thresholds and confidences are reals.
- pandas DataFrame mechanics (lines 67-75): the one-row frame is a map from column name to value; column order inside the frame and the dtype pandas gives a `None` column are not modelled, and neither is a non-mapping or nested input.
- Bundle entries that are present but hold the wrong kind of value (for example `feature_names` set to `None`, or a value `len` cannot measure at line 45): each bundle key is either absent or holds a value of the expected type.
- Logging (lines 34, 45-46, 49, 53, 93) and the text of error messages.
- The module-level instance `model_loader` (line 97): a shared mutable global; the client methods construct their own loader.
- The web service, database, offline scripts and tests around this class: they are I/O and routing glue, and nothing in them is part of this model apart from the reproducibility unit test.
