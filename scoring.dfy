/**
 * Turning the positive-class probability into the returned prediction
 * (model_loader.py, lines 82-90). Probabilities and thresholds are reals.
 */
module Scoring {

  const Oui: string := "Oui"
  const Non: string := "Non"

  /** The dictionary `predict` returns: keys `prediction` and `confidence_score`. */
  datatype Prediction = Prediction(prediction: string, confidenceScore: real)

  /** Line 82: the class chosen with the model's optimal threshold. */
  function Label(proba: real, threshold: real): (chosen: string)
    ensures chosen in {Oui, Non}
  {
    if proba >= threshold then Oui else Non
  }

  /** Line 85: the probability of the class that was chosen. */
  function Confidence(chosen: string, proba: real): (c: real)
    ensures 0.0 <= proba <= 1.0 ==> 0.0 <= c <= 1.0
  {
    if chosen == Oui then proba else 1.0 - proba
  }

  /** Lines 82-90 together. */
  function Decide(proba: real, threshold: real): (p: Prediction)
    ensures p.prediction in {Oui, Non}
    ensures 0.0 <= proba <= 1.0 ==> 0.0 <= p.confidenceScore <= 1.0
  {
    var chosen := Label(proba, threshold);
    Prediction(chosen, Confidence(chosen, proba))
  }

  /** The label is one of the two class names, and they differ. */
  lemma LabelIsOuiOrNon(proba: real, threshold: real)
    ensures Decide(proba, threshold).prediction in {Oui, Non}
    ensures Oui != Non
  {
  }

  /** `Oui` exactly when the probability reaches the threshold, `Non` exactly when it does not. */
  lemma LabelFollowsThreshold(proba: real, threshold: real)
    ensures Decide(proba, threshold).prediction == Oui <==> proba >= threshold
    ensures Decide(proba, threshold).prediction == Non <==> proba < threshold
  {
  }

  /** The confidence is the probability for `Oui` and its complement for `Non`. */
  lemma ConfidenceOfLabel(proba: real, threshold: real)
    ensures var p := Decide(proba, threshold);
      && (p.prediction == Oui ==> p.confidenceScore == proba)
      && (p.prediction == Non ==> p.confidenceScore == 1.0 - proba)
  {
  }

  /** A probability gives a confidence that is itself in [0, 1]. */
  lemma ConfidenceInUnitInterval(proba: real, threshold: real)
    requires 0.0 <= proba <= 1.0
    ensures 0.0 <= Decide(proba, threshold).confidenceScore <= 1.0
  {
  }

  /** The probability can be read back from the returned label and confidence. */
  lemma ProbabilityRecoverable(proba: real, threshold: real)
    ensures var p := Decide(proba, threshold);
      proba == if p.prediction == Oui then p.confidenceScore else 1.0 - p.confidenceScore
  {
  }

  /**
   * The confidence is never below the threshold for `Oui`, and always above
   * the complement of the threshold for `Non`.
   */
  lemma ConfidenceMargin(proba: real, threshold: real)
    ensures var p := Decide(proba, threshold);
      && (p.prediction == Oui ==> p.confidenceScore >= threshold)
      && (p.prediction == Non ==> p.confidenceScore > 1.0 - threshold)
  {
  }

  /** A higher probability never turns `Oui` into `Non`. */
  lemma LabelMonotone(p1: real, p2: real, threshold: real)
    requires p1 <= p2
    requires Decide(p1, threshold).prediction == Oui
    ensures Decide(p2, threshold).prediction == Oui
  {
  }
}
