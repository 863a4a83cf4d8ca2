/** ExpressionRecognizer: accepts a face detector's sample when it is confident
    enough and differs enough from the last accepted one. The detector's
    sample is passed to Update. */
module ExpressionRecognition {
  import opened Options
  import opened Numeric
  import opened HumanExpressions

  datatype RecognizerConfig = RecognizerConfig(confidenceThreshold: real, expressionChangeThreshold: real)

  const DefaultRecognizerConfig := RecognizerConfig(0.5, 0.3)

  /** What Update finds: no detector, a detector without a sample (null), or
      a sample. */
  datatype Reading = NoDetector | NoSample | Sample(data: HumanExpressionData)

  datatype RecognizerState = RecognizerState(lastExpression: Option<HumanExpressionData>, currentExpression: ExpressionType)

  /** After Start: the last sample is a fresh record (Neutral, intensity 0),
      the current expression Neutral. */
  const StartedState := RecognizerState(Some(DefaultData), Neutral)

  /** HasExpressionChanged. */
  function HasExpressionChanged(cfg: RecognizerConfig, last: Option<HumanExpressionData>, sample: HumanExpressionData): bool
  {
    match last
    case None => true
    case Some(l) =>
      if sample.expressionType != l.expressionType then true
      else Abs(sample.intensity - l.intensity) > cfg.expressionChangeThreshold
  }

  /** A change is detected exactly when there is no last sample, the type
      differs, or the intensity moved by strictly more than the threshold. */
  lemma ChangeRule(cfg: RecognizerConfig, last: Option<HumanExpressionData>, sample: HumanExpressionData)
    ensures HasExpressionChanged(cfg, last, sample) <==>
      last.None? || sample.expressionType != last.value.expressionType
      || sample.intensity - last.value.intensity > cfg.expressionChangeThreshold
      || last.value.intensity - sample.intensity > cfg.expressionChangeThreshold
  {
  }

  /** A sample the recognizer takes. */
  predicate Accepted(cfg: RecognizerConfig, s: RecognizerState, reading: Reading)
  {
    reading.Sample? && reading.data.confidence >= cfg.confidenceThreshold
    && HasExpressionChanged(cfg, s.lastExpression, reading.data)
  }

  /** Update. */
  function RecognizeStep(cfg: RecognizerConfig, s: RecognizerState, reading: Reading): (r: RecognizerState)
  {
    if Accepted(cfg, s, reading) then RecognizerState(Some(reading.data), reading.data.expressionType) else s
  }

  /** The state changes only through an accepted sample, and then both fields
      take it; samples below the confidence threshold and frames without a
      detector or sample leave everything as it was. */
  lemma RecognizeRules(cfg: RecognizerConfig, s: RecognizerState, reading: Reading)
    ensures (reading.NoDetector? || reading.NoSample? || (reading.Sample? && reading.data.confidence < cfg.confidenceThreshold))
      ==> RecognizeStep(cfg, s, reading) == s
    ensures RecognizeStep(cfg, s, reading) != s ==>
              (reading.Sample?
               && RecognizeStep(cfg, s, reading).lastExpression == Some(reading.data)
               && RecognizeStep(cfg, s, reading).currentExpression == reading.data.expressionType)
  {
  }

  /** Feeding the same reading twice changes the state at most once. */
  lemma RecognizeIdempotent(cfg: RecognizerConfig, s: RecognizerState, reading: Reading)
    ensures RecognizeStep(cfg, RecognizeStep(cfg, s, reading), reading) == RecognizeStep(cfg, s, reading)
  {
  }

  /** The current expression stays Neutral until a non-Neutral sample is
      accepted: after Start, any run of readings with no accepted non-Neutral
      sample keeps it Neutral. */
  function RecognizeAll(cfg: RecognizerConfig, s: RecognizerState, readings: seq<Reading>): RecognizerState
    decreases |readings|
  {
    if readings == [] then s else RecognizeAll(cfg, RecognizeStep(cfg, s, readings[0]), readings[1..])
  }

  lemma {:induction false} NeutralUntilChange(cfg: RecognizerConfig, s: RecognizerState, readings: seq<Reading>)
    requires s.currentExpression == Neutral
    requires forall i :: 0 <= i < |readings| && readings[i].Sample? ==> readings[i].data.expressionType == Neutral
    ensures RecognizeAll(cfg, s, readings).currentExpression == Neutral
    decreases |readings|
  {
    if readings != [] {
      NeutralUntilChange(cfg, RecognizeStep(cfg, s, readings[0]), readings[1..]);
    }
  }

  /** Right after Start a Neutral sample within the threshold of intensity 0
      is not a change. */
  lemma QuietNeutralIsIgnoredAfterStart(cfg: RecognizerConfig, sample: HumanExpressionData)
    requires sample.expressionType == Neutral && 0.0 <= sample.intensity <= cfg.expressionChangeThreshold
    ensures RecognizeStep(cfg, StartedState, Sample(sample)) == StartedState
  {
  }

  class ExpressionRecognizer {
    const config: RecognizerConfig
    var lastExpression: Option<HumanExpressionData>
    var currentExpression: ExpressionType

    function State(): RecognizerState
      reads this
    {
      RecognizerState(lastExpression, currentExpression)
    }

    /** The component after Start. */
    constructor(cfg: RecognizerConfig)
      ensures config == cfg && State() == StartedState
    {
      config := cfg;
      lastExpression := Some(DefaultData);
      currentExpression := Neutral;
    }

    method Update(reading: Reading)
      modifies this
      ensures State() == RecognizeStep(config, old(State()), reading)
    {
      if reading.NoDetector? || reading.NoSample? {
        return;
      }
      var expressionData := reading.data;
      if expressionData.confidence >= config.confidenceThreshold {
        var changed := HasExpressionChanged(config, lastExpression, expressionData);
        if changed {
          currentExpression := expressionData.expressionType;
          lastExpression := Some(expressionData);
        }
      }
    }

    method GetCurrentExpression() returns (e: ExpressionType)
      ensures e == State().currentExpression
    {
      e := currentExpression;
    }
  }
}
