/** WebCamFaceProvider's analysis: a score classified into an expression,
    confidence and intensity clamped into [0,1], and a stability rule deciding
    whether a new reading replaces the current one. The score and the two
    noise terms come from the clock and Random and are passed in. */
module WebCamAnalysis {
  import opened Options
  import opened Numeric
  import opened HumanExpressions

  datatype ProviderConfig = ProviderConfig(
    expressionChangeThreshold: real,
    useBasicAnalysis: bool,
    expressionStabilityTime: real)

  const DefaultProviderConfig := ProviderConfig(0.2, true, 0.3)

  /** AnalyzeBasicExpression's mapping of the combined score, first match wins. */
  function ClassifyScore(combined: real): ExpressionType
  {
    if combined > 0.5 then Happy
    else if combined < -0.5 then Sad
    else if Abs(combined) < 0.2 then Neutral
    else if combined > 0.3 then Excited
    else Surprised
  }

  /** The score bands each expression covers. */
  lemma ScoreBands(c: real)
    ensures ClassifyScore(c) == Happy <==> c > 0.5
    ensures ClassifyScore(c) == Sad <==> c < -0.5
    ensures ClassifyScore(c) == Neutral <==> -0.2 < c < 0.2
    ensures ClassifyScore(c) == Excited <==> 0.3 < c <= 0.5
    ensures ClassifyScore(c) == Surprised <==> (0.2 <= c <= 0.3 || -0.5 <= c <= -0.2)
  {
  }

  /** AnalyzeExpression: Neutral whenever basic analysis is off. */
  function AnalyzeExpression(cfg: ProviderConfig, combined: real): (r: ExpressionType)
    ensures !cfg.useBasicAnalysis ==> r == Neutral
    ensures cfg.useBasicAnalysis ==> r == ClassifyScore(combined)
  {
    if !cfg.useBasicAnalysis then Neutral else ClassifyScore(combined)
  }

  /** CalculateConfidence with its random offset as `noise`. */
  function CalculateConfidence(isCameraReady: bool, noise: real): (r: real)
    ensures InUnit(r)
    ensures -0.1 <= noise <= 0.1 ==> (if isCameraReady then 0.6 <= r <= 0.8 else 0.2 <= r <= 0.4)
  {
    Clamp01((if isCameraReady then 0.7 else 0.3) + noise)
  }

  /** CalculateIntensity with its random offset as `noise`. */
  function CalculateIntensity(noise: real): (r: real)
    ensures InUnit(r)
    ensures -0.2 <= noise <= 0.3 ==> 0.3 <= r <= 0.8
  {
    Clamp01(0.5 + noise)
  }

  datatype ProviderState = ProviderState(
    currentExpression: Option<HumanExpressionData>,
    lastDetectedExpression: ExpressionType,
    lastExpressionChangeTime: real)

  const InitialProviderState := ProviderState(None, Neutral, 0.0)

  /** ShouldUpdateExpression. */
  function ShouldUpdateExpression(cfg: ProviderConfig, s: ProviderState, newExpression: ExpressionType, intensity: real, now: real): bool
  {
    if newExpression != s.lastDetectedExpression then true
    else if now - s.lastExpressionChangeTime > cfg.expressionStabilityTime then true
    else if s.currentExpression.Some? then Abs(intensity - s.currentExpression.value.intensity) > cfg.expressionChangeThreshold
    else false
  }

  /** An update is refused exactly when the type is unchanged, the stability
      time has not passed, and the intensity is within the threshold of the
      current reading (or there is none). */
  lemma UpdateRule(cfg: ProviderConfig, s: ProviderState, e: ExpressionType, intensity: real, now: real)
    ensures !ShouldUpdateExpression(cfg, s, e, intensity, now) <==>
      e == s.lastDetectedExpression && now - s.lastExpressionChangeTime <= cfg.expressionStabilityTime
      && (s.currentExpression.Some? ==>
            -cfg.expressionChangeThreshold <= intensity - s.currentExpression.value.intensity <= cfg.expressionChangeThreshold)
  {
  }

  /** The frame's random inputs. */
  datatype FrameInputs = FrameInputs(combined: real, confidenceNoise: real, intensityNoise: real)

  datatype AnalysisStep = AnalysisStep(next: ProviderState, detected: seq<HumanExpressionData>)

  /** AnalyzeFrame (the detection loop runs only with the camera ready). */
  function AnalyzeFrameStep(cfg: ProviderConfig, s: ProviderState, inputs: FrameInputs, now: real): AnalysisStep
  {
    var detectedExpression := AnalyzeExpression(cfg, inputs.combined);
    var confidence := CalculateConfidence(true, inputs.confidenceNoise);
    var intensity := CalculateIntensity(inputs.intensityNoise);
    if ShouldUpdateExpression(cfg, s, detectedExpression, intensity, now) then
      var data := HumanExpressionData(detectedExpression, confidence, now, intensity);
      AnalysisStep(ProviderState(Some(data), detectedExpression, now), [data])
    else AnalysisStep(s, [])
  }

  /** Every stored reading has confidence and intensity in [0,1]. */
  ghost predicate ReadingsInRange(s: ProviderState)
  {
    s.currentExpression.Some? ==> InUnit(s.currentExpression.value.confidence) && InUnit(s.currentExpression.value.intensity)
  }

  /** AnalyzeFrame keeps the readings in range, and the tracking fields move
      only together with an accepted reading. */
  lemma AnalyzeFrameRules(cfg: ProviderConfig, s: ProviderState, inputs: FrameInputs, now: real)
    requires ReadingsInRange(s)
    ensures ReadingsInRange(AnalyzeFrameStep(cfg, s, inputs, now).next)
    ensures var st := AnalyzeFrameStep(cfg, s, inputs, now);
      st.detected == [] ==> st.next == s
    ensures var st := AnalyzeFrameStep(cfg, s, inputs, now);
      st.detected != [] ==>
        (|st.detected| == 1 && st.next.currentExpression == Some(st.detected[0])
         && st.next.lastDetectedExpression == st.detected[0].expressionType
         && st.next.lastExpressionChangeTime == now)
  {
  }

  /** GetCurrentExpression. */
  function CurrentExpressionOrDefault(s: ProviderState): HumanExpressionData
  {
    match s.currentExpression
    case Some(d) => d
    case None => DefaultData
  }

  class WebCamFaceProvider {
    const config: ProviderConfig
    var currentExpression: Option<HumanExpressionData>
    var lastDetectedExpression: ExpressionType
    var lastExpressionChangeTime: real
    /** Every OnExpressionDetected argument so far. */
    var detected: seq<HumanExpressionData>

    function State(): ProviderState
      reads this
    {
      ProviderState(currentExpression, lastDetectedExpression, lastExpressionChangeTime)
    }

    ghost predicate Valid()
      reads this
    {
      ReadingsInRange(State())
    }

    constructor(cfg: ProviderConfig)
      ensures config == cfg && State() == InitialProviderState && detected == [] && Valid()
    {
      config := cfg;
      currentExpression := None;
      lastDetectedExpression := Neutral;
      lastExpressionChangeTime := 0.0;
      detected := [];
    }

    method AnalyzeFrame(inputs: FrameInputs, now: real)
      requires Valid()
      modifies this
      ensures Valid()
      ensures State() == AnalyzeFrameStep(config, old(State()), inputs, now).next
      ensures detected == old(detected) + AnalyzeFrameStep(config, old(State()), inputs, now).detected
    {
      AnalyzeFrameRules(config, State(), inputs, now);
      var detectedExpression := AnalyzeExpression(config, inputs.combined);
      var confidence := CalculateConfidence(true, inputs.confidenceNoise);
      var intensity := CalculateIntensity(inputs.intensityNoise);
      if ShouldUpdateExpression(config, State(), detectedExpression, intensity, now) {
        var data := HumanExpressionData(detectedExpression, confidence, now, intensity);
        currentExpression := Some(data);
        detected := detected + [data];
        lastDetectedExpression := detectedExpression;
        lastExpressionChangeTime := now;
      }
    }

    /** Before any detection: the default Neutral record. */
    method GetCurrentExpression() returns (d: HumanExpressionData)
      ensures d == CurrentExpressionOrDefault(State())
      ensures currentExpression.None? ==> d == DefaultData
    {
      d := if currentExpression.Some? then currentExpression.value else DefaultData;
    }
  }
}
