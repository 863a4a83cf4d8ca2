/** The cat's expression enumeration (CatFace.ExpressionType), in declaration order. */
module CatExpressionTypes {

  datatype ExpressionType = Neutral | Happy | Curious | Surprised | Sleepy | Playful | Focused | Sad

  /** Enum.GetValues order: the declaration order. */
  const AllExpressionTypes: seq<ExpressionType> :=
    [Neutral, Happy, Curious, Surprised, Sleepy, Playful, Focused, Sad]

  /** Enum.ToString. */
  function Name(e: ExpressionType): string
  {
    match e
    case Neutral => "Neutral"
    case Happy => "Happy"
    case Curious => "Curious"
    case Surprised => "Surprised"
    case Sleepy => "Sleepy"
    case Playful => "Playful"
    case Focused => "Focused"
    case Sad => "Sad"
  }

  /** The arguments of ExpressionManager.SetExpression(type, intensity, duration). */
  datatype ExpressionRequest = ExpressionRequest(expression: ExpressionType, intensity: real, duration: real)
}

/** The detected human expression (FaceDetection.ExpressionType) and the record
    a face detector hands out (HumanExpressionData). */
module HumanExpressions {

  datatype ExpressionType = Neutral | Happy | Sad | Surprised | Angry | Confused | Excited

  function Name(e: ExpressionType): string
  {
    match e
    case Neutral => "Neutral"
    case Happy => "Happy"
    case Sad => "Sad"
    case Surprised => "Surprised"
    case Angry => "Angry"
    case Confused => "Confused"
    case Excited => "Excited"
  }

  /** The fields of HumanExpressionData the core reads; face position, rotation
      and the per-record history list are not read by any core operation. */
  datatype HumanExpressionData = HumanExpressionData(
    expressionType: ExpressionType,
    confidence: real,
    timestamp: real,
    intensity: real)

  /** The parameterless constructor: Neutral with zero confidence and intensity. */
  const DefaultData: HumanExpressionData := HumanExpressionData(Neutral, 0.0, 0.0, 0.0)
}
