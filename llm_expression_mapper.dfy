/** LLMExpressionMapper: turns a parsed reply into a cat expression request and
    an interaction record. */
module LLMMapping {
  import opened Options
  import Cat = CatExpressionTypes
  import Human = HumanExpressions
  import Parsing = ResponseParsing
  import Transitions = ExpressionTransitions

  /** MapToCatExpression. */
  function MapToCatExpression(e: Human.ExpressionType): Cat.ExpressionType
  {
    match e
    case Happy => Cat.Happy
    case Sad => Cat.Sad
    case Surprised => Cat.Surprised
    case Neutral => Cat.Neutral
    case Excited => Cat.Playful
    case Confused => Cat.Curious
    case Angry => Cat.Sad
  }

  /** The four shared expressions keep their name; the other three are
      translated; Sleepy and Focused are never produced, and every other cat
      expression is produced by some human expression. */
  lemma MappingShape(e: Human.ExpressionType)
    ensures e in {Human.Happy, Human.Sad, Human.Surprised, Human.Neutral}
      ==> Cat.Name(MapToCatExpression(e)) == Human.Name(e)
    ensures e == Human.Excited ==> MapToCatExpression(e) == Cat.Playful
    ensures e == Human.Confused ==> MapToCatExpression(e) == Cat.Curious
    ensures e == Human.Angry ==> MapToCatExpression(e) == Cat.Sad
    ensures MapToCatExpression(e) != Cat.Sleepy && MapToCatExpression(e) != Cat.Focused
  {
  }

  lemma MappingImage(c: Cat.ExpressionType)
    ensures (exists e :: MapToCatExpression(e) == c) <==> c != Cat.Sleepy && c != Cat.Focused
  {
    if c != Cat.Sleepy && c != Cat.Focused {
      var e := match c
        case Neutral => Human.Neutral
        case Happy => Human.Happy
        case Curious => Human.Confused
        case Surprised => Human.Surprised
        case Playful => Human.Excited
        case Sad => Human.Sad
        case _ => Human.Neutral;
      assert MapToCatExpression(e) == c;
    }
  }

  /** What ContextManager.AddInteraction receives: the human expression (mapped
      to the cat enumeration, as the source does), the cat expression's name
      and the reasoning. */
  datatype InteractionRecord = InteractionRecord(human: Cat.ExpressionType, catResponse: string, notes: string)

  datatype Reaction = Reaction(request: Option<Cat.ExpressionRequest>, record: Option<InteractionRecord>)

  /** What the mapper finds in the scene. */
  datatype Wiring = Wiring(parser: Option<Parsing.ParserSettings>, hasManager: bool, hasContext: bool)

  /** HandleLLMResponse's decisions. */
  function Decide(autoApply: bool, w: Wiring, recognized: Option<Human.ExpressionType>, response: string): Reaction
  {
    match w.parser
    case None => Reaction(None, None)
    case Some(settings) =>
      var reply := Parsing.ParseResponse(settings, Some(response));
      if autoApply && w.hasManager then
        var catExpression := MapToCatExpression(reply.expression);
        var human := match recognized case Some(h) => h case None => Human.Neutral;
        Reaction(Some(Cat.ExpressionRequest(catExpression, reply.intensity, reply.duration)),
                 if w.hasContext then Some(InteractionRecord(MapToCatExpression(human), Cat.Name(catExpression), reply.reasoning))
                 else None)
      else Reaction(None, None)
  }

  /** Without a parser nothing happens; with auto-apply and a manager the
      parsed expression is requested, mapped, with the parsed intensity and
      duration untouched; an interaction is recorded only with a context
      manager, and its human expression is Neutral without a recognizer. */
  lemma DecideRules(autoApply: bool, w: Wiring, recognized: Option<Human.ExpressionType>, response: string)
    ensures w.parser.None? ==> Decide(autoApply, w, recognized, response) == Reaction(None, None)
    ensures var r := Decide(autoApply, w, recognized, response);
      r.request.Some? <==> w.parser.Some? && autoApply && w.hasManager
    ensures var r := Decide(autoApply, w, recognized, response);
      r.record.Some? <==> w.parser.Some? && autoApply && w.hasManager && w.hasContext
    ensures var r := Decide(autoApply, w, recognized, response);
      r.request.Some? ==>
        var reply := Parsing.ParseResponse(w.parser.value, Some(response));
        r.request.value == Cat.ExpressionRequest(MapToCatExpression(reply.expression), reply.intensity, reply.duration)
    ensures var r := Decide(autoApply, w, recognized, response);
      r.record.Some? ==>
        r.record.value.catResponse == Cat.Name(r.request.value.expression)
        && r.record.value.notes == Parsing.ParseResponse(w.parser.value, Some(response)).reasoning
        && (recognized.None? ==> r.record.value.human == Cat.Neutral)
  {
  }

  class LLMExpressionMapper {
    const autoApplyLLMResponses: bool
    const responseParser: Option<Parsing.ParserSettings>
    const expressionManager: Transitions.ExpressionManager?
    const hasContextManager: bool
    /** Every AddInteraction call so far. */
    var records: seq<InteractionRecord>

    function Wires(): Wiring
    {
      Wiring(responseParser, expressionManager != null, hasContextManager)
    }

    ghost predicate Valid()
      reads this, expressionManager, if expressionManager == null then {} else {expressionManager.weights}
    {
      expressionManager != null ==> expressionManager.Valid()
    }

    constructor(autoApply: bool, parser: Option<Parsing.ParserSettings>, manager: Transitions.ExpressionManager?, hasContext: bool)
      requires manager != null ==> manager.Valid()
      ensures autoApplyLLMResponses == autoApply && responseParser == parser
      ensures expressionManager == manager && hasContextManager == hasContext && records == []
      ensures Valid()
    {
      autoApplyLLMResponses := autoApply;
      responseParser := parser;
      expressionManager := manager;
      hasContextManager := hasContext;
      records := [];
    }

    /** HandleLLMResponse; `recognized` is the scene's recognizer's current
        expression, None without a recognizer; `dt` is the frame's delta time
        the started transition's first step uses. */
    method HandleLLMResponse(response: string, recognized: Option<Human.ExpressionType>, dt: real)
      requires Valid()
      modifies this, expressionManager, if expressionManager == null then {} else {expressionManager.weights}
      ensures Valid()
      ensures var r := Decide(autoApplyLLMResponses, Wires(), recognized, response);
        records == old(records) + (if r.record.Some? then [r.record.value] else [])
      ensures var r := Decide(autoApplyLLMResponses, Wires(), recognized, response);
        expressionManager != null ==>
          expressionManager.State() ==
            (if r.request.Some?
             then Transitions.SetExpressionOfTypeStep(expressionManager.config, old(expressionManager.State()),
                    r.request.value.expression, r.request.value.intensity, r.request.value.duration, dt)
             else old(expressionManager.State()))
    {
      if responseParser.None? {
        return;
      }
      var llmResponse := Parsing.ParseResponse(responseParser.value, Some(response));
      if autoApplyLLMResponses && expressionManager != null {
        var catExpression := MapToCatExpression(llmResponse.expression);
        expressionManager.SetExpressionOfType(catExpression, llmResponse.intensity, llmResponse.duration, dt);
        if hasContextManager {
          var humanExpression := if recognized.Some? then recognized.value else Human.Neutral;
          var mappedCatExpression := MapToCatExpression(humanExpression);
          records := records + [InteractionRecord(mappedCatExpression, Cat.Name(catExpression), llmResponse.reasoning)];
        }
      }
    }
  }
}
