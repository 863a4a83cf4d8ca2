/** PromptBuilder: the prompt is the system prompt, then the optional
    expression, history and gaze sections, then the fixed instruction. What
    the builder finds in the scene (a recognizer, a context manager, an eye
    tracker) is passed in. */
module PromptAssembly {
  import opened Options
  import opened Text
  import opened HumanExpressions
  import opened InteractionHistory

  datatype PromptSettings = PromptSettings(systemPrompt: string, maxContextHistory: int)

  const DefaultPromptSettings := PromptSettings(
    "You are a cat character that responds to human emotions and interactions. Determine the most appropriate cat facial expression based on the context provided.",
    10)

  /** The eye tracker as BuildPrompt sees it. */
  datatype TrackerView = NoTracker | Disconnected | Connected(sampleValid: bool)

  /** The recognizer's current expression when there is a recognizer, the
      context manager's entries when there is a context manager. */
  datatype Scene = Scene(recognized: Option<ExpressionType>, history: Option<seq<InteractionContext>>, tracker: TrackerView)

  const ExpressionLabel := "Current human expression: "
  const HistoryHeading := "Recent interaction history:"
  const GazeLine := "User is actively looking around (gaze detected)"
  const Instruction := "Based on this context, what cat facial expression should be displayed? Respond with JSON format: {\"expression\": \"expression_name\", \"intensity\": 0.0-1.0, \"duration\": seconds, \"reasoning\": \"brief explanation\"}"
  const FocusLabel := "\n\nAdditional context: "

  /** The summary the context manager gives, when there is one. */
  function HistorySummary(settings: PromptSettings, scene: Scene): string
  {
    match scene.history
    case Some(h) => ContextSummary(h, settings.maxContextHistory)
    case None => ""
  }

  /** The opening: the system prompt and an empty line. */
  function Opening(settings: PromptSettings): string
  {
    settings.systemPrompt + NewLine + NewLine
  }

  function ExpressionPart(scene: Scene): string
  {
    if scene.recognized.Some? then ExpressionLabel + Name(scene.recognized.value) + NewLine else ""
  }

  function HistoryPart(settings: PromptSettings, scene: Scene): string
  {
    var history := HistorySummary(settings, scene);
    if scene.history.Some? && !IsEmpty(history) then HistoryHeading + NewLine + history + NewLine else ""
  }

  function GazePart(scene: Scene): string
  {
    if scene.tracker == Connected(true) then GazeLine + NewLine else ""
  }

  /** The closing: an empty line and the instruction. */
  const Closing := NewLine + Instruction + NewLine

  /** The optional lines between opening and closing, in order. */
  function Body(settings: PromptSettings, scene: Scene): string
  {
    ExpressionPart(scene) + HistoryPart(settings, scene) + GazePart(scene)
  }

  /** BuildPrompt(), in the order the StringBuilder receives its lines. */
  function BuildPrompt(settings: PromptSettings, scene: Scene): string
  {
    Opening(settings) + Body(settings, scene) + Closing
  }

  /** BuildPrompt(focus). */
  function BuildPromptWithFocus(settings: PromptSettings, scene: Scene, focus: string): string
  {
    BuildPrompt(settings, scene) + FocusLabel + focus
  }

  // ---------------------------------------------------------------------------
  // The prompt as a list of sections.

  datatype Section = SystemSection(text: string) | ExpressionSection(e: ExpressionType)
                   | HistorySection(summary: string) | GazeSection | InstructionSection

  function Rank(s: Section): nat
  {
    match s
    case SystemSection(_) => 0
    case ExpressionSection(_) => 1
    case HistorySection(_) => 2
    case GazeSection => 3
    case InstructionSection => 4
  }

  function RenderSection(s: Section): string
  {
    match s
    case SystemSection(text) => text + NewLine + NewLine
    case ExpressionSection(e) => ExpressionLabel + Name(e) + NewLine
    case HistorySection(summary) => HistoryHeading + NewLine + summary + NewLine
    case GazeSection => GazeLine + NewLine
    case InstructionSection => NewLine + Instruction + NewLine
  }

  function Render(sections: seq<Section>): string
    decreases |sections|
  {
    if sections == [] then "" else RenderSection(sections[0]) + Render(sections[1..])
  }

  lemma {:induction false} RenderAppend(a: seq<Section>, b: seq<Section>)
    ensures Render(a + b) == Render(a) + Render(b)
    decreases |a|
  {
    if a == [] {
      assert a + b == b;
    } else {
      assert (a + b)[1..] == a[1..] + b;
      RenderAppend(a[1..], b);
      RenderCons(a + b);
      RenderCons(a);
      ConcatAssoc(RenderSection(a[0]), Render(a[1..]), Render(b));
    }
  }

  lemma RenderCons(s: seq<Section>)
    requires s != []
    ensures Render(s) == RenderSection(s[0]) + Render(s[1..])
  {
  }

  lemma ConcatAssoc(x: string, y: string, z: string)
    ensures x + (y + z) == (x + y) + z
  {
  }

  /** Which sections the scene calls for, in prompt order. */
  function Sections(settings: PromptSettings, scene: Scene): seq<Section>
  {
    var history := HistorySummary(settings, scene);
    [SystemSection(settings.systemPrompt)]
    + (if scene.recognized.Some? then [ExpressionSection(scene.recognized.value)] else [])
    + (if scene.history.Some? && history != "" then [HistorySection(history)] else [])
    + (if scene.tracker == Connected(true) then [GazeSection] else [])
    + [InstructionSection]
  }

  /** The prompt is exactly its sections rendered in order. */
  lemma RenderOne(x: Section)
    ensures Render([x]) == RenderSection(x)
  {
    assert [x][1..] == [];
  }

  lemma {:induction false} PromptIsItsSections(settings: PromptSettings, scene: Scene)
    ensures BuildPrompt(settings, scene) == Render(Sections(settings, scene))
  {
    var history := HistorySummary(settings, scene);
    var s0 := [SystemSection(settings.systemPrompt)];
    var s1 := if scene.recognized.Some? then [ExpressionSection(scene.recognized.value)] else [];
    var s2 := if scene.history.Some? && history != "" then [HistorySection(history)] else [];
    var s3 := if scene.tracker == Connected(true) then [GazeSection] else [];
    var s4 := [InstructionSection];
    assert Sections(settings, scene) == s0 + s1 + s2 + s3 + s4;
    RenderAppend(s0 + s1 + s2 + s3, s4);
    RenderAppend(s0 + s1 + s2, s3);
    RenderAppend(s0 + s1, s2);
    RenderAppend(s0, s1);
    RenderOne(SystemSection(settings.systemPrompt));
    RenderOne(InstructionSection);
    assert Render(s1) == ExpressionPart(scene) by {
      if s1 != [] { RenderOne(s1[0]); }
    }
    assert Render(s2) == HistoryPart(settings, scene) by {
      if s2 != [] { RenderOne(s2[0]); }
    }
    assert Render(s3) == GazePart(scene) by {
      if s3 != [] { RenderOne(s3[0]); }
    }
    Regroup(Render(s0), Render(s1), Render(s2), Render(s3), Render(s4));
  }

  lemma Regroup(a: string, b: string, c: string, d: string, e: string)
    ensures a + b + c + d + e == a + (b + c + d) + e
  {
  }

  /** Sections always come in the order system, expression, history, gaze,
      instruction, each at most once; the first is the system prompt and the
      last the instruction. */
  lemma SectionsInOrder(settings: PromptSettings, scene: Scene)
    ensures var s := Sections(settings, scene);
      2 <= |s| <= 5 && s[0] == SystemSection(settings.systemPrompt) && s[|s| - 1] == InstructionSection
      && forall i, j :: 0 <= i < j < |s| ==> Rank(s[i]) < Rank(s[j])
  {
  }

  /** Each optional section is present exactly when its source is. The history
      section needs a non-empty summary, which a positive history length
      always gives. */
  lemma SectionPresence(settings: PromptSettings, scene: Scene)
    ensures (exists e :: ExpressionSection(e) in Sections(settings, scene)) <==> scene.recognized.Some?
    ensures (exists t :: HistorySection(t) in Sections(settings, scene))
        <==> scene.history.Some? && HistorySummary(settings, scene) != ""
    ensures settings.maxContextHistory > 0 ==>
      ((exists t :: HistorySection(t) in Sections(settings, scene)) <==> scene.history.Some?)
    ensures GazeSection in Sections(settings, scene) <==> scene.tracker == Connected(true)
  {
    var s := Sections(settings, scene);
    if scene.recognized.Some? {
      assert ExpressionSection(scene.recognized.value) in s;
    }
    if scene.history.Some? {
      SummaryEmptyIff(scene.history.value, settings.maxContextHistory);
      if HistorySummary(settings, scene) != "" {
        assert HistorySection(HistorySummary(settings, scene)) in s;
      }
    }
  }

  lemma ConcatParts(a: string, b: string)
    ensures |a| <= |a + b| && (a + b)[..|a|] == a && (a + b)[|a|..] == b
  {
  }

  lemma ConcatThree(a: string, b: string, c: string)
    ensures var s := a + b + c;
      |a| + |c| <= |s| && s[..|a|] == a && s[|s| - |c|..] == c
  {
    assert (a + b + c)[..|a|] == a;
    assert (a + b + c)[|a| + |b|..] == c;
  }

  /** The prompt starts with the system prompt and an empty line and ends with
      an empty line and the instruction. */
  lemma PromptFrame(settings: PromptSettings, scene: Scene)
    ensures var p := BuildPrompt(settings, scene);
      |Opening(settings)| <= |p| && p[..|Opening(settings)|] == Opening(settings)
    ensures var p := BuildPrompt(settings, scene);
      |Closing| <= |p| && p[|p| - |Closing|..] == Closing
  {
    ConcatThree(Opening(settings), Body(settings, scene), Closing);
  }

  /** The focused prompt is the plain prompt followed by the focus line. */
  lemma FocusExtendsPrompt(settings: PromptSettings, scene: Scene, focus: string)
    ensures var p := BuildPrompt(settings, scene);
      var f := BuildPromptWithFocus(settings, scene, focus);
      |p| <= |f| && f[..|p|] == p && f[|p|..] == FocusLabel + focus
  {
    var p := BuildPrompt(settings, scene);
    assert BuildPromptWithFocus(settings, scene, focus) == p + (FocusLabel + focus);
    ConcatParts(p, FocusLabel + focus);
  }
}
