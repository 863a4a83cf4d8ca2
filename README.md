# voxon-baby core, modelled in Dafny

This project models the decision logic of voxon-baby, a Unity cat character shown on a volumetric display. The character reacts to where the user looks and to the user's facial expression. The modelled parts are:

- **Gaze focus** (`gaze_hit_detector.dfy`, `gaze_interaction_handler.dfy`, `volumetric_shape.dfy`, `highlight_controller.dfy`):
  - GazeHitDetector turns each frame's raycast outcome into Focused, Highlighted and Unfocused events for one shape at a time, using a dwell time and an unfocus time.
  - GazeInteractionHandler decides whether the cat itself is being looked at, with a 0.2 s grace period.
  - VolumetricShape and HighlightController hold the focus and highlight flags and the state of the highlight effects.
- **Expressions** (`expression_types.dfy`, `cat_face_expression.dfy`, `expression_manager.dfy`, `expression_triggers.dfy`, `expression_recognizer.dfy`, `webcam_face_provider.dfy`, `expression_tester.dfy`):
  - ExpressionManager holds the FIFO queue of requested expressions. It runs the per-frame transition coroutine and clamps the blend-shape weights it writes into [0, 100].
  - With blending off, a request during a transition starts another coroutine on the same shared fields. Every waiting coroutine is resumed once per frame, so progress advances once per coroutine, and once it reaches 1 each coroutine commits the same target and announces its type again.
  - The rules that produce requests: the gaze, human-expression, idle and random triggers; the recognizer's change detection; the webcam provider's score bands and stability rule; the tester's cyclic index.
- **Language model loop** (`prompt_builder.dfy`, `llm_client.dfy`, `llm_response_parser.dfy`, `llm_expression_mapper.dfy`, `context_manager.dfy`, `response_evolution.dfy`):
  - The prompt is an ordered concatenation of optional sections.
  - The client has a cooldown and an in-progress gate. It escapes the prompt for JSON and extracts the reply text by substring.
  - The parser extracts JSON and falls back to keyword classification.
  - The mapper translates human expressions to cat expressions.
  - The interaction history is windowed by time and capped in size.
  - The response learner keeps success counters and exponentially averaged weights.
- **Utilities and geometry** (`event_logger.dfy`, `system_health_monitor.dfy`, `voxel_cylinder.dfy`, `baby_face_model.dfy`):
  - a bounded FIFO event log;
  - health scoring in [0, 1] with a periodic check;
  - the cylinder mesh's vertex layout and triangle indices;
  - the eye limits, blend-shape steering and bone search of an imported face model.

Shared modules: `options.dfy` (Option), `numeric.dfy` (Mathf's Clamp, Clamp01 and Lerp), `text.dfy` (ordinal string search and ASCII lower-casing).

How the model is built:

- Unity's clock enters as explicit `now`/`dt` parameters.
- Scene objects are opaque identifiers, or the presence flags the code tests.
- C# events and the calls made on other components are recorded as trace sequences.
- A component whose fields change is a class. Its methods are proved to produce exactly the state of a pure step function, and the properties are proved as lemmas about those step functions.
- `float` is modelled as `real`.

## Model

| member | source | states |
|---|---|---|
| GazeHitDetection.ReplayAppend | Assets/Scripts/GazeDetection/GazeHitDetector.cs:21-23 | replaying a concatenated event trace is replaying its parts in turn, so the focus-event protocol can be checked frame by frame |
| GazeHitDetection.UpdateFollowsProtocol | Assets/Scripts/GazeDetection/GazeHitDetector.cs:34-99 | every frame keeps "isFocused implies a current shape" and emits events that continue the protocol Focused, at most one Highlighted, Unfocused for one shape at a time |
| GazeHitDetection.SwitchingShapes | Assets/Scripts/GazeDetection/GazeHitDetector.cs:59-73 | hitting another shape emits Unfocused and SetFocused(false) for the old shape, then Focused and SetFocused(true) for the new one; focus restarts now with isFocused false; the old shape never gets SetHighlighted(false) |
| GazeHitDetection.DwellHighlight | Assets/Scripts/GazeDetection/GazeHitDetector.cs:74-83 | hitting the current shape highlights it exactly when it is not yet highlighted and now - focusStartTime >= focusDwellTime; otherwise nothing changes |
| GazeHitDetection.HighlightedShapeIsQuiet | Assets/Scripts/GazeDetection/GazeHitDetector.cs:76-82 | further hits on a highlighted current shape emit nothing and change nothing |
| GazeHitDetection.MissEndsFocus | Assets/Scripts/GazeDetection/GazeHitDetector.cs:38-54 | a miss or a non-shape hit ends focus only when a shape is current and unfocusTime has passed since focus start, emitting Unfocused once and clearing the shape; otherwise it is silent |
| GazeHitDetection.GraceCountsFromFocusStart | Assets/Scripts/GazeDetection/GazeHitDetector.cs:86-99 | the grace is measured from focus start, not from the last hit: a shape hit at 0 and 0.6 is dropped by one miss at 0.61 |
| GazeHitDetection.GazeHitDetector.constructor | Assets/Scripts/GazeDetection/GazeHitDetector.cs:12-19 | starts with no current shape, isFocused false and an empty event trace |
| GazeHitDetection.GazeHitDetector.Update | Assets/Scripts/GazeDetection/GazeHitDetector.cs:34-55 | the new fields and the appended events are those of the frame step for the raycast outcome |
| GazeHitDetection.GazeHitDetector.HandleShapeHit | Assets/Scripts/GazeDetection/GazeHitDetector.cs:57-84 | the new fields and the appended events are those of the shape-hit step |
| GazeHitDetection.GazeHitDetector.ClearFocus | Assets/Scripts/GazeDetection/GazeHitDetector.cs:86-99 | the new fields and the appended events are those of the clear-focus step |
| GazeInteraction.GazeDuration | Assets/Scripts/CatFace/GazeInteractionHandler.cs:105-112 | 0 when nobody is looking, otherwise the non-negative time since gaze started |
| GazeInteraction.ReplayAppend | Assets/Scripts/CatFace/GazeInteractionHandler.cs:23-25 | replaying a concatenated event trace replays its parts in turn |
| GazeInteraction.CheckFollowsProtocol | Assets/Scripts/CatFace/GazeInteractionHandler.cs:51-91 | every frame continues the strict alternation of OnGazeStarted and OnGazeEnded from the flag it found to the flag it leaves |
| GazeInteraction.EndNeedsGraceElapsed | Assets/Scripts/CatFace/GazeInteractionHandler.cs:73-91 | OnGazeEnded fires only on a frame that misses the face, while looked at, with more than 0.2 s (strict) since the last hit |
| GazeInteraction.HitKeepsGaze | Assets/Scripts/CatFace/GazeInteractionHandler.cs:54-71 | a face hit starts gaze (start time now, OnGazeStarted once) or, when already looking, reports now - gazeStartTime without restarting; lastGazeTime becomes now |
| GazeInteraction.UnavailableIsSilent | Assets/Scripts/CatFace/GazeInteractionHandler.cs:46-49 | with no raycaster, no manager or a disconnected tracker the frame changes nothing and fires nothing |
| GazeInteraction.GazeInteractionHandler.constructor | Assets/Scripts/CatFace/GazeInteractionHandler.cs:19-21 | starts not looked at, with both times 0 and no events |
| GazeInteraction.GazeInteractionHandler.CheckGazeInteraction | Assets/Scripts/CatFace/GazeInteractionHandler.cs:44-92 | the new fields and the appended events are those of the frame step, and the alternation invariant is kept |
| GazeInteraction.GazeInteractionHandler.IsBeingLookedAt | Assets/Scripts/CatFace/GazeInteractionHandler.cs:97-100 | returns the looked-at flag |
| GazeInteraction.GazeInteractionHandler.GetGazeDuration | Assets/Scripts/CatFace/GazeInteractionHandler.cs:105-112 | returns the gaze duration, which is never negative |
| ExpressionTransitions.SetWeight | Assets/Scripts/CatFace/ExpressionManager.cs:231-237 | an index outside [0, blendShapeCount) changes nothing; an in-range index is the only weight written and ends in [0,100], equal to the request when that is already in range |
| ExpressionTransitions.WriteAll | Assets/Scripts/CatFace/ExpressionManager.cs:169-214 | a run of channel writes keeps the number of blend shapes |
| ExpressionTransitions.WriteAllLeavesOthers | Assets/Scripts/CatFace/ExpressionManager.cs:169-214 | a weight that no channel write targets keeps its value |
| ExpressionTransitions.WriteAllClampsTargets | Assets/Scripts/CatFace/ExpressionManager.cs:231-237 | a weight that some channel write targets ends in [0,100] |
| ExpressionTransitions.NeutralBlend | Assets/Scripts/CatFace/ExpressionManager.cs:216-227 | each weight becomes the lerp from its current value toward its recorded original, or 0 when none was recorded |
| ExpressionTransitions.BlendShapes | Assets/Scripts/CatFace/ExpressionManager.cs:158-229 | applying an expression keeps the number of blend shapes |
| ExpressionTransitions.NonNeutralWritesOnlyItsChannels | Assets/Scripts/CatFace/ExpressionManager.cs:169-214 | a non-neutral expression changes only the channels its table lists, and those end in [0,100] |
| ExpressionTransitions.NeutralApproachesOriginal | Assets/Scripts/CatFace/ExpressionManager.cs:216-227 | Neutral never moves a weight away from its original (0 if missing) and reaches it at blend factor 1 |
| ExpressionTransitions.BlendShapesKeepRange | Assets/Scripts/CatFace/ExpressionManager.cs:158-237 | with weights and originals in [0,100], every expression keeps all weights in [0,100] |
| ExpressionTransitions.InitialWf | Assets/Scripts/CatFace/ExpressionManager.cs:36-41 | the initial manager (no expressions, empty queue, not transitioning, progress 0) satisfies the state invariant |
| ExpressionTransitions.CurrentTypeIsLastAnnounced | Assets/Scripts/CatFace/ExpressionManager.cs:76-79 | the current type is Neutral until a transition commits, and afterwards the type last passed to OnExpressionChanged |
| ExpressionTransitions.Advance | Assets/Scripts/CatFace/ExpressionManager.cs:118-119 | one progress step always stays in [0,1] |
| ExpressionTransitions.BlendedIntensityEndpoints | Assets/Scripts/CatFace/ExpressionManager.cs:144-145 | the blended intensity is the start's at blend 0, the target's at blend 1, and always between the two |
| ExpressionTransitions.ApplyBlend | Assets/Scripts/CatFace/ExpressionManager.cs:139-156 | applying a blend changes only the blend-shape weights, and keeps their number |
| ExpressionTransitions.Resume | Assets/Scripts/CatFace/ExpressionManager.cs:116-136 | resuming a coroutine keeps the state invariant and ends at most that one coroutine |
| ExpressionTransitions.ResumeN | Assets/Scripts/CatFace/ExpressionManager.cs:116-136 | k resumptions keep the state invariant and end at most k coroutines |
| ExpressionTransitions.TickStep | Assets/Scripts/CatFace/ExpressionManager.cs:116-125 | a frame that resumes every waiting coroutine keeps the state invariant |
| ExpressionTransitions.SetExpressionStep | Assets/Scripts/CatFace/ExpressionManager.cs:60-71 | a request keeps the state invariant |
| ExpressionTransitions.SetExpressionOfTypeStep | Assets/Scripts/CatFace/ExpressionManager.cs:51-55 | a request by type, intensity and duration keeps the state invariant |
| ExpressionTransitions.SetExpressionQueuesOrBegins | Assets/Scripts/CatFace/ExpressionManager.cs:60-71 | a request is queued, with nothing else changing, exactly when a transition is in flight and blending is allowed; otherwise a transition starts from the current expression (Neutral at 0 if none) toward the request, with one progress step taken |
| ExpressionTransitions.ResumeAdvances | Assets/Scripts/CatFace/ExpressionManager.cs:114-122 | below progress 1 a resumption adds dt / defaultTransitionDuration, clamped, ignoring the request's own duration, and changes nothing else but the weights |
| ExpressionTransitions.ResumeCommits | Assets/Scripts/CatFace/ExpressionManager.cs:127-136 | at progress 1 the target becomes current, its type is announced once, and the oldest queued request starts next (FIFO) |
| ExpressionTransitions.AdvanceNClosedForm | Assets/Scripts/CatFace/ExpressionManager.cs:116-119 | k clamped steps equal one clamp of p + k·dt/duration |
| ExpressionTransitions.OverlappingCoroutinesAnnounceTwice | Assets/Scripts/CatFace/ExpressionManager.cs:60-70 | with blending off, two requests leave two coroutines on the second target; when one step completes a transition, the next frame commits it twice and announces its type twice |
| ExpressionTransitions.ResumeNAdvances | Assets/Scripts/CatFace/ExpressionManager.cs:116-124 | below completion, k resumptions take k progress steps and announce nothing |
| ExpressionTransitions.TwoCoroutinesDoubleSpeed | Assets/Scripts/CatFace/ExpressionManager.cs:116-124 | two waiting coroutines advance progress two steps in one frame |
| ExpressionTransitions.ApplyBlendKeepsRange | Assets/Scripts/CatFace/ExpressionManager.cs:139-156 | applying a blend keeps every weight in [0,100] |
| ExpressionTransitions.ResumeKeepsRange | Assets/Scripts/CatFace/ExpressionManager.cs:116-136 | a resumption keeps every weight in [0,100] |
| ExpressionTransitions.TickKeepsRange | Assets/Scripts/CatFace/ExpressionManager.cs:116-136 | any number of resumptions keep every weight in [0,100] |
| ExpressionTransitions.SetExpressionKeepsRange | Assets/Scripts/CatFace/ExpressionManager.cs:60-71 | a request keeps every weight in [0,100] |
| ExpressionTransitions.WriteAllSnoc | Assets/Scripts/CatFace/ExpressionManager.cs:231-237 | one more channel write after a run is one more SetBlendShapeWeight |
| ExpressionTransitions.ExpressionManager.constructor | Assets/Scripts/CatFace/ExpressionManager.cs:81-105 | Awake records the renderer's weights as the originals; the manager starts in the initial state |
| ExpressionTransitions.ExpressionManager.GetCurrentExpressionType | Assets/Scripts/CatFace/ExpressionManager.cs:76-79 | Neutral before any commit, then the last announced type |
| ExpressionTransitions.ExpressionManager.SetExpressionOfType | Assets/Scripts/CatFace/ExpressionManager.cs:51-55 | the new state is the by-type request step |
| ExpressionTransitions.ExpressionManager.SetExpression | Assets/Scripts/CatFace/ExpressionManager.cs:60-71 | the new state is the request step |
| ExpressionTransitions.ExpressionManager.Tick | Assets/Scripts/CatFace/ExpressionManager.cs:116-125 | the new state is the frame step |
| ExpressionTransitions.ExpressionManager.StartTransition | Assets/Scripts/CatFace/ExpressionManager.cs:107-125 | the new state is the coroutine's run to its first yield |
| ExpressionTransitions.ExpressionManager.ResumeOne | Assets/Scripts/CatFace/ExpressionManager.cs:116-136 | the new state is one resumption |
| ExpressionTransitions.ExpressionManager.ApplyExpressionBlend | Assets/Scripts/CatFace/ExpressionManager.cs:139-156 | the new state is the blend application |
| ExpressionTransitions.ExpressionManager.ApplyBlendShapes | Assets/Scripts/CatFace/ExpressionManager.cs:158-229 | the weight array becomes the expression's blend of the old one |
| ExpressionTransitions.ExpressionManager.SetBlendShapeWeight | Assets/Scripts/CatFace/ExpressionManager.cs:231-237 | the weight array becomes the guarded, clamped write of the old one |
| CatFaceExpressions.NewExpression | Assets/Scripts/CatFace/CatFaceExpression.cs:30-37 | keeps the type and the duration as given, clamps intensity into [0,1] (unchanged inside it), and allocates 10 zero slots |
| CatFaceExpressions.DefaultArguments | Assets/Scripts/CatFace/CatFaceExpression.cs:30 | the default arguments give intensity 0.5 and duration 2 |
| CatFaceExpressions.EaseInOutRange | Assets/Scripts/CatFace/CatFaceExpression.cs:35 | the ease-in-out curve from (0,0) to (1,1) starts at 0, ends at 1 and stays in [0,1] |
| CatFaceExpressions.GetBlendValue | Assets/Scripts/CatFace/CatFaceExpression.cs:42-49 | an index outside [0, length) gives 0 |
| CatFaceExpressions.FreshExpressionIsFlat | Assets/Scripts/CatFace/CatFaceExpression.cs:36-48 | a freshly constructed expression contributes 0 at every index and time |
| CatFaceExpressions.BlendValueBounded | Assets/Scripts/CatFace/CatFaceExpression.cs:47-48 | with intensity in [0,1], a blend value never exceeds its slot value in magnitude and keeps a non-negative slot non-negative |
| ResponseLearning.Effectiveness | Assets/Scripts/LLM/ResponseEvolution.cs:17 | 0 before any use, in [0,1] when 0 <= successes <= uses, 1 when every use succeeded, 0 when none did |
| ResponseLearning.IndexOfEntry | Assets/Scripts/LLM/ResponseEvolution.cs:89-95 | the first record for the (expression, response) pair, or -1 when none matches |
| ResponseLearning.UpdateWeightBetween | Assets/Scripts/LLM/ResponseEvolution.cs:109-124 | the new weight lies between the old weight (1 if none) and the effectiveness, equals the old one at rate 0 and the effectiveness at rate 1, and no other response's weight changes |
| ResponseLearning.RecordKeepsWf | Assets/Scripts/LLM/ResponseEvolution.cs:42-53 | recording keeps one record per pair, 0 <= successes <= uses, and every weight in [0,1], for any evolution rate |
| ResponseLearning.RecordCounts | Assets/Scripts/LLM/ResponseEvolution.cs:42-53 | recording adds one use, and one success iff effective, to the pair's record; a new pair is appended at the end and no other record changes |
| ResponseLearning.WeightSharedAcrossExpressions | Assets/Scripts/LLM/ResponseEvolution.cs:52 | the weight is keyed by the response alone, so recording it for one expression moves the weight another expression's record of that response is scored with |
| ResponseLearning.CanEvolveCountsPairs | Assets/Scripts/LLM/ResponseEvolution.cs:82-85 | CanEvolve counts distinct pairs: recording a known pair never changes the answer, and a new pair adds one record |
| ResponseLearning.ScoreInUnit | Assets/Scripts/LLM/ResponseEvolution.cs:67 | every score effectiveness × weight lies in [0,1] |
| ResponseLearning.ResponseEvolution.constructor | Assets/Scripts/LLM/ResponseEvolution.cs:22-28 | starts with no records and no weights |
| ResponseLearning.ResponseEvolution.RecordResponse | Assets/Scripts/LLM/ResponseEvolution.cs:42-53 | the new database and weights are the recording step, and the invariant is kept |
| ResponseLearning.ResponseEvolution.FindOrCreateResponse | Assets/Scripts/LLM/ResponseEvolution.cs:87-107 | returns the existing pair's position unchanged, or appends a zero-count record and returns its position |
| ResponseLearning.ResponseEvolution.UpdateResponseWeight | Assets/Scripts/LLM/ResponseEvolution.cs:109-119 | the weights become the lerp update of the response's weight, starting from 1 |
| ResponseLearning.ResponseEvolution.GetResponseWeight | Assets/Scripts/LLM/ResponseEvolution.cs:121-124 | the stored weight, or 1 for an unknown response |
| ResponseLearning.ResponseEvolution.CanEvolve | Assets/Scripts/LLM/ResponseEvolution.cs:82-85 | true iff the number of records is at least minInteractionsForEvolution |
| ResponseLearning.ResponseEvolution.GetBestResponse | Assets/Scripts/LLM/ResponseEvolution.cs:58-77 | "" when no record is for the expression; otherwise the response of a record with the highest score, the earliest among equals |
| InteractionHistory.KeepRecent | Assets/Scripts/LLM/ContextManager.cs:107 | RemoveAll of the older entries leaves only entries at or after the cutoff, each taken from the history, and never more of them |
| InteractionHistory.KeepRecentAppend | Assets/Scripts/LLM/ContextManager.cs:107 | filtering commutes with concatenation, so survivors keep their relative order |
| InteractionHistory.KeepRecentKeepsRecent | Assets/Scripts/LLM/ContextManager.cs:107 | every entry at or after the cutoff survives |
| InteractionHistory.Trim | Assets/Scripts/LLM/ContextManager.cs:103-115 | after a trim no entry is older than now - contextWindowMinutes·60 and at most maxHistorySize remain |
| InteractionHistory.TrimKeepsNewest | Assets/Scripts/LLM/ContextManager.cs:110-114 | size trimming removes only from the front: the result is the newest min(count, maxHistorySize) of the window-filtered entries |
| InteractionHistory.AddCounts | Assets/Scripts/LLM/ContextManager.cs:47-51 | adding counts that expression once more, leaves every other count as it was, and never removes a counter |
| InteractionHistory.AddAppends | Assets/Scripts/LLM/ContextManager.cs:41-55 | with a non-negative window and a positive cap, the new interaction is the last entry afterwards |
| InteractionHistory.SummaryStart | Assets/Scripts/LLM/ContextManager.cs:68 | max(0, count - maxEntries) is within the history, and before its end for a positive maxEntries |
| InteractionHistory.LinesEmptyIff | Assets/Scripts/LLM/ContextManager.cs:70-74 | the summary lines are empty exactly when no entry is listed |
| InteractionHistory.SummaryEmptyIff | Assets/Scripts/LLM/ContextManager.cs:60-77 | the summary is "" exactly when there is history and maxEntries <= 0, so never for a positive maxEntries |
| InteractionHistory.SummaryEndsWithNewest | Assets/Scripts/LLM/ContextManager.cs:67-76 | with a positive maxEntries the summary ends with the newest entry's "- Human: X, Cat: Y" line |
| InteractionHistory.Trends | Assets/Scripts/LLM/ContextManager.cs:82-98 | empty for an empty history; otherwise one trend per counted expression |
| InteractionHistory.TrendCanExceedOne | Assets/Scripts/LLM/ContextManager.cs:82-115 | counters survive trimming, so with a cap of one entry two Happy interactions give a trend of 2 |
| InteractionHistory.ContextManager.constructor | Assets/Scripts/LLM/ContextManager.cs:31-36 | starts with no history and no counters |
| InteractionHistory.ContextManager.AddInteraction | Assets/Scripts/LLM/ContextManager.cs:41-55 | the new history and counters are the add step; the history never holds more than maxHistorySize entries |
| InteractionHistory.ContextManager.TrimHistory | Assets/Scripts/LLM/ContextManager.cs:103-115 | the history becomes its trim; the counters do not change |
| InteractionHistory.ContextManager.GetContextSummary | Assets/Scripts/LLM/ContextManager.cs:60-77 | the summary of the history, "No interaction history yet." when it is empty |
| InteractionHistory.ContextManager.GetExpressionTrends | Assets/Scripts/LLM/ContextManager.cs:82-98 | each counted expression's count divided by the number of entries now held |
| InteractionHistory.ContextManager.ClearHistory | Assets/Scripts/LLM/ContextManager.cs:120-124 | empties both the history and the counters |
| ResponseParsing.ExtractJsonSpan | Assets/Scripts/LLM/LLMResponseParser.cs:75-87 | a non-empty result is the contiguous span of the input from the first '{' to the last '}', opening with '{' and closing with '}'; the result is "" exactly when no '}' follows the first '{' |
| ResponseParsing.SkipSpaces | Assets/Scripts/LLM/LLMResponseParser.cs:92 | `\s*` consumes the longest run of white space: the next character, if any, is not white space |
| ResponseParsing.SkipNonQuote | Assets/Scripts/LLM/LLMResponseParser.cs:92 | `[^"]+` consumes the longest run of non-quote characters, stopping at a '"' or the end |
| ResponseParsing.SkipNumber | Assets/Scripts/LLM/LLMResponseParser.cs:126 | `[0-9.]+` consumes the longest run of digits and dots |
| ResponseParsing.QuotedAt | Assets/Scripts/LLM/LLMResponseParser.cs:141 | a quoted capture at one position is non-empty and holds no '"' |
| ResponseParsing.NumberAt | Assets/Scripts/LLM/LLMResponseParser.cs:126 | a number capture at one position is non-empty and holds only digits and dots |
| ResponseParsing.FirstQuoted | Assets/Scripts/LLM/LLMResponseParser.cs:141-146 | the leftmost quoted capture is non-empty and holds no '"' |
| ResponseParsing.FirstNumber | Assets/Scripts/LLM/LLMResponseParser.cs:126-127 | the leftmost number capture is non-empty and holds only digits and dots |
| ResponseParsing.FirstQuotedIsLeftmost | Assets/Scripts/LLM/LLMResponseParser.cs:141 | Regex.Match returns the leftmost match: when the quoted pattern first matches at i, the search finds the capture at i |
| ResponseParsing.FirstQuotedFound | Assets/Scripts/LLM/LLMResponseParser.cs:141 | conversely, a found capture is the pattern's capture at the first position where it matches |
| ResponseParsing.FirstNumberIsLeftmost | Assets/Scripts/LLM/LLMResponseParser.cs:126 | the number search finds the capture at the first position where the number pattern matches |
| ResponseParsing.FirstNumberFound | Assets/Scripts/LLM/LLMResponseParser.cs:126 | conversely, a found number is the capture at the first matching position |
| ResponseParsing.QuotedFieldIsCaptured | Assets/Scripts/LLM/LLMResponseParser.cs:141 | `"key": "v"` matches with group v for every non-empty v without a quote |
| ResponseParsing.NumberFieldIsCaptured | Assets/Scripts/LLM/LLMResponseParser.cs:126 | `"key": t` matches with group t for every non-empty digit-and-dot run t that the next character does not extend |
| ResponseParsing.ParseDecimal | Assets/Scripts/LLM/LLMResponseParser.cs:127 | float.TryParse of a digits-and-dots capture succeeds only with a digit present, and its value is never negative |
| ResponseParsing.GroupOfTwo | Assets/Scripts/LLM/LLMResponseParser.cs:108 | a two-keyword group matches iff the text contains one of its keywords |
| ResponseParsing.GroupOfThree | Assets/Scripts/LLM/LLMResponseParser.cs:106 | a three-keyword group matches iff the text contains one of its keywords |
| ResponseParsing.ExpressionFromTextIsFirstMatch | Assets/Scripts/LLM/LLMResponseParser.cs:102-122 | the chain of tests is first-match over the keyword table happy/smile/joy→Happy, curious/interested→Confused, surprised/surprise→Surprised, sleepy/tired→Neutral, playful/wink→Excited, focused/attentive→Neutral, sad/frown→Sad, else the default |
| ResponseParsing.ExpressionFromTextIgnoresCase | Assets/Scripts/LLM/LLMResponseParser.cs:104 | classification gives the same result for a text and its lower-cased form |
| ResponseParsing.EarlierGroupWins | Assets/Scripts/LLM/LLMResponseParser.cs:106-109 | "happy" always gives Happy, and "curious" without a Happy keyword gives Confused |
| ResponseParsing.NoKeywordGivesDefault | Assets/Scripts/LLM/LLMResponseParser.cs:121 | a text with no keyword gets the default expression |
| ResponseParsing.ParseFloat | Assets/Scripts/LLM/LLMResponseParser.cs:124-137 | a parsed intensity is in [0,1] (unchanged when already inside), any other parsed key gives the parsed value, which is >= 0, and a missing or unparseable value gives the default |
| ResponseParsing.ParseString | Assets/Scripts/LLM/LLMResponseParser.cs:139-147 | a missing field gives the default; a present one gives a non-empty text with no '"' |
| ResponseParsing.ParseStringTakesLeftmost | Assets/Scripts/LLM/LLMResponseParser.cs:139-147 | ParseString returns the group of the leftmost match of the key's pattern |
| ResponseParsing.ParseStringReadsField | Assets/Scripts/LLM/LLMResponseParser.cs:139-147 | a reply that starts with `"key": "v"` yields exactly v |
| ResponseParsing.ParseFloatTakesLeftmost | Assets/Scripts/LLM/LLMResponseParser.cs:124-137 | ParseFloat parses the group of the leftmost match: the default when it does not parse, else Clamp01 of the value for intensity and Max(0, value) for any other key |
| ResponseParsing.ParsedValuesInRange | Assets/Scripts/LLM/LLMResponseParser.cs:38-73 | with defaults in range, the parsed intensity is always in [0,1] and the duration >= 0 |
| ResponseParsing.FreeTextFallback | Assets/Scripts/LLM/LLMResponseParser.cs:55-62 | without a JSON span the reply is classified as free text, the numbers take their defaults and the reasoning is the whole reply |
| ResponseParsing.NullReplyGivesDefaults | Assets/Scripts/LLM/LLMResponseParser.cs:64-70 | a null reply takes the exception path: the default expression, intensity and duration, with the fresh response's empty reasoning |
| ResponseParsing.ParsedNumbersAreNonNegative | Assets/Scripts/LLM/LLMResponseParser.cs:134 | a captured number has no sign, so Mathf.Max(0, value) never changes it |
| LLMRequests.ReplaceCharAppend | Assets/Scripts/LLM/LLMClient.cs:156 | String.Replace of one character distributes over concatenation |
| LLMRequests.EscapeJsonEscapesEachCharOnce | Assets/Scripts/LLM/LLMClient.cs:154-157 | because backslashes are replaced first, the three Replace passes equal escaping each character once: the backslashes the later passes introduce are not doubled |
| LLMRequests.EscapeEachHasNoNewline | Assets/Scripts/LLM/LLMClient.cs:156 | no raw newline survives escaping |
| LLMRequests.EscapeEachLength | Assets/Scripts/LLM/LLMClient.cs:156 | escaping adds exactly one character per backslash, quote and newline |
| LLMRequests.UnescapeEscapeEach | Assets/Scripts/LLM/LLMClient.cs:154-157 | reading the escaped text back as a JSON string body gives the original text |
| LLMRequests.EscapeJsonProperties | Assets/Scripts/LLM/LLMClient.cs:154-157 | EscapeJson round-trips through JSON unescaping, has no raw newline, and has length \|input\| + #backslashes + #quotes + #newlines |
| LLMRequests.EscapeJsonKeepsCarriageReturns | Assets/Scripts/LLM/LLMClient.cs:154-157 | EscapeJson leaves every carriage return of its input raw: the body holds exactly as many '\r' as the prompt |
| LLMRequests.AppendEndsWith | Assets/Scripts/LLM/LLMClient.cs:97-115 | a concatenation ends with its second part |
| LLMRequests.AppendStartsWith | Assets/Scripts/LLM/LLMClient.cs:97-115 | a concatenation starts with its first part |
| LLMRequests.BuildRequestBody | Assets/Scripts/LLM/LLMClient.cs:92-119 | the body is "" exactly for the Custom provider |
| LLMRequests.RequestBodyCarriesPrompt | Assets/Scripts/LLM/LLMClient.cs:97-115 | for OpenAI and Anthropic the body is a fixed prefix ending in the content key's opening quote, the escaped prompt, and a fixed suffix starting with the closing quote; the middle unescapes to the prompt, so different prompts give different bodies |
| LLMRequests.TextFromRule | Assets/Scripts/LLM/LLMClient.cs:129-133 | the text from the start up to the first following quote when that quote lies after the start; otherwise, including a start past the end, the input unchanged |
| LLMRequests.ParseResponseContentRule | Assets/Scripts/LLM/LLMClient.cs:126-134 | with "content" present the reply is the text from its first index + 11 up to the next quote, or the whole input when that quote is missing or at the start |
| LLMRequests.ParseResponseTextRule | Assets/Scripts/LLM/LLMClient.cs:135-143 | only without "content" does "text" count, with offset 8 and the same rule |
| LLMRequests.ParseResponseNoKey | Assets/Scripts/LLM/LLMClient.cs:145 | with neither key the input comes back unchanged |
| LLMRequests.ParseResponseIsSubstring | Assets/Scripts/LLM/LLMClient.cs:121-152 | the result is always a contiguous piece of the input, and a proper piece never contains a quote |
| LLMRequests.ReplayAppend | Assets/Scripts/LLM/LLMClient.cs:34-35 | replaying a concatenated client trace replays its parts in turn |
| LLMRequests.GateFollowsProtocol | Assets/Scripts/LLM/LLMClient.cs:40-90 | every send and every completion of the request in flight continue the protocol: one request at a time, sent at least requestCooldown after the last, each answered by exactly one response or error |
| LLMRequests.RefusedRequestIsSilent | Assets/Scripts/LLM/LLMClient.cs:42-52 | a request while one is in progress, or with now - lastRequestTime < requestCooldown, changes nothing and sends nothing |
| LLMRequests.LLMClient.constructor | Assets/Scripts/LLM/LLMClient.cs:15-25 | starts with lastRequestTime 0, no request in progress and an empty log |
| LLMRequests.LLMClient.SendRequest | Assets/Scripts/LLM/LLMClient.cs:40-72 | the gate fields and the log are those of the send step |
| LLMRequests.LLMClient.CompleteRequest | Assets/Scripts/LLM/LLMClient.cs:74-89 | the gate fields and the log are those of the completion step: the parsed reply or "LLM API Error: " + error, and no request in progress |
| PromptAssembly.RenderAppend | Assets/Scripts/LLM/PromptBuilder.cs:38-76 | rendering a list of sections distributes over concatenation, as StringBuilder appends do |
| PromptAssembly.PromptIsItsSections | Assets/Scripts/LLM/PromptBuilder.cs:36-77 | the prompt is exactly the sections the scene calls for, each rendered as its AppendLine calls write it, in order |
| PromptAssembly.SectionsInOrder | Assets/Scripts/LLM/PromptBuilder.cs:41-74 | the prompt has two to five sections: the system prompt first, the instruction last, and expression, history and gaze between them, each at most once and in that order |
| PromptAssembly.SectionPresence | Assets/Scripts/LLM/PromptBuilder.cs:45-70 | the expression line appears iff there is a recognizer; the history block iff there is a context manager and its summary is non-empty (iff there is a context manager when maxContextHistory > 0); the gaze line iff the tracker is connected and its sample is valid |
| PromptAssembly.PromptFrame | Assets/Scripts/LLM/PromptBuilder.cs:41-76 | the prompt begins with the system prompt and an empty line, and ends with an empty line and the JSON instruction |
| PromptAssembly.FocusExtendsPrompt | Assets/Scripts/LLM/PromptBuilder.cs:82-86 | the focused prompt is the plain prompt followed by "\n\nAdditional context: " and the focus |
| LLMMapping.MappingShape | Assets/Scripts/CatFace/LLMExpressionMapper.cs:98-121 | Happy, Sad, Surprised and Neutral keep their name; Excited becomes Playful, Confused Curious and Angry Sad; Sleepy and Focused are never produced |
| LLMMapping.MappingImage | Assets/Scripts/CatFace/LLMExpressionMapper.cs:98-121 | a cat expression is produced by some human expression iff it is neither Sleepy nor Focused |
| LLMMapping.DecideRules | Assets/Scripts/CatFace/LLMExpressionMapper.cs:70-96 | without a parser nothing happens; an expression is requested iff auto-apply is on and there is a manager, with the mapped parsed expression and the parsed intensity and duration; an interaction is recorded iff there is also a context manager, with the requested expression's name, the reasoning, and Neutral as the human expression without a recognizer |
| LLMMapping.LLMExpressionMapper.constructor | Assets/Scripts/CatFace/LLMExpressionMapper.cs:27-46 | keeps the auto-apply flag and the components it finds, with no interactions recorded |
| LLMMapping.LLMExpressionMapper.HandleLLMResponse | Assets/Scripts/CatFace/LLMExpressionMapper.cs:70-96 | appends exactly the decided interaction record, and moves the manager by its SetExpression step exactly when an expression is requested |
| ExpressionRecognition.ChangeRule | Assets/Scripts/FaceDetection/ExpressionRecognizer.cs:49-69 | a change is seen iff there is no last sample, the type differs, or the intensity moved by strictly more than expressionChangeThreshold in either direction |
| ExpressionRecognition.RecognizeRules | Assets/Scripts/FaceDetection/ExpressionRecognizer.cs:30-47 | without a detector, without a sample or below confidenceThreshold nothing changes; any change takes the sample into both the last sample and the current expression |
| ExpressionRecognition.RecognizeIdempotent | Assets/Scripts/FaceDetection/ExpressionRecognizer.cs:36-44 | the same reading a second time changes nothing more |
| ExpressionRecognition.NeutralUntilChange | Assets/Scripts/FaceDetection/ExpressionRecognizer.cs:17 | the current expression stays Neutral through any run of frames whose samples are all Neutral |
| ExpressionRecognition.QuietNeutralIsIgnoredAfterStart | Assets/Scripts/FaceDetection/ExpressionRecognizer.cs:27 | after Start, a Neutral sample whose intensity is within the threshold of 0 is not a change |
| ExpressionRecognition.ExpressionRecognizer.constructor | Assets/Scripts/FaceDetection/ExpressionRecognizer.cs:12-28 | starts Neutral with a fresh default record as the last sample |
| ExpressionRecognition.ExpressionRecognizer.Update | Assets/Scripts/FaceDetection/ExpressionRecognizer.cs:30-47 | the new state is the recognition step of the old state and the frame's reading |
| ExpressionRecognition.ExpressionRecognizer.GetCurrentExpression | Assets/Scripts/FaceDetection/ExpressionRecognizer.cs:79-82 | returns the current expression without changing anything |
| ExpressionTriggering.GazeBands | Assets/Scripts/CatFace/ExpressionTriggers.cs:67-94 | while looked at: Curious (0.6, 1) iff the gaze lasted strictly between 0.5 and 1 s, Focused (0.8, 2) iff more than 2 s, nothing otherwise; while not looked at: Neutral (0.3, 1) iff the idle interval is exceeded; nothing without a gaze handler |
| ExpressionTriggering.HumanRuleMirrors | Assets/Scripts/CatFace/ExpressionTriggers.cs:96-114 | a request is made iff the recognized expression is Happy, Sad or Surprised, and it names the cat expression of the same name |
| ExpressionTriggering.IdleFiresTwice | Assets/Scripts/CatFace/ExpressionTriggers.cs:86-92 | not looked at past the idle interval, the gaze rule and the idle rule both request Neutral in the same frame, and only the idle rule restarts the interval |
| ExpressionTriggering.IdleRestartsInterval | Assets/Scripts/CatFace/ExpressionTriggers.cs:127-133 | lastIdleExpressionTime only ever moves to the current time, after which no idle Neutral fires within the interval |
| ExpressionTriggering.RandomRules | Assets/Scripts/CatFace/ExpressionTriggers.cs:136-142 | the random request comes last in its frame, fires exactly when the frame did not fault, more than 3 s have passed since the last one and the roll is below randomExpressionChance, uses the drawn expression at intensity 0.4 for 1 s, and restarts the wait |
| ExpressionTriggering.EveryExpressionCanBeDrawn | Assets/Scripts/CatFace/ExpressionTriggers.cs:139 | every cat expression is reachable by a valid draw of Random.Range over the enumeration |
| ExpressionTriggering.MissingHandler | Assets/Scripts/CatFace/ExpressionTriggers.cs:124-134 | without a gaze handler, once the idle interval is exceeded the frame faults at the dereference: both times are unchanged, the random rule is skipped, and only the human rule's request was made |
| ExpressionTriggering.ExpressionTriggers.constructor | Assets/Scripts/CatFace/ExpressionTriggers.cs:30-41 | both times start at 0 and nothing is requested |
| ExpressionTriggering.ExpressionTriggers.Update | Assets/Scripts/CatFace/ExpressionTriggers.cs:52-143 | the two times and the appended requests are those of the frame's step, and a fault is reported exactly when the step faults |
| WebCamAnalysis.ScoreBands | Assets/Scripts/FaceDetection/WebCamFaceProvider.cs:228-237 | the first-match classification as bands: Happy iff c > 0.5, Sad iff c < -0.5, Neutral iff -0.2 < c < 0.2, Excited iff 0.3 < c <= 0.5, Surprised iff c is in [0.2, 0.3] or [-0.5, -0.2] |
| WebCamAnalysis.AnalyzeExpression | Assets/Scripts/FaceDetection/WebCamFaceProvider.cs:198-210 | always Neutral when basic analysis is off, else the score's band |
| WebCamAnalysis.CalculateConfidence | Assets/Scripts/FaceDetection/WebCamFaceProvider.cs:267-273 | always in [0,1]; with the random offset in [-0.1, 0.1] it is within 0.1 of 0.7 for a ready camera, of 0.3 otherwise |
| WebCamAnalysis.CalculateIntensity | Assets/Scripts/FaceDetection/WebCamFaceProvider.cs:275-280 | always in [0,1]; with the random offset in [-0.2, 0.3] it lies in [0.3, 0.8] |
| WebCamAnalysis.UpdateRule | Assets/Scripts/FaceDetection/WebCamFaceProvider.cs:240-265 | an update is refused iff the type equals the last detected type, at most expressionStabilityTime has passed since the last change, and the intensity is within expressionChangeThreshold of the current reading (or there is none) |
| WebCamAnalysis.AnalyzeFrameRules | Assets/Scripts/FaceDetection/WebCamFaceProvider.cs:162-196 | stored readings keep confidence and intensity in [0,1]; without an accepted update nothing changes and nothing is emitted; with one, exactly one reading is emitted and becomes the current expression, its type the last detected type, and now the last change time |
| WebCamAnalysis.WebCamFaceProvider.constructor | Assets/Scripts/FaceDetection/WebCamFaceProvider.cs:31-39 | no current expression, last detected Neutral at time 0, nothing emitted |
| WebCamAnalysis.WebCamFaceProvider.AnalyzeFrame | Assets/Scripts/FaceDetection/WebCamFaceProvider.cs:162-196 | the new state and the emitted readings are those of the frame step, and readings stay in range |
| WebCamAnalysis.WebCamFaceProvider.GetCurrentExpression | Assets/Scripts/FaceDetection/WebCamFaceProvider.cs:136-139 | the current reading, or the default Neutral record before any detection |
| Highlighting.EnabledEffectsListsEachOnce | Assets/Scripts/Highlighting/HighlightController.cs:33-65 | one InitializeEffects call lists each enabled effect exactly once and no disabled one |
| Highlighting.EnabledEffectsOrder | Assets/Scripts/Highlighting/HighlightController.cs:33-65 | the listed effects come in the order Color, Glow, Outline |
| Highlighting.AwakeThenStartListsEachTwice | Assets/Scripts/Highlighting/HighlightController.cs:21-31 | after Awake and Start every enabled effect is listed twice, and no disabled one |
| Highlighting.FocusShowsHalfIntensity | Assets/Scripts/Highlighting/HighlightController.cs:70-94 | focusing an un-highlighted shape sets the focus flag and shows every listed live effect at half intensity, leaving the others as they were and adding or removing no component |
| Highlighting.UnfocusRemovesAll | Assets/Scripts/Highlighting/HighlightController.cs:78-81 | un-focusing an un-highlighted shape clears the flag and deactivates every listed live effect |
| Highlighting.FocusWhileHighlightedKeepsEffects | Assets/Scripts/Highlighting/HighlightController.cs:70-82 | while highlighted, SetFocused changes only the focus flag |
| Highlighting.HighlightOverridesFocus | Assets/Scripts/Highlighting/HighlightController.cs:99-121 | SetHighlighted(true) shows every listed live effect at full intensity and SetHighlighted(false) deactivates it, whatever the focus flag, which it leaves alone |
| Highlighting.UnlistedEffectsUntouched | Assets/Scripts/Highlighting/HighlightController.cs:87-131 | an effect that is not listed, or whose component is gone, is neither changed nor created by either setter |
| Highlighting.HighlightController.constructor | Assets/Scripts/Highlighting/HighlightController.cs:15-31 | after Awake and Start the list is the enabled effects twice, each enabled kind has one inactive component, and both flags are false |
| Highlighting.HighlightController.InitializeEffects | Assets/Scripts/Highlighting/HighlightController.cs:33-65 | appends the enabled kinds in order, adds a component only for a kind the object lacks, and keeps existing components and the flags |
| Highlighting.HighlightController.SetFocused | Assets/Scripts/Highlighting/HighlightController.cs:70-82 | the new state is the SetFocused step of the old one |
| Highlighting.HighlightController.SetHighlighted | Assets/Scripts/Highlighting/HighlightController.cs:99-110 | the new state is the SetHighlighted step of the old one |
| Highlighting.HighlightController.ApplyToAll | Assets/Scripts/Highlighting/HighlightController.cs:84-94 | every listed live effect is applied at the given intensity, the null ones are skipped, and nothing else changes |
| Highlighting.HighlightController.RemoveAll | Assets/Scripts/Highlighting/HighlightController.cs:123-132 | every listed live effect is removed, the null ones are skipped, and nothing else changes |
| VolumetricShapes.SettersAreIndependent | Assets/Scripts/VolumetricShapes/VolumetricShape.cs:43-59 | SetFocused sets IsFocused to its argument and keeps IsHighlighted; SetHighlighted the reverse; the two setters commute |
| VolumetricShapes.VolumetricShape.constructor | Assets/Scripts/VolumetricShapes/VolumetricShape.cs:16-29 | both flags start false and Awake leaves the shape with a controller that agrees with them |
| VolumetricShapes.VolumetricShape.SetFocused | Assets/Scripts/VolumetricShapes/VolumetricShape.cs:43-50 | sets the focus flag, keeps the highlight flag, and moves the controller by its own SetFocused step with the same value |
| VolumetricShapes.VolumetricShape.SetHighlighted | Assets/Scripts/VolumetricShapes/VolumetricShape.cs:52-59 | sets the highlight flag, keeps the focus flag, and moves the controller by its own SetHighlighted step with the same value |
| EventLogging.Retained | Assets/Scripts/Utilities/EventLogger.cs:127-133 | the retained window is never longer than the capacity or the history, and is the whole history while that fits |
| EventLogging.LogKeepsNewest | Assets/Scripts/Utilities/EventLogger.cs:126-133 | appending and then evicting at most one oldest entry keeps the log equal to the newest maxLogEntries entries of everything logged, oldest first |
| EventLogging.LogBound | Assets/Scripts/Utilities/EventLogger.cs:130-133 | with maxLogEntries >= 0 the log never holds more than maxLogEntries entries; with a negative bound it stays empty |
| EventLogging.EventLogger.constructor | Assets/Scripts/Utilities/EventLogger.cs:17-28 | an empty log with the configured switch and bound |
| EventLogging.EventLogger.Log | Assets/Scripts/Utilities/EventLogger.cs:122-133 | a no-op when logging is disabled; otherwise the entry (stamped with the current time, details "" by default) is appended and one oldest entry is dropped if the count went past maxLogEntries |
| EventLogging.EventLogger.GetLogEntries | Assets/Scripts/Utilities/EventLogger.cs:154-157 | returns a new list equal to the log, oldest first; the entries themselves are shared with the logger (see Left out) |
| EventLogging.EventLogger.ClearLog | Assets/Scripts/Utilities/EventLogger.cs:159-162 | empties the log |
| ExpressionTesting.IndexSteps | Assets/Scripts/Utilities/ExpressionTester.cs:61-69 | both index updates stay in [0, n), and Next followed by Previous (or Previous by Next) restores the index |
| ExpressionTesting.NextIndexWraps | Assets/Scripts/Utilities/ExpressionTester.cs:61 | Next moves one place forward and wraps from the last index to 0 |
| ExpressionTesting.NextTimesWraps | Assets/Scripts/Utilities/ExpressionTester.cs:61 | k Next presses, k at most n, move the index k places round the cycle, so n presses restore it |
| ExpressionTesting.UpdateIndexRules | Assets/Scripts/Utilities/ExpressionTester.cs:37-55 | an Update keeps the index in range, keeps it without a press or a due cycle, and a Previous press followed by a due cycle leaves it unchanged |
| ExpressionTesting.ExpressionTester.constructor | Assets/Scripts/Utilities/ExpressionTester.cs:15-35 | index 0, last cycle time 0, nothing requested |
| ExpressionTesting.ExpressionTester.SetExpression | Assets/Scripts/Utilities/ExpressionTester.cs:73-80 | requests the expression at intensity 0.7 with the configured duration when there is a manager, and changes nothing else |
| ExpressionTesting.ExpressionTester.NextExpression | Assets/Scripts/Utilities/ExpressionTester.cs:57-63 | a no-op on an empty list; otherwise the index becomes (index + 1) mod n and the new index's expression is requested |
| ExpressionTesting.ExpressionTester.PreviousExpression | Assets/Scripts/Utilities/ExpressionTester.cs:65-71 | a no-op on an empty list; otherwise the index becomes (index - 1 + n) mod n and the new index's expression is requested |
| ExpressionTesting.ExpressionTester.Update | Assets/Scripts/Utilities/ExpressionTester.cs:37-55 | nothing happens without a manager; the index follows the key press and then the auto-cycle, which fires and restarts its wait only once more than autoCycleInterval has passed |
| HealthMonitoring.FrameTimeHealth | Assets/Scripts/Utilities/SystemHealthMonitor.cs:70 | the frame-time score always lies in [0,1] |
| HealthMonitoring.HealthInUnit | Assets/Scripts/Utilities/SystemHealthMonitor.cs:26-85 | every score lies in [0,1] and overall is the mean of the other three |
| HealthMonitoring.ComponentRules | Assets/Scripts/Utilities/SystemHealthMonitor.cs:37-80 | a monitored tracker that is missing or disconnected scores 0 with its issue, else 1; a monitored missing face detector scores 0.5 with its issue, else 1; performance is the frame-time score when the frame time is over maxFrameTime, else 1, and is halved when memory is over maxMemoryMB |
| HealthMonitoring.IssuesInOrder | Assets/Scripts/Utilities/SystemHealthMonitor.cs:37-80 | the issue list has exactly one issue per failed check, in the order tracker, detector, frame time, memory |
| HealthMonitoring.FrameTimeHealthFalls | Assets/Scripts/Utilities/SystemHealthMonitor.cs:68-72 | with a positive limit, a longer frame time never scores higher, and a frame time of twice the limit or more scores 0 |
| HealthMonitoring.SystemHealthMonitor.constructor | Assets/Scripts/Utilities/SystemHealthMonitor.cs:23-24 | no check yet and no metrics |
| HealthMonitoring.SystemHealthMonitor.Update | Assets/Scripts/Utilities/SystemHealthMonitor.cs:87-108 | a check runs iff more than healthCheckInterval has passed since the last one; it stores the four scores under their names and restarts the wait; stored metrics stay in [0,1] |
| HealthMonitoring.SystemHealthMonitor.GetHealthMetrics | Assets/Scripts/Utilities/SystemHealthMonitor.cs:110-113 | returns a copy equal to the stored metrics |
| CylinderMesh.Ring | Assets/Scripts/VolumetricShapes/VoxelCylinder.cs:48-69 | a ring loop adds exactly segments vertices, point i at position i |
| CylinderMesh.VertexLayout | Assets/Scripts/VolumetricShapes/VoxelCylinder.cs:48-69 | there are 2·segments + 2 vertices: the bottom ring from 0, the bottom centre at segments, the top ring from segments + 1 and the top centre at 2·segments + 1 |
| CylinderMesh.NextOnRingWraps | Assets/Scripts/VolumetricShapes/VoxelCylinder.cs:75 | the neighbour (i + 1) mod segments is i + 1, except that the last point wraps to 0 |
| CylinderMesh.FacesSizeAndRange | Assets/Scripts/VolumetricShapes/VoxelCylinder.cs:72-110 | after k iterations the bottom and top faces hold 3k indices and the sides 6k, all below 2·segments + 2 |
| CylinderMesh.TrianglesWellFormed | Assets/Scripts/VolumetricShapes/VoxelCylinder.cs:72-110 | the triangle list has 12·segments entries, a multiple of 3, and every index is a valid vertex index |
| CylinderMesh.TrianglesJoinNeighbours | Assets/Scripts/VolumetricShapes/VoxelCylinder.cs:72-110 | bottom triangles fan from the bottom centre over ring points i and its neighbour; top triangles fan from the top centre with the two ring points in reversed winding; each side quad joins points i and its neighbour on both rings |
| CylinderMesh.CreateCylinderMesh | Assets/Scripts/VolumetricShapes/VoxelCylinder.cs:48-116 | the loops build exactly the vertex layout and triangle list above, every triangle index is below the vertex count, and there is one UV per vertex, in vertex order |
| BabyFace.ClampAngle | Assets/Scripts/CatFace/BabyFaceModel.cs:281-285 | the result lies in [min, max] when min <= max; an angle up to 180 already in range is kept, and an angle above 180 is read as angle - 360, kept when that is in range |
| BabyFace.ClampAngleWrapsAround | Assets/Scripts/CatFace/BabyFaceModel.cs:281-285 | with limits of ±maxEyeRotation, 350 degrees is a 10-degree turn the other way, 190 degrees is clamped to the lower limit, and 0 stays 0 |
| BabyFace.EyeTarget | Assets/Scripts/CatFace/BabyFaceModel.cs:223-226 | the target clamp(d·50, -50, 50) + 50 lies in [0, 100]: 0 for d <= -1, 100 for d >= 1, and 50 + 50·d in between |
| BabyFace.EyeTargetMonotone | Assets/Scripts/CatFace/BabyFaceModel.cs:223-226 | a larger gaze component never gives a smaller target |
| BabyFace.SteerWeightKeepsRange | Assets/Scripts/CatFace/BabyFaceModel.cs:228-235 | a lerp towards a target in [0, 100] keeps every weight in [0, 100] |
| BabyFace.EyeBlendStepFrame | Assets/Scripts/CatFace/BabyFaceModel.cs:228-262 | the eye step writes only the four configured indices, and only those >= 0: every other weight is left as it was |
| BabyFace.EyeBlendStepInRange | Assets/Scripts/CatFace/BabyFaceModel.cs:228-262 | weights that start in [0, 100] stay there, and every newly written index is a configured non-negative one |
| BabyFace.EyesAgreeOnFullStep | Assets/Scripts/CatFace/BabyFaceModel.cs:223-262 | with a full smoothing step and distinct configured indices, each weight lands on its target and the left and right eyes agree on each axis |
| BabyFace.PupilOffset | Assets/Scripts/CatFace/BabyFaceModel.cs:265-279 | z is 0; with maxPupilOffset >= 0, x and y lie within ±maxPupilOffset, and a component already within it is kept |
| BabyFace.GetBlendShapeCount | Assets/Scripts/CatFace/BabyFaceModel.cs:290-297 | 0 without a renderer or without a shared mesh, else the mesh's blend-shape count |
| BabyFace.EyeTrackingAction | Assets/Scripts/CatFace/BabyFaceModel.cs:106-131 | the eyes move only with gaze following on, a connected tracker, a valid sample, a camera and a gaze point other than the origin; blend shapes are steered iff those hold, blend shapes are enabled and a renderer exists; the bones turn iff those guards hold, the blend-shape path was not taken and both eye bones exist |
| BabyFace.ClassifyRules | Assets/Scripts/CatFace/BabyFaceModel.cs:329-353 | each role in terms of the words of the lower-cased name: left eye iff "eye" and "left" without "pupil"; right eye iff "eye" and "right" without "left" or "pupil"; left pupil iff "pupil" and "left"; right pupil iff "pupil" and "right" without "left"; the match ignores case |
| BabyFace.Roles | Assets/Scripts/CatFace/BabyFaceModel.cs:327-331 | each child in GetComponentsInChildren order gets the role its name gives it |
| BabyFace.LastWithRole | Assets/Scripts/CatFace/BabyFaceModel.cs:329-353 | a bone field ends as the last child with its role, or keeps its earlier value when no child has it |
| BabyFace.FindEyeBonesStep | Assets/Scripts/CatFace/BabyFaceModel.cs:331-352 | one more child overwrites only the field its role names, and a child without a role changes nothing |
| BabyFace.PupilNamesAreNeverEyes | Assets/Scripts/CatFace/BabyFaceModel.cs:333-342 | a child whose lower-cased name contains "pupil" is never made an eye bone by the search |
| BabyFace.BabyFaceModel.constructor | Assets/Scripts/CatFace/BabyFaceModel.cs:22-32 | no bones assigned and every blend-shape index -1 |
| BabyFace.BabyFaceModel.AutoFindEyeBones | Assets/Scripts/CatFace/BabyFaceModel.cs:325-354 | the loop leaves the bone fields as the search over the children's roles defines them |
| BabyFace.BabyFaceModel.UpdateEyesWithBlendShapes | Assets/Scripts/CatFace/BabyFaceModel.cs:211-263 | the weights become the eye step of the old weights, in the order left X, left Y, right X, right Y |

## Left out

- Physics.Raycast, vector normalisation, the gaze world position, quaternion Slerp bone rotation (BabyFaceModel.UpdateEyesWithBones) and the trigonometric vertex positions and UV values of VoxelCylinder: these are float geometry and engine calls. The model keeps which raycast outcome occurred, the already-normalised gaze components, and which vertex each index and UV refers to.
- The component discovery in the Awake and Start methods (GetComponent, FindObjectOfType, the EyeTrackerManager singleton). Each model takes what was found as a presence flag or a constructor argument.
- The missing-raycaster guard of GazeHitDetector.Update: Start always adds a raycaster, so the model takes one as present.
- The web request (UnityWebRequest), its headers and the network. The outcome of a request (reply text or error text) is an input to `LLMRequests.LLMClient.CompleteRequest`, and the OnResponseReceived/OnError callbacks are the recorded trace.
- LLMClient.ParseResponse with a null reply. The coroutine calls it only on a successful request, whose downloaded text is never null, so the model takes a string.
- LLMExpressionMapper.RequestExpressionRecommendation: it only passes `PromptAssembly.BuildPrompt` to `LLMRequests.LLMClient.SendRequest`, both of which are modelled.
- The Regex engine and float.TryParse are modelled as the scanners the three patterns amount to. \s matches ASCII white space only. Numbers are unsigned digit runs with at most one point, parsed as exact decimals: no rounding to single precision, no exponent, no overflow to infinity.
- ToLower and IgnoreCase cover ASCII letters only, and string search is ordinal.
- `Text.NewLine`, `PromptAssembly.BuildPrompt` and `InteractionHistory.ContextSummary` fix the line terminator to the Unix "\n". StringBuilder.AppendLine writes Environment.NewLine, which is "\r\n" on Windows; there the prompt and summary lines end in "\r\n", and EscapeJson (LLMClient.cs:156) leaves the '\r' unescaped, as `LLMRequests.EscapeJsonKeepsCarriageReturns` states; `LLMRequests.EscapeJsonProperties` rules out only a raw '\n'.
- `ResponseParsing.ParseDecimal` parses under the invariant culture, with '.' as the decimal point. float.TryParse(string, out float) at LLMResponseParser.cs:127 uses the current culture and allows thousands separators, so in a comma-decimal culture "0.8" is not 0.8 there.
- `EventLogging.EventLogger.GetLogEntries`: LogEntry is a class with public mutable fields, and the list copy at EventLogger.cs:156 shares the entry objects with the logger. The model treats entries as values, so a caller's change to a returned entry that also changes the logger's own entry is not captured.
- LLMClient.cs:100 closes the OpenAI verbatim string with a lone quote, where the rest of the body doubles its quotes. The model uses the evidently intended escaped quote.
- Two statements mix the two ExpressionType enumerations. ExpressionTriggers.cs:100 assigns the face-detection value returned by GetCurrentExpression to a variable of the cat type; the model matches the human expression by name instead (Happy, Sad and Surprised exist in both). LLMExpressionMapper.cs:93 passes the mapped cat value to the face-detection parameter of ContextManager.AddInteraction; the model keeps the mapped cat expression in the mapper's interaction record and does not carry it into `InteractionHistory`.
- ExpressionManager's Animator parameters, BabyFaceModel.LogAvailableBlendShapes, and all Debug.Log output: these are presentation only.
- `ExpressionTransitions.ValidConfig` requires defaultTransitionDuration > 0 and three entries in each blend-shape index array. The source's defaults always satisfy this; a zero duration would divide by zero.
- `InteractionHistory` takes maxHistorySize as a natural number. A negative serialized value would make List.RemoveRange throw, and that path is not modelled.
- Integer overflow of the counters in ResponseEvolution and ContextManager: the model uses unbounded integers.
- EventLogger's event subscriptions and their message texts, and its console and file output: only the in-memory log is modelled.
- The OnGUI overlay of ExpressionTester, and the key-code lookups; the two key presses are inputs to `ExpressionTesting.ExpressionTester.Update`.
- WebCamFaceProvider's camera start-up, the detection-loop timing and the frame capture. The frame's score and its two random offsets are inputs, and face position and rotation are placeholders the core never reads.
- The random draws of ExpressionTriggers are inputs (`ExpressionTriggering.RandomDraw`). SystemHealthMonitor's frame time, tracker state, detector presence and heap size are inputs too.
- `BabyFace.SteerWeight` and `BabyFace.EyeBlendStep` keep the face's weights in a map from index to weight. An index at or past the mesh's blend-shape count is stored in the map and not rejected: BabyFaceModel.cs:228-255 does not compare the index with the count, and the renderer's own handling of such an index is not part of this model. Weights at indices the mesh has are unaffected.
- AnimationCurve.EaseInOut is modelled as the smoothstep 3t² − 2t³ clamped to [0, 1], which has the curve's end points and flat tangents.
- `ExpressionTesting.ExpressionTester.Update`: its contract states the index and the auto-cycle time, but not the list of requests an Update appends. Those follow from the contracts of NextExpression and PreviousExpression.
