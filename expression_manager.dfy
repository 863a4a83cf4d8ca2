/** ExpressionManager: the queue of requested expressions, the transition in
    progress, and the blend-shape weights it drives on the face mesh.

    TransitionToExpression is a coroutine. StartCoroutine runs it at once up to
    its first yield; every later frame resumes each suspended coroutine once.
    All coroutines run the same code on the shared fields (their only local,
    the transition duration, is the same constant), so a frame is modelled as
    resuming the coroutines that were suspended when it began, one after the
    other. A coroutine started during the frame runs to its first yield at
    once and is next resumed in the following frame. */
module ExpressionTransitions {
  import opened Options
  import opened Numeric
  import opened CatExpressionTypes
  import opened CatFaceExpressions

  /** The serialized settings and what Awake found. `drivesBlendShapes` stands
      for useBlendShapes together with a face mesh renderer being present;
      originalWeights are the weights Awake read from the renderer. */
  datatype Config = Config(
    defaultTransitionDuration: real,
    allowExpressionBlending: bool,
    drivesBlendShapes: bool,
    eyeIndices: seq<int>,
    earIndices: seq<int>,
    mouthIndices: seq<int>,
    originalWeights: seq<real>)

  /** The source's defaults: three slots per index array, a positive duration. */
  predicate ValidConfig(c: Config)
  {
    c.defaultTransitionDuration > 0.0
    && |c.eyeIndices| == 3 && |c.earIndices| == 3 && |c.mouthIndices| == 3
  }

  // ---------------------------------------------------------------------------
  // Blend-shape weights.

  predicate WeightsInRange(w: seq<real>)
  {
    forall i :: 0 <= i < |w| ==> 0.0 <= w[i] <= 100.0
  }

  /** SetBlendShapeWeight: an index outside [0, blendShapeCount) is ignored,
      and the stored value is clamped into [0,100]. */
  function SetWeight(w: seq<real>, index: int, weight: real): (r: seq<real>)
    ensures |r| == |w|
    ensures forall i :: 0 <= i < |w| && i != index ==> r[i] == w[i]
    ensures 0 <= index < |w| ==> 0.0 <= r[index] <= 100.0
    ensures 0 <= index < |w| && 0.0 <= weight <= 100.0 ==> r[index] == weight
  {
    if 0 <= index && index < |w| then w[index := Clamp(weight, 0.0, 100.0)] else w
  }

  datatype Write = Write(index: int, weight: real)

  /** The channel table of ApplyBlendShapes for a non-neutral expression, in
      the order the writes are made. */
  function ChannelWrites(c: Config, t: ExpressionType, i: real, b: real): seq<Write>
    requires ValidConfig(c)
  {
    var eye, ear, mouth := c.eyeIndices, c.earIndices, c.mouthIndices;
    match t
    case Happy => [Write(eye[0], 0.0), Write(ear[0], i * 100.0 * b), Write(mouth[1], i * 50.0 * b)]
    case Curious => [Write(eye[2], i * 80.0 * b), Write(ear[0], i * 100.0 * b)]
    case Surprised => [Write(eye[2], i * 100.0 * b), Write(ear[0], i * 100.0 * b), Write(mouth[0], i * 30.0 * b)]
    case Sleepy => [Write(eye[1], i * 100.0 * b)]
    case Playful => [Write(eye[2], i * 60.0 * b), Write(ear[0], i * 100.0 * b), Write(mouth[0], i * 70.0 * b)]
    case Focused => [Write(eye[2], i * 40.0 * b), Write(ear[0], i * 80.0 * b)]
    case Sad => [Write(eye[1], i * 60.0 * b), Write(ear[2], i * 100.0 * b), Write(mouth[2], i * 70.0 * b)]
    case Neutral => []
  }

  /** A sequence of SetBlendShapeWeight calls, first to last. */
  function WriteAll(w: seq<real>, writes: seq<Write>): (r: seq<real>)
    ensures |r| == |w|
    decreases |writes|
  {
    if writes == [] then w else WriteAll(SetWeight(w, writes[0].index, writes[0].weight), writes[1..])
  }

  predicate Targets(writes: seq<Write>, k: int)
  {
    exists j :: 0 <= j < |writes| && writes[j].index == k
  }

  /** A weight no write targets keeps its value. */
  lemma {:induction false} WriteAllLeavesOthers(w: seq<real>, writes: seq<Write>, k: int)
    requires 0 <= k < |w| && !Targets(writes, k)
    ensures WriteAll(w, writes)[k] == w[k]
    decreases |writes|
  {
    if writes != [] {
      assert writes[0].index != k;
      forall j | 0 <= j < |writes[1..]|
        ensures writes[1..][j].index != k
      {
        assert writes[1..][j] == writes[j + 1];
      }
      WriteAllLeavesOthers(SetWeight(w, writes[0].index, writes[0].weight), writes[1..], k);
    }
  }

  /** A weight some write targets ends in [0,100]. */
  lemma {:induction false} WriteAllClampsTargets(w: seq<real>, writes: seq<Write>, k: int)
    requires 0 <= k < |w| && Targets(writes, k)
    ensures 0.0 <= WriteAll(w, writes)[k] <= 100.0
    decreases |writes|
  {
    var w1 := SetWeight(w, writes[0].index, writes[0].weight);
    if Targets(writes[1..], k) {
      WriteAllClampsTargets(w1, writes[1..], k);
    } else {
      assert writes[0].index == k by {
        forall j | 0 < j < |writes|
          ensures writes[j].index != k
        {
          assert writes[1..][j - 1] == writes[j];
        }
      }
      WriteAllLeavesOthers(w1, writes[1..], k);
    }
  }

  /** The Neutral branch: every weight moves toward its recorded original, or
      toward 0 where none was recorded; this path writes without clamping. */
  function OriginalOrZero(original: seq<real>, i: int): real
  {
    if 0 <= i < |original| then original[i] else 0.0
  }

  function NeutralBlend(w: seq<real>, original: seq<real>, b: real): (r: seq<real>)
    ensures |r| == |w|
    ensures forall i :: 0 <= i < |w| ==> r[i] == Lerp(w[i], OriginalOrZero(original, i), b)
  {
    seq(|w|, i requires 0 <= i < |w| => Lerp(w[i], OriginalOrZero(original, i), b))
  }

  /** ApplyBlendShapes. */
  function BlendShapes(c: Config, w: seq<real>, t: ExpressionType, intensity: real, b: real): (r: seq<real>)
    requires ValidConfig(c)
    ensures |r| == |w|
  {
    if t == Neutral then NeutralBlend(w, c.originalWeights, b)
    else WriteAll(w, ChannelWrites(c, t, intensity, b))
  }

  /** A non-neutral expression changes only the channels in its table, and
      every channel it changes ends in [0,100]. */
  lemma NonNeutralWritesOnlyItsChannels(c: Config, w: seq<real>, t: ExpressionType, intensity: real, b: real, k: int)
    requires ValidConfig(c) && t != Neutral && 0 <= k < |w|
    ensures !Targets(ChannelWrites(c, t, intensity, b), k) ==> BlendShapes(c, w, t, intensity, b)[k] == w[k]
    ensures Targets(ChannelWrites(c, t, intensity, b), k) ==> 0.0 <= BlendShapes(c, w, t, intensity, b)[k] <= 100.0
  {
    if Targets(ChannelWrites(c, t, intensity, b), k) {
      WriteAllClampsTargets(w, ChannelWrites(c, t, intensity, b), k);
    } else {
      WriteAllLeavesOthers(w, ChannelWrites(c, t, intensity, b), k);
    }
  }

  /** The Neutral expression never moves a weight away from its original, and
      reaches it when the blend factor reaches 1. */
  lemma NeutralApproachesOriginal(c: Config, w: seq<real>, intensity: real, b: real, k: int)
    requires ValidConfig(c) && 0 <= k < |w|
    ensures var o := OriginalOrZero(c.originalWeights, k);
      var r := BlendShapes(c, w, Neutral, intensity, b)[k];
      Abs(r - o) <= Abs(w[k] - o) && (b >= 1.0 ==> r == o)
  {
  }

  /** With weights and recorded originals in [0,100], every blend keeps all
      weights in [0,100]. */
  lemma BlendShapesKeepRange(c: Config, w: seq<real>, t: ExpressionType, intensity: real, b: real)
    requires ValidConfig(c) && WeightsInRange(w) && WeightsInRange(c.originalWeights)
    ensures WeightsInRange(BlendShapes(c, w, t, intensity, b))
  {
    forall k | 0 <= k < |w|
      ensures 0.0 <= BlendShapes(c, w, t, intensity, b)[k] <= 100.0
    {
      if t != Neutral {
        NonNeutralWritesOnlyItsChannels(c, w, t, intensity, b, k);
      }
    }
  }

  // ---------------------------------------------------------------------------
  // The transition engine.

  /** The manager's fields. `suspended` counts the coroutines waiting at their
      yield; `changes` is every OnExpressionChanged argument so far. */
  datatype Engine = Engine(
    current: Option<CatFaceExpression>,
    start: Option<CatFaceExpression>,
    target: Option<CatFaceExpression>,
    queue: seq<CatFaceExpression>,
    isTransitioning: bool,
    progress: real,
    suspended: nat,
    weights: seq<real>,
    changes: seq<ExpressionType>)

  function Initial(c: Config): Engine
  {
    Engine(None, None, None, [], false, 0.0, 0, c.originalWeights, [])
  }

  /** The invariant of every reachable state: progress lies in [0,1]; a
      transition in flight has a coroutine behind it; a live coroutine has a
      start and a target; the weights cover the mesh; and the current
      expression exists exactly when a change has been announced, and is the
      last one announced. */
  ghost predicate Wf(c: Config, s: Engine)
  {
    0.0 <= s.progress <= 1.0
    && (s.isTransitioning ==> s.suspended > 0)
    && (s.suspended > 0 ==> s.target.Some? && s.start.Some?)
    && |s.weights| == |c.originalWeights|
    && (s.current.Some? <==> |s.changes| > 0)
    && (s.current.Some? ==> s.changes[|s.changes| - 1] == s.current.value.expressionType)
  }

  lemma InitialWf(c: Config)
    ensures Wf(c, Initial(c))
  {
  }

  /** GetCurrentExpressionType. */
  function CurrentType(s: Engine): ExpressionType
  {
    if s.current.Some? then s.current.value.expressionType else Neutral
  }

  /** The type reported is Neutral until a transition has committed, and from
      then on the type most recently announced by OnExpressionChanged. */
  lemma CurrentTypeIsLastAnnounced(c: Config, s: Engine)
    requires Wf(c, s)
    ensures |s.changes| == 0 ==> CurrentType(s) == Neutral
    ensures |s.changes| > 0 ==> CurrentType(s) == s.changes[|s.changes| - 1]
  {
  }

  /** One progress step of the coroutine loop. */
  function Advance(c: Config, progress: real, dt: real): (r: real)
    requires ValidConfig(c)
    ensures 0.0 <= r <= 1.0
  {
    Clamp01(progress + dt / c.defaultTransitionDuration)
  }

  /** The intensity ApplyExpressionBlend hands to the blend shapes. */
  function BlendedIntensity(start: Option<CatFaceExpression>, target: CatFaceExpression, blend: real): real
  {
    Lerp(if start.Some? then start.value.intensity else 0.0, target.intensity, blend)
  }

  /** The blended intensity is the start's at blend 0, the target's at blend 1,
      and always between the two. */
  lemma BlendedIntensityEndpoints(start: CatFaceExpression, target: CatFaceExpression, blend: real)
    ensures blend <= 0.0 ==> BlendedIntensity(Some(start), target, blend) == start.intensity
    ensures blend >= 1.0 ==> BlendedIntensity(Some(start), target, blend) == target.intensity
    ensures start.intensity <= target.intensity ==>
      start.intensity <= BlendedIntensity(Some(start), target, blend) <= target.intensity
    ensures target.intensity <= start.intensity ==>
      target.intensity <= BlendedIntensity(Some(start), target, blend) <= start.intensity
  {
  }

  /** ApplyExpressionBlend: nothing without a target. */
  function ApplyBlend(c: Config, s: Engine, blend: real): (r: Engine)
    requires ValidConfig(c)
    ensures r == s.(weights := r.weights) && |r.weights| == |s.weights|
  {
    if s.target.None? || !c.drivesBlendShapes then s
    else
      var t := s.target.value;
      s.(weights := BlendShapes(c, s.weights, t.expressionType, BlendedIntensity(s.start, t, blend), blend))
  }

  /** TransitionToExpression from its start to its first yield. */
  function Begin(c: Config, s: Engine, e: CatFaceExpression, dt: real): Engine
    requires ValidConfig(c)
  {
    var started := s.(isTransitioning := true,
                      start := Some(if s.current.Some? then s.current.value else NewExpression(Neutral, 0.0, 0.0)),
                      target := Some(e),
                      progress := 0.0);
    var p := Advance(c, 0.0, dt);
    ApplyBlend(c, started.(progress := p), p).(suspended := s.suspended + 1)
  }

  /** Resuming one suspended coroutine after its yield: another progress step
      while progress is below 1; otherwise commit the target, announce it, end
      this coroutine and start one for the oldest queued request. */
  function Resume(c: Config, s: Engine, dt: real): (r: Engine)
    requires ValidConfig(c) && Wf(c, s) && s.suspended > 0
    ensures Wf(c, r) && r.suspended + 1 >= s.suspended
  {
    if s.progress < 1.0 then
      var p := Advance(c, s.progress, dt);
      ApplyBlend(c, s.(progress := p), p)
    else
      var committed := s.(current := s.target, isTransitioning := false,
                          changes := s.changes + [s.target.value.expressionType],
                          suspended := s.suspended - 1);
      if |s.queue| > 0 then Begin(c, committed.(queue := s.queue[1..]), s.queue[0], dt)
      else committed
  }

  /** The first k resumptions of a frame. */
  function ResumeN(c: Config, s: Engine, dt: real, k: nat): (r: Engine)
    requires ValidConfig(c) && Wf(c, s) && k <= s.suspended
    ensures Wf(c, r) && r.suspended + k >= s.suspended
  {
    if k == 0 then s else Resume(c, ResumeN(c, s, dt, k - 1), dt)
  }

  /** One frame: every coroutine suspended when the frame began resumes once. */
  function TickStep(c: Config, s: Engine, dt: real): (r: Engine)
    requires ValidConfig(c) && Wf(c, s)
    ensures Wf(c, r)
  {
    ResumeN(c, s, dt, s.suspended)
  }

  /** SetExpression(expression): queued while a transition is in flight and
      blending is allowed, otherwise a new transition begins right away. */
  function SetExpressionStep(c: Config, s: Engine, e: CatFaceExpression, dt: real): (r: Engine)
    requires ValidConfig(c) && Wf(c, s)
    ensures Wf(c, r)
  {
    if s.isTransitioning && c.allowExpressionBlending then s.(queue := s.queue + [e])
    else Begin(c, s, e, dt)
  }

  /** SetExpression(type, intensity = 0.5, duration = 2). */
  function SetExpressionOfTypeStep(c: Config, s: Engine, t: ExpressionType, intensity: real, duration: real, dt: real): (r: Engine)
    requires ValidConfig(c) && Wf(c, s)
    ensures Wf(c, r)
  {
    SetExpressionStep(c, s, NewExpression(t, intensity, duration), dt)
  }

  /** A request is queued exactly when a transition is in flight and blending
      is allowed, and nothing else changes then. Otherwise a transition begins:
      it starts from the current expression (Neutral at intensity 0 if none),
      targets the request, and has already taken one progress step. */
  lemma SetExpressionQueuesOrBegins(c: Config, s: Engine, e: CatFaceExpression, dt: real)
    requires ValidConfig(c) && Wf(c, s)
    ensures var r := SetExpressionStep(c, s, e, dt);
      if s.isTransitioning && c.allowExpressionBlending
      then r == s.(queue := s.queue + [e])
      else (r.isTransitioning && r.target == Some(e)
        && r.start == Some(if s.current.Some? then s.current.value else NewExpression(Neutral, 0.0, 0.0))
        && r.progress == Clamp01(dt / c.defaultTransitionDuration)
        && r.queue == s.queue && r.current == s.current && r.changes == s.changes
        && r.suspended == s.suspended + 1)
  {
  }

  /** A resumption below progress 1 takes one more step of dt divided by the
      DEFAULT duration (the request's own duration plays no part) and changes
      nothing but progress and weights. */
  lemma ResumeAdvances(c: Config, s: Engine, dt: real)
    requires ValidConfig(c) && Wf(c, s) && s.suspended > 0 && s.progress < 1.0
    ensures Resume(c, s, dt) == s.(progress := Clamp01(s.progress + dt / c.defaultTransitionDuration),
                                   weights := Resume(c, s, dt).weights)
  {
  }

  /** A resumption at progress 1 commits: the target becomes current, its type
      is announced exactly once, and the oldest queued request (if any) begins
      next, the rest of the queue keeping its order. */
  lemma ResumeCommits(c: Config, s: Engine, dt: real)
    requires ValidConfig(c) && Wf(c, s) && s.suspended > 0 && s.progress >= 1.0
    ensures var r := Resume(c, s, dt);
      r.current == s.target
      && r.changes == s.changes + [s.target.value.expressionType]
      && (|s.queue| == 0 ==> !r.isTransitioning && r.queue == [] && r.suspended == s.suspended - 1)
      && (|s.queue| > 0 ==> r.isTransitioning && r.target == Some(s.queue[0]) && r.queue == s.queue[1..]
                            && r.start == s.target && r.suspended == s.suspended)
  {
  }

  /** Progress after k uninterrupted steps. */
  function AdvanceN(c: Config, p: real, dt: real, k: nat): real
    requires ValidConfig(c)
  {
    if k == 0 then p else Advance(c, AdvanceN(c, p, dt, k - 1), dt)
  }

  /** Clamping after every step is the same as clamping once at the end: k
      steps from p in [0,1] reach min(1, p + k * dt / duration). */
  lemma {:induction false} AdvanceNClosedForm(c: Config, p: real, dt: real, k: nat)
    requires ValidConfig(c) && 0.0 <= p <= 1.0 && dt >= 0.0
    ensures AdvanceN(c, p, dt, k) == Clamp01(p + (k as real) * (dt / c.defaultTransitionDuration))
  {
    var x := dt / c.defaultTransitionDuration;
    StepNonNegative(c, dt);
    RampClosedForm(c, p, dt, k, x);
    RepeatIsProduct(k, x);
    assert AdvanceN(c, p, dt, k) == Clamp01(p + Repeat(k, x));
  }

  /** k copies of x added up. */
  function Repeat(k: nat, x: real): real
  {
    if k == 0 then 0.0 else Repeat(k - 1, x) + x
  }

  lemma {:induction false} RepeatIsProduct(k: nat, x: real)
    ensures Repeat(k, x) == (k as real) * x
  {
    if k > 0 {
      RepeatIsProduct(k - 1, x);
    }
  }

  /** The induction behind AdvanceNClosedForm, with the step size x named. */
  lemma {:induction false} RampClosedForm(c: Config, p: real, dt: real, k: nat, x: real)
    requires ValidConfig(c) && 0.0 <= p <= 1.0 && x >= 0.0 && x == dt / c.defaultTransitionDuration
    ensures Repeat(k, x) >= 0.0
    ensures AdvanceN(c, p, dt, k) == Clamp01(p + Repeat(k, x))
  {
    if k > 0 {
      RampClosedForm(c, p, dt, k - 1, x);
      AdvanceNStep(c, p, dt, k);
      ClampChain(AdvanceN(c, p, dt, k - 1), p, x, Repeat(k - 1, x), Repeat(k, x));
    }
  }

  lemma AdvanceNStep(c: Config, p: real, dt: real, k: nat)
    requires ValidConfig(c) && k > 0
    ensures AdvanceN(c, p, dt, k) == Clamp01(AdvanceN(c, p, dt, k - 1) + dt / c.defaultTransitionDuration)
  {
  }

  lemma StepNonNegative(c: Config, dt: real)
    requires ValidConfig(c) && dt >= 0.0
    ensures dt / c.defaultTransitionDuration >= 0.0
  {
  }

  /** One more clamped step of x from a value already clamped from p + before
      is the clamp of p + before + x. */
  lemma ClampChain(q: real, p: real, x: real, before: real, after: real)
    requires 0.0 <= p && before >= 0.0 && x >= 0.0 && after == before + x
    requires q == Clamp01(p + before)
    ensures Clamp01(q + x) == Clamp01(p + after)
  {
  }

  /** Overlapping coroutines. With blending off, a second request while the
      first transition is in flight starts a second coroutine on the same
      fields. When a single step completes a transition, the next frame
      resumes both coroutines: each commits the second target, so
      OnExpressionChanged announces that type twice. */
  lemma OverlappingCoroutinesAnnounceTwice(c: Config, e1: CatFaceExpression, e2: CatFaceExpression, dt: real)
    requires ValidConfig(c) && !c.allowExpressionBlending && dt >= c.defaultTransitionDuration
    ensures var s1 := SetExpressionStep(c, Initial(c), e1, dt);
      var s2 := SetExpressionStep(c, s1, e2, dt);
      s2.suspended == 2 && s2.target == Some(e2) && s2.queue == []
      && TickStep(c, s2, dt).changes == [e2.expressionType, e2.expressionType]
      && TickStep(c, s2, dt).suspended == 0
  {
    InitialWf(c);
    var s1 := SetExpressionStep(c, Initial(c), e1, dt);
    var s2 := SetExpressionStep(c, s1, e2, dt);
    assert dt / c.defaultTransitionDuration >= 1.0;
    assert s2.progress == 1.0 && s2.suspended == 2 && s2.queue == [] && s2.changes == [];
    var r1 := Resume(c, s2, dt);
    ResumeCommits(c, s2, dt);
    assert r1.changes == [e2.expressionType] && r1.suspended == 1 && r1.progress == 1.0 && r1.target == Some(e2);
    ResumeCommits(c, r1, dt);
    assert ResumeN(c, s2, dt, 0) == s2;
    assert ResumeN(c, s2, dt, 1) == r1;
    assert ResumeN(c, s2, dt, 2) == Resume(c, r1, dt);
  }

  /** Below completion, a frame advances progress once per suspended
      coroutine and announces nothing: k coroutines move the transition k
      steps. */
  lemma {:induction false} ResumeNAdvances(c: Config, s: Engine, dt: real, k: nat)
    requires ValidConfig(c) && Wf(c, s) && k <= s.suspended && dt >= 0.0
    requires AdvanceN(c, s.progress, dt, k) < 1.0
    ensures ResumeN(c, s, dt, k).progress == AdvanceN(c, s.progress, dt, k)
    ensures ResumeN(c, s, dt, k).changes == s.changes
    ensures ResumeN(c, s, dt, k).suspended == s.suspended
  {
    if k > 0 {
      var q := AdvanceN(c, s.progress, dt, k - 1);
      StepNonNegative(c, dt);
      assert q <= Advance(c, q, dt);
      ResumeNAdvances(c, s, dt, k - 1);
      ResumeAdvances(c, ResumeN(c, s, dt, k - 1), dt);
    }
  }

  /** Two overlapping coroutines make a frame take two progress steps. */
  lemma TwoCoroutinesDoubleSpeed(c: Config, s: Engine, dt: real)
    requires ValidConfig(c) && Wf(c, s) && s.suspended == 2 && dt >= 0.0
    requires Advance(c, Advance(c, s.progress, dt), dt) < 1.0
    ensures TickStep(c, s, dt).progress == Advance(c, Advance(c, s.progress, dt), dt)
    ensures TickStep(c, s, dt).changes == s.changes
  {
    assert AdvanceN(c, s.progress, dt, 0) == s.progress;
    assert AdvanceN(c, s.progress, dt, 1) == Advance(c, s.progress, dt);
    assert AdvanceN(c, s.progress, dt, 2) == Advance(c, Advance(c, s.progress, dt), dt);
    ResumeNAdvances(c, s, dt, 2);
  }

  /** Each step-level invariant, preserved by the weights: once weights and
      recorded originals are in [0,100], every frame and every request keeps
      them there. */
  lemma ApplyBlendKeepsRange(c: Config, s: Engine, blend: real)
    requires ValidConfig(c) && WeightsInRange(s.weights) && WeightsInRange(c.originalWeights)
    ensures WeightsInRange(ApplyBlend(c, s, blend).weights)
  {
    if s.target.Some? && c.drivesBlendShapes {
      var t := s.target.value;
      BlendShapesKeepRange(c, s.weights, t.expressionType, BlendedIntensity(s.start, t, blend), blend);
    }
  }

  lemma ResumeKeepsRange(c: Config, s: Engine, dt: real)
    requires ValidConfig(c) && Wf(c, s) && s.suspended > 0
    requires WeightsInRange(s.weights) && WeightsInRange(c.originalWeights)
    ensures WeightsInRange(Resume(c, s, dt).weights)
  {
    if s.progress < 1.0 {
      var p := Advance(c, s.progress, dt);
      ApplyBlendKeepsRange(c, s.(progress := p), p);
    } else if |s.queue| > 0 {
      var committed := s.(current := s.target, isTransitioning := false,
                          changes := s.changes + [s.target.value.expressionType],
                          suspended := s.suspended - 1);
      var rest := committed.(queue := s.queue[1..]);
      var started := rest.(isTransitioning := true,
                           start := Some(if rest.current.Some? then rest.current.value else NewExpression(Neutral, 0.0, 0.0)),
                           target := Some(s.queue[0]),
                           progress := 0.0);
      var p := Advance(c, 0.0, dt);
      ApplyBlendKeepsRange(c, started.(progress := p), p);
    }
  }

  lemma {:induction false} TickKeepsRange(c: Config, s: Engine, dt: real, k: nat)
    requires ValidConfig(c) && Wf(c, s) && k <= s.suspended
    requires WeightsInRange(s.weights) && WeightsInRange(c.originalWeights)
    ensures WeightsInRange(ResumeN(c, s, dt, k).weights)
  {
    if k > 0 {
      TickKeepsRange(c, s, dt, k - 1);
      ResumeKeepsRange(c, ResumeN(c, s, dt, k - 1), dt);
    }
  }

  lemma SetExpressionKeepsRange(c: Config, s: Engine, e: CatFaceExpression, dt: real)
    requires ValidConfig(c) && Wf(c, s)
    requires WeightsInRange(s.weights) && WeightsInRange(c.originalWeights)
    ensures WeightsInRange(SetExpressionStep(c, s, e, dt).weights)
  {
    if !(s.isTransitioning && c.allowExpressionBlending) {
      var started := s.(isTransitioning := true,
                        start := Some(if s.current.Some? then s.current.value else NewExpression(Neutral, 0.0, 0.0)),
                        target := Some(e),
                        progress := 0.0);
      var p := Advance(c, 0.0, dt);
      ApplyBlendKeepsRange(c, started.(progress := p), p);
    }
  }

  // ---------------------------------------------------------------------------
  // The component.

  class ExpressionManager {
    const config: Config
    var currentExpression: Option<CatFaceExpression>
    var startExpression: Option<CatFaceExpression>
    var targetExpression: Option<CatFaceExpression>
    var expressionQueue: seq<CatFaceExpression>
    var isTransitioning: bool
    var transitionProgress: real
    /** Coroutines waiting at their yield. */
    var suspended: nat
    /** The face mesh renderer's blend-shape weights. */
    const weights: array<real>
    /** Every OnExpressionChanged argument so far. */
    var changes: seq<ExpressionType>

    function State(): Engine
      reads this, weights
    {
      Engine(currentExpression, startExpression, targetExpression, expressionQueue,
             isTransitioning, transitionProgress, suspended, weights[..], changes)
    }

    ghost predicate Valid()
      reads this, weights
    {
      ValidConfig(config) && Wf(config, State())
    }

    /** Awake: the weights are the renderer's current ones, recorded as originals. */
    constructor (c: Config)
      requires ValidConfig(c)
      ensures Valid() && config == c && State() == Initial(c)
    {
      config := c;
      currentExpression := None;
      startExpression := None;
      targetExpression := None;
      expressionQueue := [];
      isTransitioning := false;
      transitionProgress := 0.0;
      suspended := 0;
      weights := new real[|c.originalWeights|](i requires 0 <= i < |c.originalWeights| => c.originalWeights[i]);
      changes := [];
    }

    method GetCurrentExpressionType() returns (t: ExpressionType)
      requires Valid()
      ensures t == CurrentType(State())
      ensures |changes| == 0 ==> t == Neutral
      ensures |changes| > 0 ==> t == changes[|changes| - 1]
    {
      t := if currentExpression.Some? then currentExpression.value.expressionType else Neutral;
    }

    method SetExpressionOfType(t: ExpressionType, intensity: real, duration: real, dt: real)
      requires Valid()
      modifies this, weights
      ensures Valid() && State() == SetExpressionOfTypeStep(config, old(State()), t, intensity, duration, dt)
    {
      var newExpression := NewExpression(t, intensity, duration);
      SetExpression(newExpression, dt);
    }

    method SetExpression(expression: CatFaceExpression, dt: real)
      requires Valid()
      modifies this, weights
      ensures Valid() && State() == SetExpressionStep(config, old(State()), expression, dt)
    {
      if isTransitioning && config.allowExpressionBlending {
        expressionQueue := expressionQueue + [expression];
      } else {
        StartTransition(expression, dt);
      }
    }

    /** One frame of the coroutine scheduler. */
    method Tick(dt: real)
      requires Valid()
      modifies this, weights
      ensures Valid() && State() == TickStep(config, old(State()), dt)
    {
      var n := suspended;
      var k := 0;
      while k < n
        invariant 0 <= k <= n && n == old(State()).suspended
        invariant Valid() && State() == ResumeN(config, old(State()), dt, k)
      {
        ResumeOne(dt);
        k := k + 1;
      }
    }

    /** StartCoroutine(TransitionToExpression(expression)): runs to the first yield. */
    method StartTransition(expression: CatFaceExpression, dt: real)
      requires ValidConfig(config) && |weights[..]| == |config.originalWeights|
      modifies this, weights
      ensures State() == Begin(config, old(State()), expression, dt)
    {
      isTransitioning := true;
      startExpression := Some(if currentExpression.Some? then currentExpression.value else NewExpression(Neutral, 0.0, 0.0));
      targetExpression := Some(expression);
      transitionProgress := 0.0;
      transitionProgress := Clamp01(transitionProgress + dt / config.defaultTransitionDuration);
      ApplyExpressionBlend(transitionProgress);
      suspended := suspended + 1;
    }

    /** One suspended coroutine continues after its yield. */
    method ResumeOne(dt: real)
      requires Valid() && suspended > 0
      modifies this, weights
      ensures Valid() && State() == Resume(config, old(State()), dt)
    {
      if transitionProgress < 1.0 {
        transitionProgress := Clamp01(transitionProgress + dt / config.defaultTransitionDuration);
        ApplyExpressionBlend(transitionProgress);
      } else {
        currentExpression := targetExpression;
        isTransitioning := false;
        changes := changes + [currentExpression.value.expressionType];
        suspended := suspended - 1;
        if |expressionQueue| > 0 {
          var nextExpression := expressionQueue[0];
          expressionQueue := expressionQueue[1..];
          StartTransition(nextExpression, dt);
        }
      }
    }

    method ApplyExpressionBlend(blendFactor: real)
      requires ValidConfig(config)
      modifies weights
      ensures State() == ApplyBlend(config, old(State()), blendFactor)
    {
      if targetExpression.None? {
        return;
      }
      var target := targetExpression.value;
      var intensity := BlendedIntensity(startExpression, target, blendFactor);
      if config.drivesBlendShapes {
        ApplyBlendShapes(target.expressionType, intensity, blendFactor);
      }
    }

    method ApplyBlendShapes(t: ExpressionType, intensity: real, blendFactor: real)
      requires ValidConfig(config)
      modifies weights
      ensures weights[..] == BlendShapes(config, old(weights[..]), t, intensity, blendFactor)
    {
      if t == Neutral {
        for i := 0 to weights.Length
          invariant forall j :: 0 <= j < i ==>
            weights[j] == Lerp(old(weights[j]), OriginalOrZero(config.originalWeights, j), blendFactor)
          invariant forall j :: i <= j < weights.Length ==> weights[j] == old(weights[j])
        {
          var targetWeight := if i < |config.originalWeights| then config.originalWeights[i] else 0.0;
          weights[i] := Lerp(weights[i], targetWeight, blendFactor);
        }
      } else {
        var writes := ChannelWrites(config, t, intensity, blendFactor);
        for k := 0 to |writes|
          invariant weights[..] == WriteAll(old(weights[..]), writes[..k])
        {
          SetBlendShapeWeight(writes[k].index, writes[k].weight);
          WriteAllSnoc(old(weights[..]), writes[..k], writes[k]);
          assert writes[..k + 1] == writes[..k] + [writes[k]];
        }
        assert writes[..|writes|] == writes;
      }
    }

    method SetBlendShapeWeight(index: int, weight: real)
      modifies weights
      ensures weights[..] == SetWeight(old(weights[..]), index, weight)
    {
      if index >= 0 && index < weights.Length {
        weights[index] := Clamp(weight, 0.0, 100.0);
      }
    }
  }

  /** Writing one more channel after a run of writes. */
  lemma {:induction false} WriteAllSnoc(w: seq<real>, writes: seq<Write>, last: Write)
    ensures WriteAll(w, writes + [last]) == SetWeight(WriteAll(w, writes), last.index, last.weight)
    decreases |writes|
  {
    if writes == [] {
      assert writes + [last] == [last];
    } else {
      assert (writes + [last])[1..] == writes[1..] + [last];
      WriteAllSnoc(SetWeight(w, writes[0].index, writes[0].weight), writes[1..], last);
    }
  }
}
