/** GazeHitDetector: turns the per-frame raycast outcome into Focused,
    Highlighted and Unfocused events for one shape at a time. */
module GazeHitDetection {
  import opened Options

  /** A VolumetricShape, identified by an opaque id. */
  type ShapeId = nat

  /** What the gaze raycast reported this frame. */
  datatype RaycastOutcome = NoHit | HitOtherCollider | HitShape(shape: ShapeId)

  /** Everything the detector does that others can observe, in order: the three
      C# events and the calls it makes on shapes. */
  datatype Action =
    | ShapeFocused(shape: ShapeId)
    | ShapeUnfocused(shape: ShapeId)
    | ShapeHighlighted(shape: ShapeId)
    | SetFocusedCall(shape: ShapeId, value: bool)
    | SetHighlightedCall(shape: ShapeId, value: bool)

  /** The serialized settings (defaults 0.5 s and 0.2 s). */
  datatype Config = Config(focusDwellTime: real, unfocusTime: real)

  const DefaultConfig := Config(0.5, 0.2)

  /** The detector's fields: the current shape, when focus on it started, and
      whether the dwell highlight has fired for it. */
  datatype FocusState = FocusState(current: Option<ShapeId>, focusStartTime: real, isFocused: bool)

  const InitialState := FocusState(None, 0.0, false)

  /** isFocused can only be set while a shape is current. */
  predicate Consistent(s: FocusState)
  {
    s.isFocused ==> s.current.Some?
  }

  datatype Step = Step(next: FocusState, emitted: seq<Action>)

  /** HandleShapeHit as a function of the old fields. */
  function ShapeHitStep(cfg: Config, s: FocusState, shape: ShapeId, now: real): Step
  {
    if s.current != Some(shape) then
      var leave := if s.current.Some? then [ShapeUnfocused(s.current.value), SetFocusedCall(s.current.value, false)] else [];
      Step(FocusState(Some(shape), now, false), leave + [ShapeFocused(shape), SetFocusedCall(shape, true)])
    else if !s.isFocused && now - s.focusStartTime >= cfg.focusDwellTime then
      Step(s.(isFocused := true), [ShapeHighlighted(shape), SetHighlightedCall(shape, true)])
    else
      Step(s, [])
  }

  /** ClearFocus as a function of the old fields. */
  function ClearFocusStep(cfg: Config, s: FocusState, now: real): Step
  {
    if s.current.Some? && now - s.focusStartTime >= cfg.unfocusTime then
      var gone := s.current.value;
      Step(FocusState(None, s.focusStartTime, false),
           [ShapeUnfocused(gone), SetFocusedCall(gone, false), SetHighlightedCall(gone, false)])
    else
      Step(s, [])
  }

  /** Update: a hit on a shape is handled; a miss or a hit on anything else
      clears focus. */
  function UpdateStep(cfg: Config, s: FocusState, outcome: RaycastOutcome, now: real): Step
  {
    match outcome
    case HitShape(shape) => ShapeHitStep(cfg, s, shape, now)
    case _ => ClearFocusStep(cfg, s, now)
  }

  // ---------------------------------------------------------------------------
  // The focus-session protocol of the emitted events.

  /** The observer's view of the event stream: which shape has an open focus
      session, and whether it has been highlighted during that session. */
  datatype Session = Session(open: Option<ShapeId>, highlighted: bool)

  /** One event of the protocol Focused(x) -> [Highlighted(x)] -> Unfocused(x):
      a Focused needs no open session, Unfocused and Highlighted name the open
      shape, and Highlighted may occur once per session. Calls on shapes do not
      take part. None means the event breaks the protocol. */
  function Advance(s: Session, a: Action): Option<Session>
  {
    match a
    case ShapeFocused(x) => if s.open.None? then Some(Session(Some(x), false)) else None
    case ShapeUnfocused(x) => if s.open == Some(x) then Some(Session(None, false)) else None
    case ShapeHighlighted(x) => if s.open == Some(x) && !s.highlighted then Some(Session(s.open, true)) else None
    case SetFocusedCall(_, _) => Some(s)
    case SetHighlightedCall(_, _) => Some(s)
  }

  /** The session reached by replaying a whole trace, or None if it breaks the protocol. */
  function Replay(trace: seq<Action>, from: Session): Option<Session>
    decreases |trace|
  {
    if trace == [] then Some(from)
    else
      match Advance(from, trace[0])
      case None => None
      case Some(n) => Replay(trace[1..], n)
  }

  function ReplayThen(r: Option<Session>, trace: seq<Action>): Option<Session>
  {
    match r
    case None => None
    case Some(m) => Replay(trace, m)
  }

  /** Replaying a concatenation replays the parts one after the other. */
  lemma {:induction false} ReplayAppend(t1: seq<Action>, t2: seq<Action>, from: Session)
    ensures Replay(t1 + t2, from) == ReplayThen(Replay(t1, from), t2)
    decreases |t1|
  {
    if t1 == [] {
      assert t1 + t2 == t2;
    } else {
      assert (t1 + t2)[0] == t1[0];
      assert (t1 + t2)[1..] == t1[1..] + t2;
      match Advance(from, t1[0])
      case None =>
      case Some(n) => ReplayAppend(t1[1..], t2, n);
    }
  }

  function SessionOf(s: FocusState): Session
  {
    Session(s.current, s.isFocused)
  }

  /** Every step keeps isFocused ==> current, and what it emits continues the
      protocol from the session the fields describe to the one the new fields
      describe: Highlighted fires at most once per focus session, and focus
      events for a shape come in the order Focused, [Highlighted], Unfocused. */
  lemma UpdateFollowsProtocol(cfg: Config, s: FocusState, outcome: RaycastOutcome, now: real)
    requires Consistent(s)
    ensures Consistent(UpdateStep(cfg, s, outcome, now).next)
    ensures Replay(UpdateStep(cfg, s, outcome, now).emitted, SessionOf(s))
         == Some(SessionOf(UpdateStep(cfg, s, outcome, now).next))
  {
    var st := UpdateStep(cfg, s, outcome, now);
    var t := st.emitted;
    var closed := Session(None, false);
    if outcome.HitShape? && s.current != Some(outcome.shape) {
      var b := outcome.shape;
      var focusedOn := Session(Some(b), false);
      var tail := [ShapeFocused(b), SetFocusedCall(b, true)];
      assert Replay(tail[1..], focusedOn) == Some(focusedOn);
      assert Replay(tail, closed) == Some(focusedOn);
      if s.current.Some? {
        var a := s.current.value;
        var head := [ShapeUnfocused(a), SetFocusedCall(a, false)];
        assert t == head + tail;
        assert Replay(head[1..], closed) == Some(closed);
        assert Replay(head, SessionOf(s)) == Some(closed);
        ReplayAppend(head, tail, SessionOf(s));
      } else {
        assert t == tail;
      }
    } else if t != [] && outcome.HitShape? {
      var x := outcome.shape;
      assert t == [ShapeHighlighted(x), SetHighlightedCall(x, true)];
      assert Replay(t[1..], Session(Some(x), true)) == Some(Session(Some(x), true));
    } else if t != [] {
      var a := s.current.value;
      assert t == [ShapeUnfocused(a), SetFocusedCall(a, false), SetHighlightedCall(a, false)];
      assert Replay(t[1..][1..], closed) == Some(closed);
      assert Replay(t[1..], closed) == Some(closed);
    }
  }

  // ---------------------------------------------------------------------------
  // The individual rules.

  /** Hitting a shape other than the current one first un-focuses the old shape
      (event, then SetFocused(false)) and then focuses the new one; focus starts
      now and the dwell highlight is re-armed. The old shape is never told
      SetHighlighted(false), so a highlighted old shape stays highlighted. */
  lemma SwitchingShapes(cfg: Config, s: FocusState, a: ShapeId, b: ShapeId, now: real)
    requires s.current == Some(a) && a != b
    ensures UpdateStep(cfg, s, HitShape(b), now).next == FocusState(Some(b), now, false)
    ensures UpdateStep(cfg, s, HitShape(b), now).emitted
         == [ShapeUnfocused(a), SetFocusedCall(a, false), ShapeFocused(b), SetFocusedCall(b, true)]
    ensures SetHighlightedCall(a, false) !in UpdateStep(cfg, s, HitShape(b), now).emitted
  {
  }

  /** Hitting the current shape emits Highlighted (and calls SetHighlighted(true))
      exactly when the highlight has not fired yet and the dwell time, measured
      from focus start, has elapsed; otherwise nothing changes. */
  lemma DwellHighlight(cfg: Config, s: FocusState, x: ShapeId, now: real)
    requires s.current == Some(x)
    ensures var st := UpdateStep(cfg, s, HitShape(x), now);
      if !s.isFocused && now - s.focusStartTime >= cfg.focusDwellTime
      then st.next == s.(isFocused := true) && st.emitted == [ShapeHighlighted(x), SetHighlightedCall(x, true)]
      else st.next == s && st.emitted == []
  {
  }

  /** Once highlighted, further hits on the same shape are silent. */
  lemma HighlightedShapeIsQuiet(cfg: Config, s: FocusState, x: ShapeId, now: real)
    requires s.current == Some(x) && s.isFocused
    ensures UpdateStep(cfg, s, HitShape(x), now) == Step(s, [])
  {
  }

  /** A miss (no hit, or a hit on a collider that is not a shape) ends focus
      exactly when a shape is current and unfocusTime has elapsed since focus
      STARTED; ending emits Unfocused once, un-focuses and un-highlights the
      shape, and clears the current shape and isFocused. */
  lemma MissEndsFocus(cfg: Config, s: FocusState, outcome: RaycastOutcome, now: real)
    requires !outcome.HitShape?
    ensures var st := UpdateStep(cfg, s, outcome, now);
      if s.current.Some? && now - s.focusStartTime >= cfg.unfocusTime
      then st.next == FocusState(None, s.focusStartTime, false)
        && st.emitted == [ShapeUnfocused(s.current.value), SetFocusedCall(s.current.value, false),
                          SetHighlightedCall(s.current.value, false)]
      else st == Step(s, [])
  {
  }

  /** The grace period is measured from focus start, not from the last hit: a
      shape hit at 0 and again at 0.6 loses focus on a single miss at 0.61,
      although gaze left it only 0.01 s earlier. */
  lemma GraceCountsFromFocusStart()
    ensures var s0 := UpdateStep(DefaultConfig, InitialState, HitShape(7), 0.0).next;
      var s1 := UpdateStep(DefaultConfig, s0, HitShape(7), 0.6).next;
      UpdateStep(DefaultConfig, s1, NoHit, 0.61).emitted
        == [ShapeUnfocused(7), SetFocusedCall(7, false), SetHighlightedCall(7, false)]
  {
  }

  // ---------------------------------------------------------------------------
  // The component.

  class GazeHitDetector {
    const config: Config
    var currentFocusedShape: Option<ShapeId>
    var focusStartTime: real
    var isFocused: bool
    /** Everything emitted so far. */
    var trace: seq<Action>

    function State(): FocusState
      reads this
    {
      FocusState(currentFocusedShape, focusStartTime, isFocused)
    }

    /** The fields are consistent and the trace so far obeys the focus-session
        protocol, ending in the session the fields describe. */
    ghost predicate Valid()
      reads this
    {
      Consistent(State()) && Replay(trace, Session(None, false)) == Some(SessionOf(State()))
    }

    constructor (cfg: Config)
      ensures Valid() && config == cfg && State() == InitialState && trace == []
    {
      config := cfg;
      currentFocusedShape := None;
      focusStartTime := 0.0;
      isFocused := false;
      trace := [];
    }

    /** One frame, given the raycast outcome and Time.time. */
    method Update(outcome: RaycastOutcome, now: real)
      requires Valid()
      modifies this
      ensures Valid()
      ensures State() == UpdateStep(config, old(State()), outcome, now).next
      ensures trace == old(trace) + UpdateStep(config, old(State()), outcome, now).emitted
    {
      ghost var before := State();
      ghost var t0 := trace;
      match outcome {
        case HitShape(shape) => HandleShapeHit(shape, now);
        case _ => ClearFocus(now);
      }
      UpdateFollowsProtocol(config, before, outcome, now);
      ReplayAppend(t0, UpdateStep(config, before, outcome, now).emitted, Session(None, false));
    }

    method HandleShapeHit(shape: ShapeId, now: real)
      modifies this
      ensures State() == ShapeHitStep(config, old(State()), shape, now).next
      ensures trace == old(trace) + ShapeHitStep(config, old(State()), shape, now).emitted
    {
      if currentFocusedShape != Some(shape) {
        if currentFocusedShape.Some? {
          trace := trace + [ShapeUnfocused(currentFocusedShape.value)];
          trace := trace + [SetFocusedCall(currentFocusedShape.value, false)];
        }
        currentFocusedShape := Some(shape);
        focusStartTime := now;
        isFocused := false;
        trace := trace + [ShapeFocused(shape)];
        trace := trace + [SetFocusedCall(shape, true)];
      } else if !isFocused && now - focusStartTime >= config.focusDwellTime {
        isFocused := true;
        trace := trace + [ShapeHighlighted(shape)];
        trace := trace + [SetHighlightedCall(shape, true)];
      }
    }

    method ClearFocus(now: real)
      modifies this
      ensures State() == ClearFocusStep(config, old(State()), now).next
      ensures trace == old(trace) + ClearFocusStep(config, old(State()), now).emitted
    {
      if currentFocusedShape.Some? {
        if now - focusStartTime >= config.unfocusTime {
          var shape := currentFocusedShape.value;
          trace := trace + [ShapeUnfocused(shape)];
          trace := trace + [SetFocusedCall(shape, false)];
          trace := trace + [SetHighlightedCall(shape, false)];
          currentFocusedShape := None;
          isFocused := false;
        }
      }
    }
  }
}
