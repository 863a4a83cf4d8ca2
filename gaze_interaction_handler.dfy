/** GazeInteractionHandler: decides, frame by frame, whether the user is looking
    at the cat face and reports gaze start, duration and end. */
module GazeInteraction {
  import opened Options

  /** The per-frame inputs CheckGazeInteraction consults. TrackerUnavailable
      covers a missing raycaster, a missing eye-tracker manager and a tracker
      that reports itself disconnected; HitCatFace is a hit on the cat face's
      own collider or one of its children. */
  datatype GazeInput = TrackerUnavailable | NoHit | HitCatFace | HitElsewhere

  /** The three C# events, in the order they fire. */
  datatype GazeEvent = GazeStarted | GazeEnded | GazeDurationUpdated(duration: real)

  /** How long gaze may leave the face before the gaze counts as ended. */
  const GazeLossGrace: real := 0.2

  datatype GazeState = GazeState(isBeingLookedAt: bool, gazeStartTime: real, lastGazeTime: real)

  const InitialState := GazeState(false, 0.0, 0.0)

  datatype Step = Step(next: GazeState, emitted: seq<GazeEvent>)

  /** CheckGazeInteraction as a function of the old fields. */
  function CheckStep(s: GazeState, input: GazeInput, now: real): Step
  {
    match input
    case TrackerUnavailable => Step(s, [])
    case HitCatFace =>
      if !s.isBeingLookedAt then Step(GazeState(true, now, now), [GazeStarted])
      else Step(s.(lastGazeTime := now), [GazeDurationUpdated(now - s.gazeStartTime)])
    case _ =>
      if s.isBeingLookedAt && now - s.lastGazeTime > GazeLossGrace then Step(s.(isBeingLookedAt := false), [GazeEnded])
      else Step(s, [])
  }

  /** GetGazeDuration: time since gaze started, or 0 when nobody is looking. */
  function GazeDuration(s: GazeState, now: real): (r: real)
    ensures !s.isBeingLookedAt ==> r == 0.0
    ensures s.isBeingLookedAt && s.gazeStartTime <= now ==> r >= 0.0
  {
    if s.isBeingLookedAt then now - s.gazeStartTime else 0.0
  }

  /** The observer's view of the event stream: starts and ends alternate,
      beginning with a start, and durations are only reported between a start
      and its end. Returns whether gaze is open after the trace, or None if the
      trace breaks that pattern. */
  function Replay(trace: seq<GazeEvent>, looking: bool): Option<bool>
    decreases |trace|
  {
    if trace == [] then Some(looking)
    else
      match trace[0]
      case GazeStarted => if looking then None else Replay(trace[1..], true)
      case GazeEnded => if looking then Replay(trace[1..], false) else None
      case GazeDurationUpdated(_) => if looking then Replay(trace[1..], true) else None
  }

  function ReplayThen(r: Option<bool>, trace: seq<GazeEvent>): Option<bool>
  {
    match r
    case None => None
    case Some(l) => Replay(trace, l)
  }

  lemma {:induction false} ReplayAppend(t1: seq<GazeEvent>, t2: seq<GazeEvent>, looking: bool)
    ensures Replay(t1 + t2, looking) == ReplayThen(Replay(t1, looking), t2)
    decreases |t1|
  {
    if t1 == [] {
      assert t1 + t2 == t2;
    } else {
      assert (t1 + t2)[0] == t1[0];
      assert (t1 + t2)[1..] == t1[1..] + t2;
      match t1[0]
      case GazeStarted => if !looking { ReplayAppend(t1[1..], t2, true); }
      case GazeEnded => if looking { ReplayAppend(t1[1..], t2, false); }
      case GazeDurationUpdated(_) => if looking { ReplayAppend(t1[1..], t2, true); }
    }
  }

  /** Every frame continues the start/end alternation from the looked-at flag
      it found to the one it leaves. */
  lemma CheckFollowsProtocol(s: GazeState, input: GazeInput, now: real)
    ensures Replay(CheckStep(s, input, now).emitted, s.isBeingLookedAt)
         == Some(CheckStep(s, input, now).next.isBeingLookedAt)
  {
  }

  /** Gaze only ends after more than 0.2 s without a hit on the face, and a
      frame that hits the face never ends it. */
  lemma EndNeedsGraceElapsed(s: GazeState, input: GazeInput, now: real)
    requires GazeEnded in CheckStep(s, input, now).emitted
    ensures input == NoHit || input == HitElsewhere
    ensures s.isBeingLookedAt && now - s.lastGazeTime > GazeLossGrace
  {
  }

  /** A hit on the face keeps or starts gaze and records the hit time; the
      reported duration is the one GetGazeDuration returns at that moment. */
  lemma HitKeepsGaze(s: GazeState, now: real)
    ensures CheckStep(s, HitCatFace, now).next.isBeingLookedAt
    ensures CheckStep(s, HitCatFace, now).next.lastGazeTime == now
    ensures s.isBeingLookedAt ==>
      CheckStep(s, HitCatFace, now).emitted == [GazeDurationUpdated(GazeDuration(s, now))]
      && CheckStep(s, HitCatFace, now).next.gazeStartTime == s.gazeStartTime
    ensures !s.isBeingLookedAt ==>
      CheckStep(s, HitCatFace, now).emitted == [GazeStarted]
      && GazeDuration(CheckStep(s, HitCatFace, now).next, now) == 0.0
  {
  }

  /** Without a connected tracker nothing happens at all. */
  lemma UnavailableIsSilent(s: GazeState, now: real)
    ensures CheckStep(s, TrackerUnavailable, now) == Step(s, [])
  {
  }

  class GazeInteractionHandler {
    var isBeingLookedAt: bool
    var gazeStartTime: real
    var lastGazeTime: real
    /** Every event fired so far. */
    var trace: seq<GazeEvent>
    /** The latest frame time seen; Time.time never decreases. */
    ghost var clock: real

    function State(): GazeState
      reads this
    {
      GazeState(isBeingLookedAt, gazeStartTime, lastGazeTime)
    }

    /** Events alternate as the protocol demands and end in the current flag;
        gaze started no later than the last hit, which is not in the future. */
    ghost predicate Valid()
      reads this
    {
      Replay(trace, false) == Some(isBeingLookedAt)
      && (isBeingLookedAt ==> gazeStartTime <= lastGazeTime)
      && lastGazeTime <= clock
    }

    constructor ()
      ensures Valid() && State() == InitialState && trace == []
    {
      isBeingLookedAt := false;
      gazeStartTime := 0.0;
      lastGazeTime := 0.0;
      trace := [];
      clock := 0.0;
    }

    method CheckGazeInteraction(input: GazeInput, now: real)
      requires Valid() && clock <= now
      modifies this
      ensures Valid() && clock == now
      ensures State() == CheckStep(old(State()), input, now).next
      ensures trace == old(trace) + CheckStep(old(State()), input, now).emitted
    {
      ghost var before := State();
      ghost var t0 := trace;
      match input {
        case TrackerUnavailable =>
        case HitCatFace =>
          if !isBeingLookedAt {
            isBeingLookedAt := true;
            gazeStartTime := now;
            trace := trace + [GazeStarted];
          } else {
            var gazeDuration := now - gazeStartTime;
            trace := trace + [GazeDurationUpdated(gazeDuration)];
          }
          lastGazeTime := now;
        case _ =>
          if isBeingLookedAt && now - lastGazeTime > GazeLossGrace {
            isBeingLookedAt := false;
            trace := trace + [GazeEnded];
          }
      }
      clock := now;
      CheckFollowsProtocol(before, input, now);
      ReplayAppend(t0, CheckStep(before, input, now).emitted, false);
    }

    method IsBeingLookedAt() returns (r: bool)
      ensures r == isBeingLookedAt
    {
      r := isBeingLookedAt;
    }

    /** Never negative once time has caught up with the last frame. */
    method GetGazeDuration(now: real) returns (r: real)
      requires Valid() && clock <= now
      ensures r == GazeDuration(State(), now)
      ensures r >= 0.0
    {
      if isBeingLookedAt {
        r := now - gazeStartTime;
      } else {
        r := 0.0;
      }
    }
  }
}
