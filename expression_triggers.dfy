/** ExpressionTriggers: per-frame rules that request cat expressions from gaze,
    from the recognised human expression and from idle time. The requests are
    what ExpressionManager.SetExpression receives. */
module ExpressionTriggering {
  import opened Options
  import Cat = CatExpressionTypes
  import Human = HumanExpressions


  /** The gaze handler as the rules see it: whether the cat is looked at and
      the gaze duration. */
  datatype GazeReading = GazeReading(isBeingLookedAt: bool, gazeDuration: real)

  const DefaultIdleExpressionInterval: real := 5.0

  /** CheckGazeTriggers. */
  function GazeRule(gaze: Option<GazeReading>, now: real, lastIdle: real, idleInterval: real): (r: Option<Cat.ExpressionRequest>)
  {
    match gaze
    case None => None
    case Some(g) =>
      if g.isBeingLookedAt then
        if g.gazeDuration > 0.5 && g.gazeDuration < 1.0 then Some(Cat.ExpressionRequest(Cat.Curious, 0.6, 1.0))
        else if g.gazeDuration > 2.0 then Some(Cat.ExpressionRequest(Cat.Focused, 0.8, 2.0))
        else None
      else if now - lastIdle > idleInterval then Some(Cat.ExpressionRequest(Cat.Neutral, 0.3, 1.0))
      else None
  }

  /** The gaze bands: a short gaze (0.5, 1) asks for Curious, a long one
      (over 2) for Focused, anything else while looked at asks for nothing;
      not being looked at asks for Neutral once the idle interval is exceeded. */
  lemma GazeBands(g: GazeReading, now: real, lastIdle: real, idleInterval: real)
    ensures var r := GazeRule(Some(g), now, lastIdle, idleInterval);
      g.isBeingLookedAt ==>
        (r == Some(Cat.ExpressionRequest(Cat.Curious, 0.6, 1.0)) <==> 0.5 < g.gazeDuration < 1.0)
        && (r == Some(Cat.ExpressionRequest(Cat.Focused, 0.8, 2.0)) <==> g.gazeDuration > 2.0)
        && (r.None? <==> g.gazeDuration <= 0.5 || 1.0 <= g.gazeDuration <= 2.0)
    ensures var r := GazeRule(Some(g), now, lastIdle, idleInterval);
      !g.isBeingLookedAt ==> (r.Some? <==> now - lastIdle > idleInterval) && (r.Some? ==> r.value == Cat.ExpressionRequest(Cat.Neutral, 0.3, 1.0))
    ensures GazeRule(None, now, lastIdle, idleInterval).None?
  {
  }

  /** CheckHumanExpressionTriggers: the human expression is matched by name
      against the cat's Happy, Sad and Surprised. */
  function HumanRule(recognized: Option<Human.ExpressionType>): Option<Cat.ExpressionRequest>
  {
    match recognized
    case None => None
    case Some(e) =>
      match e
      case Happy => Some(Cat.ExpressionRequest(Cat.Happy, 0.7, 2.0))
      case Sad => Some(Cat.ExpressionRequest(Cat.Sad, 0.6, 2.0))
      case Surprised => Some(Cat.ExpressionRequest(Cat.Surprised, 0.8, 1.5))
      case _ => None
  }

  /** A request answers the human expression with the cat expression of the
      same name, and only Happy, Sad and Surprised get one. */
  lemma HumanRuleMirrors(recognized: Option<Human.ExpressionType>)
    ensures HumanRule(recognized).Some? <==>
      recognized.Some? && recognized.value in {Human.Happy, Human.Sad, Human.Surprised}
    ensures HumanRule(recognized).Some? ==>
      Cat.Name(HumanRule(recognized).value.expression) == Human.Name(recognized.value)
  {
  }

  /** The idle part of CheckTimeBasedTriggers. Without a gaze handler the
      dereference throws once the interval is exceeded. */
  datatype IdleOutcome = IdleQuiet | IdleFired | NullHandlerFault

  function IdleRule(gaze: Option<GazeReading>, now: real, lastIdle: real, idleInterval: real): IdleOutcome
  {
    if now - lastIdle > idleInterval then
      match gaze
      case None => NullHandlerFault
      case Some(g) => if !g.isBeingLookedAt then IdleFired else IdleQuiet
    else IdleQuiet
  }

  datatype TriggerState = TriggerState(lastIdleExpressionTime: real, lastRandomExpressionTime: real)

  /** The frame's two random draws: Random.value in [0, 1] and
      Random.Range(0, 8), an index into the cat expressions in declaration
      order. */
  datatype RandomDraw = RandomDraw(roll: real, pick: nat)

  predicate ValidDraw(d: RandomDraw)
  {
    0.0 <= d.roll <= 1.0 && d.pick < |Cat.AllExpressionTypes|
  }

  const DefaultRandomExpressionChance: real := 0.1

  /** The random part of CheckTimeBasedTriggers: at most every 3 seconds, with
      probability randomChance, any cat expression at intensity 0.4. */
  function RandomRule(d: RandomDraw, now: real, lastRandom: real, randomChance: real): Option<Cat.ExpressionRequest>
    requires ValidDraw(d)
  {
    if now - lastRandom > 3.0 && d.roll < randomChance
    then Some(Cat.ExpressionRequest(Cat.AllExpressionTypes[d.pick], 0.4, 1.0))
    else None
  }

  datatype Frame = Frame(next: TriggerState, requests: seq<Cat.ExpressionRequest>, faulted: bool)

  function AsList(r: Option<Cat.ExpressionRequest>): seq<Cat.ExpressionRequest>
  {
    if r.Some? then [r.value] else []
  }

  /** One Update: the gaze rule, the human rule, the idle rule, then the
      random rule; the idle rule moves lastIdleExpressionTime and the random
      rule lastRandomExpressionTime. A fault in the idle rule ends the frame
      before the random rule. With no expression manager the requests go
      nowhere, but the times still move. */
  function UpdateStep(idleInterval: real, randomChance: real, hasManager: bool, s: TriggerState,
                      gaze: Option<GazeReading>, recognized: Option<Human.ExpressionType>, d: RandomDraw, now: real): Frame
    requires ValidDraw(d)
  {
    var first := AsList(GazeRule(gaze, now, s.lastIdleExpressionTime, idleInterval))
               + AsList(HumanRule(recognized));
    var idle := IdleRule(gaze, now, s.lastIdleExpressionTime, idleInterval);
    var random := if idle == NullHandlerFault then None else RandomRule(d, now, s.lastRandomExpressionTime, randomChance);
    var requests := first + (if idle == IdleFired then [Cat.ExpressionRequest(Cat.Neutral, 0.3, 1.0)] else []) + AsList(random);
    Frame(TriggerState(if idle == IdleFired then now else s.lastIdleExpressionTime,
                       if random.Some? then now else s.lastRandomExpressionTime),
          if hasManager then requests else [],
          idle == NullHandlerFault)
  }

  /** When the cat is not looked at and the interval is exceeded, the gaze rule
      and the idle rule both ask for Neutral in the same frame, and only the
      idle rule restarts the interval. */
  lemma IdleFiresTwice(idleInterval: real, randomChance: real, s: TriggerState, g: GazeReading, d: RandomDraw, now: real)
    requires ValidDraw(d) && !g.isBeingLookedAt && now - s.lastIdleExpressionTime > idleInterval
    requires RandomRule(d, now, s.lastRandomExpressionTime, randomChance).None?
    ensures var f := UpdateStep(idleInterval, randomChance, true, s, Some(g), None, d, now);
      f.requests == [Cat.ExpressionRequest(Cat.Neutral, 0.3, 1.0), Cat.ExpressionRequest(Cat.Neutral, 0.3, 1.0)]
      && f.next.lastIdleExpressionTime == now && !f.faulted
  {
  }

  /** lastIdleExpressionTime moves only when the idle request fires, and then
      to `now`; the next frame at a time within the interval fires no idle
      request. */
  lemma IdleRestartsInterval(idleInterval: real, randomChance: real, hasManager: bool, s: TriggerState,
                             gaze: Option<GazeReading>, recognized: Option<Human.ExpressionType>, d: RandomDraw, now: real, later: real)
    requires ValidDraw(d) && later - now <= idleInterval
    ensures var f := UpdateStep(idleInterval, randomChance, hasManager, s, gaze, recognized, d, now);
      f.next.lastIdleExpressionTime != s.lastIdleExpressionTime ==>
        (f.next.lastIdleExpressionTime == now
         && IdleRule(gaze, later, f.next.lastIdleExpressionTime, idleInterval) == IdleQuiet
         && GazeRule(gaze, later, f.next.lastIdleExpressionTime, idleInterval) != Some(Cat.ExpressionRequest(Cat.Neutral, 0.3, 1.0)))
  {
  }

  /** The random request comes last in its frame, only when the idle rule did
      not fault, more than 3 seconds after the previous one and with a roll
      below the chance; it restarts the 3-second wait. */
  lemma RandomRules(idleInterval: real, randomChance: real, s: TriggerState,
                    gaze: Option<GazeReading>, recognized: Option<Human.ExpressionType>, d: RandomDraw, now: real)
    requires ValidDraw(d)
    ensures var f := UpdateStep(idleInterval, randomChance, true, s, gaze, recognized, d, now);
      var fires := !f.faulted && now - s.lastRandomExpressionTime > 3.0 && d.roll < randomChance;
      (f.next.lastRandomExpressionTime != s.lastRandomExpressionTime ==> fires && f.next.lastRandomExpressionTime == now)
      && (fires ==> |f.requests| >= 1 && f.requests[|f.requests| - 1] == Cat.ExpressionRequest(Cat.AllExpressionTypes[d.pick], 0.4, 1.0)
                    && f.next.lastRandomExpressionTime == now)
  {
  }

  /** Every cat expression has an index the draw can pick. */
  lemma EveryExpressionCanBeDrawn(c: Cat.ExpressionType)
    ensures exists d: RandomDraw :: ValidDraw(d) && Cat.AllExpressionTypes[d.pick] == c
  {
    var i := match c
      case Neutral => 0 case Happy => 1 case Curious => 2 case Surprised => 3
      case Sleepy => 4 case Playful => 5 case Focused => 6 case Sad => 7;
    assert ValidDraw(RandomDraw(0.0, i)) && Cat.AllExpressionTypes[RandomDraw(0.0, i).pick] == c;
  }

  /** Without a gaze handler the gaze rule is off, and the idle rule faults
      once the interval is exceeded, leaving both times unchanged and skipping
      the random rule. */
  lemma MissingHandler(idleInterval: real, randomChance: real, hasManager: bool, s: TriggerState,
                       recognized: Option<Human.ExpressionType>, d: RandomDraw, now: real)
    requires ValidDraw(d) && now - s.lastIdleExpressionTime > idleInterval
    ensures var f := UpdateStep(idleInterval, randomChance, hasManager, s, None, recognized, d, now);
      f.next == s && f.faulted
      && f.requests == (if hasManager then AsList(HumanRule(recognized)) else [])
  {
  }

  class ExpressionTriggers {
    const idleExpressionInterval: real
    const randomExpressionChance: real
    const hasExpressionManager: bool
    var lastIdleExpressionTime: real
    var lastRandomExpressionTime: real
    /** Every SetExpression call so far. */
    var requested: seq<Cat.ExpressionRequest>

    constructor(interval: real, chance: real, hasManager: bool)
      ensures idleExpressionInterval == interval && randomExpressionChance == chance
      ensures hasExpressionManager == hasManager
      ensures lastIdleExpressionTime == 0.0 && lastRandomExpressionTime == 0.0 && requested == []
    {
      idleExpressionInterval := interval;
      randomExpressionChance := chance;
      hasExpressionManager := hasManager;
      lastIdleExpressionTime := 0.0;
      lastRandomExpressionTime := 0.0;
      requested := [];
    }

    /** Update; `faulted` reports the exception that ends the frame early. */
    method Update(gaze: Option<GazeReading>, recognized: Option<Human.ExpressionType>, d: RandomDraw, now: real) returns (faulted: bool)
      requires ValidDraw(d)
      modifies this
      ensures var f := UpdateStep(idleExpressionInterval, randomExpressionChance, hasExpressionManager,
                                  TriggerState(old(lastIdleExpressionTime), old(lastRandomExpressionTime)), gaze, recognized, d, now);
        lastIdleExpressionTime == f.next.lastIdleExpressionTime
        && lastRandomExpressionTime == f.next.lastRandomExpressionTime
        && requested == old(requested) + f.requests && faulted == f.faulted
    {
      ghost var f := UpdateStep(idleExpressionInterval, randomExpressionChance, hasExpressionManager,
                                TriggerState(lastIdleExpressionTime, lastRandomExpressionTime), gaze, recognized, d, now);
      var gazeRequest := GazeRule(gaze, now, lastIdleExpressionTime, idleExpressionInterval);
      var humanRequest := HumanRule(recognized);
      var first := AsList(gazeRequest) + AsList(humanRequest);
      if hasExpressionManager {
        requested := requested + first;
      }
      faulted := false;
      if now - lastIdleExpressionTime > idleExpressionInterval {
        if gaze.None? {
          faulted := true;
          assert f.requests == (if hasExpressionManager then first else []);
          return;
        }
        if !gaze.value.isBeingLookedAt {
          if hasExpressionManager {
            requested := requested + [Cat.ExpressionRequest(Cat.Neutral, 0.3, 1.0)];
          }
          lastIdleExpressionTime := now;
        }
      }
      if now - lastRandomExpressionTime > 3.0 && d.roll < randomExpressionChance {
        var randomExpression := Cat.AllExpressionTypes[d.pick];
        if hasExpressionManager {
          requested := requested + [Cat.ExpressionRequest(randomExpression, 0.4, 1.0)];
        }
        lastRandomExpressionTime := now;
      }
    }
  }
}
