/** ExpressionTester: steps an index through the cat's expression types,
    wrapping at both ends, and requests each with intensity 0.7. */
module ExpressionTesting {
  import opened CatExpressionTypes

  /** NextExpression's index update. */
  function NextIndex(i: int, n: nat): int
    requires n > 0
  {
    (i + 1) % n
  }

  /** PreviousExpression's index update; for i in [0, n) the operand is
      non-negative, so C#'s remainder agrees with Dafny's. */
  function PreviousIndex(i: int, n: nat): int
    requires n > 0
  {
    (i - 1 + n) % n
  }

  /** Both stay in range, and each undoes the other. */
  lemma IndexSteps(i: int, n: nat)
    requires n > 0 && 0 <= i < n
    ensures 0 <= NextIndex(i, n) < n && 0 <= PreviousIndex(i, n) < n
    ensures PreviousIndex(NextIndex(i, n), n) == i
    ensures NextIndex(PreviousIndex(i, n), n) == i
  {
    NextIndexWraps(i, n);
    PreviousIndexWraps(i, n);
    NextIndexWraps(PreviousIndex(i, n), n);
    PreviousIndexWraps(NextIndex(i, n), n);
  }

  lemma PreviousIndexWraps(x: int, n: nat)
    requires n > 0 && 0 <= x < n
    ensures PreviousIndex(x, n) == (if x > 0 then x - 1 else n - 1)
  {
  }

  lemma NextIndexWraps(x: int, n: nat)
    requires n > 0 && 0 <= x < n
    ensures NextIndex(x, n) == (if x + 1 < n then x + 1 else 0)
  {
  }

  function NextTimes(i: int, n: nat, k: nat): int
    requires n > 0
  {
    if k == 0 then i else NextIndex(NextTimes(i, n, k - 1), n)
  }

  /** k presses of Next (k at most n) move the index k places round the
      cycle; in particular n presses bring it back. */
  lemma {:induction false} NextTimesWraps(i: int, n: nat, k: nat)
    requires n > 0 && 0 <= i < n && k <= n
    ensures NextTimes(i, n, k) == (if i + k < n then i + k else i + k - n)
    ensures k == n ==> NextTimes(i, n, k) == i
  {
    if k > 0 {
      NextTimesWraps(i, n, k - 1);
      var p := NextTimes(i, n, k - 1);
      assert NextTimes(i, n, k) == NextIndex(p, n);
      NextIndexWraps(p, n);
    }
  }

  /** The index after one Update with an expression manager: a key press
      moves it one place (Next wins over Previous), then a due auto-cycle
      moves it one place forward. */
  function UpdateIndex(i: int, n: nat, nextPressed: bool, previousPressed: bool, cycleDue: bool): int
    requires n > 0
  {
    var pressed := if nextPressed then NextIndex(i, n) else if previousPressed then PreviousIndex(i, n) else i;
    if cycleDue then NextIndex(pressed, n) else pressed
  }

  /** An Update keeps the index in range; without a key press or a due cycle
      it keeps the index, and a Previous press undone by a due cycle leaves it
      where it was. */
  lemma UpdateIndexRules(i: int, n: nat, nextPressed: bool, previousPressed: bool, cycleDue: bool)
    requires n > 0 && 0 <= i < n
    ensures 0 <= UpdateIndex(i, n, nextPressed, previousPressed, cycleDue) < n
    ensures !nextPressed && !previousPressed && !cycleDue ==> UpdateIndex(i, n, nextPressed, previousPressed, cycleDue) == i
    ensures !nextPressed && previousPressed && cycleDue ==> UpdateIndex(i, n, nextPressed, previousPressed, cycleDue) == i
  {
    IndexSteps(i, n);
    IndexSteps(NextIndex(i, n), n);
    IndexSteps(PreviousIndex(i, n), n);
  }

  class ExpressionTester {
    const expressionTypes: seq<ExpressionType>
    const expressionDuration: real
    const autoCycle: bool
    const autoCycleInterval: real
    const hasExpressionManager: bool
    var currentIndex: int
    var lastCycleTime: real
    /** Every SetExpression call made on the expression manager. */
    var requested: seq<ExpressionRequest>

    ghost predicate Valid()
      reads this
    {
      if |expressionTypes| == 0 then currentIndex == 0 else 0 <= currentIndex < |expressionTypes|
    }

    /** After Start: the types are all the expression types (an empty list
        stands for the null array before Start). */
    constructor(types: seq<ExpressionType>, duration: real, cycle: bool, interval: real, hasManager: bool)
      ensures expressionTypes == types && expressionDuration == duration && autoCycle == cycle
      ensures autoCycleInterval == interval && hasExpressionManager == hasManager
      ensures currentIndex == 0 && lastCycleTime == 0.0 && requested == [] && Valid()
    {
      expressionTypes := types;
      expressionDuration := duration;
      autoCycle := cycle;
      autoCycleInterval := interval;
      hasExpressionManager := hasManager;
      currentIndex := 0;
      lastCycleTime := 0.0;
      requested := [];
    }

    method SetExpression(expression: ExpressionType)
      modifies this
      ensures currentIndex == old(currentIndex) && lastCycleTime == old(lastCycleTime)
      ensures requested == old(requested) + (if hasExpressionManager then [ExpressionRequest(expression, 0.7, expressionDuration)] else [])
    {
      if hasExpressionManager {
        requested := requested + [ExpressionRequest(expression, 0.7, expressionDuration)];
      }
    }

    method NextExpression()
      requires Valid()
      modifies this
      ensures Valid() && lastCycleTime == old(lastCycleTime)
      ensures |expressionTypes| == 0 ==> currentIndex == old(currentIndex) && requested == old(requested)
      ensures |expressionTypes| > 0 ==>
                (currentIndex == NextIndex(old(currentIndex), |expressionTypes|)
                 && requested == old(requested) + (if hasExpressionManager then [ExpressionRequest(expressionTypes[currentIndex], 0.7, expressionDuration)] else []))
    {
      if |expressionTypes| == 0 {
        return;
      }
      IndexSteps(currentIndex, |expressionTypes|);
      currentIndex := (currentIndex + 1) % |expressionTypes|;
      SetExpression(expressionTypes[currentIndex]);
    }

    method PreviousExpression()
      requires Valid()
      modifies this
      ensures Valid() && lastCycleTime == old(lastCycleTime)
      ensures |expressionTypes| == 0 ==> currentIndex == old(currentIndex) && requested == old(requested)
      ensures |expressionTypes| > 0 ==>
                (currentIndex == PreviousIndex(old(currentIndex), |expressionTypes|)
                 && requested == old(requested) + (if hasExpressionManager then [ExpressionRequest(expressionTypes[currentIndex], 0.7, expressionDuration)] else []))
    {
      if |expressionTypes| == 0 {
        return;
      }
      IndexSteps(currentIndex, |expressionTypes|);
      currentIndex := (currentIndex - 1 + |expressionTypes|) % |expressionTypes|;
      SetExpression(expressionTypes[currentIndex]);
    }

    /** Update with the two key presses as inputs; auto-cycling moves on only
        once more than autoCycleInterval has passed since the last cycle. */
    method Update(nextPressed: bool, previousPressed: bool, now: real)
      requires Valid()
      modifies this
      ensures Valid()
      ensures !hasExpressionManager ==> currentIndex == old(currentIndex) && lastCycleTime == old(lastCycleTime)
      ensures hasExpressionManager && |expressionTypes| > 0 ==>
        currentIndex == UpdateIndex(old(currentIndex), |expressionTypes|, nextPressed, previousPressed,
                                    autoCycle && now - old(lastCycleTime) > autoCycleInterval)
      ensures hasExpressionManager && autoCycle && now - old(lastCycleTime) > autoCycleInterval ==> lastCycleTime == now
      ensures !(hasExpressionManager && autoCycle && now - old(lastCycleTime) > autoCycleInterval) ==> lastCycleTime == old(lastCycleTime)
    {
      if !hasExpressionManager {
        return;
      }
      if nextPressed {
        NextExpression();
      } else if previousPressed {
        PreviousExpression();
      }
      if autoCycle && now - lastCycleTime > autoCycleInterval {
        NextExpression();
        lastCycleTime := now;
      }
    }
  }
}
