/** ResponseEvolution: per (human expression, cat response) success counters,
    a per-response weight that moves toward the latest effectiveness, and the
    arg-max query that picks the best response for an expression. */
module ResponseLearning {
  import opened Numeric
  import opened HumanExpressions

  /** One ResponseEffectiveness record. */
  datatype ResponseEffectiveness = ResponseEffectiveness(
    humanExpression: ExpressionType,
    catResponse: string,
    successCount: int,
    totalCount: int)

  /** The `effectiveness` property: the success ratio, 0 before any use. */
  function Effectiveness(r: ResponseEffectiveness): (e: real)
    ensures r.totalCount <= 0 ==> e == 0.0
    ensures 0 <= r.successCount <= r.totalCount ==> 0.0 <= e <= 1.0
    ensures 0 < r.totalCount && r.successCount == r.totalCount ==> e == 1.0
    ensures r.successCount == 0 ==> e == 0.0
  {
    if r.totalCount > 0 then r.successCount as real / r.totalCount as real else 0.0
  }

  /** The learner's two collections. */
  datatype Learner = Learner(db: seq<ResponseEffectiveness>, weights: map<string, real>)

  const EmptyLearner := Learner([], map[])

  predicate SameKey(r: ResponseEffectiveness, h: ExpressionType, c: string)
  {
    r.humanExpression == h && r.catResponse == c
  }

  /** At most one record per (expression, response) pair; every record has
      been used at least once and has 0 <= successes <= uses; every weight
      lies in [0,1]. */
  ghost predicate Wf(l: Learner)
  {
    (forall i, j :: 0 <= i < j < |l.db| ==> !SameKey(l.db[j], l.db[i].humanExpression, l.db[i].catResponse))
    && (forall i :: 0 <= i < |l.db| ==> 0 <= l.db[i].successCount <= l.db[i].totalCount && 1 <= l.db[i].totalCount)
    && (forall c :: c in l.weights ==> InUnit(l.weights[c]))
  }

  /** The position FindOrCreateResponse's loop finds: the first record for
      the pair, or -1. */
  function IndexOfEntry(db: seq<ResponseEffectiveness>, h: ExpressionType, c: string): (i: int)
    ensures -1 <= i < |db|
    ensures i >= 0 ==> SameKey(db[i], h, c) && forall j :: 0 <= j < i ==> !SameKey(db[j], h, c)
    ensures i == -1 ==> forall j :: 0 <= j < |db| ==> !SameKey(db[j], h, c)
    decreases |db|
  {
    if |db| == 0 then -1
    else
      var k := IndexOfEntry(db[..|db| - 1], h, c);
      if k >= 0 then k
      else if SameKey(db[|db| - 1], h, c) then |db| - 1
      else -1
  }

  /** GetResponseWeight: 1 for a response never weighted. */
  function ResponseWeight(weights: map<string, real>, c: string): real
  {
    if c in weights then weights[c] else 1.0
  }

  /** UpdateResponseWeight: an unknown response starts at 1, then the weight
      moves a fraction evolutionRate of the way toward the effectiveness. */
  function UpdateWeight(weights: map<string, real>, c: string, effectiveness: real, rate: real): map<string, real>
  {
    weights[c := Lerp(ResponseWeight(weights, c), effectiveness, rate)]
  }

  /** The new weight lies between the old weight (1 if none) and the
      effectiveness, whatever the rate, because Mathf.Lerp clamps its
      parameter; no other response's weight changes. */
  lemma UpdateWeightBetween(weights: map<string, real>, c: string, eff: real, rate: real)
    ensures var w := ResponseWeight(weights, c);
      var r := UpdateWeight(weights, c, eff, rate);
      c in r && (w <= eff ==> w <= r[c] <= eff) && (eff <= w ==> eff <= r[c] <= w)
    ensures forall d :: d != c ==> (d in UpdateWeight(weights, c, eff, rate) <==> d in weights)
    ensures forall d :: d != c && d in weights ==> UpdateWeight(weights, c, eff, rate)[d] == weights[d]
    ensures rate <= 0.0 ==> UpdateWeight(weights, c, eff, rate)[c] == ResponseWeight(weights, c)
    ensures rate >= 1.0 ==> UpdateWeight(weights, c, eff, rate)[c] == eff
  {
  }

  /** RecordResponse: find or append the record, count the use (and the
      success), then update the response's weight with the new effectiveness. */
  function Record(l: Learner, rate: real, h: ExpressionType, c: string, wasEffective: bool): Learner
  {
    var i := IndexOfEntry(l.db, h, c);
    var db := if i >= 0 then l.db else l.db + [ResponseEffectiveness(h, c, 0, 0)];
    var k := if i >= 0 then i else |l.db|;
    var e := db[k];
    var counted := e.(totalCount := e.totalCount + 1,
                      successCount := if wasEffective then e.successCount + 1 else e.successCount);
    Learner(db[k := counted], UpdateWeight(l.weights, c, Effectiveness(counted), rate))
  }

  /** Recording keeps the invariant for every evolution rate. */
  lemma RecordKeepsWf(l: Learner, rate: real, h: ExpressionType, c: string, wasEffective: bool)
    requires Wf(l)
    ensures Wf(Record(l, rate, h, c, wasEffective))
  {
    var r := Record(l, rate, h, c, wasEffective);
    var i := IndexOfEntry(l.db, h, c);
    var k := if i >= 0 then i else |l.db|;
    var counted := r.db[k];
    assert 0 <= counted.successCount <= counted.totalCount;
    UpdateWeightBetween(l.weights, c, Effectiveness(counted), rate);
    forall d | d in r.weights
      ensures InUnit(r.weights[d])
    {
      if d != c {
        assert d in l.weights;
      }
    }
  }

  /** Recording counts one more use of the pair (and one more success when
      effective) and leaves every other record where it was and as it was; a
      new pair is appended at the end, a known one is never duplicated. */
  lemma RecordCounts(l: Learner, rate: real, h: ExpressionType, c: string, wasEffective: bool)
    requires Wf(l)
    ensures var r := Record(l, rate, h, c, wasEffective);
      var i := IndexOfEntry(l.db, h, c);
      var k := if i >= 0 then i else |l.db|;
      (i >= 0 ==> |r.db| == |l.db|) && (i < 0 ==> |r.db| == |l.db| + 1)
      && SameKey(r.db[k], h, c)
      && r.db[k].totalCount == (if i >= 0 then l.db[i].totalCount else 0) + 1
      && r.db[k].successCount == (if i >= 0 then l.db[i].successCount else 0) + (if wasEffective then 1 else 0)
      && (forall j :: 0 <= j < |l.db| && j != k ==> r.db[j] == l.db[j])
  {
  }

  /** The weight is keyed by the response alone: recording a response for one
      expression moves the weight that every other expression's record of the
      same response is scored with. */
  lemma WeightSharedAcrossExpressions(l: Learner, rate: real, h: ExpressionType, c: string, wasEffective: bool, j: int)
    requires Wf(l) && 0 <= j < |l.db| && l.db[j].catResponse == c && l.db[j].humanExpression != h
    ensures Record(l, rate, h, c, wasEffective).db[j] == l.db[j]
    ensures ResponseWeight(Record(l, rate, h, c, wasEffective).weights, c)
         == Lerp(ResponseWeight(l.weights, c), Effectiveness(Record(l, rate, h, c, wasEffective).db[IndexOrEnd(l.db, h, c)]), rate)
  {
  }

  function IndexOrEnd(db: seq<ResponseEffectiveness>, h: ExpressionType, c: string): nat
  {
    var i := IndexOfEntry(db, h, c);
    if i >= 0 then i else |db|
  }

  /** CanEvolve: enough distinct pairs have been recorded. */
  function HasEnoughPairs(l: Learner, minInteractions: int): bool
  {
    |l.db| >= minInteractions
  }

  /** CanEvolve counts distinct pairs, not interactions: recording a known pair
      again never changes the answer, and a new pair adds exactly one. */
  lemma CanEvolveCountsPairs(l: Learner, rate: real, h: ExpressionType, c: string, wasEffective: bool, minInteractions: int)
    requires Wf(l)
    ensures IndexOfEntry(l.db, h, c) >= 0 ==>
      HasEnoughPairs(Record(l, rate, h, c, wasEffective), minInteractions) == HasEnoughPairs(l, minInteractions)
    ensures IndexOfEntry(l.db, h, c) < 0 ==> |Record(l, rate, h, c, wasEffective).db| == |l.db| + 1
  {
  }

  /** The score GetBestResponse maximises. */
  function Score(l: Learner, i: int): real
    requires 0 <= i < |l.db|
  {
    Effectiveness(l.db[i]) * ResponseWeight(l.weights, l.db[i].catResponse)
  }

  lemma ScoreInUnit(l: Learner, i: int)
    requires Wf(l) && 0 <= i < |l.db|
    ensures 0.0 <= Score(l, i) <= 1.0
  {
    var e := Effectiveness(l.db[i]);
    var w := ResponseWeight(l.weights, l.db[i].catResponse);
    MulNonNegative(e, w);
    MulNonNegative(e, 1.0 - w);
    assert e * (1.0 - w) == e - e * w;
  }

  /** The response GetBestResponse returns, with the record it came from. */
  predicate IsBest(l: Learner, h: ExpressionType, i: int)
  {
    0 <= i < |l.db| && l.db[i].humanExpression == h
    && (forall j :: 0 <= j < |l.db| && l.db[j].humanExpression == h ==> Score(l, j) <= Score(l, i))
    && (forall j :: 0 <= j < i && l.db[j].humanExpression == h ==> Score(l, j) < Score(l, i))
  }

  class ResponseEvolution {
    const evolutionRate: real
    const minInteractionsForEvolution: int
    var responseDatabase: seq<ResponseEffectiveness>
    var responseWeights: map<string, real>

    function State(): Learner
      reads this
    {
      Learner(responseDatabase, responseWeights)
    }

    ghost predicate Valid()
      reads this
    {
      Wf(State())
    }

    constructor (rate: real, minInteractions: int)
      ensures Valid() && State() == EmptyLearner
      ensures evolutionRate == rate && minInteractionsForEvolution == minInteractions
    {
      evolutionRate := rate;
      minInteractionsForEvolution := minInteractions;
      responseDatabase := [];
      responseWeights := map[];
    }

    method RecordResponse(h: ExpressionType, catResponse: string, wasEffective: bool)
      requires Valid()
      modifies this
      ensures Valid() && State() == Record(old(State()), evolutionRate, h, catResponse, wasEffective)
    {
      RecordKeepsWf(State(), evolutionRate, h, catResponse, wasEffective);
      var k := FindOrCreateResponse(h, catResponse);
      var response := responseDatabase[k];
      response := response.(totalCount := response.totalCount + 1);
      if wasEffective {
        response := response.(successCount := response.successCount + 1);
      }
      responseDatabase := responseDatabase[k := response];
      UpdateResponseWeight(catResponse, Effectiveness(response));
    }

    /** Returns the position of the pair's record, appending a fresh one with
        zero counts when there is none. */
    method FindOrCreateResponse(h: ExpressionType, catResponse: string) returns (k: nat)
      modifies this
      ensures var i := IndexOfEntry(old(responseDatabase), h, catResponse);
        if i >= 0 then k == i && responseDatabase == old(responseDatabase)
        else (k == |old(responseDatabase)|
          && responseDatabase == old(responseDatabase) + [ResponseEffectiveness(h, catResponse, 0, 0)])
      ensures responseWeights == old(responseWeights)
    {
      var j := 0;
      while j < |responseDatabase|
        invariant 0 <= j <= |responseDatabase|
        invariant forall m :: 0 <= m < j ==> !SameKey(responseDatabase[m], h, catResponse)
      {
        if responseDatabase[j].humanExpression == h && responseDatabase[j].catResponse == catResponse {
          return j;
        }
        j := j + 1;
      }
      k := |responseDatabase|;
      responseDatabase := responseDatabase + [ResponseEffectiveness(h, catResponse, 0, 0)];
    }

    method UpdateResponseWeight(response: string, effectiveness: real)
      modifies this
      ensures responseWeights == UpdateWeight(old(responseWeights), response, effectiveness, evolutionRate)
      ensures responseDatabase == old(responseDatabase)
    {
      if response !in responseWeights {
        responseWeights := responseWeights[response := 1.0];
      }
      var targetWeight := effectiveness;
      responseWeights := responseWeights[response := Lerp(responseWeights[response], targetWeight, evolutionRate)];
    }

    method GetResponseWeight(response: string) returns (w: real)
      ensures w == ResponseWeight(responseWeights, response)
      ensures response !in responseWeights ==> w == 1.0
    {
      w := if response in responseWeights then responseWeights[response] else 1.0;
    }

    method CanEvolve() returns (b: bool)
      ensures b == HasEnoughPairs(State(), minInteractionsForEvolution)
      ensures b <==> |responseDatabase| >= minInteractionsForEvolution
    {
      b := |responseDatabase| >= minInteractionsForEvolution;
    }

    /** "" exactly when no record is for the expression; otherwise the response
        of the highest-scoring record, the earliest one among equals. */
    method GetBestResponse(h: ExpressionType) returns (best: string)
      requires Valid()
      ensures (forall j :: 0 <= j < |responseDatabase| ==> responseDatabase[j].humanExpression != h) ==> best == ""
      ensures (exists j :: 0 <= j < |responseDatabase| && responseDatabase[j].humanExpression == h) ==>
        exists i :: IsBest(State(), h, i) && best == responseDatabase[i].catResponse
    {
      ghost var l := State();
      var db := responseDatabase;
      var bestIndex := -1;
      var bestScore := -1.0;
      var j := 0;
      while j < |db|
        invariant 0 <= j <= |db| && -1 <= bestIndex < j
        invariant bestIndex == -1 <==> forall m :: 0 <= m < j ==> db[m].humanExpression != h
        invariant bestIndex == -1 ==> bestScore == -1.0
        invariant bestIndex >= 0 ==> (db[bestIndex].humanExpression == h && bestScore == Score(l, bestIndex))
        invariant forall m :: 0 <= m < j && db[m].humanExpression == h ==> Score(l, m) <= bestScore
        invariant forall m :: 0 <= m < bestIndex && db[m].humanExpression == h ==> Score(l, m) < bestScore
      {
        if db[j].humanExpression == h {
          var weight := GetResponseWeight(db[j].catResponse);
          var score := Effectiveness(db[j]) * weight;
          assert score == Score(l, j);
          ScoreInUnit(l, j);
          if score > bestScore {
            bestScore := score;
            bestIndex := j;
          }
        }
        j := j + 1;
      }
      best := if bestIndex >= 0 then db[bestIndex].catResponse else "";
      if bestIndex >= 0 {
        assert IsBest(l, h, bestIndex);
      }
    }
  }
}
