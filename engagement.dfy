/** The engagement meter's arithmetic (static/js/ai_integration.js): the
  * dominant expression of a detected face, chosen by a `reduce` over the
  * expression scores, and the weight that turns it into an engagement value.
  * Detection, the sampling timer and rounding are outside this module. */
module Engagement {
  import opened Wrappers

  /** One entry of `Object.entries(expressions)`: a name and its score. */
  datatype Expression = Expression(emotion: string, score: real)

  /** Among the first `n` entries, the one at `k` has a maximal score and
    * every entry after it scores strictly less: `k` is the last maximum. */
  predicate IsLastMaxUpTo(es: seq<Expression>, k: nat, n: nat) {
    && k < n <= |es|
    && forall j :: 0 <= j < n ==> es[j].score <= es[k].score && (k < j ==> es[j].score < es[k].score)
  }

  /** `reduce((a, b) => a[1] > b[1] ? a : b)` continued from the accumulator
    * `acc` at position `i`: the accumulator survives only a strictly smaller
    * score, so an equal score replaces it. */
  function ReduceFrom(es: seq<Expression>, acc: nat, i: nat): (k: nat)
    requires IsLastMaxUpTo(es, acc, i)
    ensures IsLastMaxUpTo(es, k, |es|)
    decreases |es| - i
  {
    if i == |es| then acc
    else ReduceFrom(es, if es[acc].score > es[i].score then acc else i, i + 1)
  }

  /** The position `reduce` selects: the last entry with the highest score. */
  function DominantIndex(es: seq<Expression>): (k: nat)
    requires |es| > 0
    ensures IsLastMaxUpTo(es, k, |es|)
  {
    ReduceFrom(es, 0, 1)
  }

  /** The dominant expression; `reduce` without an initial value throws on an
    * empty list, which is None here. */
  function Dominant(es: seq<Expression>): (d: Option<Expression>)
    ensures d.None? <==> es == []
    ensures d.Some? ==> d.value in es
    ensures d.Some? ==> forall j :: 0 <= j < |es| ==> es[j].score <= d.value.score
  {
    if es == [] then None else Some(es[DominantIndex(es)])
  }

  /** Ties go to the later entry: of two entries sharing the top score, the
    * earlier one is never selected. */
  lemma TieGoesToLaterEntry(es: seq<Expression>, i: nat, j: nat)
    requires i < j < |es| && es[i].score == es[j].score
    requires forall k :: 0 <= k < |es| ==> es[k].score <= es[i].score
    ensures DominantIndex(es) >= j
  {
  }

  /** With equal scores for "neutral" and then "happy", "happy" is dominant. */
  lemma TieExample()
    ensures Dominant([Expression("neutral", 0.5), Expression("happy", 0.5)]) == Some(Expression("happy", 0.5))
  {
    var es := [Expression("neutral", 0.5), Expression("happy", 0.5)];
    TieGoesToLaterEntry(es, 0, 1);
  }

  /** `engagementMap`: how engaged each expression reads as, out of 100. */
  const EngagementWeights: map<string, int> := map[
    "happy" := 90, "neutral" := 70, "surprised" := 60, "sad" := 40,
    "angry" := 30, "fearful" := 20, "disgusted" := 10]

  /** The seven expressions of the table, most engaged first. */
  const ExpressionRanking: seq<string> :=
    ["happy", "neutral", "surprised", "sad", "angry", "fearful", "disgusted"]

  /** The table covers exactly the seven ranked expressions. */
  lemma WeightTableKeys()
    ensures EngagementWeights.Keys == set e | e in ExpressionRanking
  {
  }

  /** The weights strictly decrease along the ranking. */
  lemma WeightTableRanked()
    ensures forall e :: e in ExpressionRanking ==> e in EngagementWeights
    ensures forall i, j :: 0 <= i < j < |ExpressionRanking| ==>
      EngagementWeights[ExpressionRanking[i]] > EngagementWeights[ExpressionRanking[j]]
  {
    var ranked := [90, 70, 60, 40, 30, 20, 10];
    forall i | 0 <= i < |ExpressionRanking|
      ensures ExpressionRanking[i] in EngagementWeights
      ensures EngagementWeights[ExpressionRanking[i]] == ranked[i]
    {
    }
  }

  /** Every weight lies in [10, 90]. */
  lemma WeightsInRange()
    ensures forall e :: e in EngagementWeights ==> 10 <= EngagementWeights[e] <= 90
  {
  }

  /** `engagementMap[emotion] * score` before rounding: for a score in [0, 1]
    * it lies between 0 and the expression's weight, hence within [0, 90]. */
  function EngagementValue(emotion: string, score: real): (v: real)
    requires emotion in EngagementWeights
    ensures 0.0 <= score <= 1.0 ==> 0.0 <= v <= EngagementWeights[emotion] as real <= 90.0
  {
    var w := EngagementWeights[emotion];
    assert 0 <= w <= 90;
    EngagementMul(w as real, score);
    w as real * score
  }

  lemma EngagementMul(w: real, score: real)
    requires 0.0 <= w
    ensures 0.0 <= score <= 1.0 ==> 0.0 <= w * score <= w
  {
    if 0.0 <= score <= 1.0 {
      assert w * score <= w * 1.0;
    }
  }

  /** One sample of a detected face: the emotion of the last entry with the
    * highest score, and that entry's weight times its score (unrounded).
    * Every value of a score vector in [0, 1] over the seven expressions lies
    * in [0, 90]. */
  function Sample(es: seq<Expression>): (r: Option<(string, real)>)
    requires forall i :: 0 <= i < |es| ==> es[i].emotion in EngagementWeights
    ensures r.None? <==> es == []
    ensures r.Some? ==> exists i: nat ::
      && IsLastMaxUpTo(es, i, |es|)
      && es[i].emotion == r.value.0
      && r.value.1 == EngagementWeights[es[i].emotion] as real * es[i].score
    ensures r.Some? && (forall i :: 0 <= i < |es| ==> 0.0 <= es[i].score <= 1.0) ==> 0.0 <= r.value.1 <= 90.0
  {
    match Dominant(es)
    case None => None
    case Some(d) =>
      assert IsLastMaxUpTo(es, DominantIndex(es), |es|);
      Some((d.emotion, EngagementValue(d.emotion, d.score)))
  }
}
