// Choice of the best record and the decision built from it.
module Selector {
  import opened Models
  import opened Evaluator
  import OrderedDict
  import StableSort

  datatype DecisionRecord = DecisionRecord(
    generated: nat, blocked: int, evaluated: seq<Evaluated>, selected: Option<Uuid>,
    breakdown: Option<Scores>, confidence: real, escalated: bool, path: GenerationPath, stateVersion: string)

  function SelectDecision(es: seq<Evaluated>, generated: nat, blocked: int, path: GenerationPath, version: string): DecisionRecord {
    var ranked := StableSort.SortDesc(es, Composite);
    if ranked == [] then DecisionRecord(generated, blocked, es, None, None, 0.0, true, path, version)
    else
      var gap := ranked[0].composite - (if |ranked| > 1 then ranked[1].composite else 0.0);
      DecisionRecord(generated, blocked, es, Some(ranked[0].id), Some(ranked[0].scores), Round4(gap), false, path, version)
  }

  function ScorePairs(es: seq<Evaluated>): (ps: seq<(Uuid, real)>)
    ensures |ps| == |es| && forall i :: 0 <= i < |es| ==> ps[i] == (es[i].id, es[i].composite)
  {
    seq(|es|, i requires 0 <= i < |es| => (es[i].id, es[i].composite))
  }

  /** `opt_scores.get(selected, 0.5)` over the decision's records. */
  function Predicted(d: DecisionRecord): real {
    if d.selected.None? then 0.5
    else
      var hit := OrderedDict.Find(OrderedDict.FromPairs(ScorePairs(d.evaluated)), d.selected.value);
      if hit.None? then 0.5 else hit.value
  }

  /** The runner-up's composite; zero when there is none. */
  ghost predicate IsRunnerUp(es: seq<Evaluated>, best: nat, x: real) {
    && (|es| == 1 ==> x == 0.0)
    && (|es| > 1 ==> exists j :: 0 <= j < |es| && j != best && es[j].composite == x)
    && (forall j :: 0 <= j < |es| && j != best ==> es[j].composite <= x)
  }

  /** The choice is the earliest record of greatest composite, found by a simple scan; the confidence is its
      lead over the runner-up; only an empty list escalates, however small the lead. */
  lemma SelectsEarliestBest(es: seq<Evaluated>, generated: nat, blocked: int, path: GenerationPath, version: string)
    returns (best: nat, second: real)
    requires es != []
    ensures var d := SelectDecision(es, generated, blocked, path, version);
            && StableSort.EarliestBest(es, Composite, best) && IsRunnerUp(es, best, second)
            && !d.escalated && d.selected == Some(es[best].id) && d.breakdown == Some(es[best].scores)
            && d.confidence == Round4(es[best].composite - second)
  {
    best := StableSort.HeadIsEarliestBest(es, Composite);
    second := Second(es, best);
  }

  /** The second of the ranking is the runner-up. */
  lemma Second(es: seq<Evaluated>, best: nat) returns (second: real)
    requires best < |es| && StableSort.SortDesc(es, Composite) != [] && StableSort.SortDesc(es, Composite)[0] == es[best]
    ensures var ranked := StableSort.SortDesc(es, Composite);
            second == if |ranked| > 1 then ranked[1].composite else 0.0
    ensures IsRunnerUp(es, best, second)
  {
    if |es| == 1 {
      StableSort.SortProperties(es, Composite);
      second := 0.0;
    } else {
      var j := StableSort.RunnerUp(es, Composite, best);
      second := es[j].composite;
      assert forall k :: 0 <= k < |es| && k != best ==> Composite(es[k]) <= Composite(es[j]);
    }
  }

  lemma EscalatesOnlyWhenEmpty(es: seq<Evaluated>, generated: nat, blocked: int, path: GenerationPath, version: string)
    ensures var d := SelectDecision(es, generated, blocked, path, version);
            d.escalated <==> es == []
    ensures var d := SelectDecision(es, generated, blocked, path, version);
            d.selected.Some? <==> es != []
    ensures var d := SelectDecision(es, generated, blocked, path, version);
            && d.evaluated == es && d.generated == generated && d.blocked == blocked && d.path == path
            && d.stateVersion == version && (es == [] ==> d.confidence == 0.0 && d.breakdown == None)
  {
    StableSort.SortProperties(es, Composite);
  }

  /** For records within bounds the confidence lies in the unit interval. */
  lemma ConfidenceInUnit(es: seq<Evaluated>, generated: nat, blocked: int, path: GenerationPath, version: string)
    requires forall e :: e in es ==> Unit(e.composite)
    ensures Unit(SelectDecision(es, generated, blocked, path, version).confidence)
  {
    if es == [] {
      EscalatesOnlyWhenEmpty(es, generated, blocked, path, version);
    } else {
      var best, second := SelectsEarliestBest(es, generated, blocked, path, version);
      assert es[best] in es;
      if |es| > 1 {
        var j :| 0 <= j < |es| && j != best && es[j].composite == second;
        assert es[j] in es && Composite(es[j]) <= Composite(es[best]);
      }
      Round4Properties(es[best].composite - second, 0.0);
    }
  }

  /** With distinct ids the predicted score that is submitted is the greatest composite. */
  lemma PredictedIsMaximum(es: seq<Evaluated>, generated: nat, blocked: int, path: GenerationPath, version: string)
    requires es != [] && DistinctRecords(es)
    ensures var p := Predicted(SelectDecision(es, generated, blocked, path, version));
            (exists e :: e in es && e.composite == p) && forall e :: e in es ==> e.composite <= p
  {
    var d := SelectDecision(es, generated, blocked, path, version);
    var best, _ := SelectsEarliestBest(es, generated, blocked, path, version);
    var pairs := ScorePairs(es);
    assert OrderedDict.DistinctKeys(pairs);
    OrderedDict.FromPairsShape(pairs);
    OrderedDict.FindAt(pairs, best);
    assert es[best] in es;
    forall e | e in es ensures e.composite <= es[best].composite {
      var i :| 0 <= i < |es| && es[i] == e;
      assert Composite(es[i]) <= Composite(es[best]);
    }
  }
}
