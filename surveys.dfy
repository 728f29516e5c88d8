/** The tNPS survey rules of renderTnpsSurveys: the colour of a survey's
    score, the suggested actions for it (`getTnpsActions`) and the average
    score of all surveys. */
module Surveys {
  import opened MetricRules

  /** A survey record. */
  datatype Survey = Survey(id: string, date: string, score: real, feedback: string, customerType: string)

  const PromoterActions: seq<string> :=
    ["Ask for referrals or testimonials", "Document what went well for training", "Continue the same approach"]
  const PassiveActions: seq<string> :=
    ["Follow up to ensure issue is resolved", "Ask for specific improvement feedback",
     "Review interaction for learning opportunities"]
  const DetractorActions: seq<string> :=
    ["Immediate supervisor review required", "Customer recovery process needed",
     "Additional training may be beneficial"]

  /** `getTnpsActions(score)`: one of three fixed lists by the 8 and 6 thresholds. */
  function TnpsActions(score: real): (actions: seq<string>)
    ensures actions == PromoterActions <==> score >= 8.0
    ensures actions == PassiveActions <==> 6.0 <= score < 8.0
    ensures actions == DetractorActions <==> score < 6.0
  {
    assert PromoterActions[0][0] == 'A' && PassiveActions[0][0] == 'F' && DetractorActions[0][0] == 'I';
    if score >= 8.0 then PromoterActions
    else if score >= 6.0 then PassiveActions
    else DetractorActions
  }

  /** The colour class of a survey's score: success, warning or danger. */
  function ScoreColor(score: real): (s: Status)
    ensures s != Unknown
  {
    if score >= 8.0 then Success else if score >= 6.0 then Warning else Danger
  }

  /** The suggested actions and the score's colour use the same tiers. */
  lemma ActionsMatchColor(score: real)
    ensures TnpsActions(score) == PromoterActions <==> ScoreColor(score) == Success
    ensures TnpsActions(score) == PassiveActions <==> ScoreColor(score) == Warning
    ensures TnpsActions(score) == DetractorActions <==> ScoreColor(score) == Danger
  {
  }

  /** A better score never gets a lower colour. */
  lemma ColorMonotone(s1: real, s2: real)
    requires s1 <= s2
    ensures Rank(ScoreColor(s1)) <= Rank(ScoreColor(s2))
  {
  }

  /** `scores.reduce((a, b) => a + b, 0)`, folding from the left. */
  function Sum(scores: seq<real>): real
    decreases |scores|
  {
    if scores == [] then 0.0 else Sum(scores[..|scores| - 1]) + scores[|scores| - 1]
  }

  /** `appState.tnpsSurveys.map(survey => survey.score)`. */
  function Scores(surveys: seq<Survey>): (scores: seq<real>)
    ensures |scores| == |surveys|
    ensures forall i :: 0 <= i < |surveys| ==> scores[i] == surveys[i].score
  {
    seq(|surveys|, i requires 0 <= i < |surveys| => surveys[i].score)
  }

  /** The average score shown as current tNPS: 0 without surveys. */
  function AverageScore(surveys: seq<Survey>): (avg: real)
    ensures surveys == [] ==> avg == 0.0
    ensures surveys != [] ==> avg * |surveys| as real == Sum(Scores(surveys))
  {
    var scores := Scores(surveys);
    if |scores| > 0 then Sum(scores) / |scores| as real else 0.0
  }

  /** A sum of `n` values in [lo, hi] lies in [n lo, n hi]. */
  lemma {:induction false} SumBounds(scores: seq<real>, lo: real, hi: real)
    requires forall i :: 0 <= i < |scores| ==> lo <= scores[i] <= hi
    ensures |scores| as real * lo <= Sum(scores) <= |scores| as real * hi
    decreases |scores|
  {
    if scores != [] {
      SumBounds(scores[..|scores| - 1], lo, hi);
    }
  }

  /** The average of surveys whose scores lie in [lo, hi] lies in [lo, hi];
      in particular it lies between the lowest and the highest score. */
  lemma AverageWithinBounds(surveys: seq<Survey>, lo: real, hi: real)
    requires surveys != []
    requires forall i :: 0 <= i < |surveys| ==> lo <= surveys[i].score <= hi
    ensures lo <= AverageScore(surveys) <= hi
  {
    var n := |surveys| as real;
    var total := Sum(Scores(surveys));
    SumBounds(Scores(surveys), lo, hi);
    var avg := AverageScore(surveys);
    assert (avg - lo) * n == total - n * lo;
    ProductSign(avg - lo, n);
    assert (hi - avg) * n == n * hi - total;
    ProductSign(hi - avg, n);
  }
}
