/** The coaching advisor (`AICoachingService.getMockCoaching`,
    `getActionItems`) and the loop of `renderCoachingRecommendations` that
    asks it for advice on every underperforming metric. The source picks a
    tip with `Math.random()`; here that draw is a parameter `roll` in [0, 1). */
module Coaching {
  import opened Wrappers
  import opened JsValues
  import opened MetricRules

  datatype Priority = High | Medium | Low

  /** What getMockCoaching returns. */
  datatype Coaching = Coaching(metric: string, priority: Priority, recommendation: string,
                               actions: seq<string>, confidence: real)

  /** One element of the recommendations list: the coaching plus the metric's
      display name (`{ ...coaching, name: metric.name }`). */
  datatype Recommendation = Recommendation(coaching: Coaching, name: string)

  const DefaultTip := "Continue monitoring this metric and maintain consistency"

  /** The tip pools of getMockCoaching, keyed by metric. */
  const CoachingTips: map<string, seq<string>> := map[
    "adh" := ["Focus on staying logged in during your scheduled hours",
              "Review your break patterns - are you taking breaks at optimal times?",
              "Consider using productivity techniques like the Pomodoro method"],
    "weighted_sph" := ["Analyze your call distribution across different contact types",
                       "Practice handling common inquiries more efficiently",
                       "Review successful colleagues' techniques for faster resolution"],
    "email_sph" := ["Use email templates for common responses",
                    "Batch similar emails together for efficiency",
                    "Set up keyboard shortcuts for frequently used phrases"],
    "phone_sph" := ["Practice active listening to reduce call duration",
                    "Prepare standard responses for common questions",
                    "Use hold time effectively to research customer issues"],
    "chat_sph" := ["Master keyboard shortcuts and quick responses",
                   "Handle multiple chats by prioritizing urgent issues",
                   "Use saved responses for common questions"],
    "tnps" := ["Focus on empathy and understanding customer pain points",
               "Follow up proactively on customer issues",
               "Ask for feedback and act on customer suggestions"],
    "qa_score" := ["Review your recent call recordings for improvement areas",
                   "Practice compliance requirements regularly",
                   "Ask your supervisor for specific feedback on QA criteria"],
    "call_refusals" := ["Review refusal reasons and address common patterns",
                        "Improve your rapport-building skills at call start",
                        "Practice handling objections with empathy"]]

  /** The action table of getActionItems, keyed by metric. */
  const ActionTable: map<string, seq<string>> := map[
    "adh" := ["Track login/logout times", "Set calendar reminders", "Review schedule adherence"],
    "weighted_sph" := ["Analyze call data", "Practice common scenarios", "Shadow top performers"],
    "email_sph" := ["Create templates", "Use shortcuts", "Batch processing"],
    "phone_sph" := ["Review call recordings", "Practice scripts", "Improve note-taking"],
    "chat_sph" := ["Use quick responses", "Multi-chat management", "Keyboard shortcuts"],
    "tnps" := ["Customer follow-up", "Empathy training", "Feedback collection"],
    "qa_score" := ["Review QA rubric", "Practice compliance", "Supervisor coaching"],
    "call_refusals" := ["Rapport building", "Objection handling", "Call opening scripts"]]

  /** The tables of the coaching service (`this.aiCoaching` of the
      dashboard): the tip pools of getMockCoaching and the action lists of
      getActionItems, by metric. */
  datatype Advisor = Advisor(tips: map<string, seq<string>>, actions: map<string, seq<string>>)

  /** The tables of AICoachingService as written. */
  const MockAdvisor := Advisor(CoachingTips, ActionTable)

  /** Every tip pool has a tip to draw. */
  predicate ValidAdvisor(advisor: Advisor) {
    forall k :: k in advisor.tips ==> |advisor.tips[k]| >= 1
  }

  /** Both tables cover exactly the eight tracked metrics, with three
      entries each, so every pool has a tip to draw. */
  lemma TablesCoverMetrics()
    ensures CoachingTips.Keys == ActionTable.Keys
    ensures forall k :: k in CoachingTips <==> k in MetricKeys
    ensures forall k :: k in CoachingTips ==> |CoachingTips[k]| == 3 && |ActionTable[k]| == 3
    ensures ValidAdvisor(MockAdvisor)
  {
  }

  /** `coachingTips[metric] || [default tip]`: the pool a tip is drawn from. */
  function TipPool(advisor: Advisor, metric: string): (tips: seq<string>)
    requires ValidAdvisor(advisor)
    ensures |tips| >= 1
    ensures metric in advisor.tips ==> tips == advisor.tips[metric]
    ensures metric !in advisor.tips ==> tips == [DefaultTip]
  {
    if metric in advisor.tips then advisor.tips[metric] else [DefaultTip]
  }

  /** `getActionItems(metric)`: the action table, with
      "Monitor and maintain" for any other metric. */
  function ActionItems(advisor: Advisor, metric: string): (actions: seq<string>)
    ensures metric in advisor.actions ==> actions == advisor.actions[metric]
    ensures metric !in advisor.actions ==> actions == ["Monitor and maintain"]
  {
    if metric in advisor.actions then advisor.actions[metric] else ["Monitor and maintain"]
  }

  function Abs(x: real): real { if x < 0.0 then -x else x }

  /** The priority of getMockCoaching: the gap between goal and reading
      against 20% and 10% of the goal. A `NaN` gap fails both tests. */
  function PriorityOf(current: Value, goal: real): (p: Priority)
    ensures ToNumber(current).None? ==> p == Low
    ensures ToNumber(current).Some? ==>
      var gap := Abs(goal - ToNumber(current).value);
      && (p == High <==> gap > 0.2 * goal)
      && (p == Medium <==> 0.1 * goal < gap <= 0.2 * goal)
      && (p == Low <==> gap <= 0.1 * goal && gap <= 0.2 * goal)
  {
    match ToNumber(current)
    case None => Low
    case Some(c) =>
      var gap := goal - c;
      if Abs(gap) > goal * 0.2 then High
      else if Abs(gap) > goal * 0.1 then Medium
      else Low
  }

  /** `Math.floor(roll * n)` for a roll in [0, 1): an index into a pool of `n`. */
  function TipIndex(roll: real, n: nat): (i: nat)
    requires 0.0 <= roll < 1.0 && n > 0
    ensures i < n
    ensures i as real <= roll * n as real < i as real + 1.0
  {
    var x := roll * n as real;
    RollScales(roll, n as real);
    FloorBelow(x, n);
    x.Floor
  }

  /** A roll in [0, 1) scales a positive size to somewhere below it. */
  lemma RollScales(roll: real, n: real)
    requires 0.0 <= roll < 1.0 && n > 0.0
    ensures 0.0 <= roll * n < n
  {
    ProductSign(roll, n);
    ProductSign(1.0 - roll, n);
    assert (1.0 - roll) * n == n - roll * n;
  }

  /** The floor of a real in [0, n) is an index below `n`. */
  lemma FloorBelow(x: real, n: nat)
    requires 0.0 <= x < n as real
    ensures 0 <= x.Floor < n
    ensures x.Floor as real <= x < x.Floor as real + 1.0
  {
  }

  /** getMockCoaching(metric, currentValue, goalValue) with the tip drawn by `roll`. */
  function GetMockCoaching(advisor: Advisor, metric: string, current: Value, goal: real, roll: real): (c: Coaching)
    requires ValidAdvisor(advisor) && 0.0 <= roll < 1.0
    ensures c.metric == metric
    ensures c.recommendation in TipPool(advisor, metric)
    ensures metric !in advisor.tips ==> c.recommendation == DefaultTip
    ensures c.actions == ActionItems(advisor, metric)
    ensures c.priority == PriorityOf(current, goal)
    ensures c.confidence == 0.85
  {
    var tips := TipPool(advisor, metric);
    Coaching(metric, PriorityOf(current, goal), tips[TipIndex(roll, |tips|)], ActionItems(advisor, metric), 0.85)
  }

  /** The test of renderCoachingRecommendations: above the goal for a
      lower-is-better metric, below it otherwise, compared as numbers. */
  predicate Underperforming(current: Value, goal: real, lowerIsBetter: bool) {
    match ToNumber(current)
    case None => false
    case Some(c) => if lowerIsBetter then c > goal else c < goal
  }

  /** For a numeric reading, underperforming means exactly "not at success". */
  lemma UnderperformingIffNotSuccess(current: Value, goal: real, lowerIsBetter: bool)
    requires current != Null && ToNumber(current).Some?
    ensures Underperforming(current, goal, lowerIsBetter) <==> GetMetricStatus(current, goal, lowerIsBetter) != Success
  {
  }

  /** A reading that is not a number (a string such as "n/a") is shown in
      danger but is not underperforming, so it gets no coaching. */
  lemma NotANumberIsDangerWithoutCoaching(current: Value, goal: real, lowerIsBetter: bool)
    requires current != Undefined && ToNumber(current).None?
    ensures GetMetricStatus(current, goal, lowerIsBetter) == Danger
    ensures !Underperforming(current, goal, lowerIsBetter)
  {
  }

  /** For an underperforming metric with a positive goal, high priority is
      exactly the danger tier, so medium and low are the warning tier. */
  lemma PriorityMatchesStatus(c: real, goal: real, lowerIsBetter: bool)
    requires goal > 0.0 && Underperforming(Num(c), goal, lowerIsBetter)
    ensures PriorityOf(Num(c), goal) == High <==> GetMetricStatus(Num(c), goal, lowerIsBetter) == Danger
    ensures PriorityOf(Num(c), goal) != High <==> GetMetricStatus(Num(c), goal, lowerIsBetter) == Warning
  {
  }

  // ---------------------------------------------------------------------
  // renderCoachingRecommendations

  /** Every roll is a value `Math.random()` can return. */
  predicate ValidRolls(rolls: seq<real>) {
    forall i :: 0 <= i < |rolls| ==> 0.0 <= rolls[i] < 1.0
  }

  /** The reading renderCoachingRecommendations uses: `data[key] || 0`. */
  function Reading(data: Record, m: MetricDef): Value {
    OrZero(Get(data, m.key))
  }

  /** The elements of `xs` that satisfy `p`, in order. */
  function Keep<T>(xs: seq<T>, p: T -> bool): (r: seq<T>)
    ensures |r| <= |xs|
    decreases |xs|
  {
    if xs == [] then []
    else
      var n := |xs| - 1;
      Keep(xs[..n], p) + (if p(xs[n]) then [xs[n]] else [])
  }

  /** An element is kept exactly when it is in the list and satisfies `p`. */
  lemma {:induction false} KeepMembership<T>(xs: seq<T>, p: T -> bool, x: T)
    ensures x in Keep(xs, p) <==> x in xs && p(x)
    decreases |xs|
  {
    if xs != [] {
      var n := |xs| - 1;
      KeepMembership(xs[..n], p, x);
      assert xs == xs[..n] + [xs[n]];
    }
  }

  /** The metrics of `ms` that are underperforming on `data`, in list order. */
  function UnderperformingMetrics(data: Record, ms: seq<MetricDef>): (r: seq<MetricDef>)
    ensures |r| <= |ms|
  {
    Keep(ms, m => Underperforming(Reading(data, m), m.goal, m.lowerIsBetter))
  }

  /** The recommendations list of renderCoachingRecommendations, the metric
      at position `i` of `ms` taking its tip from `rolls[i]`. */
  function RecommendationsOf(advisor: Advisor, data: Record, ms: seq<MetricDef>, rolls: seq<real>): seq<Recommendation>
    requires ValidAdvisor(advisor) && |rolls| == |ms| && ValidRolls(rolls)
    decreases |ms|
  {
    if ms == [] then []
    else
      var n := |ms| - 1;
      var m := ms[n];
      var current := Reading(data, m);
      RecommendationsOf(advisor, data, ms[..n], rolls[..n])
        + (if Underperforming(current, m.goal, m.lowerIsBetter)
           then [Recommendation(GetMockCoaching(advisor, m.key, current, m.goal, rolls[n]), m.name)]
           else [])
  }

  /** The recommendations correspond one to one, in order, to the
      underperforming metrics, and each carries that metric's priority,
      a tip from its pool and its actions. */
  lemma {:induction false} RecommendationsFollowMetrics(advisor: Advisor, data: Record, ms: seq<MetricDef>, rolls: seq<real>)
    requires ValidAdvisor(advisor) && |rolls| == |ms| && ValidRolls(rolls)
    ensures var recs, under := RecommendationsOf(advisor, data, ms, rolls), UnderperformingMetrics(data, ms);
      && |recs| == |under|
      && forall i :: 0 <= i < |recs| ==>
        && recs[i].name == under[i].name
        && recs[i].coaching.metric == under[i].key
        && recs[i].coaching.priority == PriorityOf(Reading(data, under[i]), under[i].goal)
        && recs[i].coaching.recommendation in TipPool(advisor, under[i].key)
        && recs[i].coaching.actions == ActionItems(advisor, under[i].key)
  {
    if ms != [] {
      var n := |ms| - 1;
      RecommendationsFollowMetrics(advisor, data, ms[..n], rolls[..n]);
    }
  }

  /** A metric is among the underperforming ones exactly when it is in the
      list and underperforming. */
  lemma UnderperformingMembership(data: Record, ms: seq<MetricDef>, m: MetricDef)
    ensures m in UnderperformingMetrics(data, ms) <==>
      m in ms && Underperforming(Reading(data, m), m.goal, m.lowerIsBetter)
  {
    KeepMembership(ms, m => Underperforming(Reading(data, m), m.goal, m.lowerIsBetter), m);
  }

  /** On the dashboard's metric list with numeric readings, a metric gets a
      recommendation exactly when its card is not at success. */
  lemma CoachedIffNotSuccess(data: Record, goals: map<string, real>, i: nat)
    requires HasAllGoals(goals) && i < |MetricKeys|
    requires ToNumber(Reading(data, MetricList(goals)[i])).Some?
    ensures var m := MetricList(goals)[i];
      m in UnderperformingMetrics(data, MetricList(goals)) <==> MetricCard(data, m).status != Success
  {
    var m := MetricList(goals)[i];
    UnderperformingMembership(data, MetricList(goals), m);
    UnderperformingIffNotSuccess(Reading(data, m), m.goal, m.lowerIsBetter);
  }

  /** One more metric extends the recommendations by its own, if any. */
  lemma RecommendationsStep(advisor: Advisor, data: Record, ms: seq<MetricDef>, rolls: seq<real>, i: nat)
    requires ValidAdvisor(advisor) && |rolls| == |ms| && ValidRolls(rolls) && i < |ms|
    ensures var m, current := ms[i], Reading(data, ms[i]);
      RecommendationsOf(advisor, data, ms[..i + 1], rolls[..i + 1])
      == RecommendationsOf(advisor, data, ms[..i], rolls[..i])
         + (if Underperforming(current, m.goal, m.lowerIsBetter)
            then [Recommendation(GetMockCoaching(advisor, m.key, current, m.goal, rolls[i]), m.name)]
            else [])
  {
    assert ms[..i + 1][..i] == ms[..i];
    assert rolls[..i + 1][..i] == rolls[..i];
  }

  /** The loop of renderCoachingRecommendations over the metric list, asking
      the coaching service `advisor` (the dashboard's `aiCoaching`, whose
      generateCoaching returns getMockCoaching's answer) for each
      underperforming metric. */
  method RenderCoachingRecommendations(advisor: Advisor, data: Record, goals: map<string, real>, rolls: seq<real>)
    returns (recommendations: seq<Recommendation>)
    requires ValidAdvisor(advisor) && HasAllGoals(goals)
    requires |rolls| == |MetricKeys| && ValidRolls(rolls)
    ensures recommendations == RecommendationsOf(advisor, data, MetricList(goals), rolls)
  {
    recommendations := CoachMetrics(advisor, data, MetricList(goals), rolls);
  }

  /** The `forEach` of renderCoachingRecommendations over the metric list
      `metrics`. */
  method CoachMetrics(advisor: Advisor, data: Record, metrics: seq<MetricDef>, rolls: seq<real>)
    returns (recommendations: seq<Recommendation>)
    requires ValidAdvisor(advisor) && |rolls| == |metrics| && ValidRolls(rolls)
    ensures recommendations == RecommendationsOf(advisor, data, metrics, rolls)
  {
    recommendations := [];
    var i := 0;
    while i < |metrics|
      invariant 0 <= i <= |metrics|
      invariant recommendations == RecommendationsOf(advisor, data, metrics[..i], rolls[..i])
    {
      var metric := metrics[i];
      var current := OrZero(Get(data, metric.key));
      var isUnderperforming := Underperforming(current, metric.goal, metric.lowerIsBetter);
      if isUnderperforming {
        var coaching := GetMockCoaching(advisor, metric.key, current, metric.goal, rolls[i]);
        recommendations := recommendations + [Recommendation(coaching, metric.name)];
      }
      RecommendationsStep(advisor, data, metrics, rolls, i);
      i := i + 1;
    }
    assert metrics[..i] == metrics;
    assert rolls[..i] == rolls;
  }
}
