/** The metric evaluator of the dashboard: a metric's status tier
    (`utils.getMetricStatus`), the percentage change between two readings
    (`utils.calculateChange`), the clamped progress bar of a metric card and
    the fixed list of the eight tracked metrics with their goals. */
module MetricRules {
  import opened Wrappers
  import opened JsValues

  datatype Status = Success | Warning | Danger | Unknown

  /** The order of the known tiers: success above warning above danger. */
  function Rank(s: Status): nat {
    match s
    case Success => 2
    case Warning => 1
    case Danger => 0
    case Unknown => 0
  }

  /** `utils.getMetricStatus(current, goal, isLessThanGoal)`. `current` is
      compared with JavaScript's coercion to a number, so a string that is
      not a number (`NaN`) fails every comparison and lands on danger. */
  function GetMetricStatus(current: Value, goal: real, lowerIsBetter: bool): (r: Status)
    ensures r == Unknown <==> current == Null || current == Undefined
    ensures current != Null && current != Undefined && ToNumber(current).None? ==> r == Danger
    ensures current != Null && ToNumber(current).Some? && !lowerIsBetter ==>
      var c := ToNumber(current).value;
      && (r == Success <==> c >= goal)
      && (r == Warning <==> 0.8 * goal <= c < goal)
      && (r == Danger <==> c < goal && c < 0.8 * goal)
    ensures current != Null && ToNumber(current).Some? && lowerIsBetter ==>
      var c := ToNumber(current).value;
      && (r == Success <==> c <= goal)
      && (r == Warning <==> goal < c <= 1.2 * goal)
      && (r == Danger <==> c > goal && c > 1.2 * goal)
  {
    if current == Null || current == Undefined then Unknown
    else match ToNumber(current)
      case None => Danger
      case Some(c) =>
        if lowerIsBetter then
          if c <= goal then Success
          else if c <= goal * 1.2 then Warning
          else Danger
        else
          if c >= goal then Success
          else if c >= goal * 0.8 then Warning
          else Danger
  }

  /** An improving reading never lowers the tier: a higher value for a
      higher-is-better metric, a lower value for a lower-is-better one. This
      holds for every goal, not only positive ones. */
  lemma StatusMonotone(c1: real, c2: real, goal: real, lowerIsBetter: bool)
    requires if lowerIsBetter then c2 <= c1 else c1 <= c2
    ensures Rank(GetMetricStatus(Num(c1), goal, lowerIsBetter))
            <= Rank(GetMetricStatus(Num(c2), goal, lowerIsBetter))
  {
  }

  /** `utils.calculateChange(current, previous)`: the change from `previous`
      to `current` in percent of `previous`, 0 when `previous` is 0. */
  function CalculateChange(current: real, previous: real): (r: real)
    ensures previous == 0.0 ==> r == 0.0
    ensures previous != 0.0 ==> previous + previous * r / 100.0 == current
    ensures previous > 0.0 ==> (r > 0.0 <==> current > previous) && (r == 0.0 <==> current == previous)
  {
    if previous == 0.0 then 0.0 else ((current - previous) / previous) * 100.0
  }

  /** `Math.max(0, Math.min(100, x))`. */
  function Clamp(x: real): (r: real)
    ensures 0.0 <= r <= 100.0
    ensures 0.0 <= x <= 100.0 ==> r == x
  {
    if x > 100.0 then 100.0 else if x < 0.0 then 0.0 else x
  }

  /** The width of a metric card's progress bar (script.js, renderMTDMetrics):
      the ratio of `current` to the goal, or of the margin below the goal to
      the goal for a lower-is-better metric, in percent and clamped to
      [0, 100]. `None` stands for `NaN`: a non-numeric reading, or 0/0. A
      zero goal divides by zero, which gives an infinity that the clamp
      turns into 0 or 100. */
  function Progress(current: Option<real>, goal: real, lowerIsBetter: bool): (p: Option<real>)
    ensures p.Some? ==> 0.0 <= p.value <= 100.0
    ensures p.None? <==> current.None? || (goal == 0.0 && current.value == 0.0)
  {
    match current
    case None => None
    case Some(c) =>
      var numerator := if lowerIsBetter then goal - c else c;
      if goal == 0.0 then
        if numerator > 0.0 then Some(100.0)
        else if numerator < 0.0 then Some(0.0)
        else None
      else Some(Clamp((numerator / goal) * 100.0))
  }

  /** For a higher-is-better metric with a positive goal the bar is full
      exactly when the metric is at success, and partial ratios are exact. */
  lemma ProgressHigherIsBetter(c: real, goal: real)
    requires goal > 0.0
    ensures Progress(Some(c), goal, false) == Some(100.0) <==> GetMetricStatus(Num(c), goal, false) == Success
    ensures 0.0 <= c <= goal ==> Progress(Some(c), goal, false) == Some(c / goal * 100.0)
    ensures c <= 0.0 ==> Progress(Some(c), goal, false) == Some(0.0)
  {
    assert goal / goal == 1.0 && 0.0 / goal == 0.0;
    DivideOrder(c, goal, goal);
    DivideOrder(0.0, c, goal);
  }

  /** For a lower-is-better metric with a positive goal the bar is empty
      from the goal upwards and full at zero. */
  lemma ProgressLowerIsBetter(c: real, goal: real)
    requires goal > 0.0
    ensures c >= goal ==> Progress(Some(c), goal, true) == Some(0.0)
    ensures c <= 0.0 ==> Progress(Some(c), goal, true) == Some(100.0)
    ensures 0.0 <= c <= goal ==> Progress(Some(c), goal, true) == Some((goal - c) / goal * 100.0)
  {
    assert goal / goal == 1.0 && 0.0 / goal == 0.0;
    DivideOrder(goal - c, goal, goal);
    DivideOrder(0.0, goal - c, goal);
  }

  /** The bar moves with the reading: up for a higher-is-better metric, down
      for a lower-is-better one. */
  lemma ProgressMonotone(c1: real, c2: real, goal: real, lowerIsBetter: bool)
    requires goal > 0.0 && c1 <= c2
    ensures lowerIsBetter ==> Progress(Some(c2), goal, true).value <= Progress(Some(c1), goal, true).value
    ensures !lowerIsBetter ==> Progress(Some(c1), goal, false).value <= Progress(Some(c2), goal, false).value
  {
    DivideOrder(c1, c2, goal);
    DivideOrder(goal - c2, goal - c1, goal);
  }

  /** A product with a positive factor has the sign of the other factor. */
  lemma ProductSign(x: real, n: real)
    requires n > 0.0
    ensures x * n > 0.0 <==> x > 0.0
    ensures x * n >= 0.0 <==> x >= 0.0
  {
  }

  /** Dividing by a positive number keeps the order, strict or not. */
  lemma DivideOrder(a: real, b: real, d: real)
    requires d > 0.0
    ensures a < b <==> a / d < b / d
    ensures a <= b <==> a / d <= b / d
  {
    var q := b / d - a / d;
    assert q * d == b - a;
    ProductSign(q, d);
  }

  // ---------------------------------------------------------------------
  // The metric list and metric cards

  /** One entry of the metric list shared by renderMTDMetrics and
      renderCoachingRecommendations. */
  datatype MetricDef = MetricDef(key: string, name: string, goal: real, lowerIsBetter: bool)

  const MetricKeys: seq<string> :=
    ["adh", "weighted_sph", "email_sph", "phone_sph", "chat_sph", "tnps", "qa_score", "call_refusals"]

  const MetricNames: seq<string> :=
    ["ADH", "Weighted SPH", "Email SPH", "Phone SPH", "Chat SPH", "tNPS", "QA Score", "Call Refusals"]

  /** A goal set that defines a goal for every tracked metric. */
  predicate HasAllGoals(goals: map<string, real>) {
    forall i :: 0 <= i < |MetricKeys| ==> MetricKeys[i] in goals
  }

  /** The goals of the configuration (config.js, and the defaults in script.js). */
  const DefaultGoals: map<string, real> := map[
    "adh" := 85.0, "weighted_sph" := 100.0, "email_sph" := 2.1, "phone_sph" := 3.5,
    "chat_sph" := 2.9, "tnps" := 57.0, "qa_score" := 92.0, "call_refusals" := 10.0]

  /** The eight tracked metrics in display order, each with its goal; only
      call refusals is lower-is-better. */
  function MetricList(goals: map<string, real>): (ms: seq<MetricDef>)
    requires HasAllGoals(goals)
    ensures |ms| == |MetricKeys|
    ensures forall i :: 0 <= i < |ms| ==>
      && ms[i].key == MetricKeys[i] && ms[i].name == MetricNames[i]
      && ms[i].goal == goals[MetricKeys[i]]
      && (ms[i].lowerIsBetter <==> MetricKeys[i] == "call_refusals")
  {
    seq(|MetricKeys|, i requires 0 <= i < |MetricKeys| =>
      MetricDef(MetricKeys[i], MetricNames[i], goals[MetricKeys[i]], i == 7))
  }

  /** The values of one metric card. */
  datatype Card = Card(key: string, current: Value, status: Status, progress: Option<real>)

  /** One card of renderMTDMetrics: the reading is `data[key] || 0`, so a
      missing or empty value counts as 0 and the status is never unknown. */
  function MetricCard(data: Record, m: MetricDef): (c: Card)
    ensures c.key == m.key
    ensures c.status != Unknown
    ensures c.progress.Some? ==> 0.0 <= c.progress.value <= 100.0
    ensures !Truthy(Get(data, m.key)) ==> c.current == Num(0.0) && c.status == GetMetricStatus(Num(0.0), m.goal, m.lowerIsBetter)
    ensures ToNumber(c.current).Some? && m.goal != 0.0 ==> c.progress.Some?
  {
    var current := OrZero(Get(data, m.key));
    Card(m.key, current, GetMetricStatus(current, m.goal, m.lowerIsBetter),
         Progress(ToNumber(current), m.goal, m.lowerIsBetter))
  }

  /** All cards of renderMTDMetrics, one per metric in list order: card `i`
      is metric `i`'s, never unknown, with its bar in [0, 100], and a falsy
      reading is rated as 0 against that metric's goal. */
  function MetricCards(data: Record, goals: map<string, real>): (cards: seq<Card>)
    requires HasAllGoals(goals)
    ensures |cards| == |MetricKeys|
    ensures forall i :: 0 <= i < |cards| ==>
      && cards[i].key == MetricKeys[i]
      && cards[i].status != Unknown
      && (cards[i].progress.Some? ==> 0.0 <= cards[i].progress.value <= 100.0)
    ensures forall i :: 0 <= i < |cards| && !Truthy(Get(data, MetricKeys[i])) ==>
      && cards[i].current == Num(0.0)
      && cards[i].status == GetMetricStatus(Num(0.0), goals[MetricKeys[i]], MetricKeys[i] == "call_refusals")
  {
    var ms := MetricList(goals);
    seq(|ms|, i requires 0 <= i < |ms| => MetricCard(data, ms[i]))
  }

  /** The configured goals define every metric's goal. */
  lemma DefaultGoalsComplete()
    ensures HasAllGoals(DefaultGoals)
  {
  }
}
