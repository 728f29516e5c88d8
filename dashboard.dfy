/** The dashboard controller's state and its decision rules: which record
    renderDashboard shows for a selected month, the application state that
    saveDevelopmentGoal appends to, and the goal set that saveGoals
    overwrites. */
module Dashboard {
  import opened Wrappers
  import opened JsValues
  import opened MetricRules
  import opened Surveys

  /** `data.month === selectedMonth`. */
  predicate HasMonth(r: Record, month: string) {
    Get(r, "month") == Str(month)
  }

  /** `performanceData.find(data => data.month === selectedMonth)`: the
      position of the first record of that month, if any. The position
      stands for the record `find` returns. */
  function FindMonth(data: seq<Record>, month: string): (r: Option<nat>)
    ensures r.Some? ==> r.value < |data| && HasMonth(data[r.value], month)
    ensures r.Some? ==> forall j :: 0 <= j < r.value ==> !HasMonth(data[j], month)
    ensures r.None? ==> forall j :: 0 <= j < |data| ==> !HasMonth(data[j], month)
  {
    if data == [] then None
    else if HasMonth(data[0], month) then Some(0)
    else match FindMonth(data[1..], month)
      case None => None
      case Some(k) => Some(k + 1)
  }

  /** The record renderDashboard shows: the first record of the selected
      month, else the last record, else the empty record `{}`. */
  function SelectRecord(data: seq<Record>, month: string): (r: Record)
    ensures (exists i :: 0 <= i < |data| && HasMonth(data[i], month)) ==>
      exists i :: 0 <= i < |data| && r == data[i] && HasMonth(data[i], month)
        && forall j :: 0 <= j < i ==> !HasMonth(data[j], month)
    ensures (forall i :: 0 <= i < |data| ==> !HasMonth(data[i], month)) ==>
      r == (if data == [] then [] else data[|data| - 1])
  {
    match FindMonth(data, month)
    case Some(i) => data[i]
    case None => if data == [] then [] else data[|data| - 1]
  }

  // ---------------------------------------------------------------------
  // Application state

  datatype GoalStatus = Pending | InProgress

  /** A development goal as saveDevelopmentGoal creates it. */
  datatype DevelopmentGoal = DevelopmentGoal(id: string, title: string, description: string,
                                             targetDate: string, priority: string,
                                             progress: real, status: GoalStatus)

  /** `appState`, the page's mutable application state. */
  class AppState {
    var performanceData: seq<Record>
    var developmentGoals: seq<DevelopmentGoal>
    var tnpsSurveys: seq<Survey>

    /** The initial state: every list empty. */
    constructor ()
      ensures performanceData == [] && developmentGoals == [] && tnpsSurveys == []
    {
      performanceData := [];
      developmentGoals := [];
      tnpsSurveys := [];
    }

    /** saveDevelopmentGoal: appends one new goal with progress 0 and status
        pending, built from the submitted form fields; `id` is the value
        `utils.generateId()` drew. */
    method SaveDevelopmentGoal(id: string, title: string, description: string,
                               targetDate: string, priority: string)
      modifies this
      ensures |developmentGoals| == |old(developmentGoals)| + 1
      ensures developmentGoals[..|old(developmentGoals)|] == old(developmentGoals)
      ensures developmentGoals[|developmentGoals| - 1]
              == DevelopmentGoal(id, title, description, targetDate, priority, 0.0, Pending)
      ensures performanceData == old(performanceData) && tnpsSurveys == old(tnpsSurveys)
    {
      var newGoal := DevelopmentGoal(id, title, description, targetDate, priority, 0.0, Pending);
      developmentGoals := developmentGoals + [newGoal];
    }

    /** The record renderDashboard shows for `month`. */
    method CurrentData(month: string) returns (r: Record)
      ensures r == SelectRecord(performanceData, month)
    {
      var found := FindMonth(performanceData, month);
      if found.Some? {
        r := performanceData[found.value];
      } else if |performanceData| > 0 {
        r := performanceData[|performanceData| - 1];
      } else {
        r := [];
      }
    }
  }

  // ---------------------------------------------------------------------
  // The goal editor

  /** The goal set after writing the submitted `(key, value)` pairs in order. */
  function Overwritten(goals: map<string, real>, entries: seq<(string, real)>): map<string, real>
    decreases |entries|
  {
    if entries == [] then goals
    else
      var n := |entries| - 1;
      Overwritten(goals, entries[..n])[entries[n].0 := entries[n].1]
  }

  /** The last value submitted for `key`, if any. */
  function LastSubmitted(entries: seq<(string, real)>, key: string): (v: Option<real>)
    ensures v.None? <==> forall i :: 0 <= i < |entries| ==> entries[i].0 != key
    ensures v.Some? ==>
      exists i :: 0 <= i < |entries| && entries[i] == (key, v.value)
                  && forall j :: i < j < |entries| ==> entries[j].0 != key
    decreases |entries|
  {
    if entries == [] then None
    else
      var n := |entries| - 1;
      if entries[n].0 == key then Some(entries[n].1) else LastSubmitted(entries[..n], key)
  }

  /** A key takes the last value submitted for it; every other goal is kept. */
  lemma {:induction false} OverwrittenLookup(goals: map<string, real>, entries: seq<(string, real)>, key: string)
    ensures key in Overwritten(goals, entries) <==> key in goals || LastSubmitted(entries, key).Some?
    ensures LastSubmitted(entries, key).Some? ==> Overwritten(goals, entries)[key] == LastSubmitted(entries, key).value
    ensures LastSubmitted(entries, key).None? && key in goals ==> Overwritten(goals, entries)[key] == goals[key]
    decreases |entries|
  {
    if entries != [] {
      OverwrittenLookup(goals, entries[..|entries| - 1], key);
    }
  }

  /** `CONFIG.goals`, the goal set the manager's goal editor changes. */
  class GoalConfig {
    var goals: map<string, real>

    /** Every tracked metric has a goal. */
    ghost predicate Valid()
      reads this
    {
      HasAllGoals(goals)
    }

    /** The configured goals. */
    constructor ()
      ensures Valid() && goals == DefaultGoals
    {
      goals := DefaultGoals;
    }

    /** saveGoals: writes each submitted `(key, value)` pair into the goal
        set in order; keys not submitted keep their goals. */
    method SaveGoals(entries: seq<(string, real)>)
      requires Valid()
      modifies this
      ensures Valid()
      ensures goals == Overwritten(old(goals), entries)
    {
      var i := 0;
      while i < |entries|
        invariant 0 <= i <= |entries|
        invariant goals == Overwritten(old(goals), entries[..i])
        invariant HasAllGoals(goals)
      {
        var (key, value) := entries[i];
        goals := goals[key := value];
        assert entries[..i + 1][..i] == entries[..i];
        i := i + 1;
      }
      assert entries[..i] == entries;
    }
  }
}
