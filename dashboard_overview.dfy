/**
 * The dashboard overview: a copy of the calculator and the chart statistics
 * built from it (per-goal progress, status buckets, goal kinds, micro goal stats).
 */
module DashboardOverview {
  import opened Wrappers
  import opened Goals
  import opened ArrayOps
  import Completion
  import MicroGoalSchema

  /** The overview's copy of the calculator. */
  function CalculateCompletion(macroId: string, macroGoals: seq<MacroGoal>, microGoals: seq<MicroGoal>): (r: real)
    ensures r == Completion.MacroCompletion(macroId, macroGoals, microGoals)
  {
    var hasId := (g: MacroGoal) => g.id == macroId;
    var belongs := (m: MicroGoal) => m.macroGoalId == macroId;
    var addHours := (sum: real, m: MicroGoal) => sum + m.hours;
    var addCompletion := (sum: real, m: MicroGoal) => sum + m.completion;
    var macro := Find(macroGoals, hasId);
    var relatedMicro := Filter(microGoals, belongs);
    FindSamePredicate(macroGoals, hasId, Completion.HasId(macroId));
    FilterSamePredicate(microGoals, belongs, Completion.BelongsTo(macroId));
    ReduceAddsSum(relatedMicro, addHours, Completion.HoursOf, 0.0);
    ReduceAddsSum(relatedMicro, addCompletion, Completion.CompletionOf, 0.0);
    if |relatedMicro| == 0 then 0.0
    else if macro.Some? && macro.value.goalType == Hours then
      var completedHours := Reduce(relatedMicro, addHours, 0.0);
      var totalHours := NumberOr(macro.value.totalHours, 0.0);
      if totalHours > 0.0 then completedHours / totalHours * 100.0 else 0.0
    else
      Reduce(relatedMicro, addCompletion, 0.0) / |relatedMicro| as real
  }

  /** `Math.round`: the nearest integer, halves rounded up. */
  function Round(x: real): (r: int)
    ensures x - 0.5 < r as real <= x + 0.5
  {
    (x + 0.5).Floor
  }

  /** Rounding never reverses an order. */
  lemma {:induction false} RoundMonotone(x: real, y: real)
    requires x <= y
    ensures Round(x) <= Round(y)
  {
  }

  /** One bar of the progress chart. */
  datatype ProgressEntry = ProgressEntry(name: string, completion: int, icon: string)

  /** One slice of a pie chart. */
  datatype Slice = Slice(name: string, value: nat, color: string)

  /** The figures of the micro goal card. */
  datatype MicroGoalStats = MicroGoalStats(total: nat, completed: nat, avgCompletion: int)

  /** One bar per macro goal, in order, holding its rounded completion. */
  function GoalProgressData(macroGoals: seq<MacroGoal>, microGoals: seq<MicroGoal>): (r: seq<ProgressEntry>)
    ensures |r| == |macroGoals|
    ensures forall i :: 0 <= i < |r| ==>
      && r[i].name == macroGoals[i].name
      && r[i].icon == macroGoals[i].icon
      && r[i].completion == Round(Completion.MacroCompletion(macroGoals[i].id, macroGoals, microGoals))
  {
    Map(macroGoals, (goal: MacroGoal) =>
      ProgressEntry(goal.name, Round(CalculateCompletion(goal.id, macroGoals, microGoals)), goal.icon))
  }

  function IsCompleted(macroGoals: seq<MacroGoal>, microGoals: seq<MicroGoal>): MacroGoal -> bool
  {
    (g: MacroGoal) => CalculateCompletion(g.id, macroGoals, microGoals) == 100.0
  }

  function IsInProgress(macroGoals: seq<MacroGoal>, microGoals: seq<MicroGoal>): MacroGoal -> bool
  {
    (g: MacroGoal) =>
      var c := CalculateCompletion(g.id, macroGoals, microGoals);
      c > 0.0 && c < 100.0
  }

  function IsNotStarted(macroGoals: seq<MacroGoal>, microGoals: seq<MicroGoal>): MacroGoal -> bool
  {
    (g: MacroGoal) => CalculateCompletion(g.id, macroGoals, microGoals) == 0.0
  }

  /** The status pie: Completed (exactly 100), In Progress (strictly between), Not Started (exactly 0). */
  function GoalStatusData(macroGoals: seq<MacroGoal>, microGoals: seq<MicroGoal>): seq<Slice>
  {
    [ Slice("Completed", |Filter(macroGoals, IsCompleted(macroGoals, microGoals))|, "#a78bfa"),
      Slice("In Progress", |Filter(macroGoals, IsInProgress(macroGoals, microGoals))|, "#ec4899"),
      Slice("Not Started", |Filter(macroGoals, IsNotStarted(macroGoals, microGoals))|, "#6b7280") ]
  }

  /**
   * The three status buckets never share a goal, so their counts add up to at
   * most the number of macro goals, and to exactly that number precisely when
   * every completion lies in [0, 100].
   */
  lemma {:induction false} StatusBucketsCount(macroGoals: seq<MacroGoal>, microGoals: seq<MicroGoal>)
    ensures
      var d := GoalStatusData(macroGoals, microGoals);
      && d[0].value + d[1].value + d[2].value <= |macroGoals|
      && (d[0].value + d[1].value + d[2].value == |macroGoals| <==>
          forall g :: g in macroGoals ==> 0.0 <= Completion.MacroCompletion(g.id, macroGoals, microGoals) <= 100.0)
  {
    FilterCounts3(macroGoals, IsCompleted(macroGoals, microGoals), IsInProgress(macroGoals, microGoals),
                  IsNotStarted(macroGoals, microGoals));
  }

  /** An hours goal past its target (here 20 hours against 10) lands in no status bucket. */
  lemma {:induction false} OverTargetInNoBucket()
    ensures
      var gs := [MacroGoal("h", "H", "", Hours, Some(10.0), "")];
      var ms := [MicroGoal("1", "h", "x", 0.0, 20.0)];
      var d := GoalStatusData(gs, ms);
      d[0].value == 0 && d[1].value == 0 && d[2].value == 0
  {
    var gs := [MacroGoal("h", "H", "", Hours, Some(10.0), "")];
    var ms := [MicroGoal("1", "h", "x", 0.0, 20.0)];
    assert Completion.Related("h", ms) == ms;
    assert Completion.MacroCompletion("h", gs, ms) == 200.0;
    assert Filter(gs, IsCompleted(gs, ms)) == [];
    assert Filter(gs, IsInProgress(gs, ms)) == [];
    assert Filter(gs, IsNotStarted(gs, ms)) == [];
  }

  /** The goal-kind pie: percentage-based and hours-based goals. */
  function GoalTypeData(macroGoals: seq<MacroGoal>): seq<Slice>
  {
    [ Slice("Percentage-based", |Filter(macroGoals, (g: MacroGoal) => g.goalType == Percentage)|, "#8b5cf6"),
      Slice("Hours-based", |Filter(macroGoals, (g: MacroGoal) => g.goalType == Hours)|, "#f59e0b") ]
  }

  /** The schema allows only the two kinds, so the two slices count every macro goal once. */
  lemma {:induction false} GoalTypesCoverAll(macroGoals: seq<MacroGoal>)
    ensures GoalTypeData(macroGoals)[0].value + GoalTypeData(macroGoals)[1].value == |macroGoals|
  {
    FilterCounts2(macroGoals, (g: MacroGoal) => g.goalType == Percentage, (g: MacroGoal) => g.goalType == Hours);
  }

  /** A micro goal the card counts as completed: exactly 100, or any hours logged. */
  function CountsAsCompleted(m: MicroGoal): bool
  {
    m.completion == 100.0 || m.hours > 0.0
  }

  /** The completed count is the number of positions holding such a micro goal. */
  lemma {:induction false} CompletedCount(microGoals: seq<MicroGoal>)
    ensures |Filter(microGoals, CountsAsCompleted)|
         == |set i | 0 <= i < |microGoals| && (microGoals[i].completion == 100.0 || microGoals[i].hours > 0.0)|
  {
    FilterCountsIndices(microGoals, CountsAsCompleted);
    assert Positions(microGoals, CountsAsCompleted)
        == set i | 0 <= i < |microGoals| && (microGoals[i].completion == 100.0 || microGoals[i].hours > 0.0);
  }

  /**
   * The micro goal card: the number of micro goals; those counted as completed
   * (completion exactly 100 or any hours logged), never more than the total;
   * and the rounded mean completion over all micro goals whatever their macro
   * goal, 0 when there are none.
   */
  function MicroGoalStatsOf(microGoals: seq<MicroGoal>): (r: MicroGoalStats)
    ensures r.total == |microGoals|
    ensures r.completed <= r.total
    ensures r.completed == |set i | 0 <= i < |microGoals| && (microGoals[i].completion == 100.0 || microGoals[i].hours > 0.0)|
    ensures r.completed == 0 <==> forall m :: m in microGoals ==> m.completion != 100.0 && m.hours <= 0.0
    ensures r.avgCompletion == if |microGoals| == 0 then 0 else Round(MeanOf(microGoals, Completion.CompletionOf))
  {
    var done := CountsAsCompleted;
    var addCompletion := (sum: real, m: MicroGoal) => sum + m.completion;
    FilterEmpty(microGoals, done);
    CompletedCount(microGoals);
    ReduceAddsSum(microGoals, addCompletion, Completion.CompletionOf, 0.0);
    MicroGoalStats(
      |microGoals|,
      |Filter(microGoals, done)|,
      if |microGoals| > 0 then Round(Reduce(microGoals, addCompletion, 0.0) / |microGoals| as real) else 0)
  }

  /** With micro goals the schema accepts, the average card shows a value in [0, 100]. */
  lemma {:induction false} AverageInRange(microGoals: seq<MicroGoal>)
    requires forall m :: m in microGoals ==> MicroGoalSchema.Valid(m)
    ensures 0 <= MicroGoalStatsOf(microGoals).avgCompletion <= 100
  {
    if |microGoals| > 0 {
      MeanOfBounds(microGoals, Completion.CompletionOf, 0.0, 100.0);
      var mean := MeanOf(microGoals, Completion.CompletionOf);
      RoundMonotone(0.0, mean);
      RoundMonotone(mean, 100.0);
    }
  }
}
