/**
 * The dashboard page: its own copy of the completion calculator and the
 * overall completion it hands to the stats section and the tabs.
 */
module Page {
  import opened Wrappers
  import opened Goals
  import opened ArrayOps
  import Completion

  /** The page's copy of the calculator, written with `find`, `filter` and `reduce`. */
  function CalculateMacroCompletion(macroId: string, macroGoals: seq<MacroGoal>, microGoals: seq<MicroGoal>): (r: real)
    ensures r == Completion.MacroCompletion(macroId, macroGoals, microGoals)
  {
    var hasId := (g: MacroGoal) => g.id == macroId;
    var belongs := (m: MicroGoal) => m.macroGoalId == macroId;
    var addHours := (sum: real, m: MicroGoal) => sum + m.hours;
    var addCompletion := (sum: real, m: MicroGoal) => sum + m.completion;
    var macro := Find(macroGoals, hasId);
    var relatedMicro := Filter(microGoals, belongs);
    FindSamePredicate(macroGoals, hasId, Completion.HasId(macroId));
    FilterSamePredicate(microGoals, belongs, Completion.BelongsTo(macroId));
    ReduceAddsSum(relatedMicro, addHours, Completion.HoursOf, 0.0);
    ReduceAddsSum(relatedMicro, addCompletion, Completion.CompletionOf, 0.0);
    if |relatedMicro| == 0 then 0.0
    else if macro.Some? && macro.value.goalType == Hours then
      var completedHours := Reduce(relatedMicro, addHours, 0.0);
      var totalHours := NumberOr(macro.value.totalHours, 0.0);
      if totalHours > 0.0 then completedHours / totalHours * 100.0 else 0.0
    else
      Reduce(relatedMicro, addCompletion, 0.0) / |relatedMicro| as real
  }

  /** The overall completion: 0 without macro goals, else the reduce-sum of per-goal values over their count. */
  function OverallCompletion(macroGoals: seq<MacroGoal>, microGoals: seq<MicroGoal>): (r: real)
    ensures r == Completion.OverallCompletion(macroGoals, microGoals)
  {
    if |macroGoals| > 0 then
      var step := (sum: real, goal: MacroGoal) => sum + CalculateMacroCompletion(goal.id, macroGoals, microGoals);
      ReduceAddsSum(macroGoals, step, Completion.CompletionIn(macroGoals, microGoals), 0.0);
      Reduce(macroGoals, step, 0.0) / |macroGoals| as real
    else
      0.0
  }
}
