/**
 * The tabs container: a third copy of the calculator and the props it hands
 * to the four tabs (goals table, micro goals manager, progress tracker, badges).
 */
module GoalsTabs {
  import opened Wrappers
  import opened Goals
  import opened ArrayOps
  import Completion

  /** The tabs' copy of the calculator. */
  function CalculateMacroCompletion(macroId: string, macroGoals: seq<MacroGoal>, microGoals: seq<MicroGoal>): (r: real)
    ensures r == Completion.MacroCompletion(macroId, macroGoals, microGoals)
  {
    var hasId := (g: MacroGoal) => g.id == macroId;
    var belongs := (m: MicroGoal) => m.macroGoalId == macroId;
    var addHours := (sum: real, m: MicroGoal) => sum + m.hours;
    var addCompletion := (sum: real, m: MicroGoal) => sum + m.completion;
    var macro := Find(macroGoals, hasId);
    var relatedMicro := Filter(microGoals, belongs);
    FindSamePredicate(macroGoals, hasId, Completion.HasId(macroId));
    FilterSamePredicate(microGoals, belongs, Completion.BelongsTo(macroId));
    ReduceAddsSum(relatedMicro, addHours, Completion.HoursOf, 0.0);
    ReduceAddsSum(relatedMicro, addCompletion, Completion.CompletionOf, 0.0);
    if |relatedMicro| == 0 then 0.0
    else if macro.Some? && macro.value.goalType == Hours then
      var completedHours := Reduce(relatedMicro, addHours, 0.0);
      var totalHours := NumberOr(macro.value.totalHours, 0.0);
      if totalHours > 0.0 then completedHours / totalHours * 100.0 else 0.0
    else
      Reduce(relatedMicro, addCompletion, 0.0) / |relatedMicro| as real
  }

  /** What each tab receives: a completion callback each, and the overall value for the badges tab. */
  datatype TabProps = TabProps(
    tableCompletion: string -> real,
    managerCompletion: string -> real,
    trackerCompletion: string -> real,
    badgesCompletion: string -> real,
    badgesOverall: real)

  /**
   * The props of the four tabs: every callback is the calculator closed over
   * the same goal lists, so all tabs report the same value for every id, and
   * the overall completion reaches the badges tab unchanged.
   */
  function Tabs(microGoals: seq<MicroGoal>, macroGoals: seq<MacroGoal>, overallCompletion: real): (p: TabProps)
    ensures forall id :: p.tableCompletion(id) == Completion.MacroCompletion(id, macroGoals, microGoals)
    ensures forall id :: p.managerCompletion(id) == Completion.MacroCompletion(id, macroGoals, microGoals)
    ensures forall id :: p.trackerCompletion(id) == Completion.MacroCompletion(id, macroGoals, microGoals)
    ensures forall id :: p.badgesCompletion(id) == Completion.MacroCompletion(id, macroGoals, microGoals)
    ensures p.badgesOverall == overallCompletion
  {
    TabProps(
      (id: string) => CalculateMacroCompletion(id, macroGoals, microGoals),
      (id: string) => CalculateMacroCompletion(id, macroGoals, microGoals),
      (id: string) => CalculateMacroCompletion(id, macroGoals, microGoals),
      (id: string) => CalculateMacroCompletion(id, macroGoals, microGoals),
      overallCompletion)
  }
}
