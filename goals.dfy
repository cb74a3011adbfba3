/** The two records the dashboard works on: macro goals and the micro goals under them. */
module Goals {
  import opened Wrappers

  /** The schema's enum of goal kinds. */
  datatype GoalType = Percentage | Hours

  /**
   * A macro goal as the store returns it. `description` and `icon` hold the
   * schema defaults ("") when they were never given; `totalHours` may be absent.
   */
  datatype MacroGoal = MacroGoal(
    id: string,
    name: string,
    description: string,
    goalType: GoalType,
    totalHours: Option<real>,
    icon: string)

  /** A micro goal; `macroGoalId` names its macro goal (a weak reference). */
  datatype MicroGoal = MicroGoal(
    id: string,
    macroGoalId: string,
    name: string,
    completion: real,
    hours: real)

  /**
   * JavaScript's `x || fallback` on an optional number: an absent value and
   * the falsy number 0 both give `fallback`.
   */
  function NumberOr(x: Option<real>, fallback: real): (r: real)
    ensures r == fallback <== x.None? || x.value == 0.0
    ensures x.Some? && x.value != 0.0 ==> r == x.value
  {
    if x.Some? && x.value != 0.0 then x.value else fallback
  }
}
