/** The document schema of macro goals: required fields, the type enum and the defaults. */
module MacroGoalSchema {
  import opened Wrappers
  import opened Goals

  /**
   * A macro goal the schema accepts. `name` is required (a required string
   * must be non-empty); `type` is required and restricted to the enum, which
   * the `GoalType` datatype already guarantees; `totalHours` has no bound.
   */
  predicate Valid(g: MacroGoal)
  {
    g.name != ""
  }

  /**
   * A new document with the schema defaults filled in: `description` and
   * `icon` default to "", `totalHours` to null.
   */
  function WithDefaults(id: string, name: string, description: Option<string>, goalType: GoalType,
                        totalHours: Option<real>, icon: Option<string>): (g: MacroGoal)
    ensures g.id == id && g.name == name && g.goalType == goalType && g.totalHours == totalHours
    ensures description.None? ==> g.description == ""
    ensures description.Some? ==> g.description == description.value
    ensures icon.None? ==> g.icon == ""
    ensures icon.Some? ==> g.icon == icon.value
  {
    MacroGoal(id, name, description.GetOr(""), goalType, totalHours, icon.GetOr(""))
  }

  /**
   * A macro goal of kind hours whose `totalHours` is null or 0 is accepted:
   * the calculator has to guard against it.
   */
  lemma {:induction false} HoursGoalWithoutTargetIsValid(id: string, name: string, t: Option<real>)
    requires name != ""
    requires t.None? || t.value == 0.0
    ensures Valid(WithDefaults(id, name, None, Hours, t, None))
    ensures NumberOr(WithDefaults(id, name, None, Hours, t, None).totalHours, 0.0) == 0.0
  {
  }
}
