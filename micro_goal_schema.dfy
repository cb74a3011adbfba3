/** The document schema of micro goals: required fields, bounds and defaults. */
module MicroGoalSchema {
  import opened Wrappers
  import opened Goals

  /** `completion` lies in [0, 100]. */
  predicate CompletionInRange(c: real)
  {
    0.0 <= c <= 100.0
  }

  /** `hours` is non-negative, with no upper bound. */
  predicate HoursInRange(h: real)
  {
    0.0 <= h
  }

  /**
   * A micro goal the schema accepts: `macroGoalId` and `name` are required
   * (non-empty strings), `completion` is within [0, 100] and `hours` is at least 0.
   */
  predicate Valid(m: MicroGoal)
  {
    && m.macroGoalId != ""
    && m.name != ""
    && CompletionInRange(m.completion)
    && HoursInRange(m.hours)
  }

  /** A new document with the schema defaults: `completion` and `hours` default to 0. */
  function WithDefaults(id: string, macroGoalId: string, name: string,
                        completion: Option<real>, hours: Option<real>): (m: MicroGoal)
    ensures m.id == id && m.macroGoalId == macroGoalId && m.name == name
    ensures m.completion == (if completion.Some? then completion.value else 0.0)
    ensures m.hours == (if hours.Some? then hours.value else 0.0)
  {
    MicroGoal(id, macroGoalId, name, completion.GetOr(0.0), hours.GetOr(0.0))
  }

  /** With both numbers defaulted, validity depends only on the two required strings. */
  lemma {:induction false} DefaultsAreInRange(id: string, macroGoalId: string, name: string)
    ensures Valid(WithDefaults(id, macroGoalId, name, None, None)) <==> macroGoalId != "" && name != ""
  {
  }
}
