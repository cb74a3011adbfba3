/**
 * The goal store behind the server actions: two tables, from id to macro goal
 * and from id to micro goal, with create, update, delete and list operations
 * whose documents the schemas validate.
 */
module GoalStore {
  import opened Wrappers
  import opened Goals
  import MacroGoalSchema
  import MicroGoalSchema

  /** The fields a new macro goal is created from (everything but the id). */
  datatype NewMacroGoal = NewMacroGoal(
    name: string,
    description: Option<string>,
    goalType: GoalType,
    totalHours: Option<real>,
    icon: Option<string>)

  /** A partial macro goal: only the fields present are written. */
  datatype MacroGoalPatch = MacroGoalPatch(
    name: Option<string>,
    description: Option<string>,
    goalType: Option<GoalType>,
    totalHours: Option<real>,
    icon: Option<string>)

  /** The fields a new micro goal is created from (everything but the id). */
  datatype NewMicroGoal = NewMicroGoal(
    macroGoalId: string,
    name: string,
    completion: Option<real>,
    hours: Option<real>)

  /**
   * A partial micro goal. `id` and `macroGoalId` may be supplied (callers pass
   * whole records) but are never written.
   */
  datatype MicroGoalPatch = MicroGoalPatch(
    id: Option<string>,
    macroGoalId: Option<string>,
    name: Option<string>,
    completion: Option<real>,
    hours: Option<real>)

  /**
   * The document a macro goal creation stores: a missing or empty description
   * becomes "", `totalHours` is kept only for an hours goal (null otherwise),
   * and a missing icon takes the schema default "".
   */
  function NewMacroDocument(id: string, goal: NewMacroGoal): (g: MacroGoal)
    ensures g.id == id && g.name == goal.name && g.goalType == goal.goalType
    ensures g.description == goal.description.GetOr("")
    ensures g.totalHours == if goal.goalType == Hours then goal.totalHours else None
    ensures g.icon == goal.icon.GetOr("")
  {
    MacroGoalSchema.WithDefaults(id, goal.name, Some(goal.description.GetOr("")), goal.goalType,
                                 if goal.goalType == Hours then goal.totalHours else None, goal.icon)
  }

  /** The macro goal after writing the fields present in `patch`; every other field keeps its value. */
  function ApplyMacroPatch(g: MacroGoal, patch: MacroGoalPatch): (r: MacroGoal)
    ensures r.id == g.id
    ensures r.name == patch.name.GetOr(g.name)
    ensures r.description == patch.description.GetOr(g.description)
    ensures r.goalType == patch.goalType.GetOr(g.goalType)
    ensures r.totalHours == if patch.totalHours.Some? then patch.totalHours else g.totalHours
    ensures r.icon == patch.icon.GetOr(g.icon)
  {
    var r := g;
    var r := if patch.name.Some? then r.(name := patch.name.value) else r;
    var r := if patch.description.Some? then r.(description := patch.description.value) else r;
    var r := if patch.goalType.Some? then r.(goalType := patch.goalType.value) else r;
    var r := if patch.totalHours.Some? then r.(totalHours := patch.totalHours) else r;
    var r := if patch.icon.Some? then r.(icon := patch.icon.value) else r;
    r
  }

  /** The update validators, which check only the paths the patch writes: a written name must be non-empty. */
  predicate MacroPatchValid(patch: MacroGoalPatch)
  {
    patch.name.None? || patch.name.value != ""
  }

  /** On a stored (valid) goal, the patch passes the validators exactly when the patched goal is valid. */
  lemma {:induction false} MacroPatchValidity(g: MacroGoal, patch: MacroGoalPatch)
    requires MacroGoalSchema.Valid(g)
    ensures MacroPatchValid(patch) <==> MacroGoalSchema.Valid(ApplyMacroPatch(g, patch))
  {
  }

  /** The document a micro goal creation stores: a missing or zero completion or hours is stored as 0. */
  function NewMicroDocument(id: string, goal: NewMicroGoal): (m: MicroGoal)
    ensures m.id == id && m.macroGoalId == goal.macroGoalId && m.name == goal.name
    ensures m.completion == NumberOr(goal.completion, 0.0)
    ensures m.hours == NumberOr(goal.hours, 0.0)
  {
    MicroGoalSchema.WithDefaults(id, goal.macroGoalId, goal.name,
                                 Some(NumberOr(goal.completion, 0.0)), Some(NumberOr(goal.hours, 0.0)))
  }

  /** The micro goal after writing `name`, `completion` and `hours` where present; id and macro goal never change. */
  function ApplyMicroPatch(m: MicroGoal, patch: MicroGoalPatch): (r: MicroGoal)
    ensures r.id == m.id && r.macroGoalId == m.macroGoalId
    ensures r.name == patch.name.GetOr(m.name)
    ensures r.completion == patch.completion.GetOr(m.completion)
    ensures r.hours == patch.hours.GetOr(m.hours)
  {
    var r := m;
    var r := if patch.name.Some? then r.(name := patch.name.value) else r;
    var r := if patch.completion.Some? then r.(completion := patch.completion.value) else r;
    var r := if patch.hours.Some? then r.(hours := patch.hours.value) else r;
    r
  }

  /** The update validators on the written paths: name non-empty, completion in [0, 100], hours at least 0. */
  predicate MicroPatchValid(patch: MicroGoalPatch)
  {
    && (patch.name.None? || patch.name.value != "")
    && (patch.completion.None? || MicroGoalSchema.CompletionInRange(patch.completion.value))
    && (patch.hours.None? || MicroGoalSchema.HoursInRange(patch.hours.value))
  }

  /** On a stored (valid) micro goal, the patch passes the validators exactly when the patched goal is valid. */
  lemma {:induction false} MicroPatchValidity(m: MicroGoal, patch: MicroGoalPatch)
    requires MicroGoalSchema.Valid(m)
    ensures MicroPatchValid(patch) <==> MicroGoalSchema.Valid(ApplyMicroPatch(m, patch))
  {
  }

  /** The micro goal table after removing every micro goal of `macroId`. */
  function CascadeDelete(microGoals: map<string, MicroGoal>, macroId: string): (r: map<string, MicroGoal>)
    ensures forall k :: k in r ==> k in microGoals && microGoals[k].macroGoalId != macroId && r[k] == microGoals[k]
    ensures forall k :: k in microGoals && microGoals[k].macroGoalId != macroId ==> k in r
  {
    map k | k in microGoals && microGoals[k].macroGoalId != macroId :: microGoals[k]
  }

  class Store {
    var macroGoals: map<string, MacroGoal>
    var microGoals: map<string, MicroGoal>

    /** Every record is filed under its own id and is accepted by its schema. */
    ghost predicate Valid()
      reads this
    {
      && (forall id :: id in macroGoals ==> macroGoals[id].id == id && MacroGoalSchema.Valid(macroGoals[id]))
      && (forall id :: id in microGoals ==> microGoals[id].id == id && MicroGoalSchema.Valid(microGoals[id]))
    }

    constructor ()
      ensures Valid() && macroGoals == map[] && microGoals == map[]
    {
      macroGoals := map[];
      microGoals := map[];
    }

    /**
     * `createMacroGoal`: stores the new document under `freshId` and returns
     * it, or returns null and stores nothing when the schema rejects it.
     */
    method CreateMacroGoal(freshId: string, goal: NewMacroGoal) returns (r: Option<MacroGoal>)
      requires Valid() && freshId !in macroGoals
      modifies this`macroGoals
      ensures Valid()
      ensures var doc := NewMacroDocument(freshId, goal);
        if MacroGoalSchema.Valid(doc) then r == Some(doc) && macroGoals == old(macroGoals)[freshId := doc]
        else r == None && macroGoals == old(macroGoals)
    {
      var doc := NewMacroDocument(freshId, goal);
      if MacroGoalSchema.Valid(doc) {
        macroGoals := macroGoals[freshId := doc];
        r := Some(doc);
      } else {
        r := None;
      }
    }

    /**
     * `updateMacroGoal`: writes the fields present in the patch and returns the
     * updated goal; a missing id or a patch the validators reject returns null
     * and changes nothing.
     */
    method UpdateMacroGoal(id: string, patch: MacroGoalPatch) returns (r: Option<MacroGoal>)
      requires Valid()
      modifies this`macroGoals
      ensures Valid()
      ensures if id in old(macroGoals) && MacroPatchValid(patch)
        then r == Some(ApplyMacroPatch(old(macroGoals)[id], patch))
          && macroGoals == old(macroGoals)[id := ApplyMacroPatch(old(macroGoals)[id], patch)]
        else r == None && macroGoals == old(macroGoals)
    {
      if !MacroPatchValid(patch) || id !in macroGoals {
        return None;
      }
      var updated := ApplyMacroPatch(macroGoals[id], patch);
      MacroPatchValidity(macroGoals[id], patch);
      macroGoals := macroGoals[id := updated];
      r := Some(updated);
    }

    /**
     * `deleteMacroGoal`: first deletes every micro goal of `id`, then the macro
     * goal itself; returns whether the macro goal existed. The micro goals go
     * even when it did not.
     */
    method DeleteMacroGoal(id: string) returns (deleted: bool)
      requires Valid()
      modifies this
      ensures Valid()
      ensures microGoals == CascadeDelete(old(microGoals), id)
      ensures macroGoals == old(macroGoals) - {id}
      ensures deleted == (id in old(macroGoals))
      ensures forall k :: k in microGoals ==> microGoals[k].macroGoalId != id
    {
      microGoals := CascadeDelete(microGoals, id);
      if id !in macroGoals {
        return false;
      }
      macroGoals := macroGoals - {id};
      deleted := true;
    }

    /**
     * `createMicroGoal`: stores the new document (zero or missing numbers
     * stored as 0) under `freshId`, or returns null when the schema rejects it.
     * The macro goal it names is not checked.
     */
    method CreateMicroGoal(freshId: string, goal: NewMicroGoal) returns (r: Option<MicroGoal>)
      requires Valid() && freshId !in microGoals
      modifies this`microGoals
      ensures Valid()
      ensures var doc := NewMicroDocument(freshId, goal);
        if MicroGoalSchema.Valid(doc) then r == Some(doc) && microGoals == old(microGoals)[freshId := doc]
        else r == None && microGoals == old(microGoals)
    {
      var doc := NewMicroDocument(freshId, goal);
      if MicroGoalSchema.Valid(doc) {
        microGoals := microGoals[freshId := doc];
        r := Some(doc);
      } else {
        r := None;
      }
    }

    /**
     * `updateMicroGoal`: writes `name`, `completion` and `hours` where present
     * (never `macroGoalId`); a missing id or a patch the validators reject
     * returns null and changes nothing.
     */
    method UpdateMicroGoal(id: string, patch: MicroGoalPatch) returns (r: Option<MicroGoal>)
      requires Valid()
      modifies this`microGoals
      ensures Valid()
      ensures if id in old(microGoals) && MicroPatchValid(patch)
        then r == Some(ApplyMicroPatch(old(microGoals)[id], patch))
          && microGoals == old(microGoals)[id := ApplyMicroPatch(old(microGoals)[id], patch)]
        else r == None && microGoals == old(microGoals)
    {
      if !MicroPatchValid(patch) || id !in microGoals {
        return None;
      }
      var updated := ApplyMicroPatch(microGoals[id], patch);
      MicroPatchValidity(microGoals[id], patch);
      microGoals := microGoals[id := updated];
      r := Some(updated);
    }

    /** `deleteMicroGoal`: removes exactly that record; returns whether it existed. */
    method DeleteMicroGoal(id: string) returns (deleted: bool)
      requires Valid()
      modifies this`microGoals
      ensures Valid()
      ensures microGoals == old(microGoals) - {id}
      ensures deleted == (id in old(microGoals))
    {
      deleted := id in microGoals;
      microGoals := microGoals - {id};
    }

    /**
     * `getMacroGoals`: every stored macro goal exactly once (in an order this
     * model leaves open).
     */
    method ListMacroGoals() returns (goals: seq<MacroGoal>)
      requires Valid()
      ensures |goals| == |macroGoals|
      ensures forall g :: g in goals <==> g in macroGoals.Values
      ensures forall i, j :: 0 <= i < j < |goals| ==> goals[i].id != goals[j].id
    {
      goals := [];
      var remaining := macroGoals.Keys;
      while remaining != {}
        invariant remaining <= macroGoals.Keys
        invariant |goals| + |remaining| == |macroGoals.Keys|
        invariant forall g :: g in goals ==> g in macroGoals.Values && g.id in macroGoals && g.id !in remaining
        invariant forall id :: id in macroGoals && id !in remaining ==> macroGoals[id] in goals
        invariant forall i, j :: 0 <= i < j < |goals| ==> goals[i].id != goals[j].id
        decreases remaining
      {
        var id :| id in remaining;
        goals := goals + [macroGoals[id]];
        remaining := remaining - {id};
      }
    }

    /**
     * `getMicroGoals`: every stored micro goal exactly once (in an order this
     * model leaves open).
     */
    method ListMicroGoals() returns (goals: seq<MicroGoal>)
      requires Valid()
      ensures |goals| == |microGoals|
      ensures forall m :: m in goals <==> m in microGoals.Values
      ensures forall i, j :: 0 <= i < j < |goals| ==> goals[i].id != goals[j].id
    {
      goals := [];
      var remaining := microGoals.Keys;
      while remaining != {}
        invariant remaining <= microGoals.Keys
        invariant |goals| + |remaining| == |microGoals.Keys|
        invariant forall m :: m in goals ==> m in microGoals.Values && m.id in microGoals && m.id !in remaining
        invariant forall id :: id in microGoals && id !in remaining ==> microGoals[id] in goals
        invariant forall i, j :: 0 <= i < j < |goals| ==> goals[i].id != goals[j].id
        decreases remaining
      {
        var id :| id in remaining;
        goals := goals + [microGoals[id]];
        remaining := remaining - {id};
      }
    }
  }
}
