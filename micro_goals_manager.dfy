/**
 * The micro goals manager: one collapsible card per macro goal listing its
 * micro goals (incomplete ones first), with inline editing, a completion
 * checkbox, deletion and an input that adds a new micro goal.
 */
module MicroGoalsManager {
  import opened Wrappers
  import opened Goals
  import opened ArrayOps
  import Completion
  import MicroGoalSchema
  import GoalStore

  // ---------------------------------------------------------------------------
  // Ordering of a card's micro goals

  function IsComplete(m: MicroGoal): bool { m.completion == 100.0 }

  function IsIncomplete(m: MicroGoal): bool { m.completion != 100.0 }

  /** The card's comparator: an incomplete goal sorts before a complete one; otherwise they tie. */
  function IncompleteFirst(a: MicroGoal, b: MicroGoal): (c: int)
    ensures c < 0 <==> IsIncomplete(a) && IsComplete(b)
    ensures c > 0 <==> IsComplete(a) && IsIncomplete(b)
  {
    var aComplete := a.completion == 100.0;
    var bComplete := b.completion == 100.0;
    if aComplete != bComplete then (if aComplete then 1 else -1) else 0
  }

  /** Puts `x` in front of the first element of `sorted` that does not sort strictly before it. */
  function Insert<T>(x: T, sorted: seq<T>, cmp: (T, T) -> int): (r: seq<T>)
    ensures multiset(r) == multiset(sorted) + multiset{x}
  {
    if |sorted| == 0 then [x]
    else if cmp(x, sorted[0]) <= 0 then [x] + sorted
    else
      assert sorted == [sorted[0]] + sorted[1..];
      [sorted[0]] + Insert(x, sorted[1..], cmp)
  }

  /**
   * `Array.prototype.sort` with a comparator, which is stable: an insertion
   * sort that keeps tied elements in their original order.
   */
  function SortWith<T>(s: seq<T>, cmp: (T, T) -> int): (r: seq<T>)
    ensures multiset(r) == multiset(s)
  {
    if |s| == 0 then []
    else
      assert s == [s[0]] + s[1..];
      Insert(s[0], SortWith(s[1..], cmp), cmp)
  }

  /** A complete goal is inserted after all incomplete goals and before the complete ones. */
  lemma {:induction false} InsertCompleteGoal(x: MicroGoal, a: seq<MicroGoal>, b: seq<MicroGoal>)
    requires IsComplete(x)
    requires forall m :: m in a ==> IsIncomplete(m)
    requires forall m :: m in b ==> IsComplete(m)
    ensures Insert(x, a + b, IncompleteFirst) == a + ([x] + b)
  {
    if |a| == 0 {
      assert a + b == b && a + ([x] + b) == [x] + b;
      if |b| > 0 {
        assert b[0] in b;
        assert IncompleteFirst(x, b[0]) == 0;
      }
    } else {
      var t := a + b;
      assert t[0] == a[0] && a[0] in a;
      assert IncompleteFirst(x, t[0]) == 1;
      assert t[1..] == a[1..] + b;
      InsertCompleteGoal(x, a[1..], b);
      assert a + ([x] + b) == [a[0]] + (a[1..] + ([x] + b));
    }
  }

  /** An incomplete goal goes in front. */
  lemma {:induction false} InsertIncompleteGoal(x: MicroGoal, a: seq<MicroGoal>, b: seq<MicroGoal>)
    requires IsIncomplete(x)
    ensures Insert(x, a + b, IncompleteFirst) == ([x] + a) + b
  {
    assert [x] + (a + b) == ([x] + a) + b;
  }

  /**
   * Sorting with the card's comparator puts the incomplete goals first and the
   * complete ones after them, each group in its original order.
   */
  lemma {:induction false} SortPartitionsByCompletion(s: seq<MicroGoal>)
    ensures SortWith(s, IncompleteFirst) == Filter(s, IsIncomplete) + Filter(s, IsComplete)
  {
    if |s| > 0 {
      var x, rest := s[0], s[1..];
      SortPartitionsByCompletion(rest);
      var a := Filter(rest, IsIncomplete);
      var b := Filter(rest, IsComplete);
      assert SortWith(s, IncompleteFirst) == Insert(x, a + b, IncompleteFirst);
      if IsComplete(x) {
        assert Filter(s, IsIncomplete) == a;
        assert Filter(s, IsComplete) == [x] + b;
        InsertCompleteGoal(x, a, b);
      } else {
        assert Filter(s, IsIncomplete) == [x] + a;
        assert Filter(s, IsComplete) == b;
        InsertIncompleteGoal(x, a, b);
      }
    }
  }

  /**
   * `getSortedMicroGoals`: the micro goals of `macroId`, incomplete ones first
   * and complete ones after, each group in the order of `microGoals`; the card
   * holds exactly that macro goal's micro goals.
   */
  function GetSortedMicroGoals(microGoals: seq<MicroGoal>, macroId: string): (r: seq<MicroGoal>)
    ensures r == Filter(Completion.Related(macroId, microGoals), IsIncomplete)
               + Filter(Completion.Related(macroId, microGoals), IsComplete)
    ensures multiset(r) == multiset(Completion.Related(macroId, microGoals))
  {
    var related := Filter(microGoals, (m: MicroGoal) => m.macroGoalId == macroId);
    FilterSamePredicate(microGoals, (m: MicroGoal) => m.macroGoalId == macroId, Completion.BelongsTo(macroId));
    SortPartitionsByCompletion(related);
    SortWith(related, IncompleteFirst)
  }

  /** In incomplete goals followed by complete goals, every position before the seam is incomplete and every one after is complete. */
  lemma {:induction false} SplitAtSeam(a: seq<MicroGoal>, b: seq<MicroGoal>)
    requires forall m :: m in a ==> IsIncomplete(m)
    requires forall m :: m in b ==> IsComplete(m)
    ensures forall k :: 0 <= k < |a| ==> IsIncomplete((a + b)[k])
    ensures forall k :: |a| <= k < |a + b| ==> IsComplete((a + b)[k])
  {
    forall k | 0 <= k < |a|
      ensures IsIncomplete((a + b)[k])
    {
      assert (a + b)[k] == a[k] && a[k] in a;
    }
    forall k | |a| <= k < |a + b|
      ensures IsComplete((a + b)[k])
    {
      assert (a + b)[k] == b[k - |a|] && b[k - |a|] in b;
    }
  }

  /** On a card, no complete goal comes before an incomplete one. */
  lemma {:induction false} CompleteGoalsLast(microGoals: seq<MicroGoal>, macroId: string, i: nat, j: nat)
    requires i < j < |GetSortedMicroGoals(microGoals, macroId)|
    requires IsComplete(GetSortedMicroGoals(microGoals, macroId)[i])
    ensures IsComplete(GetSortedMicroGoals(microGoals, macroId)[j])
  {
    var related := Completion.Related(macroId, microGoals);
    SplitAtSeam(Filter(related, IsIncomplete), Filter(related, IsComplete));
  }

  // ---------------------------------------------------------------------------
  // Edits made on a micro goal row

  /** `Math.min` */
  function Min(a: real, b: real): (r: real)
    ensures r <= a && r <= b && (r == a || r == b)
  {
    if a <= b then a else b
  }

  /**
   * The percentage input: `parsed` is what `parseFloat` makes of the text (None
   * for NaN); NaN and 0 become 0, and values above 100 are capped at 100.
   * Nothing raises a negative value.
   */
  function EditedCompletion(micro: MicroGoal, parsed: Option<real>): (r: MicroGoal)
    ensures r == micro.(completion := r.completion)
    ensures parsed.None? ==> r.completion == 0.0
    ensures parsed.Some? && parsed.value >= 100.0 ==> r.completion == 100.0
    ensures parsed.Some? && parsed.value < 100.0 ==> r.completion == parsed.value
  {
    micro.(completion := Min(NumberOr(parsed, 0.0), 100.0))
  }

  /**
   * The hours input: NaN and 0 become 0, and values are capped at the macro
   * goal's `totalHours` (at 0 when that is absent or 0).
   */
  function EditedHours(macro: MacroGoal, micro: MicroGoal, parsed: Option<real>): (r: MicroGoal)
    ensures r == micro.(hours := r.hours)
    ensures r.hours <= NumberOr(macro.totalHours, 0.0)
    ensures parsed.None? ==> r.hours == if NumberOr(macro.totalHours, 0.0) < 0.0 then NumberOr(macro.totalHours, 0.0) else 0.0
    ensures parsed.Some? && parsed.value > NumberOr(macro.totalHours, 0.0) ==> r.hours == NumberOr(macro.totalHours, 0.0)
    ensures parsed.Some? && parsed.value <= NumberOr(macro.totalHours, 0.0) ==> r.hours == parsed.value
  {
    micro.(hours := Min(NumberOr(parsed, 0.0), NumberOr(macro.totalHours, 0.0)))
  }

  /**
   * Ticking or unticking the checkbox: on an hours goal it sets `hours` to the
   * target (or 0 when unticked) and leaves `completion` alone; on a percentage
   * goal it sets `completion` to 100 (or 0).
   */
  function Toggled(macro: MacroGoal, micro: MicroGoal, checked: bool): (r: MicroGoal)
    ensures macro.goalType == Hours ==> r == micro.(hours := if checked then NumberOr(macro.totalHours, 0.0) else 0.0)
    ensures macro.goalType == Percentage ==> r == micro.(completion := if checked then 100.0 else 0.0)
  {
    if macro.goalType == Hours then
      micro.(hours := if checked then NumberOr(macro.totalHours, 0.0) else 0.0)
    else
      micro.(completion := if checked then 100.0 else 0.0)
  }

  /** The micro goal's progress bar: hours over the target (1 when absent or 0) for an hours goal, else its completion. */
  function ProgressPercent(macro: MacroGoal): MicroGoal -> real
  {
    (m: MicroGoal) =>
      if macro.goalType == Hours then m.hours / NumberOr(macro.totalHours, 1.0) * 100.0 else m.completion
  }

  /** A typed percentage is stored only when it is not negative. */
  lemma {:induction false} EditedCompletionValid(micro: MicroGoal, parsed: Option<real>)
    requires MicroGoalSchema.Valid(micro)
    ensures MicroGoalSchema.Valid(EditedCompletion(micro, parsed)) <==> parsed.None? || parsed.value >= 0.0
  {
  }

  /** Under a non-negative target, a typed hour count is stored only when it is not negative. */
  lemma {:induction false} EditedHoursValid(macro: MacroGoal, micro: MicroGoal, parsed: Option<real>)
    requires MicroGoalSchema.Valid(micro)
    requires NumberOr(macro.totalHours, 0.0) >= 0.0
    ensures MicroGoalSchema.Valid(EditedHours(macro, micro, parsed)) <==> parsed.None? || parsed.value >= 0.0
  {
  }

  /** On a percentage goal the checkbox shows what was last ticked. */
  lemma {:induction false} TogglePercentageRoundTrip(macro: MacroGoal, micro: MicroGoal, checked: bool)
    requires macro.goalType == Percentage
    ensures IsComplete(Toggled(macro, micro, checked)) == checked
    ensures Toggled(macro, Toggled(macro, micro, checked), !checked) == Toggled(macro, micro, !checked)
  {
  }

  /**
   * On an hours goal with a positive target, ticking fills the progress bar
   * and unticking empties it, but the checkbox state (completion at 100) does
   * not change.
   */
  lemma {:induction false} ToggleHoursProgress(macro: MacroGoal, micro: MicroGoal, checked: bool, t: real)
    requires macro.goalType == Hours && macro.totalHours == Some(t) && t > 0.0
    ensures ProgressPercent(macro)(Toggled(macro, micro, checked)) == if checked then 100.0 else 0.0
    ensures IsComplete(Toggled(macro, micro, checked)) == IsComplete(micro)
  {
  }

  /** Ticking an hours goal that was not at 100% leaves its checkbox unticked. */
  lemma {:induction false} TickedHoursGoalShowsUnticked()
    ensures
      var macro := MacroGoal("g", "Read", "", Hours, Some(10.0), "");
      var micro := MicroGoal("m", "g", "Chapter 1", 0.0, 0.0);
      !IsComplete(Toggled(macro, micro, true)) && ProgressPercent(macro)(Toggled(macro, micro, true)) == 100.0
  {
  }

  /**
   * The checkbox state the hours card evidently intends: an hours goal is
   * done when its hours reach a positive target; a percentage goal when its
   * completion is 100.
   */
  function CheckboxSelected(macro: MacroGoal, micro: MicroGoal): bool
  {
    if macro.goalType == Hours then NumberOr(macro.totalHours, 0.0) > 0.0 && micro.hours >= NumberOr(macro.totalHours, 0.0)
    else micro.completion == 100.0
  }

  /** With that state, ticking or unticking always shows what was clicked, for both kinds of goal. */
  lemma {:induction false} CheckboxSelectedRoundTrip(macro: MacroGoal, micro: MicroGoal, checked: bool)
    requires macro.goalType == Percentage || NumberOr(macro.totalHours, 0.0) > 0.0
    ensures CheckboxSelected(macro, Toggled(macro, micro, checked)) == checked
  {
  }

  /**
   * The progress bars agree with the card's total: for an hours goal with a
   * positive target the macro completion is the sum of the micro goals' bars;
   * for a percentage goal it is their mean.
   */
  lemma {:induction false} CardTotalMatchesBars(macro: MacroGoal, macroGoals: seq<MacroGoal>, microGoals: seq<MicroGoal>)
    requires Completion.Lookup(macro.id, macroGoals) == Some(macro)
    ensures var related := Completion.Related(macro.id, microGoals);
      Completion.MacroCompletion(macro.id, macroGoals, microGoals) ==
        if macro.goalType == Hours && NumberOr(macro.totalHours, 0.0) > 0.0 then SumOf(related, ProgressPercent(macro))
        else if macro.goalType == Hours then 0.0
        else MeanOf(related, ProgressPercent(macro))
  {
    var related := Completion.Related(macro.id, microGoals);
    if macro.goalType == Hours {
      if NumberOr(macro.totalHours, 0.0) > 0.0 {
        HoursBarsAddUp(macro, related, NumberOr(macro.totalHours, 0.0));
      }
    } else {
      PercentageBarsAreCompletions(macro, related);
    }
  }

  /** Under a positive target, the hours bars add up to the summed hours as a percentage of the target. */
  lemma {:induction false} HoursBarsAddUp(macro: MacroGoal, related: seq<MicroGoal>, t: real)
    requires macro.goalType == Hours && NumberOr(macro.totalHours, 0.0) == t && t > 0.0
    ensures SumOf(related, ProgressPercent(macro)) == SumOf(related, Completion.HoursOf) / t * 100.0
  {
    var k := 100.0 / t;
    forall m | m in related
      ensures ProgressPercent(macro)(m) == Completion.HoursOf(m) * k
    {
      assert NumberOr(macro.totalHours, 1.0) == t;
    }
    SumOfScale(related, Completion.HoursOf, ProgressPercent(macro), k);
    var h := SumOf(related, Completion.HoursOf);
    assert h / t * 100.0 == h * k;
  }

  /** On a percentage goal each bar is the goal's completion. */
  lemma {:induction false} PercentageBarsAreCompletions(macro: MacroGoal, related: seq<MicroGoal>)
    requires macro.goalType == Percentage
    ensures SumOf(related, ProgressPercent(macro)) == SumOf(related, Completion.CompletionOf)
  {
    forall m | m in related
      ensures ProgressPercent(macro)(m) == Completion.CompletionOf(m)
    {
    }
    SumOfPointwise(related, ProgressPercent(macro), related, Completion.CompletionOf);
  }

  // ---------------------------------------------------------------------------
  // Requests the card sends to the store

  /** What the add input submits for a new micro goal: completion and hours both 0. */
  function NewMicroGoalRequest(macroId: string, name: string): (r: GoalStore.NewMicroGoal)
    ensures GoalStore.NewMicroDocument("", r).completion == 0.0
    ensures GoalStore.NewMicroDocument("", r).hours == 0.0
  {
    GoalStore.NewMicroGoal(macroId, name, Some(0.0), Some(0.0))
  }

  /** A whole record passed as the partial update: every field is present. */
  function WholeRecordPatch(m: MicroGoal): (p: GoalStore.MicroGoalPatch)
    ensures p.name == Some(m.name) && p.completion == Some(m.completion) && p.hours == Some(m.hours)
  {
    GoalStore.MicroGoalPatch(Some(m.id), Some(m.macroGoalId), Some(m.name), Some(m.completion), Some(m.hours))
  }

  /** Sending an edited copy of a stored record stores exactly that copy. */
  lemma {:induction false} WholeRecordPatchStoresCopy(stored: MicroGoal, edited: MicroGoal)
    requires MicroGoalSchema.Valid(stored)
    requires stored.id == edited.id && stored.macroGoalId == edited.macroGoalId
    ensures GoalStore.ApplyMicroPatch(stored, WholeRecordPatch(edited)) == edited
    ensures GoalStore.MicroPatchValid(WholeRecordPatch(edited)) <==> MicroGoalSchema.Valid(edited)
  {
  }

  // ---------------------------------------------------------------------------
  // The component's state

  class Manager {
    /** The add input's text per macro goal id. */
    var newGoalName: map<string, string>
    /** The id of the one expanded card, if any. */
    var expandedMacro: Option<string>
    /** Set while a request is in flight; disables the inputs. */
    var isLoading: bool

    /** The first macro goal's card starts expanded (none when there is none, or its id is empty). */
    constructor (macroGoals: seq<MacroGoal>)
      ensures newGoalName == map[] && !isLoading
      ensures expandedMacro == if |macroGoals| > 0 && macroGoals[0].id != "" then Some(macroGoals[0].id) else None
    {
      newGoalName := map[];
      expandedMacro := if |macroGoals| > 0 && macroGoals[0].id != "" then Some(macroGoals[0].id) else None;
      isLoading := false;
    }

    /** The add input's text for `macroId` (`newGoalName[macroId] || ""`). */
    function Draft(macroId: string): string
      reads this
    {
      if macroId in newGoalName then newGoalName[macroId] else ""
    }

    predicate IsExpanded(macroId: string)
      reads this
    {
      expandedMacro == Some(macroId)
    }

    /** Typing into a card's add input changes that card's text only. */
    method EditDraft(macroId: string, value: string)
      modifies this`newGoalName
      ensures newGoalName == old(newGoalName)[macroId := value]
      ensures Draft(macroId) == value
      ensures forall other :: other != macroId ==> Draft(other) == old(Draft(other))
    {
      newGoalName := newGoalName[macroId := value];
    }

    /** Clicking a card's header collapses it when expanded, and otherwise expands it alone. */
    method ClickCard(macroId: string)
      modifies this`expandedMacro
      ensures IsExpanded(macroId) <==> !old(IsExpanded(macroId))
      ensures forall other :: other != macroId ==> !IsExpanded(other)
    {
      expandedMacro := if expandedMacro == Some(macroId) then None else Some(macroId);
    }

    /**
     * The Add button (or Enter): with an empty input nothing happens;
     * otherwise the new micro goal is sent to the store under `freshId` and
     * the input is cleared, whether or not the store accepted it.
     */
    method AddMicroGoal(store: GoalStore.Store, macroId: string, freshId: string) returns (created: Option<MicroGoal>)
      requires store.Valid() && freshId !in store.microGoals
      modifies this`newGoalName, this`isLoading, store`microGoals
      ensures store.Valid()
      ensures old(Draft(macroId)) == "" ==>
        created == None && store.microGoals == old(store.microGoals)
        && newGoalName == old(newGoalName) && isLoading == old(isLoading)
      ensures old(Draft(macroId)) != "" ==>
        var doc := GoalStore.NewMicroDocument(freshId, NewMicroGoalRequest(macroId, old(Draft(macroId))));
        && (created.Some? <==> macroId != "")
        && (created.Some? ==> created.value == doc && store.microGoals == old(store.microGoals)[freshId := doc])
        && (created.None? ==> store.microGoals == old(store.microGoals))
        && newGoalName == old(newGoalName)[macroId := ""] && !isLoading
    {
      var name := Draft(macroId);
      if name == "" {
        return None;
      }
      isLoading := true;
      created := store.CreateMicroGoal(freshId, NewMicroGoalRequest(macroId, name));
      newGoalName := newGoalName[macroId := ""];
      isLoading := false;
    }

    /** `handleUpdateMicroGoal`: sends the whole edited record as the update. */
    method UpdateMicroGoal(store: GoalStore.Store, goal: MicroGoal) returns (updated: Option<MicroGoal>)
      requires store.Valid()
      modifies this`isLoading, store`microGoals
      ensures store.Valid() && !isLoading
      ensures if goal.id in old(store.microGoals) && GoalStore.MicroPatchValid(WholeRecordPatch(goal))
        then updated == Some(GoalStore.ApplyMicroPatch(old(store.microGoals)[goal.id], WholeRecordPatch(goal)))
          && store.microGoals == old(store.microGoals)[goal.id := updated.value]
        else updated == None && store.microGoals == old(store.microGoals)
    {
      isLoading := true;
      updated := store.UpdateMicroGoal(goal.id, WholeRecordPatch(goal));
      isLoading := false;
    }

    /**
     * Ticking the checkbox of a stored micro goal: the store then holds the
     * toggled record when the schema accepts it (an hours goal with a negative
     * target yields negative hours, which it rejects), and is left as it was
     * otherwise.
     */
    method TickCheckbox(store: GoalStore.Store, macro: MacroGoal, micro: MicroGoal, checked: bool)
      requires store.Valid() && micro.id in store.microGoals && store.microGoals[micro.id] == micro
      modifies this`isLoading, store`microGoals
      ensures store.Valid() && !isLoading
      ensures store.microGoals == if MicroGoalSchema.Valid(Toggled(macro, micro, checked))
        then old(store.microGoals)[micro.id := Toggled(macro, micro, checked)]
        else old(store.microGoals)
    {
      var edited := Toggled(macro, micro, checked);
      WholeRecordPatchStoresCopy(micro, edited);
      var _ := UpdateMicroGoal(store, edited);
    }

    /** The row's delete button: removes exactly that micro goal from the store. */
    method DeleteMicroGoal(store: GoalStore.Store, goalId: string) returns (deleted: bool)
      requires store.Valid()
      modifies this`isLoading, store`microGoals
      ensures store.Valid() && !isLoading
      ensures store.microGoals == old(store.microGoals) - {goalId}
      ensures deleted == (goalId in old(store.microGoals))
    {
      isLoading := true;
      deleted := store.DeleteMicroGoal(goalId);
      isLoading := false;
    }
  }
}
