/**
 * The completion calculator: the one definition of a macro goal's completion
 * percentage and of the overall completion, with the properties the dashboard
 * relies on. The three copies in the user interface are proved equal to it.
 */
module Completion {
  import opened Wrappers
  import opened Goals
  import opened ArrayOps
  import MicroGoalSchema

  /** Selects the micro goals of macro goal `macroId`. */
  function BelongsTo(macroId: string): MicroGoal -> bool
  {
    (m: MicroGoal) => m.macroGoalId == macroId
  }

  /** Selects the macro goal with id `macroId`. */
  function HasId(macroId: string): MacroGoal -> bool
  {
    (g: MacroGoal) => g.id == macroId
  }

  function HoursOf(m: MicroGoal): real { m.hours }

  function CompletionOf(m: MicroGoal): real { m.completion }

  /** The first macro goal with id `macroId`, if any. */
  function Lookup(macroId: string, macroGoals: seq<MacroGoal>): (r: Option<MacroGoal>)
    ensures r.None? <==> forall g :: g in macroGoals ==> g.id != macroId
    ensures r.Some? ==> r.value in macroGoals && r.value.id == macroId
  {
    Find(macroGoals, HasId(macroId))
  }

  /** With several macro goals of the same id, the first one in the list is the one found. */
  lemma {:induction false} LookupFindsFirst(macroId: string, macroGoals: seq<MacroGoal>, i: nat)
    requires i < |macroGoals| && macroGoals[i].id == macroId
    requires forall j :: 0 <= j < i ==> macroGoals[j].id != macroId
    ensures Lookup(macroId, macroGoals) == Some(macroGoals[i])
  {
    FindReturnsFirst(macroGoals, HasId(macroId), i);
  }

  /** The micro goals of macro goal `macroId`, in their original order. */
  function Related(macroId: string, microGoals: seq<MicroGoal>): (r: seq<MicroGoal>)
    ensures forall m :: m in r <==> m in microGoals && m.macroGoalId == macroId
  {
    Filter(microGoals, BelongsTo(macroId))
  }

  /**
   * The completion percentage of macro goal `macroId`: 0 without micro goals;
   * for an hours goal the summed hours as a percentage of `totalHours`
   * (0 when that is absent or not positive); otherwise the mean of the micro
   * goals' `completion`. An id missing from `macroGoals` counts as a
   * percentage goal.
   */
  function MacroCompletion(macroId: string, macroGoals: seq<MacroGoal>, microGoals: seq<MicroGoal>): real
  {
    var related := Related(macroId, microGoals);
    var macro := Lookup(macroId, macroGoals);
    if |related| == 0 then 0.0
    else if macro.Some? && macro.value.goalType == Hours then
      var total := NumberOr(macro.value.totalHours, 0.0);
      if total > 0.0 then SumOf(related, HoursOf) / total * 100.0 else 0.0
    else
      MeanOf(related, CompletionOf)
  }

  /** Each macro goal's completion, as a function to sum or filter with. */
  function CompletionIn(macroGoals: seq<MacroGoal>, microGoals: seq<MicroGoal>): MacroGoal -> real
  {
    (g: MacroGoal) => MacroCompletion(g.id, macroGoals, microGoals)
  }

  /** The unweighted mean of the macro goals' completions; 0 without macro goals. */
  function OverallCompletion(macroGoals: seq<MacroGoal>, microGoals: seq<MicroGoal>): real
  {
    MeanOf(macroGoals, CompletionIn(macroGoals, microGoals))
  }

  // ---------------------------------------------------------------------------
  // Properties of MacroCompletion

  /** No micro goal of `macroId`: the completion is exactly 0. */
  lemma {:induction false} NoMicroGoalsIsZero(macroId: string, macroGoals: seq<MacroGoal>, microGoals: seq<MicroGoal>)
    requires forall m :: m in microGoals ==> m.macroGoalId != macroId
    ensures MacroCompletion(macroId, macroGoals, microGoals) == 0.0
  {
    FilterEmpty(microGoals, BelongsTo(macroId));
  }

  /** Only the micro goals of `macroId` are read. */
  lemma {:induction false} OnlyRelatedCount(macroId: string, macroGoals: seq<MacroGoal>, microGoals: seq<MicroGoal>)
    ensures MacroCompletion(macroId, macroGoals, microGoals)
         == MacroCompletion(macroId, macroGoals, Related(macroId, microGoals))
  {
    FilterIdempotent(microGoals, BelongsTo(macroId));
  }

  /** Micro goals of other macro goals, added anywhere, change nothing. */
  lemma {:induction false} OtherGoalsIgnored(macroId: string, macroGoals: seq<MacroGoal>,
                          before: seq<MicroGoal>, others: seq<MicroGoal>, after: seq<MicroGoal>)
    requires forall m :: m in others ==> m.macroGoalId != macroId
    ensures MacroCompletion(macroId, macroGoals, before + others + after)
         == MacroCompletion(macroId, macroGoals, before + after)
  {
    var p := BelongsTo(macroId);
    FilterAppend(before + others, after, p);
    FilterAppend(before, others, p);
    FilterAppend(before, after, p);
    FilterEmpty(others, p);
    assert Filter(before, p) + Filter(others, p) == Filter(before, p);
  }

  /** An hours goal whose `totalHours` is absent or not positive reports 0, whatever the hours. */
  lemma {:induction false} HoursWithoutTargetIsZero(g: MacroGoal, macroGoals: seq<MacroGoal>, microGoals: seq<MicroGoal>)
    requires Lookup(g.id, macroGoals) == Some(g)
    requires g.goalType == Hours
    requires g.totalHours.None? || g.totalHours.value <= 0.0
    ensures MacroCompletion(g.id, macroGoals, microGoals) == 0.0
  {
  }

  /**
   * An hours goal with target T > 0 reports H / T * 100 for the summed hours H
   * of its micro goals, unclamped: more hours than the target give more than 100.
   */
  lemma {:induction false} HoursIsRatio(g: MacroGoal, macroGoals: seq<MacroGoal>, microGoals: seq<MicroGoal>, t: real)
    requires Lookup(g.id, macroGoals) == Some(g)
    requires g.goalType == Hours && g.totalHours == Some(t) && t > 0.0
    ensures MacroCompletion(g.id, macroGoals, microGoals)
         == SumOf(Related(g.id, microGoals), HoursOf) / t * 100.0
    ensures SumOf(Related(g.id, microGoals), HoursOf) > t ==> MacroCompletion(g.id, macroGoals, microGoals) > 100.0
  {
    var h := SumOf(Related(g.id, microGoals), HoursOf);
    if h > t {
      var q := h / t;
      assert (q - 1.0) * t == h - t > 0.0;
    }
  }

  /**
   * A percentage goal, or an id with no macro goal, reports the arithmetic
   * mean of its micro goals' `completion` (0 when there are none).
   */
  lemma {:induction false} PercentageIsMean(macroId: string, macroGoals: seq<MacroGoal>, microGoals: seq<MicroGoal>)
    requires Lookup(macroId, macroGoals).None? || Lookup(macroId, macroGoals).value.goalType == Percentage
    ensures MacroCompletion(macroId, macroGoals, microGoals) == MeanOf(Related(macroId, microGoals), CompletionOf)
  {
  }

  /** The completion does not depend on the order of the micro goals. */
  lemma {:induction false} PermutationInvariant(macroId: string, macroGoals: seq<MacroGoal>, a: seq<MicroGoal>, b: seq<MicroGoal>)
    requires multiset(a) == multiset(b)
    ensures MacroCompletion(macroId, macroGoals, a) == MacroCompletion(macroId, macroGoals, b)
  {
    var ra, rb := Related(macroId, a), Related(macroId, b);
    FilterPermutation(a, b, BelongsTo(macroId));
    assert |ra| == |multiset(ra)| == |multiset(rb)| == |rb|;
    SumOfPermutation(ra, rb, HoursOf);
    SumOfPermutation(ra, rb, CompletionOf);
  }

  /**
   * With micro goals the schema accepts, a percentage goal's completion lies
   * in [0, 100] and an hours goal's completion is at least 0.
   */
  lemma {:induction false} ValidMicroGoalsBound(macroId: string, macroGoals: seq<MacroGoal>, microGoals: seq<MicroGoal>)
    requires forall m :: m in microGoals ==> MicroGoalSchema.Valid(m)
    ensures 0.0 <= MacroCompletion(macroId, macroGoals, microGoals)
    ensures Lookup(macroId, macroGoals).None? || Lookup(macroId, macroGoals).value.goalType == Percentage
            ==> MacroCompletion(macroId, macroGoals, microGoals) <= 100.0
  {
    var related := Related(macroId, microGoals);
    if |related| > 0 {
      MeanOfBounds(related, CompletionOf, 0.0, 100.0);
      SumOfNonNegative(related, HoursOf);
    }
  }

  // ---------------------------------------------------------------------------
  // Properties of OverallCompletion

  /** Without macro goals the overall completion is 0. */
  lemma {:induction false} OverallOfNothing(microGoals: seq<MicroGoal>)
    ensures OverallCompletion([], microGoals) == 0.0
  {
  }

  /**
   * The overall completion is unweighted: it depends only on the list of
   * per-goal completions, not on how many micro goals stand behind each.
   */
  lemma {:induction false} OverallIsUnweighted(gs: seq<MacroGoal>, ms: seq<MicroGoal>, gs': seq<MacroGoal>, ms': seq<MicroGoal>)
    requires |gs| == |gs'|
    requires forall i :: 0 <= i < |gs| ==> MacroCompletion(gs[i].id, gs, ms) == MacroCompletion(gs'[i].id, gs', ms')
    ensures OverallCompletion(gs, ms) == OverallCompletion(gs', ms')
  {
    SumOfPointwise(gs, CompletionIn(gs, ms), gs', CompletionIn(gs', ms'));
  }

  /** Per-goal completions in [lo, hi] keep the overall completion in [lo, hi]. */
  lemma {:induction false} OverallBounds(macroGoals: seq<MacroGoal>, microGoals: seq<MicroGoal>, lo: real, hi: real)
    requires lo <= 0.0 <= hi
    requires forall g :: g in macroGoals ==> lo <= MacroCompletion(g.id, macroGoals, microGoals) <= hi
    ensures lo <= OverallCompletion(macroGoals, microGoals) <= hi
  {
    if |macroGoals| > 0 {
      MeanOfBounds(macroGoals, CompletionIn(macroGoals, microGoals), lo, hi);
    }
  }

  // ---------------------------------------------------------------------------
  // Worked examples

  /** Completions 0, 50 and 100 on a percentage goal give 50. */
  lemma {:induction false} ExamplePercentageMean()
    ensures
      var g := MacroGoal("a", "A", "", Percentage, None, "");
      var ms := [MicroGoal("1", "a", "x", 0.0, 0.0), MicroGoal("2", "a", "y", 50.0, 0.0),
                 MicroGoal("3", "a", "z", 100.0, 0.0)];
      MacroCompletion("a", [g], ms) == 50.0
  {
    var g := MacroGoal("a", "A", "", Percentage, None, "");
    var m1, m2, m3 := MicroGoal("1", "a", "x", 0.0, 0.0), MicroGoal("2", "a", "y", 50.0, 0.0),
                      MicroGoal("3", "a", "z", 100.0, 0.0);
    var ms := [m1, m2, m3];
    assert ms == [m1] + ([m2] + [m3]);
    SumOfCons(m1, [m2] + [m3], CompletionOf);
    SumOfCons(m2, [m3], CompletionOf);
    SumOfCons(m3, [], CompletionOf);
    assert [m3] + [] == [m3];
    assert MeanOf(ms, CompletionOf) == 150.0 / 3.0;
    FilterKeepsAll(ms, BelongsTo("a"));
    assert Related("a", ms) == ms;
    assert Lookup("a", [g]) == Some(g) by { assert [g][0] == g; }
    PercentageIsMean("a", [g], ms);
  }

  /** 5 + 5 hours against a target of 20 give 50. */
  lemma {:induction false} ExampleHoursRatio()
    ensures
      var g := MacroGoal("h", "H", "", Hours, Some(20.0), "");
      var ms := [MicroGoal("1", "h", "x", 0.0, 5.0), MicroGoal("2", "h", "y", 0.0, 5.0)];
      MacroCompletion("h", [g], ms) == 50.0
  {
    var g := MacroGoal("h", "H", "", Hours, Some(20.0), "");
    var ms := [MicroGoal("1", "h", "x", 0.0, 5.0), MicroGoal("2", "h", "y", 0.0, 5.0)];
    FilterKeepsAll(ms, BelongsTo("h"));
    assert Related("h", ms) == ms;
    assert SumOf(ms, HoursOf) == 10.0;
  }

  /** One goal at 100 and one without micro goals give an overall 50. */
  lemma {:induction false} ExampleOverall()
    ensures
      var gs := [MacroGoal("a", "A", "", Percentage, None, ""), MacroGoal("b", "B", "", Percentage, None, "")];
      var ms := [MicroGoal("1", "a", "x", 100.0, 0.0)];
      OverallCompletion(gs, ms) == 50.0
  {
    var gs := [MacroGoal("a", "A", "", Percentage, None, ""), MacroGoal("b", "B", "", Percentage, None, "")];
    var ms := [MicroGoal("1", "a", "x", 100.0, 0.0)];
    FilterKeepsAll(ms, BelongsTo("a"));
    assert Related("a", ms) == ms;
    assert MacroCompletion("a", gs, ms) == 100.0;
    NoMicroGoalsIsZero("b", gs, ms);
    assert SumOf(gs, CompletionIn(gs, ms)) == 100.0;
  }
}
