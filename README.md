# Goal dashboard: completion rules, badges and goal store

This project models the logic of a goal-tracking dashboard. A user keeps
**macro goals**: large goals measured either as a percentage or against a
target number of hours. Each macro goal is broken into **micro goals**, and
each micro goal carries a completion percentage and a count of logged hours.
The model covers:

- **The completion calculator.** A macro goal's completion is 0 when it has
  no micro goals. For an hours goal it is the summed hours as a percentage of
  the target. It is 0 when the target is absent or not positive, and it is
  never clamped. Otherwise it is the mean of the micro goals' completions.
  The overall completion is the unweighted mean over the macro goals.
  `Completion` holds the one definition and its properties. The page, the
  tab container and the dashboard overview each carry their own copy of the
  calculator, and each copy is proved equal to it.
- **Derived classifications.** The dashboard's status buckets and charts.
  The rank tier with its matching quote. The ten achievement badges with
  their unlock rules, the unlocked/locked split and the "next badge" card.
- **The micro goals manager.** The stable "incomplete first" order of a card.
  The clamping of typed hours and percentages. The checkbox toggle. The
  per-goal progress bar. The component's state (draft names per card, the
  expanded card, the loading flag) as a class whose methods call the store.
- **The goal store.** The server actions as a class over two tables, from id
  to macro goal and from id to micro goal. It covers creation defaults,
  partial updates that write only the supplied fields, the cascading delete
  of a macro goal's micro goals, and listing. The schema validity of every
  stored record is kept as an invariant.

Numbers are modelled as `real`. A JavaScript `x || d` on a number becomes
`Goals.NumberOr`, because both 0 and a missing value fall back to `d`.
`parseFloat` yields `Option<real>`, with `None` standing for NaN. `Math.round`
is the floor of `x + 0.5`. Mongoose's `required` rejects the empty string, so
"required" is modelled as "non-empty".

## Model

| member | source | states |
|---|---|---|
| Goals.NumberOr | app/page.tsx:76 | `x \|\| fallback` on a number: an absent or zero value gives the fallback, any other value is kept |
| MacroGoalSchema.WithDefaults | app/models/MacroGoal.ts:20-36 | a missing description or icon is stored as "", and the other fields are stored as given |
| MacroGoalSchema.Valid | app/models/MacroGoal.ts:14-37 | a non-empty name is the only requirement; the kind is one of the two enum values by construction and `totalHours` has no bound, as HoursGoalWithoutTargetIsValid shows |
| MacroGoalSchema.HoursGoalWithoutTargetIsValid | app/models/MacroGoal.ts:29-32 | an hours goal with a null or zero target is accepted by the schema, and its target reads as 0 |
| MicroGoalSchema.WithDefaults | app/models/MicroGoal.ts:24-34 | a missing completion or hours is stored as 0 |
| MicroGoalSchema.Valid | app/models/MicroGoal.ts:13-35 | non-empty macro goal id and name, completion in [0, 100] and hours at least 0; DefaultsAreInRange and the patch lemmas are stated against it |
| MicroGoalSchema.DefaultsAreInRange | app/models/MicroGoal.ts:13-39 | a record made only from defaults is valid exactly when its macro goal id and its name are non-empty |
| Completion.Lookup | app/page.tsx:69 | None exactly when no macro goal has the id; otherwise a macro goal of the list with that id |
| ArrayOps.FindReturnsFirst | app/components/stats-section.tsx:66 | `find` returns the first element satisfying the predicate: given the first such position, the result is exactly that element |
| Completion.LookupFindsFirst | app/page.tsx:69 | with several macro goals of the same id, `find` returns the first of them in list order |
| Completion.Related | app/page.tsx:70 | holds exactly the micro goals whose `macroGoalId` is the id |
| Completion.MacroCompletion | app/page.tsx:64-84 | the canonical per-goal calculator; characterised by NoMicroGoalsIsZero, HoursWithoutTargetIsZero, HoursIsRatio, PercentageIsMean, OnlyRelatedCount, OtherGoalsIgnored, PermutationInvariant and ValidMicroGoalsBound below |
| Completion.OverallCompletion | app/page.tsx:90-97 | the unweighted mean of the per-goal values; characterised by OverallOfNothing, OverallIsUnweighted and OverallBounds below, and proved equal to the page's reduce by Page.OverallCompletion |
| Completion.NoMicroGoalsIsZero | app/page.tsx:70-72 | with no micro goal of the macro goal, the completion is exactly 0 |
| Completion.OnlyRelatedCount | app/page.tsx:70 | the completion computed from all micro goals equals the one computed from that goal's micro goals alone |
| Completion.OtherGoalsIgnored | app/page.tsx:70 | inserting micro goals of other macro goals anywhere in the list leaves the completion unchanged |
| Completion.HoursWithoutTargetIsZero | app/page.tsx:74-77 | an hours goal whose target is absent or not positive has completion 0, whatever the hours |
| Completion.HoursIsRatio | app/page.tsx:75-77 | an hours goal with target T > 0 has completion (sum of hours)/T*100, and more than 100 once the sum exceeds T |
| Completion.PercentageIsMean | app/page.tsx:69-82 | a percentage goal, or an id missing from the list, has completion equal to the mean of the related completions |
| Completion.PermutationInvariant | app/page.tsx:70-81 | reordering the micro goals does not change any completion |
| Completion.ValidMicroGoalsBound | app/models/MicroGoal.ts:24-34 | with schema-valid micro goals the completion is at least 0, and at most 100 for a percentage goal |
| Completion.ExamplePercentageMean | app/page.tsx:78-82 | completions 0, 50 and 100 give 50 |
| Completion.ExampleHoursRatio | app/page.tsx:75-77 | 5 + 5 hours against a 20-hour target give 50 |
| Completion.OverallOfNothing | app/page.tsx:90-97 | with no macro goals the overall completion is 0 |
| Completion.OverallIsUnweighted | app/page.tsx:90-97 | the overall completion depends only on the per-goal values, one per goal, whatever number of micro goals stands behind each |
| Completion.OverallBounds | app/page.tsx:90-97 | when every goal's completion lies in [lo, hi] with lo <= 0 <= hi, so does the overall completion |
| Completion.ExampleOverall | app/page.tsx:90-97 | one goal at 100 and one without micro goals give 50 |
| Page.CalculateMacroCompletion | app/page.tsx:64-84 | the page's find/filter/reduce calculator equals `Completion.MacroCompletion` on every input |
| Page.OverallCompletion | app/page.tsx:90-97 | the page's reduce over the macro goals equals `Completion.OverallCompletion` |
| GoalsTabs.CalculateMacroCompletion | app/components/goals-tabs.tsx:17-37 | the tab container's copy equals `Completion.MacroCompletion` on every input |
| GoalsTabs.Tabs | app/components/goals-tabs.tsx:52-91 | all four tabs get a callback equal to `Completion.MacroCompletion` at every id, and the badges tab gets the overall completion unchanged |
| DashboardOverview.CalculateCompletion | app/components/dashboard-overview.tsx:23-43 | the overview's copy equals `Completion.MacroCompletion` on every input |
| DashboardOverview.Round | app/components/dashboard-overview.tsx:52-54 | `Math.round` returns an integer within half a unit of x, rounding halves up |
| DashboardOverview.RoundMonotone | app/components/dashboard-overview.tsx:52-54 | rounding preserves order |
| DashboardOverview.GoalProgressData | app/components/dashboard-overview.tsx:50-56 | one entry per macro goal, in order, with its name, its icon and its rounded completion |
| DashboardOverview.GoalStatusData | app/components/dashboard-overview.tsx:58-81 | the three pie slices Completed (exactly 100), In Progress (above 0 and below 100) and Not Started (exactly 0); StatusBucketsCount and OverTargetInNoBucket state what they count |
| DashboardOverview.StatusBucketsCount | app/components/dashboard-overview.tsx:58-81 | the three status counts add up to at most the number of macro goals, and to exactly that number iff every completion lies in [0, 100] |
| DashboardOverview.OverTargetInNoBucket | app/components/dashboard-overview.tsx:58-81 | an hours goal at 200% is counted in no bucket |
| DashboardOverview.GoalTypesCoverAll | app/components/dashboard-overview.tsx:83-94 | the percentage-based and hours-based counts add up to the number of macro goals |
| DashboardOverview.GoalTypeData | app/components/dashboard-overview.tsx:83-94 | the percentage-based and hours-based slices; GoalTypesCoverAll shows they count every macro goal exactly once |
| DashboardOverview.MicroGoalStatsOf | app/components/dashboard-overview.tsx:96-107 | total is the count; completed is the number of positions holding a micro goal at completion exactly 100 or with any hours logged, 0 exactly when there is none; the average is the rounded mean completion, 0 without micro goals |
| DashboardOverview.CompletedCount | app/components/dashboard-overview.tsx:98 | the length of the `filter` equals the number of positions whose micro goal is at 100 or has hours logged |
| DashboardOverview.AverageInRange | app/components/dashboard-overview.tsx:100-106 | with schema-valid micro goals the average card lies in [0, 100] |
| StatsSection.TierIndex | app/components/stats-section.tsx:10-39 | the tier is one of the five styles |
| StatsSection.TierIndexTable | app/components/stats-section.tsx:10-39 | Legendary at 90 and above (including above 100), Elite on [75, 90), Skilled on [50, 75), Novice on [25, 50), Awakening below 25 |
| StatsSection.GetBadge | app/components/stats-section.tsx:10-39 | the if-chain returns the style of the tier the thresholds select |
| StatsSection.BadgeTierMonotone | app/components/stats-section.tsx:10-39 | a higher completion never gets a lower tier |
| StatsSection.GetQuote | app/components/stats-section.tsx:42-69 | the text of the first quote whose minimum the completion reaches, or of the last quote when none matches |
| StatsSection.QuoteFallback | app/components/stats-section.tsx:65-68 | no quote matches exactly when the completion is negative, and then the last quote is shown |
| StatsSection.QuoteMatchesBadge | app/components/stats-section.tsx:10-68 | for every completion the quote and the badge style come from the same tier |
| BadgesShowcase.GoalMasterBadge | app/components/badges-showcase.tsx:100-110 | unlocked iff there is a macro goal and every one computes to exactly 100; dated "Today" iff none falls short, which includes having none |
| BadgesShowcase.RankBadges | app/components/badges-showcase.tsx:40-99 | the six tier badges in id order, unlocked at overall completion 0, 25, 50, 75 and 90 and at exactly 100 |
| BadgesShowcase.TaskCrusherBadge | app/components/badges-showcase.tsx:111-120 | Task Crusher unlocks iff at least ten micro goals are complete |
| BadgesShowcase.StreakBadges | app/components/badges-showcase.tsx:121-140 | Consistency King and Speedrunner, both always unlocked |
| BadgesShowcase.GenerateBadges | app/components/badges-showcase.tsx:30-142 | the list holds ten badges |
| BadgesShowcase.BadgeOrder | app/components/badges-showcase.tsx:39-141 | the ten badges come in the fixed id order, Awakening first and Speedrunner last |
| BadgesShowcase.TierUnlocks | app/components/badges-showcase.tsx:40-99 | in the full list, the thresholds 0, 25, 50, 75 and 90 and exactly 100 unlock the first six badges, each iff reached |
| BadgesShowcase.StreaksUnlocked | app/components/badges-showcase.tsx:121-140 | in the full list, Consistency King and Speedrunner are always unlocked |
| BadgesShowcase.GoalMasterRule | app/components/badges-showcase.tsx:31-33 | the seventh badge is Goal Master built from the same callback |
| BadgesShowcase.TaskCrusherRule | app/components/badges-showcase.tsx:34-36 | Task Crusher unlocks iff at least ten micro goals, of any macro goal, have completion 100 |
| BadgesShowcase.ThresholdBadgesStayUnlocked | app/components/badges-showcase.tsx:46-89 | raising the overall completion never re-locks one of the first five badges |
| BadgesShowcase.KingNeedsExactlyHundred | app/components/badges-showcase.tsx:86-96 | above 100, Legendary Warrior is unlocked and King of War is locked |
| BadgesShowcase.GoalMasterInTabs | app/components/goals-tabs.tsx:85-91 | wired to the tabs' callback, Goal Master unlocks iff there is a macro goal and every calculator value is 100 |
| BadgesShowcase.UnlockedLockedPartition | app/components/badges-showcase.tsx:145-146 | the unlocked and locked lists hold every badge exactly once between them, each with the right state |
| BadgesShowcase.NextBadge | app/components/badges-showcase.tsx:189-192 | the icon and name of the first locked badge, or the trophy and "All badges unlocked!" when none is locked |
| MicroGoalsManager.IncompleteFirst | app/components/micro-goals-manager.tsx:34-39 | negative exactly when only the first goal is incomplete, positive exactly when only the second is |
| MicroGoalsManager.Insert | app/components/micro-goals-manager.tsx:34 | insertion keeps every element and adds one |
| MicroGoalsManager.SortWith | app/components/micro-goals-manager.tsx:34 | the sort is a permutation of its input |
| MicroGoalsManager.SortPartitionsByCompletion | app/components/micro-goals-manager.tsx:34-39 | the stable sort yields the incomplete goals, then the complete ones, each group in input order |
| MicroGoalsManager.GetSortedMicroGoals | app/components/micro-goals-manager.tsx:31-40 | exactly the macro goal's micro goals, incomplete first and complete after, in original order within each group |
| MicroGoalsManager.CompleteGoalsLast | app/components/micro-goals-manager.tsx:31-40 | on a card no complete goal precedes an incomplete one |
| MicroGoalsManager.Min | app/components/micro-goals-manager.tsx:236-239 | `Math.min` returns one of its arguments and is at most both |
| MicroGoalsManager.EditedCompletion | app/components/micro-goals-manager.tsx:257-264 | only completion changes; NaN gives 0, values of 100 or more give 100, and smaller values (negative ones included) are kept |
| MicroGoalsManager.EditedHours | app/components/micro-goals-manager.tsx:233-241 | only hours change; a typed value at most the target is stored as typed, one above it is stored as the target, and NaN stores 0, or the target when that is negative |
| MicroGoalsManager.EditedCompletionValid | app/components/micro-goals-manager.tsx:260-263 | the edited record passes the schema iff the typed percentage is not negative |
| MicroGoalsManager.EditedHoursValid | app/components/micro-goals-manager.tsx:236-239 | under a non-negative target, the edited record passes the schema iff the typed hours are not negative |
| MicroGoalsManager.Toggled | app/components/micro-goals-manager.tsx:181-193 | an hours goal gets hours = target (or 0) with completion unchanged; a percentage goal gets completion 100 (or 0) with hours unchanged |
| MicroGoalsManager.ProgressPercent | app/components/micro-goals-manager.tsx:153-156 | hours over the target (1 when absent or 0) times 100 on an hours goal, else the completion; ToggleHoursProgress and CardTotalMatchesBars state what it shows |
| MicroGoalsManager.TogglePercentageRoundTrip | app/components/micro-goals-manager.tsx:188-193 | on a percentage goal the checkbox afterwards shows what was clicked, and a later toggle overrides an earlier one |
| MicroGoalsManager.ToggleHoursProgress | app/components/micro-goals-manager.tsx:181-187 | on an hours goal with a positive target, ticking puts the bar at 100 and unticking at 0, while completion (and so the checkbox state) stays as it was |
| MicroGoalsManager.TickedHoursGoalShowsUnticked | app/components/micro-goals-manager.tsx:178-187 | a concrete hours goal, ticked, shows a full bar and an unticked checkbox |
| MicroGoalsManager.CheckboxSelected | app/components/micro-goals-manager.tsx:178-187 | the corrected checkbox state: an hours goal reads as ticked once its hours reach a positive target; CheckboxSelectedRoundTrip proves it reads back what was clicked |
| MicroGoalsManager.CheckboxSelectedRoundTrip | app/components/micro-goals-manager.tsx:178-194 | with the checkbox state read from hours for hours goals, every toggle shows what was clicked |
| MicroGoalsManager.CardTotalMatchesBars | app/components/micro-goals-manager.tsx:153-156 | the card's total is the sum of the bars (hours goal with a target), 0 (hours goal without one, where bars divide by 1) or their mean (percentage goal) |
| MicroGoalsManager.NewMicroGoalRequest | app/components/micro-goals-manager.tsx:57-62 | a new micro goal is stored with completion 0 and hours 0 |
| MicroGoalsManager.WholeRecordPatch | app/components/micro-goals-manager.tsx:42-45 | the whole record goes out as the update, so name, completion and hours are all present |
| MicroGoalsManager.WholeRecordPatchStoresCopy | app/components/micro-goals-manager.tsx:42-45 | updating a stored record with an edited copy of itself stores exactly that copy, and is accepted iff the copy is valid |
| MicroGoalsManager.Manager.constructor | app/components/micro-goals-manager.tsx:24-28 | no drafts, not loading, and the first macro goal's card expanded (none when there is no goal or its id is empty) |
| MicroGoalsManager.Manager.EditDraft | app/components/micro-goals-manager.tsx:301-306 | typing changes that card's draft and no other |
| MicroGoalsManager.Manager.ClickCard | app/components/micro-goals-manager.tsx:100-101 | clicking collapses the expanded card and otherwise makes the clicked card the only expanded one |
| MicroGoalsManager.Manager.AddMicroGoal | app/components/micro-goals-manager.tsx:54-73 | an empty draft changes nothing; otherwise the store creates the goal (refused only for an empty macro id) and that card's draft alone is cleared, whatever the outcome |
| MicroGoalsManager.Manager.UpdateMicroGoal | app/components/micro-goals-manager.tsx:42-52 | the store applies the whole record as a patch, or changes nothing when the id is missing or the record is invalid |
| MicroGoalsManager.Manager.TickCheckbox | app/components/micro-goals-manager.tsx:178-194 | when the schema accepts the toggled record the store holds it in place of the old one; otherwise (an hours goal with a negative target) the store is unchanged |
| MicroGoalsManager.Manager.DeleteMicroGoal | app/components/micro-goals-manager.tsx:75-85 | the store loses exactly that micro goal |
| GoalStore.NewMacroDocument | app/actions/goals.ts:37-43 | a missing description becomes ""; `totalHours` is kept only for an hours goal and is null otherwise; a missing icon becomes "" |
| GoalStore.ApplyMacroPatch | app/actions/goals.ts:66-72 | each field present in the patch is written, and every other field (and the id) keeps its value |
| GoalStore.MacroPatchValid | app/actions/goals.ts:66-77 | the update validators run only on the supplied fields: a supplied name must be non-empty; MacroPatchValidity relates it to full validity |
| GoalStore.MacroPatchValidity | app/actions/goals.ts:74-77 | on a valid goal, the patch passes the update validators iff the patched goal is valid |
| GoalStore.NewMicroDocument | app/actions/goals.ts:145-150 | a missing or zero completion or hours is stored as 0 |
| GoalStore.ApplyMicroPatch | app/actions/goals.ts:172-175 | only name, completion and hours can change; the id and `macroGoalId` never do, even when supplied |
| GoalStore.MicroPatchValid | app/actions/goals.ts:172-180 | a supplied name must be non-empty, a supplied completion in [0, 100] and supplied hours at least 0; MicroPatchValidity relates it to full validity |
| GoalStore.MicroPatchValidity | app/actions/goals.ts:177-180 | on a valid micro goal, the patch passes the update validators iff the patched goal is valid |
| GoalStore.CascadeDelete | app/actions/goals.ts:102-103 | exactly the micro goals of other macro goals remain, each unchanged |
| GoalStore.Store.CreateMacroGoal | app/actions/goals.ts:31-57 | a valid document is stored under the fresh id and returned; an invalid one gives null and leaves the table unchanged |
| GoalStore.Store.UpdateMacroGoal | app/actions/goals.ts:59-96 | a present id with a valid patch stores and returns the patched goal; otherwise null, with both tables unchanged |
| GoalStore.Store.DeleteMacroGoal | app/actions/goals.ts:98-118 | the goal's micro goals go even when the macro goal is absent; the result says whether the macro goal existed |
| GoalStore.Store.CreateMicroGoal | app/actions/goals.ts:139-163 | a valid document is stored under the fresh id and returned; an invalid one gives null and leaves the table unchanged |
| GoalStore.Store.UpdateMicroGoal | app/actions/goals.ts:165-198 | a present id with a valid patch stores and returns the patched goal; otherwise null, with both tables unchanged |
| GoalStore.Store.DeleteMicroGoal | app/actions/goals.ts:200-216 | exactly that record is removed; the result says whether it existed |
| GoalStore.Store.ListMacroGoals | app/actions/goals.ts:12-29 | every stored macro goal, each exactly once |
| GoalStore.Store.ListMicroGoals | app/actions/goals.ts:121-137 | every stored micro goal, each exactly once |

## Left out

- Database plumbing is not modelled: the connection, model registration, ObjectId generation and timestamps. A fresh id is a parameter that must not already be in use.
- GoalStore.Store.ListMacroGoals: does not state the newest-first order, because creation timestamps are not modelled.
- GoalStore.Store.ListMicroGoals: does not state the newest-first order, for the same reason.
- Errors are modelled only as the value an action returns. This covers a cast error on a malformed id, which returns null like a missing id. Transport failures of a server action, `console.error` and `router.refresh` are left out.
- MicroGoalsManager.Manager: `isLoading` is modelled only as false after each request. The in-flight state and the inputs it disables are not observable in a sequential model.
- Rendering is left out: JSX, CSS classes, `toFixed` formatting and the recharts charts beyond the data they are given.
- The progress tracker, the two create dialogs, the macro goals table, the theme toggle, the calendar and the provider are not part of this model. They hold mock data, form state or pure rendering.
- IEEE-754 arithmetic is not modelled (rounding in sums, NaN, infinities). Numbers are exact reals, and a NaN from `parseFloat` is `None`.
- The unused record types `ProgressEntry`, `Milestone` and `Streak` are left out, as is the unused `totalMicroGoals` count in the badges tab.
- A goal kind outside "percentage" and "hours" cannot be represented. The schema's enum rejects it, so it is never stored.
- MicroGoalsManager.CheckboxSelected is the corrected checkbox state of the finding below. The sort order and the rest of the card keep the source's `completion === 100` test.

## Findings

| source | as written | input that shows it | evidently intended | confidence | as-written member | corrected member |
|---|---|---|---|---|---|---|
| app/components/micro-goals-manager.tsx:178-187 | the checkbox shows `completion === 100`, but ticking it on an hours goal sets only `hours` to the target | hours goal with a 10-hour target, micro goal at completion 0 and 0 hours: after ticking, the bar is at 100% and the checkbox is unticked | an hours goal reads as ticked once its hours reach a positive target, so the checkbox shows what was clicked | medium, not executed | MicroGoalsManager.TickedHoursGoalShowsUnticked | MicroGoalsManager.CheckboxSelectedRoundTrip |
