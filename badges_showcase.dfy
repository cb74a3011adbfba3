/**
 * The badges tab: ten achievement badges with fixed unlock rules, split into
 * unlocked and locked ones, and the "next badge" card.
 */
module BadgesShowcase {
  import opened Wrappers
  import opened Goals
  import opened ArrayOps
  import Completion
  import GoalsTabs

  datatype Badge = Badge(
    id: string,
    name: string,
    description: string,
    icon: string,
    color: string,
    unlocked: bool,
    unlockedDate: Option<string>,
    requirement: string)

  /** The badge ids, in the order the tab lists them. */
  const BadgeIds: seq<string> := ["awakening", "novice", "skilled", "elite", "legendary", "king",
                                  "goal-master", "task-crusher", "consistency", "speedrunner"]

  /** The decimal digits of `n`, as a template literal prints it. */
  function NatToString(n: nat): (s: string)
    ensures |s| > 0
    ensures forall i :: 0 <= i < |s| ==> '0' <= s[i] <= '9'
  {
    var digit := ['0' + (n % 10) as char];
    if n < 10 then digit else NatToString(n / 10) + digit
  }

  /** `cond ? "Today" : undefined` */
  function TodayIf(cond: bool): Option<string>
  {
    if cond then Some("Today") else None
  }

  /** The requirement line of Goal Master, `${completedGoals}/${macroGoals.length} goals`. */
  function GoalsRequirement(completed: nat, total: nat): string
  {
    NatToString(completed) + "/" + NatToString(total) + " goals"
  }

  /** The requirement line of Task Crusher, `${completedMicroGoals}/10 tasks`. */
  function TasksRequirement(completed: nat): string
  {
    NatToString(completed) + "/10 tasks"
  }

  /**
   * Goal Master: unlocked exactly when there is a macro goal and every one
   * computes to exactly 100; its date reads "Today" whenever no macro goal
   * falls short, which includes having none.
   */
  function GoalMasterBadge(macroGoals: seq<MacroGoal>, completionOf: string -> real): (b: Badge)
    ensures b.id == "goal-master"
    ensures b.unlocked <==> |macroGoals| > 0 && forall g :: g in macroGoals ==> completionOf(g.id) == 100.0
    ensures b.unlockedDate == Some("Today") <==> forall g :: g in macroGoals ==> completionOf(g.id) == 100.0
  {
    var isDone := (g: MacroGoal) => completionOf(g.id) == 100.0;
    var completedGoals := |Filter(macroGoals, isDone)|;
    FilterKeepsAll(macroGoals, isDone);
    Badge("goal-master", "Goal Master", "Complete all macro goals", "🎯", "from-indigo-400 to-purple-400",
          completedGoals == |macroGoals| && |macroGoals| > 0, TodayIf(completedGoals == |macroGoals|),
          GoalsRequirement(completedGoals, |macroGoals|))
  }

  /**
   * The six completion-tier badges, Awakening through King of War: each is
   * unlocked once the overall completion reaches its tier, King of War only
   * at exactly 100.
   */
  function RankBadges(overallCompletion: real): (r: seq<Badge>)
    ensures |r| == 6 && forall i :: 0 <= i < 6 ==> r[i].id == BadgeIds[i]
    ensures r[0].unlocked <==> overallCompletion >= 0.0
    ensures r[1].unlocked <==> overallCompletion >= 25.0
    ensures r[2].unlocked <==> overallCompletion >= 50.0
    ensures r[3].unlocked <==> overallCompletion >= 75.0
    ensures r[4].unlocked <==> overallCompletion >= 90.0
    ensures r[5].unlocked <==> overallCompletion == 100.0
  {
    [
      Badge("awakening", "Awakening", "Start your journey", "🌱", "from-gray-400 to-gray-500",
            overallCompletion >= 0.0, Some("Day 1"), "0% completion"),
      Badge("novice", "Novice Warrior", "Reach 25% completion", "🛡️", "from-green-400 to-blue-400",
            overallCompletion >= 25.0, TodayIf(overallCompletion >= 25.0), "25% completion"),
      Badge("skilled", "Skilled Fighter", "Reach 50% completion", "🗡️", "from-blue-400 to-purple-400",
            overallCompletion >= 50.0, TodayIf(overallCompletion >= 50.0), "50% completion"),
      Badge("elite", "Elite Hunter", "Reach 75% completion", "⭐", "from-purple-400 to-pink-400",
            overallCompletion >= 75.0, TodayIf(overallCompletion >= 75.0), "75% completion"),
      Badge("legendary", "Legendary Warrior", "Reach 90% completion", "👑", "from-yellow-400 to-orange-400",
            overallCompletion >= 90.0, TodayIf(overallCompletion >= 90.0), "90% completion"),
      Badge("king", "King of War", "Reach 100% completion", "⚡", "from-red-400 to-pink-400",
            overallCompletion == 100.0, TodayIf(overallCompletion == 100.0), "100% completion")
    ]
  }

  /** Task Crusher: unlocked once ten micro goals are complete. */
  function TaskCrusherBadge(completedMicroGoals: nat): (b: Badge)
    ensures b.id == "task-crusher"
    ensures b.unlocked <==> completedMicroGoals >= 10
  {
    Badge("task-crusher", "Task Crusher", "Complete 10 micro goals", "💪", "from-orange-400 to-red-400",
          completedMicroGoals >= 10, TodayIf(completedMicroGoals >= 10),
          TasksRequirement(completedMicroGoals))
  }

  /** The two streak badges, which are always shown as unlocked. */
  function StreakBadges(): (r: seq<Badge>)
    ensures |r| == 2 && r[0].id == "consistency" && r[1].id == "speedrunner"
    ensures r[0].unlocked && r[1].unlocked
  {
    [
      Badge("consistency", "Consistency King", "Maintain a 7-day streak", "🔥", "from-red-400 to-orange-400",
            true, Some("3 days ago"), "7-day streak"),
      Badge("speedrunner", "Speedrunner", "Complete a goal in 1 week", "⚡", "from-cyan-400 to-blue-400",
            true, Some("1 week ago"), "1 week completion")
    ]
  }

  /** The ten badges for the given goals, completion callback and overall completion. */
  function GenerateBadges(macroGoals: seq<MacroGoal>, microGoals: seq<MicroGoal>,
                          calculateCompletion: string -> real, overallCompletion: real): (r: seq<Badge>)
    ensures |r| == 10
  {
    var completedMicroGoals := |Filter(microGoals, (m: MicroGoal) => m.completion == 100.0)|;
    RankBadges(overallCompletion)
      + [GoalMasterBadge(macroGoals, calculateCompletion), TaskCrusherBadge(completedMicroGoals)]
      + StreakBadges()
  }

  /** The badges come in the fixed id order. */
  lemma {:induction false} BadgeOrder(macroGoals: seq<MacroGoal>, microGoals: seq<MicroGoal>, completionOf: string -> real, o: real)
    ensures forall i :: 0 <= i < 10 ==> GenerateBadges(macroGoals, microGoals, completionOf, o)[i].id == BadgeIds[i]
  {
    var r := GenerateBadges(macroGoals, microGoals, completionOf, o);
    var ranks := RankBadges(o);
    assert r[..6] == ranks;
    assert r[6].id == "goal-master" && r[7].id == "task-crusher";
    assert r[8..] == StreakBadges();
  }

  /** The first six badges unlock at 0, 25, 50, 75 and 90 and at exactly 100. */
  lemma {:induction false} TierUnlocks(macroGoals: seq<MacroGoal>, microGoals: seq<MicroGoal>, completionOf: string -> real, o: real)
    ensures var r := GenerateBadges(macroGoals, microGoals, completionOf, o);
      && (r[0].unlocked <==> o >= 0.0)
      && (r[1].unlocked <==> o >= 25.0)
      && (r[2].unlocked <==> o >= 50.0)
      && (r[3].unlocked <==> o >= 75.0)
      && (r[4].unlocked <==> o >= 90.0)
      && (r[5].unlocked <==> o == 100.0)
  {
    var r := GenerateBadges(macroGoals, microGoals, completionOf, o);
    assert r[..6] == RankBadges(o);
  }

  /** Consistency King and Speedrunner are always unlocked. */
  lemma {:induction false} StreaksUnlocked(macroGoals: seq<MacroGoal>, microGoals: seq<MicroGoal>, completionOf: string -> real, o: real)
    ensures GenerateBadges(macroGoals, microGoals, completionOf, o)[8].unlocked
    ensures GenerateBadges(macroGoals, microGoals, completionOf, o)[9].unlocked
  {
    var r := GenerateBadges(macroGoals, microGoals, completionOf, o);
    assert r[8..] == StreakBadges();
  }

  /** Goal Master is built by GoalMasterBadge from the same callback. */
  lemma {:induction false} GoalMasterRule(macroGoals: seq<MacroGoal>, microGoals: seq<MicroGoal>, completionOf: string -> real, o: real)
    ensures GenerateBadges(macroGoals, microGoals, completionOf, o)[6] == GoalMasterBadge(macroGoals, completionOf)
  {
  }

  /** Task Crusher unlocks exactly when at least ten micro goals, of any macro goal, are at 100. */
  lemma {:induction false} TaskCrusherRule(macroGoals: seq<MacroGoal>, microGoals: seq<MicroGoal>, completionOf: string -> real, o: real)
    ensures GenerateBadges(macroGoals, microGoals, completionOf, o)[7].unlocked
        <==> |Filter(microGoals, (m: MicroGoal) => m.completion == 100.0)| >= 10
  {
  }

  /** Raising the overall completion never re-locks one of the first five badges. */
  lemma {:induction false} ThresholdBadgesStayUnlocked(macroGoals: seq<MacroGoal>, microGoals: seq<MicroGoal>,
                                    completionOf: string -> real, o1: real, o2: real, i: nat)
    requires o1 <= o2 && i < 5
    requires GenerateBadges(macroGoals, microGoals, completionOf, o1)[i].unlocked
    ensures GenerateBadges(macroGoals, microGoals, completionOf, o2)[i].unlocked
  {
    TierUnlocks(macroGoals, microGoals, completionOf, o1);
    TierUnlocks(macroGoals, microGoals, completionOf, o2);
  }

  /** Past 100, Legendary Warrior is unlocked while King of War stays locked. */
  lemma {:induction false} KingNeedsExactlyHundred(macroGoals: seq<MacroGoal>, microGoals: seq<MicroGoal>, completionOf: string -> real, o: real)
    requires o > 100.0
    ensures GenerateBadges(macroGoals, microGoals, completionOf, o)[4].unlocked
    ensures !GenerateBadges(macroGoals, microGoals, completionOf, o)[5].unlocked
  {
    TierUnlocks(macroGoals, microGoals, completionOf, o);
  }

  /**
   * Wired to the tabs' callback, Goal Master unlocks exactly when there is a
   * macro goal and every one of them computes to 100.
   */
  lemma {:induction false} GoalMasterInTabs(macroGoals: seq<MacroGoal>, microGoals: seq<MicroGoal>, overall: real)
    ensures
      var completionOf := GoalsTabs.Tabs(microGoals, macroGoals, overall).badgesCompletion;
      GenerateBadges(macroGoals, microGoals, completionOf, overall)[6].unlocked <==>
        |macroGoals| > 0 && forall g :: g in macroGoals ==> Completion.MacroCompletion(g.id, macroGoals, microGoals) == 100.0
  {
    var completionOf := GoalsTabs.Tabs(microGoals, macroGoals, overall).badgesCompletion;
    GoalMasterRule(macroGoals, microGoals, completionOf, overall);
    assert forall g :: g in macroGoals ==> completionOf(g.id) == Completion.MacroCompletion(g.id, macroGoals, microGoals);
  }

  function IsUnlocked(b: Badge): bool { b.unlocked }

  function IsLocked(b: Badge): bool { !b.unlocked }

  /** The unlocked badges, in list order. */
  function UnlockedBadges(badges: seq<Badge>): seq<Badge>
  {
    Filter(badges, IsUnlocked)
  }

  /** The locked badges, in list order. */
  function LockedBadges(badges: seq<Badge>): seq<Badge>
  {
    Filter(badges, IsLocked)
  }

  /** Every badge is in exactly one of the two lists, as often as in the full list. */
  lemma {:induction false} UnlockedLockedPartition(badges: seq<Badge>)
    ensures |UnlockedBadges(badges)| + |LockedBadges(badges)| == |badges|
    ensures multiset(UnlockedBadges(badges)) + multiset(LockedBadges(badges)) == multiset(badges)
    ensures forall b :: b in UnlockedBadges(badges) ==> b.unlocked
    ensures forall b :: b in LockedBadges(badges) ==> !b.unlocked
  {
    FilterCounts2(badges, IsUnlocked, IsLocked);
    FilterMultiset(badges, IsUnlocked);
    FilterMultiset(badges, IsLocked);
  }

  /** What the "next badge" card shows. */
  datatype NextBadgeCard = NextBadgeCard(icon: string, caption: string)

  /** `s || fallback` on a string: the empty string is falsy. */
  function StringOr(s: string, fallback: string): string
  {
    if s != "" then s else fallback
  }

  /**
   * The "next badge" card: the icon and name of the first locked badge, or the
   * trophy and "All badges unlocked!" when every badge is unlocked.
   */
  function NextBadge(badges: seq<Badge>): (r: NextBadgeCard)
    ensures (forall b :: b in badges ==> b.unlocked) ==> r == NextBadgeCard("🏆", "All badges unlocked!")
    ensures forall i {:trigger badges[i]} ::
      (0 <= i < |badges| && !badges[i].unlocked && (forall j :: 0 <= j < i ==> badges[j].unlocked)) ==> r == NextBadgeCard(StringOr(badges[i].icon, "🏆"), StringOr(badges[i].name, "All badges unlocked!"))
  {
    var locked := LockedBadges(badges);
    FilterEmpty(badges, IsLocked);
    forall i | 0 <= i < |badges| && !badges[i].unlocked && (forall j :: 0 <= j < i ==> badges[j].unlocked)
      ensures |locked| > 0 && locked[0] == badges[i]
    {
      FilterFirst(badges, IsLocked, i);
    }
    if |locked| > 0 then
      NextBadgeCard(StringOr(locked[0].icon, "🏆"), StringOr(locked[0].name, "All badges unlocked!"))
    else
      NextBadgeCard("🏆", "All badges unlocked!")
  }
}
