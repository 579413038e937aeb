/** The goal tracker (components/goals.tsx): SMART goals grouped by
    timeframe, a consecutive-day streak kept by the completion toggle,
    progress with milestones derived from it, and achievements unlocked when
    a streak reaches exactly 7, 30 or (for reading goals) 10 days.

    Calendar days are whole day numbers: the component stores
    `toISOString().split("T")[0]` and parses it back at UTC midnight, so the
    difference of two stored days is always a whole number of days. */
module Goals {
  import opened Wrappers
  import opened Text
  import Seqs

  datatype Category = Health | Study | Personal | Reading | Screen
  datatype Timeframe = Daily | Weekly | Monthly | Yearly
  datatype Priority = Low | Medium | High

  /** A UTC calendar day, as a day number. */
  type Day = int

  /** The five SMART description fields. */
  datatype Smart = Smart(specific: string, measurable: string, achievable: string,
                         relevant: string, timeBound: string)

  const EmptySmart := Smart("", "", "", "", "")

  /** A goal; the fields the component declares optional are `Option`s. */
  datatype Goal = Goal(
    id: string,
    text: string,
    category: Category,
    timeframe: Timeframe,
    completed: bool,
    progress: Option<int>,
    smart: Smart,
    milestones: Option<seq<string>>,
    completedMilestones: Option<int>,
    streak: Option<int>,
    lastCompleted: Option<Day>,
    priority: Priority,
    rewards: Option<string>)

  datatype Achievement = Achievement(id: string, title: string, description: string,
                                     icon: string, unlockedAt: Day)

  /** The ranges the goal operations keep: a streak is never negative,
      progress is a percentage, and the completed-milestone count lies
      between zero and the number of milestones. */
  predicate WellFormed(g: Goal) {
    && (g.streak.Some? ==> g.streak.value >= 0)
    && (g.progress.Some? ==> 0 <= g.progress.value <= 100)
    && (g.completedMilestones.Some? ==>
          g.milestones.Some? && 0 <= g.completedMilestones.value <= |g.milestones.value|)
  }

  // ---------------------------------------------------------------------
  // Adding a goal

  /** The phrases `addGoal` puts in SMART fields the form left empty. */
  const DefaultMeasurable := "Track completion daily"
  const DefaultAchievable := "With consistent effort"
  const DefaultRelevant := "Important for personal growth"
  const DefaultTimeBound := "As scheduled"

  /** `s || fallback` on strings: only the empty string is replaced. */
  function OrElse(s: string, fallback: string): string {
    if s == "" then fallback else s
  }

  /** The goal `addGoal` builds: not completed, a streak of zero, an empty
      milestone list, and every SMART field the form left empty filled in
      (the specific field with the goal text, the others with fixed
      phrases). A SMART field the form did fill in is kept as typed, so a
      goal with non-empty text never has an empty SMART field. */
  function NewGoal(id: string, text: string, category: Category, timeframe: Timeframe,
                   priority: Priority, form: Smart): (g: Goal)
    ensures g.id == id && g.text == text && g.category == category
    ensures g.timeframe == timeframe && g.priority == priority
    ensures !g.completed && g.streak == Some(0) && g.milestones == Some([])
    ensures g.progress == None && g.completedMilestones == None
    ensures g.lastCompleted == None && g.rewards == None
    ensures g.smart.specific == (if form.specific == "" then text else form.specific)
    ensures g.smart.measurable == (if form.measurable == "" then DefaultMeasurable else form.measurable)
    ensures g.smart.achievable == (if form.achievable == "" then DefaultAchievable else form.achievable)
    ensures g.smart.relevant == (if form.relevant == "" then DefaultRelevant else form.relevant)
    ensures g.smart.timeBound == (if form.timeBound == "" then DefaultTimeBound else form.timeBound)
    ensures text != "" ==> g.smart.specific != "" && g.smart.measurable != "" &&
                           g.smart.achievable != "" && g.smart.relevant != "" && g.smart.timeBound != ""
    ensures WellFormed(g)
  {
    Goal(
      id := id,
      text := text,
      category := category,
      timeframe := timeframe,
      completed := false,
      progress := None,
      smart := Smart(
        OrElse(form.specific, text),
        OrElse(form.measurable, DefaultMeasurable),
        OrElse(form.achievable, DefaultAchievable),
        OrElse(form.relevant, DefaultRelevant),
        OrElse(form.timeBound, DefaultTimeBound)),
      milestones := Some([]),
      completedMilestones := None,
      streak := Some(0),
      lastCompleted := None,
      priority := priority,
      rewards := None)
  }

  // ---------------------------------------------------------------------
  // Toggling completion and the streak rule

  /** `goal.streak || 0`: a missing streak counts as zero. */
  function StreakOr0(streak: Option<int>): int {
    streak.GetOr(0)
  }

  /** The streak after marking a goal completed on `today`: it starts at 1
      when the goal was never completed, grows by one when the last
      completion was exactly the day before, restarts at 1 after a gap of
      more than one day, and stays as it was when the last completion was
      today or later. */
  function CompletedStreak(streak: Option<int>, last: Option<Day>, today: Day): (r: int)
    ensures last == None ==> r == 1
    ensures last.Some? && today - last.value == 1 ==> r == StreakOr0(streak) + 1
    ensures last.Some? && today - last.value > 1 ==> r == 1
    ensures last.Some? && today - last.value <= 0 ==> r == StreakOr0(streak)
    ensures StreakOr0(streak) >= 0 ==> r >= 0
  {
    var base := StreakOr0(streak);
    match last
    case None => 1
    case Some(d) =>
      var diffDays := today - d;
      if diffDays == 1 then base + 1
      else if diffDays > 1 then 1
      else base
  }

  /** One goal after `toggleGoal` on `today`. Completing it applies the
      streak rule and records today as the last completion; un-completing it
      keeps both the streak and the last completion day. Either way the
      streak is written back, so a missing streak becomes an explicit zero.
      No other field changes. */
  function Toggled(g: Goal, today: Day): (r: Goal)
    ensures r.completed == !g.completed
    ensures r == g.(completed := r.completed, streak := r.streak, lastCompleted := r.lastCompleted)
    ensures !g.completed ==> r.streak == Some(CompletedStreak(g.streak, g.lastCompleted, today))
    ensures !g.completed ==> r.lastCompleted == Some(today)
    ensures g.completed ==> r.streak == Some(StreakOr0(g.streak))
    ensures g.completed ==> r.lastCompleted == g.lastCompleted
    ensures WellFormed(g) ==> WellFormed(r)
  {
    var newCompleted := !g.completed;
    var newStreak := if newCompleted then CompletedStreak(g.streak, g.lastCompleted, today)
                     else StreakOr0(g.streak);
    g.(completed := newCompleted,
       streak := Some(newStreak),
       lastCompleted := if newCompleted then Some(today) else g.lastCompleted)
  }

  /** `goals.map(...)` in `toggleGoal`: every goal carrying `id` is toggled,
      every other goal is kept, and the order is unchanged. */
  function ToggledAll(gs: seq<Goal>, id: string, today: Day): (r: seq<Goal>)
    ensures |r| == |gs|
    ensures forall i :: 0 <= i < |gs| ==>
              r[i] == if gs[i].id == id then Toggled(gs[i], today) else gs[i]
  {
    Seqs.MapWhere(gs, (g: Goal) => g.id == id, (g: Goal) => Toggled(g, today))
  }

  /** Toggling an id that no goal carries leaves the list as it is. */
  lemma ToggleUnknownId(gs: seq<Goal>, id: string, today: Day)
    requires forall i :: 0 <= i < |gs| ==> gs[i].id != id
    ensures ToggledAll(gs, id, today) == gs
  {
  }

  /** Completing a goal, then clearing it again, on day `d`. */
  function CompleteThenClear(g: Goal, d: Day): Goal {
    Toggled(Toggled(g, d), d)
  }

  /** A goal completed and cleared once a day for `k` days in a row,
      starting on day `start`. */
  function DailyRun(g: Goal, start: Day, k: nat): Goal {
    if k == 0 then g else CompleteThenClear(DailyRun(g, start, k - 1), start + k - 1)
  }

  /** The streak counts consecutive days: a goal with no recent completion
      that is completed on each of `k` consecutive days has a streak of
      exactly `k`, and its last completion is the last of those days. */
  lemma {:induction false} ConsecutiveDaysStreak(g: Goal, start: Day, k: nat)
    requires !g.completed
    requires g.lastCompleted == None || g.lastCompleted.value < start - 1
    requires k >= 1
    ensures DailyRun(g, start, k).streak == Some(k)
    ensures DailyRun(g, start, k).lastCompleted == Some(start + k - 1)
    ensures !DailyRun(g, start, k).completed
  {
    if k > 1 {
      ConsecutiveDaysStreak(g, start, k - 1);
    }
  }

  /** Missing a day breaks the streak: after any history, completing a goal
      more than one day after its last completion gives a streak of 1. */
  lemma GapResetsStreak(g: Goal, today: Day)
    requires !g.completed && g.lastCompleted.Some? && today - g.lastCompleted.value > 1
    ensures Toggled(g, today).streak == Some(1)
  {
  }

  // ---------------------------------------------------------------------
  // Achievements

  function Titles(achievements: seq<Achievement>): (ts: seq<string>)
    ensures |ts| == |achievements|
    ensures forall i :: 0 <= i < |ts| ==> ts[i] == achievements[i].title
  {
    if achievements == [] then [] else [achievements[0].title] + Titles(achievements[1..])
  }

  const WeekWarrior := "Week Warrior"
  const MonthlyMaster := "Monthly Master"
  const Bookworm := "Bookworm"

  /** `checkForAchievements(streak, category)`: the achievements a streak
      value unlocks, stamped with `today`. The triggers are exact
      equalities (7, 30, and 10 for a reading goal), so at most one rule can
      fire; their ids are `now`, `now + 1` and `now + 2` as decimal text. */
  function Unlocked(streak: int, category: Category, now: nat, today: Day): (r: seq<Achievement>)
    ensures |r| <= 1
    ensures WeekWarrior in Titles(r) <==> streak == 7
    ensures MonthlyMaster in Titles(r) <==> streak == 30
    ensures Bookworm in Titles(r) <==> category == Reading && streak == 10
    ensures forall a :: a in r ==> a.unlockedAt == today
  {
    var week := if streak == 7 then
        [Achievement(Digits(now), WeekWarrior, "Completed 7 days streak!", "\U{1F525}", today)]
      else [];
    var month := if streak == 30 then
        [Achievement(Digits(now + 1), MonthlyMaster, "Incredible 30-day streak!", "\U{1F451}", today)]
      else [];
    var book := if category == Reading && streak == 10 then
        [Achievement(Digits(now + 2), Bookworm, "10 days of consistent reading!", "\U{1F4D6}", today)]
      else [];
    week + month + book
  }

  /** What toggling goal `g` with `id` unlocks: only a goal carrying the id
      that moves from not completed to completed can unlock anything. */
  function UnlockedBy(g: Goal, id: string, today: Day, now: nat): (r: seq<Achievement>)
    ensures |r| <= 1
    ensures r != [] <==> Unlocks(g, id, today)
  {
    if g.id == id && !g.completed then
      Unlocked(CompletedStreak(g.streak, g.lastCompleted, today), g.category, now, today)
    else []
  }

  /** Toggling goal `g` with `id` unlocks something: it carries the id, was
      not completed, and its new streak is 7 or 30, or 10 for a reading
      goal. */
  predicate Unlocks(g: Goal, id: string, today: Day) {
    var streak := CompletedStreak(g.streak, g.lastCompleted, today);
    g.id == id && !g.completed && (streak == 7 || streak == 30 || (g.category == Reading && streak == 10))
  }

  /** The toggle of a goal carrying the id that was not completed unlocks
      by the streak the goal has after the toggle. */
  lemma UnlockedByNewStreak(g: Goal, id: string, today: Day, now: nat)
    requires g.id == id && !g.completed
    ensures var r := UnlockedBy(g, id, today, now);
            && (WeekWarrior in Titles(r) <==> Toggled(g, today).streak == Some(7))
            && (MonthlyMaster in Titles(r) <==> Toggled(g, today).streak == Some(30))
            && (Bookworm in Titles(r) <==> g.category == Reading && Toggled(g, today).streak == Some(10))
  {
  }

  /** Goal `j` unlocks something and no later goal does. */
  predicate LastToUnlock(gs: seq<Goal>, id: string, today: Day, j: int) {
    && 0 <= j < |gs|
    && Unlocks(gs[j], id, today)
    && forall k :: j < k < |gs| ==> !Unlocks(gs[k], id, today)
  }

  /** The position of the last goal whose toggle unlocks something, or -1
      when there is none. */
  function LastUnlockIndex(gs: seq<Goal>, id: string, today: Day): (i: int)
    ensures -1 <= i < |gs|
    ensures i == -1 <==> forall j :: 0 <= j < |gs| ==> !Unlocks(gs[j], id, today)
    ensures i >= 0 ==> LastToUnlock(gs, id, today, i)
  {
    if gs == [] then -1
    else
      var n := |gs| - 1;
      var init := gs[..n];
      assert forall j :: 0 <= j < n ==> init[j] == gs[j];
      if Unlocks(gs[n], id, today) then n else LastUnlockIndex(init, id, today)
  }

  /** The achievements `toggleGoal` appends. Each call of
      `checkForAchievements` writes the achievement list of the render it
      belongs to plus its own unlocks, so when several goals carry the same
      id only the last of them that unlocks something takes effect: the
      unlocks of every earlier goal are overwritten. */
  function LastUnlocked(gs: seq<Goal>, id: string, today: Day, now: nat): (r: seq<Achievement>)
    ensures r == [] <==> forall j :: 0 <= j < |gs| ==> !Unlocks(gs[j], id, today)
    ensures r != [] ==> exists j :: LastToUnlock(gs, id, today, j) && r == UnlockedBy(gs[j], id, today, now)
  {
    var i := LastUnlockIndex(gs, id, today);
    if i < 0 then [] else UnlockedBy(gs[i], id, today, now)
  }

  /** With ids unique, the toggle appends exactly what the toggled goal
      unlocks. */
  lemma LastUnlockedUniqueId(gs: seq<Goal>, id: string, today: Day, now: nat, k: nat)
    requires k < |gs| && gs[k].id == id
    requires forall j :: 0 <= j < |gs| && j != k ==> gs[j].id != id
    ensures LastUnlocked(gs, id, today, now) == UnlockedBy(gs[k], id, today, now)
  {
    var i := LastUnlockIndex(gs, id, today);
    if i >= 0 {
      assert gs[i].id == id;
    }
  }

  /** Achievements are unlocked only on the transition to completed: when
      no goal carrying `id` is incomplete, the toggle unlocks nothing. */
  lemma LastUnlockedNoMatch(gs: seq<Goal>, id: string, today: Day, now: nat)
    requires forall j :: 0 <= j < |gs| ==> gs[j].id != id || gs[j].completed
    ensures LastUnlocked(gs, id, today, now) == []
  {
  }

  /** The unlock rules look at the streak, not at whether the goal was
      already rewarded: completing a goal, clearing it and completing it
      again on the same day keeps the streak, so the second completion
      unlocks the same achievements as the first (a second "Week Warrior"
      for a goal that reached 7). */
  lemma RecompleteSameDayUnlocksAgain(g: Goal, today: Day, now1: nat, now2: nat)
    requires !g.completed
    ensures var again := Toggled(Toggled(g, today), today);
            !again.completed &&
            Toggled(again, today).streak == Toggled(g, today).streak &&
            Titles(UnlockedBy(again, g.id, today, now2)) == Titles(UnlockedBy(g, g.id, today, now1))
  {
  }

  // ---------------------------------------------------------------------
  // Progress and milestones

  /** `Math.max(0, Math.min(100, p))`: the nearest percentage to `p`. */
  function ClampPercent(p: int): (r: int)
    ensures 0 <= r <= 100
    ensures 0 <= p <= 100 ==> r == p
    ensures p < 0 ==> r == 0
    ensures p > 100 ==> r == 100
  {
    if p < 0 then 0 else if p > 100 then 100 else p
  }

  /** Milestones reached at `progress` percent of `n` milestones: the
      largest count whose share of `n` does not exceed the progress, so
      never more than `n`. */
  function MilestonesDone(progress: int, n: nat): (r: int)
    requires 0 <= progress <= 100
    ensures 0 <= r <= n
    ensures r * 100 <= progress * n < (r + 1) * 100
  {
    progress * n / 100
  }

  /** One goal after `updateProgress(id, p)`: the progress becomes the
      clamped percentage; with a non-empty milestone list the completed
      milestone count is re-derived from it, otherwise it is left alone.
      No other field changes. */
  function WithProgress(g: Goal, p: int): (r: Goal)
    ensures r.progress == Some(ClampPercent(p))
    ensures g.milestones.Some? && |g.milestones.value| > 0 ==>
              r.completedMilestones == Some(MilestonesDone(ClampPercent(p), |g.milestones.value|))
    ensures !(g.milestones.Some? && |g.milestones.value| > 0) ==>
              r.completedMilestones == g.completedMilestones
    ensures r == g.(progress := r.progress, completedMilestones := r.completedMilestones)
    ensures WellFormed(g) ==> WellFormed(r)
  {
    var newProgress := ClampPercent(p);
    if g.milestones.Some? && |g.milestones.value| > 0 then
      g.(progress := Some(newProgress),
         completedMilestones := Some(MilestonesDone(newProgress, |g.milestones.value|)))
    else
      g.(progress := Some(newProgress))
  }

  /** `goals.map(...)` in `updateProgress`: only goals carrying `id` change. */
  function ProgressUpdated(gs: seq<Goal>, id: string, p: int): (r: seq<Goal>)
    ensures |r| == |gs|
    ensures forall i :: 0 <= i < |gs| ==>
              r[i] == if gs[i].id == id then WithProgress(gs[i], p) else gs[i]
  {
    Seqs.MapWhere(gs, (g: Goal) => g.id == id, (g: Goal) => WithProgress(g, p))
  }

  // ---------------------------------------------------------------------
  // Deleting, filtering and counting

  /** `goals.filter(goal => goal.id !== id)`: every goal carrying `id` is
      gone and every other goal is kept. */
  function Deleted(gs: seq<Goal>, id: string): (r: seq<Goal>)
    ensures forall g :: g in r ==> g in gs && g.id != id
    ensures forall g :: g in gs && g.id != id ==> g in r
    ensures |r| <= |gs|
    ensures |r| == |gs| <==> forall i :: 0 <= i < |gs| ==> gs[i].id != id
  {
    Seqs.CountAll(gs, (g: Goal) => g.id != id);
    Seqs.Filter(gs, (g: Goal) => g.id != id)
  }

  /** Deleting an id that no goal carries leaves the list as it is. */
  lemma DeleteUnknownId(gs: seq<Goal>, id: string)
    requires forall g :: g in gs ==> g.id != id
    ensures Deleted(gs, id) == gs
  {
    Seqs.FilterKeepsAll(gs, (g: Goal) => g.id != id);
  }

  /** Deleting keeps the survivors in their order: deleting from two lists
      joined is deleting from each. */
  lemma DeleteKeepsOrder(a: seq<Goal>, b: seq<Goal>, id: string)
    ensures Deleted(a + b, id) == Deleted(a, id) + Deleted(b, id)
  {
    Seqs.FilterAppend(a, b, (g: Goal) => g.id != id);
  }

  /** `goals.filter(goal => goal.timeframe === tf)`: the goals shown under
      one timeframe tab. */
  function InTimeframe(gs: seq<Goal>, tf: Timeframe): (r: seq<Goal>)
    ensures forall g :: g in r ==> g in gs && g.timeframe == tf
    ensures forall g :: g in gs && g.timeframe == tf ==> g in r
    ensures |r| <= |gs|
    ensures |r| == |gs| <==> forall i :: 0 <= i < |gs| ==> gs[i].timeframe == tf
  {
    Seqs.CountAll(gs, (g: Goal) => g.timeframe == tf);
    Seqs.Filter(gs, (g: Goal) => g.timeframe == tf)
  }

  /** The number of goals of one timeframe: all of them exactly when every
      goal has that timeframe. */
  function TotalIn(gs: seq<Goal>, tf: Timeframe): (n: nat)
    ensures n <= |gs|
    ensures n == |gs| <==> forall i :: 0 <= i < |gs| ==> gs[i].timeframe == tf
  {
    |InTimeframe(gs, tf)|
  }

  /** The number of completed goals of one timeframe: none when no goal is
      completed. */
  function CompletedIn(gs: seq<Goal>, tf: Timeframe): (n: nat)
    ensures n <= |gs|
    ensures (forall i :: 0 <= i < |gs| ==> !gs[i].completed) ==> n == 0
  {
    var done := (g: Goal) => g.timeframe == tf && g.completed;
    assert (forall i :: 0 <= i < |gs| ==> !gs[i].completed) ==> Seqs.Filter(gs, done) == [] by {
      if forall i :: 0 <= i < |gs| ==> !gs[i].completed {
        Seqs.FilterDropsAll(gs, done);
      }
    }
    |Seqs.Filter(gs, done)|
  }

  /** The "completed / total" figure of a timeframe never exceeds its total. */
  lemma CompletedAtMostTotal(gs: seq<Goal>, tf: Timeframe)
    ensures CompletedIn(gs, tf) <= TotalIn(gs, tf)
  {
    Seqs.FilterStrongerKeepsFewer(gs, (g: Goal) => g.timeframe == tf && g.completed,
                                      (g: Goal) => g.timeframe == tf);
  }

  /** A tab keeps the list's order: the tab of two lists joined is the tab
      of each, joined. */
  lemma InTimeframeKeepsOrder(a: seq<Goal>, b: seq<Goal>, tf: Timeframe)
    ensures InTimeframe(a + b, tf) == InTimeframe(a, tf) + InTimeframe(b, tf)
  {
    Seqs.FilterAppend(a, b, (g: Goal) => g.timeframe == tf);
  }

  /** Counting the first goal apart from the rest, for both figures of a
      tab. */
  lemma CountsCons(gs: seq<Goal>, tf: Timeframe)
    requires gs != []
    ensures TotalIn(gs, tf) == (if gs[0].timeframe == tf then 1 else 0) + TotalIn(gs[1..], tf)
    ensures CompletedIn(gs, tf) ==
              (if gs[0].timeframe == tf && gs[0].completed then 1 else 0) + CompletedIn(gs[1..], tf)
  {
  }

  /** A tab's "completed / total" figure reads all done exactly when every
      goal of that timeframe is completed. */
  lemma {:induction false} CompletedAllIff(gs: seq<Goal>, tf: Timeframe)
    ensures CompletedIn(gs, tf) == TotalIn(gs, tf) <==>
              forall i :: 0 <= i < |gs| && gs[i].timeframe == tf ==> gs[i].completed
  {
    if gs != [] {
      CountsCons(gs, tf);
      CompletedAllIff(gs[1..], tf);
      CompletedAtMostTotal(gs[1..], tf);
      if forall i :: 0 <= i < |gs| - 1 && gs[1..][i].timeframe == tf ==> gs[1..][i].completed {
        assert forall i :: 1 <= i < |gs| ==> gs[i] == gs[1..][i - 1];
      }
    }
  }

  /** `r` is `gs` with goal `k`'s completion flipped: every goal keeps its
      timeframe, and every other goal its completion. */
  predicate FlipsOnlyAt(gs: seq<Goal>, r: seq<Goal>, k: int) {
    && |r| == |gs| && 0 <= k < |gs|
    && (forall i :: 0 <= i < |gs| ==> r[i].timeframe == gs[i].timeframe)
    && (forall i :: 0 <= i < |gs| ==> r[i].completed == (if i == k then !gs[i].completed else gs[i].completed))
  }

  /** Flipping one goal's completion moves its tab's completed figure by
      one. */
  lemma {:induction false} FlipMovesCompleted(gs: seq<Goal>, r: seq<Goal>, k: int, tf: Timeframe)
    requires FlipsOnlyAt(gs, r, k)
    ensures CompletedIn(r, tf) ==
              CompletedIn(gs, tf) + (if gs[k].timeframe != tf then 0 else if gs[k].completed then -1 else 1)
  {
    var head := if gs[0].timeframe == tf && gs[0].completed then 1 else 0;
    var head' := if r[0].timeframe == tf && r[0].completed then 1 else 0;
    assert CompletedIn(gs, tf) == head + CompletedIn(gs[1..], tf) by { CountsCons(gs, tf); }
    assert CompletedIn(r, tf) == head' + CompletedIn(r[1..], tf) by { CountsCons(r, tf); }
    if k == 0 {
      FlipsHead(gs, r);
      SameCompleted(gs[1..], r[1..], tf);
    } else {
      FlipsTail(gs, r, k);
      FlipMovesCompleted(gs[1..], r[1..], k - 1, tf);
    }
  }

  /** A flip past the first goal is a flip of the tails. */
  lemma FlipsTail(gs: seq<Goal>, r: seq<Goal>, k: int)
    requires FlipsOnlyAt(gs, r, k) && k > 0
    ensures FlipsOnlyAt(gs[1..], r[1..], k - 1)
  {
    assert forall i :: 0 <= i < |gs| - 1 ==> gs[1..][i] == gs[i + 1] && r[1..][i] == r[i + 1];
  }

  /** A flip of the first goal leaves the tails agreeing goal by goal. */
  lemma FlipsHead(gs: seq<Goal>, r: seq<Goal>)
    requires FlipsOnlyAt(gs, r, 0)
    ensures Agree(gs[1..], r[1..])
  {
    assert forall i :: 0 <= i < |gs| - 1 ==> gs[1..][i] == gs[i + 1] && r[1..][i] == r[i + 1];
  }

  /** `r` and `gs` agree on every goal's timeframe and completion. */
  predicate Agree(gs: seq<Goal>, r: seq<Goal>) {
    && |r| == |gs|
    && forall i :: 0 <= i < |gs| ==> r[i].timeframe == gs[i].timeframe && r[i].completed == gs[i].completed
  }

  /** Lists that agree on every goal's timeframe and completion have the
      same completed figure. */
  lemma {:induction false} SameCompleted(gs: seq<Goal>, r: seq<Goal>, tf: Timeframe)
    requires Agree(gs, r)
    ensures CompletedIn(r, tf) == CompletedIn(gs, tf)
  {
    if gs != [] {
      assert CompletedIn(gs, tf) == (if gs[0].timeframe == tf && gs[0].completed then 1 else 0) + CompletedIn(gs[1..], tf) by { CountsCons(gs, tf); }
      assert CompletedIn(r, tf) == (if r[0].timeframe == tf && r[0].completed then 1 else 0) + CompletedIn(r[1..], tf) by { CountsCons(r, tf); }
      assert Agree(gs[1..], r[1..]);
      SameCompleted(gs[1..], r[1..], tf);
    }
  }

  /** Lists that agree on every goal's timeframe have the same totals. */
  lemma {:induction false} SameTotals(gs: seq<Goal>, r: seq<Goal>, tf: Timeframe)
    requires |r| == |gs|
    requires forall i :: 0 <= i < |gs| ==> r[i].timeframe == gs[i].timeframe
    ensures TotalIn(r, tf) == TotalIn(gs, tf)
  {
    if gs != [] {
      assert TotalIn(gs, tf) == (if gs[0].timeframe == tf then 1 else 0) + TotalIn(gs[1..], tf) by { CountsCons(gs, tf); }
      assert TotalIn(r, tf) == (if r[0].timeframe == tf then 1 else 0) + TotalIn(r[1..], tf) by { CountsCons(r, tf); }
      SameTotals(gs[1..], r[1..], tf);
    }
  }

  /** Toggling a goal whose id is unique moves the completed figure of its
      own tab by exactly one, up when it is completed and down when it is
      cleared; no goal changes tab, so every total stays as it was. */
  lemma ToggleMovesCompletedByOne(gs: seq<Goal>, id: string, today: Day, k: nat, tf: Timeframe)
    requires k < |gs| && gs[k].id == id
    requires forall i :: 0 <= i < |gs| && i != k ==> gs[i].id != id
    ensures TotalIn(ToggledAll(gs, id, today), tf) == TotalIn(gs, tf)
    ensures CompletedIn(ToggledAll(gs, id, today), tf) ==
              CompletedIn(gs, tf) + (if gs[k].timeframe != tf then 0 else if gs[k].completed then -1 else 1)
  {
    var r := ToggledAll(gs, id, today);
    assert FlipsOnlyAt(gs, r, k);
    SameTotals(gs, r, tf);
    FlipMovesCompleted(gs, r, k, tf);
  }

  /** The timeframe tabs partition the goals: their totals add up to the
      number of goals. */
  lemma {:induction false} TimeframesPartition(gs: seq<Goal>)
    ensures TotalIn(gs, Daily) + TotalIn(gs, Weekly) + TotalIn(gs, Monthly) + TotalIn(gs, Yearly) == |gs|
  {
    if gs != [] {
      TimeframesPartition(gs[1..]);
    }
  }

  // ---------------------------------------------------------------------
  // Streak icon

  const Seedling := "\U{1F331}"
  const Muscle := "\U{1F4AA}"
  const Bolt := "\U{26A1}"
  const Fire := "\U{1F525}"
  const Crown := "\U{1F451}"

  /** `getStreakIcon(streak)`: the badge for a streak, by threshold. */
  function StreakIcon(streak: int): (icon: string)
    ensures icon == Crown <==> streak >= 30
    ensures icon == Fire <==> 14 <= streak < 30
    ensures icon == Bolt <==> 7 <= streak < 14
    ensures icon == Muscle <==> 3 <= streak < 7
    ensures icon == Seedling <==> streak < 3
  {
    if streak >= 30 then Crown
    else if streak >= 14 then Fire
    else if streak >= 7 then Bolt
    else if streak >= 3 then Muscle
    else Seedling
  }

  /** The rank of a badge, from the seedling (0) to the crown (4). */
  function IconRank(icon: string): nat {
    if icon == Crown then 4
    else if icon == Fire then 3
    else if icon == Bolt then 2
    else if icon == Muscle then 1
    else 0
  }

  /** A longer streak never shows a lower badge. */
  lemma StreakIconMonotone(s1: int, s2: int)
    requires s1 <= s2
    ensures IconRank(StreakIcon(s1)) <= IconRank(StreakIcon(s2))
  {
  }

  // ---------------------------------------------------------------------
  // The component

  /** The `Goals` component's state: the goal and achievement lists and the
      form fields `addGoal` reads and clears. */
  class GoalTracker {
    var goals: seq<Goal>
    var achievements: seq<Achievement>
    var newGoal: string
    var newCategory: Category
    var newTimeframe: Timeframe
    var newPriority: Priority
    var activeTimeframe: Timeframe
    var showSmartForm: bool
    var smartGoal: Smart
    var showAchievements: bool

    ghost predicate Valid()
      reads this
    {
      forall g :: g in goals ==> WellFormed(g)
    }

    /** The initial state of the component, before any saved lists are
        loaded. */
    constructor ()
      ensures Valid()
      ensures goals == SeedGoals() && achievements == SeedAchievements()
      ensures newGoal == "" && smartGoal == EmptySmart && !showSmartForm && !showAchievements
      ensures newCategory == Health && newTimeframe == Daily && newPriority == Medium
      ensures activeTimeframe == Daily
    {
      goals := SeedGoals();
      achievements := SeedAchievements();
      newGoal := "";
      newCategory := Health;
      newTimeframe := Daily;
      newPriority := Medium;
      activeTimeframe := Daily;
      showSmartForm := false;
      smartGoal := EmptySmart;
      showAchievements := false;
    }

    /** `addGoal()`, with `now` standing for `Date.now()`. Blank goal text
        changes nothing; otherwise exactly one new goal is appended after
        the existing ones and the text and SMART fields of the form are
        cleared. */
    method AddGoal(now: nat)
      requires Valid()
      modifies this`goals, this`newGoal, this`smartGoal, this`showSmartForm
      ensures Valid()
      ensures IsBlank(old(newGoal)) ==>
                goals == old(goals) && newGoal == old(newGoal) &&
                smartGoal == old(smartGoal) && showSmartForm == old(showSmartForm)
      ensures !IsBlank(old(newGoal)) ==>
                goals == old(goals) + [NewGoal(Digits(now), old(newGoal), newCategory,
                                               newTimeframe, newPriority, old(smartGoal))] &&
                newGoal == "" && smartGoal == EmptySmart && !showSmartForm
    {
      if IsBlank(newGoal) {
        return;
      }
      var item := NewGoal(Digits(now), newGoal, newCategory, newTimeframe, newPriority, smartGoal);
      assert forall g :: g in goals + [item] ==> g in goals || g == item;
      goals := goals + [item];
      newGoal := "";
      smartGoal := EmptySmart;
      showSmartForm := false;
    }

    /** `toggleGoal(id)` on day `today`, with `now` standing for
        `Date.now()` in the ids of unlocked achievements. */
    method ToggleGoal(id: string, today: Day, now: nat)
      requires Valid()
      modifies this`goals, this`achievements
      ensures Valid()
      ensures goals == ToggledAll(old(goals), id, today)
      ensures achievements == old(achievements) + LastUnlocked(old(goals), id, today, now)
    {
      var unlocked := LastUnlocked(goals, id, today, now);
      if unlocked != [] {
        achievements := achievements + unlocked;
      }
      var updated := ToggledAll(goals, id, today);
      assert forall i :: 0 <= i < |updated| ==> WellFormed(updated[i]) by {
        forall i | 0 <= i < |updated| ensures WellFormed(updated[i]) {
          assert goals[i] in goals;
        }
      }
      goals := updated;
    }

    /** `updateProgress(id, p)`. */
    method UpdateProgress(id: string, p: int)
      requires Valid()
      modifies this`goals
      ensures Valid()
      ensures goals == ProgressUpdated(old(goals), id, p)
    {
      var updated := ProgressUpdated(goals, id, p);
      assert forall i :: 0 <= i < |updated| ==> WellFormed(updated[i]) by {
        forall i | 0 <= i < |updated| ensures WellFormed(updated[i]) {
          assert goals[i] in goals;
        }
      }
      goals := updated;
    }

    /** `deleteGoal(id)` once the user has confirmed. */
    method DeleteGoal(id: string)
      requires Valid()
      modifies this`goals
      ensures Valid()
      ensures goals == Deleted(old(goals), id)
    {
      goals := Deleted(goals, id);
    }

    /** A timeframe tab: the tab becomes the selected one, so the goals
        shown are exactly those of that timeframe. */
    method SelectTimeframe(tf: Timeframe)
      requires Valid()
      modifies this`activeTimeframe
      ensures Valid()
      ensures activeTimeframe == tf
      ensures forall g :: g in FilteredGoals() <==> g in goals && g.timeframe == tf
    {
      activeTimeframe := tf;
    }

    /** The achievements button shows the panel when it is hidden and hides
        it when it is shown. */
    method ToggleAchievements()
      requires Valid()
      modifies this`showAchievements
      ensures Valid()
      ensures showAchievements == !old(showAchievements)
    {
      showAchievements := !showAchievements;
    }

    /** The close button of the achievements panel. */
    method CloseAchievements()
      requires Valid()
      modifies this`showAchievements
      ensures Valid()
      ensures !showAchievements
    {
      showAchievements := false;
    }

    /** The SMART button opens the SMART fields when closed and closes them
        when open. */
    method ToggleSmartForm()
      requires Valid()
      modifies this`showSmartForm
      ensures Valid()
      ensures showSmartForm == !old(showSmartForm)
    {
      showSmartForm := !showSmartForm;
    }

    /** `filteredGoals`: the goals of the selected timeframe tab. */
    function FilteredGoals(): (r: seq<Goal>)
      reads this
      ensures |r| <= |goals|
      ensures forall g :: g in r <==> g in goals && g.timeframe == activeTimeframe
    {
      InTimeframe(goals, activeTimeframe)
    }
  }

  // ---------------------------------------------------------------------
  // Seed data

  function SeedGoals(): (gs: seq<Goal>)
    ensures forall g :: g in gs ==> WellFormed(g)
  {
    [
      Goal("1", "Increase hemoglobin to 10.5", Health, Monthly, false, Some(30),
           Smart("Increase hemoglobin from 9.7 to 10.5 g/dL", "Track through monthly blood tests",
                 "With proper diet and supplements", "Essential for energy and health",
                 "Within 2 months"),
           Some(["Week 1: Add iron-rich foods daily", "Week 2: Include vitamin C",
                 "Week 4: First blood test", "Week 8: Final test"]),
           Some(1), Some(5), None, High, None),
      Goal("2", "Read 15 pages daily", Reading, Daily, false, None,
           Smart("Read 15 pages of current book", "Track pages read daily",
                 "15-20 minutes of reading", "Improves knowledge and focus", "Every day"),
           None, None, Some(12), None, Medium, None),
      Goal("3", "Complete 30 days of Surya Namaskar", Health, Monthly, false, Some(20),
           Smart("Perform 12 rounds of Surya Namaskar", "Track daily completion",
                 "15 minutes each morning", "Improves flexibility and strength",
                 "30 consecutive days"),
           Some(["Day 7: First week", "Day 14: Two weeks", "Day 21: Three weeks",
                 "Day 30: Complete challenge"]),
           Some(0), Some(6), None, High, None),
      Goal("4", "Reduce social media by 50%", Screen, Weekly, false, Some(40),
           Smart("Reduce daily social media time from 4 hours to 2 hours", "Track screen time daily",
                 "Use app timers and mindful breaks", "Improves focus and mental health",
                 "This week"),
           None, None, Some(3), None, High, None),
      Goal("5", "Study 2 hours daily", Study, Daily, false, None,
           Smart("Focused study sessions totaling 2 hours", "Track study time with timer",
                 "Two 1-hour sessions with breaks", "Essential for academic success", "Every day"),
           None, None, Some(8), None, High, None)
    ]
  }

  function SeedAchievements(): seq<Achievement> {
    [
      Achievement("1", "First Week Warrior", "Completed 7 days of consistent goal tracking",
                  "\U{1F3C6}", 20228),
      Achievement("2", "Reading Enthusiast", "Read for 10 consecutive days", "\U{1F4DA}", 20233)
    ]
  }
}
