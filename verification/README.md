# MindBloom, modelled in Dafny

MindBloom is a wellness web app made of React components. This project
models the rules and state transitions behind seven of them:

- the goal tracker (SMART goals, consecutive-day streaks, progress with
  milestones, achievements);
- the health tracker (water intake, meals, keyword-based nutrition
  estimates);
- the reading tracker (books, page progress, pages read today);
- the journal (tags and canned insights derived from an entry's text);
- the meditation gate (a countdown that must finish before the app opens);
- the dashboard checklist (tasks, water, greeting);
- the break planner (activities filtered by category, a break timer).

Each component's `useState` fields become the fields of a Dafny class.
Each handler becomes a method whose `ensures` gives the complete new state
in terms of the old one; the setters that only copy a form input into a
field are listed under "Left out". The rules those handlers apply are pure functions,
and the properties are stated and proved about those functions.

Modules:

| file | module | models |
|---|---|---|
| `wrappers.dfy` | `Wrappers` | `Option`, for the components' optional fields and `null` |
| `seqs.dfy` | `Seqs` | `filter`, `filter(...).length` and the replace-by-predicate `map` |
| `text.dfy` | `Text` | `trim` (tested for emptiness), `toLowerCase`, `includes`, `toString` of a non-negative integer, `padStart(2, "0")` |
| `clock.dfy` | `Clock` | the `m:ss` formatter; the meditation gate and the break planner define identical copies of it |
| `goals.dfy` | `Goals` | components/goals.tsx |
| `health.dfy` | `Health` | components/health.tsx |
| `reading.dfy` | `Reading` | components/reading.tsx |
| `journal.dfy` | `Journal` | components/journal.tsx |
| `meditation.dfy` | `Meditation` | components/meditation-gate.tsx |
| `dashboard.dfy` | `Dashboard` | components/dashboard.tsx |
| `breaks.dfy` | `Breaks` | components/breaks.tsx |

Representation choices:

- Calendar days are integer day numbers. The components store
  `toISOString().split("T")[0]` and parse it back at UTC midnight, so the
  difference between two stored days is always a whole number.
- `Date.now()`, `new Date()`, `getHours()` and `Math.random()` become method
  parameters: `now`, `today`, `hour`, and a colour or thought index.
- Ids made from `Date.now().toString()` are `Text.Digits(now)`.
- The journal's tags and insights are enumerations. `Journal.Label` and
  `Journal.Message` give the exact strings.

## Model

| member | source | states |
|---|---|---|
| `Text.Trim` | components/goals.tsx:175 | `s.trim()` is a contiguous part of `s` that neither starts nor ends with white space, and everything cut off before and after it is white space |
| `Text.TrimEmptyIffBlank` | components/goals.tsx:175 | `s.trim()` is empty exactly when every character of `s` is ECMAScript white space, so `!s.trim()` is `IsBlank(s)` |
| `Text.Lower` | components/journal.tsx:60 | `toLowerCase` keeps the length and lower-cases each character |
| `Text.LowerIdempotent` | components/health.tsx:76 | lower-casing twice is the same as lower-casing once |
| `Text.Contains` | components/health.tsx:83 | `s.includes(pat)`: the empty text is always included, and an included text is no longer than `s` |
| `Text.Digits` | components/goals.tsx:178 | `n.toString()` is a non-empty digit string with no leading zero, one digit exactly when `n < 10`, and it reads back as `n` |
| `Text.PadStart2` | components/meditation-gate.tsx:59 | `padStart(2, "0")` is at least two long, ends with the input, and has only zeros in front |
| `Clock.FormatTime` | components/meditation-gate.tsx:56-60 | `formatTime` (also components/breaks.tsx:98-102) gives the minutes exactly as `toString` writes them (no padding: 300 seconds is "5:00"), a colon, and exactly two digits whose value is `seconds % 60 < 60` |
| `Clock.FormatTimeRoundTrip` | components/meditation-gate.tsx:56-60 | the `m:ss` display reads back as the number of seconds shown, so the format loses nothing |
| `Seqs.Filter` | components/goals.tsx:315 | `filter` keeps exactly the elements satisfying the predicate, and the result is no longer than the input |
| `Seqs.FilterAppend` | components/goals.tsx:320 | filtering distributes over concatenation, so the survivors keep their order |
| `Seqs.Count` | components/dashboard.tsx:59 | `filter(p).length` is at most the length, and equals it exactly when every element satisfies `p` |
| `Seqs.MapWhere` | components/dashboard.tsx:48 | the replace-by-predicate `map` keeps length and order, maps the matching elements and keeps the others |
| `Goals.NewGoal` | components/goals.tsx:177-191 | the added goal is not completed, has streak 0 and no milestones; an empty SMART field gets the goal text (specific) or its fixed phrase; with non-empty text no SMART field is empty |
| `Goals.GoalTracker.AddGoal` | components/goals.tsx:174-205 | blank or white-space text changes nothing; otherwise exactly one new goal is appended after the unchanged old list and the form is cleared |
| `Goals.CompletedStreak` | components/goals.tsx:212-230 | completing a goal: streak 1 with no earlier completion; old streak + 1 (missing = 0) after exactly one day; 1 after a longer gap; unchanged on the same or an earlier day |
| `Goals.Toggled` | components/goals.tsx:210-241 | a toggle flips `completed`; completing applies the streak rule and records today; un-completing writes the old streak back (a missing one as 0) and keeps the last day; no other field changes; well-formedness is kept |
| `Goals.ToggledAll` | components/goals.tsx:209-244 | only goals with the id are toggled; length and order are kept |
| `Goals.ToggleUnknownId` | components/goals.tsx:209-244 | toggling an id no goal has leaves the list unchanged |
| `Goals.ConsecutiveDaysStreak` | components/goals.tsx:212-230 | completing a fresh goal on `k` consecutive days gives streak exactly `k`, last completed on the last of those days |
| `Goals.GapResetsStreak` | components/goals.tsx:225-226 | completing more than one day after the last completion gives streak 1, whatever the history |
| `Goals.Unlocked` | components/goals.tsx:266-297 | "Week Warrior" iff streak = 7, "Monthly Master" iff streak = 30, "Bookworm" iff a reading goal has streak = 10; at most one, stamped today |
| `Goals.UnlockedBy` | components/goals.tsx:214-234 | a goal's toggle unlocks at most one achievement, and unlocks something exactly when the goal carries the id, was not completed and its new streak is 7 or 30, or 10 for a reading goal |
| `Goals.UnlockedByNewStreak` | components/goals.tsx:232-233 | the achievement is chosen by the streak the goal has after the toggle: Week Warrior iff 7, Monthly Master iff 30, Bookworm iff a reading goal at 10 |
| `Goals.RecompleteSameDayUnlocksAgain` | components/goals.tsx:223-224 | completing, clearing and completing again on the same day keeps the streak, so the second completion unlocks the same achievements again (a second Week Warrior for a goal that reached 7) |
| `Goals.LastUnlockIndex` | components/goals.tsx:214-234 | finds the last goal whose toggle unlocks something, or reports that none does |
| `Goals.LastUnlocked` | components/goals.tsx:233 | nothing is appended exactly when no goal's toggle unlocks anything; otherwise what is appended is the unlocks of the last goal that unlocks something. The unlocks of earlier goals with the same id are overwritten, because each `setAchievements([...achievements, ...])` call (components/goals.tsx:299-301) starts from the list of the render |
| `Goals.LastUnlockedUniqueId` | components/goals.tsx:233 | with unique ids, the toggle appends exactly what the toggled goal's completion unlocks |
| `Goals.LastUnlockedNoMatch` | components/goals.tsx:214-234 | achievements come only from the transition to completed: if no goal with the id was incomplete, nothing is appended |
| `Goals.GoalTracker.ToggleGoal` | components/goals.tsx:207-246 | the goals become `ToggledAll` of the old list; the old achievements stay a prefix and the unlocked ones follow |
| `Goals.ClampPercent` | components/goals.tsx:251 | progress is `max(0, min(100, p))`: always in [0, 100], equal to `p` when it already is |
| `Goals.MilestonesDone` | components/goals.tsx:255 | the milestone count is `floor(progress*n/100)`: between 0 and `n` |
| `Goals.WithProgress` | components/goals.tsx:250-259 | progress becomes the clamped value; with milestones the completed count is re-derived, without them it is untouched; nothing else changes |
| `Goals.ProgressUpdated` | components/goals.tsx:249-262 | only goals with the id change; length and order are kept |
| `Goals.GoalTracker.UpdateProgress` | components/goals.tsx:248-264 | the goals become `ProgressUpdated` of the old list, keeping every goal well formed |
| `Goals.Deleted` | components/goals.tsx:315 | deletion removes exactly the goals with the id and keeps every other goal; the list keeps its length exactly when no goal has the id |
| `Goals.DeleteUnknownId` | components/goals.tsx:315 | deleting an id no goal has leaves the list unchanged |
| `Goals.DeleteKeepsOrder` | components/goals.tsx:315 | the remaining goals keep their order |
| `Goals.GoalTracker.DeleteGoal` | components/goals.tsx:313-318 | the confirmed delete leaves `Deleted` of the old list |
| `Goals.GoalTracker.SelectTimeframe` | components/goals.tsx:433-460 | a timeframe tab becomes the selected one, so the goals shown are exactly the goals of that timeframe |
| `Goals.GoalTracker.ToggleAchievements` | components/goals.tsx:382 | the achievements button flips the panel's visibility |
| `Goals.GoalTracker.CloseAchievements` | components/goals.tsx:401 | the panel's close button hides it |
| `Goals.GoalTracker.ToggleSmartForm` | components/goals.tsx:737 | the SMART button flips the SMART fields' visibility |
| `Goals.GoalTracker.FilteredGoals` | components/goals.tsx:320 | the goals shown are exactly the goals of the selected timeframe tab |
| `Goals.InTimeframe` | components/goals.tsx:320 | the timeframe tab shows exactly the goals of that timeframe, all of them exactly when every goal has it |
| `Goals.InTimeframeKeepsOrder` | components/goals.tsx:320 | the tab of two lists joined is the tab of the first followed by the tab of the second, so the tab keeps the list's order |
| `Goals.CountsCons` | components/goals.tsx:815-816 | a tab's total and completed count are the first goal's share plus those of the rest |
| `Goals.TotalIn` | components/goals.tsx:816 | a tab's total is at most the number of goals, and equals it exactly when every goal has that timeframe |
| `Goals.CompletedIn` | components/goals.tsx:815 | a tab's completed count is at most the number of goals, and zero when no goal is completed; `CompletedAllIff` and `ToggleMovesCompletedByOne` tie it to the tab's completed goals |
| `Goals.CompletedAllIff` | components/goals.tsx:815-816 | a tab's completed count equals its total exactly when every goal of that tab is completed |
| `Goals.ToggleMovesCompletedByOne` | components/goals.tsx:209-244 | toggling a goal whose id is unique raises its tab's completed count by one when it becomes completed and lowers it by one when it is cleared; other tabs' counts and every total stay as they were |
| `Goals.FlipMovesCompleted` | components/goals.tsx:815 | flipping the completion of one goal, with every timeframe kept, moves its own tab's completed count by one in the direction of the flip |
| `Goals.SameCompleted` | components/goals.tsx:815 | lists that agree on each goal's timeframe and completion have the same completed count |
| `Goals.SameTotals` | components/goals.tsx:816 | lists that agree on each goal's timeframe have the same tab totals |
| `Goals.CompletedAtMostTotal` | components/goals.tsx:815-816 | a tab's completed count never exceeds its total |
| `Goals.TimeframesPartition` | components/goals.tsx:320 | the four timeframe totals add up to the number of goals |
| `Goals.StreakIcon` | components/goals.tsx:348-354 | the badge is chosen by the thresholds 30, 14, 7 and 3, each band exactly |
| `Goals.StreakIconMonotone` | components/goals.tsx:348-354 | a longer streak never shows a lower badge |
| `Goals.SeedGoals` | components/goals.tsx:40-124 | the five built-in goals are well formed |
| `Goals.GoalTracker.constructor` | components/goals.tsx:40-155 | the initial state: seed goals and achievements, an empty form, defaults health / daily / medium |
| `Health.Estimate` | components/health.tsx:75-114 | the keyword table applied to the lower-cased meal: every counter non-negative and at most protein 60, iron 43, vitamins 35, calories 720; all zero exactly when no rule fires |
| `Health.CalculateNutrition` | components/health.tsx:75-114 | `calculateNutrition`'s six keyword tests compute exactly the keyword table applied rule by rule to the lower-cased meal |
| `Health.AnyOccursIff` | components/health.tsx:83-111 | a rule fires exactly when one of its keywords occurs |
| `Health.RulesFireOnKeywords` | components/health.tsx:83-111 | each of the six table rules fires on exactly the keywords the component tests |
| `Health.NutritionForBounds` | components/health.tsx:77-113 | whatever the tests give, the counters are non-negative and at most protein 60, iron 43, vitamins 35, calories 720 |
| `Health.NutritionForZero` | components/health.tsx:77-113 | the counters stay at zero exactly when no test succeeds |
| `Health.NutritionBounds` | components/health.tsx:77-113 | every meal's estimate is non-negative and at most protein 60, iron 43, vitamins 35, calories 720 |
| `Health.NoKeywordNoNutrition` | components/health.tsx:83-113 | the estimate is all zeros exactly when none of the eleven keywords occurs |
| `Health.NutritionIgnoresCase` | components/health.tsx:76 | a meal and its lower-case form get the same estimate |
| `Health.SameRulesSameNutrition` | components/health.tsx:83-111 | meals that trigger the same rules get the same estimate, so each rule counts once however often its keyword repeats |
| `Health.RemainingWater` | components/health.tsx:214 | `max(0, 2500 - intake)` is never negative, reaches the target, and is zero once it is met |
| `Health.HealthTracker.constructor` | components/health.tsx:24-39 | the initial state: no water, zero totals, no meals |
| `Health.HealthTracker.AddWater` | components/health.tsx:50-54 | intake becomes `max(0, intake + amount)`, so it never goes negative |
| `Health.HealthTracker.AddMeal` | components/health.tsx:56-73 | blank text changes nothing; otherwise the meal is appended, each total grows by exactly the meal's estimate, and the input is cleared |
| `Reading.ClampPage` | components/reading.tsx:98 | the new page is `min(total, max(0, page))`: in [0, total] when total ≥ 0, the page itself when already inside |
| `Reading.ClampPageIdempotent` | components/reading.tsx:98 | clamping an already clamped page changes nothing |
| `Reading.NewBook` | components/reading.tsx:65-73 | a new book starts at page 0 with the given id, title, author, pages, start day and colour |
| `Reading.ReplaceById` | components/reading.tsx:105 | the `map` by id replaces exactly the books with that id and keeps the others in order |
| `Reading.ReplaceUnknownId` | components/reading.tsx:105 | an id no book has leaves the list unchanged |
| `Reading.ReplaceKeepsPagesInRange` | components/reading.tsx:98-105 | replacing by a book whose page is in range keeps every page in range |
| `Reading.SeedBooks` | components/reading.tsx:21-31 | the built-in list holds one book, with its page in range |
| `Reading.ReadingTracker.constructor` | components/reading.tsx:20-37 | the initial state: the seed book, no current book, an empty closed form, no pages today |
| `Reading.ReadingTracker.AddBook` | components/reading.tsx:59-89 | an empty title, author or pages field changes nothing; otherwise the new book is appended after the unchanged old list, the form is cleared and closed, and it becomes current exactly when the list was empty |
| `Reading.ReadingTracker.OpenAddBook` | components/reading.tsx:198 | the empty list's button opens the add-book form |
| `Reading.ReadingTracker.ToggleAddBook` | components/reading.tsx:219 | the header button flips the form's visibility |
| `Reading.ReadingTracker.CloseAddBook` | components/reading.tsx:253 | Cancel closes the form |
| `Reading.ReadingTracker.SelectBook` | components/reading.tsx:91-93 | the chosen book becomes the current one |
| `Reading.ReadingTracker.UpdateProgress` | components/reading.tsx:95-117 | no current book: nothing changes; otherwise the clamped book replaces the entries with its id and becomes current, and afterwards every entry with that id equals it; today's pages grow by `amount` exactly when it is positive, even when the page was capped, and never shrink |
| `Journal.LabelInjective` | components/journal.tsx:60-65 | different tags are stored under different strings, so keeping tags as an enumeration loses nothing |
| `Journal.TagsUpToFacts` | components/journal.tsx:58-67 | after the first `k` tests the tags are exactly the tested tags that fired, in test order, at most `k` of them |
| `Journal.Tags` | components/journal.tsx:58-67 | an entry's tags are exactly the tags whose test fires on its lower-cased text, at most six |
| `Journal.TagsIff` | components/journal.tsx:60-65 | an entry gets a tag exactly when one of that tag's two keywords occurs, ignoring case |
| `Journal.TagsOrdered` | components/journal.tsx:58-66 | tags follow the order study, exercise, nutrition, rest-needed, positive, reading; none repeats; at most six |
| `Journal.ExtractTags` | components/journal.tsx:58-67 | the six conditional pushes give exactly `Tags(content)` |
| `Journal.InsightsForFacts` | components/journal.tsx:72-96 | the low-mood insight iff mood ≤ 3 and the positive one iff mood ≥ 8, never both; each keyword insight iff its test; the fallback iff nothing else fired, and then alone; never empty |
| `Journal.Insights` | components/journal.tsx:72-96 | an entry gets one to four insights: the low-mood one iff mood ≤ 3, the positive one iff mood ≥ 8, and the fallback only alone |
| `Journal.InsightsChoice` | components/journal.tsx:72-96 | the same facts for an entry, in terms of the keywords of its lower-cased text |
| `Journal.Join` | components/journal.tsx:98 | joining no part gives "" and one part gives that part; the result is at least as long as the first part |
| `Journal.JoinPush` | components/journal.tsx:98 | pushing a part then joining appends a single space and that part, so parts appear in push order |
| `Journal.GenerateInsights` | components/journal.tsx:69-99 | the pushes and the join give exactly the insight text for the mood and content |
| `Journal.NewEntry` | components/journal.tsx:38-48 | a saved entry keeps the text and mood and carries the entry's tags and insight text |
| `Journal.JournalBook.constructor` | components/journal.tsx:20-23 | the initial state: empty text, mood 5, no entries |
| `Journal.JournalBook.SetMood` | components/journal.tsx:127-132 | the slider sets a mood between 1 and 10 |
| `Journal.JournalBook.SaveEntry` | components/journal.tsx:33-56 | blank text saves nothing; otherwise the new entry is put in front of the unchanged older entries, the text is cleared and the mood returns to 5 |
| `Meditation.InitialValid` | components/meditation-gate.tsx:14-17 | the gate opens valid: five minutes, stopped, not completed |
| `Meditation.AfterTick` | components/meditation-gate.tsx:22-31 | no tick unless active with time left; above 1 second, exactly one second off; at 1 or less, zero, stopped, completed; validity kept |
| `Meditation.AfterTicks` | components/meditation-gate.tsx:19-38 | any number of seconds of the interval keeps the duration and validity, never adds time, and never undoes completion |
| `Meditation.CountdownCompletes` | components/meditation-gate.tsx:19-38 | a running countdown with `n` seconds left completes after exactly `n` ticks, showing `n - k` after `k < n` ticks |
| `Meditation.StoppedStaysPut` | components/meditation-gate.tsx:22 | a stopped gate does not change however many seconds pass |
| `Meditation.AfterStart` | components/meditation-gate.tsx:40-44 | Start gives the full duration, running, not completed |
| `Meditation.AfterPause` | components/meditation-gate.tsx:46-48 | Pause only stops the countdown; the time left is kept |
| `Meditation.AfterReset` | components/meditation-gate.tsx:50-54 | Reset stops, restores the full duration and clears completion |
| `Meditation.CanSelect` | components/meditation-gate.tsx:84-119 | the duration buttons show only on a gate that is not completed, not running and at its full time, and then the countdown does not move |
| `Meditation.SelectableAfterReset` | components/meditation-gate.tsx:40-54 | Reset brings the duration buttons back; Start, and any tick of a running countdown, hides them |
| `Meditation.AfterSelect` | components/meditation-gate.tsx:125-133 | a duration button sets that duration and its full time, while the buttons stay available |
| `Meditation.StartAfterPauseRestarts` | components/meditation-gate.tsx:40-48 | Start after a pause runs the whole duration again rather than resuming |
| `Meditation.StartThenWaitCompletes` | components/meditation-gate.tsx:19-44 | from any valid state, Start followed by the full duration of ticks completes the gate |
| `Meditation.MeditationGate.constructor` | components/meditation-gate.tsx:14-17 | the gate's fields start at the initial state |
| `Meditation.MeditationGate.Tick` | components/meditation-gate.tsx:23-31 | the interval body moves the fields to `AfterTick` of the old state |
| `Meditation.MeditationGate.StartMeditation` | components/meditation-gate.tsx:40-44 | the fields move to `AfterStart` of the old state |
| `Meditation.MeditationGate.PauseMeditation` | components/meditation-gate.tsx:46-48 | the fields move to `AfterPause` of the old state |
| `Meditation.MeditationGate.ResetMeditation` | components/meditation-gate.tsx:50-54 | the fields move to `AfterReset` of the old state |
| `Meditation.MeditationGate.SelectDuration` | components/meditation-gate.tsx:119-133 | while the buttons are shown, the fields move to `AfterSelect` of the old state |
| `Dashboard.SeedTasks` | components/dashboard.tsx:11-18 | six tasks with ids 1 to 6, none completed |
| `Dashboard.ToggleTasks` | components/dashboard.tsx:48 | only tasks with the id flip `completed`; ids, texts, categories, length and order are unchanged |
| `Dashboard.ToggleTwice` | components/dashboard.tsx:48 | toggling the same id twice restores the original list |
| `Dashboard.ToggleUnknownId` | components/dashboard.tsx:48 | an id no task has changes nothing |
| `Dashboard.CompletedCount` | components/dashboard.tsx:59 | the completed count is at most the number of tasks, and equals it exactly when all are done |
| `Dashboard.ToggleMovesCountByOne` | components/dashboard.tsx:48-59 | toggling a task with a unique id moves the completed count down by one if it was done, up by one otherwise |
| `Dashboard.ProgressMessage` | components/dashboard.tsx:93-95 | the congratulation appears exactly when the list is non-empty and every task is done |
| `Dashboard.Greeting` | components/dashboard.tsx:23-26 | "Good Morning" iff hour < 12, "Good Afternoon" iff 12 ≤ hour < 17, "Good Evening" iff hour ≥ 17 |
| `Dashboard.DashboardState.constructor` | components/dashboard.tsx:10-20 | the initial state: the seed tasks, no water, no greeting or thought |
| `Dashboard.DashboardState.Mount` | components/dashboard.tsx:22-45 | the greeting for the hour and the chosen thought are set |
| `Dashboard.DashboardState.ToggleTask` | components/dashboard.tsx:47-51 | the tasks become `ToggleTasks` of the old list |
| `Dashboard.DashboardState.AddWater` | components/dashboard.tsx:53-57 | intake grows by exactly 250 |
| `Breaks.Filtered` | components/breaks.tsx:104-106 | no category: the whole list in its order; a category: exactly the activities of that category, never more than the whole list |
| `Breaks.FilteredKeepsOrder` | components/breaks.tsx:105 | the filter distributes over concatenation, so activities keep their listed order |
| `Breaks.CategoriesPartition` | components/breaks.tsx:105 | the four category lists together are as long as the whole list |
| `Breaks.CountByCategories` | components/breaks.tsx:105 | the number of activities of a category depends only on the list's categories, position by position |
| `Breaks.TwoPerCategory` | components/breaks.tsx:25-90 | the built-in list offers exactly two activities of each of the four categories |
| `Breaks.BreakTimer.constructor` | components/breaks.tsx:20-23 | no category, timer off, duration and time left zero |
| `Breaks.BreakTimer.StartTimer` | components/breaks.tsx:92-96 | duration `d`, time left `d*60`, timer on |
| `Breaks.BreakTimer.EndBreak` | components/breaks.tsx:139 | only `timerActive` changes, to false |
| `Breaks.BreakTimer.SelectCategory` | components/breaks.tsx:154 | the chosen category (or none, for All) becomes active |

## Left out

- Rendering, CSS classes, colours of categories and priorities, icons other than the streak badge, the theme, the notification `alert`s, and the Goals page header "{totalGoalsCompleted} of {totalGoals} goals completed" (components/goals.tsx:356-357, 375, the count of completed goals over all tabs and the list's length): presentation only.
- `localStorage` reads and writes, and `JSON.parse`/`stringify`: the stored copy only mirrors the state fields. The initial states are those before any saved data is loaded.
- `setTimeout`/`setInterval` scheduling: the meditation interval is modelled by its body (`Tick`). The journal's two-second delay is collapsed into the Save click. No second save can start during the delay, because the Save button is disabled while `isAnalyzing` is set (components/journal.tsx:36, 153). But text or mood edited during the delay is lost: the timeout saves the text and mood from the click, then clears both (components/journal.tsx:47-54). The model has no such in-between edits.
- `Reading.ReadingTracker.AddBook`: `pages` is the value `Number.parseInt` yields. A non-numeric field (NaN) is not modelled.
- `calculateDaysReading` (components/reading.tsx:119-125) is not part of this model: it works on timestamps that include the time of day.
- `Goals.MilestonesDone`: uses exact integer `floor(progress*n/100)`. The floating-point `Math.floor((p/100)*n)` can be one lower (p = 29, n = 100 gives 28).
- Progress bars, percentages and the meditation progress ring: floating point, presentation only.
- `Dashboard.ProgressMessage`: the test `(completed / total) * 100 === 100` is modelled as "non-empty and all completed". Floating-point rounding for astronomically long lists is not modelled.
- Unicode case mapping: `toLowerCase` is modelled on ASCII letters only, and `includes` as plain substring search.
- The break planner has no interval, so its timer never counts down. `Breaks.BreakTimer.Valid` records this: the time left is always the full duration of the last break started.
- The journal's tags are stored as the enumeration `Journal.Tag`, and the strings are `Journal.Label`. Insight messages are handled as `Journal.Insight` values and turned into text by `Journal.Message` only when joined.
- Form setters that only copy an input into a state field: the goal form's text, category, timeframe, priority and SMART fields; the book form; the meal and journal text. Each is a direct assignment.
- The parse fallback for saved goals (components/goals.tsx:157-167): it depends on stored JSON.
- The planner, settings, navigation, water-celebration and page files: navigation, static content or UI with no logic.
