# learning-cat: the study reward and progression engine in Dafny

learning-cat is a study companion web app. A student keeps a list of study
tasks and works through them with a focus/break session timer. Finishing a
task within 80% of its estimate records the study minutes. Those minutes earn
experience, which raises the student's level, and the finished task may drop a
collectible card. Pages show statistics, the card collection, the task board
and the sign-in form.

This project models that engine, one Dafny module per source file:

| module | file | form |
|---|---|---|
| `Progression` | progression.dfy | XP curve, XP gain and level normalisation as functions; class `AuthStore` (user record, `addStudyTime` with its while loop, `addCard`, `updateUser`, `logout`) |
| `CardStore` | cardstore.dfy | catalog, duplicate-marking insertion, removal, getters, rarity roll and card pick as functions; class `CardStore` with `GetCollectionProgress` keeping the source's walk over the collection |
| `TaskStore` | taskstore.dfy | task records and patches; class `TaskStore` whose methods rewrite the task list |
| `TimerRules` | timer_rules.dfy | the rules the two timers share: `formatTime`, remaining time and progress, the 80% rule, recorded minutes, the current task and the effect of a reward on the stores |
| `PageTimer` | page_timer.dfy | the timer page: focus-end completion and the quality-adjusted drop; class `Timer` |
| `ComponentTimer` | component_timer.dfy | the timer widget: break-end completion, plain drop thresholds and `onComplete`; class `Timer` |
| `Analytics` | analytics.dfy | the derived statistics |
| `CardsPage` | cards_page.dfy | the collection filter |
| `TasksPage` | tasks_page.dfy | the add-task form (class `TaskForm`), the estimate input and the status columns |
| `LoginPage` | login_page.dfy | the form checks and the messages they produce |

`Basics` (an `Option` type and the difficulty scale), `Seqs` (filter and
ordered subsequence) and `Text` (number printing, `padStart`, ASCII
lower-casing, `includes`, `trim`, decimal `parseInt`) are helpers.

The timers hold references to the task store and the progression store. Their
methods state each store's new contents as a function of the old contents and
of the session's reward (`TimerRules.TasksAfter`, `TimerRules.UserAfter`).

Randomness, fresh ids and clocks are parameters:
- drop rolls and the card pick are `real` values in [0, 1);
- fresh ids are strings supplied by the caller;
- `now` and `joinedAt` are opaque integer timestamps.

Three facts about the program shape the timer and progression model:
- The timer page drops a card on a roll below 0.3/0.6/0.8 (easy/medium/hard)
  followed by the quality-adjusted check against 0.5
  (src/pages/Timer.tsx:62-93). The widget drops on a plain roll below
  0.2/0.6/0.9 (src/components/Timer.tsx:67-74).
- A timer's card drop only calls `addCard()` on the authentication store,
  which increments the user's `cardCount`. No card is drawn from the catalog.
- `addStudyTime` accepts any minutes, zero and negative included.

## Model

| member | source | states |
|---|---|---|
| Progression.RequiredExp | src/stores/authStore.ts:122-124 | the requirement `floor(100 * 1.2^(L-1))` is at least 100 for every level from 1 |
| Progression.RequiredExpStep | src/stores/authStore.ts:122-124 | each level needs at least 20 more experience than the one before |
| Progression.RequiredExpMonotone | src/stores/authStore.ts:122-124 | the requirement never decreases with the level, so the level-up loop ends |
| Progression.RequiredExpFirstLevels | src/stores/authStore.ts:122-124 | level 1 needs 100, level 2 needs 120, level 3 needs 144 |
| Progression.GainedExpIsFloorSum | src/stores/authStore.ts:115-119 | the integer gain `minutes/10 + level/2 + (minutes/30)*2` equals the source's three `Math.floor` terms |
| Progression.GainedExp | src/stores/authStore.ts:115-119 | for non-negative minutes and level the gain is non-negative and at least the base plus the level bonus; `GainedExpIsFloorSum` equates it with the three `Math.floor` terms |
| Progression.Normalize | src/stores/authStore.ts:126-133 | the level never drops; the leftover is below the new level's requirement and non-negative for non-negative input; the input is split exactly into the requirements of the levels passed plus the leftover; a level-up happens iff the input reaches the current requirement |
| Progression.Study | src/stores/authStore.ts:109-154 | study time grows by exactly `minutes`; experience is conserved across the level-ups; the new experience is below the new requirement; the report says leveled up iff the level rose and then carries the old and new level; no other field changes |
| Progression.StudyLevelUpExample | src/stores/authStore.ts:145-151 | level 1 with 99 experience and 20 minutes reaches level 2 with 1 experience and reports the level-up |
| Progression.StudyNoLevelUpExample | src/stores/authStore.ts:145-153 | level 1 with 0 experience and 30 minutes stays at level 1 with 5 experience and reports no level-up |
| Progression.AfterAddCard | src/stores/authStore.ts:156-166 | with a user, `cardCount` grows by `count` and nothing else changes; without one nothing happens |
| Progression.AfterStudy | src/stores/authStore.ts:109-154 | a logged-in user stays logged in with the study time grown by the minutes, a level not lower and the experience below the new requirement; a logged-out store stays logged out |
| Progression.Merge | src/stores/authStore.ts:104-107 | the spread `{ ...user, ...userData }`: a field the patch sets overrides the stored one; its laws are `MergeLaws` |
| Progression.MergeLaws | src/stores/authStore.ts:104-107 | an empty patch changes nothing, and applying a patch twice is applying it once |
| Progression.AuthStore.AddStudyTime | src/stores/authStore.ts:109-154 | the loop leaves exactly the normalised record of `Study` (nothing when logged out) and returns its level-up report; levels stay at least 1 |
| Progression.AuthStore.AddCard | src/stores/authStore.ts:156-166 | the user becomes `AfterAddCard(old user, count)`, with a default count of 1 |
| Progression.AuthStore.UpdateUser | src/stores/authStore.ts:104-107 | a logged-in user is merged with the patch; a missing user stays missing |
| Progression.AuthStore.Logout | src/stores/authStore.ts:102 | the user is cleared and the store is no longer authenticated |
| CardStore.PredefinedCatalogShape | src/stores/cardStore.ts:35-107 | the catalog has 8 entries: 3 common, 2 rare, 2 epic and 1 legendary |
| CardStore.LibraryShape | src/stores/cardStore.ts:113-118 | the stamped library, whose sizes the collection progress reports, has 8 cards: 3 common, 2 rare, 2 epic and 1 legendary |
| CardStore.ByRarityOfStamped | src/stores/cardStore.ts:180-183 | cards stamped from catalog entries have as many cards of each rarity as the entries |
| CardStore.OfRarity | src/stores/cardStore.ts:216 | `predefinedCards.filter(card => card.rarity === rarity)`; its count is `OfRarityCount` |
| CardStore.OfRarityCount | src/stores/cardStore.ts:180-183 | the entries of one rarity are as many as that rarity's occurrences in the catalog |
| CardStore.Library | src/stores/cardStore.ts:113-118 | the stamped library lists the catalog in order, with ids `card-<index>` and no duplicate flag |
| CardStore.FirstOwned | src/stores/cardStore.ts:129-131 | the first owned card with the same name and rarity, or none when no card matches |
| CardStore.AfterAdd | src/stores/cardStore.ts:120-145 | for an owned (name, rarity): the length is kept, the owned card is flagged, every other id is untouched and no card changes its data; otherwise exactly one unflagged card with the fresh id is appended after the unchanged cards |
| CardStore.AfterAddKeepsUnique | src/stores/cardStore.ts:120-145 | adding keeps at most one owned card per (name, rarity) |
| CardStore.MarkedById | src/stores/cardStore.ts:153-159 | exactly the cards with that id are flagged; length and order are kept |
| CardStore.MarkedByIdLaws | src/stores/cardStore.ts:153-159 | flagging keeps the (name, rarity) pairs unique and is idempotent |
| CardStore.Without | src/stores/cardStore.ts:147-151 | the result is the ordered subsequence of the cards whose id differs, all of them |
| CardStore.WithoutKeepsUnique | src/stores/cardStore.ts:147-151 | removal keeps the (name, rarity) pairs unique |
| CardStore.ByRarity | src/stores/cardStore.ts:161-163 | exactly the owned cards of that rarity, in collection order |
| CardStore.ByTheme | src/stores/cardStore.ts:165-167 | exactly the owned cards of that theme, in collection order |
| CardStore.BySubject | src/stores/cardStore.ts:169-171 | exactly the owned cards of that subject, in collection order |
| CardStore.OwnedNamesBound | src/stores/cardStore.ts:176 | the count of distinct names is at most the collection size, and 0 exactly for an empty collection |
| CardStore.OwnedNames | src/stores/cardStore.ts:176 | `new Set(cards.map(card => card.name))`; its size is bounded by `OwnedNamesBound` |
| CardStore.ProgressPercent | src/stores/cardStore.ts:177 | 0 for an empty catalog, within 0..100 when no more names than entries are collected, 100 exactly when all are |
| CardStore.ProgressExample | src/stores/cardStore.ts:175-177 | three distinct names out of the eight-entry catalog is 37.5 percent |
| CardStore.OwnsRarityExtend | src/stores/cardStore.ts:187-191 | one more card owns a rarity iff the prefix did or the card has it |
| CardStore.OwnsRarity | src/stores/cardStore.ts:187-191 | some owned card has the rarity; `GetCollectionProgress` sets the flag exactly then |
| CardStore.CardStore.GetCollectionProgress | src/stores/cardStore.ts:173-194 | total is the library size; collected counts distinct owned names; progress is their percentage; each rarity reports its library count and a flag that is 1 iff some owned card has that rarity, else 0 |
| CardStore.CardStore.AddCard | src/stores/cardStore.ts:120-145 | the collection becomes `AfterAdd` of the old one, the library is kept, and uniqueness of pairs is preserved |
| CardStore.CardStore.RemoveCard | src/stores/cardStore.ts:147-151 | the collection becomes `Without` the id, and uniqueness of pairs is preserved |
| CardStore.CardStore.MarkAsDuplicated | src/stores/cardStore.ts:153-159 | the collection becomes `MarkedById` the id, and uniqueness of pairs is preserved |
| CardStore.CardStore.CardsByRarity | src/stores/cardStore.ts:161-163 | the getter returns `ByRarity` of the collection |
| CardStore.CardStore.CardsByTheme | src/stores/cardStore.ts:165-167 | the getter returns `ByTheme` of the collection |
| CardStore.CardStore.CardsBySubject | src/stores/cardStore.ts:169-171 | the getter returns `BySubject` of the collection |
| CardStore.CardStore.constructor | src/stores/cardStore.ts:112-118 | an empty collection and the stamped library |
| CardStore.RollRarity | src/stores/cardStore.ts:200-213 | easy is always common; rare iff medium in [0.5, 0.6) or hard in [0.4, 0.7); epic iff hard in [0.7, 0.8); legendary iff hard in [0.8, 0.9) |
| CardStore.GenerateFrom | src/stores/cardStore.ts:216-227 | none iff the catalog has no entry of the rolled rarity; otherwise a catalog entry of that rarity with the fresh id, the time and no duplicate flag |
| CardStore.GenerateRandomCard | src/stores/cardStore.ts:196-228 | with the predefined catalog a card always comes out, a catalog entry of the rolled rarity |
| TaskStore.Patched | src/stores/taskStore.ts:44-50 | length and order are kept; exactly the tasks with the id are patched |
| TaskStore.Apply | src/stores/taskStore.ts:47 | the spread `{ ...task, ...updates }`: a field the patch sets overrides the stored one; `Patched` applies it to exactly the matching ids |
| TaskStore.NewTask | src/stores/taskStore.ts:35-40 | the new task is pending, carries the fresh id and the creation time, and takes the draft's title, estimate and difficulty |
| TaskStore.Started | src/stores/taskStore.ts:58-64 | length and order are kept; exactly the tasks with the id become in-progress, with no other field changed |
| TaskStore.CompletedAll | src/stores/taskStore.ts:66-79 | exactly the tasks with the id become completed with the given actual time and completion time |
| TaskStore.Without | src/stores/taskStore.ts:52-56 | the ordered subsequence of the tasks whose id differs, all of them |
| TaskStore.ByStatus | src/stores/taskStore.ts:81-83 | exactly the tasks of that status, in store order |
| TaskStore.UnknownIdNoOp | src/stores/taskStore.ts:44-79 | an id no task carries makes update, start, complete and delete no-ops |
| TaskStore.WithoutCount | src/stores/taskStore.ts:52-56 | deletion removes exactly as many tasks as carry the id |
| TaskStore.StartedLaws | src/stores/taskStore.ts:58-64 | starting is idempotent, equals an update of the status alone, and applies whatever the prior status |
| TaskStore.StatusCounts | src/stores/taskStore.ts:81-83 | the four status lists together hold every task once |
| TaskStore.AddedTaskIsPending | src/stores/taskStore.ts:34-42 | a new task joins the end of the pending list and leaves the other status lists unchanged |
| TaskStore.TaskStore.AddTask | src/stores/taskStore.ts:34-42 | one pending task with the fresh id and time is appended to the unchanged list |
| TaskStore.TaskStore.UpdateTask | src/stores/taskStore.ts:44-50 | the list becomes `Patched` with the id and patch |
| TaskStore.TaskStore.DeleteTask | src/stores/taskStore.ts:52-56 | the list becomes `Without` the id |
| TaskStore.TaskStore.StartTask | src/stores/taskStore.ts:58-64 | the list becomes `Started` with the id |
| TaskStore.TaskStore.CompleteTask | src/stores/taskStore.ts:66-79 | the list becomes `CompletedAll` with the id, actual time and time |
| TaskStore.TaskStore.TasksByStatus | src/stores/taskStore.ts:81-83 | the getter returns `ByStatus` of the list |
| TaskStore.TaskStore.constructor | src/stores/taskStore.ts:32 | the store starts empty |
| TimerRules.Duration.Seconds | src/pages/Timer.tsx:236-254 | the duration buttons set 1500, 2700 or 3600 seconds |
| TimerRules.NextTarget | src/pages/Timer.tsx:49-53 | a session's successor has an allowed target: 300 after focus, 1500 after a break |
| TimerRules.JsRem | src/pages/Timer.tsx:125 | the remainder satisfies `a == b*trunc(a/b) + r` with `-b < r < b` and the sign of the dividend |
| TimerRules.FormatTime | src/pages/Timer.tsx:123-127 | `mins` padded, a colon, `secs` padded, with JavaScript's floor and remainder; `FormatTimeRoundTrip` and `FormatTimeNegativeExample` state what it shows |
| TimerRules.ParseClock | src/pages/Timer.tsx:123-127 | reading an `mm:ss` display back yields seconds below 6000 |
| TimerRules.FormatTimeRoundTrip | src/pages/Timer.tsx:123-127 | below 6000 seconds the display is five characters `mm:ss` and reads back as the seconds |
| TimerRules.FormatTimeNegativeExample | src/pages/Timer.tsx:123-127 | a negative value shows JavaScript's signs: -500 seconds is `-9:-20` |
| TimerRules.Remaining | src/pages/Timer.tsx:130 | the remaining time is positive iff the target is not reached, and adds up to the target |
| TimerRules.Progress | src/pages/Timer.tsx:129 | within a running session the progress lies in [0, 100) |
| TimerRules.ProgressPlusRemaining | src/pages/Timer.tsx:129-130 | the progress and the remaining share add up to 100 percent |
| TimerRules.CeilMinutes | src/pages/Timer.tsx:57 | the recorded minutes are the smallest whole number of minutes covering the seconds |
| TimerRules.ReachedEstimateInIntegers | src/pages/Timer.tsx:56 | `elapsed >= est*60*0.8` iff `5*elapsed >= 240*est` |
| TimerRules.FindTask | src/pages/Timer.tsx:22 | `find`: a task carrying the id that no earlier task carries, and none exactly when no task carries it |
| TimerRules.CurrentTask | src/pages/Timer.tsx:21-22 | none exactly when the id is absent, empty or carried by no task; otherwise the first task carrying it |
| TimerRules.StartedOnTimerLaws | src/pages/Timer.tsx:104-109 | starting moves a pending current task to in-progress, leaves any other status and every other id alone, keeps the length, and is idempotent |
| TimerRules.StartedOnTimer | src/pages/Timer.tsx:104-109 | the task update of `startTimer`; `StartedOnTimerLaws` states its effect |
| TimerRules.PatchedKeepsFirst | src/pages/Timer.tsx:107 | an update that keeps ids keeps the first task of that id first, now patched |
| TimerRules.TasksAfter | src/pages/Timer.tsx:56-58 | no reward keeps the list; a reward completes exactly the tasks with its id, with its minutes and the time, and leaves the others; the length is kept |
| TimerRules.UserAfter | src/pages/Timer.tsx:58-59 | a reward keeps the user present or absent and never lowers the level |
| TimerRules.UserAfterCounters | src/pages/Timer.tsx:59 | a reward adds exactly its minutes to the study time and 0 or 1 to the card count |
| PageTimer.Quality | src/pages/Timer.tsx:76 | the completion quality is capped at 1.5 and non-negative for a positive estimate |
| PageTimer.DropThreshold | src/pages/Timer.tsx:65-71 | the first drop test's thresholds 0.3/0.6/0.8 lie strictly between 0 and 1 |
| PageTimer.AwardsCard | src/pages/Timer.tsx:62-93 | the drop rule: roll below the threshold and the quality-adjusted roll above 0.5; stated by `AwardWindow`, `EasyNeverAwards`, `AwardMonotoneInTime` and `AwardWhenSaturated` |
| PageTimer.AwardWindow | src/pages/Timer.tsx:62-93 | a card needs a roll above 1/3 and below the difficulty threshold |
| PageTimer.EasyNeverAwards | src/pages/Timer.tsx:65-93 | an easy task never drops a card |
| PageTimer.AwardMonotoneInTime | src/pages/Timer.tsx:76-81 | studying longer never loses a card a shorter session would have won |
| PageTimer.AwardWhenSaturated | src/pages/Timer.tsx:76-93 | from 150% of the estimate on, a card drops iff the roll lies between 1/3 and the threshold |
| PageTimer.FocusReward | src/pages/Timer.tsx:49-95 | a reward iff a task is attached and 80% of its estimate is reached; it records the covering minutes and a card iff the drop rule says so |
| PageTimer.SessionReward | src/pages/Timer.tsx:49-101 | only the end of a focus session pays out; `BreakEndPaysNothing` states the break side |
| PageTimer.BreakEndPaysNothing | src/pages/Timer.tsx:96-101 | the end of a break changes neither the tasks nor the user |
| PageTimer.Timer.constructor | src/pages/Timer.tsx:15-19 | stopped, not in a break, no time spent, a 25-minute focus session |
| PageTimer.Timer.HandleSessionComplete | src/pages/Timer.tsx:46-102 | stops and flips the session kind with its target; the tasks and the user become those after the focus reward (none after a break) |
| PageTimer.Timer.DropCard | src/pages/Timer.tsx:62-93 | one `addCard` exactly when the drop rule awards a card, otherwise no change |
| PageTimer.Timer.Tick | src/pages/Timer.tsx:28-38 | stopped: nothing changes; running below the target: one second more; reaching the target: the session completes with the elapsed seconds and the clock resets, so the elapsed time never reaches the target |
| PageTimer.Timer.StartTimer | src/pages/Timer.tsx:104-109 | runs, keeps the clock, and moves a pending current task to in-progress |
| PageTimer.Timer.PauseTimer | src/pages/Timer.tsx:111-113 | stops and keeps the time spent, the session kind and the target |
| PageTimer.Timer.StopTimer | src/pages/Timer.tsx:115-121 | back to a stopped 25-minute focus session with no time spent |
| PageTimer.Timer.SelectDuration | src/pages/Timer.tsx:236-254 | only the target changes |
| PageTimer.Timer.Current | src/pages/Timer.tsx:21-22 | `currentTask` of the store's list, as `CurrentTask` states |
| PageTimer.Timer.RemainingTime | src/pages/Timer.tsx:130 | `remainingTime`, as `Remaining` states |
| PageTimer.Timer.ProgressShown | src/pages/Timer.tsx:129 | `progress`, as `Progress` states |
| ComponentTimer.AwardMonotoneInDifficulty | src/components/Timer.tsx:67-74 | a harder task wins on every roll an easier one wins on; all win below 0.2, none from 0.9 |
| ComponentTimer.DropThreshold | src/components/Timer.tsx:68-72 | the thresholds 0.2/0.6/0.9 lie strictly between 0 and 1 |
| ComponentTimer.AwardsCard | src/components/Timer.tsx:67-74 | a card iff the roll is below the difficulty's threshold; ordered by `AwardMonotoneInDifficulty` |
| ComponentTimer.BreakReward | src/components/Timer.tsx:54-77 | a reward iff a task is attached and 80% of its estimate is reached; covering minutes; a card iff the roll is below 0.2/0.6/0.9 |
| ComponentTimer.SessionReward | src/components/Timer.tsx:49-78 | only the end of a break pays out; `FocusEndPaysNothing` states the focus side |
| ComponentTimer.Reported | src/components/Timer.tsx:76 | `onComplete` is called iff there is a reward, with its minutes |
| ComponentTimer.ReportedMatchesStudyTime | src/components/Timer.tsx:61-76 | the reported minutes are exactly the study time added, and a focus end reports nothing |
| ComponentTimer.FocusEndPaysNothing | src/components/Timer.tsx:49-53 | the end of a focus session changes neither the tasks nor the user |
| ComponentTimer.BreakCompletesOnlyShortTasks | src/components/Timer.tsx:52-61 | a break that ends with fewer than 300 elapsed seconds completes only tasks estimated at 6 minutes or less |
| ComponentTimer.Timer.constructor | src/components/Timer.tsx:16-20 | stopped, not in a break, no time spent, a 25-minute focus session |
| ComponentTimer.Timer.HandleSessionComplete | src/components/Timer.tsx:46-79 | stops and flips the session kind; the tasks and the user become those after the break reward (none after focus); returns the `onComplete` argument |
| ComponentTimer.Timer.DropCard | src/components/Timer.tsx:67-74 | one `addCard` exactly when the roll is below the difficulty's threshold |
| ComponentTimer.Timer.Tick | src/components/Timer.tsx:28-38 | as on the page, and reports the `onComplete` argument of a completion |
| ComponentTimer.Timer.StartTimer | src/components/Timer.tsx:81-86 | runs, keeps the clock, and moves a pending current task to in-progress |
| ComponentTimer.Timer.PauseTimer | src/components/Timer.tsx:88-90 | stops and keeps the time spent, the session kind and the target |
| ComponentTimer.Timer.StopTimer | src/components/Timer.tsx:92-98 | back to a stopped 25-minute focus session with no time spent |
| ComponentTimer.Timer.SelectDuration | src/components/Timer.tsx:203-217 | only the target changes |
| ComponentTimer.Timer.Current | src/components/Timer.tsx:22 | `currentTask` of the store's list, as `CurrentTask` states |
| ComponentTimer.Timer.RemainingTime | src/components/Timer.tsx:107 | `remainingTime`, as `Remaining` states |
| ComponentTimer.Timer.ProgressShown | src/components/Timer.tsx:106 | `progress`, as `Progress` states |
| Analytics.Round | src/pages/Analytics.tsx:23 | `Math.round` lies within half a unit of its argument, ties up |
| Analytics.ShareBounds | src/pages/Analytics.tsx:23 | a part of a whole is a share in [0, 1], 1 only for the whole and 0 only for nothing |
| Analytics.CompletionRate | src/pages/Analytics.tsx:21-23 | within 0..100; 0 without tasks or completions; 100 when every task is completed |
| Analytics.StreakDays | src/pages/Analytics.tsx:33 | the whole hours of study, capped at 30, and 30 iff at least 30 hours |
| Analytics.DaysSinceJoin | src/pages/Analytics.tsx:26 | at least 1, and otherwise the whole days elapsed |
| Analytics.AverageDailyTime | src/pages/Analytics.tsx:27 | the floor of the study minutes per day |
| Analytics.ExpProgress | src/pages/Analytics.tsx:36-40 | for a normalised user the progress bar lies in 0..100 |
| Analytics.ExpStillNeeded | src/pages/Analytics.tsx:124 | positive iff the experience is below the level's requirement |
| Analytics.StudyLeavesExpNeeded | src/pages/Analytics.tsx:36-40 | after any study session the page shows a positive need and a progress within 0..100 |
| Analytics.ShownCountsBound | src/pages/Analytics.tsx:21-22 | completed, in-progress and pending counts add up to the task count less the overdue tasks |
| Analytics.HoursMinutes | src/pages/Analytics.tsx:57-59 | a non-negative total splits into hours and minutes below 60 that recombine to it |
| Analytics.HoursMinutesNegativeExample | src/pages/Analytics.tsx:57-59 | a negative total does not recombine: -1 shows as -1 hours and -1 minutes |
| CardsPage.Filtered | src/pages/Cards.tsx:21-29 | an ordered subsequence of the collection holding exactly the cards that pass the rarity, theme and search tests |
| CardsPage.NoFilterShowsAll | src/pages/Cards.tsx:21-29 | every filter open shows the whole collection |
| CardsPage.SearchIgnoresCase | src/pages/Cards.tsx:24-26 | terms that lower-case alike show the same cards |
| CardsPage.SearchOnlyNarrows | src/pages/Cards.tsx:24-28 | a search term only hides cards shown without it |
| CardsPage.RarityFilterIsGetter | src/pages/Cards.tsx:22 | a rarity choice alone shows the store's rarity getter |
| TasksPage.EstimateInput | src/pages/Tasks.tsx:74 | a parsed non-zero number is taken; no number or 0 gives 30 |
| TasksPage.EstimateInputOfNumber | src/pages/Tasks.tsx:74 | a typed positive number is taken as it is |
| TasksPage.Draft | src/pages/Tasks.tsx:23 | what `addTask(newTask)` receives: the form fields and no due date, actual time or completion |
| TasksPage.ColumnsPartition | src/pages/Tasks.tsx:35-37 | each column holds exactly its status, the columns are disjoint, overdue tasks lie in none, and all four lists count every task once |
| TasksPage.TaskForm.constructor | src/pages/Tasks.tsx:12-19 | a closed form with the blank defaults |
| TasksPage.TaskForm.Open | src/pages/Tasks.tsx:46 | the form opens with its fields kept |
| TasksPage.TaskForm.SetEstimate | src/pages/Tasks.tsx:74 | the estimate becomes `EstimateInput` of the typed text |
| TasksPage.TaskForm.HandleAddTask | src/pages/Tasks.tsx:21-33 | a title that trims to nothing changes nothing; otherwise one task built from the form is appended, and the form is reset and closed |
| Text.TrimEmptyIffBlank | src/pages/Tasks.tsx:22 | a title trims to nothing iff every character is whitespace |
| Text.Trim | src/pages/Tasks.tsx:22 | `trim()` returns no longer a string that neither starts nor ends with whitespace |
| Text.Lower | src/pages/Cards.tsx:25-26 | `toLowerCase()` keeps the length and lower-cases each character (ASCII letters) |
| Text.Includes | src/pages/Cards.tsx:25-26 | `includes`: the term occurs at some position |
| Text.ParseInt | src/pages/Tasks.tsx:74 | decimal `parseInt`, `None` for `NaN`; `ParseIntOfNatToString` states that a printed number reads back |
| Text.ParseIntOfNatToString | src/pages/Tasks.tsx:74 | a printed natural number parses back to itself |
| LoginPage.Validate | src/pages/Login.tsx:26-49 | missing email or password first; then, when signing up, a missing username, then a password mismatch; otherwise login or registration is dispatched with the form's fields; each verdict holds iff its condition holds |
| LoginPage.ErrorMessage | src/pages/Login.tsx:26-39 | the form's message, empty iff the form is dispatched |
| LoginPage.AnswerMessage | src/pages/Login.tsx:41-57 | a refused login or registration shows its own message; a success shows none |
| LoginPage.SignInIgnoresSignUpFields | src/pages/Login.tsx:31-44 | signing in never looks at the username or the confirmation |
| LoginPage.CredentialsCheckedFirst | src/pages/Login.tsx:26-29 | a missing email or password is reported first in both modes |

## Left out

- Login and registration (the simulated latency, the fixed credentials and the user record they build) are asynchronous store calls outside this model. A user enters `AuthStore` through its constructor, and `LoginPage.AnswerMessage` takes the call's success as a parameter. `isLoading` is kept unchanged by every modelled operation. The network-error branch of the sign-in form is not modelled.
- Persistence of the three stores to local storage is storage I/O and is not modelled.
- `Math.random()` values are parameters: the drop rolls, the rarity roll and the card pick. The `toString(36)` ids are fresh strings supplied by the caller.
- `new Date()` is an integer `now` parameter. `getTodayTasks` and `toLocaleDateString` depend on the local calendar and are not modelled. `daysSinceJoin` takes the two instants in milliseconds.
- Interval scheduling and cleanup (`setInterval`, `useEffect`) are not modelled. A tick is an explicit `Tick` method.
- PageTimer.Timer.Tick: passes the current elapsed seconds (the value before the final increment) to `HandleSessionComplete`. In the source, the interval calls the `handleSessionComplete` of the render in which the interval was created. That handler sees the `timeSpent` of that render: the value when the timer was last started or its duration last changed, which is 0 for a fresh session. The effect keyed on the stale value is not modelled.
- ComponentTimer.Timer.Tick: the same choice as on the page, for the elapsed seconds that the break-end completion reads.
- React's double invocation of state updaters in development mode is not modelled. Neither are side effects run inside a `setTimeSpent` updater.
- Progression.RequiredExp: computed exactly as `100*6^(L-1)` divided by `5^(L-1)`, rounded down. The source computes `Math.pow(1.2, L-1)` in IEEE doubles, so at high levels the two may differ by rounding.
- Drop rolls, the completion quality, percentages and `Math.round` are exact `real` arithmetic, not IEEE doubles. `PageTimer.Quality` stands for a `NaN` quotient by `None` and for an infinite one by its 1.5 cap.
- Text.Lower: lower-cases ASCII letters only, whereas `toLowerCase` applies full Unicode case mapping.
- Text.ParseInt: reads decimal digits only. The `0x` prefix of `parseInt` is not modelled.
- Progression.AuthStore.AddStudyTime: requires every stored level to be at least 1 (`LevelOk`). Every user record the store builds has level 3 (login, src/stores/authStore.ts:37) or 1 (registration, src/stores/authStore.ts:89), every modelled operation except `UpdateUser` keeps it, and no caller writes a level through `updateUser`. The requirement curve below level 1 is not modelled.
- JSX rendering, icons, labels, navigation and the other pages are presentation only and are not modelled.
- The idempotence of `pauseTimer` is not a separate member. It follows from `PauseTimer`'s ensures, which keep everything except the running flag.
