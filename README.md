# Workout tracker core, modelled in Dafny

This project models the logic of a single-page workout tracker whose source is
one JavaScript file, `script.js`. It covers five parts:

- **Local profiles** (`ProfileManager`): creating, selecting and deleting
  profiles, and the one-time move of pre-profile data under a "Default User"
  profile.
- **The per-profile store** (`Store`): the plans and the history log in memory,
  written through to profile-scoped localStorage keys, plus the snapshot of the
  live workout.
- **The workout session** (`App`):
  - start a workout from a plan, resume a snapshot, or redo a logged workout;
  - edit set rows (type a value, add, remove, tick), which re-saves the snapshot;
  - finish a workout, which logs only numeric sets and drops empty exercises;
  - finish from the home view, or discard.
- **Plan editor validation** (`saveCurrentPlan`): the name must not be blank,
  blank exercise rows are dropped, `parseInt(sets) || 3` sets the count, and an
  editing id means update rather than add.
- **Home-view analytics**:
  - the `YYYY-MM-DD` day key;
  - the collected set of workout days;
  - the streak walk back from today or yesterday;
  - the 42-cell month grid;
  - the next-session advice drawn from the heaviest set.

How the model stands in for the browser:

- localStorage is a `Storage` object holding `items: map<Key, Value>`. The
  profile manager and the store share it by reference.
- `Key` has one constructor per key the program reads or writes. `LocalStorage.NameInjective`
  proves that no two keys share a key string (`neon_plans_<id>`, …). So a map
  over `Key` is a faithful view of the string-keyed store.
- JSON is lossless, with one exception. A workout's `startTime` is a `Date` in
  memory (`AsDate`) and ISO text once stored (`AsText`). Only `resumeWorkout`
  turns it back into a `Date`.
- The workout cards on the page are `App.View()`, the rendering of the live
  workout's exercises. A page edit hands `saveWorkoutState` a new list of cards,
  and it scrapes them back into the workout.
- A number input holds either nothing or a number (`Option<real>`). `parseInt`
  of the sets field is `Option<int>`. Ids from `generateId`, the clock (`now`, in
  milliseconds) and `confirm` are parameters.

## Model

| member | source | states |
|---|---|---|
| LocalStorage.NameInjective | script.js:16-17 | the key strings `neon_profiles`, `neon_current_profile`, `neon_plans`, `neon_history`, `neon_plans_<id>`, `neon_history_<id>` and `neon_active_workout_<id>` never coincide, for any profile ids |
| LocalStorage.Storage.SetItem | script.js:49 | `setItem` rebinds one key and leaves every other key as it was |
| LocalStorage.Storage.RemoveItem | script.js:58-59 | `removeItem` drops one key and leaves every other key as it was |
| Lists.FirstIndex | script.js:138 | `findIndex`: the index of the first element with the id, and no earlier element has it; None exactly when no element has it |
| Lists.Find | script.js:161 | `find`: a result is the first element with the id (no earlier element has it); None exactly when no element has it |
| Lists.RemoveKey | script.js:146 | `filter` by id: every element left is from the input and lacks the id, and every input element lacking the id is kept |
| Lists.RemoveKeyAppend | script.js:146 | filtering a concatenation filters each part |
| Lists.RemoveKeyAbsent | script.js:146 | filtering out an id no element has changes nothing |
| Lists.ReplaceFirst | script.js:138-140 | the same length, the first element with the new element's id replaced by it, every other element unchanged |
| Records.CountOr3 | script.js:662 | `n \|\| 3`: never 0; a missing count or 0 gives 3, any other count is kept |
| Records.Serialize | script.js:121 | storing a workout keeps its plan id, plan name, exercises and start instant; the start time becomes text |
| Records.Revive | script.js:724-727 | resuming keeps plan id, plan name, exercises and start instant; the start time is a `Date` again |
| Records.ReviveSerialize | script.js:723-729 | a live workout stored and then resumed is the same workout |
| DataStore.Store.constructor | script.js:99-109 | the lists are what the profile's keys hold, `[]` where a key is missing |
| DataStore.Store.GetPlan | script.js:160-162 | a plan found is the first plan in the list with the id; None exactly when no plan has the id |
| DataStore.Store.SaveActiveWorkout | script.js:120-122 | the snapshot key holds the serialized workout, so `getActiveWorkout` returns it; nothing else changes |
| DataStore.Store.ClearActiveWorkout | script.js:128-130 | the snapshot key is removed, so `getActiveWorkout` returns null; nothing else changes |
| DataStore.Store.SavePlans | script.js:111-113 | the plans key holds the in-memory plans; the history read back is unchanged |
| DataStore.Store.SaveHistory | script.js:115-117 | the history key holds the in-memory history; the plans read back are unchanged |
| DataStore.Store.AddPlan | script.js:132-135 | the plan is appended and persisted; the history is unchanged; memory still agrees with storage |
| DataStore.Store.UpdatePlan | script.js:137-143 | the first plan with the id is replaced and persisted; with no such plan, nothing is written |
| DataStore.Store.DeletePlan | script.js:145-148 | every plan with the id is filtered out and the rest persisted |
| DataStore.Store.AddWorkoutLog | script.js:150-153 | the log becomes the head of the history, the older logs follow in order, persisted |
| DataStore.Store.DeleteWorkoutLog | script.js:155-158 | every log with the id is filtered out and the rest persisted |
| DataStore.Store.ClearData | script.js:164-169 | both lists are empty in memory and in storage |
| Profiles.ProfileManager.constructor | script.js:15-18 | the profiles and the selection are read from storage |
| Profiles.ProfileManager.GetCurrentProfile | script.js:24-26 | the result is the first listed profile with the selected id; None exactly when nothing is selected or no profile has that id |
| Profiles.ProfileManager.SaveProfiles | script.js:48-50 | the profiles key holds the list |
| Profiles.ProfileManager.CreateProfile | script.js:28-37 | a profile with the given id, name and time is appended and persisted; the selection is unchanged |
| Profiles.ProfileManager.SetCurrentProfile | script.js:39-46 | succeeds exactly when a profile has the id, and then selects and persists it; otherwise nothing changes |
| Profiles.ProfileManager.DeleteProfile | script.js:52-66 | the profile is filtered out and persisted; its plans and history keys and, when it was selected, the selection are removed; its snapshot key stays |
| Profiles.ProfileManager.MigrateLegacyData | script.js:69-94 | acts exactly when legacy plans exist and no profile does. It then creates and selects one default profile, copies plans (and history when present) to that profile's keys and removes both legacy keys. Otherwise nothing changes |
| Profiles.MigrateTwice | script.js:69-94 | a second migration reports false, and the state after both calls is exactly the state the first call left (unchanged, or the migrated storage) |
| Session.PrefillRows | script.js:790 | one row per logged set, in order, holding both numbers, unticked |
| Session.RenderCards | script.js:785-818 | one card per exercise in order, each with the rows `ex.sets \|\| ex.prefillSets \|\| Array(ex.defaultSets \|\| 3)` gives, stopping at the first exercise whose count is negative or at least 2^32 (`Array` throws a RangeError) |
| Session.ScrapeCards | script.js:835-866 | one saved exercise per card with its id, name and rows unchanged; rendering the result gives back the same cards |
| Session.RenderScraped | script.js:785-866 | a scraped snapshot renders as the cards it came from |
| Session.KeptSets | script.js:948-956 | no set kept exactly when no row holds a number |
| Session.LoggedExercises | script.js:942-960 | every logged exercise has a set; nothing logged exactly when no card keeps a set |
| Session.KeptSetsAppend | script.js:948-956 | the sets kept from a concatenation are those kept from each part, in order |
| Session.LoggedExercisesAppend | script.js:942-960 | the exercises logged from a concatenation are those logged from each part, in order |
| Session.KeptSetsOfRow | script.js:951-955 | a row is kept exactly when its weight or reps is a number, a missing field stored as 0 |
| Session.LoggedExercisesOfCard | script.js:957-959 | a card is logged under its name exactly when it keeps a set |
| Session.FinishedSets | script.js:948-956 | the push loop over a card's rows collects exactly the kept sets |
| Session.FinishedExercises | script.js:941-960 | the push loop over the cards collects exactly the logged exercises |
| Session.DurationMinutes | script.js:937 | the nearest whole minute to the elapsed time; NaN (None) when the start time is still text |
| Session.FromPlan | script.js:709-714 | one session exercise per plan exercise, with its id, name and `defaultSets` |
| Session.RedoExercises | script.js:738-745 | one new exercise per logged exercise, in order: fresh id, same name, `prefillSets` the logged sets, `defaultSets` their number |
| Session.RedoPlanId | script.js:748 | `log.planId \|\| 'redo'`: never empty, and the log's plan id when it has one |
| Session.FreshSessionLogsNothing | script.js:790-795 | a session just started shows only blank rows, one card per exercise when every count is a length `Array` accepts, and finishing it logs nothing |
| Session.RedoThenFinish | script.js:738-745 | redoing a log and finishing without an edit logs the same exercises again |
| Session.LogEveryCard | script.js:942-960 | cards that each keep one logged exercise's sets log those exercises |
| Session.PrefilledRowsKeepSets | script.js:790-805 | pre-filled rows are all kept and log back as the sets they came from |
| Application.App.View | script.js:775-818 | with no live workout the page shows no workout cards |
| Application.App.StartWorkout | script.js:705-721 | an unknown plan changes nothing. Otherwise the live workout is the plan's id, name and exercises with a `Date` start, and it is persisted as the snapshot |
| Application.App.ResumeWorkout | script.js:723-729 | the live workout is the snapshot with the same plan id, plan name and exercises and a `Date` start |
| Application.App.RedoWorkout | script.js:731-756 | an unknown log id changes nothing; otherwise the workout seeded from the log, with plan id fallback `'redo'`, is live and persisted |
| Application.App.SaveCards | script.js:838-870 | the workout's exercises become the scraped cards, the page is unchanged, and the snapshot holds the workout |
| Application.App.SaveWorkoutState | script.js:835-871 | nothing happens without a live workout; otherwise the workout's exercises become the scraped cards, one per card on the page and in page order (so plan templates become saved `sets`, and exercises after one whose count `Array` refuses are dropped), the page is unchanged, the plan fields and start are kept, and the snapshot holds the workout |
| Application.App.EnterSetValues | script.js:827-829 | the edited row holds the new values and the rest of the page is unchanged; the plan id, plan name and start time stay; the snapshot key is rewritten and every other storage key stays; the workout's exercises are the scraped new cards, one per card |
| Application.App.ToggleSetComplete | script.js:891-909 | the row's tick flips and the rest of the page is unchanged; the plan id, plan name and start time stay; the snapshot key is rewritten and every other storage key stays; the workout's exercises are the scraped new cards, one per card |
| Application.App.RemoveSet | script.js:911-914 | the row is deleted from its card and the rest of the page is unchanged; the plan id, plan name and start time stay; the snapshot key is rewritten and every other storage key stays; the workout's exercises are the scraped new cards, one per card |
| Application.App.AddSetToExercise | script.js:916-927 | an empty unticked row is appended to the card and the rest of the page is unchanged; the plan id, plan name and start time stay; the snapshot key is rewritten and every other storage key stays; the workout's exercises are the scraped new cards, one per card |
| Application.App.FinishWorkout | script.js:929-977 | nothing happens without a live workout. Otherwise the log of the page's numeric sets goes to the head of the history when some exercise survived, and the older logs keep their order. In both branches the snapshot is cleared and the workout set to null |
| Application.App.FinishActiveWorkoutFromHome | script.js:758-766 | with no snapshot nothing changes; otherwise the snapshot is finished as stored: the log goes to the head of the history key when it has an exercise, the snapshot key is removed and every other storage key stays; a log written from a text start time has a NaN (None) duration |
| Application.FinishFromHomeAfterReload | script.js:758-766 | finishing from the home view as written, on a page with no workout cards: the log keeps the plan id, plan name and date but has no exercises |
| Application.FinishFromHomeLosesSets | script.js:929-960 | for a snapshot holding one complete set, the as-written home finish logs nothing while finishing the snapshot's rendering logs that set |
| Application.App.DiscardWorkout | script.js:979-986 | once confirmed, the snapshot and the live workout are cleared and the history is unchanged; unconfirmed, nothing changes |
| Application.App.SaveCurrentPlan | script.js:652-694 | the outcome is the validation's; an alert leaves the store as it was; a new plan is appended, an edited one replaces the first plan with its id (nothing is written when no plan has it); only the plans key is rewritten and every other storage key stays |
| Application.SaveThenResume | script.js:723-729 | saving the page and resuming the snapshot shows the same cards for the same plan and start time |
| PlanEditor.TrimRows | script.js:661 | every row's name trimmed, sets field untouched |
| PlanEditor.Numbered | script.js:660-671 | the templates are at most the rows in number; the `k`-th gets the `k`-th exercise id, a non-empty name and a non-zero set count |
| PlanEditor.NumberedEmpty | script.js:664 | no template exactly when every (trimmed) name is empty |
| PlanEditor.TemplatesEmpty | script.js:660-675 | no exercise survives exactly when every row's name is blank once trimmed |
| PlanEditor.NumberedAppend | script.js:660-671 | rows are numbered one by one, in the editor's order |
| PlanEditor.TemplatesAppend | script.js:660-671 | the exercises kept from two groups of rows are those of the first group followed by those of the second, ids continuing |
| PlanEditor.TemplatesOfRow | script.js:661-670 | a single row is kept exactly when its trimmed name is not empty, under that name with `parseInt(sets) \|\| 3` sets |
| PlanEditor.ValidatePlan | script.js:652-694 | rejects a blank name and, failing that, a plan with no surviving exercise; these are the only errors. A plan has the trimmed name, the surviving exercises and the time. It is an update of the editing id exactly when a non-empty id is set, otherwise an addition under the new id |
| Text.TrimStart | script.js:661 | the result is no longer than the input |
| Text.TrimEnd | script.js:661 | the result is no longer than the input |
| Text.TrimStartMeaning | script.js:661 | the leading part dropped is all whitespace, and what is left starts with a non-whitespace character |
| Text.TrimEndMeaning | script.js:661 | the trailing part dropped is all whitespace, and what is left ends with a non-whitespace character |
| Text.TrimMeaning | script.js:661 | `trim()` is empty exactly when the text is all whitespace, and otherwise starts and ends with non-whitespace |
| Text.Decimal | script.js:320 | `String(n)`: at least one character, all digits, two for 10..99 |
| Text.ParseDecimalInverts | script.js:320 | the digits of `String(n)` read back as `n` |
| Text.Pad2 | script.js:320 | `padStart(2, '0')`: short text is zero-filled to two characters, longer text is unchanged |
| Text.Pad2Inverts | script.js:320 | a padded number below 100 has two characters and reads back as itself |
| Text.IntString | script.js:320 | a leading minus exactly for negative years |
| Text.IntStringInverts | script.js:320 | `String(y)` reads back as `y` |
| DayKeys.DayKey | script.js:320 | the key of a reportable day has dashes at the places `YYYY-MM-DD` puts them |
| DayKeys.DayKeyRoundTrip | script.js:278 | a day key reads back as its year, month and day |
| DayKeys.DayKeyInjective | script.js:320-323 | two reportable days share a key exactly when they are the same day |
| Analytics.CollectWorkoutDates | script.js:273-280 | the collected keys are exactly the keys of the sessions' days |
| Analytics.KeysOfSnoc | script.js:277-279 | one more session adds exactly its day key |
| Analytics.KeysMarkWorkoutDays | script.js:273-323 | a day's key is among the collected keys exactly when some session fell on that day |
| Analytics.RunLengthIgnoresLater | script.js:360-369 | a workout day after `d` does not change the run ending at `d` |
| Analytics.RunLengthStep | script.js:363-365 | a workout day adds one to the run ending the day before |
| Analytics.RunLengthIsRun | script.js:360-369 | the run length counts consecutive workout days ending at `d`, and the day before them is not one |
| Analytics.RunLengthBound | script.js:360-369 | a run is never longer than the number of workout days |
| Analytics.CurrentStreak | script.js:341-372 | the `while (true)` walk returns the streak: 0 without workout days, else the run ending today (or yesterday when today is not a workout day), never more than the number of days |
| Analytics.StreakIsRun | script.js:354-369 | the streak is the length of the run ending today or yesterday, and at most the number of workout days |
| Analytics.RunIsUnique | script.js:360-369 | only one length describes the run ending at a day |
| Analytics.StreakBroken | script.js:357-369 | with neither today nor yesterday a workout day the streak is 0 |
| Analytics.StreakExamples | script.js:341-372 | three consecutive days up to today count 3, still 3 the next day; no days count 0 |
| Analytics.MaxWeight | script.js:1058-1061 | the maximum starts at 0: it is at least every weight, and it is 0 or some set's weight |
| Analytics.FirstWithWeight | script.js:1063 | `find` by weight: the first set with the weight; None exactly when no set has it |
| Analytics.RecommendationMeaning | script.js:1055-1071 | empty sets give no advice. The first set with the maximum weight decides: 12 or more reps suggests the maximum plus 2.5, fewer than 6 suggests form, and anything else gives none |
| Analytics.NegativeWeightsGiveNoAdvice | script.js:1058-1063 | when every weight is negative no set weighs the starting maximum 0, so there is no advice |
| Analytics.RecommendationExamples | script.js:1064-1070 | 100 kg for 12 reps suggests 102.5 kg, 4 reps suggests form, 8 reps gives none |
| Analytics.GetRecommendation | script.js:1055-1071 | the `forEach` maximum followed by the decision yields exactly the advice, none for no sets |
| Analytics.StartDayIndex | script.js:297 | a weekday index below 7 counted from Monday: one day after it is the native (Sunday-first) weekday |
| Analytics.ConstructorYear | script.js:294 | the year `new Date(year, …)` uses: 1900 + year for a year from 0 to 99, the year itself otherwise |
| Analytics.DaysInMonth | script.js:294 | for a month numbered from 0: 28 to 31 days; February has 29 exactly when the year the constructor reads is a Gregorian leap year; April, June, September and November have 30 |
| Analytics.TwoDigitYears | script.js:294 | February of the year written 0 has 28 days (it is 1900), of 2000 and of 4 (1904) 29, of 1900 28 |
| Analytics.BuildMonthGrid | script.js:293-336 | exactly 42 cells: leading empty cells up to the Monday-based weekday, one cell per day of the month (its length from `DaysInMonth`) marked today or active by its day key, and trailing empty cells |

## Left out

- DOM construction, HTML templates and class toggling are not modelled. The page is the list of cards `App.View()` renders, and a button or input is an index into it. The same goes for `Router`, `confirm`/`alert`/`prompt`, `location.reload`, `console.log` and the header and date texts (`updateDate`, `toLocaleDateString`).
- Application.App.FinishActiveWorkoutFromHome: reads the cards as the rendering of the stored snapshot. In the program, `finishWorkout` scrapes whatever workout cards the page holds. Right after a reload the page holds none, so the program logs nothing; see "## Findings".
- Application.App.EnterSetValues: saves the typed value at once. When rendering throws on a set count `Array` refuses, the program never reaches the input listeners of script.js:827-829, so typing into the rows rendered before the throw is not saved until a button's `onclick` (add, tick, remove) saves the page. The buttons are inline handlers and keep working.
- Aliasing: `startWorkout` shares `plan.exercises` by reference. Nothing mutates that array afterwards, so the model copies values.
- `generateId` (clock and `Math.random`) becomes parameters (`logId`, `newPlanId`, `exerciseId`, `newId`), assumed fresh.
- Wall-clock time is not modelled:
  - `Date` is integer milliseconds; ISO strings and `toISOString` are not modelled.
  - Local calendar days are given as `CivilDate` values or integer day numbers, so "yesterday" is `d - 1` and `setDate` rollover is not modelled.
  - `new Date(year, month, 1).getDay()` is an input of `BuildMonthGrid`; the month's length is computed by `DaysInMonth`.
- `parseFloat`, `parseInt` and number-input text are inputs: `Option<real>` for the inputs, `Option<int>` for `parseInt`. IEEE floating point (NaN apart) and what a raw numeric string looks like after `saveWorkoutState` are not modelled.
- JSON text is not modelled: stored values are kept as values. When a `Date` is stored it becomes text, and that change is kept.
- Storage quota errors and concurrent tabs are not modelled.
- `App.init`, `loadProfile`, profile and settings views, plan list rendering, history rendering and `deleteLog`'s confirm wrapper are outside this model. `deletePlan`'s wrapper is outside it too, but the store operations underneath are modelled.
- Text.TrimStart and Text.TrimEnd state only a length bound in their own contracts. What they strip is stated by `TrimStartMeaning` and `TrimEndMeaning`.
- The sets field of a plan may hold a negative count, or one of 2^32 or more: `parseInt` keeps either. No bound is enforced, so such a count reaches rendering, where `Array` throws (`RenderCards` stops there).

## Findings

| source | as written | input that shows it | evidently intended | confidence | as-written member | corrected member |
|---|---|---|---|---|---|---|
| script.js:758-766 | `finishActiveWorkoutFromHome` puts the snapshot in `currentWorkout` and calls `finishWorkout`, which scrapes the workout cards on the page (script.js:941) instead of the snapshot; after a reload the page holds none, so nothing is logged and the snapshot is then cleared. `loadProfile` (script.js:382-391) clears neither the page nor `currentWorkout`, so after a switch away from a profile with a workout on the page, the same path logs that workout's cards under the new profile's snapshot header | a reload, then Finish on the home view's active session card for a snapshot holding the set (100 kg, 5 reps) | the snapshot's sets are logged: the comment at script.js:762-763 says the stored sets are to be filtered as `finishWorkout` filters them | not executed; assumes the page's workout list starts empty, as `renderWorkoutView` is the only code that fills it | Application.FinishFromHomeAfterReload (shown by Application.FinishFromHomeLosesSets) | Application.App.FinishActiveWorkoutFromHome |
