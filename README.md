# LcTracker core, modelled in Dafny

LcTracker is a small Android app for tracking coding-practice problems. Each
problem has a title, a solved flag and a difficulty tier (EASY, MEDIUM,
HARD). This project models and proves three parts of the app:

- **The tracker screen** (`LcTrackerApp`, module `Tracker`, `tracker.dfy`).
  The screen keeps five state variables: the problem list, whether the add
  dialog is open, the dialog's title and tier, and the selected filter. Its
  event handlers update them. Here they are the fields of class
  `Tracker.Screen`, with one method per event: collect a loaded list, open
  the dialog, edit the title, choose a tier, click a filter chip, toggle a
  problem, confirm the add, dismiss and cancel. The pure list operations
  behind the handlers are functions: filter by tier, toggle by title, the
  chip rule and the blank-title test. A client method, `TwoProblemSession`,
  verifies a whole session against the class's contracts.
- **The dashboard statistics** (module `Dashboard`, `dashboard.dfy`). This
  covers the counts, the clamped divisor, the per-tier sweep angles and the
  arcs laid end to end from twelve o'clock. Both `LeetcodeDashboard` and
  `AnimatedLeetcodeDashboard` compute them. Angles are exact `real`s.
- **The persisted list** (`DataStoreManager`, module `DataStore`,
  `data_store.dfy`). `saveProblems` turns the list into an array of
  objects, one per problem, with fields `title`, `isSolved` and
  `difficulty` (the enum name), and overwrites the key `problem_list` with
  it. `problemsFlow` decodes that array back. Here an array is a sequence
  of field maps, and the preferences file is one optional slot
  (`DataStore.ProblemStore.problemList`). The field accessors follow
  Android's bundled org.json:
  - `getString` renders any present value as text.
  - `getBoolean` accepts a boolean, or the text `true`/`false` in any
    letter case.
  - `optString` falls back to its default only when the field is absent.
  - `getJSONObject` fails on an element that is not an object.

`wrappers.dfy` holds `Option` (Kotlin's nullable types) and `Result` (a value
or the exception the call throws). `problems.dfy` holds `Difficulty`,
`Problem`, the enum's `name` and `Difficulty.valueOf`.

Where the code and the app's looser description disagree, the model follows
the code:

- **Unknown difficulty fails the load.** A stored difficulty that is not
  exactly `EASY`, `MEDIUM` or `HARD` is not defaulted to EASY.
  `Difficulty.valueOf` throws, so the whole load fails with
  `UnknownDifficulty`. Only an absent `difficulty` field gives EASY.
- **Load failures are not turned into an empty list.** A missing `title`, a
  missing `isSolved`, an `isSolved` that is not a boolean, or an array
  element that is not an object ends the load with an error.
- **The two dashboards show different totals.** `LeetcodeDashboard` shows
  the clamped total, so an empty list reads "/1".
  `AnimatedLeetcodeDashboard` shows the unclamped size. The app composes
  the animated one only for a non-empty list. There their ring numbers
  (solved, denominator, attempting) agree (`Dashboard.DashboardsAgree`),
  though the two lay the numbers out as different texts.

## Model

| member | source | states |
|---|---|---|
| `Problems.ValueOf` | app/src/main/java/com/example/lctracker/data/DataStoreManager.kt:44 | `Difficulty.valueOf` succeeds exactly on the three enum names and returns the constant with that name (the inverse of `name`) |
| `Problems.Name` | app/src/main/java/com/example/lctracker/data/DataStoreManager.kt:27 | the stored name is one of the three enum names, a different one for each tier, in declaration order |
| `Dashboard.SolvedCount` | app/src/main/java/com/example/lctracker/ui/theme/dashboard/LeetcodeDashboard.kt:21 | the solved count never exceeds the list size |
| `Dashboard.AttemptingCount` | app/src/main/java/com/example/lctracker/ui/theme/dashboard/LeetcodeDashboard.kt:22 | solved + attempting = size: every record is one or the other |
| `Dashboard.TierTotal` | app/src/main/java/com/example/lctracker/ui/theme/dashboard/LeetcodeDashboard.kt:24-30 | a tier never holds more records than the list |
| `Dashboard.TierSolved` | app/src/main/java/com/example/lctracker/ui/theme/dashboard/LeetcodeDashboard.kt:23-29 | solved-in-tier ≤ total-in-tier, and ≤ solved overall |
| `Dashboard.TierTotalsPartition` | app/src/main/java/com/example/lctracker/ui/theme/dashboard/LeetcodeDashboard.kt:24-30 | totalEasy + totalMedium + totalHard = size |
| `Dashboard.TierSolvedPartition` | app/src/main/java/com/example/lctracker/ui/theme/dashboard/LeetcodeDashboard.kt:23-29 | easy + medium + hard = solved |
| `Dashboard.Clamped` | app/src/main/java/com/example/lctracker/ui/theme/dashboard/LeetcodeDashboard.kt:20 | `coerceAtLeast(1)`: the divisor is 1 for size 0 and equals the size otherwise, so it is at least 1 and at least the size |
| `Dashboard.DashboardStats` | app/src/main/java/com/example/lctracker/ui/theme/dashboard/LeetcodeDashboard.kt:20-30 | the whole aggregate obeys the count laws: total is 1 for an empty list and the size otherwise, solved + attempting = size, the tier totals sum to size, the tier solved counts sum to solved, each tier's solved ≤ its total |
| `Dashboard.SweepAngle` | app/src/main/java/com/example/lctracker/ui/theme/dashboard/LeetcodeDashboard.kt:57-59 | angle × total = tierSolved × 360; the angle is ≥ 0, and ≤ 360 when tierSolved ≤ total |
| `Dashboard.SweepLinear` | app/src/main/java/com/example/lctracker/ui/theme/dashboard/LeetcodeDashboard.kt:56-60 | two sweeps over one divisor add up to the sweep of the summed counts |
| `Dashboard.SweepAngles` | app/src/main/java/com/example/lctracker/ui/theme/dashboard/LeetcodeDashboard.kt:56-60 | three sweeps, each its tier's share × 360 of the divisor; their sum is the share of easy+medium+hard; when those fit in the divisor each sweep is in [0, 360] and the sum ≤ 360 |
| `Dashboard.SweepsAdd` | app/src/main/java/com/example/lctracker/ui/theme/dashboard/LeetcodeDashboard.kt:56-60 | sweeps over one divisor add up to the sweep of the summed counts, and stay within one turn when the counts fit in the divisor |
| `Dashboard.SweepsBounded` | app/src/main/java/com/example/lctracker/ui/theme/dashboard/LeetcodeDashboard.kt:56-60 | on any list the three sweeps are each in [0, 360], sum to the solved share of the clamped total, and take at most one turn |
| `Dashboard.LaidEndToEnd` | app/src/main/java/com/example/lctracker/ui/theme/dashboard/LeetcodeDashboard.kt:61-66 | one arc per sweep, with that sweep, the first starting at the origin |
| `Dashboard.ArcsEndToEnd` | app/src/main/java/com/example/lctracker/ui/theme/dashboard/LeetcodeDashboard.kt:61 | each arc starts exactly where the previous one ends (`startAngles[i+1] = startAngles[i] + sweepAngles[i]`) |
| `Dashboard.ArcsWithinBudget` | app/src/main/java/com/example/lctracker/ui/theme/dashboard/LeetcodeDashboard.kt:61-70 | non-negative sweeps summing to at most a budget give arcs that stay within [origin, origin + budget] and never overlap a later arc |
| `Dashboard.StartAngles` | app/src/main/java/com/example/lctracker/ui/theme/dashboard/LeetcodeDashboard.kt:61 | `startAngles` has three entries, and entry i plus the -90 offset is exactly where arc i starts when the sweeps are laid end to end from -90 degrees |
| `Dashboard.DashboardArcs` | app/src/main/java/com/example/lctracker/ui/theme/dashboard/LeetcodeDashboard.kt:56-70 | the drawn arcs (`startAngles[i] - 90`, `sweepAngles[i]`) are the tier sweeps laid end to end from -90 degrees; they stay inside one turn and do not overlap |
| `Dashboard.DashboardReadout` | app/src/main/java/com/example/lctracker/ui/theme/dashboard/LeetcodeDashboard.kt:72-87 | the ring's denominator is the clamped total (1 for an empty list, else the size), and solved + attempting = size |
| `Dashboard.TierPairs` | app/src/main/java/com/example/lctracker/ui/theme/dashboard/LeetcodeDashboard.kt:96-98 | each tier chip shows solved ≤ total; the chip totals sum to the size and the chip solved counts sum to solved |
| `Dashboard.EmptyDashboard` | app/src/main/java/com/example/lctracker/ui/theme/dashboard/LeetcodeDashboard.kt:20-30 | an empty list gives divisor 1, every count 0, every sweep 0 and the text "0" over "/1" |
| `Dashboard.AnimatedTargets` | app/src/main/java/com/example/lctracker/ui/theme/LcTrackerApp.kt:215-224 | the animated dashboard's target angles equal the static dashboard's sweeps |
| `Dashboard.AnimatedArcs` | app/src/main/java/com/example/lctracker/ui/theme/LcTrackerApp.kt:236-268 | the `var startAngle = -90f; ... startAngle += angle` updates lay the three arcs end to end from -90 degrees |
| `Dashboard.AnimatedReadout` | app/src/main/java/com/example/lctracker/ui/theme/LcTrackerApp.kt:271-275 | the animated ring's denominator is the unclamped size, and solved + attempting = size |
| `Dashboard.DashboardsAgree` | app/src/main/java/com/example/lctracker/ui/theme/LcTrackerApp.kt:272 | once settled, the animated dashboard draws the same arcs as the static one; their ring numbers (solved, denominator, attempting) agree if and only if the list is non-empty; the differing text layouts are not modelled |
| `DataStore.Encoded` | app/src/main/java/com/example/lctracker/data/DataStoreManager.kt:22-30 | exactly one object per problem, in list order: object i is the encoding of record i |
| `DataStore.EncodeProblem` | app/src/main/java/com/example/lctracker/data/DataStoreManager.kt:24-28 | the object for one record has exactly the fields title, isSolved and difficulty, holding the title, the flag as a boolean and the enum name |
| `DataStore.BuildArray` | app/src/main/java/com/example/lctracker/data/DataStoreManager.kt:22-30 | the `forEach { put }` loop builds exactly that encoding |
| `DataStore.AsText` | app/src/main/java/com/example/lctracker/data/DataStoreManager.kt:42 | `getString` returns a string field unchanged; the text of a boolean reads back as that boolean; the text of null ("null") is neither a difficulty name nor a boolean |
| `DataStore.AsBoolean` | app/src/main/java/com/example/lctracker/data/DataStoreManager.kt:43 | `getBoolean` succeeds exactly on a boolean or on text equal to "true" or "false" ignoring letter case, gives true exactly for `true` or such "true" text and false exactly for `false` or such "false" text, and refuses everything else ("yes", null, numbers) |
| `DataStore.OptString` | app/src/main/java/com/example/lctracker/data/DataStoreManager.kt:44 | `optString` gives the fallback exactly when the field is absent, otherwise the field's text |
| `DataStore.DecodeProblem` | app/src/main/java/com/example/lctracker/data/DataStoreManager.kt:40-45 | an element decodes if and only if it is an object with title, a boolean-like isSolved, and a difficulty that is absent or an exact enum name; the decoded record carries those values, EASY when difficulty is absent |
| `DataStore.DecodeFrom` | app/src/main/java/com/example/lctracker/data/DataStoreManager.kt:39-46 | the load succeeds if and only if every element decodes; the result has the array's length with element i decoded from object i; a failure is the error of the first element that fails |
| `DataStore.Load` | app/src/main/java/com/example/lctracker/data/DataStoreManager.kt:36-39 | an absent key loads as the empty list; a successful load has the array's length |
| `DataStore.DecodeEncoded` | app/src/main/java/com/example/lctracker/data/DataStoreManager.kt:24-44 | one saved record decodes back to itself |
| `DataStore.SaveLoadRoundTrip` | app/src/main/java/com/example/lctracker/data/DataStoreManager.kt:21-46 | loading what `saveProblems(L)` stored gives back `L`, field by field and in order |
| `DataStore.MissingDifficultyIsEasy` | app/src/main/java/com/example/lctracker/data/DataStoreManager.kt:44 | an object without a difficulty field decodes with difficulty EASY |
| `DataStore.UnknownDifficultyFails` | app/src/main/java/com/example/lctracker/data/DataStoreManager.kt:44 | a difficulty text other than the exact enum names fails with `UnknownDifficulty`; it is not defaulted |
| `DataStore.MissingFieldFails` | app/src/main/java/com/example/lctracker/data/DataStoreManager.kt:42-43 | a missing title, or else a missing isSolved, fails with `MissingField` naming that key |
| `DataStore.ProblemStore.constructor` | app/src/main/java/com/example/lctracker/data/DataStoreManager.kt:14-19 | a fresh store has no `problem_list` key |
| `DataStore.ProblemStore.SaveProblems` | app/src/main/java/com/example/lctracker/data/DataStoreManager.kt:21-34 | the key is overwritten with the whole encoding (full replace; the slot is all the store changes), and the next load returns exactly the saved list |
| `DataStore.ProblemStore.Problems` | app/src/main/java/com/example/lctracker/data/DataStoreManager.kt:36-39 | `problemsFlow`'s current emission: an absent key emits the empty list, and a successful emission has one record per stored object |
| `Tracker.OfTier` | app/src/main/java/com/example/lctracker/ui/theme/LcTrackerApp.kt:64 | the tier filter gives an order-preserving subsequence, all of that tier, as long as the tier |
| `Tracker.Filtered` | app/src/main/java/com/example/lctracker/ui/theme/LcTrackerApp.kt:63-65 | no selected tier gives the full list unchanged; a selected tier gives an order-preserving subsequence holding only that tier, as many as the tier has |
| `Tracker.TierSubsequenceBound` | app/src/main/java/com/example/lctracker/ui/theme/LcTrackerApp.kt:64 | no subsequence of a single tier is longer than the tier |
| `Tracker.FilterExact` | app/src/main/java/com/example/lctracker/ui/theme/LcTrackerApp.kt:64 | the filtered list is the only subsequence of that tier with the tier's length: exactly the tier's records in their original order |
| `Tracker.Toggled` | app/src/main/java/com/example/lctracker/ui/theme/LcTrackerApp.kt:103-107 | toggle keeps the length and every title and tier, and flips isSolved on exactly the records with the clicked title, duplicates included |
| `Tracker.ToggleTwice` | app/src/main/java/com/example/lctracker/ui/theme/LcTrackerApp.kt:103-107 | toggling the same title twice restores the list |
| `Tracker.ToggleAbsent` | app/src/main/java/com/example/lctracker/ui/theme/LcTrackerApp.kt:103-107 | toggling a title that is not in the list changes nothing |
| `Tracker.ToggleKeepsTierTotals` | app/src/main/java/com/example/lctracker/ui/theme/LcTrackerApp.kt:103-107 | toggling leaves every tier total unchanged |
| `Tracker.ChipSelected` | app/src/main/java/com/example/lctracker/ui/theme/LcTrackerApp.kt:89 | a chip shows as selected if and only if its tier is the selected one |
| `Tracker.NextSelection` | app/src/main/java/com/example/lctracker/ui/theme/LcTrackerApp.kt:91 | clicking the selected chip clears the filter, clicking another selects it; afterwards only the clicked chip can show selected, and it does exactly when it did not before |
| `Tracker.IsWhitespace` | app/src/main/java/com/example/lctracker/ui/theme/LcTrackerApp.kt:124 | Kotlin's whitespace test: space, tab, newline, carriage return, U+00A0 and U+3000 are whitespace; digits and ASCII letters are not |
| `Tracker.IsBlank` | app/src/main/java/com/example/lctracker/ui/theme/LcTrackerApp.kt:124 | the empty text is blank, and a text is not blank exactly when some character of it is not whitespace (`isNotBlank`) |
| `Tracker.BlankConcat` | app/src/main/java/com/example/lctracker/ui/theme/LcTrackerApp.kt:124 | a text is blank exactly when both its parts are, so surrounding spaces never make a title blank |
| `Tracker.Screen.constructor` | app/src/main/java/com/example/lctracker/ui/theme/LcTrackerApp.kt:47-51 | initial state: empty list, dialog closed with title "" and EASY, no filter |
| `Tracker.Screen.FilteredProblems` | app/src/main/java/com/example/lctracker/ui/theme/LcTrackerApp.kt:63-65 | the shown list is the whole list without a filter, else that tier's records |
| `Tracker.Screen.ShownDashboardMatches` | app/src/main/java/com/example/lctracker/ui/theme/LcTrackerApp.kt:82-83 | whenever the list is non-empty (the only case in which the animated dashboard is composed), it shows the same numbers and arcs as `LeetcodeDashboard` |
| `Tracker.Screen.Collect` | app/src/main/java/com/example/lctracker/ui/theme/LcTrackerApp.kt:55-57 | a successful load replaces the list; a failed one leaves it; nothing else changes |
| `Tracker.Screen.OpenDialog` | app/src/main/java/com/example/lctracker/ui/theme/LcTrackerApp.kt:69 | opens the dialog; nothing else changes |
| `Tracker.Screen.EditTitle` | app/src/main/java/com/example/lctracker/ui/theme/LcTrackerApp.kt:152 | sets the dialog title; nothing else changes |
| `Tracker.Screen.ChooseDifficulty` | app/src/main/java/com/example/lctracker/ui/theme/LcTrackerApp.kt:163-168 | sets the dialog tier; nothing else changes |
| `Tracker.Screen.ClickChip` | app/src/main/java/com/example/lctracker/ui/theme/LcTrackerApp.kt:91 | the selection becomes `NextSelection` of the old one; nothing else changes |
| `Tracker.Screen.ToggleSolved` | app/src/main/java/com/example/lctracker/ui/theme/LcTrackerApp.kt:102-111 | the list becomes its toggle by the clicked title and is saved, so the store loads it back exactly; dialog and filter are unchanged |
| `Tracker.Screen.ConfirmAdd` | app/src/main/java/com/example/lctracker/ui/theme/LcTrackerApp.kt:123-133 | a blank title changes no state at all; otherwise `Problem(title, false, tier)` is appended after the unchanged earlier records, the list is saved and loads back exactly, and the dialog is reset to "" / EASY and closed |
| `Tracker.Screen.Dismiss` | app/src/main/java/com/example/lctracker/ui/theme/LcTrackerApp.kt:117-121 | resets the dialog to closed, "" and EASY without touching the list or the filter |
| `Tracker.Screen.Cancel` | app/src/main/java/com/example/lctracker/ui/theme/LcTrackerApp.kt:139-143 | the same resets as dismissing, without touching the list or the filter |
| `Tracker.AddThroughDialog` | app/src/main/java/com/example/lctracker/ui/theme/LcTrackerApp.kt:69-133 | opening the dialog, typing any non-blank title, choosing a tier and pressing Add appends that unsolved record, saves the list so it loads back, and leaves the dialog closed and reset |
| `Tracker.TwoProblemSession` | app/src/main/java/com/example/lctracker/ui/theme/LcTrackerApp.kt:103-132 | adding "Two Sum" (EASY) and "LRU Cache" (HARD) and toggling "Two Sum" leaves both records saved, and the dashboard shows 1 solved and 1 attempting of 2, EASY 1/1 and HARD 0/1 |

## Left out

- Compose layout and rendering are not modelled: `Scaffold`, cards,
  `Canvas.drawArc`, colours, stroke widths, `ProblemItem`, the
  `DifficultyStat` visuals and `LctrackerTheme.kt`. They only present the
  state.
- Angles are exact reals. The source's `Float` rounding and the
  `animateFloatAsState` easing are not modelled. The animated dashboard is
  modelled at its target angles, as it draws once the animation settles.
- Coroutines are not modelled. Each save launched by a handler is modelled
  as completing before the next event, in event order. The race between two
  launched saves, with last write wins, is left out.
- Tracker.Screen.Collect: models one emission of `problemsFlow`. In the app,
  the `try`/`catch` wraps the whole `collect`. After a load throws, the
  screen stops observing the store for good, and the model does not capture
  that.
- JSON text is not modelled. `JSONArray.toString` and `JSONArray(text)` are
  assumed to round-trip, and the slot holds the parsed elements. String
  escaping, malformed stored text and duplicate object keys are left out.
- DataStore.AsBoolean: folds letter case for ASCII letters only. Java's
  `equalsIgnoreCase` also accepts U+017F (long s) for the `s` of "false".
- A write failure in `saveProblems` is not modelled. It propagates to the
  launching coroutine, and the core does not handle it.
- Only the one key `problem_list` of the `problem_store` preferences file is
  modelled. It is the only key the app writes there.
- `LcTrackerWidget.kt` and `MainActivity.kt` are not part of this model.
  They read counts from `SharedPreferences` and wire up the activity, with
  no logic of their own.
- Tracker.IsWhitespace follows the current Unicode tables for space
  separators. Runtimes with Unicode older than 6.3 also counted U+180E.
