# Period tracker: a verified model of the prediction core

This project models the computational core of a menstrual-cycle tracker in Dafny and
proves properties of it. The tracker has two parts. A web application keeps a history
of cycle entries in a central store and derives cycle lengths and their average from
that history. It projects the next period, the ovulation day and the fertile window,
scores how predictable the history is, and protects the application with a four-digit
PIN that locks out after three wrong attempts. An Android calculator projects next
periods and fertile windows from a single start date, summarises a list of start dates,
and validates calendar dates.

The modules follow the program's structure:

- `Types` (`types.dfy`): the shared records: cycle entry, history, prediction,
  preferences and analytics. Calendar dates are whole-day numbers. The sum of a list
  and the gaps between consecutive dates are defined here once, for both parts.
- `EntryOrder` (`entry_order.dfy`): the stable sort of entries by start date, which the
  store and the accuracy evaluator both use.
- `Prediction` (`prediction.dfy`): the prediction engine:
  - the weighted average cycle length;
  - the variance, standard deviation and confidence;
  - the projection itself;
  - the most common length;
  - the historical accuracy (an in-place sort of an array followed by a counting loop);
  - entry validation and the fertility status of a day.
- `AppStore` (`app_store.dfy`): the store as a class. Its entries, derived lengths,
  average, prediction, preferences and flags are fields. Its actions are methods, and
  `Store.Valid` states that the derived fields always agree with the entries.
- `Pin` (`pin.dfy`): the PIN hook. Its attempt-state reducer is a function, one
  verification attempt is the value-level `VerifyStep`, and the hook is a class over
  the stored hash and the store.
- `UsePrediction` (`use_prediction.dfy`): the prediction hook and the confidence bands.
- `App` (`app.dfy`): the UI reducer, the render step and the handler that turns the
  selected date into a new entry. The handler chooses the new entry's cycle length from
  the gap to the entry last in the store's list. Every render first computes the
  analytics, and that sorts the store's list in place by date. So when the handler runs,
  the last entry is the latest-dated one, not the one added most recently.
- `PeriodCalc` (`period_calculator.dfy`): the Android `PeriodCalculator`, a class with
  the fields `lastPeriodStart` and `cycleLength`, together with its static helpers.

## Model

Source paths below are relative to the repository root. `prediction.ts` is
`src/utils/prediction.ts`, and so on, as written in each cell.

| member | source | states |
|---|---|---|
| EntryOrder.InsertByDate | src/store/appStore.ts:159-161 | Inserting an entry yields the old entries plus that entry (as a multiset), one longer |
| EntryOrder.InsertByDateSorted | src/store/appStore.ts:159-161 | Inserting into a list in date order keeps it in date order |
| EntryOrder.InsertByDateAtMost | src/store/appStore.ts:159-161 | Inserting keeps every date within any bound that the inserted date also respects |
| EntryOrder.InsertByDateDates | src/store/appStore.ts:159-161 | The dates after insertion are the old dates plus the new one, as a multiset |
| EntryOrder.SortByDate | src/store/appStore.ts:159-161 | The sorted list is in date order and is a permutation of the input, both as entries and as dates |
| EntryOrder.SortedDatesAscending | src/store/appStore.ts:159-161 | The dates of a list in date order are ascending |
| EntryOrder.SortByDateOfSorted | src/utils/prediction.ts:137-139 | A list already in date order is returned unchanged |
| EntryOrder.AscendingUnique | src/store/appStore.ts:159-161 | Two ascending date sequences holding the same dates are equal |
| EntryOrder.WithDate | src/store/appStore.ts:159-161 | The entries with a given start date, each as often as it occurs, and no other |
| EntryOrder.InsertByDateWithDate | src/store/appStore.ts:159-161 | Insertion places the new entry after every entry with the same start date |
| EntryOrder.SortByDateStable | src/utils/prediction.ts:137-139 | The sort is stable: entries with the same start date keep their relative order |
| EntryOrder.SortedDatesDependOnlyOnDates | src/store/appStore.ts:159-161 | The sorted dates depend only on which dates occur, not on insertion order |
| Prediction.Round | src/utils/prediction.ts:40 | `Math.round`: the result lies within half a unit of x, and halves round up |
| Prediction.RoundWithin | src/utils/prediction.ts:40 | Rounding a value between two integers stays between them |
| Prediction.Clamp | src/utils/prediction.ts:35 | The clamped length lies in [21, 35], is unchanged inside that range, and is the nearer bound outside it |
| Prediction.WeightedSumBounds | src/utils/prediction.ts:33-38 | The weighted sum of clamped lengths lies between 21 and 35 times the total weight |
| Prediction.WeightedAverageCycleLength | src/utils/prediction.ts:25-41 | An empty history gives 28. Otherwise the result lies in [21, 35] and within half a day of the weighted sum divided by the total weight |
| Prediction.ComputeWeightedAverageCycleLength | src/utils/prediction.ts:25-41 | The accumulation loop with real weights (i+1)/n returns exactly `WeightedAverageCycleLength` |
| Prediction.WeightedSumStep | src/utils/prediction.ts:33-36 | Position i adds weight i+1 times its clamped length to the weighted sum |
| Prediction.WeightedAccumulation | src/utils/prediction.ts:34-36 | The running weighted sum equals the weighted sum of the prefix divided by n |
| Prediction.WeightAccumulation | src/utils/prediction.ts:34-37 | The running weight equals the total weight of the prefix divided by n |
| Prediction.WeightedSumConstant | src/utils/prediction.ts:33-38 | A constant history's weighted sum is its clamped value times the total weight |
| Prediction.WeightedAverageOfConstant | src/utils/prediction.ts:25-41 | A history of one repeated length averages to that length clamped into [21, 35] |
| Prediction.WeightedAverageOfSingle | src/utils/prediction.ts:25-41 | A single length is returned clamped |
| Prediction.CycleVariance | src/utils/prediction.ts:46-62 | An empty list gives (0, 0, 28). Otherwise variance and deviation are non-negative, the deviation is zero exactly when the variance is, and the average times n is the sum |
| Types.SumWithin | src/utils/prediction.ts:55 | Lengths in [lo, hi] have a sum between lo·n and hi·n |
| Prediction.TwoLengthsVariance | src/utils/prediction.ts:46-62 | Two lengths a and b have variance ((a - b)/2)²: the squared deviations are divided by n = 2, not by n - 1 |
| Prediction.VarianceExample | src/utils/prediction.ts:46-62 | Lengths 26, 28 and 30 have average 28 and variance 8/3, where a sample variance would be 4 |
| Prediction.MeanWithin | src/utils/prediction.ts:55 | Lengths in [lo, hi] have a mean in [lo, hi] |
| Prediction.SquaredDeviationsZero | src/utils/prediction.ts:56-58 | The sum of squared deviations is zero exactly when every length equals the reference value |
| Prediction.VarianceZeroIffAllEqual | src/utils/prediction.ts:46-62 | The variance is zero exactly when all lengths are equal, and then the average is that length |
| Prediction.Confidence | src/utils/prediction.ts:67-72 | The confidence lies in [0.3, 1]. An empty history scores 1. A zero total over lengths that are not all zero scores the floor 0.3 |
| Prediction.ZeroTotalSpread | src/utils/prediction.ts:55-60 | Lengths with a zero total that are not all zero have mean 0 and a positive deviation, so the coefficient of variation is infinite rather than undefined |
| Prediction.ConfidenceOneIffRegular | src/utils/prediction.ts:67-72 | With a positive total, the confidence is 1 exactly when every length is equal |
| Prediction.EffectiveCycleLength | src/utils/prediction.ts:83-86 | The cycle length used for the projection lies in [21, 35] |
| Prediction.CalculatePrediction | src/utils/prediction.ts:77-106 | The next start is the last start plus the effective length. The period lasts 5 more days and ovulation is 14 days before the next start. The window runs from 5 days before ovulation to 1 day after. The confidence is the history's. The dates are strictly ordered after the last start |
| Prediction.PrefixCountMonotone | src/utils/prediction.ts:118-124 | A value's count over a prefix never exceeds its count over a longer prefix |
| Prediction.FirstModeUnique | src/utils/prediction.ts:111-127 | At most one value is the first to reach the top frequency, so the tie-break determines the answer |
| Prediction.PrefixMultisetStep | src/utils/prediction.ts:118-119 | Extending the prefix by one length adds that length to the counted multiset |
| Prediction.GetMostCommonCycleLength | src/utils/prediction.ts:111-127 | An empty list gives 28. Otherwise the result occurs in the list, has maximal frequency, and reached that frequency before any other value did |
| Prediction.AccuratePair | src/utils/prediction.ts:147-155 | A pair is accurate exactly when the earlier start plus its recorded length lands within two days of the later start, on either side |
| Prediction.AccurateCount | src/utils/prediction.ts:143-158 | There are at most n-1 accurate pairs, and none for fewer than two entries |
| Prediction.HistoricalAccuracy | src/utils/prediction.ts:132-161 | The score lies in [0, 100], and fewer than two entries score 0 |
| Prediction.Percent | src/utils/prediction.ts:160 | k of n as a percentage lies in [0, 100], and is 100 exactly when k = n |
| Prediction.FractionFacts | src/utils/prediction.ts:160 | A fraction k/n with 0 ≤ k ≤ n lies in [0, 1], and is 1 exactly when k = n |
| Prediction.AccurateCountAll | src/utils/prediction.ts:143-158 | The count is n-1 exactly when every consecutive pair is accurate |
| Prediction.HistoricalAccuracyFullCount | src/utils/prediction.ts:132-161 | The score is 100 exactly when the count of accurate pairs is n-1 |
| Prediction.HistoricalAccuracyFull | src/utils/prediction.ts:132-161 | The score is 100 exactly when every date-consecutive pair is accurate |
| Prediction.Overwrite | src/utils/prediction.ts:137-139 | The array afterwards holds the given sequence (the write-back of the in-place sort) |
| Prediction.AccurateCountStep | src/utils/prediction.ts:143-158 | Each step of the loop adds the pair it closes |
| Prediction.CountAccuratePairs | src/utils/prediction.ts:141-158 | The counting loop over the array returns `AccurateCount` of its contents |
| Prediction.CalculateHistoricalAccuracy | src/utils/prediction.ts:132-161 | The caller's array is sorted in place by date, and the result is `HistoricalAccuracy` of the original contents |
| Prediction.ValidateCycleEntry | src/utils/prediction.ts:166-168 | A length is valid exactly when it lies in [21, 35]. The date is ignored |
| Prediction.ValidateIffClampFixed | src/utils/prediction.ts:166-168 | Validation accepts exactly the lengths that clamping leaves unchanged |
| Prediction.GetFertilityStatus | src/utils/prediction.ts:173-198 | The first match wins: menstrual, then ovulation, then fertile, each range inclusive |
| Prediction.FertilityOfPrediction | src/utils/prediction.ts:173-198 | On a projected cycle, a day's status depends only on its offset from the next start: 0..5 menstrual, -14 ovulation, -19..-13 except -14 fertile, anything else other |
| AppStore.GapLength | src/store/appStore.ts:165-170 | One step contributes its gap exactly when the gap lies in [21, 35], and the gap leads from one start to the next |
| AppStore.PlausibleGaps | src/store/appStore.ts:163-173 | The kept gaps lie in [21, 35]. There are none for fewer than two dates, and at most one per consecutive pair |
| AppStore.PlausibleGapsAreGaps | src/store/appStore.ts:163-173 | Every kept length is the gap between some two consecutive dates |
| AppStore.PlausibleGapsComplete | src/store/appStore.ts:163-173 | When every gap is plausible, all are kept and they add up to the span from first date to last |
| AppStore.KeepPlausible | src/store/appStore.ts:168-170 | The filter keeps each value in [21, 35] as often as it occurs, and no other value |
| AppStore.PlausibleGapsFilter | src/store/appStore.ts:163-173 | The kept lengths are exactly the consecutive gaps with the implausible ones filtered out, in order |
| AppStore.PlausibleGapsKeepEveryPlausible | src/store/appStore.ts:163-173 | Every plausible gap between consecutive dates is kept |
| AppStore.CycleLengths | src/store/appStore.ts:156-174 | The derived lengths lie in [21, 35]. There are none for fewer than two entries, and at most n-1 |
| AppStore.CycleLengthsOrderIndependent | src/store/appStore.ts:156-174 | The derived lengths depend only on which start dates occur |
| AppStore.CycleLengthsFilter | src/store/appStore.ts:156-174 | A history's lengths are the gaps between its date-sorted starts, with the implausible ones filtered out |
| AppStore.CycleLengthsOfRegularHistory | src/store/appStore.ts:156-174 | A history whose gaps are all plausible has n-1 lengths, summing to its span |
| AppStore.PlausibleGapsStep | src/store/appStore.ts:164-171 | Each loop step appends the gap it examines if that gap is plausible |
| AppStore.CollectPlausibleGaps | src/store/appStore.ts:163-173 | The loop over sorted entries returns `PlausibleGaps` of their dates |
| AppStore.ComputeCycleLengths | src/store/appStore.ts:156-174 | The computation (sort a copy, then collect) returns `CycleLengths` |
| AppStore.AverageCycleLength | src/store/appStore.ts:53-56 | No lengths give 28. Otherwise the result is within half a day of the mean |
| AppStore.AverageCycleLengthWithin | src/store/appStore.ts:53-56 | Lengths in [21, 35] have a rounded average in [21, 35] |
| AppStore.PlausibleLengthsConfidenceDefined | src/store/appStore.ts:82 | Derived lengths have a positive total, so the confidence divides by a positive mean |
| AppStore.HistoryOf | src/store/appStore.ts:47-58 | The rebuilt history keeps the entries. Its lengths lie in [21, 35], its average in [21, 35], and its confidence is defined |
| AppStore.RecomputeHistory | src/store/appStore.ts:47-58 | Deriving the lengths and then averaging them gives `HistoryOf` the entries |
| AppStore.RemoveById | src/store/appStore.ts:109 | The kept entries are exactly those whose id differs, each as often as before |
| AppStore.RemoveByIdSnoc | src/store/appStore.ts:109 | Deleting from a list with one more entry keeps that entry last when its id differs, and drops it otherwise |
| AppStore.RemoveByIdAppend | src/store/appStore.ts:109 | Deleting distributes over concatenation, so the kept entries stay in their original order |
| AppStore.RemoveAbsentId | src/store/appStore.ts:109 | Deleting an id no entry has changes nothing |
| AppStore.RemoveByIdIdempotent | src/store/appStore.ts:109 | Deleting twice is deleting once |
| AppStore.RemoveUndoesAppend | src/store/appStore.ts:109 | Deleting the id of an entry just appended, with a fresh id, restores the entries |
| AppStore.MergePreferences | src/store/appStore.ts:65-69 | The empty patch changes nothing |
| AppStore.MergePreferencesIdempotent | src/store/appStore.ts:65-69 | Merging the same patch twice is merging it once |
| AppStore.MergePreferencesThen | src/store/appStore.ts:65-69 | Two successive merges are one merge with the combined patch, where the later patch wins |
| AppStore.DarkModePatch | src/store/appStore.ts:77 | Merging this patch sets the dark-mode preference and nothing else |
| AppStore.Store.constructor | src/store/appStore.ts:35-43 | The empty history with average 28, no prediction, default preferences, both flags off |
| AppStore.Store.GeneratePrediction | src/store/appStore.ts:80-85 | Only the current prediction changes, and it becomes the projection from the given date |
| AppStore.Store.AddCycleEntry | src/store/appStore.ts:45-63 | The entry is appended, the derived parts are recomputed (`Valid`), and the prediction is made from the new entry's date. Nothing else changes |
| AppStore.Store.DeleteCycleEntry | src/store/appStore.ts:107-123 | Entries with the id are removed and the derived parts recomputed. The prediction and everything else is kept |
| AppStore.Store.UpdatePreferences | src/store/appStore.ts:65-69 | Only the preferences change: they are merged with the patch |
| AppStore.Store.SetPinLocked | src/store/appStore.ts:71-73 | Only the lock flag changes |
| AppStore.Store.SetDarkMode | src/store/appStore.ts:75-78 | The display flag and the stored preference both take the value. Nothing else changes |
| AppStore.Store.GetAnalytics | src/store/appStore.ts:87-105 | The analytics are the variance, mean and deviation of the lengths, the first mode, 100 × confidence (in [30, 100]), 5, and the accuracy. The stored entries end up sorted by date, with lengths and average unchanged |
| AppStore.SortedDerived | src/store/appStore.ts:87-105 | Sorting a derived history's entries by date keeps its lengths and average, so the store stays consistent after the analytics sort |
| AppStore.DeleteUndoesAdd | src/store/appStore.ts:107-123 | Adding an entry with a fresh id and deleting that id gives back the same history |
| Pin.PinReducer | src/hooks/usePin.ts:24-35 | Each action replaces the field it names, and the reset restores the initial state |
| Pin.SetAttemptsLastWins | src/hooks/usePin.ts:26-27 | Setting the counter twice keeps only the later value |
| Pin.SetAttemptsAndLockoutCommute | src/hooks/usePin.ts:26-29 | Counter and deadline updates commute |
| Pin.RemainingLockoutTime | src/hooks/usePin.ts:95-99 | The result is never negative. It is 0 with no (or a zero) deadline, the time left before the deadline, and 0 after it |
| Pin.IsLockedOut | src/hooks/usePin.ts:108 | With no deadline the flag is off. With a non-zero deadline it is on exactly while some lockout time remains |
| Pin.LockedOutIffRefuses | src/hooks/usePin.ts:108 | For a non-zero deadline, the locked-out flag and the guard that refuses verification agree |
| Pin.RemainingWithinDuration | src/hooks/usePin.ts:95-99 | A lockout started at t leaves at most five minutes, and none once they have passed |
| Pin.VerifyStep | src/hooks/usePin.ts:60-87 | An attempt is accepted exactly when no lockout is running, the PIN is non-empty and its hash is the stored one. Acceptance resets the state, and a refusal under lockout or with no stored hash leaves it alone |
| Pin.OnlyStoredPinAccepted | src/hooks/usePin.ts:69-75 | Only the PIN whose hash is stored is ever accepted |
| Pin.StoredPinAccepted | src/hooks/usePin.ts:69-75 | The stored PIN is accepted whenever no lockout is running |
| Pin.WrongPinCounted | src/hooks/usePin.ts:77-82 | A wrong PIN counts one more failure and arms a five-minute lockout at the third |
| Pin.ThreeFailuresLockOut | src/hooks/usePin.ts:60-87 | Three wrong PINs from the initial state lock out. During the lockout even the right PIN is refused |
| Pin.ExpiredLockoutRelocksOnFailure | src/hooks/usePin.ts:77-82 | The counter is not reset when a lockout expires, so the next wrong PIN locks out again at once |
| Pin.PinFormatOk | src/hooks/usePin.ts:48 | A PIN can be stored exactly when it is four ASCII digits |
| Pin.EnablePinPatch | src/hooks/usePin.ts:54 | Merging the patch enables the lock and records the PIN, and nothing else |
| Pin.DisablePinPatch | src/hooks/usePin.ts:91 | Merging the patch disables the lock and clears the PIN, and nothing else |
| Pin.PinLock.constructor | src/hooks/usePin.ts:37-40 | The attempt state starts at zero attempts with no deadline |
| Pin.PinLock.SetPin | src/hooks/usePin.ts:46-58 | A well-formed PIN has its hash stored and the preferences enabled. A malformed one changes nothing |
| Pin.PinLock.VerifyPin | src/hooks/usePin.ts:60-87 | The answer and the new attempt state are those of `VerifyStep`. Success unlocks the application, and failure leaves the flag alone |
| Pin.PinLock.DisablePin | src/hooks/usePin.ts:89-93 | The hash is forgotten, the lock is disabled and cleared in the preferences, and the application is unlocked |
| Pin.DisabledPinRejectsAll | src/hooks/usePin.ts:66-67 | With no stored hash, no attempt is accepted and the counter is untouched |
| UsePrediction.UsePredictionOf | src/hooks/usePrediction.ts:9-23 | No date gives no prediction and confidence 0. A date gives the engine's prediction from it, with a confidence in [0.3, 1] |
| UsePrediction.ViewConfidenceMatchesPrediction | src/hooks/usePrediction.ts:18-21 | The reported confidence is the prediction's own |
| UsePrediction.Rank | src/hooks/usePrediction.ts:29-32 | Each band has a rank of at most 3, used to order Low below Medium below High below Very High |
| UsePrediction.LevelOf | src/hooks/usePrediction.ts:29-32 | The four bands are ≥ 0.8, [0.6, 0.8), [0.4, 0.6) and < 0.4, each an if-and-only-if |
| UsePrediction.LevelMonotone | src/hooks/usePrediction.ts:25-34 | A higher score never gets a lower band |
| UsePrediction.UseConfidenceLevel | src/hooks/usePrediction.ts:25-34 | The label is "Very High", "High", "Medium" or "Low" exactly when the history's confidence is ≥ 0.8, in [0.6, 0.8), in [0.4, 0.6) or < 0.4 |
| UsePrediction.EmptyHistoryVeryHigh | src/hooks/usePrediction.ts:25-34 | An empty history is labelled "Very High" |
| UsePrediction.RegularHistoryVeryHigh | src/hooks/usePrediction.ts:25-34 | A perfectly regular history is labelled "Very High" |
| UsePrediction.ZeroTotalLow | src/hooks/usePrediction.ts:25-34 | Lengths that cancel to a zero total, not all zero, are labelled "Low" |
| App.UiReducer | src/App.tsx:27-36 | Each action replaces the one field it names |
| App.UiReducerIdempotent | src/App.tsx:27-36 | Dispatching the same action twice is dispatching it once |
| App.UiReducerFieldsCommute | src/App.tsx:27-36 | Actions on different fields commute |
| App.LastEntryStart | src/App.tsx:75-77 | The start of the entry last in the list, absent exactly for an empty list |
| App.LatestStart | src/App.tsx:75-77 | The latest start date of any entry: it is some entry's date and no date exceeds it, absent exactly for an empty list |
| App.SortedLastIsLatest | src/utils/prediction.ts:137-139 | In a list in date order, the last entry's start is the latest start |
| App.AddAfterRender | src/App.tsx:58 | After a render the last start is the latest, and adding an entry no earlier than it extends the lengths by its gap if plausible |
| App.ChooseCycleLength | src/App.tsx:74-84 | The length is the default or a plausible gap. With no entry it is the default, a plausible gap from the given start is taken as is, and any other gap gives the default |
| App.NewEntryCycleLength | src/App.tsx:74-84 | The default-then-override code returns `ChooseCycleLength` |
| App.AscendingLastIsMax | src/store/appStore.ts:159-161 | The last of an ascending sequence is the largest of any sequence with the same elements |
| App.LatestSortedDate | src/store/appStore.ts:159-161 | The last sorted date is a date of the history and no date exceeds it |
| App.SortAppend | src/store/appStore.ts:159-161 | Sorting one more entry inserts it into the sorted history |
| App.InsertLatest | src/store/appStore.ts:159-161 | An entry no earlier than the last goes at the end |
| App.SortedLastBounded | src/store/appStore.ts:159-161 | A bound on every date bounds the last sorted date |
| App.SortAppendLatest | src/store/appStore.ts:159-161 | Appending an entry no earlier than all others puts it last in the sorted history |
| App.LastSortedDate | src/store/appStore.ts:159-161 | When the last entry is also the latest, its date is the last sorted date |
| App.PlausibleGapsAppend | src/store/appStore.ts:164-171 | One more date adds at most the one gap it closes |
| App.CycleLengthsAsGaps | src/store/appStore.ts:156-174 | For a non-empty history, the lengths are the plausible gaps of its sorted dates |
| App.SortedDatesAppendLatest | src/store/appStore.ts:159-161 | Adding a latest entry appends its date to the sorted dates |
| App.CycleLengthsAppendLatest | src/store/appStore.ts:156-174 | Adding a latest entry extends the lengths by its gap from the last entry, if plausible |
| App.ChosenLengthMatchesStore | src/App.tsx:74-84 | When entries are added in date order, a plausible gap puts the chosen length into the store's lengths, and any other gap adds nothing |
| App.AppShell.constructor | src/App.tsx:38-41 | No date selected and settings closed |
| App.AppShell.Render | src/App.tsx:58 | Computing the analytics leaves the store's entries sorted by date and the store valid, and reports the accuracy of the entries as they were |
| App.AppShell.Dispatch | src/App.tsx:38-41 | The UI state becomes the reducer's result |
| App.AppShell.HandleAddCycleEntry | src/App.tsx:68-95 | Runs after a render. Without a selected date nothing changes. Otherwise it appends one entry with the selected date and the length chosen from the latest start, predicts from that date, and clears the selection. A date no earlier than the latest start extends the store's lengths by that gap, if plausible |
| PeriodCalc.DateRange.ContainsDate | app/src/main/java/com/example/periodtracker/PeriodCalculator.java:225-227 | A date is in the range exactly when it is no earlier than the start and no later than the end: both ends are included |
| PeriodCalc.ContainsDateIffMember | app/src/main/java/com/example/periodtracker/PeriodCalculator.java:225-227 | `containsDate` holds exactly for the days of the closed interval from start to end |
| PeriodCalc.SanitizedLength | app/src/main/java/com/example/periodtracker/PeriodCalculator.java:28 | Positive lengths are kept, and the rest become 28 |
| PeriodCalc.PeriodCalculator.constructor | app/src/main/java/com/example/periodtracker/PeriodCalculator.java:26-29 | The start is stored and the length sanitised, so it is positive |
| PeriodCalc.PeriodCalculator.SetLastPeriodStart | app/src/main/java/com/example/periodtracker/PeriodCalculator.java:193-195 | Only the start changes |
| PeriodCalc.PeriodCalculator.SetCycleLength | app/src/main/java/com/example/periodtracker/PeriodCalculator.java:201-203 | Only the length changes, and it is sanitised |
| PeriodCalc.PeriodCalculator.GetNextPeriodDate | app/src/main/java/com/example/periodtracker/PeriodCalculator.java:35-40 | Absent exactly without a start. Otherwise it is one cycle length after the start, hence later |
| PeriodCalc.PeriodCalculator.GetFertileWindow | app/src/main/java/com/example/periodtracker/PeriodCalculator.java:48-57 | Days 12 to 16 after the start, whatever the cycle length |
| PeriodCalc.PeriodCalculator.GetFertileWindowForCycle | app/src/main/java/com/example/periodtracker/PeriodCalculator.java:64-74 | The window of cycle k is days 12 to 16 after start + k × length |
| PeriodCalc.PeriodCalculator.GetDaysUntilNextPeriod | app/src/main/java/com/example/periodtracker/PeriodCalculator.java:80-88 | -1 without a start. Otherwise today plus the result is the next period date |
| PeriodCalc.PeriodCalculator.GetDaysUntilFertileWindow | app/src/main/java/com/example/periodtracker/PeriodCalculator.java:94-102 | -1 without a start. Otherwise today plus the result is the window start |
| PeriodCalc.PeriodCalculator.IsTodayInFertileWindow | app/src/main/java/com/example/periodtracker/PeriodCalculator.java:108-116 | True exactly when there is a window and it contains today |
| PeriodCalc.NextPeriodAfterIsLinear | app/src/main/java/com/example/periodtracker/PeriodCalculator.java:35-40 | Taking the next-period date k times moves k whole cycles |
| PeriodCalc.AdvanceCycles | app/src/main/java/com/example/periodtracker/PeriodCalculator.java:193-195 | Re-starting the calculator at its own next-period date k times moves the start by k cycle lengths |
| PeriodCalc.FertileWindowForCycleShifts | app/src/main/java/com/example/periodtracker/PeriodCalculator.java:64-74 | Cycle 0 is the current window, and each later window is the previous one moved by one cycle length |
| PeriodCalc.FertileWindowsDisjoint | app/src/main/java/com/example/periodtracker/PeriodCalculator.java:64-74 | With cycles longer than four days, windows of different cycles never share a day |
| Types.Gaps | app/src/main/java/com/example/periodtracker/PeriodCalculator.java:131-137 | One gap per consecutive pair, each the later date minus the earlier, in list order |
| PeriodCalc.GapsTelescope | app/src/main/java/com/example/periodtracker/PeriodCalculator.java:131-137 | The gaps add up to last date minus first |
| PeriodCalc.SeqMin | app/src/main/java/com/example/periodtracker/PeriodCalculator.java:141 | The minimum is an element and bounds every element from below |
| PeriodCalc.SeqMax | app/src/main/java/com/example/periodtracker/PeriodCalculator.java:142 | The maximum is an element and bounds every element from above |
| PeriodCalc.TruncatedQuotientBounds | app/src/main/java/com/example/periodtracker/PeriodCalculator.java:140 | The cast of the mean truncates toward zero: the dividend lies between neighbouring multiples on the side of zero |
| PeriodCalc.QuotientBetween | app/src/main/java/com/example/periodtracker/PeriodCalculator.java:140 | A dividend between lo·n and hi·n has its truncated quotient in [lo, hi] |
| PeriodCalc.TruncatedMeanWithin | app/src/main/java/com/example/periodtracker/PeriodCalculator.java:140-142 | The truncated mean lies between the minimum and the maximum |
| PeriodCalc.CalculateCycleStatistics | app/src/main/java/com/example/periodtracker/PeriodCalculator.java:123-145 | No list or fewer than two dates gives (28, 0, 0). Otherwise it gives the truncated mean, minimum and maximum of the gaps in list order, with min ≤ average ≤ max |
| PeriodCalc.AverageOfSpan | app/src/main/java/com/example/periodtracker/PeriodCalculator.java:123-145 | The average is the span from first to last date divided by the number of gaps |
| PeriodCalc.LeapYearPeriodic | app/src/main/java/com/example/periodtracker/PeriodCalculator.java:152-154 | The leap-year rule repeats every 400 years |
| PeriodCalc.IsLeapYear | app/src/main/java/com/example/periodtracker/PeriodCalculator.java:152-154 | Leap years are divisible by 4, and a century is leap exactly when divisible by 400 |
| PeriodCalc.MonthLength | app/src/main/java/com/example/periodtracker/PeriodCalculator.java:163-170 | Every month has 28 to 31 days |
| PeriodCalc.IsValidDate | app/src/main/java/com/example/periodtracker/PeriodCalculator.java:163-170 | A date is accepted exactly when the year is within ±999999999, the month is in 1..12 and the day is in 1..length of the month |
| PeriodCalc.LeapDayValidIffLeapYear | app/src/main/java/com/example/periodtracker/PeriodCalculator.java:163-170 | February 29 exists exactly in leap years |
| PeriodCalc.CalculatePeriodLength | app/src/main/java/com/example/periodtracker/PeriodCalculator.java:178-185 | 0 when a date is missing or the end comes first. Otherwise the positive count with start + count - 1 = end |
| PeriodCalc.RangeCardinality | app/src/main/java/com/example/periodtracker/PeriodCalculator.java:178-185 | A range from a to b holds b - a + 1 days |
| PeriodCalc.PeriodLengthCountsDays | app/src/main/java/com/example/periodtracker/PeriodCalculator.java:178-185 | The period length is the number of days the range from start to end contains |

## Left out

- Square root: `Math.sqrt` is a parameter `sqrt: RootFn`. The model relies only on it
  being non-negative and zero exactly at zero.
- Clock: `Date.now()` and `LocalDate.now()` are parameters (`now` in milliseconds, and
  `today` as a day number).
- Entry ids and creation times: ids from `Math.random` and creation times from
  `new Date()` are supplied by the caller of `HandleAddCycleEntry`.
- PIN hash: the base64 encoding of the PIN is an abstract encoder with a decoder.
  Browser storage of the hash is the `storedHash` field of `PinLock`.
- Persistence: the store's persistence layer (JSON serialisation and the revival of
  dates) is not modelled.
- Not part of this model: the Android `DataStorage` and `MainActivity`, and the React
  components.
- Time of day: dates are whole-day numbers. `startOfDay`, time-of-day components,
  daylight-saving shifts, and the rounding of millisecond differences into days are not
  modelled. A difference of dates is the subtraction of day numbers.
- Floating point: the weighted average, mean, variance, confidence and accuracy use
  exact real arithmetic, not IEEE doubles.
- Prediction.Confidence: requires that the lengths are not all zero (or that there are
  none). The source divides by the mean without a guard. A zero mean over lengths that
  are not all zero gives an infinite coefficient, which the clamp turns into 0.3, and
  the model returns 0.3 there. Lengths that are all zero give 0/0, a NaN score that has
  no counterpart among the reals. Lengths held by the store always lie in [21, 35], so
  they meet this requirement (`AppStore.PlausibleLengthsConfidenceDefined`).
- PeriodCalc.CalculateCycleStatistics: does not model the `(int)` cast of a `long` day
  count that exceeds 32 bits. Gaps are unbounded integers.
- PeriodCalc.PeriodCalculator.GetDaysUntilNextPeriod: does not model 32-bit truncation
  of the day count, nor the date range limit of `plusDays`.
- PeriodCalc.PeriodCalculator.GetDaysUntilFertileWindow: does not model 32-bit
  truncation of the day count, nor the date range limit of `plusDays`.
- PeriodCalc.PeriodCalculator.GetNextPeriodDate: does not model the date range limit of
  `plusDays`, which throws past year ±999999999. The model returns unbounded day numbers.
- PeriodCalc.PeriodCalculator.GetFertileWindow: does not model the date range limit of
  `plusDays`, which throws past year ±999999999.
- PeriodCalc.PeriodCalculator.GetFertileWindowForCycle: does not model the date range
  limit of `plusDays`, which throws past year ±999999999. The product of length and
  cycle count is taken in `long` and cannot overflow, so it is exact here too.
- Prediction.CycleVariance: the general identity n²·variance = n·Σx² − (Σx)² is not
  proved. The division by n, not by n − 1, is fixed by `TwoLengthsVariance` for any two
  lengths and by `VarianceExample`.
- PeriodCalc.CalculatePeriodLength: does not model 32-bit overflow of the day count
  plus one.
- Java getters and `toString`: `getLastPeriodStart`, `getCycleLength`, the range and
  statistics getters, and the `toString` methods are not modelled. The fields are read
  directly.
- In-place sort: the store's in-place sort inside the accuracy evaluation is modelled
  as sorting the contents of an array by the stable insertion sort `SortByDate` and
  writing them back. The library's sorting algorithm itself is not modelled.
- React state batching and closures: the hook's reducer state is read and updated
  sequentially within one call, so stale closure values between renders are not
  modelled.
- The blocking `alert` in the entry handler is modelled as returning `added == false`.
- `generatePrediction` ignores the second argument that `addCycleEntry` passes, and so
  does the model.
- Preference patches: only `privacyPin` can carry an explicit `undefined` value.
