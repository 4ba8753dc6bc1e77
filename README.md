# Meditation log core of the Yew app, modelled in Dafny

The app records meditation sessions and shows statistics about them. Under the
UI sit four pieces of sequential logic, and this project models each one:

- **`MeditationDatabase`** (`meditation_database.dfy`) models the session record and its
  validating builder. The builder is a class with four optional fields. Its setters
  overwrite one field each and return the builder. `Build` checks datetime,
  duration, category and speaker, in that order, and returns the record or the
  first failure. Rust's `str::trim` and `char::is_whitespace` are written out.
- **`MeditationStats`** (`calculate_meditation_stats.dfy`) models the statistics
  reducer:
  - the session count, modulo 2^32 as `len() as u32` gives it;
  - the integer sum of durations;
  - the favourite category and speaker. A map of counts is filled in a loop, then a
    maximal entry is picked with the keys visited in an arbitrary order, because
    `HashMap` iteration order is unspecified;
  - the current streak of consecutive UTC days. It is computed in three steps: a copy
    sorted by `datetime`, the check against "today", and the walk from oldest to newest.
    The source sorts with the library's `sort_by_key`; an in-place insertion sort on an
    array stands in for it, proved to sort and to permute. It is proved equal to `CurrentStreak`, a
    definition over the *set* of session days.
- **`DatabaseManager`** (`database_manager.dfy`) models the read-modify-write adapter.
  The browser store is a class holding a `map<string, string>` and two flags: whether
  the storage object can be obtained, and whether it accepts a write. The JSON codec
  is a parameter, with an encoder that may fail and a partial decoder. `RoundTrip`
  states decode∘encode = identity as a hypothesis, where a lemma needs it.
- **`MeditationLog`** (`log_meditation_data.dfy`) models logging and reading. A record
  is persisted only when `Build` succeeds.

The clock (`Utc::now()`) is replaced by a parameter `today`, a UTC day number. Day
numbers are `t / 86400`, which is floor division because the divisor is positive.

Three behaviours of the code are kept as written:
- Ties between equally frequent values are not broken by any fixed rule. The model
  lets any maximal value win.
- A log whose last session was yesterday has streak 0: the streak is 0 as soon as the
  latest session's day is before today.
- Each of the six failure messages of `build` is its own `BuildError` kind, with
  `Message` giving the exact string.

## Model

| member | source | states |
|---|---|---|
| MeditationDatabase.Message | src/utils/database/meditation_log/meditation_database.rs:101-118 | the message of each failure starts with the name of the field that failed |
| MeditationDatabase.MessagesDistinct | src/utils/database/meditation_log/meditation_database.rs:101-119 | the six failure messages are pairwise different, so "required" and "empty or whitespace" are told apart |
| MeditationDatabase.TrimStart | src/utils/database/meditation_log/meditation_database.rs:112 | the result is a suffix of the input, everything dropped is whitespace, and it does not start with whitespace |
| MeditationDatabase.TrimEnd | src/utils/database/meditation_log/meditation_database.rs:112 | the result is a prefix of the input, everything dropped is whitespace, and it does not end with whitespace |
| MeditationDatabase.Trim | src/utils/database/meditation_log/meditation_database.rs:112-117 | the result is the slice of the input left once a whitespace-only prefix and suffix are dropped, and it neither starts nor ends with whitespace |
| MeditationDatabase.TrimEmptyIffBlank | src/utils/database/meditation_log/meditation_database.rs:112-118 | `trim().is_empty()` holds exactly when every character is whitespace |
| MeditationDatabase.MeditationDataBuilder.constructor | src/utils/database/meditation_log/meditation_database.rs:41-43 | a new builder has all four fields unset, and building it fails with the datetime error |
| MeditationDatabase.MeditationDataBuilder.SetDatetime | src/utils/database/meditation_log/meditation_database.rs:52-55 | sets datetime to `Some(v)`, leaves the other three fields alone, returns the same builder |
| MeditationDatabase.MeditationDataBuilder.SetDuration | src/utils/database/meditation_log/meditation_database.rs:64-67 | sets duration to `Some(v)`, leaves the other three fields alone, returns the same builder |
| MeditationDatabase.MeditationDataBuilder.SetCategory | src/utils/database/meditation_log/meditation_database.rs:76-79 | sets category to `Some(v)`, leaves the other three fields alone, returns the same builder |
| MeditationDatabase.MeditationDataBuilder.SetSpeaker | src/utils/database/meditation_log/meditation_database.rs:88-91 | sets speaker to `Some(v)`, leaves the other three fields alone, returns the same builder |
| MeditationDatabase.MeditationDataBuilder.Build | src/utils/database/meditation_log/meditation_database.rs:100-127 | succeeds iff datetime and duration are set and positive and category and speaker are set and not blank; on success the record carries the stored values untrimmed; otherwise the error is that of the first failing check in the order datetime, duration, category, speaker; reads the builder and changes nothing |
| MeditationDatabase.BuildCompleteRecord | src/utils/database/meditation_log/meditation_database.rs:134-145 | the setter chain of the first unit test builds the record with exactly the given fields |
| MeditationDatabase.BuildWhitespaceCategory | src/utils/database/meditation_log/meditation_database.rs:147-158 | a category of one space fails with the blank-category error although every other field is valid |
| MeditationDatabase.BuildNegativeDatetime | src/utils/database/meditation_log/meditation_database.rs:101-104 | a negative timestamp fails with the "datetime must be non-zero" error |
| MeditationStats.Day | src/utils/database/meditation_log/calculate_meditation_stats.rs:101-120 | the UTC day of a timestamp: the day d with d * 86400 <= t < (d + 1) * 86400 |
| MeditationStats.LatestDay | src/utils/database/meditation_log/calculate_meditation_stats.rs:97-105 | the day of the latest session is a session day that no other session day exceeds |
| MeditationStats.RunLength | src/utils/database/meditation_log/calculate_meditation_stats.rs:113-131 | n consecutive days ending at e are session days and day e - n is not; n is at most the number of session days |
| MeditationStats.SortByDatetime | src/utils/database/meditation_log/calculate_meditation_stats.rs:94-95 | the array ends sorted by datetime and is a permutation of what it held |
| MeditationStats.SortedLatestDay | src/utils/database/meditation_log/calculate_meditation_stats.rs:97-98 | in a log sorted by datetime, the last record is on the latest day |
| MeditationStats.StreakStep | src/utils/database/meditation_log/calculate_meditation_stats.rs:118-131 | one loop step over a sorted log: a one-day step adds one, a larger gap resets to 1, the same day changes nothing |
| MeditationStats.CalculateCurrentStreak | src/utils/database/meditation_log/calculate_meditation_stats.rs:88-134 | the streak is 0 for an empty log or a latest day before today, otherwise the run of consecutive session days ending at the latest day |
| MeditationStats.StreakBounds | src/utils/database/meditation_log/calculate_meditation_stats.rs:113-131 | a live streak lies between 1 and the number of distinct session days |
| MeditationStats.StaleLogHasNoStreak | src/utils/database/meditation_log/calculate_meditation_stats.rs:97-108 | if every session falls on a day before today, the streak is 0 |
| MeditationStats.StreakOrderIndependent | src/utils/database/meditation_log/calculate_meditation_stats.rs:93-95 | two logs holding the same records in any order have the same streak |
| MeditationStats.SameDaySessionKeepsStreak | src/utils/database/meditation_log/calculate_meditation_stats.rs:128-130 | another session on a day the log already covers leaves the streak unchanged |
| MeditationStats.NextDaySessionExtendsStreak | src/utils/database/meditation_log/calculate_meditation_stats.rs:123-124 | a session on the day after the latest extends a live streak by one |
| MeditationStats.MostOccurring | src/utils/database/meditation_log/calculate_meditation_stats.rs:136-150 | no result iff there are no values; otherwise the result occurs and no value occurs more often |
| MeditationStats.FindMostOccurringCategory | src/utils/database/meditation_log/calculate_meditation_stats.rs:136-150 | no result iff the log is empty; otherwise a category that occurs in the log and has maximal count |
| MeditationStats.FindMostOccurringSpeaker | src/utils/database/meditation_log/calculate_meditation_stats.rs:152-166 | no result iff the log is empty; otherwise a speaker that occurs in the log and has maximal count |
| MeditationStats.DurationSum | src/utils/database/meditation_log/calculate_meditation_stats.rs:170-182 | the integer duration total (seconds) from which the hour total and the average derive: 0 for an empty log, within the log's length times the `i32` range, and at least the number of sessions when every duration is positive |
| MeditationStats.DurationSumAppend | src/utils/database/meditation_log/calculate_meditation_stats.rs:170-174 | the duration total of two logs joined is the sum of their totals |
| MeditationStats.StatsBuilder.New | src/utils/database/meditation_log/calculate_meditation_stats.rs:45-55 | a builder holding the log with none of the six overrides set |
| MeditationStats.StatsBuilder.WithTotalHoursMeditated | src/utils/database/meditation_log/calculate_meditation_stats.rs:58-61 | sets that override; the log and the five other overrides are unchanged |
| MeditationStats.StatsBuilder.WithAverageDurationPerMeditation | src/utils/database/meditation_log/calculate_meditation_stats.rs:63-66 | sets that override; the log and the five other overrides are unchanged |
| MeditationStats.StatsBuilder.WithDaysMeditatedInRow | src/utils/database/meditation_log/calculate_meditation_stats.rs:68-71 | sets that override; the log and the five other overrides are unchanged |
| MeditationStats.StatsBuilder.WithTotalMeditationSessions | src/utils/database/meditation_log/calculate_meditation_stats.rs:73-76 | sets that override; the log and the five other overrides are unchanged |
| MeditationStats.StatsBuilder.WithFavoriteCategory | src/utils/database/meditation_log/calculate_meditation_stats.rs:78-81 | sets that override; the log and the five other overrides are unchanged |
| MeditationStats.StatsBuilder.WithFavoriteSpeaker | src/utils/database/meditation_log/calculate_meditation_stats.rs:83-86 | sets that override; the log and the five other overrides are unchanged |
| MeditationStats.Build | src/utils/database/meditation_log/calculate_meditation_stats.rs:169-200 | every field depends on the log alone (setter values are ignored): duration total, session count as u32, the current streak, and most frequent category and speaker, or "" for an empty log |
| MeditationStats.CreateMockMeditations | src/utils/database/meditation_log/calculate_meditation_stats.rs:203-243 | the mock log has six sessions, in chronological order |
| MeditationStats.MockRecordsLoggable | src/utils/database/meditation_log/calculate_meditation_stats.rs:203-243 | every mock session has a positive datetime and duration and a non-blank category and speaker, so the record builder accepts it |
| MeditationStats.MockDays | src/utils/database/meditation_log/calculate_meditation_stats.rs:203-243 | the mock log covers the UTC days 18722-18725, 19761 and 19762 |
| MeditationStats.MockRunLength | src/utils/database/meditation_log/calculate_meditation_stats.rs:113-131 | over the mock log's days, the run ending at day 19762 is 2 days long |
| MeditationStats.MockStreak | src/utils/database/meditation_log/calculate_meditation_stats.rs:259 | with today the day of 1707511333, the mock log's streak is 2 |
| MeditationStats.MockFavoriteCategory | src/utils/database/meditation_log/calculate_meditation_stats.rs:260 | the only most frequent category of the mock log is "Mindfulness" |
| MeditationStats.MockFavoriteSpeaker | src/utils/database/meditation_log/calculate_meditation_stats.rs:261 | the only most frequent speaker of the mock log is "Alice" |
| MeditationStats.MockDurationSum | src/utils/database/meditation_log/calculate_meditation_stats.rs:256-257 | the mock durations add up to 12600 seconds |
| MeditationStats.MockStats | src/utils/database/meditation_log/calculate_meditation_stats.rs:249-262 | the mock log gives 6 sessions, streak 2, "Mindfulness", "Alice", and an average of 2100 seconds |
| MeditationStats.EmptyStats | src/utils/database/meditation_log/calculate_meditation_stats.rs:264-275 | an empty log gives 0 sessions, streak 0, duration total 0 and empty favourites |
| DatabaseManager.Store.Create | src/services/local_storage.rs:8-13 | with storage reachable and writable, sets the key; otherwise fails and leaves the store unchanged |
| DatabaseManager.Store.Read | src/services/local_storage.rs:15-20 | fails when storage is unreachable; otherwise returns the value under the key, or None if the key is absent |
| DatabaseManager.Store.Delete | src/services/local_storage.rs:26-31 | with storage reachable, removes the key; otherwise fails and leaves the store unchanged |
| DatabaseManager.CreateThenRead | tests/local_storage_tests.rs:5-14 | a value just created is read back |
| DatabaseManager.DeleteThenRead | tests/local_storage_tests.rs:16-24 | a deleted key reads back as None |
| DatabaseManager.SerializeAndWrite | src/utils/database/database_manager.rs:15-29 | stores the encoding of the vector with the record appended; an encoding or store failure leaves the store unchanged |
| DatabaseManager.DeserializeAndRead | src/utils/database/database_manager.rs:31-33 | the decoded log, or the empty log when the value does not decode |
| DatabaseManager.WriteData | src/utils/database/database_manager.rs:35-48 | the new store is the one-write result from the current log: unchanged on a read error, otherwise the encoding of the fail-soft log plus the record under the key |
| DatabaseManager.ReadData | src/utils/database/database_manager.rs:50-55 | returns the decoded log under the key; an absent key, a read error or an undecodable value gives the empty log |
| DatabaseManager.WriteToAbsentKey | src/utils/database/database_manager.rs:41-43 | writing to an absent key stores the encoding of the one-record log |
| DatabaseManager.WriteAppends | src/utils/database/database_manager.rs:37-39 | writing to a key holding a decodable log L stores the encoding of L with the record appended |
| DatabaseManager.WriteDiscardsUndecodable | src/utils/database/database_manager.rs:31-33 | writing to a key holding an undecodable value replaces it by the encoding of the one-record log |
| DatabaseManager.WriteFailureKeepsStore | src/utils/database/database_manager.rs:23-28 | a read error, an encoding failure or a refused write leaves the store unchanged |
| DatabaseManager.WriteTouchesOnlyKey | src/utils/database/database_manager.rs:24 | a write leaves every other key, and its value, as it was |
| DatabaseManager.ReadAfterWrite | src/utils/database/database_manager.rs:35-55 | with a faithful codec, the log read after a successful write is the log read before with the record appended |
| DatabaseManager.WriteThenRead | src/utils/database/database_manager.rs:35-55 | the same through the methods: write, then read, returns the earlier log plus the record |
| MeditationLog.ReadMeditationData | src/utils/database/meditation_log/read_meditation_data.rs:12-14 | returns the log stored under "meditationLog", or the empty log if storage is unreachable |
| MeditationLog.LogMeditationData | src/utils/database/meditation_log/log_meditation_data.rs:17-31 | an invalid record leaves the store unchanged; a valid one is written once, with the arguments as fields, under the key ""; the log under "meditationLog" never changes |
| MeditationLog.LoggedRecordInvisibleToReader | src/utils/database/meditation_log/log_meditation_data.rs:28 | after logging a record, the reader's log is never the earlier log plus that record |
| MeditationLog.LogMeditationDataToLogKey | src/utils/database/meditation_log/log_meditation_data.rs:27-30 | the corrected write: an invalid record leaves the store unchanged; a valid one is written under "meditationLog" |
| MeditationLog.LogThenRead | src/utils/database/meditation_log/read_meditation_data.rs:5-14 | with the corrected key and a faithful codec, reading after logging returns the earlier log with the new record last |

## Left out

- Floating-point statistics (`total_hours_meditated`, `average_duration_per_meditation`) are not modelled. The model keeps the integer duration total and the count they are computed from. f32 rounding, such as the 3.4999998 hours of the mock log, is not modelled.
- The wall clock `Utc::now()` is a parameter `today` (a UTC day number).
- Which of several equally frequent values becomes the favourite depends on `HashMap` iteration order. The model visits the keys in an arbitrary order and proves the result for every order.
- serde_json is not modelled. The codec is a parameter, and decode∘encode = identity is the hypothesis `RoundTrip` wherever a property depends on it.
- The browser's `window`/`localStorage` access is a `Store` object with two flags. The `expect` panics on a missing `window` or missing storage are not modelled.
- The Yew UI (pages, components, hooks, event wiring) is not modelled.
- The stale `read_write_meditation_data.rs` is not part of this model. It does not compile, but its write key is the intended one; see Findings.
- MeditationStats.CalculateCurrentStreak: the `u32` streak counter is unbounded here. Its overflow would need more than 2^32 records.
- `database_manager.rs` declares its own empty `MeditationData {}` (lines 9-10), the only type `write_data` and `read_data` accept. The model makes the adapter generic over the record type and hands it the full record of `meditation_database.rs`, as `log_meditation_data.rs:28` and `read_meditation_data.rs:13` use it. As written, those calls pass and expect a different type. Even with the types unified, `{}` serializes to `{}` and keeps no field. `MeditationLog.LogThenRead` and `DatabaseManager.ReadAfterWrite` depend on this choice: their round trip holds for a codec over the full record, assumed as `RoundTrip`.
- The console messages on a failed write, a failed serialization and a failed read (`database_manager.rs:25, 27, 45`) are not modelled. The model keeps only their effect: the store is left unchanged.
- The lock-free read-modify-write race between concurrent writers is not modelled: the model is single-threaded, as the source is.

## Findings

| source | as written | input that shows it | evidently intended | confidence | as-written member | corrected member |
|---|---|---|---|---|---|---|
| src/utils/database/meditation_log/log_meditation_data.rs:28 | a logged record is written under the key "", but `read_meditation_data` reads "meditationLog" (read_meditation_data.rs:5) | any valid record, e.g. datetime 10, duration 1, category "a", speaker "b": afterwards the reader returns the same log as before | write under "meditationLog", as the earlier `read_write_meditation_data.rs:30` does | high, not executed | MeditationLog.LoggedRecordInvisibleToReader | MeditationLog.LogThenRead |
