# Typing trainer: session pipeline and typing front end in Dafny

This project models the core of a touch-typing trainer.

**Back end.** When a typing session is submitted, `TypingService.saveSession` runs four steps in this order:
1. It stores the session.
2. It folds the session into the user's aggregates: running averages, streak, totals, experience and level.
3. It unlocks achievements whose criteria now hold.
4. It creates or updates the user's DAILY, WEEKLY and ALL_TIME leaderboard entries and re-ranks each bucket.

The database is an in-memory store, the class `TypingService.Database`. Its fields are the user map and the session, achievement, unlock-record and leaderboard tables. Each step is a method on this class. Its contract ties the new state to a specification function in `Aggregates`, `Achievements` or `Leaderboard`. The properties the code promises are lemmas about those functions:
- the streak law;
- uniqueness of unlock records;
- the rank law (ranks exactly 1..N, better standing means a smaller rank);
- the leaderboard update writes nothing outside the session's three buckets, so every other entry keeps its rank and every other ranked bucket stays ranked.

**Front end.** The model covers:
- the guarded metric formulas (`TypingUtils`);
- the per-keystroke error count and key-press map of the typing area (`TypingArea`);
- the practice page's correct count and 300-second timer (`PracticePage`);
- the Redux typing slice (`TypingSlice`);
- the keyboard heat map (`KeyboardVisualizer`);
- the registration form's validation chain (`RegisterPage`).

**How values are represented.**
- Time is in integer milliseconds. The server's local zone is a fixed offset `tz` (module `Calendar`).
- WPM and accuracy are `real`.
- The back end's unguarded divisions return a `JsNumber`, which can be NaN or an infinity. So can the heat map's error rate.

**The streak stays put within a day.** The code looks up the user's latest session only after the new session has been stored. When the session's end time and the stats update fall on the same local day, the lookup therefore finds that session, and the streak does not change (`Aggregates.StreakUnchangedAfterInsert`). A fresh user then keeps a streak of 0 after the first session (`Scenarios.FirstSession`). The code's own "first session" branch (`backend/src/services/typing.service.ts:127-129`) shows that a first session was meant to set the streak to 1. The streak moves only when the stored end time falls before local midnight and the stats update's clock reading falls after it. In that case, `Scenarios.MidnightCrossingExtendsStreak` shows the streak growing by one.

## Model

| member | source | states |
|---|---|---|
| TypingService.CalculateWpm | backend/src/services/typing.service.ts:28-34 | `(c/5)/t` with no zero guard: for t ≠ 0 it equals the front end's WPM, and for t = 0 it is not a finite number |
| TypingService.CalculateAccuracy | backend/src/services/typing.service.ts:36-41 | unguarded and unclamped: not finite for 0 characters; otherwise `r·total = (total−errors)·100`; equal to the front end's value when errors ≤ total; negative when errors > total |
| TypingService.NewSession | backend/src/services/typing.service.ts:48-64 | the stored row carries the user, the type and the result's figures, ends at `now`, and `endTime − startTime = duration·1000` |
| TypingService.Lookup | backend/src/services/typing.service.ts:82-84 | `findUnique` finds a user exactly when the id is in the table, and returns that record |
| TypingService.Database.constructor | backend/src/services/typing.service.ts:4 | the store the service's Prisma client stands for: the given users and distinct achievements, and no sessions, unlock records or leaderboard entries yet; the invariants hold |
| TypingService.Database.SaveSession | backend/src/services/typing.service.ts:43-76 | appends exactly one session, then user stats, then achievements, then leaderboard. The new user map is `StatsUpdated` over the table that already holds the session, and the streak is unchanged. The unlock records are those of `Unlocked` for the updated user. The leaderboard holds the figures of `BucketsUpserted`, with all three buckets ranked, and every entry outside them left as it was. The store invariants are kept |
| TypingService.Database.UpdateUserStats | backend/src/services/typing.service.ts:78-146 | a missing user leaves the table unchanged; otherwise only that user's record becomes `UpdatedUser` with the session count, streak decision and xp of the code |
| TypingService.Database.CheckAchievements | backend/src/services/typing.service.ts:148-200 | the loop appends exactly `Unlocked(...)`: one record per not-yet-held achievement whose criterion holds, in table order; pair uniqueness is kept |
| TypingService.Database.MeetsCriteria | backend/src/services/typing.service.ts:163-189 | the switch unlocks exactly when `Unlocks` holds for the stored user; only TOTAL_WPM, ACCURACY and STREAK_DAYS can unlock |
| TypingService.Database.RecordQualifying | backend/src/services/typing.service.ts:162-199 | the loop over the candidates appends exactly `RecordsFor(Qualifying(candidates))` for the stored user: a record for each candidate whose criterion holds, in order |
| TypingService.Database.UpdateLeaderboard | backend/src/services/typing.service.ts:202-221 | upserts DAILY at today's midnight, WEEKLY at the week start, then ALL_TIME at 0. The result holds the figures of `BucketsUpserted`, with the session's three buckets ranked. No entry changes bucket, every entry outside those buckets is left as it was (rank included), and every added entry lies in one of them |
| TypingService.Database.UpsertLeaderboardEntry | backend/src/services/typing.service.ts:223-270 | the table afterwards has the figures of `Upserted` and a ranked bucket. Other buckets are untouched and no entry changes bucket |
| TypingService.Database.StoreEntry | backend/src/services/typing.service.ts:239-266 | the create-or-update step leaves exactly `Upserted(old entries, ...)` and keeps keys unique and counts positive |
| TypingService.Database.CalculateRanks | backend/src/services/typing.service.ts:272-293 | writes rank k+1 to the k-th entry in standing order, so the bucket is ranked. Only ranks change, and entries outside the bucket are unchanged |
| TypingService.Database.WriteRanks | backend/src/services/typing.service.ts:287-292 | for distinct bucket indices, the k-th index gets rank k+1; only ranks change, and nothing outside the bucket changes |
| Aggregates.RunningAverage | backend/src/services/typing.service.ts:93-94 | `r·N = old·(N−1) + x`; N = 1 gives x; old = x gives x; r lies between old and x |
| Aggregates.RunningAverageFromCount | backend/src/services/typing.service.ts:241-243 | the leaderboard's `(avg·n + x)/(n+1)` is the same running average over n+1 values |
| Aggregates.XpGain | backend/src/services/typing.service.ts:142 | the gain is `floor(wpm·accuracy/10)`, and non-negative for non-negative figures |
| Aggregates.LevelFor | backend/src/services/typing.service.ts:143 | `(level−1)·1000 ≤ xp < level·1000`; level ≥ 1 exactly when xp ≥ 0 |
| Aggregates.SessionCount | backend/src/services/typing.service.ts:89-91 | the count is at most the table size and at least 1 when the user has a session |
| Aggregates.LatestEndSince | backend/src/services/typing.service.ts:103-111 | None exactly when no session of the user ends at or after `since`; otherwise the largest such end time |
| Aggregates.StreakDecision | backend/src/services/typing.service.ts:113-130 | no session in the window gives 1; a last session on the previous day gives current+1; an earlier day gives 1; the same day or later keeps current |
| Aggregates.UpdatedUser | backend/src/services/typing.service.ts:133-145 | totalTime grows by duration; totalLessons grows by 1 exactly when lessonId is truthy; the averages are running averages over N; xp grows by `XpGain`; level is `LevelFor` of the new xp; longestStreak is the max of the old value and the new streak |
| Aggregates.StatsUpdated | backend/src/services/typing.service.ts:82-145 | the key set is unchanged; other users are unchanged; a missing user leaves the map as it was |
| Aggregates.StreakUnchangedAfterInsert | backend/src/services/typing.service.ts:103-130 | once the session ending now is stored, the lookup finds it, and the updated streak equals the old one |
| Aggregates.FreshUserStreakStaysZero | backend/src/services/typing.service.ts:113-130 | a user with streak 0 keeps streak 0 after a session |
| Calendar.MidnightOf | backend/src/services/typing.service.ts:97-98 | `setHours(0,0,0,0)`: a local midnight m with m ≤ t < m + one day |
| Calendar.DayOfWeek | backend/src/services/typing.service.ts:210 | `getDay()` lies in 0..6 |
| Calendar.WeekStart | backend/src/services/typing.service.ts:209-210 | the midnight moved back `getDay()` days: a Sunday at most six days before today's midnight |
| Calendar.MidnightOrder | backend/src/services/typing.service.ts:117-126 | comparing midnights, including "equals yesterday" and "before yesterday", is comparing day numbers |
| Calendar.DayIndexMonotone | backend/src/services/typing.service.ts:103-111 | a later instant is never on an earlier day or midnight |
| Achievements.Candidates | backend/src/services/typing.service.ts:152-160 | exactly the achievements the user holds no record for; distinct ids stay distinct |
| Achievements.Unlocks | backend/src/services/typing.service.ts:165-189 | only TOTAL_WPM, ACCURACY and STREAK_DAYS can unlock. ACCURACY unlocks exactly when this session's accuracy reaches the value |
| Achievements.NoUserOnlyAccuracy | backend/src/services/typing.service.ts:165-189 | when no user is stored, the qualifying candidates are exactly the ACCURACY achievements whose value this session's accuracy reaches |
| Achievements.Qualifying | backend/src/services/typing.service.ts:162-189 | exactly the candidates whose criterion holds |
| Achievements.RecordsFor | backend/src/services/typing.service.ts:191-198 | one record (user, achievement id, now) per qualifying achievement, in order |
| Achievements.WalkIsQualifying | backend/src/services/typing.service.ts:162-199 | walking the candidates in order and writing a record whenever a criterion holds yields exactly one record per qualifying candidate, in candidate order |
| Achievements.Unlocked | backend/src/services/typing.service.ts:152-199 | at most one record per achievement in the table, each for this user and stamped with `now` |
| Achievements.UnlockKeepsPairsUnique | backend/src/services/typing.service.ts:152-198 | after unlocking, each (user, achievement) pair still has at most one record, and no new record was already held |
| Achievements.UnlockedMeetCriteria | backend/src/services/typing.service.ts:165-198 | every new record names an achievement of type TOTAL_WPM, ACCURACY or STREAK_DAYS whose criterion holds |
| Achievements.QualifyingAllUnlocked | backend/src/services/typing.service.ts:162-198 | every achievement that is not held and whose criterion holds gets its record |
| Leaderboard.FindEntry | backend/src/services/typing.service.ts:229-237 | the found index holds the key (user, period type, period start); None means no entry has it |
| Leaderboard.PeriodLength | backend/src/services/typing.service.ts:260 | DAILY spans 86400000 ms; WEEKLY and also ALL_TIME span seven days |
| Leaderboard.NewEntry | backend/src/services/typing.service.ts:255-265 | the new entry has the session's wpm and accuracy and one session. `periodEnd` is the start plus 86400000 for DAILY, and plus 604800000 otherwise, including ALL_TIME |
| Leaderboard.Upserted | backend/src/services/typing.service.ts:239-266 | when absent, the new entry is appended. When present, only that entry changes: one more session, with both averages folded in as running averages. Keys stay unique and counts positive |
| Leaderboard.UpsertedExisting | backend/src/services/typing.service.ts:239-253 | when the key is present at k, the upsert is exactly the update of entry k with one more session and both running averages |
| Leaderboard.UpsertedAbsent | backend/src/services/typing.service.ts:254-265 | when the key is absent, the upsert is exactly the table with `NewEntry` appended |
| Leaderboard.UpsertCountsSession | backend/src/services/typing.service.ts:239-266 | afterwards the user has an entry in the bucket, and its count is the previous count (0 if absent) plus 1 |
| Leaderboard.UpsertedStaysInBucket | backend/src/services/typing.service.ts:229-266 | the upsert leaves other buckets alone, moves no entry between buckets, and may only append an entry of this bucket |
| Leaderboard.BucketIndices | backend/src/services/typing.service.ts:276-281 | the distinct indices of exactly the entries with this period type and start |
| Leaderboard.SortByStanding | backend/src/services/typing.service.ts:282-285 | a sorted rearrangement of the bucket's indices, ordered by wpm descending and then accuracy descending |
| Leaderboard.StandingOrder | backend/src/services/typing.service.ts:276-286 | `findMany` over the bucket ordered by wpm then accuracy, both descending: distinct indices, exactly the bucket, sorted |
| Leaderboard.RankedBucket | backend/src/services/typing.service.ts:287-292 | in a ranked bucket, every entry's rank lies in 1..N; an empty bucket is ranked |
| Leaderboard.RankLaw | backend/src/services/typing.service.ts:272-293 | in a ranked bucket of N entries, ranks lie in 1..N, distinct entries get distinct ranks, and a strictly better entry has a smaller rank |
| Leaderboard.RanksExact | backend/src/services/typing.service.ts:287-292 | the ranks of a ranked bucket are exactly {1..N} |
| Leaderboard.RankedPreserved | backend/src/services/typing.service.ts:272-293 | changing or adding entries of other buckets keeps a ranked bucket ranked |
| Leaderboard.SetRankIgnored | backend/src/services/typing.service.ts:289-291 | writing a rank changes nothing but the rank |
| Leaderboard.StandingOrderIgnoresRanks | backend/src/services/typing.service.ts:276-286 | the standing order does not depend on ranks |
| Leaderboard.UpsertedIgnoresRanks | backend/src/services/typing.service.ts:229-266 | the upsert does not depend on ranks |
| Leaderboard.FindIgnoresRanks | backend/src/services/typing.service.ts:229-237 | the key lookup does not depend on ranks |
| Leaderboard.UpsertStepKeepsOtherRanked | backend/src/services/typing.service.ts:213-220 | upserting and re-ranking one period type keeps a bucket of another period type ranked |
| Leaderboard.BucketSteps | backend/src/services/typing.service.ts:202-221 | the DAILY, WEEKLY and ALL_TIME steps together give the figures of `BucketsUpserted`, with all three buckets ranked and every other entry untouched |
| Leaderboard.StepsFrame | backend/src/services/typing.service.ts:202-221 | across the three steps no entry changes bucket, entries outside the session's buckets are unchanged, and every added entry lies in one of those buckets |
| Leaderboard.StepKeepsBuckets | backend/src/services/typing.service.ts:229-293 | one upsert-and-rank step moves no entry to another bucket |
| Leaderboard.RefreshKeepsOtherRanked | backend/src/services/typing.service.ts:202-221 | after `updateLeaderboard`, every bucket other than the session's three that was ranked is still ranked |
| Leaderboard.BucketsUpserted | backend/src/services/typing.service.ts:206-220 | the three upserts keep counts positive and keys unique |
| Scenarios.FirstSession | backend/src/services/typing.service.ts:78-146 | a fresh user's first session at 60 wpm and 99 % for a lesson gives: averages 60 and 99, one lesson, 120 s, 594 xp, level 1, and a streak that stays 0 |
| Scenarios.MidnightCrossingExtendsStreak | backend/src/services/typing.service.ts:96-130 | with the session ending 1 ms before local midnight and the stats update reading the clock at midnight, the lookup sees yesterday's session, and the streak grows by one |
| Scenarios.SecondSessionAverages | backend/src/services/typing.service.ts:89-94 | a second session at 40 wpm and 90 % brings the averages to 50 and 94.5 |
| Scenarios.SecondSessionDailyEntry | backend/src/services/typing.service.ts:239-266 | the daily entry becomes 60/99 with one session, then 50/94.5 with two sessions |
| Scenarios.SoleEntrantRanksFirst | backend/src/services/typing.service.ts:287-292 | the only entry of a ranked bucket has rank 1 |
| TypingUtils.CalculateWpm | frontend/src/lib/typingUtils.ts:1-4 | 0 when t = 0; otherwise `r·t·5 = c`; non-negative for c ≥ 0 and t > 0 |
| TypingUtils.WpmLinear | frontend/src/lib/typingUtils.ts:3 | WPM is additive and homogeneous in the character count |
| TypingUtils.CalculateAccuracy | frontend/src/lib/typingUtils.ts:6-9 | never negative. For 0 characters it is 100. With total > 0: at most 100 for errors ≥ 0; 100 with no errors; 0 once errors ≥ total; `r·total = (total−errors)·100` when errors ≤ total |
| TypingUtils.Flatten | frontend/src/lib/typingUtils.ts:12 | no keys give no times |
| TypingUtils.Intervals | frontend/src/lib/typingUtils.ts:15-18 | the loop yields `times.length − 1` gaps, with `intervals[i−1] = times[i] − times[i−1]`; their sum is `last − first` |
| TypingUtils.CalculateConsistency | frontend/src/lib/typingUtils.ts:11-25 | 100 for fewer than two times; otherwise exactly `max(0, 100 - stdDev(intervals))` over the intervals of the flattened times; never negative; at most 100 when the deviation is non-negative |
| TypingUtils.IntervalsOf | frontend/src/lib/typingUtils.ts:15-18 | the interval list as a value has `times.length − 1` entries |
| TypingUtils.IntervalsAgree | frontend/src/lib/typingUtils.ts:15-18 | the loop's list equals the value definition |
| TypingUtils.FlattenedIntervalCanBeNegative | frontend/src/lib/typingUtils.ts:12-17 | times are concatenated key by key without sorting, so an interval can be negative |
| KeyStats.Pressed | frontend/src/components/typing/TypingArea.tsx:60-70 | total + 1; errors + 1 exactly on a new error; `now` appended to the times; lastPressed = now; well-formedness kept |
| TypingArea.CountErrors | frontend/src/components/typing/TypingArea.tsx:44-51 | the loop counts exactly the mismatching positions below `min(|value|, |text|)`; 0 when value = text |
| TypingArea.CalculateStats | frontend/src/components/typing/TypingArea.tsx:104-110 | time = duration; accuracy = `calculateAccuracy(input.length, errors)`; `wpm·duration = (length − errors)·12`, and 0 at duration 0 |
| TypingArea.PayloadOf | frontend/src/components/typing/TypingArea.tsx:115-131 | type is LESSON exactly when lessonId is truthy; totalKeys = input length; `duration·1000 = end − start`; wpm and accuracy as `calculateStats` |
| TypingArea.TypingArea.constructor | frontend/src/components/typing/TypingArea.tsx:16-25 | the component starts with the given text, lesson and callback, an empty input, no times, no errors, no key data, and not completed |
| TypingArea.TypingArea.HandleInputChange | frontend/src/components/typing/TypingArea.tsx:35-86 | accepted only while the session is not completed, because the textarea is disabled once it is (line 199). The start time is set on the first event, and errors = the mismatch count. Only the last character's key entry changes, via `Pressed`; an empty value leaves the map unchanged. The session completes exactly when value = text, with 0 errors and end = now. `onComplete` gets stats over the previous input length |
| TypingArea.TypingArea.HandleComplete | frontend/src/components/typing/TypingArea.tsx:112-138 | nothing is submitted unless both times are truthy; otherwise exactly `PayloadOf(...)` is appended |
| TypingArea.CompletionStatsUsePreviousLength | frontend/src/components/typing/TypingArea.tsx:81-82 | typing the last character of an exact prefix reports WPM for n − 1 characters rather than n |
| PracticePage.CorrectCount | frontend/src/app/practice/page.tsx:72-74 | the number of positions where the input matches the text; at most `min` of the two lengths |
| PracticePage.StatsFor | frontend/src/app/practice/page.tsx:72-85 | errors = length − correct ≥ 0. WPM is passed seconds as its minutes argument. Accuracy is 100 when nothing is correct and 0 otherwise, because the arguments are swapped |
| PracticePage.PickIndex | frontend/src/app/practice/page.tsx:92 | `floor(random·4)` is a valid index into the sample texts |
| PracticePage.PracticePage.constructor | frontend/src/app/practice/page.tsx:30-40 | the page starts on the first sample text, with nothing typed, inactive and at time 0; the invariants hold |
| PracticePage.PracticePage.InputDisabled | frontend/src/app/practice/page.tsx:163 | in a valid state, the textarea is disabled exactly when the clock has reached the 300 s limit |
| PracticePage.PracticePage.OnInput | frontend/src/app/practice/page.tsx:66-86 | a disabled input is ignored; otherwise the input is stored, the first non-empty input activates the session, and the statistics are recomputed |
| PracticePage.PracticePage.Tick | frontend/src/app/practice/page.tsx:50-64 | while active and below 300 s, the clock advances one second and reaching 300 stops the session; otherwise nothing changes |
| PracticePage.PracticePage.Stop | frontend/src/app/practice/page.tsx:96-98 | the session becomes inactive |
| PracticePage.PracticePage.Reset | frontend/src/app/practice/page.tsx:88-94 | empty input, time 0, inactive, and the text is a sample text |
| PracticePage.PracticePage.ChangeText | frontend/src/app/practice/page.tsx:100-104 | as Reset; its own pick is overwritten by the one inside reset |
| TypingSlice.RejectionMessage | frontend/src/store/slices/typingSlice.ts:35 | the server's error when truthy, else the fallback |
| TypingSlice.TypingState.constructor | frontend/src/store/slices/typingSlice.ts:17-26 | empty lists; null session, lesson and error; not loading |
| TypingSlice.TypingState.SetCurrentSession | frontend/src/store/slices/typingSlice.ts:68-70 | only currentSession changes, to the payload |
| TypingSlice.TypingState.SetCurrentLesson | frontend/src/store/slices/typingSlice.ts:71-73 | only currentLesson changes, to the payload |
| TypingSlice.TypingState.ClearError | frontend/src/store/slices/typingSlice.ts:74-76 | only error changes, to null |
| TypingSlice.TypingState.SaveSessionPending | frontend/src/store/slices/typingSlice.ts:80-83 | loading and no error; nothing else changes |
| TypingSlice.TypingState.SaveSessionFulfilled | frontend/src/store/slices/typingSlice.ts:84-88 | not loading; the payload is prepended to the sessions, with the rest unchanged; it becomes the current session |
| TypingSlice.TypingState.SaveSessionRejected | frontend/src/store/slices/typingSlice.ts:89-92 | not loading, error = payload, sessions untouched |
| TypingSlice.TypingState.FetchLessonsFulfilled | frontend/src/store/slices/typingSlice.ts:93-95 | lessons replaced wholesale; nothing else changes |
| TypingSlice.TypingState.FetchLeaderboardFulfilled | frontend/src/store/slices/typingSlice.ts:96-98 | leaderboard replaced wholesale; nothing else changes |
| KeyboardVisualizer.RenderedRows | frontend/src/components/typing/KeyboardVisualizer.tsx:9-13 | three rows of 10, 9 and 7 keys |
| KeyboardVisualizer.LayoutIgnored | frontend/src/components/typing/KeyboardVisualizer.tsx:40 | every `layout` value renders the same rows |
| KeyboardVisualizer.ErrorRate | frontend/src/components/typing/KeyboardVisualizer.tsx:20 | `errors / total` is the finite quotient when total ≠ 0; with total 0 it is +Infinity when errors > 0, and NaN when errors = 0 |
| KeyboardVisualizer.GetKeyColor | frontend/src/components/typing/KeyboardVisualizer.tsx:16-28 | the first rule that matches decides. No data gives gray. With total > 0 and rate = errors/total: red exactly when rate > 0.3; orange exactly when 0.1 < rate ≤ 0.3; green exactly when rate ≤ 0.1 and total > 10; blue exactly when rate ≤ 0.1 and total ≤ 10; never gray |
| KeyboardVisualizer.CleanKeyColor | frontend/src/components/typing/KeyboardVisualizer.tsx:22-25 | an error-free key is green above 10 presses and blue otherwise |
| KeyboardVisualizer.ZeroTotalColors | frontend/src/components/typing/KeyboardVisualizer.tsx:20-27 | with total 0 the division gives an infinity (red) when errors > 0, and NaN (gray) otherwise |
| KeyboardVisualizer.GetKeyIntensity | frontend/src/components/typing/KeyboardVisualizer.tsx:30-35 | no data gives 1; never above 1; at least 0 for total ≥ 0; total/20 up to 20 presses |
| KeyboardVisualizer.Opacity | frontend/src/components/typing/KeyboardVisualizer.tsx:56 | in [0.5, 1] for an intensity in [0, 1] |
| KeyboardVisualizer.Scale | frontend/src/components/typing/KeyboardVisualizer.tsx:57 | in [0.9, 1.1] for an intensity in [0, 1] |
| KeyboardVisualizer.RecordedKeyStyle | frontend/src/components/typing/KeyboardVisualizer.tsx:43-57 | every key entry the typing area records is drawn within those bounds, and never gray |
| RegisterPage.ValidationError | frontend/src/app/register/page.tsx:33-46 | each message fires exactly under its condition, in chain order; None exactly for complete, matching passwords of at least 6 characters |
| RegisterPage.RegisterPage.constructor | frontend/src/app/register/page.tsx:14-21 | the form starts with no error, not loading, and nothing dispatched or routed |
| RegisterPage.RegisterPage.HandleSubmit | frontend/src/app/register/page.tsx:28-68 | a validation failure sets only the message. Otherwise it dispatches the credentials once, and loading goes true and then false, ending false. The error and route then depend on the outcome |
| RegisterPage.RegisterPage.SetLoading | frontend/src/app/register/page.tsx:21 | loading takes the value, and the update is recorded |

## Left out

- **Storage, transport and auth:** Prisma and SQL are not part of this model, and the store is in memory. Neither are the routes, authentication, the API client or the text service. The database schema is not part of this model either. Column defaults are written into the model instead:
  - a new leaderboard entry gets rank 0 until the bucket is re-ranked;
  - an unlock record is stamped with `now`.
- **Clocks:** `Date.now()` and `new Date()` become a `now` parameter. The back end reads the clock separately in three places: in `saveSession` for the start and end times (lines 61-62), in `updateUserStats` for today (line 97), and in `updateLeaderboard` for today (line 206). The model uses one reading for all of them. `Aggregates.StreakUnchangedAfterInsert` and `SaveSession`'s streak clause are therefore stated for readings on the same local day. `Scenarios.MidnightCrossingExtendsStreak` shows a pair of readings on either side of midnight.
- **String lengths:** strings are sequences of Unicode scalar values. JavaScript's `.length` and indexing count UTF-16 code units, so lengths and positions differ for characters outside the Basic Multilingual Plane, such as emoji. This affects:
  - `RegisterPage.ValidationError` (the six-character minimum);
  - `TypingArea.CountErrors` and the last-character key of `TypingArea.TypingArea.HandleInputChange`;
  - `PracticePage.CorrectCount`;
  - the input lengths in `TypingArea.CalculateStats`.

  For text inside that plane the two agree.
- **Time zones:** local time is a fixed offset from UTC. Daylight-saving changes are not modelled.
- **Durations:** `duration` is whole seconds.
- **Concurrency:** concurrent submissions and the interleaving of the awaited database calls are not modelled. Each pipeline runs alone.
- **Failures:** a failing database call, and the exception it would raise, are not modelled.
- **Tie order in `calculateRanks`:** the database does not fix the order of entries with equal wpm and accuracy. The model breaks such ties by storage order (a stable sort).
- **Payload type:** `saveSession`'s `type` parameter defaults to PRACTICE. Here `SaveSession` always takes the type as an argument, so the default is not modelled.
- TypingUtils.CalculateConsistency: the standard deviation (`Math.sqrt` of a floating-point variance) is a parameter. Only the guard, the interval loop and the final clamp are modelled.
- **Typing-area timer:** the 100 ms interval timer of the typing area and its stale view of the state are not modelled. Only `handleInputChange`, `calculateStats` and `handleComplete` are.
- **Presentation:** rendering, focus handling, sound and navigation side effects are not modelled. The only exception is the route pushed by the registration form.
- **Number formats:** real numbers stand for JavaScript doubles; rounding is not modelled. Division by zero is modelled exactly where the code does not guard it.
