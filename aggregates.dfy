/** The per-user aggregates that `updateUserStats` recomputes (backend/src/services/typing.service.ts). */
module Aggregates {
  import opened Basics
  import opened Records
  import Calendar

  /** Folds `x` into an average over `n - 1` earlier values, giving the average over `n`. */
  function RunningAverage(prev: real, n: int, x: real): (r: real)
    requires n >= 1
    ensures r * n as real == prev * (n - 1) as real + x
    ensures n == 1 ==> r == x
    ensures prev == x ==> r == x
    ensures prev <= x ==> prev <= r <= x
    ensures x <= prev ==> x <= r <= prev
  {
    var r := (prev * (n - 1) as real + x) / n as real;
    assert r * n as real == prev * (n - 1) as real + x;
    assert r - prev == (x - prev) / n as real;
    assert r - x == (prev - x) * (n - 1) as real / n as real;
    r
  }

  /** The leaderboard's form of the update, `(prev * n + x) / (n + 1)`, is the same running average. */
  lemma RunningAverageFromCount(prev: real, n: nat, x: real)
    ensures (prev * n as real + x) / (n + 1) as real == RunningAverage(prev, n + 1, x)
  {
    assert ((n + 1) - 1) as real == n as real;
  }

  /** The experience a session earns: `floor(wpm * accuracy / 10)`. */
  function XpGain(wpm: real, accuracy: real): (g: int)
    ensures g as real <= wpm * accuracy / 10.0 < g as real + 1.0
    ensures wpm >= 0.0 && accuracy >= 0.0 ==> g >= 0
  {
    (wpm * accuracy / 10.0).Floor
  }

  /** The level for an experience total: one level per thousand points, starting at 1. */
  function LevelFor(xp: int): (level: int)
    ensures (level - 1) * 1000 <= xp < level * 1000
    ensures level >= 1 <==> xp >= 0
  {
    xp / 1000 + 1
  }

  /** Number of stored sessions that belong to `userId` (`practiceSession.count`). */
  function SessionCount(sessions: seq<PracticeSession>, userId: UserId): (n: nat)
    ensures n <= |sessions|
    ensures (exists i :: 0 <= i < |sessions| && sessions[i].userId == userId) ==> n >= 1
  {
    if sessions == [] then 0
    else SessionCount(sessions[..|sessions| - 1], userId)
         + (if sessions[|sessions| - 1].userId == userId then 1 else 0)
  }

  /**
   * The end time of the latest session of `userId` that ended at or after `since`
   * (`findFirst` with `endTime >= since`, ordered by `endTime` descending), if there is one.
   */
  function LatestEndSince(sessions: seq<PracticeSession>, userId: UserId, since: int): (r: Option<int>)
    ensures r.None? <==> forall i :: 0 <= i < |sessions| ==> !(sessions[i].userId == userId && sessions[i].endTime >= since)
    ensures r.Some? ==> r.value >= since
    ensures r.Some? ==> exists i :: 0 <= i < |sessions| && sessions[i].userId == userId && sessions[i].endTime == r.value
    ensures r.Some? ==> forall i :: 0 <= i < |sessions| && sessions[i].userId == userId && sessions[i].endTime >= since ==>
      sessions[i].endTime <= r.value
  {
    if sessions == [] then None
    else
      var init := sessions[..|sessions| - 1];
      var last := sessions[|sessions| - 1];
      var rest := LatestEndSince(init, userId, since);
      assert forall i :: 0 <= i < |init| ==> init[i] == sessions[i];
      if last.userId == userId && last.endTime >= since && (rest.None? || last.endTime > rest.value) then
        Some(last.endTime)
      else
        rest
  }

  /**
   * The streak decision: no session in the window starts a streak at 1, a last session on
   * yesterday's date continues it, an earlier one resets it to 1, and otherwise it is unchanged.
   */
  function StreakDecision(current: int, lastEnd: Option<int>, now: int, tz: int): (s: int)
    ensures lastEnd.None? ==> s == 1
    ensures lastEnd.Some? && Calendar.DayIndex(lastEnd.value, tz) == Calendar.DayIndex(now, tz) - 1 ==> s == current + 1
    ensures lastEnd.Some? && Calendar.DayIndex(lastEnd.value, tz) < Calendar.DayIndex(now, tz) - 1 ==> s == 1
    ensures lastEnd.Some? && Calendar.DayIndex(lastEnd.value, tz) >= Calendar.DayIndex(now, tz) ==> s == current
  {
    var today := Calendar.MidnightOf(now, tz);
    var yesterday := today - Calendar.DayMs;
    if lastEnd.Some? then
      var lastSessionDay := Calendar.MidnightOf(lastEnd.value, tz);
      Calendar.MidnightOrder(lastEnd.value, now, tz);
      if lastSessionDay == yesterday then current + 1
      else if lastSessionDay < yesterday then 1
      else current
    else
      1
  }

  /** The user record after folding in one session, given the session count and the new streak. */
  function UpdatedUser(u: User, n: int, result: TypingResult, newStreak: int): (v: User)
    requires n >= 1
    ensures v.id == u.id
    ensures v.totalTime == u.totalTime + result.duration
    ensures v.totalLessons == u.totalLessons + (if Truthy(result.lessonId) then 1 else 0)
    ensures v.avgWpm == RunningAverage(u.avgWpm, n, result.wpm)
    ensures v.avgAccuracy == RunningAverage(u.avgAccuracy, n, result.accuracy)
    ensures v.currentStreak == newStreak
    ensures v.longestStreak >= newStreak && v.longestStreak >= u.longestStreak
    ensures v.longestStreak == newStreak || v.longestStreak == u.longestStreak
    ensures v.xp == u.xp + XpGain(result.wpm, result.accuracy)
    ensures v.level == LevelFor(v.xp)
  {
    var xp := u.xp + XpGain(result.wpm, result.accuracy);
    User(u.id, LevelFor(xp), xp, newStreak, Max(u.longestStreak, newStreak),
         u.totalTime + result.duration,
         if Truthy(result.lessonId) then u.totalLessons + 1 else u.totalLessons,
         RunningAverage(u.avgWpm, n, result.wpm), RunningAverage(u.avgAccuracy, n, result.accuracy))
  }

  /**
   * `updateUserStats` over the user table, after the session has been stored: a missing user is
   * left alone; otherwise the user's record is replaced by `UpdatedUser`.
   */
  function StatsUpdated(users: map<UserId, User>, sessions: seq<PracticeSession>, userId: UserId,
                        result: TypingResult, now: int, tz: int): (r: map<UserId, User>)
    requires userId in users ==> SessionCount(sessions, userId) >= 1
    ensures r.Keys == users.Keys
    ensures forall other :: other in users && other != userId ==> r[other] == users[other]
    ensures userId !in users ==> r == users
  {
    if userId !in users then users
    else
      var u := users[userId];
      var yesterday := Calendar.MidnightOf(now, tz) - Calendar.DayMs;
      var lastEnd := LatestEndSince(sessions, userId, yesterday);
      users[userId := UpdatedUser(u, SessionCount(sessions, userId), result,
                                  StreakDecision(u.currentStreak, lastEnd, now, tz))]
  }

  /**
   * Because the lookup runs after the new session was stored, and the session ends at the same `now`
   * the lookup reads, it always finds a session from today, so the streak is left unchanged.
   */
  lemma {:induction false} StreakUnchangedAfterInsert(users: map<UserId, User>, sessions: seq<PracticeSession>,
                                                      s: PracticeSession, result: TypingResult, now: int, tz: int)
    requires s.userId in users && s.endTime == now
    ensures SessionCount(sessions + [s], s.userId) >= 1
    ensures StatsUpdated(users, sessions + [s], s.userId, result, now, tz)[s.userId].currentStreak
         == users[s.userId].currentStreak
  {
    var all := sessions + [s];
    assert all[|all| - 1] == s;
    var yesterday := Calendar.MidnightOf(now, tz) - Calendar.DayMs;
    var lastEnd := LatestEndSince(all, s.userId, yesterday);
    assert lastEnd.Some? && lastEnd.value >= now;
    Calendar.DayIndexMonotone(now, lastEnd.value, tz);
  }

  /** A user whose streak and longest streak are 0 keeps a streak of 0 after any number of sessions. */
  lemma FreshUserStreakStaysZero(users: map<UserId, User>, sessions: seq<PracticeSession>,
                                 s: PracticeSession, result: TypingResult, now: int, tz: int)
    requires s.userId in users && s.endTime == now && users[s.userId].currentStreak == 0
    ensures SessionCount(sessions + [s], s.userId) >= 1
    ensures StatsUpdated(users, sessions + [s], s.userId, result, now, tz)[s.userId].currentStreak == 0
  {
    StreakUnchangedAfterInsert(users, sessions, s, result, now, tz);
  }
}
