/**
 * Worked sessions through the back-end pipeline: the figures a first and a second session produce,
 * as `updateUserStats` and `upsertLeaderboardEntry` compute them.
 */
module Scenarios {
  import opened Basics
  import opened Records
  import Calendar
  import Aggregates
  import Leaderboard

  /** A user who has just registered: level 1 and nothing else accumulated. */
  function FreshUser(id: UserId): (u: User)
    ensures u.id == id && u.level == Aggregates.LevelFor(u.xp)
    ensures u.longestStreak >= u.currentStreak
  {
    User(id, 1, 0, 0, 0, 0, 0, 0.0, 0.0)
  }

  /**
   * A fresh user's first session (60 wpm, 99 % accuracy, 120 s, for a lesson): the averages take
   * the session's figures, the totals count it, 594 xp are earned at level 1, and the streak stays
   * at 0 because the streak lookup already sees the session just stored.
   */
  lemma FirstSession(s: PracticeSession, result: TypingResult, now: int, tz: int)
    requires s.endTime == now
    requires result.wpm == 60.0 && result.accuracy == 99.0 && result.duration == 120 && Truthy(result.lessonId)
    ensures Aggregates.SessionCount([s], s.userId) == 1
    ensures var v := Aggregates.StatsUpdated(map[s.userId := FreshUser(s.userId)], [s], s.userId, result, now, tz)[s.userId];
      && v.avgWpm == 60.0 && v.avgAccuracy == 99.0
      && v.totalLessons == 1 && v.totalTime == 120
      && v.xp == 594 && v.level == 1
      && v.currentStreak == 0 && v.longestStreak == 0
  {
    var users := map[s.userId := FreshUser(s.userId)];
    assert [s][..0] == [];
    assert Aggregates.XpGain(60.0, 99.0) == 594;
    Aggregates.StreakUnchangedAfterInsert(users, [], s, result, now, tz);
    assert [] + [s] == [s];
  }

  /**
   * `saveSession` and `updateUserStats` read the clock separately. When the stored session ends one
   * millisecond before local midnight and the stats update reads the clock at midnight, the lookup
   * sees a session from yesterday, and the streak grows by one.
   */
  lemma {:induction false} MidnightCrossingExtendsStreak(u: User, s: PracticeSession, result: TypingResult)
    requires s.userId == u.id && s.endTime == Calendar.DayMs - 1
    ensures Aggregates.SessionCount([s], u.id) == 1
    ensures Aggregates.StatsUpdated(map[u.id := u], [s], u.id, result, Calendar.DayMs, 0)[u.id].currentStreak
         == u.currentStreak + 1
  {
    assert [s][..0] == [];
    assert Calendar.MidnightOf(Calendar.DayMs, 0) == Calendar.DayMs;
    assert Calendar.MidnightOf(Calendar.DayMs - 1, 0) == 0;
  }

  /**
   * The same user's second session on the same day (40 wpm, 90 %): the averages over two sessions
   * are 50 wpm and 94.5 %.
   */
  lemma SecondSessionAverages(u: User, s1: PracticeSession, s2: PracticeSession, result: TypingResult, now: int, tz: int)
    requires s1.userId == u.id && s2.userId == u.id && s2.endTime == now
    requires u.avgWpm == 60.0 && u.avgAccuracy == 99.0
    requires result.wpm == 40.0 && result.accuracy == 90.0
    ensures Aggregates.SessionCount([s1, s2], u.id) == 2
    ensures var v := Aggregates.StatsUpdated(map[u.id := u], [s1, s2], u.id, result, now, tz)[u.id];
      v.avgWpm == 50.0 && v.avgAccuracy == 94.5 && v.currentStreak == u.currentStreak
  {
    assert [s1, s2][..1] == [s1];
    assert [s1][..0] == [];
    Aggregates.StreakUnchangedAfterInsert(map[u.id := u], [s1], s2, result, now, tz);
    assert [s1] + [s2] == [s1, s2];
  }

  /**
   * The daily entry created by the first session is folded with the second: 50 wpm, 94.5 %, two
   * sessions, in the same bucket.
   */
  lemma SecondSessionDailyEntry(userId: UserId, ps: int)
    ensures var first := Leaderboard.Upserted([], userId, Daily, ps, 60.0, 99.0);
      && first == [LeaderboardEntry(userId, Daily, ps, ps + Calendar.DayMs, 60.0, 99.0, 1, 0)]
      && Leaderboard.Upserted(first, userId, Daily, ps, 40.0, 90.0)
         == [LeaderboardEntry(userId, Daily, ps, ps + Calendar.DayMs, 50.0, 94.5, 2, 0)]
  {
    var first := Leaderboard.Upserted([], userId, Daily, ps, 60.0, 99.0);
    assert Leaderboard.FindEntry(first, userId, Daily, ps) == Some(0);
  }

  /** The sole entrant of a ranked bucket holds rank 1. */
  lemma {:induction false} SoleEntrantRanksFirst(es: seq<LeaderboardEntry>, pt: PeriodType, ps: int, i: int)
    requires Leaderboard.RankedBucket(es, pt, ps)
    requires 0 <= i < |es| && Leaderboard.InBucket(es[i], pt, ps)
    requires |Leaderboard.BucketIndices(es, pt, ps)| == 1
    ensures es[i].rank == 1
  {
    Leaderboard.RankLaw(es, pt, ps, i, i);
  }
}
