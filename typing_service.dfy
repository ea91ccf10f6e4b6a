/**
 * The session-ingestion pipeline of `TypingService` (backend/src/services/typing.service.ts) over
 * an in-memory store that stands for the database tables.
 */
module TypingService {
  import opened Basics
  import opened Records
  import Calendar
  import TypingUtils
  import Aggregates
  import Achievements
  import Leaderboard

  /** The server's `calculateWPM`: the same formula as the front end's, but with no zero-time guard. */
  function CalculateWpm(correctChars: real, timeInMinutes: real): (r: JsNumber)
    ensures timeInMinutes != 0.0 ==> r == Finite(TypingUtils.CalculateWpm(correctChars, timeInMinutes))
    ensures timeInMinutes == 0.0 ==> !r.Finite?
  {
    JsDivide(correctChars / 5.0, timeInMinutes)
  }

  /** The server's `calculateAccuracy`: neither the empty-input guard nor the clamp at 0 of the front end. */
  function CalculateAccuracy(totalChars: real, errors: real): (r: JsNumber)
    ensures totalChars == 0.0 ==> !r.Finite?
    ensures totalChars != 0.0 ==> r.Finite? && r.value * totalChars == (totalChars - errors) * 100.0
    ensures totalChars > 0.0 && errors <= totalChars ==> r == Finite(TypingUtils.CalculateAccuracy(totalChars, errors))
    ensures totalChars > 0.0 && errors > totalChars ==> r.Finite? && r.value < 0.0
  {
    JsScale(JsDivide(totalChars - errors, totalChars), 100.0)
  }

  /** The session row `saveSession` creates at `now`: it ends now and started `duration` seconds earlier. */
  function NewSession(id: nat, userId: UserId, result: TypingResult, sessionType: SessionType, now: int): (s: PracticeSession)
    ensures s.id == id && s.userId == userId && s.sessionType == sessionType
    ensures s.endTime == now && s.endTime - s.startTime == result.duration * 1000
    ensures s.wpm == result.wpm && s.accuracy == result.accuracy && s.duration == result.duration
    ensures s.lessonId == result.lessonId
  {
    PracticeSession(id, userId, sessionType, result.textId, result.customText, result.lessonId,
                    result.duration, result.wpm, result.accuracy, result.errors, result.totalKeys,
                    result.keyPresses, now - result.duration * 1000, now)
  }

  /** `prisma.user.findUnique` by id. */
  function Lookup(users: map<UserId, User>, userId: UserId): (r: Option<User>)
    ensures r.Some? <==> userId in users
    ensures r.Some? ==> r.value == users[userId]
  {
    if userId in users then Some(users[userId]) else None
  }

  /** The tables the service reads and writes. */
  class Database {
    /** Offset of the server's local time from UTC, in milliseconds. */
    const tz: int
    var users: map<UserId, User>
    var sessions: seq<PracticeSession>
    var achievements: seq<Achievement>
    var userAchievements: seq<UserAchievement>
    var entries: seq<LeaderboardEntry>

    /** The store's invariants: unique keys, counted entries, and no streak above the longest one. */
    ghost predicate Valid()
      reads this
    {
      && Achievements.DistinctIds(achievements)
      && Achievements.PairsUnique(userAchievements)
      && Leaderboard.KeysUnique(entries)
      && Leaderboard.CountsPositive(entries)
      && (forall u :: u in users ==> users[u].longestStreak >= users[u].currentStreak)
    }

    /** A store seeded with users and achievements and no activity yet. */
    constructor (tz: int, users: map<UserId, User>, achievements: seq<Achievement>)
      requires Achievements.DistinctIds(achievements)
      requires forall u :: u in users ==> users[u].longestStreak >= users[u].currentStreak
      ensures Valid()
      ensures this.tz == tz && this.users == users && this.achievements == achievements
      ensures sessions == [] && userAchievements == [] && entries == []
    {
      this.tz := tz;
      this.users := users;
      this.achievements := achievements;
      sessions := [];
      userAchievements := [];
      entries := [];
    }

    /**
     * `saveSession`: stores the session, then updates the user's statistics, then evaluates
     * achievements against the updated user, then upserts and re-ranks the three leaderboard buckets.
     */
    method SaveSession(userId: UserId, result: TypingResult, sessionType: SessionType, now: int)
      returns (session: PracticeSession)
      requires Valid()
      modifies this
      ensures Valid()
      ensures session == NewSession(|old(sessions)|, userId, result, sessionType, now)
      ensures sessions == old(sessions) + [session]
      ensures Aggregates.SessionCount(sessions, userId) >= 1
      ensures users == Aggregates.StatsUpdated(old(users), sessions, userId, result, now, tz)
      ensures userId in old(users) ==> users[userId].currentStreak == old(users)[userId].currentStreak
      ensures achievements == old(achievements)
      ensures userAchievements == old(userAchievements)
        + Achievements.Unlocked(achievements, old(userAchievements), userId, Lookup(users, userId), result, now)
      ensures Leaderboard.BucketsRefreshed(old(entries), entries, userId, result.wpm, result.accuracy, now, tz)
    {
      session := NewSession(|sessions|, userId, result, sessionType, now);
      ghost var stored := sessions;
      sessions := sessions + [session];
      assert sessions[|sessions| - 1].userId == userId;
      if userId in users {
        Aggregates.StreakUnchangedAfterInsert(users, stored, session, result, now, tz);
      }

      UpdateUserStats(userId, result, now);
      ghost var updatedUsers := users;
      CheckAchievements(userId, result, now);
      ghost var unlocked := userAchievements;
      UpdateLeaderboard(userId, result, now);
      assert users == updatedUsers && userAchievements == unlocked;
    }

    /** `updateUserStats`, run after the session is stored; a missing user is left alone. */
    method UpdateUserStats(userId: UserId, result: TypingResult, now: int)
      requires Valid()
      requires userId in users ==> Aggregates.SessionCount(sessions, userId) >= 1
      modifies this`users
      ensures Valid()
      ensures users == Aggregates.StatsUpdated(old(users), sessions, userId, result, now, tz)
    {
      var user := Lookup(users, userId);
      if user.None? {
        return;
      }
      var u := user.value;
      var totalSessions := Aggregates.SessionCount(sessions, userId);
      var newAvgWpm := Aggregates.RunningAverage(u.avgWpm, totalSessions, result.wpm);
      var newAvgAccuracy := Aggregates.RunningAverage(u.avgAccuracy, totalSessions, result.accuracy);

      var today := Calendar.MidnightOf(now, tz);
      var yesterday := today - Calendar.DayMs;
      var lastSession := Aggregates.LatestEndSince(sessions, userId, yesterday);
      var newStreak := Aggregates.StreakDecision(u.currentStreak, lastSession, now, tz);

      var xp := u.xp + Aggregates.XpGain(result.wpm, result.accuracy);
      var updated := User(
        u.id, Aggregates.LevelFor(xp), xp, newStreak, Max(u.longestStreak, newStreak),
        u.totalTime + result.duration,
        if Truthy(result.lessonId) then u.totalLessons + 1 else u.totalLessons,
        newAvgWpm, newAvgAccuracy);
      assert updated == Aggregates.UpdatedUser(u, totalSessions, result, newStreak);
      users := users[userId := updated];
    }

    /** `checkAchievements`: one pass over the achievements the user has not unlocked yet. */
    method CheckAchievements(userId: UserId, result: TypingResult, now: int)
      requires Valid()
      modifies this`userAchievements
      ensures Valid()
      ensures userAchievements == old(userAchievements)
        + Achievements.Unlocked(achievements, old(userAchievements), userId, Lookup(users, userId), result, now)
    {
      var candidates := Achievements.Candidates(achievements, userAchievements, userId);
      ghost var before := userAchievements;
      ghost var stored := Lookup(users, userId);
      RecordQualifying(candidates, userId, result, now);
      Achievements.UnlockKeepsPairsUnique(achievements, before, userId, stored, result, now);
    }

    /**
     * The loop of `checkAchievements`: for each candidate in turn, a record is created exactly
     * when its criterion holds.
     */
    method RecordQualifying(candidates: seq<Achievement>, userId: UserId, result: TypingResult, now: int)
      modifies this`userAchievements
      ensures userAchievements == old(userAchievements)
        + Achievements.RecordsFor(Achievements.Qualifying(candidates, Lookup(users, userId), result), userId, now)
    {
      ghost var before := userAchievements;
      ghost var stored := Lookup(users, userId);
      var i := 0;
      while i < |candidates|
        invariant 0 <= i <= |candidates|
        invariant userAchievements == before + Achievements.Walk(candidates[..i], stored, result, userId, now)
      {
        var achievement := candidates[i];
        var unlocked := MeetsCriteria(achievement, userId, result);
        assert candidates[..i + 1][..i] == candidates[..i];
        if unlocked {
          var record := UserAchievement(userId, achievement.id, now);
          AppendAssoc(before, Achievements.Walk(candidates[..i], stored, result, userId, now), record);
          userAchievements := userAchievements + [record];
        }
        i := i + 1;
      }
      assert candidates[..i] == candidates;
      Achievements.WalkIsQualifying(candidates, stored, result, userId, now);
    }

    /**
     * The `switch` on the criterion type inside `checkAchievements`: TOTAL_WPM and STREAK_DAYS
     * re-read the user, ACCURACY looks at this session, and the remaining types never unlock.
     */
    method MeetsCriteria(achievement: Achievement, userId: UserId, result: TypingResult) returns (unlocked: bool)
      ensures unlocked == Achievements.Unlocks(achievement, Lookup(users, userId), result)
      ensures unlocked ==> Achievements.Evaluated(achievement.criteriaType)
    {
      unlocked := false;
      match achievement.criteriaType {
        case TotalWpm =>
          var user := Lookup(users, userId);
          if user.Some? && user.value.avgWpm >= achievement.criteriaValue as real {
            unlocked := true;
          }
        case Accuracy =>
          if result.accuracy >= achievement.criteriaValue as real {
            unlocked := true;
          }
        case StreakDays =>
          var userWithStreak := Lookup(users, userId);
          if userWithStreak.Some? && userWithStreak.value.currentStreak >= achievement.criteriaValue {
            unlocked := true;
          }
        case _ =>
      }
    }

    /** `updateLeaderboard`: the DAILY, WEEKLY and ALL_TIME buckets, in that order. */
    method UpdateLeaderboard(userId: UserId, result: TypingResult, now: int)
      requires Valid()
      modifies this`entries
      ensures Valid()
      ensures Leaderboard.BucketsRefreshed(old(entries), entries, userId, result.wpm, result.accuracy, now, tz)
    {
      var today := Calendar.MidnightOf(now, tz);
      var weekStart := Calendar.WeekStart(now, tz);
      var allTimeStart := 0;
      ghost var e0 := entries;
      UpsertLeaderboardEntry(userId, Daily, today, result);
      ghost var e1 := entries;
      UpsertLeaderboardEntry(userId, Weekly, weekStart, result);
      ghost var e2 := entries;
      UpsertLeaderboardEntry(userId, AllTime, allTimeStart, result);
      Leaderboard.BucketSteps(e0, e1, e2, entries, userId, result.wpm, result.accuracy, now, tz);
    }

    /** `upsertLeaderboardEntry`: create or update the user's entry in one bucket, then re-rank the bucket. */
    method UpsertLeaderboardEntry(userId: UserId, periodType: PeriodType, periodStart: int, result: TypingResult)
      requires Valid()
      modifies this`entries
      ensures Valid()
      ensures Leaderboard.UpsertStep(old(entries), entries, userId, periodType, periodStart, result.wpm, result.accuracy)
    {
      StoreEntry(userId, periodType, periodStart, result);
      Leaderboard.UpsertedStaysInBucket(old(entries), userId, periodType, periodStart, result.wpm, result.accuracy);
      CalculateRanks(periodType, periodStart);
    }

    /** The create-or-update half of `upsertLeaderboardEntry`, before the bucket is re-ranked. */
    method StoreEntry(userId: UserId, periodType: PeriodType, periodStart: int, result: TypingResult)
      requires Valid()
      modifies this`entries
      ensures Valid()
      ensures entries == Leaderboard.Upserted(old(entries), userId, periodType, periodStart, result.wpm, result.accuracy)
    {
      ghost var target := Leaderboard.Upserted(entries, userId, periodType, periodStart, result.wpm, result.accuracy);
      var existing := Leaderboard.FindEntry(entries, userId, periodType, periodStart);
      if existing.Some? {
        var e := entries[existing.value];
        var sessionsCount := e.totalSessions + 1;
        var newWpm := Aggregates.RunningAverage(e.wpm, sessionsCount, result.wpm);
        var newAccuracy := Aggregates.RunningAverage(e.accuracy, sessionsCount, result.accuracy);
        entries := entries[existing.value := e.(wpm := newWpm, accuracy := newAccuracy, totalSessions := sessionsCount)];
      } else {
        entries := entries + [LeaderboardEntry(
          userId, periodType, periodStart,
          periodStart + (if periodType == Daily then 86400000 else 604800000),
          result.wpm, result.accuracy, 1, 0)];
      }
      assert entries == target;
    }

    /** `calculateRanks`: walks the bucket in standing order and writes rank i + 1 at position i. */
    method CalculateRanks(periodType: PeriodType, periodStart: int)
      requires Valid()
      modifies this`entries
      ensures Valid()
      ensures Leaderboard.Unranked(entries) == Leaderboard.Unranked(old(entries))
      ensures Leaderboard.RankedBucket(entries, periodType, periodStart)
      ensures |entries| == |old(entries)|
      ensures forall i :: 0 <= i < |entries| && !Leaderboard.InBucket(old(entries)[i], periodType, periodStart) ==>
        entries[i] == old(entries)[i]
      ensures forall i :: 0 <= i < |entries| ==>
        (Leaderboard.InBucket(entries[i], periodType, periodStart) <==> Leaderboard.InBucket(old(entries)[i], periodType, periodStart))
    {
      var order := Leaderboard.StandingOrder(entries, periodType, periodStart);
      ghost var before := entries;
      WriteRanks(order, periodType, periodStart);
      Leaderboard.InvariantsIgnoreRanks(before, entries);
      Leaderboard.StandingOrderIgnoresRanks(entries, before, periodType, periodStart);
      assert forall j :: 0 <= j < |entries| ==> entries[j].(rank := 0) == before[j].(rank := 0);
    }

    /** The loop of `calculateRanks`: the k-th index of `order` gets rank k + 1, and nothing but ranks changes. */
    method WriteRanks(order: seq<nat>, periodType: PeriodType, periodStart: int)
      requires Leaderboard.IndicesIn(entries, order) && Leaderboard.Distinct(order)
      requires forall k :: 0 <= k < |order| ==> Leaderboard.InBucket(entries[order[k]], periodType, periodStart)
      modifies this`entries
      ensures |entries| == |old(entries)|
      ensures Leaderboard.Unranked(entries) == Leaderboard.Unranked(old(entries))
      ensures forall k :: 0 <= k < |order| ==> entries[order[k]].rank == k + 1
      ensures forall j :: 0 <= j < |entries| && !Leaderboard.InBucket(old(entries)[j], periodType, periodStart) ==>
        entries[j] == old(entries)[j]
    {
      ghost var before := entries;
      var i := 0;
      while i < |order|
        invariant 0 <= i <= |order|
        invariant |entries| == |before|
        invariant Leaderboard.Unranked(entries) == Leaderboard.Unranked(before)
        invariant forall k :: 0 <= k < i ==> entries[order[k]].rank == k + 1
        invariant forall j :: 0 <= j < |entries| && !Leaderboard.InBucket(before[j], periodType, periodStart) ==>
          entries[j] == before[j]
      {
        var k := order[i];
        assert k in order;
        assert forall q :: 0 <= q < i ==> order[q] != k;
        assert Leaderboard.InBucket(before[k], periodType, periodStart);
        Leaderboard.SetRankIgnored(entries, k, i + 1);
        entries := entries[k := entries[k].(rank := i + 1)];
        i := i + 1;
      }
    }
  }
}
