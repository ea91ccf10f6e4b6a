/** The stored records of the back end, one datatype per table. */
module Records {
  import opened Basics
  import KeyStats

  type UserId = string

  datatype SessionType = Lesson | Practice | TimedTest | Custom

  datatype CriteriaType = TotalLessons | TotalWpm | Accuracy | StreakDays | TotalTime | PerfectLesson | Level

  datatype PeriodType = Daily | Weekly | AllTime

  /** The submitted result of one session; `duration` is in whole seconds. */
  datatype TypingResult = TypingResult(
    wpm: real, accuracy: real, errors: int, totalKeys: int,
    keyPresses: map<string, KeyStats.KeyData>, duration: int,
    textId: Option<string>, customText: Option<string>, lessonId: Option<string>)

  /** A user's cumulative learning state (credentials and preferences are not part of this model). */
  datatype User = User(
    id: UserId, level: int, xp: int, currentStreak: int, longestStreak: int,
    totalTime: int, totalLessons: int, avgWpm: real, avgAccuracy: real)

  /** A stored session; `id` is its position in the session table. */
  datatype PracticeSession = PracticeSession(
    id: nat, userId: UserId, sessionType: SessionType,
    textId: Option<string>, customText: Option<string>, lessonId: Option<string>,
    duration: int, wpm: real, accuracy: real, errors: int, totalKeys: int,
    keyPresses: map<string, KeyStats.KeyData>, startTime: int, endTime: int)

  datatype Achievement = Achievement(id: string, name: string, criteriaType: CriteriaType, criteriaValue: int)

  datatype UserAchievement = UserAchievement(userId: UserId, achievementId: string, unlockedAt: int)

  /** A user's standing in one period bucket, keyed by (userId, periodType, periodStart). */
  datatype LeaderboardEntry = LeaderboardEntry(
    userId: UserId, periodType: PeriodType, periodStart: int, periodEnd: int,
    wpm: real, accuracy: real, totalSessions: int, rank: int)
}
