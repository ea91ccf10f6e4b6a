/** Achievement evaluation as `checkAchievements` performs it (backend/src/services/typing.service.ts). */
module Achievements {
  import opened Basics
  import opened Records

  /** Whether `userId` already holds an unlock record for achievement `aid`. */
  predicate HasUnlocked(uas: seq<UserAchievement>, userId: UserId, aid: string) {
    exists k :: 0 <= k < |uas| && uas[k].userId == userId && uas[k].achievementId == aid
  }

  /** No two achievements share an id. */
  predicate DistinctIds(achs: seq<Achievement>) {
    forall i, j :: 0 <= i < j < |achs| ==> achs[i].id != achs[j].id
  }

  /** At most one unlock record per (user, achievement) pair. */
  predicate PairsUnique(uas: seq<UserAchievement>) {
    forall i, j :: 0 <= i < j < |uas| ==>
      uas[i].userId != uas[j].userId || uas[i].achievementId != uas[j].achievementId
  }

  /** The achievements the user has not unlocked yet, in table order (the `findMany` query). */
  function Candidates(achs: seq<Achievement>, uas: seq<UserAchievement>, userId: UserId): (r: seq<Achievement>)
    ensures forall a :: a in r ==> a in achs && !HasUnlocked(uas, userId, a.id)
    ensures forall a :: a in achs && !HasUnlocked(uas, userId, a.id) ==> a in r
    ensures DistinctIds(achs) ==> DistinctIds(r)
    ensures |r| <= |achs|
  {
    if achs == [] then []
    else
      var init := achs[..|achs| - 1];
      var last := achs[|achs| - 1];
      var rest := Candidates(init, uas, userId);
      assert forall a :: a in achs <==> a in init || a == last;
      assert DistinctIds(achs) ==> forall a :: a in init ==> a.id != last.id;
      if HasUnlocked(uas, userId, last.id) then rest else rest + [last]
  }

  /** The criterion types `checkAchievements` evaluates; every other type is skipped. */
  predicate Evaluated(t: CriteriaType)
  {
    t.TotalWpm? || t.Accuracy? || t.StreakDays?
  }

  /**
   * The criterion of one achievement. Only TOTAL_WPM (the stored average), ACCURACY (this session)
   * and STREAK_DAYS (the stored streak) are evaluated; every other type never unlocks, and the two
   * user-based types never unlock without a user record.
   */
  predicate Unlocks(a: Achievement, user: Option<User>, result: TypingResult)
    ensures Unlocks(a, user, result) ==> Evaluated(a.criteriaType)
    ensures a.criteriaType == Accuracy ==> (Unlocks(a, user, result) <==> result.accuracy >= a.criteriaValue as real)
  {
    match a.criteriaType
    case TotalWpm => user.Some? && user.value.avgWpm >= a.criteriaValue as real
    case Accuracy => result.accuracy >= a.criteriaValue as real
    case StreakDays => user.Some? && user.value.currentStreak >= a.criteriaValue
    case _ => false
  }

  /** The candidates whose criterion holds, in candidate order. */
  function Qualifying(cands: seq<Achievement>, user: Option<User>, result: TypingResult): (r: seq<Achievement>)
    ensures forall a :: a in r ==> a in cands && Unlocks(a, user, result)
    ensures forall a :: a in cands && Unlocks(a, user, result) ==> a in r
    ensures DistinctIds(cands) ==> DistinctIds(r)
    ensures |r| <= |cands|
  {
    if cands == [] then []
    else
      var init := cands[..|cands| - 1];
      var last := cands[|cands| - 1];
      var rest := Qualifying(init, user, result);
      assert forall a :: a in cands <==> a in init || a == last;
      assert DistinctIds(cands) ==> forall a :: a in init ==> a.id != last.id;
      if Unlocks(last, user, result) then rest + [last] else rest
  }

  /** One unlock record per achievement, stamped with the user and the time. */
  function RecordsFor(achs: seq<Achievement>, userId: UserId, now: int): (r: seq<UserAchievement>)
    ensures |r| == |achs|
    ensures forall k :: 0 <= k < |r| ==> r[k] == UserAchievement(userId, achs[k].id, now)
  {
    if achs == [] then []
    else RecordsFor(achs[..|achs| - 1], userId, now) + [UserAchievement(userId, achs[|achs| - 1].id, now)]
  }

  /**
   * The records the evaluation loop writes while it walks over `cands` in order: one more record
   * for each candidate whose criterion holds.
   */
  function Walk(cands: seq<Achievement>, user: Option<User>, result: TypingResult, userId: UserId, now: int): seq<UserAchievement>
  {
    if cands == [] then []
    else
      var last := cands[|cands| - 1];
      Walk(cands[..|cands| - 1], user, result, userId, now)
      + (if Unlocks(last, user, result) then [UserAchievement(userId, last.id, now)] else [])
  }

  /** The walk writes exactly the records for the qualifying candidates, in candidate order. */
  lemma {:induction false} WalkIsQualifying(cands: seq<Achievement>, user: Option<User>, result: TypingResult,
                                            userId: UserId, now: int)
    ensures Walk(cands, user, result, userId, now) == RecordsFor(Qualifying(cands, user, result), userId, now)
  {
    if cands != [] {
      var init, last := cands[..|cands| - 1], cands[|cands| - 1];
      WalkIsQualifying(init, user, result, userId, now);
      var q := Qualifying(init, user, result);
      if Unlocks(last, user, result) {
        assert (q + [last])[..|q|] == q;
      }
    }
  }

  /** Without a stored user only ACCURACY achievements can unlock, and exactly those this session's accuracy reaches. */
  lemma NoUserOnlyAccuracy(cands: seq<Achievement>, result: TypingResult)
    ensures forall a :: a in Qualifying(cands, None, result)
              <==> a in cands && a.criteriaType == Accuracy && result.accuracy >= a.criteriaValue as real
  {
    forall a | a in cands
      ensures Unlocks(a, None, result) <==> a.criteriaType == Accuracy && result.accuracy >= a.criteriaValue as real
    {
      match a.criteriaType
      case Accuracy =>
      case _ =>
    }
  }

  /** The records `checkAchievements` adds for `userId`, given the user as stored after the stats update. */
  function Unlocked(achs: seq<Achievement>, uas: seq<UserAchievement>, userId: UserId,
                    user: Option<User>, result: TypingResult, now: int): (r: seq<UserAchievement>)
    ensures |r| <= |achs|
    ensures forall k :: 0 <= k < |r| ==> r[k].userId == userId && r[k].unlockedAt == now
  {
    RecordsFor(Qualifying(Candidates(achs, uas, userId), user, result), userId, now)
  }

  /**
   * An achievement is never unlocked twice for a user: adding the new records keeps every
   * (user, achievement) pair unique, and each new record is for an achievement that was not held.
   */
  lemma {:induction false} UnlockKeepsPairsUnique(achs: seq<Achievement>, uas: seq<UserAchievement>,
                                                  userId: UserId, user: Option<User>, result: TypingResult, now: int)
    requires DistinctIds(achs) && PairsUnique(uas)
    ensures PairsUnique(uas + Unlocked(achs, uas, userId, user, result, now))
    ensures forall k :: 0 <= k < |Unlocked(achs, uas, userId, user, result, now)| ==>
      !HasUnlocked(uas, userId, Unlocked(achs, uas, userId, user, result, now)[k].achievementId)
  {
    var q := Qualifying(Candidates(achs, uas, userId), user, result);
    var added := RecordsFor(q, userId, now);
    forall k | 0 <= k < |added|
      ensures !HasUnlocked(uas, userId, added[k].achievementId)
    {
      assert q[k] in q;
    }
    var all := uas + added;
    forall i, j | 0 <= i < j < |all|
      ensures all[i].userId != all[j].userId || all[i].achievementId != all[j].achievementId
    {
      if j >= |uas| && i < |uas| {
        assert all[i] == uas[i] && all[j] == added[j - |uas|];
        assert !HasUnlocked(uas, userId, added[j - |uas|].achievementId);
      } else if i >= |uas| {
        assert all[i] == added[i - |uas|] && all[j] == added[j - |uas|];
      }
    }
  }

  /** Each new record names an achievement of one of the three evaluated types whose criterion holds. */
  lemma {:induction false} UnlockedMeetCriteria(achs: seq<Achievement>, uas: seq<UserAchievement>,
                                                userId: UserId, user: Option<User>, result: TypingResult, now: int)
    ensures forall k :: 0 <= k < |Unlocked(achs, uas, userId, user, result, now)| ==>
      exists a :: (a in achs && a.id == Unlocked(achs, uas, userId, user, result, now)[k].achievementId
                   && Unlocks(a, user, result) && Evaluated(a.criteriaType))
  {
    var q := Qualifying(Candidates(achs, uas, userId), user, result);
    var added := Unlocked(achs, uas, userId, user, result, now);
    assert added == RecordsFor(q, userId, now);
    forall k | 0 <= k < |added|
      ensures exists a :: (a in achs && a.id == added[k].achievementId
                           && Unlocks(a, user, result) && Evaluated(a.criteriaType))
    {
      var a := q[k];
      assert a in q;
      assert a in Candidates(achs, uas, userId) && Unlocks(a, user, result);
      assert a in achs && a.id == added[k].achievementId;
    }
  }

  /** Conversely, every achievement not yet held whose criterion holds gets a record. */
  lemma {:induction false} QualifyingAllUnlocked(achs: seq<Achievement>, uas: seq<UserAchievement>,
                                                 userId: UserId, user: Option<User>, result: TypingResult, now: int,
                                                 a: Achievement)
    requires a in achs && !HasUnlocked(uas, userId, a.id) && Unlocks(a, user, result)
    ensures UserAchievement(userId, a.id, now) in Unlocked(achs, uas, userId, user, result, now)
  {
    var q := Qualifying(Candidates(achs, uas, userId), user, result);
    var i :| 0 <= i < |q| && q[i] == a;
    assert RecordsFor(q, userId, now)[i] == UserAchievement(userId, a.id, now);
  }
}
