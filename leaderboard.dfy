/** Leaderboard upsert and re-ranking (backend/src/services/typing.service.ts). */
module Leaderboard {
  import opened Basics
  import opened Records
  import Calendar
  import Aggregates

  /** The span `periodEnd` adds to `periodStart`: one day for DAILY, seven days for WEEKLY and also for ALL_TIME. */
  function PeriodLength(pt: PeriodType): (r: int)
    ensures pt == Daily ==> r == 86400000
    ensures pt != Daily ==> r == 7 * 86400000
  {
    if pt == Daily then Calendar.DayMs else Calendar.WeekMs
  }

  predicate HasKey(e: LeaderboardEntry, userId: UserId, pt: PeriodType, ps: int) {
    e.userId == userId && e.periodType == pt && e.periodStart == ps
  }

  predicate InBucket(e: LeaderboardEntry, pt: PeriodType, ps: int) {
    e.periodType == pt && e.periodStart == ps
  }

  /** At most one entry per (userId, periodType, periodStart). */
  predicate KeysUnique(es: seq<LeaderboardEntry>) {
    forall i, j :: 0 <= i < j < |es| ==> !HasKey(es[j], es[i].userId, es[i].periodType, es[i].periodStart)
  }

  /** Every stored entry has folded in at least one session. */
  predicate CountsPositive(es: seq<LeaderboardEntry>) {
    forall i :: 0 <= i < |es| ==> es[i].totalSessions >= 1
  }

  /** `findUnique` on the compound key. */
  function FindEntry(es: seq<LeaderboardEntry>, userId: UserId, pt: PeriodType, ps: int): (r: Option<nat>)
    ensures r.Some? ==> r.value < |es| && HasKey(es[r.value], userId, pt, ps)
    ensures r.None? ==> forall i :: 0 <= i < |es| ==> !HasKey(es[i], userId, pt, ps)
  {
    if es == [] then None
    else if HasKey(es[0], userId, pt, ps) then Some(0)
    else
      match FindEntry(es[1..], userId, pt, ps)
      case Some(k) => Some(k + 1)
      case None => None
  }

  /** The entry created for a user's first session in a bucket; its rank is provisional. */
  function NewEntry(userId: UserId, pt: PeriodType, ps: int, wpm: real, accuracy: real): (e: LeaderboardEntry)
    ensures HasKey(e, userId, pt, ps) && e.wpm == wpm && e.accuracy == accuracy && e.totalSessions == 1
    ensures e.periodEnd == ps + (if pt == Daily then 86400000 else 604800000)
  {
    LeaderboardEntry(userId, pt, ps, ps + PeriodLength(pt), wpm, accuracy, 1, 0)
  }

  /**
   * The entry table after `upsertLeaderboardEntry` has created or updated the user's entry, before
   * re-ranking: an existing entry counts one more session and folds the session's figures into its
   * averages; otherwise a new entry holding the session's figures is added.
   */
  function Upserted(es: seq<LeaderboardEntry>, userId: UserId, pt: PeriodType, ps: int,
                    wpm: real, accuracy: real): (r: seq<LeaderboardEntry>)
    requires CountsPositive(es)
    ensures CountsPositive(r)
    ensures KeysUnique(es) ==> KeysUnique(r)
    ensures FindEntry(es, userId, pt, ps).None? ==> r == es + [NewEntry(userId, pt, ps, wpm, accuracy)]
    ensures FindEntry(es, userId, pt, ps).Some? ==>
      var k := FindEntry(es, userId, pt, ps).value;
      && |r| == |es|
      && (forall i :: 0 <= i < |es| && i != k ==> r[i] == es[i])
      && r[k] == es[k].(totalSessions := es[k].totalSessions + 1,
                        wpm := Aggregates.RunningAverage(es[k].wpm, es[k].totalSessions + 1, wpm),
                        accuracy := Aggregates.RunningAverage(es[k].accuracy, es[k].totalSessions + 1, accuracy))
  {
    match FindEntry(es, userId, pt, ps)
    case Some(k) =>
      var e := es[k];
      var sessionsCount := e.totalSessions + 1;
      es[k := e.(wpm := Aggregates.RunningAverage(e.wpm, sessionsCount, wpm),
                 accuracy := Aggregates.RunningAverage(e.accuracy, sessionsCount, accuracy),
                 totalSessions := sessionsCount)]
    case None =>
      es + [NewEntry(userId, pt, ps, wpm, accuracy)]
  }

  /** After the upsert the user has exactly one entry in the bucket, and it counts one more session. */
  lemma UpsertCountsSession(es: seq<LeaderboardEntry>, userId: UserId, pt: PeriodType, ps: int,
                            wpm: real, accuracy: real)
    requires CountsPositive(es) && KeysUnique(es)
    ensures var r := Upserted(es, userId, pt, ps, wpm, accuracy);
      && FindEntry(r, userId, pt, ps).Some?
      && r[FindEntry(r, userId, pt, ps).value].totalSessions
         == (match FindEntry(es, userId, pt, ps) case Some(k) => es[k].totalSessions case None => 0) + 1
  {
    var r := Upserted(es, userId, pt, ps, wpm, accuracy);
    match FindEntry(es, userId, pt, ps)
    case Some(k) =>
      assert HasKey(r[k], userId, pt, ps);
      var j := FindEntry(r, userId, pt, ps).value;
      assert j == k;
    case None =>
      assert HasKey(r[|es|], userId, pt, ps);
      var j := FindEntry(r, userId, pt, ps).value;
      assert j == |es|;
  }

  /**
   * The upsert touches one bucket only: entries of other buckets are unchanged, no entry changes
   * bucket, and the only entry it may add belongs to the bucket.
   */
  lemma {:induction false} UpsertedStaysInBucket(es: seq<LeaderboardEntry>, userId: UserId, pt: PeriodType, ps: int,
                                                 wpm: real, accuracy: real)
    requires CountsPositive(es)
    ensures var r := Upserted(es, userId, pt, ps, wpm, accuracy);
      && |es| <= |r| <= |es| + 1
      && (forall i :: 0 <= i < |es| && !InBucket(es[i], pt, ps) ==> r[i] == es[i])
      && (forall i :: 0 <= i < |es| ==> (InBucket(r[i], pt, ps) <==> InBucket(es[i], pt, ps)))
      && (forall i :: |es| <= i < |r| ==> InBucket(r[i], pt, ps))
  {
    match FindEntry(es, userId, pt, ps)
    case Some(k) =>
      assert InBucket(es[k], pt, ps);
    case None =>
  }

  // ----- Ordering within a bucket -----

  /** `a` ranks no lower than `b`: wpm descending, then accuracy descending. */
  predicate AtLeast(a: LeaderboardEntry, b: LeaderboardEntry) {
    a.wpm > b.wpm || (a.wpm == b.wpm && a.accuracy >= b.accuracy)
  }

  /** `a` ranks strictly above `b`. */
  predicate Better(a: LeaderboardEntry, b: LeaderboardEntry) {
    a.wpm > b.wpm || (a.wpm == b.wpm && a.accuracy > b.accuracy)
  }

  /** The entries with their ranks blanked: everything ranking does not touch. */
  function Unranked(es: seq<LeaderboardEntry>): (r: seq<LeaderboardEntry>)
    ensures |r| == |es|
    ensures forall i :: 0 <= i < |es| ==> r[i] == es[i].(rank := 0)
  {
    seq(|es|, i requires 0 <= i < |es| => es[i].(rank := 0))
  }

  predicate IndicesIn(es: seq<LeaderboardEntry>, s: seq<nat>) {
    forall p :: 0 <= p < |s| ==> s[p] < |es|
  }

  predicate Distinct(s: seq<nat>) {
    forall p, q :: 0 <= p < q < |s| ==> s[p] != s[q]
  }

  predicate SortedBy(es: seq<LeaderboardEntry>, s: seq<nat>)
    requires IndicesIn(es, s)
  {
    forall p, q :: 0 <= p < q < |s| ==> AtLeast(es[s[p]], es[s[q]])
  }

  /** Indices of the bucket's entries, in table order (the rows `findMany` returns). */
  function BucketIndices(es: seq<LeaderboardEntry>, pt: PeriodType, ps: int): (r: seq<nat>)
    ensures IndicesIn(es, r) && Distinct(r)
    ensures forall i :: 0 <= i < |es| ==> (i in r <==> InBucket(es[i], pt, ps))
  {
    if es == [] then []
    else
      var n := |es| - 1;
      var rest := BucketIndices(es[..n], pt, ps);
      assert forall p :: 0 <= p < |rest| ==> rest[p] < n;
      if InBucket(es[n], pt, ps) then rest + [n] else rest
  }

  /** Inserts `x` before the first entry it ranks no lower than, so ties keep their order. */
  function Insert(es: seq<LeaderboardEntry>, x: nat, s: seq<nat>): (r: seq<nat>)
    requires x < |es| && IndicesIn(es, s) && SortedBy(es, s)
    ensures |r| == |s| + 1 && IndicesIn(es, r) && SortedBy(es, r)
    ensures forall y :: y in r <==> y == x || y in s
    ensures x !in s && Distinct(s) ==> Distinct(r)
  {
    if s == [] then [x]
    else if AtLeast(es[x], es[s[0]]) then
      assert forall y :: y in s ==> AtLeast(es[x], es[y]) by {
        forall y | y in s ensures AtLeast(es[x], es[y]) {
          var q :| 0 <= q < |s| && s[q] == y;
          if q > 0 { assert AtLeast(es[s[0]], es[s[q]]); }
        }
      }
      ConsSorted(es, x, s);
      [x] + s
    else
      var tail := Insert(es, x, s[1..]);
      assert forall y :: y in s[1..] ==> AtLeast(es[s[0]], es[y]);
      assert Distinct(s) ==> s[0] !in s[1..];
      ConsSorted(es, s[0], tail);
      [s[0]] + tail
  }

  /** Putting an index in front of a sorted list of indices it stands at least as well as keeps it sorted. */
  lemma ConsSorted(es: seq<LeaderboardEntry>, h: nat, t: seq<nat>)
    requires h < |es| && IndicesIn(es, t) && SortedBy(es, t)
    requires forall y :: y in t ==> AtLeast(es[h], es[y])
    ensures IndicesIn(es, [h] + t) && SortedBy(es, [h] + t)
    ensures forall y :: y in [h] + t <==> y == h || y in t
    ensures h !in t && Distinct(t) ==> Distinct([h] + t)
  {
    var r := [h] + t;
    assert forall q :: 0 < q < |r| ==> r[q] == t[q - 1] && r[q] in t;
  }

  /** Insertion sort of indices by standing, best first; the order `calculateRanks` asks for. */
  function SortByStanding(es: seq<LeaderboardEntry>, idx: seq<nat>): (r: seq<nat>)
    requires IndicesIn(es, idx)
    ensures |r| == |idx| && IndicesIn(es, r) && SortedBy(es, r)
    ensures forall y :: y in r <==> y in idx
    ensures Distinct(idx) ==> Distinct(r)
  {
    if idx == [] then []
    else
      assert Distinct(idx) ==> idx[0] !in idx[1..];
      Insert(es, idx[0], SortByStanding(es, idx[1..]))
  }

  /** The bucket's entries, best first. */
  function StandingOrder(es: seq<LeaderboardEntry>, pt: PeriodType, ps: int): (r: seq<nat>)
    ensures IndicesIn(es, r) && Distinct(r) && SortedBy(Unranked(es), r)
    ensures |r| == |BucketIndices(es, pt, ps)|
    ensures forall i :: 0 <= i < |es| ==> (i in r <==> InBucket(es[i], pt, ps))
  {
    SortByStanding(Unranked(es), BucketIndices(es, pt, ps))
  }

  /** The bucket's ranks are its positions 1..N in standing order. */
  predicate RankedBucket(es: seq<LeaderboardEntry>, pt: PeriodType, ps: int)
    ensures RankedBucket(es, pt, ps) ==>
      forall i :: 0 <= i < |es| && InBucket(es[i], pt, ps) ==> 1 <= es[i].rank <= |BucketIndices(es, pt, ps)|
    ensures BucketIndices(es, pt, ps) == [] ==> RankedBucket(es, pt, ps)
  {
    var order := StandingOrder(es, pt, ps);
    forall k :: 0 <= k < |order| ==> es[order[k]].rank == k + 1
  }

  /**
   * The rank law of a ranked bucket of N entries: every rank lies in 1..N, no two entries share a
   * rank, and a strictly better entry (higher wpm, or equal wpm and higher accuracy) ranks higher.
   */
  lemma {:induction false} RankLaw(es: seq<LeaderboardEntry>, pt: PeriodType, ps: int, i: int, j: int)
    requires RankedBucket(es, pt, ps)
    requires 0 <= i < |es| && 0 <= j < |es| && InBucket(es[i], pt, ps) && InBucket(es[j], pt, ps)
    ensures 1 <= es[i].rank <= |BucketIndices(es, pt, ps)|
    ensures i != j ==> es[i].rank != es[j].rank
    ensures Better(es[i], es[j]) ==> es[i].rank < es[j].rank
  {
    var order := StandingOrder(es, pt, ps);
    assert i in order && j in order;
    var p :| 0 <= p < |order| && order[p] == i;
    var q :| 0 <= q < |order| && order[q] == j;
    assert es[i].rank == p + 1 && es[j].rank == q + 1;
    if q < p {
      assert AtLeast(Unranked(es)[order[q]], Unranked(es)[order[p]]);
    }
  }

  /** The ranks held by the bucket's entries. */
  function BucketRanks(es: seq<LeaderboardEntry>, pt: PeriodType, ps: int): set<int> {
    set i | 0 <= i < |es| && InBucket(es[i], pt, ps) :: es[i].rank
  }

  /** The ranks of a ranked bucket of N entries are exactly 1..N. */
  lemma {:induction false} RanksExact(es: seq<LeaderboardEntry>, pt: PeriodType, ps: int)
    requires RankedBucket(es, pt, ps)
    ensures forall r :: r in BucketRanks(es, pt, ps) <==> 1 <= r <= |BucketIndices(es, pt, ps)|
  {
    var order := StandingOrder(es, pt, ps);
    var ranks := BucketRanks(es, pt, ps);
    forall r | r in ranks
      ensures 1 <= r <= |BucketIndices(es, pt, ps)|
    {
      var i :| 0 <= i < |es| && InBucket(es[i], pt, ps) && es[i].rank == r;
      RankLaw(es, pt, ps, i, i);
    }
    forall r | 1 <= r <= |BucketIndices(es, pt, ps)|
      ensures r in ranks
    {
      var i := order[r - 1];
      assert i in order;
      assert es[i].rank == r;
    }
  }

  // ----- Stability of the order under changes elsewhere -----

  /** The bucket's indices depend only on which entries belong to it; entries added outside it change nothing. */
  lemma {:induction false} BucketStable(a: seq<LeaderboardEntry>, b: seq<LeaderboardEntry>, pt: PeriodType, ps: int)
    requires |a| <= |b|
    requires forall i :: 0 <= i < |a| ==> (InBucket(a[i], pt, ps) <==> InBucket(b[i], pt, ps))
    requires forall i :: |a| <= i < |b| ==> !InBucket(b[i], pt, ps)
    ensures BucketIndices(a, pt, ps) == BucketIndices(b, pt, ps)
    decreases |b|
  {
    if |b| == 0 {
    } else if |a| < |b| {
      BucketStable(a, b[..|b| - 1], pt, ps);
    } else {
      BucketStable(a[..|a| - 1], b[..|b| - 1], pt, ps);
    }
  }

  /** Sorting looks only at the sorted entries' figures. */
  lemma {:induction false} SortStable(a: seq<LeaderboardEntry>, b: seq<LeaderboardEntry>, idx: seq<nat>)
    requires IndicesIn(a, idx) && IndicesIn(b, idx)
    requires forall p :: 0 <= p < |idx| ==> a[idx[p]] == b[idx[p]]
    ensures SortByStanding(a, idx) == SortByStanding(b, idx)
  {
    if idx != [] {
      var tail := idx[1..];
      SortStable(a, b, tail);
      var s := SortByStanding(a, tail);
      forall p | 0 <= p < |s|
        ensures a[s[p]] == b[s[p]]
      {
        assert s[p] in tail;
        var q :| 0 <= q < |tail| && tail[q] == s[p];
        assert idx[q + 1] == s[p];
      }
      InsertStable(a, b, idx[0], s);
    }
  }

  lemma {:induction false} InsertStable(a: seq<LeaderboardEntry>, b: seq<LeaderboardEntry>, x: nat, s: seq<nat>)
    requires x < |a| && x < |b| && IndicesIn(a, s) && IndicesIn(b, s) && SortedBy(a, s) && SortedBy(b, s)
    requires a[x] == b[x] && forall p :: 0 <= p < |s| ==> a[s[p]] == b[s[p]]
    ensures Insert(a, x, s) == Insert(b, x, s)
  {
    if s != [] && !AtLeast(a[x], a[s[0]]) {
      InsertStable(a, b, x, s[1..]);
    }
  }

  /**
   * Changing or adding entries of other buckets keeps a ranked bucket ranked: its membership,
   * figures and ranks are untouched.
   */
  lemma {:induction false} RankedPreserved(a: seq<LeaderboardEntry>, b: seq<LeaderboardEntry>, pt: PeriodType, ps: int)
    requires RankedBucket(a, pt, ps)
    requires |a| <= |b|
    requires forall i :: 0 <= i < |a| && InBucket(a[i], pt, ps) ==> b[i] == a[i]
    requires forall i :: 0 <= i < |a| && !InBucket(a[i], pt, ps) ==> !InBucket(b[i], pt, ps)
    requires forall i :: |a| <= i < |b| ==> !InBucket(b[i], pt, ps)
    ensures RankedBucket(b, pt, ps)
  {
    BucketStable(a, b, pt, ps);
    var idx := BucketIndices(a, pt, ps);
    forall p | 0 <= p < |idx|
      ensures Unranked(a)[idx[p]] == Unranked(b)[idx[p]]
    {
      assert idx[p] in idx;
    }
    SortStable(Unranked(a), Unranked(b), idx);
    var order := StandingOrder(a, pt, ps);
    assert order == StandingOrder(b, pt, ps);
    forall k | 0 <= k < |order|
      ensures b[order[k]].rank == k + 1
    {
      assert order[k] in order;
    }
  }

  /** Writing one entry's rank leaves the unranked table as it was. */
  lemma SetRankIgnored(es: seq<LeaderboardEntry>, k: int, rank: int)
    requires 0 <= k < |es|
    ensures Unranked(es[k := es[k].(rank := rank)]) == Unranked(es)
  {
    var r := es[k := es[k].(rank := rank)];
    assert forall i :: 0 <= i < |es| ==> Unranked(r)[i] == Unranked(es)[i];
  }

  /** Key uniqueness and positive session counts do not depend on ranks. */
  lemma {:induction false} InvariantsIgnoreRanks(a: seq<LeaderboardEntry>, b: seq<LeaderboardEntry>)
    requires Unranked(a) == Unranked(b)
    requires KeysUnique(a) && CountsPositive(a)
    ensures KeysUnique(b) && CountsPositive(b)
  {
    assert forall i :: 0 <= i < |a| ==> a[i].(rank := 0) == b[i].(rank := 0);
  }

  /** Re-ranking only ranks: with the same unranked table, the same standing order. */
  lemma StandingOrderIgnoresRanks(a: seq<LeaderboardEntry>, b: seq<LeaderboardEntry>, pt: PeriodType, ps: int)
    requires Unranked(a) == Unranked(b)
    ensures StandingOrder(a, pt, ps) == StandingOrder(b, pt, ps)
  {
    assert forall i :: 0 <= i < |a| ==> a[i].(rank := 0) == b[i].(rank := 0);
    BucketStable(a, b, pt, ps);
  }

  /** Folding a session into two entries that differ only in rank gives entries that differ only in rank. */
  lemma FoldIgnoresRank(x: LeaderboardEntry, y: LeaderboardEntry, wpm: real, accuracy: real)
    requires x.(rank := 0) == y.(rank := 0) && x.totalSessions >= 0
    ensures x.(wpm := Aggregates.RunningAverage(x.wpm, x.totalSessions + 1, wpm),
               accuracy := Aggregates.RunningAverage(x.accuracy, x.totalSessions + 1, accuracy),
               totalSessions := x.totalSessions + 1).(rank := 0)
         == y.(wpm := Aggregates.RunningAverage(y.wpm, y.totalSessions + 1, wpm),
               accuracy := Aggregates.RunningAverage(y.accuracy, y.totalSessions + 1, accuracy),
               totalSessions := y.totalSessions + 1).(rank := 0)
  {
    assert x.wpm == y.wpm && x.accuracy == y.accuracy && x.totalSessions == y.totalSessions;
  }

  /** The upsert looks only at keys and figures, never at ranks. */
  lemma {:induction false} UpsertedIgnoresRanks(a: seq<LeaderboardEntry>, b: seq<LeaderboardEntry>, userId: UserId,
                                                pt: PeriodType, ps: int, wpm: real, accuracy: real)
    requires CountsPositive(a) && CountsPositive(b) && Unranked(a) == Unranked(b)
    ensures Unranked(Upserted(a, userId, pt, ps, wpm, accuracy)) == Unranked(Upserted(b, userId, pt, ps, wpm, accuracy))
  {
    assert forall i :: 0 <= i < |a| ==> a[i].(rank := 0) == b[i].(rank := 0);
    FindIgnoresRanks(a, b, userId, pt, ps);
    match FindEntry(a, userId, pt, ps)
    case Some(k) =>
      UpsertedExisting(a, userId, pt, ps, wpm, accuracy, k);
      var x := a[k].(wpm := Aggregates.RunningAverage(a[k].wpm, a[k].totalSessions + 1, wpm),
                     accuracy := Aggregates.RunningAverage(a[k].accuracy, a[k].totalSessions + 1, accuracy),
                     totalSessions := a[k].totalSessions + 1);
      var y := b[k].(wpm := Aggregates.RunningAverage(b[k].wpm, b[k].totalSessions + 1, wpm),
                     accuracy := Aggregates.RunningAverage(b[k].accuracy, b[k].totalSessions + 1, accuracy),
                     totalSessions := b[k].totalSessions + 1);
      UpsertedExisting(b, userId, pt, ps, wpm, accuracy, k);
      FoldIgnoresRank(a[k], b[k], wpm, accuracy);
      UnrankedUpdate(a, b, k, x, y);
    case None =>
      UpsertedAbsent(a, userId, pt, ps, wpm, accuracy);
      UpsertedAbsent(b, userId, pt, ps, wpm, accuracy);
      UnrankedAppend(a, b, NewEntry(userId, pt, ps, wpm, accuracy));
  }

  /** When the key is present at `k`, the upsert replaces entry `k` by its folded form. */
  lemma UpsertedExisting(es: seq<LeaderboardEntry>, userId: UserId, pt: PeriodType, ps: int,
                         wpm: real, accuracy: real, k: nat)
    requires CountsPositive(es) && FindEntry(es, userId, pt, ps) == Some(k)
    ensures k < |es|
    ensures Upserted(es, userId, pt, ps, wpm, accuracy)
      == es[k := es[k].(wpm := Aggregates.RunningAverage(es[k].wpm, es[k].totalSessions + 1, wpm),
                        accuracy := Aggregates.RunningAverage(es[k].accuracy, es[k].totalSessions + 1, accuracy),
                        totalSessions := es[k].totalSessions + 1)]
  {
  }

  /** When the key is absent, the upsert appends a new entry. */
  lemma UpsertedAbsent(es: seq<LeaderboardEntry>, userId: UserId, pt: PeriodType, ps: int, wpm: real, accuracy: real)
    requires CountsPositive(es) && FindEntry(es, userId, pt, ps).None?
    ensures Upserted(es, userId, pt, ps, wpm, accuracy) == es + [NewEntry(userId, pt, ps, wpm, accuracy)]
  {
  }

  /** Replacing one entry on each side by entries that differ only in rank keeps the two sides equal up to ranks. */
  lemma UnrankedUpdate(a: seq<LeaderboardEntry>, b: seq<LeaderboardEntry>, k: nat, x: LeaderboardEntry, y: LeaderboardEntry)
    requires k < |a| && Unranked(a) == Unranked(b) && x.(rank := 0) == y.(rank := 0)
    ensures Unranked(a[k := x]) == Unranked(b[k := y])
  {
    assert forall i :: 0 <= i < |a| ==> Unranked(a)[i] == Unranked(b)[i];
  }

  /** Appending the same entry to two sides equal up to ranks keeps them equal up to ranks. */
  lemma UnrankedAppend(a: seq<LeaderboardEntry>, b: seq<LeaderboardEntry>, x: LeaderboardEntry)
    requires Unranked(a) == Unranked(b)
    ensures Unranked(a + [x]) == Unranked(b + [x])
  {
    assert forall i :: 0 <= i < |a| ==> Unranked(a)[i] == Unranked(b)[i];
  }

  lemma {:induction false} FindIgnoresRanks(a: seq<LeaderboardEntry>, b: seq<LeaderboardEntry>, userId: UserId,
                                            pt: PeriodType, ps: int)
    requires |a| == |b| && forall i :: 0 <= i < |a| ==> a[i].(rank := 0) == b[i].(rank := 0)
    ensures FindEntry(a, userId, pt, ps) == FindEntry(b, userId, pt, ps)
  {
    if a != [] {
      assert a[0].(rank := 0) == b[0].(rank := 0);
      FindIgnoresRanks(a[1..], b[1..], userId, pt, ps);
    }
  }

  /**
   * What one create-or-update followed by re-ranking does to the table `a`, giving `b`: the figures
   * are those of `Upserted`, the bucket is ranked, and no other bucket is touched.
   */
  predicate UpsertStep(a: seq<LeaderboardEntry>, b: seq<LeaderboardEntry>, userId: UserId, pt: PeriodType, ps: int,
                       wpm: real, accuracy: real)
  {
    && CountsPositive(a)
    && Unranked(b) == Unranked(Upserted(a, userId, pt, ps, wpm, accuracy))
    && RankedBucket(b, pt, ps)
    && |a| <= |b|
    && (forall i :: 0 <= i < |a| && !InBucket(a[i], pt, ps) ==> b[i] == a[i])
    && (forall i :: 0 <= i < |a| ==> (InBucket(b[i], pt, ps) <==> InBucket(a[i], pt, ps)))
    && (forall i :: |a| <= i < |b| ==> InBucket(b[i], pt, ps))
  }

  /** A step in one period type keeps every bucket of another period type ranked. */
  lemma {:induction false} UpsertStepKeepsOtherRanked(a: seq<LeaderboardEntry>, b: seq<LeaderboardEntry>, userId: UserId,
                                                      pt: PeriodType, ps: int, wpm: real, accuracy: real,
                                                      other: PeriodType, otherStart: int)
    requires UpsertStep(a, b, userId, pt, ps, wpm, accuracy)
    requires other != pt && RankedBucket(a, other, otherStart)
    ensures RankedBucket(b, other, otherStart)
  {
    RankedPreserved(a, b, other, otherStart);
  }

  /** `a` and `b` belong to the same bucket. */
  predicate SameBucket(a: LeaderboardEntry, b: LeaderboardEntry) {
    a.periodType == b.periodType && a.periodStart == b.periodStart
  }

  /** `e` belongs to the DAILY, WEEKLY or ALL_TIME bucket of a session at `now`. */
  predicate InSessionBuckets(e: LeaderboardEntry, now: int, tz: int) {
    InBucket(e, Daily, Calendar.MidnightOf(now, tz)) || InBucket(e, Weekly, Calendar.WeekStart(now, tz))
    || InBucket(e, AllTime, 0)
  }

  /** No entry changes bucket in one step. */
  lemma StepKeepsBuckets(a: seq<LeaderboardEntry>, b: seq<LeaderboardEntry>, userId: UserId, pt: PeriodType, ps: int,
                         wpm: real, accuracy: real)
    requires UpsertStep(a, b, userId, pt, ps, wpm, accuracy)
    ensures forall i :: 0 <= i < |a| ==> SameBucket(b[i], a[i])
  {
  }

  /**
   * What `updateLeaderboard` leaves behind: the figures of `BucketsUpserted`, and the DAILY, WEEKLY
   * and ALL_TIME buckets of the session each ranked. No entry changes bucket, entries outside those
   * three buckets keep everything including their rank, and every added entry lies in one of them.
   */
  predicate BucketsRefreshed(before: seq<LeaderboardEntry>, after: seq<LeaderboardEntry>, userId: UserId,
                             wpm: real, accuracy: real, now: int, tz: int)
    requires CountsPositive(before)
  {
    && Unranked(after) == Unranked(BucketsUpserted(before, userId, wpm, accuracy, now, tz))
    && RankedBucket(after, Daily, Calendar.MidnightOf(now, tz))
    && RankedBucket(after, Weekly, Calendar.WeekStart(now, tz))
    && RankedBucket(after, AllTime, 0)
    && |before| <= |after|
    && (forall i :: 0 <= i < |before| ==> SameBucket(after[i], before[i]))
    && (forall i :: 0 <= i < |before| && !InSessionBuckets(before[i], now, tz) ==> after[i] == before[i])
    && (forall i :: |before| <= i < |after| ==> InSessionBuckets(after[i], now, tz))
  }

  /**
   * Three steps, DAILY then WEEKLY then ALL_TIME, give the figures of `BucketsUpserted` with all
   * three buckets ranked and every other entry left as it was.
   */
  lemma {:induction false} BucketSteps(e0: seq<LeaderboardEntry>, e1: seq<LeaderboardEntry>, e2: seq<LeaderboardEntry>,
                                       e3: seq<LeaderboardEntry>, userId: UserId, wpm: real, accuracy: real, now: int, tz: int)
    requires CountsPositive(e1) && CountsPositive(e2)
    requires UpsertStep(e0, e1, userId, Daily, Calendar.MidnightOf(now, tz), wpm, accuracy)
    requires UpsertStep(e1, e2, userId, Weekly, Calendar.WeekStart(now, tz), wpm, accuracy)
    requires UpsertStep(e2, e3, userId, AllTime, 0, wpm, accuracy)
    ensures BucketsRefreshed(e0, e3, userId, wpm, accuracy, now, tz)
  {
    var today := Calendar.MidnightOf(now, tz);
    var weekStart := Calendar.WeekStart(now, tz);
    var d := Upserted(e0, userId, Daily, today, wpm, accuracy);
    var w := Upserted(d, userId, Weekly, weekStart, wpm, accuracy);
    UpsertedIgnoresRanks(e1, d, userId, Weekly, weekStart, wpm, accuracy);
    UpsertedIgnoresRanks(e2, w, userId, AllTime, 0, wpm, accuracy);
    UpsertStepKeepsOtherRanked(e1, e2, userId, Weekly, weekStart, wpm, accuracy, Daily, today);
    UpsertStepKeepsOtherRanked(e2, e3, userId, AllTime, 0, wpm, accuracy, Daily, today);
    UpsertStepKeepsOtherRanked(e2, e3, userId, AllTime, 0, wpm, accuracy, Weekly, weekStart);
    StepsFrame(e0, e1, e2, e3, userId, wpm, accuracy, now, tz);
  }

  /** The frame part of `BucketSteps`: buckets are kept, other entries untouched, new entries in the session's buckets. */
  lemma {:induction false} StepsFrame(e0: seq<LeaderboardEntry>, e1: seq<LeaderboardEntry>, e2: seq<LeaderboardEntry>,
                                      e3: seq<LeaderboardEntry>, userId: UserId, wpm: real, accuracy: real, now: int, tz: int)
    requires UpsertStep(e0, e1, userId, Daily, Calendar.MidnightOf(now, tz), wpm, accuracy)
    requires UpsertStep(e1, e2, userId, Weekly, Calendar.WeekStart(now, tz), wpm, accuracy)
    requires UpsertStep(e2, e3, userId, AllTime, 0, wpm, accuracy)
    ensures |e0| <= |e3|
    ensures forall i :: 0 <= i < |e0| ==> SameBucket(e3[i], e0[i])
    ensures forall i :: 0 <= i < |e0| && !InSessionBuckets(e0[i], now, tz) ==> e3[i] == e0[i]
    ensures forall i :: |e0| <= i < |e3| ==> InSessionBuckets(e3[i], now, tz)
  {
    var today := Calendar.MidnightOf(now, tz);
    var weekStart := Calendar.WeekStart(now, tz);
    StepKeepsBuckets(e0, e1, userId, Daily, today, wpm, accuracy);
    StepKeepsBuckets(e1, e2, userId, Weekly, weekStart, wpm, accuracy);
    StepKeepsBuckets(e2, e3, userId, AllTime, 0, wpm, accuracy);
    forall i | 0 <= i < |e0| && !InSessionBuckets(e0[i], now, tz)
      ensures e3[i] == e0[i]
    {
      assert e1[i] == e0[i];
      assert e2[i] == e1[i];
    }
    forall i | |e0| <= i < |e3|
      ensures InSessionBuckets(e3[i], now, tz)
    {
      if i < |e1| {
        assert InBucket(e1[i], Daily, today) && SameBucket(e2[i], e1[i]) && SameBucket(e3[i], e2[i]);
      } else if i < |e2| {
        assert InBucket(e2[i], Weekly, weekStart) && SameBucket(e3[i], e2[i]);
      }
    }
  }

  /**
   * `updateLeaderboard` writes no rank outside the session's three buckets, so every other bucket
   * that was ranked stays ranked.
   */
  lemma {:induction false} RefreshKeepsOtherRanked(before: seq<LeaderboardEntry>, after: seq<LeaderboardEntry>,
                                                   userId: UserId, wpm: real, accuracy: real, now: int, tz: int,
                                                   pt: PeriodType, ps: int)
    requires CountsPositive(before) && BucketsRefreshed(before, after, userId, wpm, accuracy, now, tz)
    requires RankedBucket(before, pt, ps)
    requires (pt, ps) != (Daily, Calendar.MidnightOf(now, tz)) && (pt, ps) != (Weekly, Calendar.WeekStart(now, tz))
    requires (pt, ps) != (AllTime, 0)
    ensures RankedBucket(after, pt, ps)
  {
    forall i | 0 <= i < |before| && InBucket(before[i], pt, ps)
      ensures after[i] == before[i]
    {
      assert !InSessionBuckets(before[i], now, tz);
    }
    RankedPreserved(before, after, pt, ps);
  }

  /** The three buckets a session at `now` falls into, upserted in the order DAILY, WEEKLY, ALL_TIME. */
  function BucketsUpserted(es: seq<LeaderboardEntry>, userId: UserId, wpm: real, accuracy: real,
                           now: int, tz: int): (r: seq<LeaderboardEntry>)
    requires CountsPositive(es)
    ensures CountsPositive(r)
    ensures KeysUnique(es) ==> KeysUnique(r)
  {
    var daily := Upserted(es, userId, Daily, Calendar.MidnightOf(now, tz), wpm, accuracy);
    var weekly := Upserted(daily, userId, Weekly, Calendar.WeekStart(now, tz), wpm, accuracy);
    Upserted(weekly, userId, AllTime, 0, wpm, accuracy)
  }
}
