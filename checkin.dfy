/**
 * The check-in ledger of src/controllers/checkinController.js: the Checkin
 * records (src/models/Checkin.js), the PointHistory entries
 * (src/models/PointHistory.js), the `checkIn` handler that appends to both,
 * the point total and the two monthly histories.
 */
module Checkins {
  import opened Wrappers
  import opened TimeUtils

  /** A user, identified as the source identifies it by `_id`. */
  type UserId = nat

  /** A Checkin record: `{ userId, checkinAt, type }` (timestamps equal `checkinAt`). */
  datatype Checkin = Checkin(userId: UserId, checkinAt: LocalTime, kind: CheckinType)

  /** The `type` of a PointHistory entry: 'in', 'out' or 'redeem'. */
  datatype PointType = In | Out | Redeem

  /** The embedded `checkin: { checkinAt, type }` of a PointHistory entry. */
  datatype CheckinSnapshot = CheckinSnapshot(checkinAt: LocalTime, kind: CheckinType)

  /** A PointHistory entry: `{ userId, point, type, checkin }` and its `createdAt`. */
  datatype PointEntry = PointEntry(userId: UserId, point: int, kind: PointType,
                                   checkin: Option<CheckinSnapshot>, createdAt: LocalTime)

  /** Points credited by one check-in. */
  const CHECKIN_POINT := 5

  /** The ceiling of the reported point total. */
  const MAX_TOTAL_POINT := 1800

  // ---------------------------------------------------------------------
  // The two predicates of checkIn
  // ---------------------------------------------------------------------

  /**
   * `isCheckinTimeAvailable(type)`: "now" lies in the window of `kind`,
   * both ends included.
   */
  predicate IsCheckinTimeAvailable(kind: CheckinType, now: LocalTime)
    ensures IsCheckinTimeAvailable(kind, now) <==> StartOfDay(kind) <= now.ms <= EndOfDay(kind)
  {
    var w := WindowOn(kind, now);
    SameDateOrder(w.start, now);
    SameDateOrder(now, w.end);
    Rank(w.start) <= Rank(now) <= Rank(w.end)
  }

  /** The condition of the `findOne` query: same user and type, `$gte start`, `$lt end`. */
  predicate MatchesExistQuery(c: Checkin, userId: UserId, kind: CheckinType, w: Window)
  {
    c.userId == userId && c.kind == kind && Rank(w.start) <= Rank(c.checkinAt) < Rank(w.end)
  }

  /** A record of `userId` and `kind` on the date of `now`, inside the window with its end left out. */
  predicate InSameWindow(c: Checkin, userId: UserId, kind: CheckinType, now: LocalTime)
  {
    c.userId == userId && c.kind == kind && c.checkinAt.date == now.date &&
    StartOfDay(kind) <= c.checkinAt.ms < EndOfDay(kind)
  }

  /** The query bounds mean: the same date, at or after the start, strictly before the end. */
  lemma ExistQueryMeans(c: Checkin, userId: UserId, kind: CheckinType, now: LocalTime)
    ensures MatchesExistQuery(c, userId, kind, WindowOn(kind, now)) <==> InSameWindow(c, userId, kind, now)
  {
    var w := WindowOn(kind, now);
    RankOrder(w.start, c.checkinAt);
    RankOrder(c.checkinAt, w.end);
    DayRankOrder(w.start.date, c.checkinAt.date);
    DayRankOrder(c.checkinAt.date, w.end.date);
  }

  /**
   * `isExistCheckin(userId, type)`: some stored record matches the query.
   * The end of the window is excluded here, unlike in `IsCheckinTimeAvailable`.
   */
  predicate IsExistCheckin(checkins: seq<Checkin>, userId: UserId, kind: CheckinType, now: LocalTime)
    ensures IsExistCheckin(checkins, userId, kind, now) <==>
      exists i :: 0 <= i < |checkins| && InSameWindow(checkins[i], userId, kind, now)
  {
    if checkins == [] then false
    else
      var last := checkins[|checkins| - 1];
      ExistQueryMeans(last, userId, kind, now);
      assert checkins == checkins[..|checkins| - 1] + [last];
      MatchesExistQuery(last, userId, kind, WindowOn(kind, now)) ||
      IsExistCheckin(checkins[..|checkins| - 1], userId, kind, now)
  }

  // ---------------------------------------------------------------------
  // checkIn
  // ---------------------------------------------------------------------

  /** What `checkIn` answers. */
  datatype CheckinOutcome =
    | Created(checkin: Checkin)
    | TimeNotAvailable
    | AlreadyCheckedIn
    | InternalError
  {
    function Status(): int
    {
      match this
      case Created(_) => 201
      case TimeNotAvailable => 422
      case AlreadyCheckedIn => 422
      case InternalError => 500
    }

    function Message(): string
    {
      match this
      case Created(_) => "OK"
      case TimeNotAvailable => "CHECKIN_TIME_NOT_AVAILABLE"
      case AlreadyCheckedIn => "ALREADY_CHECKED_IN"
      case InternalError => "INTERNAL_SERVER_ERROR"
    }
  }

  /**
   * The decision `checkIn` takes for `userId`, the request's `type` string
   * and the instant `now`. A string that names no window makes
   * `checkInTime` yield undefined; destructuring it throws, and the handler
   * answers 500.
   */
  function Decide(checkins: seq<Checkin>, userId: UserId, kind: string, now: LocalTime): (r: CheckinOutcome)
    ensures r == InternalError <==> kind != "morning" && kind != "evening"
    ensures match ParseCheckinType(kind)
      case None => true
      case Some(t) =>
        && (r == TimeNotAvailable <==> !(StartOfDay(t) <= now.ms <= EndOfDay(t)))
        && (r == AlreadyCheckedIn <==>
              StartOfDay(t) <= now.ms <= EndOfDay(t) &&
              exists i :: 0 <= i < |checkins| && InSameWindow(checkins[i], userId, t, now))
        && (r.Created? <==>
              StartOfDay(t) <= now.ms <= EndOfDay(t) &&
              forall i :: 0 <= i < |checkins| ==> !InSameWindow(checkins[i], userId, t, now))
        && (r.Created? ==> r.checkin == Checkin(userId, now, t))
  {
    match ParseCheckinType(kind)
    case None => InternalError
    case Some(t) =>
      if !IsCheckinTimeAvailable(t, now) then TimeNotAvailable
      else if IsExistCheckin(checkins, userId, t, now) then AlreadyCheckedIn
      else Created(Checkin(userId, now, t))
  }

  /** The PointHistory entry written after a check-in: +5, type 'in', with a snapshot of the record. */
  function CreditFor(c: Checkin): (e: PointEntry)
    ensures e.userId == c.userId && e.point == CHECKIN_POINT && e.kind == In
    ensures e.checkin == Some(CheckinSnapshot(c.checkinAt, c.kind)) && e.createdAt == c.checkinAt
  {
    PointEntry(c.userId, CHECKIN_POINT, In, Some(CheckinSnapshot(c.checkinAt, c.kind)), c.checkinAt)
  }

  /** Two records of one user, type and date, both inside the window with its end left out. */
  predicate SameWindow(a: Checkin, b: Checkin)
  {
    InSameWindow(a, b.userId, b.kind, b.checkinAt) && InSameWindow(b, a.userId, a.kind, a.checkinAt)
  }

  /** At most one record per user, type and date inside the window with its end left out. */
  ghost predicate AtMostOnePerWindow(checkins: seq<Checkin>)
  {
    forall i, j :: 0 <= i < j < |checkins| ==> !SameWindow(checkins[i], checkins[j])
  }

  /** A check-in that `Decide` admits keeps every window's records unique. */
  lemma CheckInKeepsUnique(checkins: seq<Checkin>, userId: UserId, kind: string, now: LocalTime)
    requires AtMostOnePerWindow(checkins)
    requires Decide(checkins, userId, kind, now).Created?
    ensures AtMostOnePerWindow(checkins + [Decide(checkins, userId, kind, now).checkin])
  {
    var c := Decide(checkins, userId, kind, now).checkin;
    var s := checkins + [c];
    forall i, j | 0 <= i < j < |s|
      ensures !SameWindow(s[i], s[j])
    {
      if j == |checkins| {
        assert s[i] == checkins[i];
        assert !InSameWindow(checkins[i], userId, c.kind, now);
      } else {
        assert s[i] == checkins[i] && s[j] == checkins[j];
      }
    }
  }

  /** Once a check-in inside the window is stored, a later one in the same window is refused. */
  lemma SecondCheckInRefused(checkins: seq<Checkin>, userId: UserId, kind: string, now: LocalTime, later: LocalTime)
    requires Decide(checkins, userId, kind, now).Created?
    requires now.ms < EndOfDay(Decide(checkins, userId, kind, now).checkin.kind)
    requires later.date == now.date && now.ms <= later.ms
    requires later.ms <= EndOfDay(Decide(checkins, userId, kind, now).checkin.kind)
    ensures Decide(checkins + [Decide(checkins, userId, kind, now).checkin], userId, kind, later) == AlreadyCheckedIn
  {
    var c := Decide(checkins, userId, kind, now).checkin;
    var s := checkins + [c];
    assert InSameWindow(s[|checkins|], userId, c.kind, later);
  }

  /**
   * The asymmetry of the two bounds: a check-in at the very end of the
   * window is accepted but not seen by the duplicate query, so a second one
   * at the same instant is accepted too.
   */
  lemma CheckInAtWindowEndRepeats(checkins: seq<Checkin>, userId: UserId, kind: string, now: LocalTime)
    requires Decide(checkins, userId, kind, now).Created?
    requires now.ms == EndOfDay(Decide(checkins, userId, kind, now).checkin.kind)
    ensures Decide(checkins + [Decide(checkins, userId, kind, now).checkin], userId, kind, now).Created?
  {
    var c := Decide(checkins, userId, kind, now).checkin;
    var s := checkins + [c];
    forall i | 0 <= i < |s| ensures !InSameWindow(s[i], userId, c.kind, now) {
      if i < |checkins| {
        assert s[i] == checkins[i];
      }
    }
  }

  /** The concrete instance: two morning check-ins at 13:00:00.000 are both accepted. */
  lemma DoubleMorningCheckInAtOnePm(userId: UserId, d: CalendarDate)
    ensures Decide([], userId, "morning", LocalTime(d, 13 * MS_PER_HOUR)) == Created(Checkin(userId, LocalTime(d, 13 * MS_PER_HOUR), Morning))
    ensures Decide([Checkin(userId, LocalTime(d, 13 * MS_PER_HOUR), Morning)], userId, "morning", LocalTime(d, 13 * MS_PER_HOUR)).Created?
  {
    CheckInAtWindowEndRepeats([], userId, "morning", LocalTime(d, 13 * MS_PER_HOUR));
  }

  // ---------------------------------------------------------------------
  // getTotalPoint
  // ---------------------------------------------------------------------

  /** The `$match: { userId }` stage. */
  function EntriesOf(entries: seq<PointEntry>, userId: UserId): (r: seq<PointEntry>)
    ensures forall e :: e in r <==> e in entries && e.userId == userId
    ensures |r| <= |entries|
  {
    if entries == [] then []
    else (if entries[0].userId == userId then [entries[0]] else []) + EntriesOf(entries[1..], userId)
  }

  /** The `$sum: '$point'` of a group. */
  function SumOfPoints(entries: seq<PointEntry>): int
  {
    if entries == [] then 0 else entries[0].point + SumOfPoints(entries[1..])
  }

  /** The reference fold: the points of `userId`'s entries, added up in one pass. */
  function UserPoints(entries: seq<PointEntry>, userId: UserId): int
  {
    if entries == [] then 0
    else (if entries[0].userId == userId then entries[0].point else 0) + UserPoints(entries[1..], userId)
  }

  lemma {:induction false} PipelineIsFold(entries: seq<PointEntry>, userId: UserId)
    ensures SumOfPoints(EntriesOf(entries, userId)) == UserPoints(entries, userId)
  {
    if entries != [] {
      PipelineIsFold(entries[1..], userId);
      var head := if entries[0].userId == userId then [entries[0]] else [];
      SumOfPointsAppend(head, EntriesOf(entries[1..], userId));
    }
  }

  lemma {:induction false} SumOfPointsAppend(a: seq<PointEntry>, b: seq<PointEntry>)
    ensures SumOfPoints(a + b) == SumOfPoints(a) + SumOfPoints(b)
  {
    if a == [] {
      assert a + b == b;
    } else {
      assert (a + b)[0] == a[0] && (a + b)[1..] == a[1..] + b;
      SumOfPointsAppend(a[1..], b);
    }
  }

  /**
   * `getTotalPoint(userId)`: 0 when the user has no entries (the aggregate is
   * empty), otherwise the sum clamped to [0, 1800].
   */
  function GetTotalPoint(entries: seq<PointEntry>, userId: UserId): (r: int)
    ensures 0 <= r <= MAX_TOTAL_POINT
    ensures (forall e :: e in entries ==> e.userId != userId) ==> r == 0
    ensures UserPoints(entries, userId) < 0 ==> r == 0
    ensures UserPoints(entries, userId) > MAX_TOTAL_POINT ==> r == MAX_TOTAL_POINT
    ensures 0 <= UserPoints(entries, userId) <= MAX_TOTAL_POINT ==> r == UserPoints(entries, userId)
  {
    var matched := EntriesOf(entries, userId);
    PipelineIsFold(entries, userId);
    if matched == [] then 0
    else
      var total := SumOfPoints(matched);
      if total < 0 then 0
      else if total > MAX_TOTAL_POINT then MAX_TOTAL_POINT
      else total
  }

  lemma {:induction false} UserPointsAppend(entries: seq<PointEntry>, e: PointEntry, userId: UserId)
    ensures UserPoints(entries + [e], userId) ==
      UserPoints(entries, userId) + (if e.userId == userId then e.point else 0)
  {
    if entries != [] {
      assert (entries + [e])[1..] == entries[1..] + [e];
      UserPointsAppend(entries[1..], e, userId);
    }
  }

  /**
   * A check-in credits its user 5 points (while the sum stays within the
   * clamp) and leaves every other user's total as it was.
   */
  lemma CheckInCreditsFive(entries: seq<PointEntry>, c: Checkin, other: UserId)
    requires 0 <= UserPoints(entries, c.userId) <= MAX_TOTAL_POINT - CHECKIN_POINT
    requires other != c.userId
    ensures GetTotalPoint(entries + [CreditFor(c)], c.userId) == GetTotalPoint(entries, c.userId) + CHECKIN_POINT
    ensures GetTotalPoint(entries + [CreditFor(c)], other) == GetTotalPoint(entries, other)
  {
    UserPointsAppend(entries, CreditFor(c), c.userId);
    UserPointsAppend(entries, CreditFor(c), other);
    assert CreditFor(c) in entries + [CreditFor(c)];
    if forall e :: e in entries + [CreditFor(c)] ==> e.userId != other {
      assert forall e :: e in entries ==> e.userId != other;
    }
  }

  // ---------------------------------------------------------------------
  // The two monthly histories
  // ---------------------------------------------------------------------

  ghost predicate SortedBy<T>(s: seq<T>, key: T -> int)
  {
    forall i, j :: 0 <= i < j < |s| ==> key(s[i]) <= key(s[j])
  }

  /** Putting in front an element no larger than the first keeps a sequence sorted. */
  lemma SortedCons<T>(x: T, s: seq<T>, key: T -> int)
    requires SortedBy(s, key)
    requires s != [] ==> key(x) <= key(s[0])
    ensures SortedBy([x] + s, key)
  {
    var r := [x] + s;
    forall i, j | 0 <= i < j < |r| ensures key(r[i]) <= key(r[j]) {
      if i == 0 && j > 1 {
        assert key(s[0]) <= key(s[j - 1]);
      }
    }
  }

  lemma SortedTail<T>(s: seq<T>, key: T -> int)
    requires SortedBy(s, key) && s != []
    ensures SortedBy(s[1..], key)
  {
    forall i, j | 0 <= i < j < |s| - 1 ensures key(s[1..][i]) <= key(s[1..][j]) {
      assert s[1..][i] == s[i + 1] && s[1..][j] == s[j + 1];
    }
  }

  function Insert<T>(x: T, s: seq<T>, key: T -> int): (r: seq<T>)
    requires SortedBy(s, key)
    ensures SortedBy(r, key)
    ensures multiset(r) == multiset(s) + multiset{x}
    ensures |r| == |s| + 1 && (r[0] == x || (s != [] && r[0] == s[0]))
  {
    if s == [] then [x]
    else if key(x) <= key(s[0]) then
      SortedCons(x, s, key);
      [x] + s
    else
      SortedTail(s, key);
      var rest := Insert(x, s[1..], key);
      InsertBehind(x, s, rest, key);
      [s[0]] + rest
  }

  /** The step of `Insert` that keeps the first element in front. */
  lemma InsertBehind<T>(x: T, s: seq<T>, rest: seq<T>, key: T -> int)
    requires SortedBy(s, key) && s != [] && key(s[0]) < key(x)
    requires SortedBy(rest, key) && multiset(rest) == multiset(s[1..]) + multiset{x}
    requires |rest| == |s| && (rest[0] == x || (|s| > 1 && rest[0] == s[1]))
    ensures SortedBy([s[0]] + rest, key)
    ensures multiset([s[0]] + rest) == multiset(s) + multiset{x}
  {
    SortedCons(s[0], rest, key);
    assert s == [s[0]] + s[1..];
  }

  /** `.sort({ field: 'asc' })`, as an insertion sort on the key. */
  function SortBy<T>(s: seq<T>, key: T -> int): (r: seq<T>)
    ensures SortedBy(r, key)
    ensures multiset(r) == multiset(s)
  {
    if s == [] then []
    else
      assert s == [s[0]] + s[1..];
      Insert(s[0], SortBy(s[1..], key), key)
  }

  /** The `find({ userId, checkinAt: { $gte, $lt } })` of `checkInHistory`. */
  function CheckinsInMonth(checkins: seq<Checkin>, userId: UserId, now: LocalTime): (r: seq<Checkin>)
    ensures forall c :: c in r <==> c in checkins && c.userId == userId && InMonthQuery(c.checkinAt, now)
  {
    if checkins == [] then []
    else
      (if checkins[0].userId == userId && InMonthQuery(checkins[0].checkinAt, now) then [checkins[0]] else []) +
      CheckinsInMonth(checkins[1..], userId, now)
  }

  function CheckinKey(c: Checkin): int { Rank(c.checkinAt) }

  /**
   * `checkInHistory`: the user's records of the month of `now` (up to, not
   * including, its last millisecond), in ascending order of `checkinAt`.
   * The answer is 200 whether or not the list is empty.
   */
  function CheckInHistory(checkins: seq<Checkin>, userId: UserId, now: LocalTime): (r: seq<Checkin>)
    ensures forall i, j :: 0 <= i < j < |r| ==> Rank(r[i].checkinAt) <= Rank(r[j].checkinAt)
    ensures multiset(r) == multiset(CheckinsInMonth(checkins, userId, now))
    ensures forall c :: c in r <==> c in checkins && c.userId == userId && InMonthQuery(c.checkinAt, now)
  {
    var r := SortBy(CheckinsInMonth(checkins, userId, now), CheckinKey);
    assert forall c :: c in r <==> c in multiset(r);
    r
  }

  /** A record belongs to the month's history exactly when it is dated in that month, save its last millisecond. */
  lemma CheckInHistoryMeans(checkins: seq<Checkin>, userId: UserId, now: LocalTime, c: Checkin)
    ensures c in CheckInHistory(checkins, userId, now) <==>
      c in checkins && c.userId == userId &&
      c.checkinAt.date.year == now.date.year && c.checkinAt.date.month == now.date.month &&
      !(c.checkinAt.date.day == DaysInMonth(now.date.year, now.date.month) && c.checkinAt.ms == MS_PER_DAY - 1)
  {
    InMonthQueryMeans(c.checkinAt, now);
  }

  /** The `find({ userId, createdAt: { $gte, $lt } })` of `checkInPointHistory`. */
  function EntriesInMonth(entries: seq<PointEntry>, userId: UserId, now: LocalTime): (r: seq<PointEntry>)
    ensures forall e :: e in r <==> e in entries && e.userId == userId && InMonthQuery(e.createdAt, now)
  {
    if entries == [] then []
    else
      (if entries[0].userId == userId && InMonthQuery(entries[0].createdAt, now) then [entries[0]] else []) +
      EntriesInMonth(entries[1..], userId, now)
  }

  function EntryKey(e: PointEntry): int { Rank(e.createdAt) }

  /**
   * `checkInPointHistory`: the user's point entries created in the month of
   * `now`, ascending by `createdAt`. The query result is an array, which is
   * always truthy, so the 404 branch is never taken and the answer is 200.
   */
  function CheckInPointHistory(entries: seq<PointEntry>, userId: UserId, now: LocalTime): (r: seq<PointEntry>)
    ensures forall i, j :: 0 <= i < j < |r| ==> Rank(r[i].createdAt) <= Rank(r[j].createdAt)
    ensures multiset(r) == multiset(EntriesInMonth(entries, userId, now))
    ensures forall e :: e in r <==> e in entries && e.userId == userId && InMonthQuery(e.createdAt, now)
  {
    var r := SortBy(EntriesInMonth(entries, userId, now), EntryKey);
    assert forall e :: e in r <==> e in multiset(r);
    r
  }

  // ---------------------------------------------------------------------
  // The two collections
  // ---------------------------------------------------------------------

  /** The Checkin and PointHistory collections, both only ever appended to. */
  class CheckinLedger {
    var checkins: seq<Checkin>
    var pointHistory: seq<PointEntry>

    ghost predicate Valid()
      reads this
    {
      AtMostOnePerWindow(checkins)
    }

    constructor ()
      ensures Valid() && checkins == [] && pointHistory == []
    {
      checkins := [];
      pointHistory := [];
    }

    /**
     * `checkIn`: the window check, then the duplicate check, and on success
     * one Checkin record and then one +5 PointHistory entry; on every other
     * outcome nothing is written.
     */
    method CheckIn(userId: UserId, kind: string, now: LocalTime) returns (r: CheckinOutcome)
      requires Valid()
      modifies this
      ensures Valid()
      ensures r == Decide(old(checkins), userId, kind, now)
      ensures r.Created? ==> checkins == old(checkins) + [r.checkin] &&
                             pointHistory == old(pointHistory) + [CreditFor(r.checkin)]
      ensures !r.Created? ==> checkins == old(checkins) && pointHistory == old(pointHistory)
    {
      r := Decide(checkins, userId, kind, now);
      if r.Created? {
        CheckInKeepsUnique(checkins, userId, kind, now);
        checkins := checkins + [r.checkin];
        pointHistory := pointHistory + [CreditFor(r.checkin)];
      }
    }

    /** `checkInStatistic` / `getTotalPoint` over the stored entries. */
    function TotalPoint(userId: UserId): (r: int)
      reads this
      ensures 0 <= r <= MAX_TOTAL_POINT
      ensures (forall e :: e in pointHistory ==> e.userId != userId) ==> r == 0
      ensures UserPoints(pointHistory, userId) < 0 ==> r == 0
      ensures UserPoints(pointHistory, userId) > MAX_TOTAL_POINT ==> r == MAX_TOTAL_POINT
      ensures 0 <= UserPoints(pointHistory, userId) <= MAX_TOTAL_POINT ==> r == UserPoints(pointHistory, userId)
    {
      GetTotalPoint(pointHistory, userId)
    }
  }
}
