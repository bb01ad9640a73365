/**
 * Trading-hours scheduling of the option-chain collector: whether the clock
 * is inside the trading session, when the next five-minute update falls, the
 * delay the collector's cycle schedules itself with, and the `HH:MM` bucket
 * key that groups stored rows per minute.
 *
 * A wall-clock instant is a day number and a time of day in whole seconds.
 */
module MarketClock {

  datatype DateTime = DateTime(day: int, hour: int, minute: int, second: int)

  /** What Python's `datetime` guarantees about its fields. */
  predicate Valid(t: DateTime) {
    0 <= t.hour < 24 && 0 <= t.minute < 60 && 0 <= t.second < 60
  }

  function TimeOfDay(t: DateTime): int {
    t.hour * 3600 + t.minute * 60 + t.second
  }

  /** Seconds since the start of day 0: the order of instants. */
  function Seconds(t: DateTime): int {
    t.day * 86400 + TimeOfDay(t)
  }

  lemma TimeOfDayRange(t: DateTime)
    requires Valid(t)
    ensures 0 <= TimeOfDay(t) < 86400
  {
  }

  /** The instant a given number of seconds after the start of day 0. */
  function FromSeconds(n: int): (t: DateTime)
    ensures Valid(t) && Seconds(t) == n
  {
    var minutes, sec := n / 60, n % 60;
    var hours, m := minutes / 60, minutes % 60;
    var d, h := hours / 24, hours % 24;
    assert n == 60 * minutes + sec;
    assert minutes == 60 * hours + m;
    assert hours == 24 * d + h;
    DateTime(d, h, m, sec)
  }

  const OpenSecond: int := 9 * 3600
  const CloseSecond: int := 15 * 3600 + 40 * 60

  /** `is_market_hours`: 09:00:00 <= time of day <= 15:40:00, both ends included. */
  predicate IsMarketHours(t: DateTime) {
    OpenSecond <= TimeOfDay(t) <= CloseSecond
  }

  lemma MarketHoursByFields(t: DateTime)
    requires Valid(t)
    ensures IsMarketHours(t) <==>
      9 <= t.hour && (t.hour < 15 || (t.hour == 15 && (t.minute < 40 || (t.minute == 40 && t.second == 0))))
  {
  }

  /** A whole five-minute mark: second 0 and a minute that is a multiple of 5. */
  predicate OnFiveMinuteMark(t: DateTime) {
    t.second == 0 && t.minute % 5 == 0
  }

  /**
   * The next five-minute mark of the current hour, rolled into the next hour
   * when it reaches minute 60, taken as a `replace` of the current instant;
   * five minutes are added if it is not later than now.
   */
  function NextFiveMinuteSlot(t: DateTime): (r: DateTime)
    requires Valid(t) && (t.hour < 23 || t.minute < 55)
  {
    var nextMinute := (t.minute / 5 + 1) * 5;
    var candidate :=
      if nextMinute >= 60 then DateTime(t.day, t.hour + 1, 0, 0)
      else DateTime(t.day, t.hour, nextMinute, 0);
    if Seconds(candidate) <= Seconds(t) then FromSeconds(Seconds(candidate) + 300)
    else candidate
  }

  /** The candidate slot is already strictly later than now, so five minutes are never added. */
  lemma SlotNeverInPast(t: DateTime)
    requires Valid(t) && (t.hour < 23 || t.minute < 55)
    ensures var nextMinute := (t.minute / 5 + 1) * 5;
      var candidate :=
        if nextMinute >= 60 then DateTime(t.day, t.hour + 1, 0, 0)
        else DateTime(t.day, t.hour, nextMinute, 0);
      Seconds(candidate) > Seconds(t) && NextFiveMinuteSlot(t) == candidate
  {
  }

  /**
   * `get_next_update_time` as written: before 09:00 it is 09:00:00 today;
   * when the hour is at least 15 AND the minute is at least 40 it is 09:00:00
   * tomorrow; otherwise the next five-minute slot.
   */
  function NextUpdateTimeAsWritten(t: DateTime): (r: DateTime)
    requires Valid(t)
    ensures Valid(r) && OnFiveMinuteMark(r)
    ensures Seconds(r) > Seconds(t)
    ensures t.hour < 9 ==> r == DateTime(t.day, 9, 0, 0)
    ensures t.hour >= 15 && t.minute >= 40 ==> r == DateTime(t.day + 1, 9, 0, 0)
    ensures t.hour >= 9 && !(t.hour >= 15 && t.minute >= 40) ==> r.day == t.day
  {
    if t.hour < 9 then DateTime(t.day, 9, 0, 0)
    else if t.hour >= 15 && t.minute >= 40 then DateTime(t.day + 1, 9, 0, 0)
    else
      SlotNeverInPast(t);
      NextFiveMinuteSlot(t)
  }

  /** Because the after-close test is a conjunction, 16:05 is scheduled for 16:10, outside trading hours. */
  lemma AfterCloseConjunctionMisses()
    ensures NextUpdateTimeAsWritten(DateTime(0, 16, 5, 0)) == DateTime(0, 16, 10, 0)
    ensures !IsMarketHours(NextUpdateTimeAsWritten(DateTime(0, 16, 5, 0)))
  {
    SlotNeverInPast(DateTime(0, 16, 5, 0));
  }

  /** "After 3:40 PM" as a time-of-day comparison. */
  predicate AfterClose(t: DateTime) {
    t.hour > 15 || (t.hour == 15 && t.minute >= 40)
  }

  /** `get_next_update_time` with the after-close test comparing (hour, minute) with 15:40. */
  function NextUpdateTime(t: DateTime): (r: DateTime)
    requires Valid(t)
    ensures Valid(r) && OnFiveMinuteMark(r) && IsMarketHours(r)
    ensures Seconds(r) > Seconds(t)
  {
    if t.hour < 9 then DateTime(t.day, 9, 0, 0)
    else if AfterClose(t) then DateTime(t.day + 1, 9, 0, 0)
    else
      SlotNeverInPast(t);
      NextFiveMinuteSlot(t)
  }

  /** Every valid instant sits inside its own day. */
  lemma DayOrder(u: DateTime, t: DateTime)
    requires Valid(u) && Valid(t)
    ensures u.day < t.day ==> Seconds(u) < Seconds(t)
    ensures u.day == t.day ==> (Seconds(u) < Seconds(t) <==> TimeOfDay(u) < TimeOfDay(t))
  {
  }

  /** Minute of the day of a five-minute mark is a multiple of 5. */
  lemma MarkMinuteOfDay(u: DateTime, t: DateTime)
    requires Valid(u) && Valid(t) && OnFiveMinuteMark(u)
    requires u.day == t.day && TimeOfDay(u) > TimeOfDay(t)
    ensures u.hour * 60 + u.minute >= t.hour * 60 + (t.minute / 5 + 1) * 5
  {
    var mu := u.hour * 60 + u.minute;
    var mt := t.hour * 60 + t.minute;
    assert mu * 60 > mt * 60;
    assert mu > mt;
    assert mu % 5 == 0;
    var q := t.minute / 5;
    assert t.minute == 5 * q + t.minute % 5;
    assert mu == 5 * (mu / 5);
    assert t.hour * 60 + 5 * q <= mt < t.hour * 60 + 5 * q + 5;
    assert 5 * (mu / 5) > t.hour * 60 + 5 * q - 1 + 0;
    assert mu / 5 > t.hour * 12 + q - 1;
    assert mu / 5 >= t.hour * 12 + q + 1;
  }

  /** The next five-minute slot is the earliest five-minute mark strictly later than now. */
  lemma SlotIsEarliest(t: DateTime, u: DateTime)
    requires Valid(t) && (t.hour < 23 || t.minute < 55)
    requires Valid(u) && OnFiveMinuteMark(u) && Seconds(u) > Seconds(t)
    ensures Seconds(NextFiveMinuteSlot(t)) <= Seconds(u)
  {
    DayOrder(u, t);
    DayOrder(t, u);
    SlotNeverInPast(t);
    assert u.day >= t.day;
    if u.day == t.day {
      MarkMinuteOfDay(u, t);
    }
  }

  /**
   * As written, from 09:00 on and outside the conjunction the schedule is
   * the earliest five-minute mark strictly later than now, whether or not
   * it falls inside trading hours.
   */
  lemma NextUpdateTimeAsWrittenIsEarliest(t: DateTime, u: DateTime)
    requires Valid(t) && t.hour >= 9 && !(t.hour >= 15 && t.minute >= 40)
    requires Valid(u) && OnFiveMinuteMark(u) && Seconds(u) > Seconds(t)
    ensures Seconds(NextUpdateTimeAsWritten(t)) <= Seconds(u)
  {
    SlotIsEarliest(t, u);
  }

  /**
   * The corrected schedule is the earliest five-minute mark inside trading
   * hours that is strictly later than now.
   */
  lemma {:induction false} NextUpdateTimeIsEarliest(t: DateTime, u: DateTime)
    requires Valid(t) && Valid(u)
    requires OnFiveMinuteMark(u) && IsMarketHours(u) && Seconds(u) > Seconds(t)
    ensures Seconds(NextUpdateTime(t)) <= Seconds(u)
  {
    var r := NextUpdateTime(t);
    DayOrder(u, t);
    DayOrder(t, u);
    if t.hour < 9 {
      assert u.day >= t.day;
    } else if AfterClose(t) {
      assert u.day != t.day;
      assert u.day >= t.day + 1;
    } else {
      SlotIsEarliest(t, u);
    }
  }

  /** What one run of the collector's cycle does: whether it fetches, and the delay it schedules itself with. */
  datatype CycleStep = CycleStep(fetches: bool, delayMs: int)

  /** `now + 5 minutes` with the seconds cleared. */
  function NextAnalysis(now: DateTime): (r: DateTime)
    requires Valid(now)
    ensures Valid(r) && r.second == 0
    ensures Seconds(r) == Seconds(now) + 300 - now.second
  {
    var later := FromSeconds(Seconds(now) + 300);
    SecondOfMinute(now.day * 1440 + now.hour * 60 + now.minute + 5, now.second);
    DateTime(later.day, later.hour, later.minute, 0)
  }

  lemma SecondOfMinute(k: int, s: int)
    requires 0 <= s < 60
    ensures FromSeconds(60 * k + s).second == s
  {
    var n := 60 * k + s;
    assert n / 60 == k;
  }

  /**
   * `run_cycle`: inside trading hours it fetches; in both branches the next
   * run is scheduled at the next analysis instant, in milliseconds, with a
   * 1000 ms fallback when that delay is not positive on the closed-market
   * branch.  An exception escaping the body reschedules after 5000 ms.
   */
  function RunCycle(now: DateTime, raised: bool): (c: CycleStep)
    requires Valid(now)
    ensures c.fetches <==> IsMarketHours(now)
    ensures raised ==> c.delayMs == 5000
    ensures !raised ==> c.delayMs == 1000 * (300 - now.second)
    ensures !raised ==> 241000 <= c.delayMs <= 300000
  {
    var delay := (Seconds(NextAnalysis(now)) - Seconds(now)) * 1000;
    if raised then CycleStep(IsMarketHours(now), 5000)
    else if IsMarketHours(now) then CycleStep(true, delay)
    else if delay > 0 then CycleStep(false, delay)
    else CycleStep(false, 1000)
  }

  /** A digit character. */
  function Digit(d: int): char
    requires 0 <= d < 10
  {
    (48 + d) as char
  }

  /** `strftime('%H:%M', date_time)`: the per-minute bucket key. */
  function BucketKey(hour: int, minute: int): (k: string)
    requires 0 <= hour < 24 && 0 <= minute < 60
    ensures |k| == 5 && k[2] == ':'
  {
    [Digit(hour / 10), Digit(hour % 10), ':', Digit(minute / 10), Digit(minute % 10)]
  }

  /** Strict lexicographic order on strings, as SQLite's text comparison orders `HH:MM` keys. */
  predicate LexLess(a: string, b: string) {
    exists i :: 0 <= i <= |a| && i <= |b| && a[..i] == b[..i] &&
      ((i == |a| && i < |b|) || (i < |a| && i < |b| && a[i] < b[i]))
  }

  lemma LexLessAt(a: string, b: string, i: nat)
    requires i < |a| && i < |b| && a[..i] == b[..i] && a[i] < b[i]
    ensures LexLess(a, b)
  {
  }

  lemma NotLexLessEqualLength(a: string, b: string)
    requires |a| == |b|
    requires forall i :: 0 <= i < |a| ==> a[..i] == b[..i] ==> a[i] >= b[i]
    ensures !LexLess(a, b)
  {
  }

  /**
   * Ordering rows by the bucket key orders them by time of day: the key of
   * an earlier minute is lexicographically smaller, so the window functions'
   * `ORDER BY` on the key is ordering by minute.
   */
  lemma {:induction false} BucketKeyOrder(h1: int, m1: int, h2: int, m2: int)
    requires 0 <= h1 < 24 && 0 <= m1 < 60 && 0 <= h2 < 24 && 0 <= m2 < 60
    ensures LexLess(BucketKey(h1, m1), BucketKey(h2, m2)) <==> h1 * 60 + m1 < h2 * 60 + m2
  {
    var a, b := BucketKey(h1, m1), BucketKey(h2, m2);
    if h1 * 60 + m1 < h2 * 60 + m2 {
      if h1 / 10 < h2 / 10 {
        LexLessAt(a, b, 0);
      } else if h1 < h2 {
        assert a[..1] == b[..1];
        LexLessAt(a, b, 1);
      } else if m1 / 10 < m2 / 10 {
        assert a[..3] == b[..3];
        LexLessAt(a, b, 3);
      } else {
        assert a[..4] == b[..4];
        LexLessAt(a, b, 4);
      }
    } else {
      forall i | 0 <= i < |a| && a[..i] == b[..i] ensures a[i] >= b[i] {
        if i > 0 { assert a[0] == a[..i][0] == b[..i][0] == b[0]; }
        if i > 1 { assert a[1] == a[..i][1] == b[..i][1] == b[1]; }
        if i > 3 { assert a[3] == a[..i][3] == b[..i][3] == b[3]; }
      }
      NotLexLessEqualLength(a, b);
    }
  }
}
