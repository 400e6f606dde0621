/**
 * Calendar arithmetic behind the trailing business-day window
 * (internal/engine/pdt.go). A day is a day number, day 0 being Thursday
 * 1 January 1970; an instant is a day and a time of day, both in UTC.
 */
module Calendar {

  const NANOS_PER_DAY := 86_400_000_000_000

  type TimeOfDay = n: nat | n < NANOS_PER_DAY

  datatype Instant = Instant(day: int, time: TimeOfDay)
  {
    predicate Before(other: Instant) {
      day < other.day || (day == other.day && time < other.time)
    }

    predicate After(other: Instant) {
      other.Before(this)
    }

    /** The same time of day, `days` calendar days later. */
    function AddDays(days: int): Instant {
      Instant(day + days, time)
    }

    /** Nanoseconds since the start of day 0. */
    function Nanos(): int {
      day * NANOS_PER_DAY + time
    }

    predicate IsMidnight() {
      time == 0
    }
  }

  /** Nanoseconds count the same time that days and times of day do. */
  lemma NanosCountTime(t: Instant, u: Instant)
    ensures t.Before(u) <==> t.Nanos() < u.Nanos()
    ensures t.day == u.day ==> u.Nanos() - t.Nanos() == u.time - t.time
    ensures t.AddDays(1).Nanos() - t.Nanos() == 24 * 60 * 60 * 1_000_000_000
    ensures !t.AddDays(1).Before(t) && t.AddDays(1).time == t.time
  {
  }

  /** The instant at which a DATE begins. */
  function DateOf(day: int): Instant {
    Instant(day, 0)
  }

  /** Go's numbering: Sunday is 0 and Saturday is 6. */
  function Weekday(day: int): nat {
    (day + 4) % 7
  }

  const SUNDAY: nat := 0
  const SATURDAY: nat := 6

  predicate IsWeekday(day: int) {
    Weekday(day) != SATURDAY && Weekday(day) != SUNDAY
  }

  // ---- Counting weekdays, one day at a time and in closed form ----

  /** The number of weekdays in [from, to). */
  function WeekdaysBetween(from: int, to: int): nat
    decreases if from < to then to - from else 0
  {
    if to <= from then 0
    else WeekdaysBetween(from, to - 1) + if IsWeekday(to - 1) then 1 else 0
  }

  /** The weekdays themselves. */
  ghost function WeekdaySet(from: int, to: int): set<int> {
    set d | from <= d < to && IsWeekday(d)
  }

  lemma {:induction false} WeekdaysBetweenCounts(from: int, to: int)
    ensures WeekdaysBetween(from, to) == |WeekdaySet(from, to)|
    decreases if from < to then to - from else 0
  {
    if to <= from {
      assert WeekdaySet(from, to) == {};
    } else {
      WeekdaysBetweenCounts(from, to - 1);
      assert WeekdaySet(from, to) == WeekdaySet(from, to - 1) + if IsWeekday(to - 1) then {to - 1} else {};
    }
  }

  /** The running number of a day among the weekdays: how many weekdays precede it, up to a constant. */
  function Ordinal(day: int): int {
    var monday := day + 3;
    5 * (monday / 7) + if monday % 7 < 5 then monday % 7 else 5
  }

  /** The weekday with a given running number. */
  function WeekdayAt(ordinal: int): int {
    7 * (ordinal / 5) + ordinal % 5 - 3
  }

  lemma OrdinalStep(day: int)
    ensures Ordinal(day + 1) == Ordinal(day) + if IsWeekday(day) then 1 else 0
  {
  }

  /** Seven days hold five weekdays. */
  lemma OrdinalWeek(day: int)
    ensures Ordinal(day + 7) == Ordinal(day) + 5
  {
  }

  lemma WeekdayAtOrdinal(day: int)
    requires IsWeekday(day)
    ensures WeekdayAt(Ordinal(day)) == day
  {
    var q, r := (day + 3) / 7, (day + 3) % 7;
    assert r < 5;
    assert (5 * q + r) / 5 == q && (5 * q + r) % 5 == r;
  }

  lemma OrdinalWeekdayAt(ordinal: int)
    ensures IsWeekday(WeekdayAt(ordinal))
    ensures Ordinal(WeekdayAt(ordinal)) == ordinal
  {
    var q, r := ordinal / 5, ordinal % 5;
    assert WeekdayAt(ordinal) + 3 == 7 * q + r;
    assert (7 * q + r) / 7 == q && (7 * q + r) % 7 == r;
  }

  /** Counting day by day agrees with subtracting running numbers. */
  lemma {:induction false} CountIsDifference(from: int, to: int)
    requires from <= to
    ensures WeekdaysBetween(from, to) == Ordinal(to) - Ordinal(from)
    decreases if from < to then to - from else 0
  {
    if from < to {
      CountIsDifference(from, to - 1);
      OrdinalStep(to - 1);
    }
  }

  lemma OrdinalMonotone(from: int, to: int)
    requires from <= to
    ensures Ordinal(from) <= Ordinal(to)
  {
    CountIsDifference(from, to);
  }

  /** At most five weekdays in a week or less, and at least six from a weekday over more than a week. */
  lemma WeekHoldsFive(from: int, to: int)
    requires from <= to <= from + 7
    ensures WeekdaysBetween(from, to) <= 5
  {
    CountIsDifference(from, to);
    OrdinalMonotone(to, from + 7);
    OrdinalWeek(from);
  }

  lemma MoreThanAWeekHoldsSix(from: int, to: int)
    requires IsWeekday(from) && from + 7 < to
    ensures WeekdaysBetween(from, to) >= 6
  {
    CountIsDifference(from, to);
    OrdinalStep(from);
    OrdinalWeek(from + 1);
    OrdinalMonotone(from + 8, to);
  }

  // ---- Walking back over business days ----

  /** Where the walk ends: in closed form, with no walking. */
  function StartDay(from: int, days: int): int {
    if days <= 0 then from else WeekdayAt(Ordinal(from) - days)
  }

  function WindowStart(from: Instant, days: int): Instant {
    Instant(StartDay(from.day, days), from.time)
  }

  /** How many weekend days lie immediately before `day`. */
  function WeekendBehind(day: int): nat {
    if IsWeekday(day - 1) then 0 else if IsWeekday(day - 2) then 1 else 2
  }

  /** The walk: step back a day at a time and count the weekdays stepped on. */
  method BusinessDaysBack(from: Instant, days: int) returns (d: Instant)
    ensures d == WindowStart(from, days)
  {
    d := from;
    var counted := 0;
    while counted < days
      invariant 0 <= counted && (0 <= days ==> counted <= days)
      invariant d.time == from.time && d.day <= from.day
      invariant Ordinal(d.day) == Ordinal(from.day) - counted
      invariant days <= 0 ==> d == from
      invariant counted > 0 && counted == days ==> IsWeekday(d.day)
      decreases days - counted, WeekendBehind(d.day)
    {
      d := d.AddDays(-1);
      OrdinalStep(d.day);
      if Weekday(d.day) != SATURDAY && Weekday(d.day) != SUNDAY {
        counted := counted + 1;
      }
    }
    if days > 0 {
      WeekdayAtOrdinal(d.day);
    }
  }

  /** What the walk finds: the latest day with exactly `days` weekdays from it up to `from`, and that day is a weekday. */
  lemma StartDayIsLatest(from: int, days: int)
    requires days >= 1
    ensures IsWeekday(StartDay(from, days)) && StartDay(from, days) < from
    ensures WeekdaysBetween(StartDay(from, days), from) == days
    ensures forall e :: e <= from && WeekdaysBetween(e, from) == days ==> e <= StartDay(from, days)
  {
    var start := StartDay(from, days);
    OrdinalWeekdayAt(Ordinal(from) - days);
    if from <= start {
      OrdinalMonotone(from, start);
      assert false;
    }
    CountIsDifference(start, from);
    forall e | e <= from && WeekdaysBetween(e, from) == days
      ensures e <= start
    {
      if start < e {
        CountIsDifference(e, from);
        CountIsDifference(start, e);
        CountIsDifference(start, start + 1);
        OrdinalMonotone(start + 1, e);
        OrdinalStep(start);
        assert false;
      }
    }
  }

  /** Walking back m business days and then n more is walking back m + n. */
  lemma WalksCompose(from: int, m: int, n: int)
    requires 0 <= m && 0 <= n
    ensures StartDay(StartDay(from, m), n) == StartDay(from, m + n)
  {
    OrdinalWeekdayAt(Ordinal(from) - m);
  }

  lemma WeekdayAtMonotone(i: int, j: int)
    ensures i < j ==> WeekdayAt(i) < WeekdayAt(j)
  {
  }

  /** On days the walk is monotone; it is constant exactly across a stretch of weekend days. */
  lemma StartDayMonotone(day1: int, day2: int, days: int)
    requires day1 <= day2 && 1 <= days
    ensures StartDay(day1, days) <= StartDay(day2, days)
    ensures StartDay(day1, days) == StartDay(day2, days) <==> WeekdaysBetween(day1, day2) == 0
  {
    CountIsDifference(day1, day2);
    WeekdayAtMonotone(Ordinal(day1) - days, Ordinal(day2) - days);
  }

  /**
   * On instants it is not: the walk keeps the time of day. It is monotone for
   * a pair of instants except when only weekend days separate them and the
   * later instant has the earlier time of day.
   */
  lemma WindowStartMonotoneIff(t1: Instant, t2: Instant, days: int)
    requires !t2.Before(t1) && 1 <= days
    ensures !WindowStart(t2, days).Before(WindowStart(t1, days))
       <==> WeekdaysBetween(t1.day, t2.day) > 0 || t1.time <= t2.time
  {
    StartDayMonotone(t1.day, t2.day, days);
  }

  /** Saturday 23:00 maps to a later instant than the following Sunday 01:00. */
  lemma WindowStartNotMonotone()
    ensures exists t1: Instant, t2: Instant ::
      t1.Before(t2) && Weekday(t1.day) == SATURDAY && WindowStart(t2, 5).Before(WindowStart(t1, 5))
  {
    var hour := NANOS_PER_DAY / 24;
    var t1, t2 := Instant(2, 23 * hour), Instant(3, hour);
    assert t1.Before(t2) && Weekday(t1.day) == SATURDAY && WindowStart(t2, 5).Before(WindowStart(t1, 5));
  }

  /** How far five business days reach back on the calendar. */
  lemma FiveBusinessDaysReach(day: int)
    ensures IsWeekday(day) ==> StartDay(day, 5) == day - 7
    ensures Weekday(day) == SATURDAY ==> StartDay(day, 5) == day - 5
    ensures Weekday(day) == SUNDAY ==> StartDay(day, 5) == day - 6
  {
  }

  // ---- Which dates the window holds ----

  /** A date is in the window when its midnight is neither before the start nor after the end. */
  predicate DateInWindow(day: int, asOf: Instant, days: int) {
    !DateOf(day).Before(WindowStart(asOf, days)) && !DateOf(day).After(asOf)
  }

  ghost function BusinessDates(asOf: Instant, days: int): set<int> {
    set d | StartDay(asOf.day, days) <= d <= asOf.day && IsWeekday(d) && DateInWindow(d, asOf, days)
  }

  /** No weekday outside that range is in the window, so BusinessDates holds them all. */
  lemma BusinessDatesComplete(day: int, asOf: Instant, days: int)
    requires 1 <= days
    ensures day in BusinessDates(asOf, days) <==> IsWeekday(day) && DateInWindow(day, asOf, days)
  {
  }

  /**
   * The exact number of business dates in a window of n business days: the
   * current date counts if it is a weekday, and the oldest date is lost unless
   * the window is taken at midnight.
   */
  lemma WindowSize(asOf: Instant, days: int)
    requires 1 <= days
    ensures |BusinessDates(asOf, days)|
         == days + (if IsWeekday(asOf.day) then 1 else 0) - (if asOf.IsMidnight() then 0 else 1)
    ensures forall day :: day in BusinessDates(asOf, days) <==> IsWeekday(day) && DateInWindow(day, asOf, days)
  {
    forall day: int
      ensures day in BusinessDates(asOf, days) <==> IsWeekday(day) && DateInWindow(day, asOf, days)
    {
      BusinessDatesComplete(day, asOf, days);
    }
    var start := StartDay(asOf.day, days);
    var first := if asOf.IsMidnight() then start else start + 1;
    StartDayIsLatest(asOf.day, days);
    assert BusinessDates(asOf, days) == WeekdaySet(first, asOf.day + 1);
    WeekdaysBetweenCounts(first, asOf.day + 1);
    SkipFirst(start, asOf.day + 1);
  }

  lemma SkipFirst(start: int, end: int)
    requires IsWeekday(start) && start < end
    ensures WeekdaysBetween(start + 1, end) == WeekdaysBetween(start, end) - 1
  {
    CountIsDifference(start, end);
    CountIsDifference(start + 1, end);
    OrdinalStep(start);
  }

  /** So the window holds the n dates it is named after exactly on a weekday after midnight or a weekend midnight. */
  lemma WindowHoldsItsDatesIff(asOf: Instant, days: int)
    requires 1 <= days
    ensures |BusinessDates(asOf, days)| == days <==> (IsWeekday(asOf.day) <==> !asOf.IsMidnight())
  {
    WindowSize(asOf, days);
  }
}
