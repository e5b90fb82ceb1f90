/** Reporting periods: the proleptic Gregorian calendar and the windows built on it. */
module Periods {
  import opened Common

  const DAY: int := 86_400 * SECOND

  /** A calendar day. `month` counts months: twelve times the year, plus January as 0. */
  datatype Date = Date(month: int, day: int)

  function Year(month: int): int { month / 12 }

  predicate IsLeap(y: int) { y % 4 == 0 && (y % 100 != 0 || y % 400 == 0) }

  function DaysIn(month: int): int {
    var m := month % 12;
    if m == 1 then (if IsLeap(Year(month)) then 29 else 28)
    else if m == 3 || m == 5 || m == 8 || m == 10 then 30 else 31
  }

  predicate ValidDate(d: Date) { 1 <= d.day <= DaysIn(d.month) }

  function DaysBeforeYear(y: int): int { 365 * (y - 1) + (y - 1) / 4 - (y - 1) / 100 + (y - 1) / 400 }

  function DaysBeforeMonth(month: int): int {
    var m := month % 12;
    (if m == 0 then 0 else if m == 1 then 31 else if m == 2 then 59 else if m == 3 then 90
     else if m == 4 then 120 else if m == 5 then 151 else if m == 6 then 181 else if m == 7 then 212
     else if m == 8 then 243 else if m == 9 then 273 else if m == 10 then 304 else 334)
    + if m > 1 && IsLeap(Year(month)) then 1 else 0
  }

  /** The day's number: 1 January of year 1 is day 1. */
  function Ordinal(d: Date): int { DaysBeforeYear(Year(d.month)) + DaysBeforeMonth(d.month) + d.day }

  /** 0 for Monday. */
  function Weekday(d: Date): int { (Ordinal(d) + 6) % 7 }

  function DayBefore(d: Date): Date {
    if d.day > 1 then d.(day := d.day - 1) else Date(d.month - 1, DaysIn(d.month - 1))
  }

  function DaysEarlier(d: Date, n: nat): Date { if n == 0 then d else DayBefore(DaysEarlier(d, n - 1)) }

  lemma Every4(y: int)
    ensures y / 4 - (y - 1) / 4 == if y % 4 == 0 then 1 else 0
  {}

  lemma Every100(y: int)
    ensures y / 100 - (y - 1) / 100 == if y % 100 == 0 then 1 else 0
  {}

  lemma Every400(y: int)
    ensures y / 400 - (y - 1) / 400 == if y % 400 == 0 then 1 else 0
    ensures y % 400 == 0 ==> y % 100 == 0
    ensures y % 100 == 0 ==> y % 4 == 0
  {}

  lemma YearLength(y: int)
    ensures DaysBeforeYear(y + 1) - DaysBeforeYear(y) == if IsLeap(y) then 366 else 365
  {
    Every4(y);
    Every100(y);
    Every400(y);
  }

  lemma MonthLength(month: int)
    ensures Ordinal(Date(month + 1, 1)) == Ordinal(Date(month, 1)) + DaysIn(month)
  {
    YearLength(Year(month));
    if month % 12 == 11 {
      assert Year(month + 1) == Year(month) + 1 && (month + 1) % 12 == 0;
    } else {
      assert Year(month + 1) == Year(month) && (month + 1) % 12 == month % 12 + 1;
    }
  }

  lemma DayBeforeIsOneLess(d: Date)
    requires ValidDate(d)
    ensures ValidDate(DayBefore(d)) && Ordinal(DayBefore(d)) == Ordinal(d) - 1
  {
    if d.day == 1 { MonthLength(d.month - 1); }
  }

  lemma {:induction false} DaysEarlierIsLess(d: Date, n: nat)
    requires ValidDate(d)
    ensures ValidDate(DaysEarlier(d, n)) && Ordinal(DaysEarlier(d, n)) == Ordinal(d) - n
  {
    if n > 0 {
      DaysEarlierIsLess(d, n - 1);
      DayBeforeIsOneLess(DaysEarlier(d, n - 1));
    }
  }

  /** The calendar is anchored: 1 January 1970 is day 719163, a Thursday. */
  lemma Epoch()
    ensures Ordinal(Date(1970 * 12, 1)) == 719_163 && Weekday(Date(1970 * 12, 1)) == 3
  {
    var month := 1970 * 12;
    assert Year(month) == 1970 && month % 12 == 0;
    assert DaysBeforeYear(1970) == 719_162;
  }

  // ---------------------------------------------------------------- moments and windows

  /** What a clock in some time zone shows: a day, the time of day and the zone's offset. */
  datatype Moment = Moment(date: Date, time: int, offset: int)

  predicate ValidMoment(w: Moment) { ValidDate(w.date) && 0 <= w.time < DAY && -DAY < w.offset < DAY }

  function InstantOf(w: Moment): Instant { Ordinal(w.date) * DAY + w.time - w.offset }

  function DayAfter(d: Date): Date {
    if d.day < DaysIn(d.month) then d.(day := d.day + 1) else Date(d.month + 1, 1)
  }

  /** The same instant as a clock on UTC shows it. */
  function ToUtc(w: Moment): Moment {
    var t := w.time - w.offset;
    if t < 0 then Moment(DayBefore(w.date), t + DAY, 0)
    else if t >= DAY then Moment(DayAfter(w.date), t - DAY, 0)
    else Moment(w.date, t, 0)
  }

  lemma DayAfterIsOneMore(d: Date)
    requires ValidDate(d)
    ensures ValidDate(DayAfter(d)) && Ordinal(DayAfter(d)) == Ordinal(d) + 1
  {
    if d.day == DaysIn(d.month) { MonthLength(d.month); }
    MonthsNotEmpty(d.month + 1);
  }

  lemma MovesByDays(a: Moment, b: Moment, days: int)
    requires a.time - a.offset + days * DAY == b.time - b.offset && Ordinal(a.date) == Ordinal(b.date) + days
    ensures InstantOf(a) == InstantOf(b)
  {}

  lemma UtcKeepsInstant(w: Moment)
    requires ValidMoment(w)
    ensures ValidMoment(ToUtc(w)) && ToUtc(w).offset == 0 && InstantOf(ToUtc(w)) == InstantOf(w)
  {
    var t := w.time - w.offset;
    if t < 0 {
      DayBeforeIsOneLess(w.date);
      MovesByDays(ToUtc(w), w, -1);
    } else if t >= DAY {
      DayAfterIsOneMore(w.date);
      MovesByDays(ToUtc(w), w, 1);
    } else {
      MovesByDays(ToUtc(w), w, 0);
    }
  }

  datatype Period = Weekly | Monthly

  function MonthStart(w: Moment): Moment { Moment(w.date.(day := 1), 0, 0) }

  function PreviousMonthStart(w: Moment): Moment {
    var start := MonthStart(w);
    MonthStart(start.(date := DaysEarlier(start.date, 1)))
  }

  function WeekStart(w: Moment): Moment { Moment(DaysEarlier(w.date, Weekday(w.date)), 0, 0) }

  function PeriodStart(p: Period, reference: Moment): Moment {
    if p.Weekly? then WeekStart(reference) else MonthStart(reference)
  }

  function PreviousStart(p: Period, start: Moment): Moment {
    if p.Weekly? then start.(date := DaysEarlier(start.date, 7)) else PreviousMonthStart(start)
  }

  /** Midnight UTC on a Monday, or on the first of a month. */
  predicate IsBoundary(p: Period, w: Moment) {
    && ValidMoment(w) && w.time == 0 && w.offset == 0
    && if p.Weekly? then Weekday(w.date) == 0 else w.date.day == 1
  }

  lemma MonthsNotEmpty(month: int)
    ensures 28 <= DaysIn(month) <= 31
  {}

  lemma WeekStartIsMonday(d: Date)
    requires ValidDate(d)
    ensures var monday := DaysEarlier(d, Weekday(d));
      ValidDate(monday) && Weekday(monday) == 0 && Ordinal(d) - 6 <= Ordinal(monday) <= Ordinal(d)
  {
    var n := Weekday(d);
    DaysEarlierIsLess(d, n);
    Aligned(Ordinal(d));
  }

  lemma Aligned(n: int)
    ensures (n - (n + 6) % 7 + 6) % 7 == 0
  {}

  lemma WeekBeforeIsMonday(d: Date)
    requires ValidDate(d) && Weekday(d) == 0
    ensures var monday := DaysEarlier(d, 7);
      ValidDate(monday) && Weekday(monday) == 0 && Ordinal(monday) == Ordinal(d) - 7
  {
    DaysEarlierIsLess(d, 7);
    WeekAligned(Ordinal(d));
  }

  lemma WeekAligned(n: int)
    ensures (n - 7 + 6) % 7 == (n + 6) % 7
  {}

  lemma FirstOfMonth(d: Date)
    requires ValidDate(d)
    ensures ValidDate(d.(day := 1)) && Ordinal(d.(day := 1)) <= Ordinal(d)
  {
    MonthsNotEmpty(d.month);
  }

  lemma FirstOfPreviousMonth(month: int)
    ensures PreviousMonthStart(Moment(Date(month, 1), 0, 0)) == Moment(Date(month - 1, 1), 0, 0)
    ensures Ordinal(Date(month - 1, 1)) == Ordinal(Date(month, 1)) - DaysIn(month - 1)
    ensures ValidDate(Date(month - 1, 1))
  {
    var first := Date(month, 1);
    assert DaysEarlier(first, 0) == first && DaysEarlier(first, 1) == DayBefore(first);
    MonthLength(month - 1);
    MonthsNotEmpty(month - 1);
  }

  lemma Scales(a: int, b: int)
    requires a <= b
    ensures a * DAY <= b * DAY
  {}

  /** The period of a reference starts on a boundary, no later than the reference as its own
      wall clock shows it. */
  lemma StartIsBoundary(p: Period, reference: Moment)
    requires ValidMoment(reference)
    ensures IsBoundary(p, PeriodStart(p, reference))
    ensures InstantOf(PeriodStart(p, reference)) <= InstantOf(reference) + reference.offset
  {
    if p.Weekly? { WeekStartIsMonday(reference.date); } else { FirstOfMonth(reference.date); }
    Scales(Ordinal(PeriodStart(p, reference).date), Ordinal(reference.date));
  }

  lemma {:induction false} MonthsIncrease(a: int, b: int)
    requires a <= b
    ensures Ordinal(Date(a, 1)) <= Ordinal(Date(b, 1))
            && (a < b ==> Ordinal(Date(a, 1)) + DaysIn(a) <= Ordinal(Date(b, 1)))
    decreases b - a
  {
    if a < b {
      MonthLength(a);
      MonthsNotEmpty(a);
      MonthsIncrease(a + 1, b);
    }
  }

  lemma MondaysApart(a: int, b: int)
    requires (a + 6) % 7 == 0 && (b + 6) % 7 == 0 && a < b
    ensures a + 7 <= b
  {}

  /** The period's start is the latest boundary on or before the reference's calendar day. */
  lemma StartIsLatest(p: Period, reference: Moment, other: Moment)
    requires ValidMoment(reference) && IsBoundary(p, other) && Ordinal(other.date) <= Ordinal(reference.date)
    ensures Ordinal(other.date) <= Ordinal(PeriodStart(p, reference).date) <= Ordinal(reference.date)
  {
    if p.Weekly? {
      var monday := PeriodStart(p, reference).date;
      WeekStartIsMonday(reference.date);
      if Ordinal(monday) < Ordinal(other.date) { MondaysApart(Ordinal(monday), Ordinal(other.date)); }
    } else {
      LatestFirst(reference.date, other.date);
    }
  }

  lemma LatestFirst(d: Date, first: Date)
    requires ValidDate(d) && first.day == 1 && Ordinal(first) <= Ordinal(d)
    ensures Ordinal(first) <= Ordinal(Date(d.month, 1)) <= Ordinal(d)
  {
    assert Ordinal(d) == Ordinal(Date(d.month, 1)) + d.day - 1;
    if first.month <= d.month { MonthsIncrease(first.month, d.month); } else { MonthsIncrease(d.month, first.month); }
  }

  function LengthBefore(p: Period, start: Moment): int {
    if p.Weekly? then 7 else DaysIn(start.date.month - 1)
  }

  lemma PreviousDate(p: Period, start: Moment)
    requires IsBoundary(p, start)
    ensures var previous := PreviousStart(p, start);
      && IsBoundary(p, previous)
      && Ordinal(previous.date) == Ordinal(start.date) - LengthBefore(p, start)
      && (p.Monthly? ==> previous.date == Date(start.date.month - 1, 1))
  {
    if p.Weekly? {
      WeekBeforeIsMonday(start.date);
    } else {
      assert start == Moment(Date(start.date.month, 1), 0, 0);
      FirstOfPreviousMonth(start.date.month);
    }
  }

  lemma Midnights(a: Moment, b: Moment, days: int)
    requires a.time == b.time && a.offset == b.offset && Ordinal(a.date) == Ordinal(b.date) - days
    ensures InstantOf(a) == InstantOf(b) - days * DAY
  {}

  /** A boundary's predecessor is the boundary one week, or one calendar month, before. */
  lemma PreviousIsBoundary(p: Period, start: Moment)
    requires IsBoundary(p, start)
    ensures var previous := PreviousStart(p, start);
      && IsBoundary(p, previous)
      && InstantOf(previous) == InstantOf(start) - LengthBefore(p, start) * DAY
      && (p.Monthly? ==> previous.date == Date(start.date.month - 1, 1))
  {
    PreviousDate(p, start);
    Midnights(PreviousStart(p, start), start, LengthBefore(p, start));
  }

  /** The `k`-th period start, counting back from the reference. */
  function StartOf(p: Period, reference: Moment, k: nat): Moment {
    if k == 0 then PeriodStart(p, reference) else PreviousStart(p, StartOf(p, reference, k - 1))
  }

  lemma {:induction false} StartsRecede(p: Period, reference: Moment, k: nat)
    requires ValidMoment(reference)
    ensures IsBoundary(p, StartOf(p, reference, k))
    ensures InstantOf(StartOf(p, reference, k + 1)) <= InstantOf(StartOf(p, reference, k)) - 7 * DAY
  {
    if k == 0 {
      StartIsBoundary(p, reference);
    } else {
      StartsRecede(p, reference, k - 1);
      PreviousIsBoundary(p, StartOf(p, reference, k - 1));
    }
    PreviousIsEarlier(p, StartOf(p, reference, k));
  }

  lemma PreviousIsEarlier(p: Period, start: Moment)
    requires IsBoundary(p, start)
    ensures InstantOf(PreviousStart(p, start)) <= InstantOf(start) - 7 * DAY
  {
    PreviousIsBoundary(p, start);
    MonthsNotEmpty(start.date.month - 1);
    Scales(7, LengthBefore(p, start));
  }
}
