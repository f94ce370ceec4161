/** The internal calendar of src/nvr.c: a carry chain over the fields of a broken-down time. */
module Rtc {

  datatype DateTime = DateTime(year: int, month: int, day: int, hour: int, minute: int, second: int)

  const DAYS_IN_MONTH: seq<int> := [31, 28, 31, 30, 31, 30, 31, 31, 30, 31, 30, 31]

  predicate IsLeap(year: int) {
    if year % 400 == 0 then true
    else if year % 100 == 0 then false
    else year % 4 == 0
  }

  function DaysIn(month: int, year: int): int
    requires 1 <= month <= 12
  {
    if month == 2 then (if IsLeap(year) then 29 else 28) else DAYS_IN_MONTH[month - 1]
  }

  predicate Valid(t: DateTime) {
    && 1 <= t.month <= 12
    && 1 <= t.day <= DaysIn(t.month, t.year)
    && 0 <= t.hour < 24 && 0 <= t.minute < 60 && 0 <= t.second < 60
  }

  /** What one tick does to the fields, carry by carry. */
  function Tick(t: DateTime): DateTime
    requires 1 <= t.month <= 12
  {
    if t.second + 1 != 60 then t.(second := t.second + 1)
    else if t.minute + 1 != 60 then t.(second := 0, minute := t.minute + 1)
    else if t.hour + 1 != 24 then t.(second := 0, minute := 0, hour := t.hour + 1)
    else
      var u := t.(second := 0, minute := 0, hour := 0);
      if t.day + 1 != DaysIn(t.month, t.year) + 1 then u.(day := t.day + 1)
      else if t.month + 1 != 13 then u.(day := 1, month := t.month + 1)
      else u.(day := 1, month := 1, year := t.year + 1)
  }

  /** The static `intclk` that the one-second timer updates in place. */
  class Clock {
    var year: int
    var month: int
    var day: int
    var hour: int
    var minute: int
    var second: int

    function Now(): DateTime
      reads this
    {
      DateTime(year, month, day, hour, minute, second)
    }

    method RtcTick()
      requires 1 <= month <= 12
      modifies this
      ensures Now() == Tick(old(Now()))
    {
      second := second + 1;
      if second == 60 {
        second := 0;
        minute := minute + 1;
        if minute == 60 {
          minute := 0;
          hour := hour + 1;
          if hour == 24 {
            hour := 0;
            day := day + 1;
            if day == DaysIn(month, year) + 1 {
              day := 1;
              month := month + 1;
              if month == 13 {
                month := 1;
                year := year + 1;
              }
            }
          }
        }
      }
    }
  }

  // ---- the reference calendar: a closed formula for elapsed seconds ----

  /** Days elapsed before 1 January of `year` in the proleptic Gregorian calendar (floor divisions). */
  function DaysBeforeYear(year: int): int {
    365 * (year - 1) + (year - 1) / 4 - (year - 1) / 100 + (year - 1) / 400
  }

  const DAYS_BEFORE_MONTH: seq<int> := [0, 31, 59, 90, 120, 151, 181, 212, 243, 273, 304, 334]

  function DayNumber(year: int, month: int, day: int): int
    requires 1 <= month <= 12
  {
    DaysBeforeYear(year) + DAYS_BEFORE_MONTH[month - 1]
      + (if month > 2 && IsLeap(year) then 1 else 0) + day - 1
  }

  function Ordinal(t: DateTime): int
    requires 1 <= t.month <= 12
  {
    ((DayNumber(t.year, t.month, t.day) * 24 + t.hour) * 60 + t.minute) * 60 + t.second
  }

  lemma YearLength(year: int)
    ensures DaysBeforeYear(year + 1) == DaysBeforeYear(year) + (if IsLeap(year) then 366 else 365)
  {
    FloorStep(year, 4);
    FloorStep(year, 100);
    FloorStep(year, 400);
    LeapDivisibility(year);
  }

  lemma LeapDivisibility(year: int)
    ensures year % 400 == 0 ==> year % 100 == 0
    ensures year % 100 == 0 ==> year % 4 == 0
  {
    assert year == 400 * (year / 400) + year % 400;
    assert year == 100 * (year / 100) + year % 100;
    if year % 400 == 0 {
      var q := year / 400;
      assert year == 100 * (4 * q);
    }
    if year % 100 == 0 {
      var q := year / 100;
      assert year == 4 * (25 * q);
    }
  }

  lemma FloorStep(year: int, d: int)
    requires d == 4 || d == 100 || d == 400
    ensures year / d == (year - 1) / d + (if year % d == 0 then 1 else 0)
  {
  }

  lemma MonthLength(year: int, month: int)
    requires 1 <= month < 12
    ensures DayNumber(year, month + 1, 1) == DayNumber(year, month, DaysIn(month, year)) + 1
  {
  }

  /** The tick is a successor: a valid time goes to a valid time exactly one second later. */
  lemma TickIsSuccessor(t: DateTime)
    requires Valid(t)
    ensures Valid(Tick(t))
    ensures Ordinal(Tick(t)) == Ordinal(t) + 1
  {
    if t.second == 59 && t.minute == 59 && t.hour == 23 && t.day == DaysIn(t.month, t.year) {
      if t.month == 12 {
        YearLength(t.year);
      } else {
        MonthLength(t.year, t.month);
      }
    }
  }

  function Ticks(t: DateTime, n: nat): DateTime
    requires Valid(t)
    ensures Valid(Ticks(t, n))
  {
    if n == 0 then t else
      var u := Ticks(t, n - 1);
      TickIsSuccessor(u);
      Tick(u)
  }

  lemma {:induction false} TicksAdvance(t: DateTime, n: nat)
    requires Valid(t)
    ensures Ordinal(Ticks(t, n)) == Ordinal(t) + n
  {
    if n > 0 {
      TicksAdvance(t, n - 1);
      TickIsSuccessor(Ticks(t, n - 1));
    }
  }

  // ---- the ordinal names a time uniquely ----

  lemma {:induction false} YearsOrdered(y: int, z: int)
    requires y < z
    ensures DaysBeforeYear(y) + (if IsLeap(y) then 366 else 365) <= DaysBeforeYear(z)
    decreases z - y
  {
    if z == y + 1 {
      YearLength(y);
    } else {
      YearsOrdered(y, z - 1);
      YearLength(z - 1);
    }
  }

  lemma DayInYear(year: int, month: int, day: int)
    requires 1 <= month <= 12 && 1 <= day <= DaysIn(month, year)
    ensures DaysBeforeYear(year) <= DayNumber(year, month, day)
    ensures DayNumber(year, month, day) < DaysBeforeYear(year) + (if IsLeap(year) then 366 else 365)
  {
  }

  lemma DayNumberInjective(a: DateTime, b: DateTime)
    requires Valid(a) && Valid(b)
    requires DayNumber(a.year, a.month, a.day) == DayNumber(b.year, b.month, b.day)
    ensures a.year == b.year && a.month == b.month && a.day == b.day
  {
    DayInYear(a.year, a.month, a.day);
    DayInYear(b.year, b.month, b.day);
    if a.year < b.year {
      YearsOrdered(a.year, b.year);
    } else if b.year < a.year {
      YearsOrdered(b.year, a.year);
    }
    assert a.year == b.year;
  }

  lemma OrdinalInjective(a: DateTime, b: DateTime)
    requires Valid(a) && Valid(b) && Ordinal(a) == Ordinal(b)
    ensures a == b
  {
    DayNumberInjective(a, b);
  }

  /** n ticks reach the one valid time that lies n seconds later, whatever months and leap days lie between. */
  lemma TicksReach(t: DateTime, n: nat, u: DateTime)
    requires Valid(t) && Valid(u)
    ensures Ticks(t, n) == u <==> Ordinal(u) == Ordinal(t) + n
  {
    TicksAdvance(t, n);
    if Ordinal(u) == Ordinal(t) + n {
      OrdinalInjective(Ticks(t, n), u);
    }
  }

  lemma LeapPeriod(year: int)
    ensures IsLeap(year + 400) == IsLeap(year)
    ensures (year + 399) / 4 == (year - 1) / 4 + 100
    ensures (year + 399) / 100 == (year - 1) / 100 + 4
    ensures (year + 399) / 400 == (year - 1) / 400 + 1
  {
    Later(year, 400, 1);
    Later(year, 100, 4);
    Later(year, 4, 100);
    Later(year - 1, 400, 1);
    Later(year - 1, 100, 4);
    Later(year - 1, 4, 100);
  }

  /** Going on by whole multiples of `d`. */
  lemma Later(x: int, d: int, k: int)
    requires d == 4 || d == 100 || d == 400
    ensures (x + d * k) % d == x % d && (x + d * k) / d == x / d + k
  {
    if d == 4 {
      assert x + 4 * k == 4 * (x / 4 + k) + x % 4;
    } else if d == 100 {
      assert x + 100 * k == 100 * (x / 100 + k) + x % 100;
    } else {
      assert x + 400 * k == 400 * (x / 400 + k) + x % 400;
    }
  }

  /** The calendar repeats after 400 years, which are 146097 days. */
  lemma FourCenturies(t: DateTime, n: nat)
    requires Valid(t)
    ensures Ticks(t, n) == t.(year := t.year + 400) <==> n == 146097 * 86400
  {
    var u := t.(year := t.year + 400);
    LeapPeriod(t.year);
    assert DaysBeforeYear(u.year) == DaysBeforeYear(t.year) + 146097;
    TicksReach(t, n, u);
  }
}
