/** The Gregorian calendar, as Python's date counts its days. */
module Calendar {
  datatype Date = Date(y: nat, m: nat, d: nat)

  predicate Leap(y: nat) { y % 4 == 0 && (y % 100 != 0 || y % 400 == 0) }

  function DaysIn(y: nat, m: nat): nat {
    if m == 2 then (if Leap(y) then 29 else 28) else if m in {4, 6, 9, 11} then 30 else 31
  }

  predicate ValidDate(t: Date) { 1 <= t.y <= 9999 && 1 <= t.m <= 12 && 1 <= t.d <= DaysIn(t.y, t.m) }

  function DaysBefore(y: nat, m: nat): nat {
    if m <= 1 then 0 else DaysBefore(y, m - 1) + DaysIn(y, m - 1)
  }

  /** How many of the first `y` years have a leap day. */
  function LeapsUpTo(y: nat): int { y / 4 - y / 100 + y / 400 }

  /** The day number of a date: date.toordinal. */
  function Ordinal(t: Date): int
    requires t.y >= 1
  {
    (t.y - 1) * 365 + LeapsUpTo(t.y - 1) + DaysBefore(t.y, t.m) + t.d
  }

  function NextDay(t: Date): Date {
    if t.d < DaysIn(t.y, t.m) then t.(d := t.d + 1)
    else if t.m < 12 then Date(t.y, t.m + 1, 1) else Date(t.y + 1, 1, 1)
  }

  function AddDays(t: Date, n: nat): Date
    decreases n
  {
    if n == 0 then t else AddDays(NextDay(t), n - 1)
  }

  lemma YearDays(y: nat)
    requires y >= 1
    ensures DaysBefore(y, 12) + 31 == if Leap(y) then 366 else 365
  {
    assert DaysBefore(y, 12) == DaysBefore(y, 11) + 30 == DaysBefore(y, 10) + 61 == DaysBefore(y, 9) + 91;
    assert DaysBefore(y, 9) == DaysBefore(y, 8) + 31 == DaysBefore(y, 7) + 62 == DaysBefore(y, 6) + 92;
    assert DaysBefore(y, 6) == DaysBefore(y, 5) + 31 == DaysBefore(y, 4) + 61 == DaysBefore(y, 3) + 92;
    assert DaysBefore(y, 3) == DaysBefore(y, 2) + DaysIn(y, 2) == DaysBefore(y, 1) + 31 + DaysIn(y, 2);
  }

  lemma YearStep(y: nat)
    requires y >= 1
    ensures LeapsUpTo(y) == LeapsUpTo(y - 1) + if Leap(y) then 1 else 0
  {
    Quarters(y);
    Centuries(y);
    FourCenturies(y);
    Multiples(y);
    Combine(y / 4, (y - 1) / 4, y / 100, (y - 1) / 100, y / 400, (y - 1) / 400, y % 4 == 0, y % 100 == 0, y % 400 == 0);
  }

  lemma Quarters(y: nat)
    requires y >= 1
    ensures y / 4 == (y - 1) / 4 + if y % 4 == 0 then 1 else 0
  {
  }

  lemma Centuries(y: nat)
    requires y >= 1
    ensures y / 100 == (y - 1) / 100 + if y % 100 == 0 then 1 else 0
  {
  }

  lemma FourCenturies(y: nat)
    requires y >= 1
    ensures y / 400 == (y - 1) / 400 + if y % 400 == 0 then 1 else 0
  {
  }

  lemma Multiples(y: nat)
    ensures (y % 400 == 0 ==> y % 100 == 0) && (y % 100 == 0 ==> y % 4 == 0)
  {
    var hundreds, fourHundreds := y / 100, y / 400;
    assert y == 100 * hundreds + y % 100 == 400 * fourHundreds + y % 400;
    assert y % 100 == 0 ==> y == 4 * (25 * hundreds);
    assert y % 400 == 0 ==> y == 100 * (4 * fourHundreds);
  }

  lemma Combine(a: int, a1: int, b: int, b1: int, c: int, c1: int, by4: bool, by100: bool, by400: bool)
    requires a == a1 + (if by4 then 1 else 0) && b == b1 + (if by100 then 1 else 0) && c == c1 + (if by400 then 1 else 0)
    requires (by400 ==> by100) && (by100 ==> by4)
    ensures a - b + c == a1 - b1 + c1 + if by4 && (!by100 || by400) then 1 else 0
  {
  }

  /** The day after has the next number. */
  lemma NextDayIsNext(t: Date)
    requires t.y >= 1 && 1 <= t.m <= 12 && 1 <= t.d <= DaysIn(t.y, t.m)
    ensures var n := NextDay(t); n.y >= 1 && 1 <= n.m <= 12 && 1 <= n.d <= DaysIn(n.y, n.m) && Ordinal(n) == Ordinal(t) + 1
  {
    MonthLengths(t.y, t.m);
    if t.d == DaysIn(t.y, t.m) && t.m == 12 {
      YearDays(t.y);
      hide DaysIn, Leap;
      YearEnds(t.y, t.d);
    } else {
      hide DaysIn, Leap;
    }
  }

  lemma MonthLengths(y: nat, m: nat)
    ensures DaysIn(y, m) >= 1 && DaysIn(y, m + 1) >= 1 && DaysIn(y + 1, 1) >= 1 && (m >= 1 ==> DaysBefore(y, m + 1) == DaysBefore(y, m) + DaysIn(y, m))
    ensures m == 12 ==> DaysIn(y, m) == 31
  {
  }

  lemma YearEnds(y: nat, d: nat)
    requires y >= 1 && d == 31 && DaysBefore(y, 12) + 31 == (if Leap(y) then 366 else 365)
    ensures Ordinal(Date(y + 1, 1, 1)) == Ordinal(Date(y, 12, d)) + 1
  {
    hide Leap, LeapsUpTo;
    YearStep(y);
    assert DaysBefore(y + 1, 1) == 0;
  }

  lemma {:induction false} AddDaysIsLater(t: Date, n: nat)
    requires t.y >= 1 && 1 <= t.m <= 12 && 1 <= t.d <= DaysIn(t.y, t.m)
    ensures var r := AddDays(t, n); r.y >= 1 && 1 <= r.m <= 12 && 1 <= r.d <= DaysIn(r.y, r.m) && Ordinal(r) == Ordinal(t) + n
    decreases n
  {
    hide Ordinal, DaysIn, NextDay;
    if n > 0 {
      NextDayIsNext(t);
      AddDaysIsLater(NextDay(t), n - 1);
    }
  }

  // ----- Weekdays ------------------------------------------------------------------------

  predicate IsDate(t: Date) { t.y >= 1 && 1 <= t.m <= 12 && 1 <= t.d <= DaysIn(t.y, t.m) }

  const SAKAMOTO := [0, 3, 2, 5, 0, 3, 5, 1, 4, 6, 2, 4]

  /** Sakamoto's method, with Monday as 0. */
  function WeekdayOf(t: Date): int
    requires IsDate(t)
  {
    var y := if t.m < 3 then t.y - 1 else t.y;
    (y + LeapsUpTo(y) + SAKAMOTO[t.m - 1] + t.d + 6) % 7
  }

  /** Day numbers count through the week: number 1 was a Monday. */
  lemma OrdinalIsWeekday(t: Date)
    requires IsDate(t)
    ensures WeekdayOf(t) == (Ordinal(t) + 6) % 7
  {
    var k := TableIsMonths(t.y, t.m);
    YearStep(t.y);
    hide Leap, DaysIn, DaysBefore, LeapsUpTo;
    var y := if t.m < 3 then t.y - 1 else t.y;
    var sum := y + LeapsUpTo(y) + SAKAMOTO[t.m - 1] + t.d + 6;
    assert Ordinal(t) + 6 == sum + 7 * (k + (t.y - 1) * 52);
    WholeWeeks(sum, k + (t.y - 1) * 52);
  }

  lemma WholeWeeks(b: int, n: int)
    ensures (b + 7 * n) % 7 == b % 7
  {
  }

  /** The table holds the days before each month, up to whole weeks. */
  lemma TableIsMonths(y: nat, m: nat) returns (k: int)
    requires y >= 1 && 1 <= m <= 12
    ensures m < 3 ==> DaysBefore(y, m) == SAKAMOTO[m - 1] + 7 * k
    ensures m >= 3 ==> DaysBefore(y, m) == (if Leap(y) then 1 else 0) + 1 + SAKAMOTO[m - 1] + 7 * k
  {
    MonthStarts(y);
    hide Leap, DaysBefore;
    k := [0, 4, 8, 12, 17, 21, 25, 30, 34, 38, 43, 47][m - 1];
  }

  lemma MonthStarts(y: nat)
    requires y >= 1
    ensures var leap := if Leap(y) then 1 else 0;
            && DaysBefore(y, 1) == 0 && DaysBefore(y, 2) == 31 && DaysBefore(y, 3) == 59 + leap && DaysBefore(y, 4) == 90 + leap
            && DaysBefore(y, 5) == 120 + leap && DaysBefore(y, 6) == 151 + leap && DaysBefore(y, 7) == 181 + leap
            && DaysBefore(y, 8) == 212 + leap && DaysBefore(y, 9) == 243 + leap && DaysBefore(y, 10) == 273 + leap
            && DaysBefore(y, 11) == 304 + leap && DaysBefore(y, 12) == 334 + leap
  {
    assert DaysBefore(y, 3) == DaysBefore(y, 2) + DaysIn(y, 2) == DaysBefore(y, 1) + 31 + DaysIn(y, 2);
    assert DaysBefore(y, 4) == DaysBefore(y, 3) + 31 && DaysBefore(y, 5) == DaysBefore(y, 4) + 30 && DaysBefore(y, 6) == DaysBefore(y, 5) + 31;
    assert DaysBefore(y, 7) == DaysBefore(y, 6) + 30 && DaysBefore(y, 8) == DaysBefore(y, 7) + 31 && DaysBefore(y, 9) == DaysBefore(y, 8) + 31;
    assert DaysBefore(y, 10) == DaysBefore(y, 9) + 30 && DaysBefore(y, 11) == DaysBefore(y, 10) + 31 && DaysBefore(y, 12) == DaysBefore(y, 11) + 30;
  }

  /** Every day number from 1 on is a date. */
  lemma DateOfNumber(n: nat) returns (t: Date)
    requires n >= 1
    ensures IsDate(t) && Ordinal(t) == n
  {
    hide AddDays, Ordinal, DaysIn;
    FirstDay(1);
    t := AddDays(Date(1, 1, 1), n - 1);
    AddDaysIsLater(Date(1, 1, 1), n - 1);
  }

  lemma FirstDay(y: nat)
    requires y == 1
    ensures IsDate(Date(y, 1, 1)) && Ordinal(Date(y, 1, 1)) == 1
  {
  }

  lemma EpochIs()
    ensures Ordinal(Date(1970, 1, 1)) == 719163
  {
    assert DaysBefore(1970, 1) == 0;
  }
}
