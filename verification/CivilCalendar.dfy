/** The calendar walked month by month is the Gregorian one: the first day of every month in closed form. */
module CivilCalendar {
  import opened Calendar

  /** First day of the i-th month counted from January 1970. */
  function FirstOfMonth(i: nat): nat {
    if i == 0 then 0 else FirstOfMonth(i - 1) + MonthLength(i - 1)
  }

  /** Days from the first of January 1970 to the first of a month, by the rule of the Gregorian calendar: years
      begin with March, and every fourth year is longer by a day, but not every hundredth, but every four
      hundredth. */
  function Gregorian(year: int, month: int): int {
    YearsBefore(if month <= 2 then year - 1 else year) + MonthsBefore(month) - 719_468
  }

  function YearsBefore(y: int): int {
    365 * y + y / 4 - y / 100 + y / 400
  }

  /** Days from the first of March to the first of a month. */
  function MonthsBefore(month: int): int {
    (153 * ((month + 9) % 12) + 2) / 5
  }

  lemma Fours(y: nat)
    requires y > 0
    ensures y / 4 - (y - 1) / 4 == if y % 4 == 0 then 1 else 0
  {
  }

  lemma Hundreds(y: nat)
    requires y > 0
    ensures y / 100 - (y - 1) / 100 == if y % 100 == 0 then 1 else 0
  {
  }

  lemma FourHundreds(y: nat)
    requires y > 0
    ensures y / 400 - (y - 1) / 400 == if y % 400 == 0 then 1 else 0
  {
  }

  lemma Divisible(y: nat)
    ensures y % 400 == 0 ==> y % 100 == 0
    ensures y % 100 == 0 ==> y % 4 == 0
  {
    var q, r := y / 400, y / 100;
    assert y % 400 == 0 ==> y == 100 * (4 * q);
    assert y % 100 == 0 ==> y == 4 * (25 * r);
  }

  function Year(i: nat): nat {
    1970 + i / 12
  }

  function MonthOf(i: nat): nat {
    i % 12 + 1
  }

  lemma NextMonthOf(i: nat)
    ensures if i % 12 == 11 then Year(i + 1) == Year(i) + 1 && MonthOf(i + 1) == 1
            else Year(i + 1) == Year(i) && MonthOf(i + 1) == MonthOf(i) + 1
  {
  }

  lemma YearIsAsLong(y: nat)
    requires y > 0
    ensures YearsBefore(y) == YearsBefore(y - 1) + if LeapYear(y) then 366 else 365
  {
    Fours(y);
    Hundreds(y);
    FourHundreds(y);
    Divisible(y);
  }

  /** A month is as long as the calendar says. */
  lemma MonthIsAsLong(i: nat)
    ensures Gregorian(Year(i + 1), MonthOf(i + 1)) == Gregorian(Year(i), MonthOf(i)) + MonthLength(i)
  {
    NextMonthOf(i);
    YearIsAsLong(Year(i));
    LengthOf(i);
    hide YearsBefore, MonthsBefore, MonthLength;
  }

  /** Months other than February by their number alone. */
  lemma LengthOf(i: nat)
    ensures var m := MonthOf(i);
            1 <= m <= 12
            && if m == 2 then MonthLength(i) == (if LeapYear(Year(i)) then 29 else 28) && MonthsBefore(2) == 337
                              && MonthsBefore(3) == 0
               else MonthLength(i) == MonthsBefore(if m == 12 then 1 else m + 1) - MonthsBefore(m)
  {
    var m := MonthOf(i);
    assert m == 1 || m == 2 || m == 3 || m == 4 || m == 5 || m == 6 || m == 7 || m == 8 || m == 9 || m == 10 || m == 11
           || m == 12;
    MonthTable();
  }

  lemma MonthTable()
    ensures MonthsBefore(3) == 0 && MonthsBefore(4) == 31 && MonthsBefore(5) == 61 && MonthsBefore(6) == 92
    ensures MonthsBefore(7) == 122 && MonthsBefore(8) == 153 && MonthsBefore(9) == 184 && MonthsBefore(10) == 214
    ensures MonthsBefore(11) == 245 && MonthsBefore(12) == 275 && MonthsBefore(1) == 306 && MonthsBefore(2) == 337
  {
  }

  lemma JanuaryFirst()
    ensures Gregorian(Year(0), MonthOf(0)) == 0
  {
    MonthTable();
  }

  lemma NextFirst(i: nat)
    ensures FirstOfMonth(i + 1) == FirstOfMonth(i) + MonthLength(i)
  {
    hide MonthLength;
  }

  lemma {:induction false} FirstsAreGregorian(i: nat)
    ensures FirstOfMonth(i) == Gregorian(Year(i), MonthOf(i))
  {
    hide Gregorian, Year, MonthOf, MonthLength;
    if i == 0 {
      JanuaryFirst();
    } else {
      var j: nat := i - 1;
      NextFirst(j);
      hide FirstOfMonth;
      FirstsAreGregorian(j);
      MonthIsAsLong(j);
    }
  }

  lemma {:induction false} WalkFinds(i: nat, day: nat) returns (j: nat)
    requires FirstOfMonth(i) <= day
    ensures MonthFrom(i, FirstOfMonth(i), day) == (FirstOfMonth(j), FirstOfMonth(j + 1))
    decreases day - FirstOfMonth(i)
  {
    hide MonthLength;
    j := i;
    if day >= FirstOfMonth(i) + MonthLength(i) {
      j := WalkFinds(i + 1, day);
    }
  }

  /** The month of any time begins on the first of a month of the Gregorian calendar, and ends where the next begins. */
  lemma MonthsAreGregorian(t: nat) returns (year: nat, month: nat)
    ensures 1 <= month <= 12 && year >= 1970
    ensures MonthStart(t) == Gregorian(year, month) * 86_400_000
    ensures NextMonthStart(t)
            == (if month == 12 then Gregorian(year + 1, 1) else Gregorian(year, month + 1)) * 86_400_000
  {
    var j := WalkFinds(0, t / DAY_MS);
    year, month := Year(j), MonthOf(j);
    FirstsAreGregorian(j);
    FirstsAreGregorian(j + 1);
    NextMonthOf(j);
    assert FirstOfMonth(0) == 0;
    hide Gregorian, FirstOfMonth, MonthFrom;
  }

  /** Dates that tell the rules apart: the century years 2000 and 2100, a common and a leap year. */
  lemma Landmarks()
    ensures Gregorian(1970, 1) == 0 && Gregorian(2000, 3) - Gregorian(2000, 2) == 29
    ensures Gregorian(2100, 3) - Gregorian(2100, 2) == 28 && Gregorian(2024, 3) - Gregorian(2024, 2) == 29
    ensures Gregorian(2026, 1) == 20_454
  {
  }
}
