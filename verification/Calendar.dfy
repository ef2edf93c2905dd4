/** UTC days and months as integer arithmetic on milliseconds since 1970-01-01. */
module Calendar {

  const MINUTE_MS: nat := 60_000
  const DAY_MS: nat := 86_400_000

  datatype Period = Day | Month

  predicate LeapYear(y: nat) {
    y % 4 == 0 && (y % 100 != 0 || y % 400 == 0)
  }

  /** Number of days in the i-th month counted from January 1970. */
  function MonthLength(i: nat): (n: nat)
    ensures 28 <= n <= 31
  {
    var m := i % 12;
    if m == 1 then (if LeapYear(1970 + i / 12) then 29 else 28)
    else if m == 3 || m == 5 || m == 8 || m == 10 then 30
    else 31
  }

  /** First day of the month holding `day` and of the month after it, walking month by
      month from the i-th month, whose first day is `first`. */
  function MonthFrom(i: nat, first: nat, day: nat): (r: (nat, nat))
    requires first <= day
    ensures first <= r.0 <= day < r.1 <= r.0 + 31
    decreases day - first
  {
    if day < first + MonthLength(i) then (first, first + MonthLength(i))
    else MonthFrom(i + 1, first + MonthLength(i), day)
  }

  function UtcDay(t: nat): nat {
    t / DAY_MS
  }

  function DayStart(t: nat): nat {
    t / DAY_MS * DAY_MS
  }

  function MonthStart(t: nat): nat {
    MonthFrom(0, 0, t / DAY_MS).0 * DAY_MS
  }

  function NextMonthStart(t: nat): nat {
    MonthFrom(0, 0, t / DAY_MS).1 * DAY_MS
  }

  /** Start of the period holding t and the moment its quota resets. */
  function QuotaPeriod(t: nat, period: Period): (nat, nat) {
    match period
    case Day => (DayStart(t), DayStart(t) + DAY_MS)
    case Month => (MonthStart(t), NextMonthStart(t))
  }

  function PeriodStart(t: nat, period: Period): nat {
    QuotaPeriod(t, period).0
  }

  /** Every day inside a month has that month. */
  lemma {:induction false} SameMonth(i: nat, first: nat, d: nat, e: nat)
    requires first <= d
    requires MonthFrom(i, first, d).0 <= e < MonthFrom(i, first, d).1
    ensures first <= e && MonthFrom(i, first, e) == MonthFrom(i, first, d)
    decreases d - first
  {
    if d >= first + MonthLength(i) {
      SameMonth(i + 1, first + MonthLength(i), d, e);
    }
  }

  /** A day after a month belongs to a month that starts no earlier than the next one. */
  lemma {:induction false} LaterMonth(i: nat, first: nat, d: nat, e: nat)
    requires first <= d && MonthFrom(i, first, d).1 <= e
    ensures first <= e && MonthFrom(i, first, d).1 <= MonthFrom(i, first, e).0
    decreases d - first
  {
    if d >= first + MonthLength(i) {
      LaterMonth(i + 1, first + MonthLength(i), d, e);
    }
  }

  lemma MonthStartBounds(t: nat)
    ensures MonthStart(t) <= DayStart(t) <= t < DayStart(t) + DAY_MS <= NextMonthStart(t) <= MonthStart(t) + 31 * DAY_MS
  {
    var r := MonthFrom(0, 0, t / DAY_MS);
    assert r.0 * DAY_MS <= t / DAY_MS * DAY_MS;
    assert (t / DAY_MS + 1) * DAY_MS <= r.1 * DAY_MS;
  }

  /** Two times have the same month start exactly when the second lies in the month of the first. */
  lemma MonthStartIff(t: nat, u: nat)
    ensures MonthStart(u) == MonthStart(t) <==> MonthStart(t) <= DayStart(u) < NextMonthStart(t)
    ensures t <= u ==> MonthStart(t) <= MonthStart(u)
  {
    var d, e := t / DAY_MS, u / DAY_MS;
    var (a, b) := MonthFrom(0, 0, d);
    var (a', b') := MonthFrom(0, 0, e);
    assert a <= e < b <==> a * DAY_MS <= e * DAY_MS < b * DAY_MS;
    if a <= e < b {
      SameMonth(0, 0, d, e);
    } else if b <= e {
      LaterMonth(0, 0, d, e);
    } else {
      assert a' < a;
    }
  }
}
