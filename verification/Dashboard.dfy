/** What the dashboard shows, in terms of the records ever accepted and their timestamps. */
module Dashboard {
  import opened Wrappers
  import opened Calendar
  import opened Tables
  import opened Usage
  import opened RollupLedger
  import opened UsageQueries
  import opened EndpointUsage
  import Machine

  // ---- Counting records --------------------------------------------------------------------------------

  ghost function CountIf(rs: seq<Request>, p: Request -> bool): nat {
    if rs == [] then 0 else CountIf(rs[..|rs| - 1], p) + if p(rs[|rs| - 1]) then 1 else 0
  }

  /** The response times of some records, added up. */
  ghost function TimeOf(rs: seq<Request>, p: Request -> bool): int {
    if rs == [] then 0
    else TimeOf(rs[..|rs| - 1], p) + if p(rs[|rs| - 1]) then rs[|rs| - 1].responseTimeMs else 0
  }

  ghost function Succeeding(p: Request -> bool): Request -> bool {
    (r: Request) => p(r) && r.statusCode < 400
  }

  ghost function Failing(p: Request -> bool): Request -> bool {
    (r: Request) => p(r) && r.statusCode >= 400
  }

  /** A scan counts the records, those with a status below 400, and those with one from 400 on. */
  lemma {:induction false} ScanCounts(rs: seq<Request>, p: Request -> bool)
    ensures AsTuple(ScanWhere(rs, p))
            == (CountIf(rs, p), CountIf(rs, Succeeding(p)), CountIf(rs, Failing(p)), TimeOf(rs, p))
  {
    if rs != [] {
      ScanCounts(rs[..|rs| - 1], p);
    }
  }

  lemma {:induction false} SameScan(rs: seq<Request>, p: Request -> bool, q: Request -> bool)
    requires forall i :: 0 <= i < |rs| ==> (p(rs[i]) <==> q(rs[i]))
    ensures ScanWhere(rs, p) == ScanWhere(rs, q)
  {
    if rs != [] {
      hide Plus, One;
      SameScan(rs[..|rs| - 1], p, q);
    }
  }

  /** The records of one account, optionally of one key, made at `from` or later and before `to`. */
  ghost function MadeIn(u: UserId, key: Option<KeyId>, from: int, to: int): Request -> bool {
    (r: Request) => r.user == u && (key.None? || key.value == r.key) && from as real <= r.timestamp < to as real
  }

  ghost function CountsIn(rs: seq<Request>, u: UserId, key: Option<KeyId>, from: int, to: int): Counts {
    var p := MadeIn(u, key, from, to);
    Counts(CountIf(rs, p), CountIf(rs, Succeeding(p)), CountIf(rs, Failing(p)))
  }

  lemma CountsOfScan(rs: seq<Request>, u: UserId, key: Option<KeyId>, from: int, to: int)
    ensures ToCounts(AsTuple(ScanWhere(rs, MadeIn(u, key, from, to)))) == CountsIn(rs, u, key, from, to)
  {
    ScanCounts(rs, MadeIn(u, key, from, to));
  }

  // ---- Days --------------------------------------------------------------------------------------------

  /** The rows of a day count the records of its 24 hours. */
  lemma DayShows(env: Env, run: seq<Machine.Event>, u: UserId, key: Option<KeyId>, day: int)
    requires Machine.Possible(Machine.EMPTY, env, run)
    ensures var w := Machine.Run(Machine.EMPTY, env, run);
            CountsOver(w.s.usageDaily, RowsOn(w.s.usageDaily, u, key, day))
            == CountsIn(w.h.accepted, u, key, day * DAY_MS, (day + 1) * DAY_MS)
  {
    hide Machine.Run, Machine.Possible, CountsOver, CountsIn, ScanWhere, ToCounts, AsTuple, DayOf;
    var rs := Machine.Run(Machine.EMPTY, env, run).h.accepted;
    QueriesShowTheHistory(env, run, u, key, day, day);
    forall i | 0 <= i < |rs|
      ensures OnDay(u, key, day)(rs[i]) <==> MadeIn(u, key, day * DAY_MS, (day + 1) * DAY_MS)(rs[i])
    {
      DayHolds(rs[i].timestamp, day);
    }
    SameScan(rs, OnDay(u, key, day), MadeIn(u, key, day * DAY_MS, (day + 1) * DAY_MS));
    CountsOfScan(rs, u, key, day * DAY_MS, (day + 1) * DAY_MS);
  }

  lemma DayFrom(timestamp: real, first: int)
    ensures DayOf(timestamp) >= first <==> (first * DAY_MS) as real <= timestamp
  {
    hide DayOf;
    DayHolds(timestamp, DayOf(timestamp));
  }

  /** No record is from the future. */
  lemma RecordsArePast(env: Env, run: seq<Machine.Event>)
    requires Machine.Possible(Machine.EMPTY, env, run)
    ensures var w := Machine.Run(Machine.EMPTY, env, run);
            forall i :: 0 <= i < |w.h.accepted| ==> w.h.accepted[i].timestamp <= w.h.clock as real
  {
    EmptyRollups();
    RollupsRun(Machine.EMPTY, env, run);
    hide Machine.Run, Machine.Possible;
    var w := Machine.Run(Machine.EMPTY, env, run);
    forall i | 0 <= i < |w.h.accepted| ensures w.h.accepted[i].timestamp <= w.h.clock as real {
      assert GoodRecord(w, w.h.accepted[i]);
    }
  }

  /** The rows from a day on count the records made since that day began. */
  lemma ShownSince(env: Env, run: seq<Machine.Event>, u: UserId, key: Option<KeyId>, first: int, to: int)
    requires Machine.Possible(Machine.EMPTY, env, run) && Machine.Run(Machine.EMPTY, env, run).h.clock < to
    ensures var w := Machine.Run(Machine.EMPTY, env, run);
            CountsOver(w.s.usageDaily, RowsFrom(w.s.usageDaily, u, key, first))
            == CountsIn(w.h.accepted, u, key, first * DAY_MS, to)
  {
    hide Machine.Run, Machine.Possible, CountsOver, CountsIn, ScanWhere, ToCounts, AsTuple, DayOf;
    var rs := Machine.Run(Machine.EMPTY, env, run).h.accepted;
    QueriesShowTheHistory(env, run, u, key, first, first);
    RecordsArePast(env, run);
    forall i | 0 <= i < |rs| ensures FromDay(u, key, first)(rs[i]) <==> MadeIn(u, key, first * DAY_MS, to)(rs[i]) {
      DayFrom(rs[i].timestamp, first);
    }
    SameScan(rs, FromDay(u, key, first), MadeIn(u, key, first * DAY_MS, to));
    CountsOfScan(rs, u, key, first * DAY_MS, to);
  }

  // ---- The summary ---------------------------------------------------------------------------------------

  /** In every reachable state, today's numbers count the account's records of the 24 hours that hold the present, and
      the month's those since the month began. */
  lemma SummaryShows(env: Env, run: seq<Machine.Event>, u: UserId, now: nat)
    requires Machine.Possible(Machine.EMPTY, env, run) && Machine.Run(Machine.EMPTY, env, run).h.clock <= now
    ensures var w := Machine.Run(Machine.EMPTY, env, run);
            CountsOver(w.s.usageDaily, RowsOn(w.s.usageDaily, u, None, UtcDay(now)))
            == CountsIn(w.h.accepted, u, None, DayStart(now), DayStart(now) + 86_400_000)
            && CountsOver(w.s.usageDaily, RowsFrom(w.s.usageDaily, u, None, MonthStart(now) / DAY_MS))
               == CountsIn(w.h.accepted, u, None, MonthStart(now), NextMonthStart(now))
    ensures DayStart(now) <= now < DayStart(now) + 86_400_000 && MonthStart(now) <= now < NextMonthStart(now)
  {
    hide Machine.Run, Machine.Possible, CountsOver, CountsIn;
    MonthStartBounds(now);
    DayShows(env, run, u, None, UtcDay(now));
    ShownSince(env, run, u, None, MonthStart(now) / DAY_MS, NextMonthStart(now));
  }

  // ---- The series ----------------------------------------------------------------------------------------

  /** A series has as many days as asked for, at least one and at most ninety. */
  lemma SpanIs(days: real)
    ensures 1.0 <= days < 91.0 ==> Span(days) as real <= days < Span(days) as real + 1.0
    ensures days < 1.0 ==> Span(days) == 1
    ensures days >= 91.0 ==> Span(days) == 90
  {
  }

  /** In every reachable state, row i of a series counts the records of its own 24 hours, and the last row is today. */
  lemma SeriesShows(env: Env, run: seq<Machine.Event>, u: UserId, key: Option<KeyId>, days: real, now: nat, i: nat)
    requires Machine.Possible(Machine.EMPTY, env, run) && i < Span(days)
    ensures var w := Machine.Run(Machine.EMPTY, env, run);
            var day, from := FirstDay(now, Span(days)) + i, DayStart(now) - (Span(days) - 1 - i) * 86_400_000;
            day * 86_400_000 == from
            && CountsOver(w.s.usageDaily, RowsOn(w.s.usageDaily, u, key, day))
               == CountsIn(w.h.accepted, u, key, from, from + 86_400_000)
    ensures i == Span(days) - 1 ==> FirstDay(now, Span(days)) + i == UtcDay(now)
  {
    hide Machine.Run, Machine.Possible, CountsOver, CountsIn, Span;
    FirstDayIs(now, Span(days));
    hide FirstDay;
    DayShows(env, run, u, key, FirstDay(now, Span(days)) + i);
  }

  lemma FirstDayIs(now: nat, span: int)
    ensures FirstDay(now, span) == UtcDay(now) - (span - 1)
  {
  }

  // ---- Endpoints -----------------------------------------------------------------------------------------

  ghost function MadeAt(u: UserId, key: Option<KeyId>, endpoint: string, from: int, to: int): Request -> bool {
    (r: Request) => MadeIn(u, key, from, to)(r) && r.endpoint == endpoint
  }

  /** In every reachable state, the row of an endpoint counts the account's records to it since the first day began,
      and its average is the mean response time, rounded to the nearest millisecond. */
  lemma EndpointShows(env: Env, run: seq<Machine.Event>, u: UserId, key: Option<KeyId>, first: int, endpoint: string,
                      to: int)
    requires Machine.Possible(Machine.EMPTY, env, run) && Machine.Run(Machine.EMPTY, env, run).h.clock < to
    ensures var w := Machine.Run(Machine.EMPTY, env, run);
            var p := MadeAt(u, key, endpoint, first * DAY_MS, to);
            var rows := RowsAt(RowsFrom(w.s.usageDaily, u, key, first), endpoint);
            var row := ToRow(endpoint, TallyOver(w.s.usageDaily, rows));
            row.endpoint == endpoint && row.total == CountIf(w.h.accepted, p)
            && row.successful == CountIf(w.h.accepted, Succeeding(p)) && row.failed == CountIf(w.h.accepted, Failing(p))
            && if row.total == 0 then row.avgResponseTimeMs == 0
               else 2 * TimeOf(w.h.accepted, p) - row.total < 2 * row.avgResponseTimeMs * row.total
                    <= 2 * TimeOf(w.h.accepted, p) + row.total
  {
    hide Machine.Run, Machine.Possible, ScanWhere, DayOf, TallyOver, RowsAt, RowsFrom;
    var rs := Machine.Run(Machine.EMPTY, env, run).h.accepted;
    var p := MadeAt(u, key, endpoint, first * DAY_MS, to);
    EndpointsShowTheHistory(env, run, u, key, first, endpoint);
    RecordsArePast(env, run);
    forall i | 0 <= i < |rs| ensures AtEndpoint(u, key, first, endpoint)(rs[i]) <==> p(rs[i]) {
      DayFrom(rs[i].timestamp, first);
      assert FromDay(u, key, first)(rs[i]) <==> MadeIn(u, key, first * DAY_MS, to)(rs[i]);
    }
    SameScan(rs, AtEndpoint(u, key, first, endpoint), p);
    ScanCounts(rs, p);
    RowIs(endpoint, AsTuple(ScanWhere(rs, p)));
    hide ToRow, MadeAt, CountIf, TimeOf;
  }

  /** The mean is rounded to the nearest, halves up. */
  lemma RowIs(endpoint: string, t: (int, int, int, int))
    requires t.0 >= 0
    ensures var row := ToRow(endpoint, t);
            row.endpoint == endpoint && row.total == t.0 && row.successful == t.1 && row.failed == t.2
            && if t.0 == 0 then row.avgResponseTimeMs == 0
               else 2 * t.3 - t.0 < 2 * row.avgResponseTimeMs * t.0 <= 2 * t.3 + t.0
  {
    if t.0 != 0 {
      RoundedMean(t.3, t.0);
    }
  }

  lemma RoundedMean(sum: int, n: int)
    requires n > 0
    ensures var a := Round(sum as real / n as real); 2 * sum - n < 2 * a * n <= 2 * sum + n
  {
    var m := sum as real / n as real;
    var a := Round(m);
    assert a as real - 0.5 <= m < a as real + 0.5;
    hide Round;
    AtLeast(2 * a - 1, sum, n);
    Below(2 * a + 1, sum, n);
    assert (2 * a - 1) * n == 2 * a * n - n && (2 * a + 1) * n == 2 * a * n + n;
  }

  lemma AtLeast(h: int, sum: int, n: int)
    requires n > 0 && h as real / 2.0 <= sum as real / n as real
    ensures h * n <= 2 * sum
  {
    if h * n > 2 * sum {
      Quotients(2 * sum, h, n);
    }
  }

  lemma Below(h: int, sum: int, n: int)
    requires n > 0 && sum as real / n as real < h as real / 2.0
    ensures 2 * sum < h * n
  {
    if 2 * sum >= h * n {
      NotBelow(2 * sum, h, n);
    }
  }

  lemma NotBelow(s: int, h: int, n: int)
    requires n > 0 && s >= h * n
    ensures s as real / n as real >= h as real
  {
    Product(s as real, n as real);
    assert (h * n) as real == h as real * n as real;
  }

  lemma Quotients(s: int, h: int, n: int)
    requires n > 0 && s < h * n
    ensures s as real / n as real < h as real
  {
    var m := s as real / n as real;
    Product(s as real, n as real);
    assert (h * n) as real == h as real * n as real;
  }

  lemma Product(x: real, n: real)
    requires n > 0.0
    ensures x / n * n == x
  {
  }
}
