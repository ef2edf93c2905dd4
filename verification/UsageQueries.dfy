/** The dashboard's usage queries and the chunked usage endpoint, against direct scans of the
    records ever accepted. */
module UsageQueries {
  import opened Wrappers
  import opened Calendar
  import opened Tables
  import opened Sums
  import opened Usage
  import opened RollupLedger
  import Convex
  import Machine

  const MAX_SERIES_DAYS: int := 90

  datatype Counts = Counts(total: int, successful: int, failed: int)

  function Span(days: real): (n: int)
    ensures 1 <= n <= MAX_SERIES_DAYS
  {
    Min(Max(1, days.Floor), MAX_SERIES_DAYS)
  }

  /** The first day of a series of `span` days that ends today. */
  function FirstDay(now: nat, span: int): int {
    (now - (span - 1) * DAY_MS) / DAY_MS
  }

  ghost function ToCounts(t: (int, int, int, int)): Counts {
    Counts(t.0, t.1, t.2)
  }

  ghost function CountsOver(usage: map<Cell, Rollup>, cells: set<Cell>): Counts {
    ToCounts(RowTotals(usage, cells))
  }

  lemma NothingOver(usage: map<Cell, Rollup>)
    ensures CountsOver(usage, {}) == Counts(0, 0, 0)
  {
  }

  lemma OneMore(usage: map<Cell, Rollup>, done: set<Cell>, c: Cell)
    requires c in usage && c !in done
    ensures var before := CountsOver(usage, done);
            CountsOver(usage, done + {c}) ==
            Counts(before.total + usage[c].total, before.successful + usage[c].successful,
                   before.failed + usage[c].failed)
  {
    var t := (x: Cell) => TallyOf(usage, x);
    var all := done + {c};
    assert all - {c} == done;
    SumPick(all, x => t(x).total, c);
    SumPick(all, x => t(x).successful, c);
    SumPick(all, x => t(x).failed, c);
    SumAgree(done, x => t(x).total, x => t(x).total);
    TotalsAgree(t, x => TallyOf(usage, x), all);
    TotalsAgree(t, x => TallyOf(usage, x), done);
  }

  ghost function OnDayIn(cells: set<Cell>, day: int): set<Cell> {
    set c | c in cells && c.day == day
  }

  /** The counts by day of some rows. */
  ghost predicate ByDay(usage: map<Cell, Rollup>, done: set<Cell>, byDay: map<int, Counts>) {
    forall d :: CountsOver(usage, OnDayIn(done, d)) == CountOf(byDay, d)
  }

  function CountOf(byDay: map<int, Counts>, day: int): Counts {
    if day in byDay then byDay[day] else Counts(0, 0, 0)
  }

  function AddRow(c: Counts, r: Rollup): Counts {
    Counts(c.total + r.total, c.successful + r.successful, c.failed + r.failed)
  }

  lemma NoRowsByDay(usage: map<Cell, Rollup>)
    ensures ByDay(usage, {}, map[])
  {
    NothingOver(usage);
    assert forall d :: OnDayIn({}, d) == {};
  }

  lemma OneMoreByDay(usage: map<Cell, Rollup>, done: set<Cell>, byDay: map<int, Counts>, c: Cell)
    requires ByDay(usage, done, byDay) && c in usage && c !in done
    ensures ByDay(usage, done + {c}, byDay[c.day := AddRow(CountOf(byDay, c.day), usage[c])])
  {
    OneMore(usage, OnDayIn(done, c.day), c);
    hide CountsOver;
    assert OnDayIn(done + {c}, c.day) == OnDayIn(done, c.day) + {c};
    assert forall d :: d != c.day ==> OnDayIn(done + {c}, d) == OnDayIn(done, d);
  }

  /** Requests per UTC day for the last `days` days, oldest first. */
  method Daily(usage: map<Cell, Rollup>, user: UserId, days: real, key: Option<KeyId>, now: nat)
    returns (series: seq<(int, Counts)>)
    ensures |series| == Span(days)
    ensures forall i :: 0 <= i < |series| ==>
      var day := FirstDay(now, Span(days)) + i;
      series[i] == (day, CountsOver(usage, RowsOn(usage, user, key, day)))
  {
    hide CountsOver, ByDay, Span, FirstDay;
    var span := Span(days);
    var start := FirstDay(now, span);
    var rows := set c | c in usage && usage[c].user == user && c.day >= start;
    var byDay: map<int, Counts> := map[];
    ghost var wanted := RowsFrom(usage, user, key, start);
    ghost var done: set<Cell> := {};
    NoRowsByDay(usage);
    while rows != {}
      invariant rows <= usage.Keys && done <= wanted && done !! rows
      invariant forall c :: c in wanted ==> c in done || c in rows
      invariant forall c :: c in rows && (key.None? || key.value == c.key) ==> c in wanted
      invariant ByDay(usage, done, byDay)
      decreases rows
    {
      var c :| c in rows;
      rows := rows - {c};
      if key.Some? && c.key != key.value {
        continue;
      }
      OneMoreByDay(usage, done, byDay, c);
      byDay := byDay[c.day := AddRow(CountOf(byDay, c.day), usage[c])];
      done := done + {c};
    }
    assert done == wanted;
    series := [];
    var i := 0;
    while i < span
      invariant 0 <= i <= span && |series| == i
      invariant forall j :: 0 <= j < i ==>
                series[j] == (start + j, CountsOver(usage, RowsOn(usage, user, key, start + j)))
    {
      DayIs(usage, user, key, start, start + i, byDay);
      series := series + [(start + i, CountOf(byDay, start + i))];
      i := i + 1;
    }
  }

  lemma DayIs(usage: map<Cell, Rollup>, user: UserId, key: Option<KeyId>, start: int, day: int, byDay: map<int, Counts>)
    requires ByDay(usage, RowsFrom(usage, user, key, start), byDay) && day >= start
    ensures CountsOver(usage, RowsOn(usage, user, key, day)) == CountOf(byDay, day)
  {
    assert OnDayIn(RowsFrom(usage, user, key, start), day) == RowsOn(usage, user, key, day);
  }

  /** Today's and this month's totals. */
  method Summary(usage: map<Cell, Rollup>, user: UserId, now: nat) returns (today: Counts, month: Counts)
    ensures today == CountsOver(usage, RowsOn(usage, user, None, UtcDay(now)))
    ensures month == CountsOver(usage, RowsFrom(usage, user, None, MonthStart(now) / DAY_MS))
  {
    var first := MonthStart(now) / DAY_MS;
    var rows := set c | c in usage && usage[c].user == user && c.day >= first;
    today, month := Counts(0, 0, 0), Counts(0, 0, 0);
    ghost var wanted := RowsFrom(usage, user, None, first);
    ghost var done: set<Cell> := {};
    assert rows == wanted;
    NothingOver(usage);
    assert OnDayIn(done, UtcDay(now)) == {};
    while rows != {}
      invariant rows <= wanted && done == wanted - rows
      invariant month == CountsOver(usage, done) && today == CountsOver(usage, OnDayIn(done, UtcDay(now)))
      decreases rows
    {
      var c :| c in rows;
      OneMore(usage, done, c);
      OneMore(usage, OnDayIn(done, UtcDay(now)), c);
      if c.day == UtcDay(now) {
        today := Counts(today.total + usage[c].total, today.successful + usage[c].successful,
                        today.failed + usage[c].failed);
        assert OnDayIn(done + {c}, UtcDay(now)) == OnDayIn(done, UtcDay(now)) + {c};
      } else {
        assert OnDayIn(done + {c}, UtcDay(now)) == OnDayIn(done, UtcDay(now));
      }
      month := Counts(month.total + usage[c].total, month.successful + usage[c].successful,
                      month.failed + usage[c].failed);
      done, rows := done + {c}, rows - {c};
    }
    MonthStartBounds(now);
    assert done == wanted;
    assert OnDayIn(done, UtcDay(now)) == RowsOn(usage, user, None, UtcDay(now));
  }

  /** In every reachable state the numbers the queries show are direct scans of the history: each
      day of a series, today, and the month. */
  lemma QueriesShowTheHistory(env: Env, run: seq<Machine.Event>, u: UserId, key: Option<KeyId>, day: int, first: int)
    requires Machine.Possible(Machine.EMPTY, env, run)
    ensures var w := Machine.Run(Machine.EMPTY, env, run);
            CountsOver(w.s.usageDaily, RowsOn(w.s.usageDaily, u, key, day))
              == ToCounts(AsTuple(ScanWhere(w.h.accepted, OnDay(u, key, day))))
            && CountsOver(w.s.usageDaily, RowsFrom(w.s.usageDaily, u, key, first))
               == ToCounts(AsTuple(ScanWhere(w.h.accepted, FromDay(u, key, first))))
  {
    EmptyRollups();
    hide Rollups;
    RollupsRun(Machine.EMPTY, env, run);
    var w := Machine.Run(Machine.EMPTY, env, run);
    DayTotals(w, u, key, day);
    TotalsFrom(w, u, key, first);
  }

  // ---- Chunks --------------------------------------------------------------------------------------------

  predicate SameOwners(a: map<KeyId, ApiKey>, b: map<KeyId, ApiKey>) {
    a.Keys == b.Keys && forall k :: k in a ==> a[k].userId == b[k].userId
  }

  lemma {:induction false} SameAccepted(a: map<KeyId, ApiKey>, b: map<KeyId, ApiKey>, es: seq<Entry>, now: nat)
    requires SameOwners(a, b)
    ensures Accepted(a, es, now) == Accepted(b, es, now)
  {
    if es != [] {
      SameAccepted(a, b, es[..|es| - 1], now);
    }
  }

  lemma RowsPush(rows: map<nat, Request>, next: nat, a: seq<Request>, r: Request)
    ensures AddRows(rows, next, a + [r]) == AddRows(rows, next, a)[next + |a| := r]
  {
    assert (a + [r])[..|a|] == a;
  }

  lemma {:induction false} RowsConcat(rows: map<nat, Request>, next: nat, a: seq<Request>, b: seq<Request>)
    ensures AddRows(AddRows(rows, next, a), next + |a|, b) == AddRows(rows, next, a + b)
  {
    if b == [] {
      assert a + b == a;
    } else {
      hide AddRows;
      var init, r := b[..|b| - 1], b[|b| - 1];
      RowsConcat(rows, next, a, init);
      RowsPush(AddRows(rows, next, a), next + |a|, init, r);
      RowsPush(rows, next, a + init, r);
      LastApart(a, b);
    }
  }

  lemma LastApart(a: seq<Request>, b: seq<Request>)
    requires b != []
    ensures b == b[..|b| - 1] + [b[|b| - 1]] && a + b == a + b[..|b| - 1] + [b[|b| - 1]]
  {
  }

  lemma AddFacts(usage: map<Cell, Rollup>, keys: map<KeyId, ApiKey>, accepted: seq<Request>, c: Cell)
    ensures var u := AddToRollups(usage, keys, accepted);
            (c in u <==> c in usage || (c in Cells(accepted) && c.key in keys))
            && (c in u ==>
                  u[c] == ToRollup(if c in usage then usage[c].user else keys[c.key].userId,
                                   Plus(TallyOf(usage, c), Scan(accepted, c))))
            && (c in u ==> TallyOf(u, c) == Plus(TallyOf(usage, c), Scan(accepted, c)))
            && (c !in u ==> TallyOf(u, c) == Zero())
  {
    hide Plus, Scan;
  }

  /** Adding two batches one after the other is adding them together. */
  lemma RollupsConcat(usage: map<Cell, Rollup>, a: map<KeyId, ApiKey>, b: map<KeyId, ApiKey>, x: seq<Request>,
                      y: seq<Request>)
    requires SameOwners(a, b)
    ensures AddToRollups(AddToRollups(usage, a, x), b, y) == AddToRollups(usage, a, x + y)
  {
    var one := AddToRollups(usage, a, x);
    var two, both := AddToRollups(one, b, y), AddToRollups(usage, a, x + y);
    assert Cells(x + y) == Cells(x) + Cells(y);
    hide AddToRollups, Plus, Scan, CellOf;
    forall c ensures (c in two <==> c in both) && (c in two ==> two[c] == both[c]) {
      AddFacts(usage, a, x, c);
      AddFacts(one, b, y, c);
      AddFacts(usage, a, x + y, c);
      ScanAppend(x, y, c);
      PlusAssoc(TallyOf(usage, c), Scan(x, c), Scan(y, c));
      if c !in one && c in two {
        EmptyCell(x, c);
        PlusZero(Zero());
      }
    }
  }

  lemma TouchKeepsOwners(keys: map<KeyId, ApiKey>, accepted: seq<Request>)
    ensures SameOwners(keys, TouchKeys(keys, accepted))
  {
    assert TouchKeys(keys, accepted).Keys == keys.Keys;
  }

  /** What storing a list of records whole amounts to. */
  predicate StoredAll(s: State, t: State, written: nat, all: seq<Request>) {
    written == |all| && t.nextRow == s.nextRow + |all|
    && t.requests == AddRows(s.requests, s.nextRow, all)
    && t.usageDaily == AddToRollups(s.usageDaily, s.keys, all)
    && SameOwners(s.keys, t.keys)
  }

  lemma OneChunk(s: State, chunk: seq<Entry>, now: nat)
    requires |chunk| <= MAX_USAGE_ENTRIES
    ensures var (t, w) := RecordUsage(s, chunk, now); StoredAll(s, t, w, Accepted(s.keys, chunk, now))
  {
    assert chunk[..Min(MAX_USAGE_ENTRIES, |chunk|)] == chunk;
    TouchKeepsOwners(s.keys, Accepted(s.keys, chunk, now));
    hide Accepted, AddRows, AddToRollups;
  }

  lemma StoredTwice(s: State, t: State, u: State, v: nat, w: nat, x: seq<Request>, y: seq<Request>)
    requires StoredAll(s, t, v, x) && StoredAll(t, u, w, y)
    ensures StoredAll(s, u, v + w, x + y)
  {
    hide AddRows, AddToRollups, SameOwners;
    assert SameOwners(s.keys, u.keys) by {
      OwnersTransitive(s.keys, t.keys, u.keys);
    }
    assert u.requests == AddRows(s.requests, s.nextRow, x + y) by {
      RowsConcat(s.requests, s.nextRow, x, y);
    }
    assert u.usageDaily == AddToRollups(s.usageDaily, s.keys, x + y) by {
      RollupsConcat(s.usageDaily, s.keys, t.keys, x, y);
    }
  }

  lemma OwnersTransitive(a: map<KeyId, ApiKey>, b: map<KeyId, ApiKey>, c: map<KeyId, ApiKey>)
    requires SameOwners(a, b) && SameOwners(b, c)
    ensures SameOwners(a, c)
  {
  }

  /** The records of a request that are plausible when their chunk is stored. */
  function AcceptedInChunks(keys: map<KeyId, ApiKey>, valid: seq<Entry>, clock: nat -> nat, i: nat): seq<Request>
    decreases |valid|
  {
    if valid == [] then []
    else
      var n := Min(Convex.MAX_USAGE_BATCH, |valid|);
      Accepted(keys, valid[..n], clock(i)) + AcceptedInChunks(keys, valid[n..], clock, i + 1)
  }

  lemma {:induction false} SameInChunks(a: map<KeyId, ApiKey>, b: map<KeyId, ApiKey>, valid: seq<Entry>,
                                        clock: nat -> nat, i: nat)
    requires SameOwners(a, b)
    ensures AcceptedInChunks(a, valid, clock, i) == AcceptedInChunks(b, valid, clock, i)
    decreases |valid|
  {
    if valid != [] {
      var n := Min(Convex.MAX_USAGE_BATCH, |valid|);
      SameAccepted(a, b, valid[..n], clock(i));
      SameInChunks(a, b, valid[n..], clock, i + 1);
    }
  }

  lemma FirstChunk(s: State, valid: seq<Entry>, clock: nat -> nat, i: nat)
    requires valid != []
    ensures var n := Min(Convex.MAX_USAGE_BATCH, |valid|);
            var (t, v) := RecordUsage(s, valid[..n], clock(i));
            StoredAll(s, t, v, Accepted(s.keys, valid[..n], clock(i)))
            && AcceptedInChunks(t.keys, valid[n..], clock, i + 1) == AcceptedInChunks(s.keys, valid[n..], clock, i + 1)
  {
    hide RecordUsage, StoredAll, Accepted, AcceptedInChunks;
    var n := Min(Convex.MAX_USAGE_BATCH, |valid|);
    var (t, v) := RecordUsage(s, valid[..n], clock(i));
    OneChunk(s, valid[..n], clock(i));
    OwnersOfStored(s, t, v, Accepted(s.keys, valid[..n], clock(i)));
    SameInChunks(s.keys, t.keys, valid[n..], clock, i + 1);
  }

  /** Cutting a request into chunks of 200 loses nothing to the 200-record limit: every record plausible when
      its chunk is stored is stored, and the rollups are those of all of them taken at once. */
  lemma {:induction false} ChunkingLosesNothing(s: State, valid: seq<Entry>, clock: nat -> nat, i: nat)
    ensures var (t, written) := Convex.Chunked(s, valid, clock, i);
            StoredAll(s, t, written, AcceptedInChunks(s.keys, valid, clock, i))
    decreases |valid|
  {
    hide RecordUsage, StoredAll, Accepted, Convex.Chunked;
    if valid == [] {
      NothingStored(s);
      Convex.NoChunk(s, clock, i);
    } else {
      var n := Min(Convex.MAX_USAGE_BATCH, |valid|);
      var (t, v) := RecordUsage(s, valid[..n], clock(i));
      FirstChunk(s, valid, clock, i);
      Convex.ChunkedStep(s, valid, clock, i);
      var (u, w) := Convex.Chunked(t, valid[n..], clock, i + 1);
      ChunkingLosesNothing(t, valid[n..], clock, i + 1);
      var head := Accepted(s.keys, valid[..n], clock(i));
      var tail := AcceptedInChunks(s.keys, valid[n..], clock, i + 1);
      assert AcceptedInChunks(s.keys, valid, clock, i) == head + tail;
      hide AcceptedInChunks;
      StoredTwice(s, t, u, v, w, head, tail);
    }
  }

  lemma NothingStored(s: State)
    ensures StoredAll(s, s, 0, [])
  {
    NothingAdded(s.usageDaily, s.keys);
  }

  lemma OwnersOfStored(s: State, t: State, w: nat, all: seq<Request>)
    requires StoredAll(s, t, w, all)
    ensures SameOwners(s.keys, t.keys)
  {
  }

  lemma NothingAdded(usage: map<Cell, Rollup>, keys: map<KeyId, ApiKey>)
    ensures AddToRollups(usage, keys, []) == usage
  {
    var u := AddToRollups(usage, keys, []);
    assert u.Keys == usage.Keys;
    forall c | c in usage ensures u[c] == usage[c] {
      PlusZero(TallyOf(usage, c));
    }
  }

  // ---- Chunks among other steps ------------------------------------------------------------------------

  /** One chunk's mutation, and the steps of others that run before it. */
  datatype Delivery = Delivery(others: seq<Machine.Event>, entries: seq<Entry>, at: nat)

  function Deliver(ds: seq<Delivery>): seq<Machine.Event> {
    if ds == [] then []
    else ds[0].others + ([Machine.Event(Machine.RecordUsage(ds[0].entries), ds[0].at)] + Deliver(ds[1..]))
  }

  /** The records that are plausible, going by the keys there were before, when their chunk is stored. */
  function Due(keys: map<KeyId, ApiKey>, ds: seq<Delivery>): seq<Request> {
    if ds == [] then [] else Accepted(keys, ds[0].entries, ds[0].at) + Due(keys, ds[1..])
  }

  ghost predicate OwnersKept(a: map<KeyId, ApiKey>, b: map<KeyId, ApiKey>) {
    forall k :: k in a ==> k in b && b[k].userId == a[k].userId
  }

  lemma {:induction false} MoreKeysMoreAccepted(a: map<KeyId, ApiKey>, b: map<KeyId, ApiKey>, es: seq<Entry>, now: nat)
    requires OwnersKept(a, b)
    ensures multiset(Accepted(a, es, now)) <= multiset(Accepted(b, es, now))
  {
    if es != [] {
      hide ToRequest;
      var n := |es| - 1;
      MoreKeysMoreAccepted(a, b, es[..n], now);
    }
  }

  lemma {:induction false} MoreKeysMoreDue(a: map<KeyId, ApiKey>, b: map<KeyId, ApiKey>, ds: seq<Delivery>)
    requires OwnersKept(a, b)
    ensures multiset(Due(a, ds)) <= multiset(Due(b, ds))
  {
    if ds != [] {
      hide Accepted, OwnersKept;
      MoreKeysMoreAccepted(a, b, ds[0].entries, ds[0].at);
      MoreKeysMoreDue(a, b, ds[1..]);
    }
  }

  lemma OnlyGrowsStep(w: Machine.World, env: Env, step: Machine.Step, now: nat)
    requires Machine.Enabled(w, env, step, now)
    ensures OwnersKept(w.s.keys, Machine.Advance(w, env, step, now).s.keys)
    ensures multiset(w.h.accepted) <= multiset(Machine.Advance(w, env, step, now).h.accepted)
  {
    hide Machine.Next, Machine.Enabled, Accepted;
    forall k | k in w.s.keys
      ensures k in Machine.Next(w.s, env, step, now).keys
      ensures Machine.Next(w.s, env, step, now).keys[k].userId == w.s.keys[k].userId
    {
      Machine.OwnersAreKept(w, env, step, now, k);
    }
  }

  lemma {:induction false} OnlyGrows(w: Machine.World, env: Env, run: seq<Machine.Event>)
    requires Machine.Possible(w, env, run)
    ensures OwnersKept(w.s.keys, Machine.Run(w, env, run).s.keys)
    ensures multiset(w.h.accepted) <= multiset(Machine.Run(w, env, run).h.accepted)
    decreases run
  {
    if run != [] {
      hide Machine.Enabled, Machine.Advance;
      OnlyGrowsStep(w, env, run[0].step, run[0].now);
      OnlyGrows(Machine.Advance(w, env, run[0].step, run[0].now), env, run[1..]);
    }
  }

  lemma ChunkIsAccepted(w: Machine.World, env: Env, entries: seq<Entry>, now: nat)
    requires |entries| <= MAX_USAGE_ENTRIES
    ensures Machine.Advance(w, env, Machine.RecordUsage(entries), now).h.accepted
            == w.h.accepted + Accepted(w.s.keys, entries, now)
  {
    assert entries[..Min(MAX_USAGE_ENTRIES, |entries|)] == entries;
  }

  /** One chunk and the steps before it: the chunk's due records are accepted, and nothing is forgotten. */
  lemma DeliverOne(w: Machine.World, env: Env, d: Delivery, rest: seq<Machine.Event>)
    requires |d.entries| <= MAX_USAGE_ENTRIES
    requires Machine.Possible(w, env, d.others + ([Machine.Event(Machine.RecordUsage(d.entries), d.at)] + rest))
    ensures var y := Machine.Advance(Machine.Run(w, env, d.others), env, Machine.RecordUsage(d.entries), d.at);
            Machine.Possible(y, env, rest)
            && Machine.Run(w, env, d.others + ([Machine.Event(Machine.RecordUsage(d.entries), d.at)] + rest))
               == Machine.Run(y, env, rest)
            && OwnersKept(w.s.keys, y.s.keys)
            && multiset(w.h.accepted) + multiset(Accepted(w.s.keys, d.entries, d.at)) <= multiset(y.h.accepted)
  {
    hide Machine.Enabled, Machine.Advance, Accepted, Machine.Run, Machine.Possible;
    var e := Machine.Event(Machine.RecordUsage(d.entries), d.at);
    var x := Machine.Run(w, env, d.others);
    Machine.Joined(w, env, d.others, [e] + rest);
    OnlyGrows(w, env, d.others);
    Machine.Then(x, env, e, rest);
    OnlyGrowsStep(x, env, e.step, e.now);
    ChunkIsAccepted(x, env, d.entries, d.at);
    MoreKeysMoreAccepted(w.s.keys, x.s.keys, d.entries, d.at);
  }

  /** Whatever else runs between the chunks of a request, in the end every record that was due is among the
      accepted ones, as often as it was sent. */
  lemma {:induction false} NoChunkIsLost(w: Machine.World, env: Env, ds: seq<Delivery>)
    requires Machine.Possible(w, env, Deliver(ds))
    requires forall i :: 0 <= i < |ds| ==> |ds[i].entries| <= MAX_USAGE_ENTRIES
    ensures multiset(w.h.accepted) + multiset(Due(w.s.keys, ds))
            <= multiset(Machine.Run(w, env, Deliver(ds)).h.accepted)
    decreases |ds|
  {
    if ds != [] {
      hide Machine.Advance, Accepted, Machine.Run, Machine.Possible, OwnersKept;
      var d := ds[0];
      var y := Machine.Advance(Machine.Run(w, env, d.others), env, Machine.RecordUsage(d.entries), d.at);
      DeliverOne(w, env, d, Deliver(ds[1..]));
      NoChunkIsLost(y, env, ds[1..]);
      MoreKeysMoreDue(w.s.keys, y.s.keys, ds[1..]);
      assert Due(w.s.keys, ds) == Accepted(w.s.keys, d.entries, d.at) + Due(w.s.keys, ds[1..]);
    } else {
      assert Machine.Run(w, env, []) == w;
    }
  }
}
