/** The daily rollups are the fold of every record ever accepted, whatever raw rows have been
    pruned, and sums over rollup rows are what a direct scan of those records would count. */
module RollupLedger {
  import opened Wrappers
  import opened Tables
  import opened Calendar
  import opened Sums
  import opened Machine
  import opened Usage
  import Payments
  import Gateway

  // ---- Scans ------------------------------------------------------------------------------------

  lemma PlusAssoc(x: Tally, y: Tally, z: Tally)
    ensures Plus(Plus(x, y), z) == Plus(x, Plus(y, z))
  {
  }

  lemma ScanPush(rs: seq<Request>, r: Request, c: Cell)
    ensures Scan(rs + [r], c) == Plus(Scan(rs, c), Share(r, c))
    ensures Cells(rs + [r]) == Cells(rs) + {CellOf(r)}
  {
    assert (rs + [r])[..|rs|] == rs;
  }

  lemma PlusZero(x: Tally)
    ensures Plus(x, Zero()) == x
  {
  }

  lemma ZeroPlus(x: Tally)
    ensures Plus(Zero(), x) == x
  {
  }

  lemma {:induction false} ScanAppend(a: seq<Request>, b: seq<Request>, c: Cell)
    ensures Scan(a + b, c) == Plus(Scan(a, c), Scan(b, c))
  {
    hide Plus, Share;
    if b == [] {
      assert a + b == a;
      PlusZero(Scan(a, c));
    } else {
      var init, r := b[..|b| - 1], b[|b| - 1];
      assert b == init + [r];
      assert a + b == (a + init) + [r];
      ScanAppend(a, init, c);
      ScanPush(a + init, r, c);
      ScanPush(init, r, c);
      PlusAssoc(Scan(a, c), Scan(init, c), Share(r, c));
    }
  }

  predicate Balanced(t: Tally, present: bool) {
    (t.total > 0 <==> present) && t.total == t.successful + t.failed && (!present ==> t.totalResponseTimeMs == 0)
  }

  lemma BalancedPlus(x: Tally, y: Tally, p: bool, q: bool)
    requires Balanced(x, p) && Balanced(y, q)
    ensures Balanced(Plus(x, y), p || q)
  {
  }

  lemma ShareBalanced(r: Request, c: Cell)
    ensures Balanced(Share(r, c), CellOf(r) == c)
  {
  }

  /** A cell counts something exactly when it has a record, and counts successes and failures apart. */
  lemma {:induction false} ScanBalanced(rs: seq<Request>, c: Cell)
    ensures Balanced(Scan(rs, c), c in Cells(rs))
  {
    if rs != [] {
      hide Scan, Cells, Share, Plus, Balanced, CellOf;
      var init, r := rs[..|rs| - 1], rs[|rs| - 1];
      ScanBalanced(init, c);
      ShareBalanced(r, c);
      BalancedPlus(Scan(init, c), Share(r, c), c in Cells(init), CellOf(r) == c);
      ScanPush(init, r, c);
      assert rs == init + [r];
      assert c in Cells(rs) <==> c in Cells(init) || CellOf(r) == c;
    }
  }

  lemma {:induction false} EmptyCell(rs: seq<Request>, c: Cell)
    requires c !in Cells(rs)
    ensures Scan(rs, c) == Zero()
  {
    if rs != [] {
      var init, r := rs[..|rs| - 1], rs[|rs| - 1];
      assert rs == init + [r];
      ScanPush(init, r, c);
      assert c !in Cells(init) && CellOf(r) != c && Share(r, c) == Zero();
      hide Cells, CellOf, Share, Plus;
      EmptyCell(init, c);
      PlusZero(Zero());
    }
  }

  // ---- The invariant ------------------------------------------------------------------------------

  ghost predicate GoodRecord(w: World, r: Request) {
    r.key in w.s.keys && w.s.keys[r.key].userId == r.user && r.timestamp <= w.h.clock as real
  }

  ghost predicate Rollups(w: World) {
    && w.s.usageDaily.Keys == Cells(w.h.accepted)
    && (forall c :: c in w.s.usageDaily ==> TallyOf(w.s.usageDaily, c) == Scan(w.h.accepted, c))
    && (forall c :: c in w.s.usageDaily ==> c.key in w.s.keys && w.s.usageDaily[c].user == w.s.keys[c.key].userId)
    && (forall i :: 0 <= i < |w.h.accepted| ==> GoodRecord(w, w.h.accepted[i]))
  }

  lemma {:induction false} AcceptedAreGood(keys: map<KeyId, ApiKey>, entries: seq<Entry>, now: nat, i: nat)
    requires i < |Accepted(keys, entries, now)|
    ensures var r := Accepted(keys, entries, now)[i];
            r.key in keys && keys[r.key].userId == r.user && r.timestamp <= now as real
  {
    var n := |entries| - 1;
    if i < |Accepted(keys, entries[..n], now)| {
      AcceptedAreGood(keys, entries[..n], now, i);
    }
  }

  lemma TouchKeepsIds(keys: map<KeyId, ApiKey>, accepted: seq<Request>)
    ensures TouchKeys(keys, accepted).Keys == keys.Keys
    ensures forall k :: k in keys ==> TouchKeys(keys, accepted)[k].userId == keys[k].userId
  {
  }

  lemma AddKeepsFold(usage: map<Cell, Rollup>, keys: map<KeyId, ApiKey>, before: seq<Request>, more: seq<Request>)
    requires usage.Keys == Cells(before)
    requires forall c :: c in usage ==> TallyOf(usage, c) == Scan(before, c)
    requires forall i :: 0 <= i < |more| ==> more[i].key in keys
    ensures var u := AddToRollups(usage, keys, more);
            u.Keys == Cells(before + more) && forall c :: c in u ==> TallyOf(u, c) == Scan(before + more, c)
  {
    hide Scan, Plus;
    var u := AddToRollups(usage, keys, more);
    assert Cells(before + more) == Cells(before) + Cells(more);
    assert u.Keys == usage.Keys + Cells(more);
    forall c | c in u ensures TallyOf(u, c) == Scan(before + more, c) {
      ScanAppend(before, more, c);
      ScanBalanced(before, c);
    }
  }

  lemma RecordsStayGood(w: World, v: World, more: seq<Request>)
    requires Rollups(w) && v.h.accepted == w.h.accepted + more && w.h.clock <= v.h.clock
    requires forall k :: k in w.s.keys ==> k in v.s.keys && v.s.keys[k].userId == w.s.keys[k].userId
    requires forall i :: 0 <= i < |more| ==> GoodRecord(v, more[i])
    ensures forall i :: 0 <= i < |v.h.accepted| ==> GoodRecord(v, v.h.accepted[i])
  {
    forall i | 0 <= i < |v.h.accepted| ensures GoodRecord(v, v.h.accepted[i]) {
      if i < |w.h.accepted| {
        assert GoodRecord(w, w.h.accepted[i]);
      } else {
        assert v.h.accepted[i] == more[i - |w.h.accepted|];
      }
    }
  }

  lemma Recorded(w: World, env: Env, entries: seq<Entry>, now: nat)
    ensures var v := Advance(w, env, RecordUsage(entries), now);
            var more := Accepted(w.s.keys, entries[..Min(MAX_USAGE_ENTRIES, |entries|)], now);
            v.h.accepted == w.h.accepted + more && v.h.clock == now && v.s.keys == TouchKeys(w.s.keys, more)
            && v.s.usageDaily == AddToRollups(w.s.usageDaily, w.s.keys, more)
  {
    hide NextKeys, NextBilling, Gateway.Authorize, Gateway.AuthorizeDemo, Accepted, TouchKeys, AddToRollups,
      Usage.AddRows, Grants;
  }

  lemma RollupsRecorded(w: World, env: Env, step: Step, now: nat)
    requires Rollups(w) && Enabled(w, env, step, now) && step.RecordUsage?
    ensures Rollups(Advance(w, env, step, now))
  {
    hide Advance, Accepted, Scan, Cells, TallyOf, TouchKeys, AddToRollups;
    var v := Advance(w, env, step, now);
    var entries := step.entries[..Min(MAX_USAGE_ENTRIES, |step.entries|)];
    var more := Accepted(w.s.keys, entries, now);
    assert w.h.clock <= now;
    hide Enabled;
    Recorded(w, env, step.entries, now);
    TouchKeepsIds(w.s.keys, more);
    forall i | 0 <= i < |more| ensures GoodRecord(v, more[i]) && more[i].key in w.s.keys {
      AcceptedAreGood(w.s.keys, entries, now, i);
    }
    AddKeepsFold(w.s.usageDaily, w.s.keys, w.h.accepted, more);
    AddKeepsUsers(w.s.usageDaily, w.s.keys, more);
    RecordsStayGood(w, v, more);
  }

  lemma AddKeepsUsers(usage: map<Cell, Rollup>, keys: map<KeyId, ApiKey>, more: seq<Request>)
    requires forall c :: c in usage ==> c.key in keys && usage[c].user == keys[c.key].userId
    ensures var u := AddToRollups(usage, keys, more);
            forall c :: c in u ==> c.key in keys && u[c].user == keys[c.key].userId
  {
  }

  lemma NothingRecorded(w: World, env: Env, step: Step, now: nat)
    requires Enabled(w, env, step, now) && !step.RecordUsage?
    ensures var v := Advance(w, env, step, now);
            v.h.accepted == w.h.accepted + [] == w.h.accepted && w.h.clock <= now == v.h.clock
            && v.s.usageDaily == w.s.usageDaily
            && forall k :: k in w.s.keys ==> k in v.s.keys && v.s.keys[k].userId == w.s.keys[k].userId
  {
    hide Next, PruneVictims;
    Frame(w, env, step, now);
    KeysEvolve(w, env, step, now);
  }

  /** Every step keeps the rollups. */
  lemma RollupsAreKept(w: World, env: Env, step: Step, now: nat)
    requires Rollups(w) && Enabled(w, env, step, now)
    ensures Rollups(Advance(w, env, step, now))
  {
    if step.RecordUsage? {
      RollupsRecorded(w, env, step, now);
    } else {
      hide Advance, Scan, Cells, TallyOf;
      NothingRecorded(w, env, step, now);
      RecordsStayGood(w, Advance(w, env, step, now), []);
    }
  }

  lemma {:induction false} RollupsRun(w: World, env: Env, run: seq<Event>)
    requires Rollups(w) && Possible(w, env, run)
    ensures Rollups(Run(w, env, run))
    decreases run
  {
    if run != [] {
      RollupsAreKept(w, env, run[0].step, run[0].now);
      RollupsRun(Advance(w, env, run[0].step, run[0].now), env, run[1..]);
    }
  }

  lemma EmptyRollups()
    ensures Rollups(EMPTY)
  {
  }

  lemma CellIsHistory(w: World, c: Cell)
    requires Rollups(w)
    ensures TallyOf(w.s.usageDaily, c) == Scan(w.h.accepted, c)
            && (c in w.s.usageDaily <==> exists i :: 0 <= i < |w.h.accepted| && CellOf(w.h.accepted[i]) == c)
            && (c in w.s.usageDaily ==>
               w.s.usageDaily[c].total == w.s.usageDaily[c].successful + w.s.usageDaily[c].failed)
  {
    ScanBalanced(w.h.accepted, c);
    hide Scan;
    if c in w.s.usageDaily {
      var r :| r in w.h.accepted && CellOf(r) == c;
      var i :| 0 <= i < |w.h.accepted| && w.h.accepted[i] == r;
    }
  }

  /** In every reachable state a rollup row holds what scanning all records ever accepted for its
      key, endpoint and day counts, its total is successes plus failures, and there is a row
      exactly where there are records. */
  lemma RollupsAreTheHistory(env: Env, run: seq<Event>, c: Cell)
    requires Possible(EMPTY, env, run)
    ensures var w := Run(EMPTY, env, run);
            TallyOf(w.s.usageDaily, c) == Scan(w.h.accepted, c)
            && (c in w.s.usageDaily <==> exists i :: 0 <= i < |w.h.accepted| && CellOf(w.h.accepted[i]) == c)
            && (c in w.s.usageDaily ==>
               w.s.usageDaily[c].total == w.s.usageDaily[c].successful + w.s.usageDaily[c].failed)
  {
    RollupsRun(EMPTY, env, run);
    CellIsHistory(Run(EMPTY, env, run), c);
  }

  // ---- Raw rows ---------------------------------------------------------------------------------

  /** Raw rows are the accepted records under their row numbers; only rows past the retention
      period may be missing. */
  ghost predicate RawRows(s: State, accepted: seq<Request>, clock: nat, env: Env) {
    && s.nextRow == |accepted|
    && (forall i :: i in s.requests ==> i < |accepted| && s.requests[i] == accepted[i])
    && (forall i: nat :: i < |accepted| && accepted[i].timestamp >= (clock - env.retentionMs) as real ==>
       i in s.requests)
  }

  lemma RawRowsPruned(s: State, accepted: seq<Request>, clock: nat, env: Env, v: Victims, now: nat)
    requires RawRows(s, accepted, clock, env) && clock <= now && PruneVictims(s, env, v, now)
    ensures RawRows(PruneState(s, v), accepted, now, env)
  {
    assert forall i :: i in v.requests ==> i in ExpiredRequests(s.requests, env, now);
  }

  lemma RawRowsRecorded(s: State, accepted: seq<Request>, clock: nat, env: Env, es: seq<Entry>, now: nat)
    requires RawRows(s, accepted, clock, env) && clock <= now
    ensures RawRows(Usage.RecordUsage(s, es, now).0,
                    accepted + Accepted(s.keys, es[..Min(MAX_USAGE_ENTRIES, |es|)], now), now, env)
  {
    hide Accepted, AddToRollups, TouchKeys, Usage.AddRows;
    var added := Accepted(s.keys, es[..Min(MAX_USAGE_ENTRIES, |es|)], now);
    var all, rows := accepted + added, Usage.AddRows(s.requests, s.nextRow, added);
    forall i: nat
      ensures (i in rows ==> i < |all| && rows[i] == all[i])
              && (i < |all| && all[i].timestamp >= (now - env.retentionMs) as real ==> i in rows)
    {
      Usage.AddedRow(s.requests, s.nextRow, added, i);
    }
  }

  /** Every step keeps the raw rows complete for the retention period. */
  lemma RawRowsAreKept(w: World, env: Env, step: Step, now: nat)
    requires RawRows(w.s, w.h.accepted, w.h.clock, env) && Enabled(w, env, step, now)
    ensures RawRows(Advance(w, env, step, now).s, Advance(w, env, step, now).h.accepted, now, env)
  {
    var v := Advance(w, env, step, now);
    if step.RecordUsage? {
      hide Usage.RecordUsage, Accepted, RawRows;
      RawRowsRecorded(w.s, w.h.accepted, w.h.clock, env, step.entries, now);
    } else if step.Prune? {
      hide RawRows, PruneVictims;
      RawRowsPruned(w.s, w.h.accepted, w.h.clock, env, step.victims, now);
      assert v.h.accepted == w.h.accepted;
    } else {
      hide Advance;
      NothingRecorded(w, env, step, now);
      RowsUntouched(w, env, step, now);
    }
  }

  lemma RowsUntouched(w: World, env: Env, step: Step, now: nat)
    requires !step.RecordUsage? && !step.Prune?
    ensures var v := Advance(w, env, step, now); v.s.requests == w.s.requests && v.s.nextRow == w.s.nextRow
  {
    hide Next, Observe;
    Frame(w, env, step, now);
  }

  lemma {:induction false} RawRowsRun(w: World, env: Env, run: seq<Event>)
    requires RawRows(w.s, w.h.accepted, w.h.clock, env) && Possible(w, env, run)
    ensures var v := Run(w, env, run); RawRows(v.s, v.h.accepted, v.h.clock, env)
    decreases run
  {
    if run != [] {
      hide RawRows, Enabled, Next;
      RawRowsAreKept(w, env, run[0].step, run[0].now);
      RawRowsRun(Advance(w, env, run[0].step, run[0].now), env, run[1..]);
    }
  }

  /** In every reachable state the raw rows are accepted records, and every record ever accepted whose time is
      within the retention period has its row. */
  lemma RawRowsAreTheRecentHistory(env: Env, run: seq<Event>)
    requires Possible(EMPTY, env, run)
    ensures var w := Run(EMPTY, env, run);
            w.s.nextRow == |w.h.accepted|
            && (forall i :: i in w.s.requests ==> i < |w.h.accepted| && w.s.requests[i] == w.h.accepted[i])
            && (forall i: nat ::
                  i < |w.h.accepted| && w.h.accepted[i].timestamp >= (w.h.clock - env.retentionMs) as real ==>
                  i in w.s.requests)
  {
    hide Possible, Run;
    RawRowsRun(EMPTY, env, run);
  }

  // ---- Sums over rollup rows -----------------------------------------------------------------------

  /** What scanning the records that satisfy p counts. */
  ghost function ScanWhere(rs: seq<Request>, p: Request -> bool): Tally {
    if rs == [] then Zero() else
    var before := ScanWhere(rs[..|rs| - 1], p);
    if p(rs[|rs| - 1]) then Plus(before, One(rs[|rs| - 1])) else before
  }

  /** Column sums over a set of cells. */
  ghost function Totals(t: Cell -> Tally, cells: set<Cell>): (int, int, int, int) {
    (Sum(cells, c => t(c).total), Sum(cells, c => t(c).successful), Sum(cells, c => t(c).failed),
     Sum(cells, c => t(c).totalResponseTimeMs))
  }

  lemma TotalsAgree(s: Cell -> Tally, t: Cell -> Tally, cells: set<Cell>)
    requires forall c :: c in cells ==> s(c) == t(c)
    ensures Totals(s, cells) == Totals(t, cells)
  {
    SumAgree(cells, c => s(c).total, c => t(c).total);
    SumAgree(cells, c => s(c).successful, c => t(c).successful);
    SumAgree(cells, c => s(c).failed, c => t(c).failed);
    SumAgree(cells, c => s(c).totalResponseTimeMs, c => t(c).totalResponseTimeMs);
  }

  lemma TotalsBump(s: Cell -> Tally, t: Cell -> Tally, cells: set<Cell>, x: Cell, d: Tally)
    requires x in cells && t(x) == Plus(s(x), d) && forall c :: c in cells && c != x ==> s(c) == t(c)
    ensures var (a, b, c, e) := Totals(s, cells);
            Totals(t, cells) == (a + d.total, b + d.successful, c + d.failed, e + d.totalResponseTimeMs)
  {
    SumBump(cells, c => s(c).total, c => t(c).total, x, d.total);
    SumBump(cells, c => s(c).successful, c => t(c).successful, x, d.successful);
    SumBump(cells, c => s(c).failed, c => t(c).failed, x, d.failed);
    SumBump(cells, c => s(c).totalResponseTimeMs, c => t(c).totalResponseTimeMs, x, d.totalResponseTimeMs);
  }

  function AsTuple(t: Tally): (int, int, int, int) {
    (t.total, t.successful, t.failed, t.totalResponseTimeMs)
  }

  ghost function CellScan(rs: seq<Request>): Cell -> Tally {
    c => Scan(rs, c)
  }

  lemma TotalsOfNone(cells: set<Cell>)
    ensures Totals(CellScan([]), cells) == (0, 0, 0, 0)
  {
    var t := CellScan([]);
    SumZero(cells, c => t(c).total);
    SumZero(cells, c => t(c).successful);
    SumZero(cells, c => t(c).failed);
    SumZero(cells, c => t(c).totalResponseTimeMs);
  }

  lemma TotalsPush(rs: seq<Request>, r: Request, cells: set<Cell>)
    ensures var (a, b, c, e) := Totals(CellScan(rs), cells);
            var d := if CellOf(r) in cells then One(r) else Zero();
            Totals(CellScan(rs + [r]), cells)
              == (a + d.total, b + d.successful, c + d.failed, e + d.totalResponseTimeMs)
  {
    var s, t := CellScan(rs), CellScan(rs + [r]);
    forall c ensures t(c) == Plus(s(c), Share(r, c)) {
      ScanPush(rs, r, c);
    }
    if CellOf(r) in cells {
      TotalsBump(s, t, cells, CellOf(r), One(r));
    } else {
      TotalsAgree(s, t, cells);
    }
  }

  /** If p picks out the records of some cells, the rows of those cells add up to a scan for p. */
  lemma {:induction false} CellsAddUp(rs: seq<Request>, cells: set<Cell>, p: Request -> bool)
    requires forall i :: 0 <= i < |rs| ==> (p(rs[i]) <==> CellOf(rs[i]) in cells)
    ensures Totals(CellScan(rs), cells) == AsTuple(ScanWhere(rs, p))
  {
    hide Totals, One, CellOf, CellScan;
    if rs == [] {
      TotalsOfNone(cells);
    } else {
      var init, r := rs[..|rs| - 1], rs[|rs| - 1];
      CellsAddUp(init, cells, p);
      TotalsPush(init, r, cells);
      assert rs == init + [r];
    }
  }

  /** The rows a usage query reads: those of one account, from a first day on, optionally one key. */
  function RowsFrom(usage: map<Cell, Rollup>, u: UserId, key: Option<KeyId>, first: int): set<Cell> {
    set c | c in usage && usage[c].user == u && c.day >= first && (key.None? || key.value == c.key)
  }

  function RowsOn(usage: map<Cell, Rollup>, u: UserId, key: Option<KeyId>, day: int): set<Cell> {
    set c | c in usage && usage[c].user == u && c.day == day && (key.None? || key.value == c.key)
  }

  /** Column sums of stored rows. */
  ghost function RowTotals(usage: map<Cell, Rollup>, cells: set<Cell>): (int, int, int, int) {
    Totals(c => TallyOf(usage, c), cells)
  }

  /** The records of one account on one day, optionally of one key. */
  ghost function OnDay(u: UserId, key: Option<KeyId>, day: int): Request -> bool {
    (r: Request) => r.user == u && DayOf(r.timestamp) == day && (key.None? || key.value == r.key)
  }

  ghost function FromDay(u: UserId, key: Option<KeyId>, first: int): Request -> bool {
    (r: Request) => r.user == u && DayOf(r.timestamp) >= first && (key.None? || key.value == r.key)
  }

  lemma RowsAddUp(w: World, cells: set<Cell>, p: Request -> bool)
    requires Rollups(w) && cells <= w.s.usageDaily.Keys
    requires forall i :: 0 <= i < |w.h.accepted| ==> (p(w.h.accepted[i]) <==> CellOf(w.h.accepted[i]) in cells)
    ensures RowTotals(w.s.usageDaily, cells) == AsTuple(ScanWhere(w.h.accepted, p))
  {
    CellsAddUp(w.h.accepted, cells, p);
    TotalsAgree(c => TallyOf(w.s.usageDaily, c), CellScan(w.h.accepted), cells);
  }

  /** Adding up the rows of one account for one day gives a direct scan of its records that day. */
  lemma DayTotals(w: World, u: UserId, key: Option<KeyId>, day: int)
    requires Rollups(w)
    ensures RowTotals(w.s.usageDaily, RowsOn(w.s.usageDaily, u, key, day))
            == AsTuple(ScanWhere(w.h.accepted, OnDay(u, key, day)))
  {
    forall i | 0 <= i < |w.h.accepted|
      ensures OnDay(u, key, day)(w.h.accepted[i]) <==> CellOf(w.h.accepted[i]) in RowsOn(w.s.usageDaily, u, key, day)
    {
      assert GoodRecord(w, w.h.accepted[i]);
      assert CellOf(w.h.accepted[i]) in Cells(w.h.accepted);
    }
    RowsAddUp(w, RowsOn(w.s.usageDaily, u, key, day), OnDay(u, key, day));
  }

  /** The same for all days from `first` on. */
  lemma TotalsFrom(w: World, u: UserId, key: Option<KeyId>, first: int)
    requires Rollups(w)
    ensures RowTotals(w.s.usageDaily, RowsFrom(w.s.usageDaily, u, key, first))
            == AsTuple(ScanWhere(w.h.accepted, FromDay(u, key, first)))
  {
    forall i | 0 <= i < |w.h.accepted|
      ensures FromDay(u, key, first)(w.h.accepted[i])
              <==> CellOf(w.h.accepted[i]) in RowsFrom(w.s.usageDaily, u, key, first)
    {
      assert GoodRecord(w, w.h.accepted[i]);
      assert CellOf(w.h.accepted[i]) in Cells(w.h.accepted);
    }
    RowsAddUp(w, RowsFrom(w.s.usageDaily, u, key, first), FromDay(u, key, first));
  }
}
