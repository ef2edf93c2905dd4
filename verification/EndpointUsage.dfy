/** The dashboard's usage by endpoint, against a direct scan of the records ever accepted. */
module EndpointUsage {
  import opened Wrappers
  import opened Calendar
  import opened Tables
  import opened Sums
  import opened Usage
  import opened RollupLedger
  import opened UsageQueries
  import Machine

  /** The rows of one endpoint among some rows. */
  function RowsAt(rows: set<Cell>, endpoint: string): set<Cell> {
    set c | c in rows && c.endpoint == endpoint
  }

  /** The totals of some rows: all, successful and failed requests, and their response times. */
  ghost function TallyOver(usage: map<Cell, Rollup>, rows: set<Cell>): (int, int, int, int) {
    RowTotals(usage, rows)
  }

  function AddRow(t: (int, int, int, int), r: Rollup): (int, int, int, int) {
    (t.0 + r.total, t.1 + r.successful, t.2 + r.failed, t.3 + r.totalResponseTimeMs)
  }

  lemma OneMoreRow(usage: map<Cell, Rollup>, rows: set<Cell>, c: Cell)
    requires c in usage && c !in rows
    ensures TallyOver(usage, rows + {c}) == AddRow(TallyOver(usage, rows), usage[c])
  {
    var t := (x: Cell) => TallyOf(usage, x);
    var all := rows + {c};
    assert all - {c} == rows;
    SumPick(all, x => t(x).total, c);
    SumPick(all, x => t(x).successful, c);
    SumPick(all, x => t(x).failed, c);
    SumPick(all, x => t(x).totalResponseTimeMs, c);
    TotalsAgree(t, x => TallyOf(usage, x), all);
    TotalsAgree(t, x => TallyOf(usage, x), rows);
  }

  datatype EndpointRow = EndpointRow(endpoint: string, total: int, successful: int, failed: int, avgResponseTimeMs: int)

  /** Math.round */
  function Round(x: real): int {
    (x + 0.5).Floor
  }

  function ToRow(endpoint: string, t: (int, int, int, int)): EndpointRow {
    EndpointRow(endpoint, t.0, t.1, t.2, if t.0 != 0 then Round(t.3 as real / t.0 as real) else 0)
  }

  ghost predicate Descending(rows: seq<EndpointRow>) {
    forall i, j :: 0 <= i < j < |rows| ==> rows[i].total >= rows[j].total
  }

  /** Adds up the rows by endpoint. */
  method ByEndpoint(usage: map<Cell, Rollup>, user: UserId, first: int, key: Option<KeyId>)
    returns (counts: map<string, (int, int, int, int)>)
    ensures var wanted := RowsFrom(usage, user, key, first);
            forall e :: (e in counts <==> RowsAt(wanted, e) != {})
              && (e in counts ==> counts[e] == TallyOver(usage, RowsAt(wanted, e)))
  {
    hide TallyOver;
    ghost var wanted := RowsFrom(usage, user, key, first);
    var rows := set c | c in usage && usage[c].user == user && c.day >= first;
    ghost var done: set<Cell> := {};
    counts := map[];
    assert TallyOver(usage, {}) == (0, 0, 0, 0) by { NoRows(usage); }
    while rows != {}
      invariant rows <= usage.Keys && done <= wanted && done !! rows
      invariant forall c :: c in wanted ==> c in done || c in rows
      invariant forall c :: c in rows && (key.None? || key.value == c.key) ==> c in wanted
      invariant Grouped(usage, done, counts)
      decreases rows
    {
      var c :| c in rows;
      rows := rows - {c};
      if key.Some? && c.key != key.value {
        continue;
      }
      GroupOne(usage, done, counts, c);
      var current := if c.endpoint in counts then counts[c.endpoint] else (0, 0, 0, 0);
      counts := counts[c.endpoint := AddRow(current, usage[c])];
      done := done + {c};
    }
    assert done == wanted;
  }

  lemma NoRows(usage: map<Cell, Rollup>)
    ensures TallyOver(usage, {}) == (0, 0, 0, 0)
  {
  }

  ghost predicate Grouped(usage: map<Cell, Rollup>, done: set<Cell>, counts: map<string, (int, int, int, int)>) {
    forall e :: (e in counts <==> RowsAt(done, e) != {})
      && (e in counts ==> counts[e] == TallyOver(usage, RowsAt(done, e)))
  }

  lemma GroupOne(usage: map<Cell, Rollup>, done: set<Cell>, counts: map<string, (int, int, int, int)>, c: Cell)
    requires Grouped(usage, done, counts) && c in usage && c !in done
    ensures Grouped(usage, done + {c},
            counts[c.endpoint := AddRow(if c.endpoint in counts then counts[c.endpoint] else (0, 0, 0, 0), usage[c])])
  {
    var e := c.endpoint;
    OneMoreRow(usage, RowsAt(done, e), c);
    NoRows(usage);
    hide TallyOver, AddRow;
    assert RowsAt(done + {c}, e) == RowsAt(done, e) + {c};
    assert c in RowsAt(done + {c}, e);
    forall d | d != e ensures RowsAt(done + {c}, d) == RowsAt(done, d) {}
  }

  /** Keeps a list in descending order of totals. */
  method Insert(rows: seq<EndpointRow>, row: EndpointRow) returns (r: seq<EndpointRow>)
    requires Descending(rows)
    ensures Descending(r) && multiset(r) == multiset(rows) + multiset{row}
  {
    var i := 0;
    while i < |rows| && rows[i].total >= row.total
      invariant 0 <= i <= |rows|
      invariant forall j :: 0 <= j < i ==> rows[j].total >= row.total
    {
      i := i + 1;
    }
    assert rows == rows[..i] + rows[i..];
    r := rows[..i] + [row] + rows[i..];
  }

  /** Totals and average response time per endpoint for the last `days` days, busiest first. */
  method Endpoints(usage: map<Cell, Rollup>, user: UserId, days: real, key: Option<KeyId>, now: nat)
    returns (rows: seq<EndpointRow>)
    ensures Descending(rows)
    ensures var wanted := RowsFrom(usage, user, key, FirstDay(now, Span(days)));
            forall r :: multiset(rows)[r] ==
              if RowsAt(wanted, r.endpoint) != {}
                && r == ToRow(r.endpoint, TallyOver(usage, RowsAt(wanted, r.endpoint))) then 1 else 0
  {
    hide TallyOver, ToRow, Descending;
    var counts := ByEndpoint(usage, user, FirstDay(now, Span(days)), key);
    var left := counts.Keys;
    rows := [];
    assert Descending(rows) by { NothingDescends(); }
    while left != {}
      invariant left <= counts.Keys && Descending(rows)
      invariant forall r :: multiset(rows)[r] ==
                  if r.endpoint in counts && r.endpoint !in left
                    && r == ToRow(r.endpoint, counts[r.endpoint]) then 1 else 0
      decreases left
    {
      var e :| e in left;
      var row := ToRow(e, counts[e]);
      assert row.endpoint == e by { RowNamesItsEndpoint(e, counts[e]); }
      rows := Insert(rows, row);
      left := left - {e};
    }
  }

  lemma RowNamesItsEndpoint(e: string, t: (int, int, int, int))
    ensures ToRow(e, t).endpoint == e
  {
  }

  lemma NothingDescends()
    ensures Descending([])
  {
  }

  /** The records of one account from a day on, to one endpoint. */
  ghost function AtEndpoint(u: UserId, key: Option<KeyId>, first: int, endpoint: string): Request -> bool {
    (r: Request) => FromDay(u, key, first)(r) && r.endpoint == endpoint
  }

  /** In every reachable state the totals shown for an endpoint are a direct scan of the history. */
  lemma EndpointsShowTheHistory(env: Env, run: seq<Machine.Event>, u: UserId, key: Option<KeyId>, first: int,
                                endpoint: string)
    requires Machine.Possible(Machine.EMPTY, env, run)
    ensures var w := Machine.Run(Machine.EMPTY, env, run);
            TallyOver(w.s.usageDaily, RowsAt(RowsFrom(w.s.usageDaily, u, key, first), endpoint))
            == AsTuple(ScanWhere(w.h.accepted, AtEndpoint(u, key, first, endpoint)))
  {
    hide RowTotals, ScanWhere, Machine.Run, Machine.Possible;
    var w := Machine.Run(Machine.EMPTY, env, run);
    assert Rollups(w) by { Machine.EmptyIsSound(); EmptyRollups(); RollupsRun(Machine.EMPTY, env, run); }
    EndpointTotals(w, u, key, first, endpoint);
  }

  lemma EndpointTotals(w: Machine.World, u: UserId, key: Option<KeyId>, first: int, endpoint: string)
    requires Rollups(w)
    ensures RowTotals(w.s.usageDaily, RowsAt(RowsFrom(w.s.usageDaily, u, key, first), endpoint))
            == AsTuple(ScanWhere(w.h.accepted, AtEndpoint(u, key, first, endpoint)))
  {
    var cells := RowsAt(RowsFrom(w.s.usageDaily, u, key, first), endpoint);
    forall i | 0 <= i < |w.h.accepted|
      ensures AtEndpoint(u, key, first, endpoint)(w.h.accepted[i]) <==> CellOf(w.h.accepted[i]) in cells
    {
      var r := w.h.accepted[i];
      assert GoodRecord(w, r);
      assert CellOf(r) in Cells(w.h.accepted);
      assert FromDay(u, key, first)(r) <==> CellOf(r) in RowsFrom(w.s.usageDaily, u, key, first);
    }
    RowsAddUp(w, cells, AtEndpoint(u, key, first, endpoint));
  }
}
