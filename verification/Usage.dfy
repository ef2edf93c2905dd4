/** Recording request batches into raw rows and daily rollups. */
module Usage {
  import opened Wrappers
  import opened Calendar
  import opened Tables

  const FAILED_STATUS_FROM: int := 400
  const MAX_USAGE_ENTRIES: nat := 200
  const MAX_RECORD_AGE_MS: nat := DAY_MS
  const MAX_CLOCK_SKEW_MS: nat := 5 * MINUTE_MS
  const MAX_RESPONSE_TIME_MS: int := 10 * MINUTE_MS

  /** A record as the gateway reports it; None stands for a number that is not finite. */
  datatype Entry = Entry(
    keyId: string,
    userId: string,
    endpoint: string,
    httpMethod: string,
    statusCode: Option<real>,
    responseTimeMs: Option<real>,
    timestamp: Option<real>)

  function DayOf(timestamp: real): int {
    (timestamp / 86_400_000.0).Floor
  }

  /** A day is the day's 24 hours. */
  lemma DayHolds(timestamp: real, day: int)
    ensures DayOf(timestamp) == day <==> (day * DAY_MS) as real <= timestamp < ((day + 1) * DAY_MS) as real
  {
    var q := timestamp / 86_400_000.0;
    assert timestamp == q * 86_400_000.0;
    assert q.Floor as real <= q < q.Floor as real + 1.0;
    assert (day * DAY_MS) as real == day as real * 86_400_000.0;
    assert ((day + 1) * DAY_MS) as real == (day + 1) as real * 86_400_000.0;
  }

  /** Records and queries count days alike. */
  lemma SameDay(t: nat)
    ensures DayOf(t as real) == UtcDay(t)
  {
    DayHolds(t as real, UtcDay(t));
  }

  function RoundedResponseTime(r: Option<real>): int {
    if r.Some? then Min(MAX_RESPONSE_TIME_MS, Max(0, (r.value + 0.5).Floor)) else 0
  }

  /** The time is rounded to the nearest millisecond, halves up, within nothing and ten minutes. */
  lemma ResponseTimeIsNearest(r: Option<real>)
    ensures var n := RoundedResponseTime(r);
            0 <= n <= 600_000
            && (r.None? || r.value < 0.0 ==> n == 0)
            && (r.Some? && r.value > 600_000.0 ==> n == 600_000)
            && (r.Some? && 0.0 <= r.value <= 600_000.0 ==> n as real - 0.5 <= r.value < n as real + 0.5)
  {
  }

  predicate Plausible(keys: map<KeyId, ApiKey>, e: Entry, now: nat) {
    && e.keyId in keys && keys[e.keyId].userId == e.userId
    && e.endpoint in ["/v1/geocode", "/v1/route"]
    && e.httpMethod in ["GET", "HEAD"]
    && e.statusCode.Some? && e.statusCode.value == e.statusCode.value.Floor as real
    && 100 <= e.statusCode.value.Floor <= 599
    && e.timestamp.Some?
    && (now - MAX_RECORD_AGE_MS) as real <= e.timestamp.value <= (now + MAX_CLOCK_SKEW_MS) as real
  }

  function ToRequest(e: Entry, now: nat): Request
    requires e.statusCode.Some? && e.timestamp.Some?
  {
    Request(e.keyId, e.userId, e.endpoint, e.httpMethod, e.statusCode.value.Floor,
      RoundedResponseTime(e.responseTimeMs),
            if e.timestamp.value <= now as real then e.timestamp.value else now as real)
  }

  /** The records of a batch that are stored, in order. */
  function Accepted(keys: map<KeyId, ApiKey>, entries: seq<Entry>, now: nat): (r: seq<Request>)
    ensures |r| <= |entries|
  {
    if entries == [] then [] else
    var e := entries[|entries| - 1];
    Accepted(keys, entries[..|entries| - 1], now) + if Plausible(keys, e, now) then [ToRequest(e, now)] else []
  }

  // ---- Rollup arithmetic ----------------------------------------------------------------

  datatype Tally = Tally(total: nat, successful: nat, failed: nat, totalResponseTimeMs: int)

  function Zero(): Tally {
    Tally(0, 0, 0, 0)
  }

  function Plus(a: Tally, b: Tally): Tally {
    Tally(a.total + b.total, a.successful + b.successful, a.failed + b.failed,
          a.totalResponseTimeMs + b.totalResponseTimeMs)
  }

  function One(r: Request): Tally {
    if r.statusCode >= FAILED_STATUS_FROM then Tally(1, 0, 1, r.responseTimeMs) else Tally(1, 1, 0, r.responseTimeMs)
  }

  function CellOf(r: Request): Cell {
    Cell(r.key, r.endpoint, DayOf(r.timestamp))
  }

  /** What one record adds to a cell. */
  function Share(r: Request, c: Cell): Tally {
    if CellOf(r) == c then One(r) else Zero()
  }

  /** What a direct scan of the records counts for one cell. */
  function Scan(requests: seq<Request>, c: Cell): Tally {
    if requests == [] then Zero() else
    Plus(Scan(requests[..|requests| - 1], c), Share(requests[|requests| - 1], c))
  }

  function Cells(requests: seq<Request>): set<Cell> {
    set r | r in requests :: CellOf(r)
  }

  function TallyOf(usage: map<Cell, Rollup>, c: Cell): Tally {
    if c in usage then Tally(usage[c].total, usage[c].successful, usage[c].failed, usage[c].totalResponseTimeMs)
      else Zero()
  }

  function ToRollup(user: UserId, t: Tally): Rollup {
    Rollup(user, t.total, t.successful, t.failed, t.totalResponseTimeMs)
  }

  function AddToRollups(usage: map<Cell, Rollup>, keys: map<KeyId, ApiKey>, accepted: seq<Request>): map<Cell, Rollup> {
    map c | c in usage.Keys + (set x | x in Cells(accepted) && x.key in keys) ::
      ToRollup(if c in usage then usage[c].user else keys[c.key].userId, Plus(TallyOf(usage, c), Scan(accepted, c)))
  }

  /** Time of the latest record of a key in a batch, at least 0; None when it has none. */
  function LastUsed(requests: seq<Request>, k: KeyId): Option<real> {
    if requests == [] then None else
    var r := requests[|requests| - 1];
    var before := LastUsed(requests[..|requests| - 1], k);
    if r.key != k then before
    else Some(if before.GetOr(0.0) < r.timestamp then r.timestamp else before.GetOr(0.0))
  }

  function TouchKeys(keys: map<KeyId, ApiKey>, accepted: seq<Request>): map<KeyId, ApiKey> {
    map k | k in keys ::
      var t := LastUsed(accepted, k);
      if t.Some? && keys[k].lastUsedAt.GetOr(0.0) < t.value then keys[k].(lastUsedAt := t) else keys[k]
  }

  /** Raw rows take consecutive fresh row numbers. */
  function AddRows(rows: map<nat, Request>, next: nat, accepted: seq<Request>): (r: map<nat, Request>)
  {
    if accepted == [] then rows else
    var n := |accepted| - 1;
    AddRows(rows, next, accepted[..n])[next + n := accepted[n]]
  }

  /** Which rows there are then, and what they hold. */
  lemma {:induction false} AddedRow(rows: map<nat, Request>, next: nat, accepted: seq<Request>, i: nat)
    ensures var r := AddRows(rows, next, accepted);
            (i in r <==> i in rows || next <= i < next + |accepted|)
            && (i in r ==> r[i] == if next <= i < next + |accepted| then accepted[i - next] else rows[i])
  {
    if accepted != [] {
      AddedRow(rows, next, accepted[..|accepted| - 1], i);
    }
  }

  /** Stores the plausible records among the first 200 entries. */
  function RecordUsage(s: State, entries: seq<Entry>, now: nat): (State, nat) {
    var accepted := Accepted(s.keys, entries[..Min(MAX_USAGE_ENTRIES, |entries|)], now);
    (s.(requests := AddRows(s.requests, s.nextRow, accepted), nextRow := s.nextRow + |accepted|,
        usageDaily := AddToRollups(s.usageDaily, s.keys, accepted), keys := TouchKeys(s.keys, accepted)),
     |accepted|)
  }
}
