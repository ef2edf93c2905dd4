/** The gateway's authorization decision as a function of the tables: credential checks, layered
    one-minute rate limits, and the five customer quotas charged all or nothing. */
module Gateway {
  import opened Wrappers
  import opened Calendar
  import opened Tables
  import opened Plans

  const MAX_LIMIT: int := 100_000
  const HOUR_MS: nat := 60 * MINUTE_MS

  datatype RateLimitState = RateLimitState(limit: int, remaining: int, reset: int, allowed: bool)

  datatype Status =
    | Ok | Invalid | Expired | Revoked | PaymentRequired | EndpointNotAllowed | RateLimited | QuotaExceeded | Thrown

  datatype Principal = Principal(key: KeyId, user: UserId, isSiteKey: bool, viaPlayground: bool)

  datatype Answer = Answer(status: Status, principal: Option<Principal>, rateLimit: Option<RateLimitState>,
    allowedEndpoints: seq<string>)

  function Refusal(status: Status): Answer {
    Answer(status, None, None, [])
  }

  datatype CredentialKind = KeyCredential | PlaygroundCredential

  datatype AuthArgs = AuthArgs(
    kind: CredentialKind,
    hash: Hash,
    endpoint: Option<string>,
    clientIp: Option<string>,
    perIpLimit: Option<real>)

  // ---- Fixed windows --------------------------------------------------------------------

  function WindowStart(now: nat, durationMs: nat): nat
    requires durationMs > 0
  {
    now / durationMs * durationMs
  }

  function Count(rate: map<RateKey, nat>, k: RateKey): nat {
    if k in rate then rate[k] else 0
  }

  /** The row counted up by one hit; a refused hit is counted too. */
  function HitRows(rate: map<RateKey, nat>, bucket: RateBucket, now: nat, durationMs: nat, cost: nat): map<RateKey, nat>
    requires durationMs > 0
  {
    var k := RateKey(bucket, WindowStart(now, durationMs));
    rate[k := Count(rate, k) + cost]
  }

  function HitState(rate: map<RateKey, nat>, bucket: RateBucket, limit: int, now: nat, durationMs: nat,
                    cost: nat): RateLimitState
    requires durationMs > 0
  {
    var start := WindowStart(now, durationMs);
    var count := Count(rate, RateKey(bucket, start)) + cost;
    RateLimitState(limit, Max(0, limit - count), (start + durationMs) / 1000, count <= limit)
  }

  // ---- Combining limits --------------------------------------------------------------------

  /** The comparison used to order limit states: refused before allowed, then fewest remaining. */
  predicate Before(a: RateLimitState, b: RateLimitState) {
    if a.allowed == b.allowed then a.remaining < b.remaining else b.allowed
  }

  predicate AllAllowed(states: seq<RateLimitState>) {
    forall i :: 0 <= i < |states| ==> states[i].allowed
  }

  /** The head of the stably sorted list: the first state that no other comes before. */
  function Binding(states: seq<RateLimitState>): RateLimitState
    requires states != []
  {
    if |states| == 1 then states[0] else
    var rest := Binding(states[1..]);
    if Before(rest, states[0]) then rest else states[0]
  }

  function Combine(states: seq<RateLimitState>): RateLimitState
    requires states != []
  {
    Binding(states).(allowed := AllAllowed(states))
  }

  function ClampLimit(value: Option<real>, fallback: int): int {
    if value.Some? && value.value >= 1.0 then Min(value.value.Floor, MAX_LIMIT) else fallback
  }

  // ---- Endpoints and addresses ------------------------------------------------------------

  const API_ENDPOINTS: seq<string> := ["geocode", "route"]

  function NormalizeEndpoint(e: string): Option<string> {
    if e == "reverse-geocode" then Some("geocode") else if e in API_ENDPOINTS then Some(e) else None
  }

  function NormalizeEndpoints(stored: seq<string>): seq<string> {
    (if exists e :: e in stored && NormalizeEndpoint(e) == Some("geocode") then ["geocode"] else []) +
    (if exists e :: e in stored && NormalizeEndpoint(e) == Some("route") then ["route"] else [])
  }

  /** The endpoint label used in quota buckets. */
  function EndpointName(e: Option<string>): string {
    if e.Some? && e.value in API_ENDPOINTS then e.value else "unknown"
  }

  predicate IpChar(c: char) {
    '0' <= c <= '9' || 'a' <= c <= 'f' || 'A' <= c <= 'F' || c == ':' || c == '.' || c == '/'
  }

  function VisitorIp(ip: Option<string>): string {
    if ip.Some? && 2 <= |ip.value| <= 48 && (forall i :: 0 <= i < |ip.value| ==> IpChar(ip.value[i])) then ip.value
    else "unknown"
  }

  // ---- Quotas ------------------------------------------------------------------------------

  datatype QuotaSpec = QuotaSpec(key: QuotaKey, limit: int, reset: nat)

  function Units(quota: map<QuotaKey, nat>, k: QuotaKey): nat {
    if k in quota then quota[k] else 0
  }

  /** The quota row of a bucket for the period holding `now`. */
  function Row(bucket: QuotaBucket, period: Period, now: nat): QuotaKey {
    QuotaKey(bucket, period, PeriodStart(now, period))
  }

  function Bounded(plan: Option<PaidPlan>, configured: int): int {
    if plan.Some? then MonthlyRequests(plan.value) else Min(FREE_TOTAL_REQUESTS, configured)
  }

  function Spec(bucket: QuotaBucket, period: Period, plan: Option<PaidPlan>, configured: int, now: nat): QuotaSpec {
    QuotaSpec(Row(bucket, period, now), Bounded(plan, configured), QuotaPeriod(now, period).1)
  }

  /** The five limits one customer request is checked against. */
  function QuotaSpecs(env: Env, key: KeyId, user: UserId, endpoint: string, now: nat,
                      plan: Option<PaidPlan>): (r: seq<QuotaSpec>)
    ensures |r| == 5
  {
    var free := plan.None?;
    [ Spec(KeyQuota(free, key), Day, plan, env.keyDaily, now),
      Spec(KeyQuota(free, key), Month, plan, env.keyMonthly, now),
      Spec(TenantQuota(free, user), Day, plan, env.tenantDaily, now),
      Spec(TenantQuota(free, user), Month, plan, env.tenantMonthly, now),
      Spec(EndpointQuota(free, user, endpoint), Month, plan, env.endpointMonthly, now) ]
  }

  function QuotaState(quota: map<QuotaKey, nat>, q: QuotaSpec): RateLimitState {
    var next := Units(quota, q.key) + 1;
    RateLimitState(q.limit, if next <= q.limit then Max(0, q.limit - next) else 0, q.reset / 1000, next <= q.limit)
  }

  function QuotaStates(quota: map<QuotaKey, nat>, specs: seq<QuotaSpec>): (r: seq<RateLimitState>)
    ensures |r| == |specs|
    ensures forall i :: 0 <= i < |r| ==> r[i] == QuotaState(quota, specs[i])
  {
    seq(|specs|, i requires 0 <= i < |specs| => QuotaState(quota, specs[i]))
  }

  /** The rows one accepted customer request is charged to. */
  function Touched(key: KeyId, user: UserId, endpoint: string, free: bool, now: nat): set<QuotaKey> {
    { Row(KeyQuota(free, key), Day, now), Row(KeyQuota(free, key), Month, now),
      Row(TenantQuota(free, user), Day, now), Row(TenantQuota(free, user), Month, now),
      Row(EndpointQuota(free, user, endpoint), Month, now) }
  }

  /** One more unit on every touched row, nothing else. */
  function Charged(quota: map<QuotaKey, nat>, touched: set<QuotaKey>): (r: map<QuotaKey, nat>)
    ensures forall k :: Units(r, k) == Units(quota, k) + if k in touched then 1 else 0
  {
    map k | k in quota.Keys + touched :: Units(quota, k) + if k in touched then 1 else 0
  }

  function ConsumeQuotas(quota: map<QuotaKey, nat>, env: Env, key: KeyId, user: UserId, endpoint: string, now: nat,
                         plan: Option<PaidPlan>): (map<QuotaKey, nat>, RateLimitState)
  {
    var states := QuotaStates(quota, QuotaSpecs(env, key, user, endpoint, now, plan));
    var after := if AllAllowed(states) then Charged(quota, Touched(key, user, endpoint, plan.None?, now)) else quota;
    (after, Combine(states))
  }

  // ---- Authorization -----------------------------------------------------------------------

  datatype Lookup = Absent | Found(key: KeyId) | Duplicate

  function KeysWithHash(keys: map<KeyId, ApiKey>, h: Hash): set<KeyId> {
    set k | k in keys && keys[k].keyHash == h
  }

  /** A unique-index read: it fails when two rows match. */
  ghost function FindKey(keys: map<KeyId, ApiKey>, h: Hash): (r: Lookup)
    ensures r.Found? ==> r.key in keys && keys[r.key].keyHash == h
  {
    var ks := KeysWithHash(keys, h);
    if ks == {} then Absent else
    var k :| k in ks;
    if ks == {k} then Found(k) else Duplicate
  }

  datatype Screening = Rejected(status: Status) | Passed(key: KeyId, viaPlayground: bool)

  /** Which key a credential presents, before the key itself is checked. */
  ghost function Identify(s: State, kind: CredentialKind, h: Hash, now: nat): Screening {
    match kind
    case PlaygroundCredential =>
      if h !in s.tokens then Rejected(Invalid)
      else if s.tokens[h].expiresAt <= now then Rejected(Expired)
      else
        var k := s.tokens[h].apiKeyId;
        if k !in s.keys || s.keys[k].userId != s.tokens[h].userId then Rejected(Invalid)
        else Passed(k, true)
    case KeyCredential =>
      match FindKey(s.keys, h)
      case Absent => Rejected(Invalid)
      case Duplicate => Rejected(Thrown)
      case Found(k) => Passed(k, false)
  }

  /** Checks of the key and its owner that do not depend on billing. */
  function Standing(s: State, k: KeyId, now: nat): Status
    requires k in s.keys
  {
    var key := s.keys[k];
    if key.revokedAt.Some? then Revoked
    else if key.expiresAt.Some? && key.expiresAt.value <= now then Expired
    else if key.userId !in s.users || s.users[key.userId].disabledAt.Some? then Revoked
    else Ok
  }

  ghost function Screen(s: State, kind: CredentialKind, h: Hash, now: nat): Screening {
    match Identify(s, kind, h, now)
    case Rejected(st) => Rejected(st)
    case Passed(k, via) =>
      if k in s.keys && Standing(s, k, now) != Ok then Rejected(Standing(s, k, now)) else Passed(k, via)
  }

  datatype BucketLimit = BucketLimit(bucket: RateBucket, limit: int)

  function SiteBuckets(env: Env, k: KeyId, key: ApiKey, a: AuthArgs): seq<BucketLimit> {
    var ip := VisitorIp(a.clientIp);
    var perIp := ClampLimit(a.perIpLimit, 60);
    [ BucketLimit(IpRate(ip), perIp), BucketLimit(KeyRate(k), ClampLimit(key.rateLimitPerMinute, 10_000)) ] +
    if a.endpoint == Some("route") then [ BucketLimit(IpRouteRate(ip), Min(perIp, env.routeRate)) ] else []
  }

  function CustomerBuckets(env: Env, k: KeyId, key: ApiKey, a: AuthArgs, plan: Option<PaidPlan>): seq<BucketLimit> {
    var perKey := if plan.Some? then RequestsPerMinute(plan.value) else FREE_RATE_LIMIT_PER_MINUTE;
    var endpointLimit := if a.endpoint == Some("route") then Min(perKey, env.routeRate) else perKey;
    [ BucketLimit(KeyRate(k), perKey),
      BucketLimit(UserRate(key.userId), perKey),
      BucketLimit(EndpointRate(k, a.endpoint.GetOr("unknown")), endpointLimit),
      BucketLimit(GlobalRate, env.globalRate) ]
  }

  function HitAllRows(rate: map<RateKey, nat>, buckets: seq<BucketLimit>, now: nat): map<RateKey, nat>
    decreases buckets
  {
    if buckets == [] then rate
    else HitAllRows(HitRows(rate, buckets[0].bucket, now, MINUTE_MS, 1), buckets[1..], now)
  }

  function HitAllStates(rate: map<RateKey, nat>, buckets: seq<BucketLimit>, now: nat): (r: seq<RateLimitState>)
    ensures |r| == |buckets|
    decreases buckets
  {
    if buckets == [] then []
    else [HitState(rate, buckets[0].bucket, buckets[0].limit, now, MINUTE_MS, 1)] +
         HitAllStates(HitRows(rate, buckets[0].bucket, now, MINUTE_MS, 1), buckets[1..], now)
  }

  /** What counting one screened request changes: window rows, quota rows, and whether the
      owner's free counter goes up by one. */
  datatype Decision = Decision(rate: map<RateKey, nat>, quota: map<QuotaKey, nat>, free: bool, answer: Answer)

  /** Quotas come after rate limits; free traffic also uses up the lifetime allowance. */
  function Spend(s: State, env: Env, k: KeyId, user: UserId, a: AuthArgs, now: nat, plan: Option<PaidPlan>,
                 rate: map<RateKey, nat>, state: RateLimitState, principal: Option<Principal>): Decision
  {
    var (quota, q) := ConsumeQuotas(s.quota, env, k, user, EndpointName(a.endpoint), now, plan);
    if !q.allowed then Decision(rate, s.quota, false, Answer(QuotaExceeded, principal, Some(q), []))
    else Decision(rate, quota, plan.None?, Answer(Ok, principal, Some(state), []))
  }

  function Buckets(env: Env, k: KeyId, key: ApiKey, a: AuthArgs, site: bool,
                   plan: Option<PaidPlan>): (r: seq<BucketLimit>)
    ensures r != []
  {
    if site then SiteBuckets(env, k, key, a) else CustomerBuckets(env, k, key, a, plan)
  }

  predicate EndpointDenied(key: ApiKey, endpoint: Option<string>) {
    key.endpoints.Some? && (endpoint.None? || endpoint.value !in NormalizeEndpoints(key.endpoints.value))
  }

  function Decide(s: State, env: Env, k: KeyId, viaPlayground: bool, a: AuthArgs, now: nat): Decision
    requires k in s.keys && s.keys[k].userId in s.users
  {
    var key := s.keys[k];
    var owner := s.users[key.userId];
    var site := key.isSiteKey && !viaPlayground;
    var plan := if site then None else ActivePlan(owner, now);
    var principal := Some(Principal(k, key.userId, site, viaPlayground));
    if !site && !HasKeyAccess(owner, now) then Decision(s.rate, s.quota, false, Refusal(PaymentRequired))
    else if EndpointDenied(key, a.endpoint) then
      Decision(s.rate, s.quota, false,
        Answer(EndpointNotAllowed, principal, None, NormalizeEndpoints(key.endpoints.value)))
    else
      var buckets := Buckets(env, k, key, a, site, plan);
      var state := Combine(HitAllStates(s.rate, buckets, now));
      var rate := HitAllRows(s.rate, buckets, now);
      if !state.allowed then Decision(rate, s.quota, false, Answer(RateLimited, principal, Some(state), []))
      else if site then Decision(rate, s.quota, false, Answer(Ok, principal, Some(state), []))
      else Spend(s, env, k, key.userId, a, now, plan, rate, state, principal)
  }

  function UseFree(u: User): User {
    u.(freeRequestsUsed := Some(u.freeRequestsUsed.GetOr(0) + 1))
  }

  function Apply(s: State, user: UserId, d: Decision): State
    requires user in s.users
  {
    s.(rate := d.rate, quota := d.quota, users := if d.free then s.users[user := UseFree(s.users[user])] else s.users)
  }

  ghost function Authorize(s: State, env: Env, a: AuthArgs, now: nat): (State, Answer) {
    match Screen(s, a.kind, a.hash, now)
    case Rejected(st) => (s, Refusal(st))
    case Passed(k, via) =>
      if k in s.keys && s.keys[k].userId in s.users then
        var d := Decide(s, env, k, via, a, now);
        (Apply(s, s.keys[k].userId, d), d.answer)
      else (s, Refusal(Thrown))
  }

  // ---- Anonymous demo ------------------------------------------------------------------------

  datatype DemoArgs = DemoArgs(clientIp: string, endpoint: string, cost: real, minuteLimit: Option<real>,
    hourLimit: Option<real>, globalMinuteLimit: Option<real>)

  datatype DemoHit = DemoHit(bucket: RateBucket, limit: int, durationMs: nat)

  function DemoEndpoint(e: string): string {
    if e in API_ENDPOINTS || e == "reverse" then e else "unknown"
  }

  function DemoCost(cost: real): nat {
    Min(100, Max(1, cost.Floor))
  }

  predicate Positive(hits: seq<DemoHit>) {
    forall i :: 0 <= i < |hits| ==> hits[i].durationMs > 0
  }

  function DemoHits(d: DemoArgs): (r: seq<DemoHit>)
    ensures r != [] && Positive(r)
  {
    var ip := VisitorIp(Some(d.clientIp));
    var minute := ClampLimit(d.minuteLimit, 20);
    [ DemoHit(DemoIpMinute(ip), minute, MINUTE_MS),
      DemoHit(DemoIpHour(ip), ClampLimit(d.hourLimit, 100), HOUR_MS),
      DemoHit(DemoIpEndpoint(ip, DemoEndpoint(d.endpoint)), minute, MINUTE_MS),
      DemoHit(DemoGlobal, ClampLimit(d.globalMinuteLimit, 5_000), MINUTE_MS) ]
  }

  function DemoRows(rate: map<RateKey, nat>, hits: seq<DemoHit>, now: nat, cost: nat): map<RateKey, nat>
    requires Positive(hits)
    decreases hits
  {
    if hits == [] then rate
    else DemoRows(HitRows(rate, hits[0].bucket, now, hits[0].durationMs, cost), hits[1..], now, cost)
  }

  function DemoStates(rate: map<RateKey, nat>, hits: seq<DemoHit>, now: nat, cost: nat): (r: seq<RateLimitState>)
    requires Positive(hits)
    ensures |r| == |hits|
    decreases hits
  {
    if hits == [] then []
    else [HitState(rate, hits[0].bucket, hits[0].limit, now, hits[0].durationMs, cost)] +
         DemoStates(HitRows(rate, hits[0].bucket, now, hits[0].durationMs, cost), hits[1..], now, cost)
  }

  function AuthorizeDemo(s: State, d: DemoArgs, now: nat): (State, Answer) {
    var state := Combine(DemoStates(s.rate, DemoHits(d), now, DemoCost(d.cost)));
    (s.(rate := DemoRows(s.rate, DemoHits(d), now, DemoCost(d.cost))),
     Answer(if state.allowed then Ok else RateLimited, None, Some(state), []))
  }
}
