/** The database tables the platform keeps, with one datatype per document. Document ids and
    credential hashes are opaque; times are milliseconds since 1970. */
module Tables {
  import opened Wrappers
  import Calendar

  type UserId = string
  type KeyId = string
  type PaymentId = string
  type Hash = string

  datatype PaidPlan = Starter | Essentials | Pro

  datatype User = User(
    isSystem: bool,
    disabledAt: Option<nat>,
    plan: Option<PaidPlan>,
    planExpiresAt: Option<nat>,
    freeTierActivatedAt: Option<nat>,
    freeRequestsUsed: Option<nat>)

  datatype ApiKey = ApiKey(
    userId: UserId,
    keyHash: Hash,
    endpoints: Option<seq<string>>,
    rateLimitPerMinute: Option<real>,
    isSiteKey: bool,
    lastUsedAt: Option<real>,
    expiresAt: Option<nat>,
    revokedAt: Option<nat>)

  datatype PlaygroundToken = PlaygroundToken(apiKeyId: KeyId, userId: UserId, expiresAt: nat)

  datatype PaymentStatus = Pending | Succeeded | Failed

  datatype Payment = Payment(
    userId: UserId,
    plan: PaidPlan,
    intent: string,
    amountMinor: int,
    currency: string,
    status: PaymentStatus,
    createdAt: nat,
    paidAt: Option<nat>)

  /** Rate-limit buckets. The source writes them as strings; a visitor address stands for its keyed hash. */
  datatype RateBucket =
    | KeyRate(key: KeyId)
    | UserRate(user: UserId)
    | EndpointRate(key: KeyId, endpoint: string)
    | GlobalRate
    | IpRate(ip: string)
    | IpRouteRate(ip: string)
    | DemoIpMinute(ip: string)
    | DemoIpHour(ip: string)
    | DemoIpEndpoint(ip: string, endpoint: string)
    | DemoGlobal

  datatype RateKey = RateKey(bucket: RateBucket, windowStart: nat)

  /** Quota buckets; `free` is the prefix that keeps free traffic apart from paid traffic. */
  datatype QuotaBucket =
    | KeyQuota(free: bool, key: KeyId)
    | TenantQuota(free: bool, user: UserId)
    | EndpointQuota(free: bool, user: UserId, endpoint: string)

  datatype QuotaKey = QuotaKey(bucket: QuotaBucket, period: Calendar.Period, start: nat)

  /** One stored request record. */
  datatype Request = Request(
    key: KeyId,
    user: UserId,
    endpoint: string,
    httpMethod: string,
    statusCode: int,
    responseTimeMs: int,
    timestamp: real)

  /** A cell of the daily rollup. */
  datatype Cell = Cell(key: KeyId, endpoint: string, day: int)

  datatype Rollup = Rollup(user: UserId, total: nat, successful: nat, failed: nat, totalResponseTimeMs: int)

  datatype State = State(
    users: map<UserId, User>,
    keys: map<KeyId, ApiKey>,
    tokens: map<Hash, PlaygroundToken>,
    payments: map<PaymentId, Payment>,
    rate: map<RateKey, nat>,
    quota: map<QuotaKey, nat>,
    requests: map<nat, Request>,
    nextRow: nat,
    usageDaily: map<Cell, Rollup>)

  /** Limits configured through environment variables. */
  datatype Env = Env(
    globalRate: int,
    routeRate: int,
    keyDaily: int,
    keyMonthly: int,
    tenantDaily: int,
    tenantMonthly: int,
    endpointMonthly: int,
    retentionMs: nat)

  // ---- Bucket names -------------------------------------------------------------------

  predicate ColonFree(s: string) {
    ':' !in s
  }

  predicate PlainIds(b: QuotaBucket) {
    match b
    case KeyQuota(_, k) => ColonFree(k)
    case TenantQuota(_, u) => ColonFree(u)
    case EndpointQuota(_, u, e) => ColonFree(u) && ColonFree(e)
  }

  /** Position of the first colon, or the length when there is none. */
  function FirstColon(s: string): nat {
    if s == "" || s[0] == ':' then 0 else 1 + FirstColon(s[1..])
  }

  lemma {:induction false} FirstColonAt(a: string, x: string)
    requires ColonFree(a) && (x == "" || x[0] == ':')
    ensures FirstColon(a + x) == |a|
  {
    if a == "" {
      assert a + x == x;
    } else {
      assert (a + x)[1..] == a[1..] + x;
      FirstColonAt(a[1..], x);
    }
  }

  lemma ColonSplit(a: string, x: string, b: string, y: string)
    requires ColonFree(a) && ColonFree(b)
    requires x == "" || x[0] == ':'
    requires y == "" || y[0] == ':'
    requires a + x == b + y
    ensures a == b && x == y
  {
    FirstColonAt(a, x);
    FirstColonAt(b, y);
    assert a == (a + x)[..|a|] && b == (b + y)[..|b|];
    assert x == (a + x)[|a|..] && y == (b + y)[|b|..];
  }

  function Prefix(b: QuotaBucket): string {
    if b.free then (if b.KeyQuota? then "free:key:" else "free:tenant:")
    else if b.KeyQuota? then "key:" else "tenant:"
  }

  function Owner(b: QuotaBucket): string {
    if b.KeyQuota? then b.key else b.user
  }

  function Tail(b: QuotaBucket): (t: string)
    ensures t == "" || t[0] == ':'
  {
    if b.EndpointQuota? then ":endpoint:" + b.endpoint else ""
  }

  /** The name a bucket is stored under. */
  function Name(b: QuotaBucket): string {
    Prefix(b) + (Owner(b) + Tail(b))
  }

  lemma PrefixIsDetermined(p: QuotaBucket, x: string, q: QuotaBucket, y: string)
    requires Prefix(p) + x == Prefix(q) + y
    ensures Prefix(p) == Prefix(q) && x == y
  {
    var s := Prefix(p) + x;
    assert s[0] == Prefix(p)[0] == Prefix(q)[0];
    if p.free {
      assert s[5] == Prefix(p)[5] == Prefix(q)[5];
    }
    assert x == s[|Prefix(p)|..] && y == s[|Prefix(q)|..];
  }

  /** Two buckets never share a stored name, because document ids hold no colon. */
  lemma NamesAreInjective(b: QuotaBucket, c: QuotaBucket)
    requires PlainIds(b) && PlainIds(c)
    ensures Name(b) == Name(c) <==> b == c
  {
    if Name(b) == Name(c) {
      PrefixIsDetermined(b, Owner(b) + Tail(b), c, Owner(c) + Tail(c));
      ColonSplit(Owner(b), Tail(b), Owner(c), Tail(c));
      if b.EndpointQuota? {
        assert b.endpoint == Tail(b)[10..];
        assert c.endpoint == Tail(c)[10..];
      }
    }
  }
}
