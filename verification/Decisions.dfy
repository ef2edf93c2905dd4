/** The gateway's decision as a function of what has happened: which requests were counted this minute, which were
    charged this month, and what the tables say of the key and its owner. */
module Decisions {
  import opened Wrappers
  import opened Calendar
  import opened Tables
  import opened Plans
  import opened Machine
  import opened RateLedger
  import QuotaLedger
  import BucketLoop
  import PaymentLedger
  import Gateway

  // ---- Hits of this minute ---------------------------------------------------------------------------------

  /** Total cost of the hits of a bucket in the minute that begins at `start`. */
  function HitsIn(es: seq<RateEvent>, b: RateBucket, start: nat): nat {
    if es == [] then 0 else
    var e := es[0];
    (if e.Hit? && e.bucket == b && start <= e.now < start + MINUTE_MS then e.cost else 0) + HitsIn(es[1..], b, start)
  }

  /** Within its minute a row counts its hits, whatever is swept. */
  lemma {:induction false} RowCountsHits(rate: map<RateKey, nat>, es: seq<RateEvent>, b: RateBucket, start: nat)
    requires PerMinute(b) && start % MINUTE_MS == 0
    requires forall i :: 0 <= i < |es| ==> OfPlatform(es[i]) && es[i].now < start + MINUTE_MS
    ensures var k := RateKey(b, start);
            Gateway.Count(Rows(rate, es), k) == Gateway.Count(rate, k) + HitsIn(es, b, start)
    decreases es
  {
    if es != [] {
      var e := es[0];
      assert OfPlatform(e);
      if e.Hit? && e.bucket == b {
        if start <= e.now {
          InWindow(e.now, start);
        } else {
          assert Gateway.WindowStart(e.now, MINUTE_MS) <= e.now;
        }
      }
      RowCountsHits(After(rate, e), es[1..], b, start);
    }
  }

  lemma {:induction false} EventsArePast(w: World, env: Env, run: seq<Event>)
    requires Possible(w, env, run)
    ensures w.h.clock <= Run(w, env, run).h.clock
    ensures forall i :: 0 <= i < |RunEvents(w, env, run)| ==> RunEvents(w, env, run)[i].now <= Run(w, env, run).h.clock
    decreases run
  {
    if run != [] {
      hide StepEvents, Next, Enabled, Rows;
      var e := run[0];
      EnabledIsLater(w, env, e.step, e.now);
      StepRows(w, env, e.step, e.now);
      EventsArePast(Advance(w, env, e.step, e.now), env, run[1..]);
    }
  }

  /** The hits a run has made of a bucket in the minute of `now`. */
  ghost function Hits(env: Env, run: seq<Event>, b: RateBucket, now: nat): nat {
    HitsIn(RunEvents(EMPTY, env, run), b, now / 60_000 * 60_000)
  }

  lemma TableCountsHits(env: Env, run: seq<Event>, b: RateBucket, now: nat)
    requires Possible(EMPTY, env, run) && Run(EMPTY, env, run).h.clock <= now && PerMinute(b)
    ensures Gateway.Count(Run(EMPTY, env, run).s.rate, RateKey(b, Gateway.WindowStart(now, MINUTE_MS)))
            == Hits(env, run, b, now)
  {
    hide Run, RunEvents, Possible, OfPlatform, Timed, Rows, HitsIn, Gateway.WindowStart;
    RunRows(EMPTY, env, run);
    EventsArePast(EMPTY, env, run);
    StartOf(now);
    assert EMPTY.s.rate == map[];
    RowCountsHits(map[], RunEvents(EMPTY, env, run), b, Gateway.WindowStart(now, MINUTE_MS));
  }

  lemma StartOf(now: nat)
    ensures var start := Gateway.WindowStart(now, MINUTE_MS);
            start == now / 60_000 * 60_000 && start % MINUTE_MS == 0 && start <= now < start + MINUTE_MS
  {
  }

  // ---- Buckets ---------------------------------------------------------------------------------------------

  predicate Different(bs: seq<Gateway.BucketLimit>) {
    forall i, j :: 0 <= i < j < |bs| ==> bs[i].bucket != bs[j].bucket
  }

  /** A bucket's state after n hits and one more. */
  predicate StateAfter(st: Gateway.RateLimitState, limit: int, n: nat, now: nat) {
    st.limit == limit && st.remaining == Max(0, limit - (n + 1)) && (st.allowed <==> n < limit)
    && st.reset == now / 60_000 * 60 + 60
  }

  lemma ResetIs(now: nat)
    ensures (Gateway.WindowStart(now, MINUTE_MS) + MINUTE_MS) / 1000 == now / 60_000 * 60 + 60
  {
    assert Gateway.WindowStart(now, MINUTE_MS) == now / 60_000 * 60 * 1000;
  }

  /** Different buckets are counted apart. */
  lemma {:induction false} StatesAre(rate: map<RateKey, nat>, bs: seq<Gateway.BucketLimit>, now: nat, i: nat)
    requires Different(bs) && i < |bs|
    ensures StateAfter(Gateway.HitAllStates(rate, bs, now)[i], bs[i].limit,
                       Gateway.Count(rate, RateKey(bs[i].bucket, Gateway.WindowStart(now, MINUTE_MS))), now)
    decreases bs
  {
    ResetIs(now);
    if i > 0 {
      hide StateAfter;
      var next := Gateway.HitRows(rate, bs[0].bucket, now, MINUTE_MS, 1);
      StatesAre(next, bs[1..], now, i - 1);
      assert bs[1..][i - 1] == bs[i];
    }
  }

  /** Requests a minute of a key, an account and an endpoint on a plan, or on the free tier. */
  function MinuteLimit(plan: Option<PaidPlan>): nat {
    match plan
    case None => 30
    case Some(Starter) => 100
    case Some(Essentials) => 500
    case Some(Pro) => 2_000
  }

  function EndpointLimit(env: Env, plan: Option<PaidPlan>, endpoint: Option<string>): int {
    if endpoint == Some("route") && env.routeRate < MinuteLimit(plan) then env.routeRate else MinuteLimit(plan)
  }

  /** Some bucket of a customer's request has as many hits this minute as its limit. */
  ghost predicate CustomerFull(env: Env, run: seq<Event>, k: KeyId, u: UserId, a: Gateway.AuthArgs,
                               plan: Option<PaidPlan>, now: nat)
  {
    Hits(env, run, KeyRate(k), now) >= MinuteLimit(plan) || Hits(env, run, UserRate(u), now) >= MinuteLimit(plan)
    || Hits(env, run, EndpointRate(k, a.endpoint.GetOr("unknown")), now) >= EndpointLimit(env, plan, a.endpoint)
    || Hits(env, run, GlobalRate, now) >= env.globalRate
  }

  /** A limit given with the request, or with the key, if it is a positive number, at most a hundred thousand. */
  function LimitOf(given: Option<real>, default: int): int {
    if given.None? || given.value < 1.0 then default
    else if given.value >= 100_000.0 then 100_000 else given.value.Floor
  }

  /** A hexadecimal digit, or what stands between the groups of an address or its prefix length. */
  predicate AddressChar(c: char) {
    ('0' <= c <= '9') || ('A' <= c <= 'F') || ('a' <= c <= 'f') || c in {':', '.', '/'}
  }

  predicate PlainAddress(ip: string) {
    2 <= |ip| <= 48 && forall c :: c in ip ==> AddressChar(c)
  }

  function Visitor(ip: Option<string>): string {
    if ip.Some? && PlainAddress(ip.value) then ip.value else "unknown"
  }

  ghost predicate SiteFull(env: Env, run: seq<Event>, k: KeyId, key: ApiKey, a: Gateway.AuthArgs, now: nat) {
    var ip, perIp := Visitor(a.clientIp), LimitOf(a.perIpLimit, 60);
    Hits(env, run, IpRate(ip), now) >= perIp
    || Hits(env, run, KeyRate(k), now) >= LimitOf(key.rateLimitPerMinute, 10_000)
    || (a.endpoint == Some("route")
        && (Hits(env, run, IpRouteRate(ip), now) >= perIp || Hits(env, run, IpRouteRate(ip), now) >= env.routeRate))
  }

  lemma AllowedIff(rate: map<RateKey, nat>, bs: seq<Gateway.BucketLimit>, now: nat)
    requires Different(bs)
    ensures Gateway.AllAllowed(Gateway.HitAllStates(rate, bs, now)) <==>
            forall i :: 0 <= i < |bs| ==>
              Gateway.Count(rate, RateKey(bs[i].bucket, Gateway.WindowStart(now, MINUTE_MS))) < bs[i].limit
  {
    var states := Gateway.HitAllStates(rate, bs, now);
    forall i | 0 <= i < |bs|
      ensures states[i].allowed <==>
              Gateway.Count(rate, RateKey(bs[i].bucket, Gateway.WindowStart(now, MINUTE_MS))) < bs[i].limit
    {
      StatesAre(rate, bs, now, i);
    }
  }

  lemma CustomersAllowedIff(env: Env, run: seq<Event>, k: KeyId, key: ApiKey, a: Gateway.AuthArgs,
                            plan: Option<PaidPlan>, now: nat)
    requires Possible(EMPTY, env, run) && Run(EMPTY, env, run).h.clock <= now
    ensures Gateway.AllAllowed(
              Gateway.HitAllStates(Run(EMPTY, env, run).s.rate, Gateway.CustomerBuckets(env, k, key, a, plan), now))
            <==> !CustomerFull(env, run, k, key.userId, a, plan, now)
  {
    hide Possible, Run, Hits, Gateway.AllAllowed, Gateway.HitAllStates, Gateway.Count, Gateway.WindowStart;
    var bs := Gateway.CustomerBuckets(env, k, key, a, plan);
    var rate := Run(EMPTY, env, run).s.rate;
    AllowedIff(rate, bs, now);
    forall i | 0 <= i < |bs|
      ensures Gateway.Count(rate, RateKey(bs[i].bucket, Gateway.WindowStart(now, MINUTE_MS)))
              == Hits(env, run, bs[i].bucket, now)
    {
      TableCountsHits(env, run, bs[i].bucket, now);
    }
    var limit := MinuteLimit(plan);
    assert bs == [bs[0], bs[1], bs[2], bs[3]];
    assert bs[0] == Gateway.BucketLimit(KeyRate(k), limit) && bs[1] == Gateway.BucketLimit(UserRate(key.userId), limit);
    assert bs[2] == Gateway.BucketLimit(EndpointRate(k, a.endpoint.GetOr("unknown")),
                                        EndpointLimit(env, plan, a.endpoint));
    assert bs[3] == Gateway.BucketLimit(GlobalRate, env.globalRate);
  }

  lemma SameLimit(given: Option<real>, default: int)
    ensures Gateway.ClampLimit(given, default) == LimitOf(given, default)
  {
  }

  lemma SameVisitor(ip: Option<string>)
    ensures Gateway.VisitorIp(ip) == Visitor(ip)
  {
    if ip.Some? {
      assert forall i :: 0 <= i < |ip.value| ==> ip.value[i] in ip.value;
    }
  }

  lemma SiteAllowedIff(env: Env, run: seq<Event>, k: KeyId, key: ApiKey, a: Gateway.AuthArgs, now: nat)
    requires Possible(EMPTY, env, run) && Run(EMPTY, env, run).h.clock <= now
    ensures Gateway.AllAllowed(
              Gateway.HitAllStates(Run(EMPTY, env, run).s.rate, Gateway.SiteBuckets(env, k, key, a), now))
            <==> !SiteFull(env, run, k, key, a, now)
  {
    SameVisitor(a.clientIp);
    SameLimit(a.perIpLimit, 60);
    SameLimit(key.rateLimitPerMinute, 10_000);
    hide Possible, Run, Hits, Gateway.AllAllowed, Gateway.HitAllStates, Gateway.Count, Gateway.WindowStart, Visitor,
      Gateway.VisitorIp, LimitOf, Gateway.ClampLimit;
    var bs := Gateway.SiteBuckets(env, k, key, a);
    var rate := Run(EMPTY, env, run).s.rate;
    AllowedIff(rate, bs, now);
    forall i | 0 <= i < |bs|
      ensures Gateway.Count(rate, RateKey(bs[i].bucket, Gateway.WindowStart(now, MINUTE_MS)))
              == Hits(env, run, bs[i].bucket, now)
    {
      TableCountsHits(env, run, bs[i].bucket, now);
    }
    var perIp := LimitOf(a.perIpLimit, 60);
    assert bs[0] == Gateway.BucketLimit(IpRate(Visitor(a.clientIp)), perIp);
    assert bs[1] == Gateway.BucketLimit(KeyRate(k), LimitOf(key.rateLimitPerMinute, 10_000));
    if a.endpoint == Some("route") {
      assert |bs| == 3 && bs[2] == Gateway.BucketLimit(IpRouteRate(Visitor(a.clientIp)), Min(perIp, env.routeRate));
    } else {
      assert |bs| == 2;
    }
  }

  // ---- Endpoints -------------------------------------------------------------------------------------------

  /** A key without a list may call everything; otherwise the endpoint must be listed, by its old name or its own. */
  predicate MayCall(key: ApiKey, endpoint: Option<string>) {
    key.endpoints.None?
    || (endpoint.Some? && (endpoint.value == "geocode" || endpoint.value == "route")
        && (endpoint.value in key.endpoints.value
            || (endpoint.value == "geocode" && "reverse-geocode" in key.endpoints.value)))
  }

  lemma Normalized(e: string)
    ensures Gateway.NormalizeEndpoint(e)
            == if e == "geocode" || e == "reverse-geocode" then Some("geocode")
               else if e == "route" then Some("route") else None
  {
    var all := Gateway.API_ENDPOINTS;
    assert all[0] == "geocode" && all[1] == "route";
    assert "reverse-geocode"[1] == 'e' && "geocode"[1] == 'e' && "geocode"[0] == 'g' && "reverse-geocode"[0] == 'r';
    assert e in all ==> e == all[0] || e == all[1];
  }

  lemma DeniedIff(key: ApiKey, endpoint: Option<string>)
    ensures Gateway.EndpointDenied(key, endpoint) <==> !MayCall(key, endpoint)
  {
    if key.endpoints.Some? {
      var stored := key.endpoints.value;
      var allowed := Gateway.NormalizeEndpoints(stored);
      forall e: string ensures Gateway.NormalizeEndpoint(e)
              == if e == "geocode" || e == "reverse-geocode" then Some("geocode")
                 else if e == "route" then Some("route") else None
      {
        Normalized(e);
      }
      hide Gateway.NormalizeEndpoint;
      var g := "geocode" in stored || "reverse-geocode" in stored;
      var r := "route" in stored;
      assert allowed == (if g then ["geocode"] else []) + (if r then ["route"] else []);
      assert forall e :: e in allowed <==> (e == "geocode" && g) || (e == "route" && r);
    }
  }

  // ---- Quotas ----------------------------------------------------------------------------------------------

  /** Requests a month on a plan. */
  function MonthLimit(plan: PaidPlan): nat {
    match plan
    case Starter => 10_000
    case Essentials => 100_000
    case Pro => 500_000
  }

  function Capped(configured: int): int {
    if configured < 500 then configured else 500
  }

  /** The name an endpoint is charged under. */
  function Tag(endpoint: Option<string>): string {
    if endpoint == Some("geocode") || endpoint == Some("route") then endpoint.value else "unknown"
  }

  lemma TagIs(endpoint: Option<string>)
    ensures Gateway.EndpointName(endpoint) == Tag(endpoint)
  {
    var all := Gateway.API_ENDPOINTS;
    assert all[0] == "geocode" && all[1] == "route";
    assert endpoint.Some? && endpoint.value in all ==> endpoint.value == all[0] || endpoint.value == all[1];
  }

  /** One of the quotas is used up: on a plan, by the account's paid requests of the month; on the free tier, by the
      free requests of the key, the account or the endpoint, that day or that month. */
  ghost predicate QuotaGone(w: World, env: Env, k: KeyId, u: UserId, tag: string, plan: Option<PaidPlan>, now: nat) {
    var count := (b: QuotaBucket, p: Period, start: nat) => QuotaLedger.Charges(w.h.charges, QuotaKey(b, p, start));
    match plan
    case Some(p) => count(TenantQuota(false, u), Month, MonthStart(now)) >= MonthLimit(p)
    case None =>
      count(KeyQuota(true, k), Day, DayStart(now)) >= Capped(env.keyDaily)
      || count(KeyQuota(true, k), Month, MonthStart(now)) >= Capped(env.keyMonthly)
      || count(TenantQuota(true, u), Day, DayStart(now)) >= Capped(env.tenantDaily)
      || count(TenantQuota(true, u), Month, MonthStart(now)) >= Capped(env.tenantMonthly)
      || count(EndpointQuota(true, u, tag), Month, MonthStart(now)) >= Capped(env.endpointMonthly)
  }

  /** In reachable states a request passes the five-counter check exactly when no quota is used up. */
  lemma QuotaIff(w: World, env: Env, k: KeyId, tag: string, plan: Option<PaidPlan>, now: nat)
    requires Sound(w) && QuotaLedger.Ledger(w) && k in w.s.keys && w.h.clock <= now
    ensures Gateway.ConsumeQuotas(w.s.quota, env, k, w.s.keys[k].userId, tag, now, plan).1.allowed
            <==> !QuotaGone(w, env, k, w.s.keys[k].userId, tag, plan, now)
  {
    hide Sound, QuotaLedger.Ledger, QuotaLedger.Charges, Gateway.Charged, Gateway.Binding;
    var u := w.s.keys[k].userId;
    var specs := Gateway.QuotaSpecs(env, k, u, tag, now, plan);
    forall i | 0 <= i < 5
      ensures Gateway.QuotaState(w.s.quota, specs[i]).allowed
              <==> QuotaLedger.Charges(w.h.charges, specs[i].key) < specs[i].limit
    {
      QuotaLedger.FiveAreBounded(w, env, k, tag, now, plan, i);
    }
    if plan.Some? {
      QuotaLedger.PaidRefusal(w, env, k, tag, now, plan.value);
      QuotaLedger.FiveAreBounded(w, env, k, tag, now, plan, 3);
    } else {
      FreeLimits(env, k, u, tag, now);
    }
  }

  /** When a quota resets: the end of the day, or of the month. */
  function QuotaEnd(now: nat, i: nat): nat {
    if i == 0 || i == 2 then DayStart(now) + 86_400_000 else NextMonthStart(now)
  }

  /** A refusal for quota names the first quota that is used up, with nothing left and the end of its period. */
  lemma RefusedQuota(w: World, env: Env, k: KeyId, tag: string, plan: Option<PaidPlan>, now: nat) returns (i: nat)
    requires Sound(w) && QuotaLedger.Ledger(w) && k in w.s.keys && w.h.clock <= now
    requires !Gateway.ConsumeQuotas(w.s.quota, env, k, w.s.keys[k].userId, tag, now, plan).1.allowed
    ensures i < 5
    ensures var specs := Gateway.QuotaSpecs(env, k, w.s.keys[k].userId, tag, now, plan);
            QuotaLedger.Charges(w.h.charges, specs[i].key) >= specs[i].limit
            && (forall j :: 0 <= j < i ==> QuotaLedger.Charges(w.h.charges, specs[j].key) < specs[j].limit)
            && Gateway.ConsumeQuotas(w.s.quota, env, k, w.s.keys[k].userId, tag, now, plan).1
               == Gateway.RateLimitState(specs[i].limit, 0, QuotaEnd(now, i) / 1000, false)
  {
    hide Sound, QuotaLedger.Ledger, QuotaLedger.Charges, Gateway.Charged, Gateway.Binding, Gateway.Touched;
    var specs := Gateway.QuotaSpecs(env, k, w.s.keys[k].userId, tag, now, plan);
    var states := Gateway.QuotaStates(w.s.quota, specs);
    forall j | 0 <= j < 5
      ensures states[j].allowed <==> QuotaLedger.Charges(w.h.charges, specs[j].key) < specs[j].limit
    {
      QuotaLedger.FiveAreBounded(w, env, k, tag, now, plan, j);
    }
    BucketLoop.BindingIs(states);
    i := BucketLoop.FirstRefused(states);
    QuotaEnds(env, k, w.s.keys[k].userId, tag, now, plan, i);
  }

  lemma QuotaEnds(env: Env, k: KeyId, u: UserId, tag: string, now: nat, plan: Option<PaidPlan>, i: nat)
    requires i < 5
    ensures Gateway.QuotaSpecs(env, k, u, tag, now, plan)[i].reset == QuotaEnd(now, i)
  {
  }

  lemma FreeLimits(env: Env, k: KeyId, u: UserId, tag: string, now: nat)
    ensures var specs := Gateway.QuotaSpecs(env, k, u, tag, now, None);
            specs[0].key == QuotaKey(KeyQuota(true, k), Day, DayStart(now)) && specs[0].limit == Capped(env.keyDaily)
            && specs[1].key == QuotaKey(KeyQuota(true, k), Month, MonthStart(now))
            && specs[1].limit == Capped(env.keyMonthly)
            && specs[2].key == QuotaKey(TenantQuota(true, u), Day, DayStart(now))
            && specs[2].limit == Capped(env.tenantDaily)
            && specs[3].key == QuotaKey(TenantQuota(true, u), Month, MonthStart(now))
            && specs[3].limit == Capped(env.tenantMonthly)
            && specs[4].key == QuotaKey(EndpointQuota(true, u, tag), Month, MonthStart(now))
            && specs[4].limit == Capped(env.endpointMonthly)
  {
  }

  // ---- The whole decision ----------------------------------------------------------------------------------

  lemma DecidedStatus(s: State, env: Env, k: KeyId, via: bool, a: Gateway.AuthArgs, now: nat)
    requires k in s.keys && s.keys[k].userId in s.users
    ensures var key := s.keys[k];
            var site := key.isSiteKey && !via;
            var plan := if site then None else ActivePlan(s.users[key.userId], now);
            var full := !Gateway.AllAllowed(
              Gateway.HitAllStates(s.rate, Gateway.Buckets(env, k, key, a, site, plan), now));
            var tag := Gateway.EndpointName(a.endpoint);
            var r := Gateway.Decide(s, env, k, via, a, now).answer;
            r.status == (if !site && !HasKeyAccess(s.users[key.userId], now) then Gateway.PaymentRequired
                         else if Gateway.EndpointDenied(key, a.endpoint) then Gateway.EndpointNotAllowed
                         else if full then Gateway.RateLimited
                         else if site then Gateway.Ok
                         else if Gateway.ConsumeQuotas(s.quota, env, k, key.userId, tag, now, plan).1.allowed
                         then Gateway.Ok else Gateway.QuotaExceeded)
            && (r.status != Gateway.PaymentRequired ==>
                  r.principal == Some(Gateway.Principal(k, key.userId, site, via)))
            && (r.status == Gateway.EndpointNotAllowed ==>
                  r.allowedEndpoints == Gateway.NormalizeEndpoints(key.endpoints.value))
            && (r.status == Gateway.RateLimited || r.status == Gateway.Ok ==>
                  r.rateLimit == Some(Gateway.Combine(
                    Gateway.HitAllStates(s.rate, Gateway.Buckets(env, k, key, a, site, plan), now))))
            && (r.status == Gateway.QuotaExceeded ==>
                  r.rateLimit == Some(Gateway.ConsumeQuotas(s.quota, env, k, key.userId, tag, now, plan).1))
  {
    hide Gateway.HitAllStates, Gateway.HitAllRows, Gateway.Buckets, Gateway.EndpointDenied, Gateway.AllAllowed,
      Gateway.Binding, Gateway.ConsumeQuotas, HasKeyAccess, ActivePlan;
  }

  /** The credential presents key k: it is its secret, or a token for it that has not expired. */
  predicate Presents(s: State, a: Gateway.AuthArgs, k: KeyId, now: nat) {
    k in s.keys
    && match a.kind
       case KeyCredential => s.keys[k].keyHash == a.hash
       case PlaygroundCredential =>
         a.hash in s.tokens && s.tokens[a.hash].apiKeyId == k && s.tokens[a.hash].expiresAt > now
  }

  /** The plan an account has paid for at a time. */
  ghost function PaidPlanAt(w: World, u: UserId, now: nat): Option<PaidPlan> {
    if PaymentLedger.Covers(w.h.grants, u, now) then PaymentLedger.LatestPlan(w.h.grants, u) else None
  }

  /** A plan, or the free tier with fewer than 500 free requests ever answered. */
  ghost predicate Access(w: World, u: UserId, now: nat)
    requires u in w.s.users
  {
    PaidPlanAt(w, u, now).Some?
    || (w.s.users[u].freeTierActivatedAt.Some? && QuotaLedger.FreeRequests(w.h.charges, u) < 500)
  }

  ghost predicate Full(env: Env, run: seq<Event>, k: KeyId, key: ApiKey, a: Gateway.AuthArgs, site: bool,
                       plan: Option<PaidPlan>, now: nat)
  {
    if site then SiteFull(env, run, k, key, a, now) else CustomerFull(env, run, k, key.userId, a, plan, now)
  }

  /** The answer to a request that presents key k, from what the run has recorded and what it has counted. */
  ghost function Expected(env: Env, run: seq<Event>, k: KeyId, a: Gateway.AuthArgs, now: nat): Gateway.Status
    requires var s := Run(EMPTY, env, run).s; k in s.keys && s.keys[k].userId in s.users
  {
    var w := Run(EMPTY, env, run);
    var key := w.s.keys[k];
    var u := key.userId;
    var site := key.isSiteKey && a.kind == Gateway.KeyCredential;
    var plan := PaidPlanAt(w, u, now);
    if key.revokedAt.Some? then Gateway.Revoked
    else if key.expiresAt.Some? && key.expiresAt.value <= now then Gateway.Expired
    else if w.s.users[u].disabledAt.Some? then Gateway.Revoked
    else if !site && !Access(w, u, now) then Gateway.PaymentRequired
    else if !MayCall(key, a.endpoint) then Gateway.EndpointNotAllowed
    else if Full(env, run, k, key, a, site, plan, now) then Gateway.RateLimited
    else if !site && QuotaGone(w, env, k, u, Tag(a.endpoint), plan, now) then Gateway.QuotaExceeded
    else Gateway.Ok
  }

  /** What every reachable world keeps of quotas, free requests and grants. */
  ghost predicate Booked(w: World) {
    Sound(w) && QuotaLedger.Ledger(w) && QuotaLedger.FreeLedger(w) && PaymentLedger.GrantLedger(w)
  }

  lemma BookedRun(env: Env, run: seq<Event>)
    requires Possible(EMPTY, env, run)
    ensures Booked(Run(EMPTY, env, run))
  {
    EmptyIsSound();
    QuotaLedger.EmptyLedgers();
    PaymentLedger.EmptyGrants();
    hide Sound, QuotaLedger.Ledger, QuotaLedger.FreeLedger, PaymentLedger.GrantLedger;
    QuotaLedger.LedgerRun(EMPTY, env, run);
    QuotaLedger.FreeRun(EMPTY, env, run);
    PaymentLedger.GrantRun(EMPTY, env, run);
  }

  lemma AccessIff(w: World, u: UserId, now: nat)
    requires Booked(w) && u in w.s.users && w.h.clock <= now
    ensures ActivePlan(w.s.users[u], now) == PaidPlanAt(w, u, now)
    ensures HasKeyAccess(w.s.users[u], now) <==> Access(w, u, now)
  {
    hide Sound, QuotaLedger.Ledger, PaymentLedger.GrantLedger, PaymentLedger.Covers, PaymentLedger.LatestPlan,
      ActivePlan;
    PaymentLedger.PlanIsCovered(w, u, now);
    assert QuotaLedger.FreeUsed(w.s, u) == QuotaLedger.FreeRequests(w.h.charges, u);
  }

  lemma FullIff(env: Env, run: seq<Event>, k: KeyId, key: ApiKey, a: Gateway.AuthArgs, site: bool,
                plan: Option<PaidPlan>, now: nat)
    requires Possible(EMPTY, env, run) && Run(EMPTY, env, run).h.clock <= now
    ensures Gateway.AllAllowed(
              Gateway.HitAllStates(Run(EMPTY, env, run).s.rate, Gateway.Buckets(env, k, key, a, site, plan), now))
            <==> !Full(env, run, k, key, a, site, plan, now)
  {
    hide Possible, Run, Gateway.AllAllowed, Gateway.HitAllStates, CustomerFull, SiteFull, Gateway.CustomerBuckets,
      Gateway.SiteBuckets;
    if site {
      SiteAllowedIff(env, run, k, key, a, now);
    } else {
      CustomersAllowedIff(env, run, k, key, a, plan, now);
    }
  }

  /** Which of the checks before the decision a presented key passes. */
  lemma ScreenedIff(w: World, env: Env, a: Gateway.AuthArgs, k: KeyId, now: nat)
    requires Sound(w) && Presents(w.s, a, k, now)
    ensures w.s.keys[k].userId in w.s.users
    ensures var key, via := w.s.keys[k], a.kind == Gateway.PlaygroundCredential;
            Gateway.Authorize(w.s, env, a, now).1
            == if key.revokedAt.Some? then Gateway.Refusal(Gateway.Revoked)
               else if key.expiresAt.Some? && key.expiresAt.value <= now then Gateway.Refusal(Gateway.Expired)
               else if w.s.users[key.userId].disabledAt.Some? then Gateway.Refusal(Gateway.Revoked)
               else Gateway.Decide(w.s, env, k, via, a, now).answer
  {
    FindKeyIsUnique(w, a.hash);
    hide Gateway.Decide;
  }

  lemma DecisionIs(env: Env, run: seq<Event>, k: KeyId, a: Gateway.AuthArgs, now: nat)
    requires Possible(EMPTY, env, run) && Run(EMPTY, env, run).h.clock <= now
    requires var s := Run(EMPTY, env, run).s;
             k in s.keys && s.keys[k].userId in s.users && s.keys[k].revokedAt.None?
             && !(s.keys[k].expiresAt.Some? && s.keys[k].expiresAt.value <= now)
             && s.users[s.keys[k].userId].disabledAt.None?
    ensures Gateway.Decide(Run(EMPTY, env, run).s, env, k, a.kind == Gateway.PlaygroundCredential, a, now).answer.status
            == Expected(env, run, k, a, now)
  {
    var w := Run(EMPTY, env, run);
    var key := w.s.keys[k];
    var site := key.isSiteKey && a.kind == Gateway.KeyCredential;
    hide Possible, Run, Gateway.Decide, Booked, Access, HasKeyAccess, ActivePlan, PaidPlanAt, Full, QuotaGone, MayCall,
      Gateway.EndpointDenied, Gateway.Buckets, Gateway.HitAllStates, Gateway.AllAllowed, Gateway.ConsumeQuotas, Tag,
      Gateway.EndpointName;
    BookedRun(env, run);
    AccessIff(w, key.userId, now);
    DecidedStatus(w.s, env, k, a.kind == Gateway.PlaygroundCredential, a, now);
    DeniedIff(key, a.endpoint);
    TagIs(a.endpoint);
    FullIff(env, run, k, key, a, site, if site then None else PaidPlanAt(w, key.userId, now), now);
    SiteHasNoPlan(env, run, k, key, a, PaidPlanAt(w, key.userId, now), now);
    QuotasIff(w, env, k, Tag(a.endpoint), PaidPlanAt(w, key.userId, now), now);
  }

  lemma SiteHasNoPlan(env: Env, run: seq<Event>, k: KeyId, key: ApiKey, a: Gateway.AuthArgs,
                      plan: Option<PaidPlan>, now: nat)
    ensures Full(env, run, k, key, a, true, None, now) == Full(env, run, k, key, a, true, plan, now)
  {
  }

  lemma QuotasIff(w: World, env: Env, k: KeyId, tag: string, plan: Option<PaidPlan>, now: nat)
    requires Booked(w) && k in w.s.keys && w.h.clock <= now
    ensures Gateway.ConsumeQuotas(w.s.quota, env, k, w.s.keys[k].userId, tag, now, plan).1.allowed
            <==> !QuotaGone(w, env, k, w.s.keys[k].userId, tag, plan, now)
  {
    hide Sound, QuotaLedger.Ledger, QuotaGone, Gateway.ConsumeQuotas;
    QuotaIff(w, env, k, tag, plan, now);
  }

  /** In every reachable state, a request that presents a key is answered exactly as expected: with RateLimited when it
      would otherwise be served and some bucket it is counted in has as many hits this minute as its limit, and with
      Ok only when none of the reasons to refuse it holds. */
  lemma AnswerIs(env: Env, run: seq<Event>, k: KeyId, a: Gateway.AuthArgs, now: nat)
    requires Possible(EMPTY, env, run) && Run(EMPTY, env, run).h.clock <= now
    requires Presents(Run(EMPTY, env, run).s, a, k, now)
    ensures Run(EMPTY, env, run).s.keys[k].userId in Run(EMPTY, env, run).s.users
    ensures Gateway.Authorize(Run(EMPTY, env, run).s, env, a, now).1.status == Expected(env, run, k, a, now)
  {
    EmptyIsSound();
    SoundRun(EMPTY, env, run);
    var w := Run(EMPTY, env, run);
    hide Possible, Run, Gateway.Authorize, Gateway.Decide, Sound, PaidPlanAt, Access, MayCall, Full, QuotaGone, Tag;
    ScreenedIff(w, env, a, k, now);
    var key := w.s.keys[k];
    if key.revokedAt.None? && !(key.expiresAt.Some? && key.expiresAt.value <= now)
       && w.s.users[key.userId].disabledAt.None? {
      DecisionIs(env, run, k, a, now);
    }
  }

  /** A request that presents no key is answered Invalid, or Expired when its token is still stored. */
  lemma UnknownAnswerIs(env: Env, run: seq<Event>, a: Gateway.AuthArgs, now: nat)
    requires Possible(EMPTY, env, run) && forall k :: !Presents(Run(EMPTY, env, run).s, a, k, now)
    ensures Gateway.Authorize(Run(EMPTY, env, run).s, env, a, now)
            == (Run(EMPTY, env, run).s,
                Gateway.Refusal(if a.kind == Gateway.PlaygroundCredential && a.hash in Run(EMPTY, env, run).s.tokens
                                then Gateway.Expired else Gateway.Invalid))
  {
    EmptyIsSound();
    SoundRun(EMPTY, env, run);
    NobodyPresented(Run(EMPTY, env, run), env, a, now);
  }

  /** A token that does not belong to its key's account is no credential, in any state. */
  lemma StrayTokens(s: State, env: Env, a: Gateway.AuthArgs, now: nat)
    requires a.kind == Gateway.PlaygroundCredential && a.hash in s.tokens && s.tokens[a.hash].expiresAt > now
    requires var t := s.tokens[a.hash]; t.apiKeyId in s.keys ==> s.keys[t.apiKeyId].userId != t.userId
    ensures Gateway.Authorize(s, env, a, now) == (s, Gateway.Refusal(Gateway.Invalid))
  {
  }

  lemma NobodyPresented(w: World, env: Env, a: Gateway.AuthArgs, now: nat)
    requires Sound(w) && forall k :: !Presents(w.s, a, k, now)
    ensures Gateway.Authorize(w.s, env, a, now)
            == (w.s, Gateway.Refusal(if a.kind == Gateway.PlaygroundCredential && a.hash in w.s.tokens
                                     then Gateway.Expired else Gateway.Invalid))
  {
    FindKeyIsUnique(w, a.hash);
    if a.kind == Gateway.PlaygroundCredential && a.hash in w.s.tokens {
      assert !Presents(w.s, a, w.s.tokens[a.hash].apiKeyId, now);
    } else if a.kind == Gateway.KeyCredential {
      forall k | k in w.s.keys ensures w.s.keys[k].keyHash != a.hash {
        assert !Presents(w.s, a, k, now);
      }
    }
  }

  // ---- What the answer names -------------------------------------------------------------------------------

  /** A state names bucket i: its limit, what is left of it this minute and the minute's end. It is the first of those
      with the fewest requests left or, when the request is refused, the first that refuses it. */
  ghost predicate Names(st: Gateway.RateLimitState, bs: seq<Gateway.BucketLimit>, hits: RateBucket -> nat, now: nat,
                        i: nat)
    requires i < |bs|
  {
    var left := Max(0, bs[i].limit - (hits(bs[i].bucket) + 1));
    st.limit == bs[i].limit && st.remaining == left && st.reset == now / 60_000 * 60 + 60
    && (st.allowed <==> forall j :: 0 <= j < |bs| ==> hits(bs[j].bucket) < bs[j].limit)
    && if st.allowed then
         (forall j :: 0 <= j < |bs| ==> left <= bs[j].limit - (hits(bs[j].bucket) + 1))
         && (forall j :: 0 <= j < i ==> left < bs[j].limit - (hits(bs[j].bucket) + 1))
       else hits(bs[i].bucket) >= bs[i].limit && forall j :: 0 <= j < i ==> hits(bs[j].bucket) < bs[j].limit
  }

  lemma NamedLimit(rate: map<RateKey, nat>, bs: seq<Gateway.BucketLimit>, hits: RateBucket -> nat, now: nat)
    returns (i: nat)
    requires Different(bs) && bs != []
    requires forall j :: 0 <= j < |bs| ==>
               hits(bs[j].bucket) == Gateway.Count(rate, RateKey(bs[j].bucket, Gateway.WindowStart(now, MINUTE_MS)))
    ensures i < |bs| && Names(Gateway.Combine(Gateway.HitAllStates(rate, bs, now)), bs, hits, now, i)
  {
    var states := Gateway.HitAllStates(rate, bs, now);
    hide Gateway.HitAllStates, Gateway.Count, Gateway.WindowStart, Gateway.Combine, Names, StateAfter;
    forall j | 0 <= j < |bs| ensures StateAfter(states[j], bs[j].limit, hits(bs[j].bucket), now) {
      StatesAre(rate, bs, now, j);
    }
    i := NamedState(states, bs, hits, now);
  }

  lemma NamedState(states: seq<Gateway.RateLimitState>, bs: seq<Gateway.BucketLimit>, hits: RateBucket -> nat, now: nat)
    returns (i: nat)
    requires |states| == |bs| > 0
    requires forall j :: 0 <= j < |bs| ==> StateAfter(states[j], bs[j].limit, hits(bs[j].bucket), now)
    ensures i < |bs| && Names(Gateway.Combine(states), bs, hits, now, i)
  {
    hide Gateway.Binding;
    BucketLoop.BindingIs(states);
    if Gateway.AllAllowed(states) {
      i := BucketLoop.FirstFewest(states);
      hide BucketLoop.FirstFewest;
      forall j | 0 <= j < |bs| ensures hits(bs[j].bucket) < bs[j].limit {
        assert states[j].allowed;
      }
    } else {
      i := BucketLoop.FirstRefused(states);
      hide BucketLoop.FirstRefused, Gateway.AllAllowed;
      assert !states[i].allowed;
    }
  }

  ghost function HitCounts(env: Env, run: seq<Event>, now: nat): RateBucket -> nat {
    (b: RateBucket) => Hits(env, run, b, now)
  }

  ghost predicate NamesOne(env: Env, run: seq<Event>, st: Gateway.RateLimitState, bs: seq<Gateway.BucketLimit>,
                           now: nat) {
    exists i: nat :: i < |bs| && Names(st, bs, HitCounts(env, run, now), now, i)
  }

  lemma AnswerNamesOne(env: Env, run: seq<Event>, bs: seq<Gateway.BucketLimit>, now: nat)
    requires Possible(EMPTY, env, run) && Run(EMPTY, env, run).h.clock <= now && Different(bs) && bs != []
    requires forall j :: 0 <= j < |bs| ==> PerMinute(bs[j].bucket)
    ensures NamesOne(env, run, Gateway.Combine(Gateway.HitAllStates(Run(EMPTY, env, run).s.rate, bs, now)), bs, now)
  {
    hide Possible, Run, Hits, Names, Gateway.Combine, Gateway.HitAllStates, Different, Gateway.Count,
      Gateway.WindowStart;
    forall j | 0 <= j < |bs|
      ensures HitCounts(env, run, now)(bs[j].bucket)
              == Gateway.Count(Run(EMPTY, env, run).s.rate,
                               RateKey(bs[j].bucket, Gateway.WindowStart(now, MINUTE_MS)))
    {
      TableCountsHits(env, run, bs[j].bucket, now);
    }
    var i := NamedLimit(Run(EMPTY, env, run).s.rate, bs, HitCounts(env, run, now), now);
  }

  lemma DifferentBuckets(env: Env, k: KeyId, key: ApiKey, a: Gateway.AuthArgs, site: bool, plan: Option<PaidPlan>)
    ensures Different(Gateway.Buckets(env, k, key, a, site, plan))
    ensures forall j :: 0 <= j < |Gateway.Buckets(env, k, key, a, site, plan)| ==>
              PerMinute(Gateway.Buckets(env, k, key, a, site, plan)[j].bucket)
  {
  }

  /** In every reachable state, an answer beyond payment names the key, its account and how it was reached; a refused
      endpoint comes with those the key may call; and served and rate limited requests come with one of the limits. */
  lemma AnswerNames(env: Env, run: seq<Event>, k: KeyId, a: Gateway.AuthArgs, now: nat)
    requires Possible(EMPTY, env, run) && Run(EMPTY, env, run).h.clock <= now
    requires Presents(Run(EMPTY, env, run).s, a, k, now)
    requires Gateway.Authorize(Run(EMPTY, env, run).s, env, a, now).1.status
             in {Gateway.Ok, Gateway.EndpointNotAllowed, Gateway.RateLimited, Gateway.QuotaExceeded}
    ensures Run(EMPTY, env, run).s.keys[k].userId in Run(EMPTY, env, run).s.users
    ensures var s := Run(EMPTY, env, run).s;
            var key, via := s.keys[k], a.kind == Gateway.PlaygroundCredential;
            var site := key.isSiteKey && !via;
            var plan := if site then None else ActivePlan(s.users[key.userId], now);
            var bs := Gateway.Buckets(env, k, key, a, site, plan);
            var r := Gateway.Authorize(s, env, a, now).1;
            r.principal == Some(Gateway.Principal(k, key.userId, site, via))
            && (r.status == Gateway.EndpointNotAllowed ==>
                  forall e :: e in r.allowedEndpoints <==> MayCall(key, Some(e)))
            && (r.status == Gateway.Ok || r.status == Gateway.RateLimited ==>
                  r.rateLimit.Some? && NamesOne(env, run, r.rateLimit.value, bs, now))
            && (r.status == Gateway.QuotaExceeded ==> r.rateLimit.Some?)
  {
    EmptyIsSound();
    SoundRun(EMPTY, env, run);
    var w := Run(EMPTY, env, run);
    var via := a.kind == Gateway.PlaygroundCredential;
    hide Possible, Run, Gateway.Authorize, Gateway.Decide, Sound;
    ScreenedIff(w, env, a, k, now);
    hide Gateway.Buckets, Gateway.HitAllStates, Gateway.AllAllowed, Gateway.ConsumeQuotas, Gateway.Combine, MayCall,
      Gateway.EndpointDenied, Presents, HasKeyAccess, ActivePlan, Gateway.NormalizeEndpoints, NamesOne, Different;
    DecidedStatus(w.s, env, k, via, a, now);
    var key := w.s.keys[k];
    var site := key.isSiteKey && !via;
    var plan := if site then None else ActivePlan(w.s.users[key.userId], now);
    DifferentBuckets(env, k, key, a, site, plan);
    AnswerNamesOne(env, run, Gateway.Buckets(env, k, key, a, site, plan), now);
    if key.endpoints.Some? {
      forall e: string ensures e in Gateway.NormalizeEndpoints(key.endpoints.value) <==> MayCall(key, Some(e)) {
        ListedIff(key, e);
      }
    } else {
      NoList(key, a.endpoint);
    }
  }

  lemma NoList(key: ApiKey, endpoint: Option<string>)
    requires key.endpoints.None?
    ensures !Gateway.EndpointDenied(key, endpoint)
  {
  }

  lemma ListedIff(key: ApiKey, e: string)
    requires key.endpoints.Some?
    ensures e in Gateway.NormalizeEndpoints(key.endpoints.value) <==> MayCall(key, Some(e))
  {
    DeniedIff(key, Some(e));
  }
}
