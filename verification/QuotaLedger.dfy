/** The quota counters are exactly the number of accepted customer requests, in every reachable
    state, for every period that pruning may not have reached. From this follow conservation
    between the five counters, the exact refusal condition of a paid plan, and the free-tier
    guarantees. */
module QuotaLedger {
  import opened Wrappers
  import opened Calendar
  import opened Tables
  import opened Plans
  import opened Sums
  import opened Machine
  import Gateway
  import Keys
  import Payments

  // ---- Counting charges ---------------------------------------------------------------------

  function Rows(c: Charge): set<QuotaKey> {
    Gateway.Touched(c.key, c.user, c.endpoint, c.free, c.at)
  }

  /** Number of accepted requests charged to a quota row. */
  function Charges(cs: seq<Charge>, k: QuotaKey): nat {
    if cs == [] then 0 else
    Charges(cs[..|cs| - 1], k) + if k in Rows(cs[|cs| - 1]) then 1 else 0
  }

  /** Number of free requests ever accepted for an account. */
  function FreeRequests(cs: seq<Charge>, u: UserId): nat {
    if cs == [] then 0 else
    FreeRequests(cs[..|cs| - 1], u) + if cs[|cs| - 1].free && cs[|cs| - 1].user == u then 1 else 0
  }

  /** Pruning may have deleted rows of periods that started earlier than this. */
  predicate Retained(clock: nat, k: QuotaKey) {
    clock <= k.start + QUOTA_RETENTION_MS
  }

  ghost predicate GoodCharge(w: World, c: Charge) {
    c.key in w.s.keys && w.s.keys[c.key].userId == c.user && c.at <= w.h.clock
    && c.endpoint in {"geocode", "route", "unknown"}
  }

  ghost predicate Ledger(w: World) {
    && (forall k :: Retained(w.h.clock, k) ==> Gateway.Units(w.s.quota, k) == Charges(w.h.charges, k))
    && (forall i :: 0 <= i < |w.h.charges| ==> GoodCharge(w, w.h.charges[i]))
  }

  // ---- Every step keeps the ledger ------------------------------------------------------------

  /** What an answer's charge says about the row changes that came with it. */
  ghost predicate Accounted(s: State, k: KeyId, now: nat, d: Gateway.Decision, cs: seq<Charge>)
    requires k in s.keys && s.keys[k].userId in s.users
  {
    if cs == [] then d.quota == s.quota && !d.free
    else
      |cs| == 1 && cs[0].key == k && cs[0].user == s.keys[k].userId && cs[0].at == now
      && cs[0].endpoint in {"geocode", "route", "unknown"}
      && d.quota == Gateway.Charged(s.quota, Rows(cs[0])) && d.free == cs[0].free
      && cs[0].free == ActivePlan(s.users[s.keys[k].userId], now).None?
  }

  lemma EndpointNames(e: Option<string>)
    ensures Gateway.EndpointName(e) in {"geocode", "route", "unknown"}
  {
    if e.Some? && e.value in Gateway.API_ENDPOINTS {
      var i :| 0 <= i < |Gateway.API_ENDPOINTS| && Gateway.API_ENDPOINTS[i] == e.value;
      assert i == 0 || i == 1;
    }
  }

  lemma SpendCharges(s: State, env: Env, k: KeyId, a: Gateway.AuthArgs, now: nat, rate: map<RateKey, nat>,
                     state: Gateway.RateLimitState, principal: Gateway.Principal)
    requires k in s.keys && s.keys[k].userId in s.users
    requires principal.key == k && principal.user == s.keys[k].userId && !principal.isSiteKey
    ensures var plan := ActivePlan(s.users[s.keys[k].userId], now);
            var d := Gateway.Spend(s, env, k, s.keys[k].userId, a, now, plan, rate, state, Some(principal));
            Accounted(s, k, now, d, ChargeOf(s, a, d.answer, now))
  {
    EndpointNames(a.endpoint);
  }

  /** A decision charges the five rows exactly when it answers ok to customer traffic, and only
      free traffic uses up the lifetime allowance. */
  lemma DecideCharges(s: State, env: Env, k: KeyId, via: bool, a: Gateway.AuthArgs, now: nat)
    requires k in s.keys && s.keys[k].userId in s.users
    ensures var d := Gateway.Decide(s, env, k, via, a, now);
            var cs := ChargeOf(s, a, d.answer, now);
            Accounted(s, k, now, d, cs) && (cs != [] ==> HasKeyAccess(s.users[s.keys[k].userId], now))
  {
    hide Gateway.Combine, Gateway.HitAllStates, Gateway.HitAllRows, Gateway.Buckets, Gateway.Spend;
    var key := s.keys[k];
    var owner := s.users[key.userId];
    var site := key.isSiteKey && !via;
    var plan := if site then None else ActivePlan(owner, now);
    var principal := Gateway.Principal(k, key.userId, site, via);
    if (site || HasKeyAccess(owner, now)) && !Gateway.EndpointDenied(key, a.endpoint) {
      var buckets := Gateway.Buckets(env, k, key, a, site, plan);
      var state := Gateway.Combine(Gateway.HitAllStates(s.rate, buckets, now));
      if state.allowed && !site {
        SpendCharges(s, env, k, a, now, Gateway.HitAllRows(s.rate, buckets, now), state, principal);
      }
    }
  }

  lemma AuthorizeCharges(w: World, env: Env, a: Gateway.AuthArgs, now: nat)
    requires Sound(w)
    ensures var (t, r) := Gateway.Authorize(w.s, env, a, now);
            var cs := ChargeOf(w.s, a, r, now);
            (cs == [] ==> t.quota == w.s.quota && t.users == w.s.users)
            && (cs != [] ==>
                  |cs| == 1 && cs[0].key in w.s.keys && cs[0].user == w.s.keys[cs[0].key].userId && cs[0].at == now
                  && cs[0].endpoint in {"geocode", "route", "unknown"} && cs[0].user in w.s.users
                  && t.quota == Gateway.Charged(w.s.quota, Rows(cs[0]))
                  && t.users == (if cs[0].free then w.s.users[cs[0].user := Gateway.UseFree(w.s.users[cs[0].user])]
                                 else w.s.users)
                  && cs[0].free == ActivePlan(w.s.users[cs[0].user], now).None?
                  && HasKeyAccess(w.s.users[cs[0].user], now))
  {
    match Gateway.Screen(w.s, a.kind, a.hash, now)
    case Rejected(st) =>
    case Passed(k, via) =>
      if k in w.s.keys && w.s.keys[k].userId in w.s.users {
        DecideCharges(w.s, env, k, via, a, now);
      }
  }

  lemma ChargesAppend(cs: seq<Charge>, c: Charge, k: QuotaKey)
    ensures Charges(cs + [c], k) == Charges(cs, k) + if k in Rows(c) then 1 else 0
    ensures FreeRequests(cs + [c], c.user) == FreeRequests(cs, c.user) + if c.free then 1 else 0
    ensures forall u :: u != c.user ==> FreeRequests(cs + [c], u) == FreeRequests(cs, u)
  {
    assert (cs + [c])[..|cs|] == cs;
  }

  lemma LedgerAuthorize(w: World, env: Env, a: Gateway.AuthArgs, now: nat, k: QuotaKey)
    requires Sound(w) && Ledger(w) && w.h.clock <= now && Retained(now, k)
    ensures var (t, r) := Gateway.Authorize(w.s, env, a, now);
            Gateway.Units(t.quota, k) == Charges(w.h.charges + ChargeOf(w.s, a, r, now), k)
  {
    AuthorizeCharges(w, env, a, now);
    var r := Gateway.Authorize(w.s, env, a, now).1;
    var cs := ChargeOf(w.s, a, r, now);
    if cs == [] {
      assert w.h.charges + cs == w.h.charges;
    } else {
      assert cs == [cs[0]];
      ChargesAppend(w.h.charges, cs[0], k);
    }
  }

  lemma PruneKeepsUnits(s: State, env: Env, v: Victims, now: nat, k: QuotaKey)
    requires PruneVictims(s, env, v, now) && Retained(now, k)
    ensures Gateway.Units(PruneState(s, v).quota, k) == Gateway.Units(s.quota, k)
  {
    assert k !in ExpiredQuota(s.quota, now);
  }

  lemma ChargeStaysGood(w: World, env: Env, step: Step, now: nat, c: Charge)
    requires Enabled(w, env, step, now) && GoodCharge(w, c)
    ensures GoodCharge(Advance(w, env, step, now), c)
  {
    hide Next;
    OwnersAreKept(w, env, step, now, c.key);
  }

  lemma NewChargeIsGood(w: World, env: Env, a: Gateway.AuthArgs, now: nat)
    requires Sound(w) && Enabled(w, env, Authorize(a), now)
    ensures var cs := ChargeOf(w.s, a, Gateway.Authorize(w.s, env, a, now).1, now);
            |cs| <= 1 && forall i :: 0 <= i < |cs| ==> GoodCharge(Advance(w, env, Authorize(a), now), cs[i])
  {
    hide Advance, Gateway.Authorize, ChargeOf, Sound, Gateway.Charged, Rows;
    ChargesAdded(w, env, Authorize(a), now);
    AuthorizeCharges(w, env, a, now);
    var cs := ChargeOf(w.s, a, Gateway.Authorize(w.s, env, a, now).1, now);
    if cs != [] {
      hide Next;
      OwnersAreKept(w, env, Authorize(a), now, cs[0].key);
    }
  }

  lemma ChargesStayGood(w: World, env: Env, step: Step, now: nat)
    requires Sound(w) && Ledger(w) && Enabled(w, env, step, now)
    ensures var v := Advance(w, env, step, now);
            forall i :: 0 <= i < |v.h.charges| ==> GoodCharge(v, v.h.charges[i])
  {
    hide Advance, Enabled, Gateway.Authorize, ChargeOf, GoodCharge, Sound;
    var v := Advance(w, env, step, now);
    ChargesAdded(w, env, step, now);
    forall i | 0 <= i < |v.h.charges| ensures GoodCharge(v, v.h.charges[i]) {
      if i < |w.h.charges| {
        ChargeStaysGood(w, env, step, now, w.h.charges[i]);
      } else {
        NewChargeIsGood(w, env, step.auth, now);
      }
    }
  }

  lemma ChargesAdded(w: World, env: Env, step: Step, now: nat)
    ensures var v := Advance(w, env, step, now);
            v.s == Next(w.s, env, step, now) && v.h.clock == now
            && v.h.charges == w.h.charges + if step.Authorize?
                 then ChargeOf(w.s, step.auth, Gateway.Authorize(w.s, env, step.auth, now).1, now) else []
  {
    hide Next, Gateway.Authorize;
  }

  lemma CounterIsKept(w: World, env: Env, step: Step, now: nat, k: QuotaKey)
    requires Sound(w) && Ledger(w) && Enabled(w, env, step, now) && Retained(now, k)
    ensures var v := Advance(w, env, step, now); Gateway.Units(v.s.quota, k) == Charges(v.h.charges, k)
  {
    hide Sound, Gateway.Authorize, Gateway.Units, PruneState, PruneVictims;
    assert w.h.charges + [] == w.h.charges;
    if step.Authorize? {
      LedgerAuthorize(w, env, step.auth, now, k);
    } else if step.Prune? {
      PruneKeepsUnits(w.s, env, step.victims, now, k);
    } else {
      hide Next;
      Frame(w, env, step, now);
    }
  }

  lemma LedgerIsKept(w: World, env: Env, step: Step, now: nat)
    requires Sound(w) && Ledger(w) && Enabled(w, env, step, now)
    ensures Ledger(Advance(w, env, step, now))
  {
    hide Next, Observe, Enabled, Sound, GoodCharge, Charges, Gateway.Units;
    var v := Advance(w, env, step, now);
    ChargesStayGood(w, env, step, now);
    assert v.h.clock == now by { ClockIs(w, env, step, now); }
    forall k | Retained(now, k) ensures Gateway.Units(v.s.quota, k) == Charges(v.h.charges, k) {
      CounterIsKept(w, env, step, now, k);
    }
  }

  lemma ClockIs(w: World, env: Env, step: Step, now: nat)
    ensures Advance(w, env, step, now).h.clock == now
  {
  }

  lemma {:induction false} LedgerRun(w: World, env: Env, run: seq<Event>)
    requires Sound(w) && Ledger(w) && Possible(w, env, run)
    ensures Sound(Run(w, env, run)) && Ledger(Run(w, env, run))
    decreases run
  {
    if run != [] {
      hide Sound, Ledger, Next, Observe;
      SoundIsKept(w, env, run[0].step, run[0].now);
      LedgerIsKept(w, env, run[0].step, run[0].now);
      LedgerRun(Advance(w, env, run[0].step, run[0].now), env, run[1..]);
    }
  }

  // ---- Conservation ---------------------------------------------------------------------------

  /** If every charge that touches `whole` touches exactly one row of `parts`, and no other charge
      touches any, the rows of `parts` add up to `whole`. */
  lemma {:induction false} PartsAddUp(cs: seq<Charge>, whole: QuotaKey, parts: set<QuotaKey>)
    requires forall i :: 0 <= i < |cs| ==>
      if whole in Rows(cs[i]) then exists p :: parts * Rows(cs[i]) == {p} else parts !! Rows(cs[i])
    ensures Sum(parts, k => Charges(cs, k)) == Charges(cs, whole)
  {
    var now := k => Charges(cs, k);
    if cs == [] {
      SumZero(parts, now);
    } else {
      var init, c := cs[..|cs| - 1], cs[|cs| - 1];
      var before := k => Charges(init, k);
      PartsAddUp(init, whole, parts);
      SumAgree(parts, before, k => Charges(init, k));
      if whole in Rows(c) {
        var p :| parts * Rows(c) == {p};
        assert p in parts * Rows(c);
        forall k | k in parts && k != p ensures k !in Rows(c) {
          assert k !in parts * Rows(c);
        }
        SumBump(parts, before, now, p, 1);
      } else {
        SumAgree(parts, before, now);
      }
    }
    SumAgree(parts, now, k => Charges(cs, k));
  }

  ghost function UnitsOver(w: World, parts: set<QuotaKey>): int {
    Sum(parts, k => Gateway.Units(w.s.quota, k))
  }

  lemma PartsInWorld(w: World, whole: QuotaKey, parts: set<QuotaKey>)
    requires Ledger(w) && Retained(w.h.clock, whole)
    requires forall k :: k in parts ==> Retained(w.h.clock, k)
    requires forall i :: 0 <= i < |w.h.charges| ==>
      if whole in Rows(w.h.charges[i]) then exists p :: parts * Rows(w.h.charges[i]) == {p}
        else parts !! Rows(w.h.charges[i])
    ensures UnitsOver(w, parts) == Gateway.Units(w.s.quota, whole)
  {
    PartsAddUp(w.h.charges, whole, parts);
    SumAgree(parts, k => Gateway.Units(w.s.quota, k), k => Charges(w.h.charges, k));
  }

  function TenantMonth(u: UserId, free: bool, m: nat): QuotaKey {
    QuotaKey(TenantQuota(free, u), Month, m)
  }

  ghost function KeyMonths(w: World, u: UserId, free: bool, m: nat): set<QuotaKey> {
    set k | k in w.s.keys && w.s.keys[k].userId == u :: QuotaKey(KeyQuota(free, k), Month, m)
  }

  function EndpointMonths(u: UserId, free: bool, m: nat): set<QuotaKey> {
    set e | e in {"geocode", "route", "unknown"} :: QuotaKey(EndpointQuota(free, u, e), Month, m)
  }

  ghost function TenantDays(u: UserId, free: bool, t: nat): set<QuotaKey> {
    set d: nat | MonthStart(t) / DAY_MS <= d < NextMonthStart(t) / DAY_MS ::
      QuotaKey(TenantQuota(free, u), Day, d * DAY_MS)
  }

  /** An account's month counter equals the sum over its keys. */
  lemma KeysAddUp(w: World, u: UserId, free: bool, t: nat)
    requires Sound(w) && Ledger(w) && w.h.clock <= MonthStart(t) + QUOTA_RETENTION_MS
    ensures UnitsOver(w, KeyMonths(w, u, free, MonthStart(t)))
            == Gateway.Units(w.s.quota, TenantMonth(u, free, MonthStart(t)))
  {
    var m := MonthStart(t);
    var whole, parts := TenantMonth(u, free, m), KeyMonths(w, u, free, m);
    forall i | 0 <= i < |w.h.charges|
      ensures if whole in Rows(w.h.charges[i]) then exists p :: parts * Rows(w.h.charges[i]) == {p}
              else parts !! Rows(w.h.charges[i])
    {
      var c := w.h.charges[i];
      assert GoodCharge(w, c);
      if whole in Rows(c) {
        var p := QuotaKey(KeyQuota(free, c.key), Month, m);
        assert parts * Rows(c) == {p};
      }
    }
    PartsInWorld(w, whole, parts);
  }

  /** An account's month counter equals the sum over the endpoint labels. */
  lemma EndpointsAddUp(w: World, u: UserId, free: bool, t: nat)
    requires Sound(w) && Ledger(w) && w.h.clock <= MonthStart(t) + QUOTA_RETENTION_MS
    ensures UnitsOver(w, EndpointMonths(u, free, MonthStart(t)))
            == Gateway.Units(w.s.quota, TenantMonth(u, free, MonthStart(t)))
  {
    var m := MonthStart(t);
    var whole, parts := TenantMonth(u, free, m), EndpointMonths(u, free, m);
    forall i | 0 <= i < |w.h.charges|
      ensures if whole in Rows(w.h.charges[i]) then exists p :: parts * Rows(w.h.charges[i]) == {p}
              else parts !! Rows(w.h.charges[i])
    {
      var c := w.h.charges[i];
      assert GoodCharge(w, c);
      if whole in Rows(c) {
        var p := QuotaKey(EndpointQuota(free, u, c.endpoint), Month, m);
        assert parts * Rows(c) == {p};
      }
    }
    PartsInWorld(w, whole, parts);
  }

  /** An account's month counter equals the sum over the days of that month. */
  lemma DaysAddUp(w: World, u: UserId, free: bool, t: nat)
    requires Sound(w) && Ledger(w) && w.h.clock <= MonthStart(t) + QUOTA_RETENTION_MS
    ensures UnitsOver(w, TenantDays(u, free, t)) == Gateway.Units(w.s.quota, TenantMonth(u, free, MonthStart(t)))
  {
    var m := MonthStart(t);
    var whole, parts := TenantMonth(u, free, m), TenantDays(u, free, t);
    forall i | 0 <= i < |w.h.charges|
      ensures if whole in Rows(w.h.charges[i]) then exists p :: parts * Rows(w.h.charges[i]) == {p}
              else parts !! Rows(w.h.charges[i])
    {
      var c := w.h.charges[i];
      MonthStartIff(t, c.at);
      var d := c.at / DAY_MS;
      var p := QuotaKey(TenantQuota(free, u), Day, d * DAY_MS);
      if whole in Rows(c) {
        assert parts * Rows(c) == {p};
      }
    }
    PartsInWorld(w, whole, parts);
  }

  // ---- When a paid plan is refused --------------------------------------------------------------

  lemma {:induction false} ChargesLe(cs: seq<Charge>, part: QuotaKey, whole: QuotaKey)
    requires forall i :: 0 <= i < |cs| && part in Rows(cs[i]) ==> whole in Rows(cs[i])
    ensures Charges(cs, part) <= Charges(cs, whole)
  {
    if cs != [] {
      ChargesLe(cs[..|cs| - 1], part, whole);
    }
  }

  lemma SameDaySameMonth(t: nat, u: nat)
    requires DayStart(t) == DayStart(u)
    ensures MonthStart(t) == MonthStart(u)
  {
    assert t / DAY_MS == u / DAY_MS;
  }

  /** Rows of the period holding the present are beyond the reach of pruning. */
  lemma PresentIsRetained(b: Gateway.QuotaSpec, clock: nat, now: nat, period: Period)
    requires clock <= now && b.key.start == PeriodStart(now, period)
    ensures Retained(clock, b.key)
  {
    MonthStartBounds(now);
  }

  /** Each of the five counters is at most the account's month counter. */
  lemma FiveAreBounded(w: World, env: Env, k: KeyId, endpoint: string, now: nat, plan: Option<PaidPlan>, i: nat)
    requires Sound(w) && Ledger(w) && k in w.s.keys && w.h.clock <= now && i < 5
    ensures var u := w.s.keys[k].userId;
            var specs := Gateway.QuotaSpecs(env, k, u, endpoint, now, plan);
            Gateway.Units(w.s.quota, specs[i].key) == Charges(w.h.charges, specs[i].key)
            && Charges(w.h.charges, specs[i].key) <= Charges(w.h.charges, TenantMonth(u, plan.None?, MonthStart(now)))
  {
    var u := w.s.keys[k].userId;
    var spec := Gateway.QuotaSpecs(env, k, u, endpoint, now, plan)[i];
    PresentIsRetained(spec, w.h.clock, now, spec.key.period);
    forall j | 0 <= j < |w.h.charges| && spec.key in Rows(w.h.charges[j])
      ensures TenantMonth(u, plan.None?, MonthStart(now)) in Rows(w.h.charges[j])
    {
      var c := w.h.charges[j];
      assert GoodCharge(w, c);
      if spec.key.period == Day {
        SameDaySameMonth(c.at, now);
      }
    }
    ChargesLe(w.h.charges, spec.key, TenantMonth(u, plan.None?, MonthStart(now)));
  }

  /** A paid request is refused for quota exactly when the account's month counter has reached the
      plan's quota, and a refusal changes no counter. */
  lemma PaidRefusal(w: World, env: Env, k: KeyId, endpoint: string, now: nat, p: PaidPlan)
    requires Sound(w) && Ledger(w) && k in w.s.keys && w.h.clock <= now
    ensures var u := w.s.keys[k].userId;
            var (quota, q) := Gateway.ConsumeQuotas(w.s.quota, env, k, u, endpoint, now, Some(p));
            (q.allowed <==> Gateway.Units(w.s.quota, TenantMonth(u, false, MonthStart(now))) < MonthlyRequests(p))
            && (!q.allowed ==> quota == w.s.quota)
  {
    var u := w.s.keys[k].userId;
    var specs := Gateway.QuotaSpecs(env, k, u, endpoint, now, Some(p));
    var states := Gateway.QuotaStates(w.s.quota, specs);
    assert specs[3].key == TenantMonth(u, false, MonthStart(now));
    forall i | 0 <= i < 5
      ensures Gateway.Units(w.s.quota, specs[i].key) <= Gateway.Units(w.s.quota, specs[3].key)
              && specs[i].limit == MonthlyRequests(p)
    {
      FiveAreBounded(w, env, k, endpoint, now, Some(p), i);
      FiveAreBounded(w, env, k, endpoint, now, Some(p), 3);
    }
    assert states[3] == Gateway.QuotaState(w.s.quota, specs[3]);
  }

  lemma {:induction false} NotCharged(cs: seq<Charge>, k: QuotaKey)
    requires forall i :: 0 <= i < |cs| ==> k !in Rows(cs[i])
    ensures Charges(cs, k) == 0
  {
    if cs != [] {
      NotCharged(cs[..|cs| - 1], k);
    }
  }

  predicate PositiveQuotas(env: Env) {
    env.keyDaily >= 1 && env.keyMonthly >= 1 && env.tenantDaily >= 1 && env.tenantMonthly >= 1
    && env.endpointMonthly >= 1
  }

  /** An account with no charge this month fits its five quotas. */
  lemma UnspentFits(w: World, env: Env, k: KeyId, endpoint: string, now: nat, plan: Option<PaidPlan>)
    requires Sound(w) && Ledger(w) && k in w.s.keys && w.h.clock <= now && PositiveQuotas(env)
    requires Charges(w.h.charges, TenantMonth(w.s.keys[k].userId, plan.None?, MonthStart(now))) == 0
    ensures Gateway.ConsumeQuotas(w.s.quota, env, k, w.s.keys[k].userId, endpoint, now, plan).1.allowed
  {
    hide Ledger, Sound;
    var specs := Gateway.QuotaSpecs(env, k, w.s.keys[k].userId, endpoint, now, plan);
    forall i | 0 <= i < 5 ensures Gateway.QuotaState(w.s.quota, specs[i]).allowed {
      FiveAreBounded(w, env, k, endpoint, now, plan, i);
      assert specs[i].limit >= 1;
    }
  }

  // ---- The free tier ----------------------------------------------------------------------------

  /** What an account's row says it has used. */
  function FreeUsed(s: State, u: UserId): nat {
    if u in s.users then s.users[u].freeRequestsUsed.GetOr(0) else 0
  }

  /** The stored free counter is the number of free requests ever answered ok; it never exceeds
      the allowance, and is zero before activation. */
  ghost predicate FreeLedger(w: World) {
    forall u :: FreeUsed(w.s, u) == FreeRequests(w.h.charges, u) <= FREE_TOTAL_REQUESTS
                && (u in w.s.users && w.s.users[u].freeTierActivatedAt.None? ==> FreeUsed(w.s, u) == 0)
  }

  lemma FreeFrame(w: World, env: Env, step: Step, now: nat, u: UserId)
    requires Enabled(w, env, step, now) && !step.Authorize? && !step.ActivateFreeTier?
    ensures var t := Next(w.s, env, step, now);
            FreeUsed(t, u) == FreeUsed(w.s, u)
            && (u in t.users && t.users[u].freeTierActivatedAt.None? ==>
                  FreeUsed(w.s, u) == 0 || (u in w.s.users && w.s.users[u].freeTierActivatedAt.None?))
  {
    hide Next, PruneVictims, Keys.Oldest;
    Frame(w, env, step, now);
  }

  lemma FreeCharged(w: World, t: State, c: Charge, u: UserId)
    requires FreeLedger(w) && c.user in w.s.users && FreeRequests(w.h.charges, u) == FreeUsed(w.s, u)
    requires t.users == if c.free then w.s.users[c.user := Gateway.UseFree(w.s.users[c.user])] else w.s.users
    requires c.free ==> FreeRequestsRemaining(w.s.users[c.user]) > 0
    ensures FreeUsed(t, u) == FreeRequests(w.h.charges + [c], u) <= FREE_TOTAL_REQUESTS
    ensures u in t.users && t.users[u].freeTierActivatedAt.None? ==> FreeUsed(t, u) == 0
  {
    ChargesAppend(w.h.charges, c, TenantMonth("", true, 0));
    assert FreeUsed(w.s, u) <= FREE_TOTAL_REQUESTS;
  }

  lemma FreeAuthorize(w: World, env: Env, a: Gateway.AuthArgs, now: nat, u: UserId)
    requires Sound(w) && FreeLedger(w)
    ensures var (t, r) := Gateway.Authorize(w.s, env, a, now);
            var cs := w.h.charges + ChargeOf(w.s, a, r, now);
            FreeUsed(t, u) == FreeRequests(cs, u) <= FREE_TOTAL_REQUESTS
            && (u in t.users && t.users[u].freeTierActivatedAt.None? ==> FreeUsed(t, u) == 0)
  {
    AuthorizeCharges(w, env, a, now);
    hide Gateway.Authorize, Sound, ChargeOf, Gateway.UseFree, Gateway.Charged;
    var (t, r) := Gateway.Authorize(w.s, env, a, now);
    var cs := ChargeOf(w.s, a, r, now);
    assert FreeUsed(w.s, u) == FreeRequests(w.h.charges, u);
    if cs == [] {
      assert w.h.charges + cs == w.h.charges;
    } else {
      assert cs == [cs[0]];
      FreeCharged(w, t, cs[0], u);
    }
  }

  lemma FreeActivate(w: World, u: UserId, now: nat, v: UserId)
    requires FreeLedger(w)
    ensures var t := Payments.ActivateFreeTier(w.s, u, now);
            FreeUsed(t, v) == FreeRequests(w.h.charges, v) <= FREE_TOTAL_REQUESTS
            && (v in t.users && t.users[v].freeTierActivatedAt.None? ==> FreeUsed(t, v) == 0)
  {
    assert FreeUsed(w.s, v) == FreeRequests(w.h.charges, v);
  }

  lemma FreeStep(w: World, env: Env, step: Step, now: nat, u: UserId)
    requires Sound(w) && FreeLedger(w) && Enabled(w, env, step, now)
    ensures var v := Advance(w, env, step, now);
            FreeUsed(v.s, u) == FreeRequests(v.h.charges, u) <= FREE_TOTAL_REQUESTS
            && (u in v.s.users && v.s.users[u].freeTierActivatedAt.None? ==> FreeUsed(v.s, u) == 0)
  {
    hide Sound, Enabled, FreeUsed, FreeRequests, Gateway.Authorize, Payments.ActivateFreeTier;
    if step.Authorize? {
      FreeAuthorize(w, env, step.auth, now, u);
    } else {
      assert Advance(w, env, step, now).h.charges == w.h.charges;
      assert FreeUsed(w.s, u) == FreeRequests(w.h.charges, u);
      if step.ActivateFreeTier? {
        FreeActivate(w, step.user, now, u);
      } else {
        hide Next;
        FreeFrame(w, env, step, now, u);
      }
    }
  }

  lemma FreeIsKept(w: World, env: Env, step: Step, now: nat)
    requires Sound(w) && FreeLedger(w) && Enabled(w, env, step, now)
    ensures FreeLedger(Advance(w, env, step, now))
  {
    hide Sound, Enabled, FreeUsed, FreeRequests, Advance;
    var v := Advance(w, env, step, now);
    forall u
      ensures FreeUsed(v.s, u) == FreeRequests(v.h.charges, u) <= FREE_TOTAL_REQUESTS
              && (u in v.s.users && v.s.users[u].freeTierActivatedAt.None? ==> FreeUsed(v.s, u) == 0)
    {
      FreeStep(w, env, step, now, u);
    }
  }

  lemma {:induction false} FreeRun(w: World, env: Env, run: seq<Event>)
    requires Sound(w) && Ledger(w) && FreeLedger(w) && Possible(w, env, run)
    ensures FreeLedger(Run(w, env, run))
    decreases run
  {
    if run != [] {
      hide Sound, Ledger, FreeLedger, Next, Observe;
      var e := run[0];
      SoundIsKept(w, env, e.step, e.now);
      LedgerIsKept(w, env, e.step, e.now);
      FreeIsKept(w, env, e.step, e.now);
      FreeRun(Advance(w, env, e.step, e.now), env, run[1..]);
    }
  }

  lemma EmptyLedgers()
    ensures Ledger(EMPTY) && FreeLedger(EMPTY)
  {
  }

  /** Over any run from the empty platform, an account gets at most 500 free requests answered ok,
      and its stored counter is their number. */
  lemma FreeAllowanceIsForLife(env: Env, run: seq<Event>, u: UserId)
    requires Possible(EMPTY, env, run)
    ensures var w := Run(EMPTY, env, run);
            FreeRequests(w.h.charges, u) <= 500 && FreeUsed(w.s, u) == FreeRequests(w.h.charges, u)
  {
    EmptyIsSound();
    EmptyLedgers();
    hide Sound, Ledger;
    FreeRun(EMPTY, env, run);
  }

  lemma {:induction false} FreeChargesLe(cs: seq<Charge>, k: QuotaKey, u: UserId)
    requires forall i :: 0 <= i < |cs| && k in Rows(cs[i]) ==> cs[i].free && cs[i].user == u
    ensures Charges(cs, k) <= FreeRequests(cs, u)
  {
    if cs != [] {
      FreeChargesLe(cs[..|cs| - 1], k, u);
    }
  }

  predicate QuotasAtLeastFree(env: Env) {
    env.keyDaily >= FREE_TOTAL_REQUESTS && env.keyMonthly >= FREE_TOTAL_REQUESTS
      && env.tenantDaily >= FREE_TOTAL_REQUESTS
    && env.tenantMonthly >= FREE_TOTAL_REQUESTS && env.endpointMonthly >= FREE_TOTAL_REQUESTS
  }

  /** Free traffic with allowance left always fits its five quotas. */
  lemma FreeFits(w: World, env: Env, k: KeyId, endpoint: string, now: nat)
    requires Sound(w) && Ledger(w) && FreeLedger(w) && k in w.s.keys && w.h.clock <= now
    requires QuotasAtLeastFree(env) && FreeRequestsRemaining(w.s.users[w.s.keys[k].userId]) > 0
    ensures Gateway.ConsumeQuotas(w.s.quota, env, k, w.s.keys[k].userId, endpoint, now, None).1.allowed
  {
    var u := w.s.keys[k].userId;
    var specs := Gateway.QuotaSpecs(env, k, u, endpoint, now, None);
    var month := TenantMonth(u, true, MonthStart(now));
    FreeChargesLe(w.h.charges, month, u);
    assert FreeUsed(w.s, u) == FreeRequests(w.h.charges, u);
    forall i | 0 <= i < 5 ensures Gateway.QuotaState(w.s.quota, specs[i]).allowed {
      FiveAreBounded(w, env, k, endpoint, now, None, i);
      assert specs[i].limit == FREE_TOTAL_REQUESTS;
    }
  }

  /** `quota_exceeded` is answered exactly by the five-counter check of customer traffic with access. */
  lemma WhyQuotaExceeded(s: State, env: Env, k: KeyId, via: bool, a: Gateway.AuthArgs, now: nat)
    requires k in s.keys && s.keys[k].userId in s.users
    requires Gateway.Decide(s, env, k, via, a, now).answer.status == Gateway.QuotaExceeded
    ensures var u := s.keys[k].userId;
            var r := Gateway.Decide(s, env, k, via, a, now).answer;
            var plan := ActivePlan(s.users[u], now);
            r.principal.Some? && r.principal.value.user == u && HasKeyAccess(s.users[u], now)
            && !Gateway.ConsumeQuotas(s.quota, env, k, u, Gateway.EndpointName(a.endpoint), now, plan).1.allowed
  {
    hide Gateway.Buckets, Gateway.Combine, Gateway.HitAllStates, Gateway.HitAllRows, Gateway.ConsumeQuotas;
  }

  lemma WhoIsQuotaExceeded(w: World, env: Env, a: Gateway.AuthArgs, now: nat) returns (k: KeyId, via: bool)
    requires Sound(w) && Gateway.Authorize(w.s, env, a, now).1.status == Gateway.QuotaExceeded
    ensures k in w.s.keys && w.s.keys[k].userId in w.s.users
    ensures Gateway.Authorize(w.s, env, a, now).1 == Gateway.Decide(w.s, env, k, via, a, now).answer
  {
    FindKeyIsUnique(w, a.hash);
    match Gateway.Screen(w.s, a.kind, a.hash, now)
    case Passed(j, v) =>
      k, via := j, v;
  }

  lemma NotExceededWhileFree(w: World, env: Env, a: Gateway.AuthArgs, now: nat)
    requires Sound(w) && Ledger(w) && FreeLedger(w) && QuotasAtLeastFree(env) && w.h.clock <= now
    requires Gateway.Authorize(w.s, env, a, now).1.status == Gateway.QuotaExceeded
    ensures var r := Gateway.Authorize(w.s, env, a, now).1;
            r.principal.Some? && r.principal.value.user in w.s.users
              && ActivePlan(w.s.users[r.principal.value.user], now).Some?
  {
    hide Ledger, FreeLedger, Gateway.Decide, Gateway.ConsumeQuotas;
    var k, via := WhoIsQuotaExceeded(w, env, a, now);
    hide Gateway.Authorize;
    WhyQuotaExceeded(w.s, env, k, via, a, now);
    if ActivePlan(w.s.users[w.s.keys[k].userId], now).None? {
      FreeFits(w, env, k, Gateway.EndpointName(a.endpoint), now);
    }
  }

  /** In every reachable state, `quota_exceeded` is only ever the answer to paid traffic, provided
      every configured quota is at least the free allowance. */
  lemma FreeIsNeverQuotaExceeded(env: Env, run: seq<Event>, a: Gateway.AuthArgs, now: nat)
    requires QuotasAtLeastFree(env) && Possible(EMPTY, env, run) && Run(EMPTY, env, run).h.clock <= now
    ensures var w := Run(EMPTY, env, run);
            var r := Gateway.Authorize(w.s, env, a, now).1;
            r.status == Gateway.QuotaExceeded ==>
              r.principal.Some? && r.principal.value.user in w.s.users
                && ActivePlan(w.s.users[r.principal.value.user], now).Some?
  {
    EmptyIsSound();
    EmptyLedgers();
    hide Sound, Ledger, FreeLedger;
    LedgerRun(EMPTY, env, run);
    FreeRun(EMPTY, env, run);
    hide Gateway.Authorize;
    var w := Run(EMPTY, env, run);
    if Gateway.Authorize(w.s, env, a, now).1.status == Gateway.QuotaExceeded {
      NotExceededWhileFree(w, env, a, now);
    }
  }

  /** The plan's quota as a promise about whole runs: in any reachable state a paid request passes the
      five-counter check exactly while fewer paid requests than the plan's quota have been accepted
      for the account this month. */
  lemma PaidRefusalInRun(env: Env, run: seq<Event>, k: KeyId, endpoint: string, now: nat, p: PaidPlan)
    requires Possible(EMPTY, env, run) && Run(EMPTY, env, run).h.clock <= now && k in Run(EMPTY, env, run).s.keys
    ensures var w := Run(EMPTY, env, run);
            var u := w.s.keys[k].userId;
            var (quota, q) := Gateway.ConsumeQuotas(w.s.quota, env, k, u, endpoint, now, Some(p));
            (q.allowed <==> Charges(w.h.charges, TenantMonth(u, false, MonthStart(now))) < MonthlyRequests(p))
            && (!q.allowed ==> quota == w.s.quota)
  {
    EmptyIsSound();
    EmptyLedgers();
    hide Sound, Ledger, FreeLedger;
    LedgerRun(EMPTY, env, run);
    hide Gateway.ConsumeQuotas, Charges;
    var w := Run(EMPTY, env, run);
    PaidRefusal(w, env, k, endpoint, now, p);
    FiveAreBounded(w, env, k, endpoint, now, Some(p), 3);
  }

  /** In every reachable state, for any month still in the retention period, the sums over an account's keys,
      over the endpoint labels and over the days of the month all equal its month counter, which is the number of
      requests accepted and charged to the account that month. */
  lemma CountersAddUpInRun(env: Env, run: seq<Event>, u: UserId, free: bool, t: nat)
    requires Possible(EMPTY, env, run) && Run(EMPTY, env, run).h.clock <= MonthStart(t) + QUOTA_RETENTION_MS
    ensures var w := Run(EMPTY, env, run);
            var month := TenantMonth(u, free, MonthStart(t));
            Gateway.Units(w.s.quota, month) == Charges(w.h.charges, month)
            && UnitsOver(w, KeyMonths(w, u, free, MonthStart(t))) == Charges(w.h.charges, month)
            && UnitsOver(w, EndpointMonths(u, free, MonthStart(t))) == Charges(w.h.charges, month)
            && UnitsOver(w, TenantDays(u, free, t)) == Charges(w.h.charges, month)
  {
    EmptyIsSound();
    EmptyLedgers();
    hide Sound, FreeLedger, Charges, UnitsOver, KeyMonths, EndpointMonths, TenantDays;
    LedgerRun(EMPTY, env, run);
    var w := Run(EMPTY, env, run);
    KeysAddUp(w, u, free, t);
    EndpointsAddUp(w, u, free, t);
    DaysAddUp(w, u, free, t);
  }
}
