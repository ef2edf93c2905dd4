/** Which refused credentials can be answered ok again. The API process remembers `invalid`, `revoked` and `expired`
    as statuses that cannot turn back into ok; here are the runs after which two of them do. */
module Readmission {
  import opened Wrappers
  import opened Calendar
  import opened Tables
  import opened Plans
  import opened Machine
  import opened Credentials
  import Gateway
  import Keys
  import Payments
  import QuotaLedger
  import RateLedger
  import PaymentLedger

  /** Configured limits are positive; the source replaces any other by a default. */
  predicate Configured(env: Env) {
    env.globalRate >= 1 && env.routeRate >= 1 && QuotaLedger.PositiveQuotas(env)
  }

  // ---- A request that meets no limit -----------------------------------------------------------

  /** Nothing has been counted yet in the minute of t. */
  predicate Quiet(rate: map<RateKey, nat>, t: nat) {
    forall r :: r in rate ==> r.windowStart != Gateway.WindowStart(t, MINUTE_MS)
  }

  predicate Uncounted(rate: map<RateKey, nat>, bs: seq<Gateway.BucketLimit>, t: nat) {
    && (forall i, j :: 0 <= i < j < |bs| ==> bs[i].bucket != bs[j].bucket)
    && (forall i :: 0 <= i < |bs| ==>
          bs[i].limit >= 1 && RateKey(bs[i].bucket, Gateway.WindowStart(t, MINUTE_MS)) !in rate)
  }

  lemma {:induction false} UncountedIsAllowed(rate: map<RateKey, nat>, bs: seq<Gateway.BucketLimit>, t: nat)
    requires Uncounted(rate, bs, t)
    ensures Gateway.AllAllowed(Gateway.HitAllStates(rate, bs, t))
    decreases bs
  {
    if bs != [] {
      var next := Gateway.HitRows(rate, bs[0].bucket, t, MINUTE_MS, 1);
      assert Uncounted(next, bs[1..], t) by {
        forall i | 0 <= i < |bs[1..]| ensures RateKey(bs[1..][i].bucket, Gateway.WindowStart(t, MINUTE_MS)) !in next {
          assert bs[1..][i] == bs[i + 1];
        }
      }
      UncountedIsAllowed(next, bs[1..], t);
    }
  }

  lemma QuietBuckets(rate: map<RateKey, nat>, env: Env, k: KeyId, key: ApiKey, a: Gateway.AuthArgs, site: bool,
                     plan: Option<PaidPlan>, t: nat)
    requires Configured(env) && Quiet(rate, t)
    ensures Uncounted(rate, Gateway.Buckets(env, k, key, a, site, plan), t)
  {
  }

  /** Website traffic: it meets neither billing nor quotas. */
  predicate OfSite(key: ApiKey, a: Gateway.AuthArgs) {
    key.isSiteKey && a.kind == Gateway.KeyCredential
  }

  /** What a request with a standing key needs besides: an endpoint of the key, a quiet minute and, unless it is
      the website's, an account with access and quota left. */
  predicate Served(s: State, env: Env, k: KeyId, a: Gateway.AuthArgs, t: nat)
    requires k in s.keys && s.keys[k].userId in s.users
  {
    var key := s.keys[k];
    var owner := s.users[key.userId];
    !Gateway.EndpointDenied(key, a.endpoint) && Quiet(s.rate, t)
    && (OfSite(key, a)
        || (HasKeyAccess(owner, t)
            && Gateway.ConsumeQuotas(s.quota, env, k, key.userId, Gateway.EndpointName(a.endpoint), t,
                                     ActivePlan(owner, t)).1.allowed))
  }

  lemma ServedIsOk(s: State, env: Env, k: KeyId, a: Gateway.AuthArgs, t: nat)
    requires Configured(env) && k in s.keys && s.keys[k].userId in s.users && Served(s, env, k, a, t)
    ensures Gateway.Decide(s, env, k, a.kind == Gateway.PlaygroundCredential, a, t).answer.status == Gateway.Ok
  {
    hide Gateway.HitAllStates, Gateway.HitAllRows, Gateway.Buckets, Quiet, Configured, Gateway.EndpointDenied;
    var key := s.keys[k];
    var site := OfSite(key, a);
    var plan := if site then None else ActivePlan(s.users[key.userId], t);
    var buckets := Gateway.Buckets(env, k, key, a, site, plan);
    QuietBuckets(s.rate, env, k, key, a, site, plan, t);
    UncountedIsAllowed(s.rate, buckets, t);
    assert Gateway.Combine(Gateway.HitAllStates(s.rate, buckets, t)).allowed;
    hide Gateway.Combine, Gateway.ConsumeQuotas;
  }

  lemma ViaPlayground(s: State, a: Gateway.AuthArgs, t: nat)
    ensures var i := Gateway.Identify(s, a.kind, a.hash, t);
            i.Passed? ==> i.viaPlayground == (a.kind == Gateway.PlaygroundCredential)
  {
  }

  /** A credential whose key and owner stand is answered ok. */
  lemma StandingAndServedIsOk(v: World, env: Env, a: Gateway.AuthArgs, k: KeyId, t: nat)
    requires Configured(env) && PresentedKey(v.s, a, t) == Some(k) && k in v.s.keys
    requires v.s.keys[k].userId in v.s.users
    requires Gateway.Standing(v.s, k, t) == Gateway.Ok && Served(v.s, env, k, a, t)
    ensures Gateway.Authorize(v.s, env, a, t).1.status == Gateway.Ok
  {
    ServedIsOk(v.s, env, k, a, t);
    ViaPlayground(v.s, a, t);
    hide Served, Configured, Gateway.Decide, Gateway.Identify, Gateway.Standing, Gateway.Apply;
  }

  // ---- Unlocking -------------------------------------------------------------------------------

  predicate Lives(key: ApiKey, t: nat) {
    key.revokedAt.None? && (key.expiresAt.None? || key.expiresAt.value > t)
  }

  /** Unlocking the owner of a live key, locked or not, is enough: the key is answered ok whenever nothing but
      the lock stood in its way. */
  lemma UnlockedIsOk(w: World, env: Env, a: Gateway.AuthArgs, k: KeyId, now: nat, t: nat)
    requires Configured(env) && w.h.clock <= now && PresentedKey(w.s, a, t) == Some(k) && k in w.s.keys
    requires Lives(w.s.keys[k], t) && w.s.keys[k].userId in w.s.users && Served(w.s, env, k, a, t)
    ensures var run := [Event(EnableUser(w.s.keys[k].userId), now)];
            Possible(w, env, run) && Run(w, env, run).h.clock == now
            && Gateway.Authorize(Run(w, env, run).s, env, a, t).1.status == Gateway.Ok
  {
    var e := Event(EnableUser(w.s.keys[k].userId), now);
    var v := Advance(w, env, e.step, now);
    OneEvent(w, env, e);
    Unlocked(w, env, k, now);
    hide Advance, Gateway.Authorize, Configured, Served, PresentedKey;
    UnlockedIsServed(w.s, v.s, env, k, a, t);
    SameKeySameCredential(w.s, v.s, a, t);
    StandingAndServedIsOk(v, env, a, k, t);
  }

  lemma UnlockedIsServed(s: State, x: State, env: Env, k: KeyId, a: Gateway.AuthArgs, t: nat)
    requires k in s.keys && s.keys[k].userId in s.users && Lives(s.keys[k], t) && Served(s, env, k, a, t)
    requires var u := s.keys[k].userId; x == s.(users := s.users[u := s.users[u].(disabledAt := None)])
    ensures Gateway.Standing(x, k, t) == Gateway.Ok && Served(x, env, k, a, t)
  {
    hide Gateway.ConsumeQuotas, Gateway.EndpointDenied, Quiet;
  }

  lemma Unlocked(w: World, env: Env, k: KeyId, now: nat)
    requires w.h.clock <= now && k in w.s.keys && w.s.keys[k].userId in w.s.users
    ensures var u := w.s.keys[k].userId;
            var v := Advance(w, env, EnableUser(u), now);
            Enabled(w, env, EnableUser(u), now) && v.h == w.h.(clock := now)
            && v.s == w.s.(users := w.s.users[u := w.s.users[u].(disabledAt := None)])
  {
  }

  lemma SameKeySameCredential(s: State, t: State, a: Gateway.AuthArgs, now: nat)
    requires t.keys == s.keys && t.tokens == s.tokens
    ensures PresentedKey(t, a, now) == PresentedKey(s, a, now)
  {
  }

  // ---- Reachable worlds ------------------------------------------------------------------------

  ghost predicate Lived(w: World) {
    Sound(w) && QuotaLedger.Ledger(w) && RateLedger.RowsArePast(w)
  }

  lemma LivedRun(w: World, env: Env, run: seq<Event>)
    requires Lived(w) && Possible(w, env, run)
    ensures Lived(Run(w, env, run))
  {
    hide Sound, QuotaLedger.Ledger, RateLedger.RowsArePast;
    QuotaLedger.LedgerRun(w, env, run);
    RateLedger.RowsArePastRun(w, env, run);
  }

  lemma EmptyIsLived()
    ensures Lived(EMPTY)
  {
    EmptyIsSound();
    QuotaLedger.EmptyLedgers();
  }

  /** A minute later nothing of the present minute is counted any more. */
  lemma QuietLater(w: World, t: nat)
    requires RateLedger.RowsArePast(w) && w.h.clock + MINUTE_MS <= t
    ensures Quiet(w.s.rate, t)
  {
    assert Gateway.WindowStart(t, MINUTE_MS) > t - MINUTE_MS;
  }

  /** An account the world does not know has no charges. */
  lemma StrangersAreUncharged(w: World, u: UserId, free: bool, t: nat)
    requires Sound(w) && QuotaLedger.Ledger(w) && u !in w.s.users
    ensures QuotaLedger.Charges(w.h.charges, QuotaLedger.TenantMonth(u, free, MonthStart(t))) == 0
  {
    var month := QuotaLedger.TenantMonth(u, free, MonthStart(t));
    forall i | 0 <= i < |w.h.charges| ensures month !in QuotaLedger.Rows(w.h.charges[i]) {
      assert QuotaLedger.GoodCharge(w, w.h.charges[i]);
    }
    QuotaLedger.NotCharged(w.h.charges, month);
  }

  const MONTH_MS: nat := 31 * DAY_MS

  /** In a month that has not begun nobody has charges. */
  lemma NextMonthIsUncharged(w: World, u: UserId, free: bool, t: nat)
    requires QuotaLedger.Ledger(w) && w.h.clock + MONTH_MS <= t
    ensures QuotaLedger.Charges(w.h.charges, QuotaLedger.TenantMonth(u, free, MonthStart(t))) == 0
  {
    var month := QuotaLedger.TenantMonth(u, free, MonthStart(t));
    MonthStartBounds(t);
    forall i | 0 <= i < |w.h.charges| ensures month !in QuotaLedger.Rows(w.h.charges[i]) {
      assert QuotaLedger.GoodCharge(w, w.h.charges[i]);
      MonthStartBounds(w.h.charges[i].at);
    }
    QuotaLedger.NotCharged(w.h.charges, month);
  }

  // ---- A new key -------------------------------------------------------------------------------

  function Geocoding(a: Gateway.AuthArgs): Gateway.AuthArgs {
    a.(endpoint := Some("geocode"))
  }

  lemma GeocodingIsAllowed(u: UserId, h: Hash)
    ensures !Gateway.EndpointDenied(NewKey(u, h), Some("geocode"))
  {
    assert Gateway.NormalizeEndpoint("geocode") == Some("geocode");
    assert "geocode" in ["geocode"];
    assert Gateway.NormalizeEndpoints(["geocode"])[0] == "geocode";
  }

  /** A newly made key is served from the next minute on. */
  lemma NewKeyIsServed(w: World, v: World, env: Env, u: UserId, k: KeyId, a: Gateway.AuthArgs, h: Hash, locked: bool,
                       now: nat, t: nat)
    requires Lived(w) && Lived(v) && Configured(env) && u !in w.s.users
    requires HasEnrolled(w, v, u, k, h, locked, now) && now <= t && w.h.clock + MINUTE_MS <= t
    requires a.endpoint == Some("geocode")
    ensures Served(v.s, env, k, a, t)
  {
    GeocodingIsAllowed(u, h);
    QuietLater(w, t);
    StrangersAreUncharged(w, u, true, t);
    assert v.s.keys[k].userId == u && ActivePlan(v.s.users[u], t) == None && HasKeyAccess(v.s.users[u], t);
    assert QuotaLedger.PositiveQuotas(env);
    hide Sound, QuotaLedger.Ledger, RateLedger.RowsArePast, Gateway.ConsumeQuotas, Gateway.EndpointDenied, Configured,
      QuotaLedger.Charges, Quiet;
    QuotaLedger.UnspentFits(v, env, k, Gateway.EndpointName(a.endpoint), t, None);
  }

  /** The failing state is reachable, from any reachable world: an account is locked and then given a key. The key
      is answered `revoked` although it is not; once the account is unlocked, it is answered ok from the next
      minute on. */
  lemma LockedOwnerHoldsALiveKey(env: Env, before: seq<Event>, u: UserId, k: KeyId, a: Gateway.AuthArgs,
                                 now: nat, t: nat)
    requires Configured(env) && Possible(EMPTY, env, before) && a.kind == Gateway.KeyCredential
    requires var w := Run(EMPTY, env, before);
             w.h.clock <= now && u !in w.s.users && k !in w.s.keys && a.hash !in w.h.issued
    requires now + MINUTE_MS <= t && a.endpoint == Some("geocode")
    ensures var w := Run(EMPTY, env, before);
            var run, unlocking := Enrolment(u, k, a.hash, true, now), [Event(EnableUser(u), now)];
            var v := Run(w, env, run);
            Possible(w, env, run) && Possible(v, env, unlocking)
            && Gateway.Authorize(v.s, env, a, now).1.status == Gateway.Revoked
            && PresentedKey(v.s, a, now) == Some(k) && k in v.s.keys && v.s.keys[k].revokedAt.None?
            && Gateway.Authorize(Run(v, env, unlocking).s, env, a, t).1.status == Gateway.Ok
  {
    EmptyIsLived();
    LivedRun(EMPTY, env, before);
    var w := Run(EMPTY, env, before);
    var run := Enrolment(u, k, a.hash, true, now);
    var v := Run(w, env, run);
    Enrolled(w, env, u, k, a.hash, true, now);
    LivedRun(w, env, run);
    hide Run, Possible, Enrolment, PresentedKey, Gateway.Authorize, Served, Configured;
    LockedIsRevoked(v, env, a, k, now);
    LockedIsRevoked(v, env, a, k, t);
    NewKeyIsServed(w, v, env, u, k, a, a.hash, true, now, t);
    UnlockedIsOk(v, env, a, k, now, t);
  }

  // ---- Which refused credentials can be ok again -------------------------------------------------

  /** A request with the same credential is answered ok after some run. */
  ghost predicate ComesBack(w: World, env: Env, a: Gateway.AuthArgs) {
    exists run: seq<Event>, b: Gateway.AuthArgs, later: nat ::
      Possible(w, env, run) && OkAfter(w, env, run, a, b, later)
  }

  ghost predicate OkAfter(w: World, env: Env, run: seq<Event>, a: Gateway.AuthArgs, b: Gateway.AuthArgs, later: nat) {
    Run(w, env, run).h.clock <= later && b.kind == a.kind && b.hash == a.hash
    && Gateway.Authorize(Run(w, env, run).s, env, b, later).1.status == Gateway.Ok
  }

  lemma DeadNeverComesBack(w: World, env: Env, a: Gateway.AuthArgs)
    requires Sound(w) && Dead(w, a.kind, a.hash)
    ensures !ComesBack(w, env, a)
  {
    hide Sound, Dead, Gateway.Authorize;
    forall run: seq<Event>, b: Gateway.AuthArgs, later: nat | Possible(w, env, run)
      ensures !OkAfter(w, env, run, a, b, later)
    {
      if OkAfter(w, env, run, a, b, later) {
        DeadRun(w, env, run, a.kind, a.hash);
        SoundRun(w, env, run);
        DeadIsRefused(Run(w, env, run), env, b, later);
      }
    }
  }

  // ---- Keys without endpoints

  predicate Idle(key: ApiKey) {
    key.endpoints.Some? && Gateway.NormalizeEndpoints(key.endpoints.value) == []
  }

  /** The credential is one of a key without endpoints, as long as it is anyone's. */
  ghost predicate Useless(w: World, kind: Gateway.CredentialKind, h: Hash) {
    h in w.h.issued
    && match kind
       case KeyCredential => forall k :: k in w.s.keys && w.s.keys[k].keyHash == h ==> Idle(w.s.keys[k])
       case PlaygroundCredential =>
         h in w.s.tokens ==> w.s.tokens[h].apiKeyId in w.s.keys && Idle(w.s.keys[w.s.tokens[h].apiKeyId])
  }

  lemma UselessIsKept(w: World, env: Env, step: Step, now: nat, kind: Gateway.CredentialKind, h: Hash)
    requires Sound(w) && Enabled(w, env, step, now) && Useless(w, kind, h)
    ensures Useless(Advance(w, env, step, now), kind, h)
  {
    hide Next, Gateway.NormalizeEndpoints;
    KeysEvolve(w, env, step, now);
    TokensEvolve(w, env, step, now);
  }

  lemma {:induction false} UselessRun(w: World, env: Env, run: seq<Event>, kind: Gateway.CredentialKind, h: Hash)
    requires Sound(w) && Possible(w, env, run) && Useless(w, kind, h)
    ensures Useless(Run(w, env, run), kind, h)
    decreases run
  {
    if run != [] {
      hide Sound, Next, Observe, Useless;
      SoundIsKept(w, env, run[0].step, run[0].now);
      UselessIsKept(w, env, run[0].step, run[0].now, kind, h);
      UselessRun(Advance(w, env, run[0].step, run[0].now), env, run[1..], kind, h);
    }
  }

  lemma UselessIsNotOk(w: World, env: Env, a: Gateway.AuthArgs, now: nat)
    requires Sound(w) && Useless(w, a.kind, a.hash)
    ensures Gateway.Authorize(w.s, env, a, now).1.status != Gateway.Ok
  {
    FindKeyIsUnique(w, a.hash);
    hide Sound, Gateway.NormalizeEndpoints, Gateway.Buckets, Gateway.Combine, Gateway.HitAllStates, Gateway.HitAllRows,
      Gateway.Spend;
  }

  lemma UselessNeverComesBack(w: World, env: Env, a: Gateway.AuthArgs)
    requires Sound(w) && Useless(w, a.kind, a.hash)
    ensures !ComesBack(w, env, a)
  {
    hide Sound, Useless, Gateway.Authorize;
    forall run: seq<Event>, b: Gateway.AuthArgs, later: nat | Possible(w, env, run)
      ensures !OkAfter(w, env, run, a, b, later)
    {
      if OkAfter(w, env, run, a, b, later) {
        UselessRun(w, env, run, a.kind, a.hash);
        SoundRun(w, env, run);
        UselessIsNotOk(Run(w, env, run), env, b, later);
      }
    }
  }

  // ---- A live key with an endpoint

  /** An endpoint a key with any endpoint can be used for. */
  lemma AnEndpoint(key: ApiKey) returns (e: string)
    requires !Idle(key)
    ensures !Gateway.EndpointDenied(key, Some(e))
  {
    e := if key.endpoints.Some? then Gateway.NormalizeEndpoints(key.endpoints.value)[0] else "geocode";
  }

  /** The owner is unlocked now and buys the largest plan at time t. */
  function Revival(u: UserId, p: PaymentId, intent: string, now: nat, t: nat): seq<Event> {
    [Event(EnableUser(u), now)] + PaymentLedger.Purchase(p, u, Pro, intent, t)
  }

  /** The account has not used up the largest plan in the month of t. */
  ghost predicate WithinPro(w: World, u: UserId, t: nat) {
    QuotaLedger.Charges(w.h.charges, QuotaLedger.TenantMonth(u, false, MonthStart(t))) < MonthlyRequests(Pro)
  }

  lemma Revived(w: World, env: Env, k: KeyId, p: PaymentId, intent: string, now: nat,
                t: nat)
    requires Lived(w) && w.h.clock <= now <= t && k in w.s.keys && p !in w.s.payments
    requires forall q :: q in w.s.payments ==> w.s.payments[q].intent != intent
    ensures w.s.keys[k].userId in w.s.users
    ensures var u := w.s.keys[k].userId;
            var run := Revival(u, p, intent, now, t);
            var v := Run(w, env, run);
            Possible(w, env, run) && Lived(v) && v.h.clock == t && PaymentLedger.OnlyBilled(w, v)
            && u in v.s.users && v.s.users[u].disabledAt.None? && ActivePlan(v.s.users[u], t) == Some(Pro)
  {
    var u := w.s.keys[k].userId;
    var e, buy := Event(EnableUser(u), now), PaymentLedger.Purchase(p, u, Pro, intent, t);
    Unlocked(w, env, k, now);
    var x := Advance(w, env, e.step, now);
    SoundIsKept(w, env, e.step, now);
    hide Advance, Enabled, QuotaLedger.Ledger, RateLedger.RowsArePast;
    PaymentLedger.Purchased(x, env, p, u, Pro, intent, t);
    PaymentLedger.PurchaseLeaves(x, env, p, u, Pro, intent, t);
    Then(w, env, e, buy);
    assert ActivePlan(Payments.Grant(x.s.users[u], Pro, t), t) == Some(Pro);
    hide PaymentLedger.Purchase, Payments.Grant, Sound, Run, Possible;
    LivedRun(w, env, Revival(u, p, intent, now, t));
  }

  lemma RevivedIsServed(w: World, v: World, env: Env, k: KeyId, a: Gateway.AuthArgs, t: nat)
    requires Configured(env) && Lived(w) && Lived(v) && PaymentLedger.OnlyBilled(w, v) && w.h.clock + MINUTE_MS <= t
    requires k in v.s.keys && v.s.keys[k].userId in v.s.users && v.h.clock == t && WithinPro(w, v.s.keys[k].userId, t)
    requires ActivePlan(v.s.users[v.s.keys[k].userId], t) == Some(Pro)
    requires !Gateway.EndpointDenied(v.s.keys[k], a.endpoint)
    ensures Served(v.s, env, k, a, t)
  {
    QuietLater(w, t);
    hide Sound, QuotaLedger.Ledger, RateLedger.RowsArePast, Gateway.ConsumeQuotas, Gateway.EndpointDenied,
      QuotaLedger.Charges, Quiet, ActivePlan;
    QuotaLedger.PaidRefusal(v, env, k, Gateway.EndpointName(a.endpoint), t, Pro);
    QuotaLedger.FiveAreBounded(v, env, k, Gateway.EndpointName(a.endpoint), t, Some(Pro), 3);
  }

  lemma OkAgain(w: World, env: Env, run: seq<Event>, a: Gateway.AuthArgs, b: Gateway.AuthArgs, later: nat)
    requires Possible(w, env, run) && Run(w, env, run).h.clock <= later && b.kind == a.kind && b.hash == a.hash
    requires Gateway.Authorize(Run(w, env, run).s, env, b, later).1.status == Gateway.Ok
    ensures ComesBack(w, env, a)
  {
    hide Possible, Run, Gateway.Authorize;
    assert OkAfter(w, env, run, a, b, later);
  }

  lemma RevivedIsOk(w: World, v: World, env: Env, k: KeyId, a: Gateway.AuthArgs, t: nat)
    requires Configured(env) && Lived(w) && Lived(v) && PaymentLedger.OnlyBilled(w, v) && w.h.clock + MINUTE_MS <= t
    requires k in w.s.keys && v.s.keys[k].userId in v.s.users && v.h.clock == t && WithinPro(w, v.s.keys[k].userId, t)
    requires ActivePlan(v.s.users[v.s.keys[k].userId], t) == Some(Pro)
    requires v.s.users[v.s.keys[k].userId].disabledAt.None? && Lives(w.s.keys[k], t)
    requires PresentedKey(w.s, a, t) == Some(k) && !Gateway.EndpointDenied(v.s.keys[k], a.endpoint)
    ensures Gateway.Authorize(v.s, env, a, t).1.status == Gateway.Ok
  {
    hide Lived, Configured, Gateway.Authorize, Gateway.EndpointDenied, ActivePlan, Served, WithinPro;
    RevivedIsServed(w, v, env, k, a, t);
    SameKeySameCredential(w.s, v.s, a, t);
    hide PresentedKey;
    StandingAndServedIsOk(v, env, a, k, t);
  }

  /** A live key with an endpoint can be ok again, however its account is locked. */
  lemma LiveKeyComesBack(w: World, env: Env, a: Gateway.AuthArgs, now: nat, k: KeyId, t: nat)
    requires Configured(env) && Lived(w) && w.h.clock == now && now + MINUTE_MS <= t
    requires PresentedKey(w.s, a, t) == Some(k) && k in w.s.keys && Lives(w.s.keys[k], t) && !Idle(w.s.keys[k])
    requires WithinPro(w, w.s.keys[k].userId, t)
    ensures ComesBack(w, env, a)
  {
    hide Run, Possible, Revival, Lived, Lives, Configured, Gateway.Authorize, Gateway.EndpointDenied, Idle,
      PresentedKey, ActivePlan, ComesBack, WithinPro;
    var p := Unused(w.s.payments.Keys);
    var intents := set q | q in w.s.payments :: w.s.payments[q].intent;
    var intent := Unused(intents);
    assert forall q :: q in w.s.payments ==> w.s.payments[q].intent in intents;
    var e := AnEndpoint(w.s.keys[k]);
    var b := a.(endpoint := Some(e));
    var run := Revival(w.s.keys[k].userId, p, intent, now, t);
    Revived(w, env, k, p, intent, now, t);
    assert PresentedKey(w.s, b, t) == Some(k) by { SameCredential(w.s, a, b, t); }
    RevivedIsOk(w, Run(w, env, run), env, k, b, t);
    OkAgain(w, env, run, a, b, t);
  }

  lemma SameCredential(s: State, a: Gateway.AuthArgs, b: Gateway.AuthArgs, now: nat)
    requires b.kind == a.kind && b.hash == a.hash
    ensures PresentedKey(s, b, now) == PresentedKey(s, a, now)
  {
  }

  lemma PresentsItsKey(w: World, a: Gateway.AuthArgs, now: nat, k: KeyId)
    requires Sound(w) && PresentedKey(w.s, a, now) == Some(k) && k in w.s.keys
    ensures Idle(w.s.keys[k]) ==> Useless(w, a.kind, a.hash)
  {
    FindKeyIsUnique(w, a.hash);
  }

  /** In any reachable world, let a credential be answered `revoked` that lives until some time t, a minute or more
      ahead, in whose month the account has not used up the largest plan. It can be answered ok again exactly when
      its key is not revoked itself and has an endpoint. */
  lemma RevokedComesBackIff(env: Env, before: seq<Event>, a: Gateway.AuthArgs, now: nat, k: KeyId, t: nat)
    requires Configured(env) && Possible(EMPTY, env, before) && now + MINUTE_MS <= t
    requires var w := Run(EMPTY, env, before);
             w.h.clock == now && PresentedKey(w.s, a, now) == PresentedKey(w.s, a, t) == Some(k)
             && k in w.s.keys && (w.s.keys[k].expiresAt.Some? ==> w.s.keys[k].expiresAt.value > t)
             && WithinPro(w, w.s.keys[k].userId, t)
             && Gateway.Authorize(w.s, env, a, now).1.status == Gateway.Revoked
    ensures var w := Run(EMPTY, env, before);
            ComesBack(w, env, a) <==> w.s.keys[k].revokedAt.None? && !Idle(w.s.keys[k])
  {
    var w := Run(EMPTY, env, before);
    EmptyIsLived();
    LivedRun(EMPTY, env, before);
    hide Run, Possible, ComesBack, Idle, WithinPro;
    if w.s.keys[k].revokedAt.Some? {
      FinalMeansDead(w, env, a, now);
      assert AfterAnswer(w, now) == w;
      DeadNeverComesBack(w, env, a);
    } else if Idle(w.s.keys[k]) {
      PresentsItsKey(w, a, now, k);
      UselessNeverComesBack(w, env, a);
    } else {
      LiveKeyComesBack(w, env, a, now, k, t);
    }
  }

  /** A credential with a month to live has such a time. */
  lemma AMonthIsEnough(w: World, u: UserId, t: nat)
    requires QuotaLedger.Ledger(w) && w.h.clock + MONTH_MS <= t
    ensures WithinPro(w, u, t)
  {
    NextMonthIsUncharged(w, u, false, t);
  }

  // ---- `invalid`

  lemma NewKeyComesBack(w: World, env: Env, a: Gateway.AuthArgs)
    requires Configured(env) && Lived(w) && a.kind == Gateway.KeyCredential && a.hash !in w.h.issued
    ensures ComesBack(w, env, a)
  {
    hide Run, Possible, Enrolment, Configured, Gateway.Authorize, PresentedKey, Served, ComesBack;
    var u := Unused(w.s.users.Keys);
    var k := Unused(w.s.keys.Keys);
    var t := w.h.clock + MINUTE_MS;
    var run := Enrolment(u, k, a.hash, false, t);
    var v := Run(w, env, run);
    Enrolled(w, env, u, k, a.hash, false, t);
    LivedRun(w, env, run);
    NewKeyIsServed(w, v, env, u, k, Geocoding(a), a.hash, false, t, t);
    PresentsKey(v, k, Geocoding(a), t);
    hide Sound, QuotaLedger.Ledger, RateLedger.RowsArePast;
    StandingAndServedIsOk(v, env, Geocoding(a), k, t);
    OkAgain(w, env, run, a, Geocoding(a), t);
  }

  lemma PresentsKey(v: World, k: KeyId, a: Gateway.AuthArgs, now: nat)
    requires Sound(v) && k in v.s.keys && v.s.keys[k].keyHash == a.hash && a.kind == Gateway.KeyCredential
    ensures PresentedKey(v.s, a, now) == Some(k)
  {
    FindKeyIsUnique(v, a.hash);
  }

  const TOKEN_TTL_MS: nat := 15 * MINUTE_MS

  /** A token for a new key is served as the key is. */
  lemma NewTokenIsOk(w: World, v: World, env: Env, u: UserId, k: KeyId, h: Hash, a: Gateway.AuthArgs, t: nat)
    requires Lived(w) && Lived(v) && Configured(env) && u !in w.s.users && k !in w.s.keys
    requires HasEnrolled(w, v, u, k, h, false, t) && w.h.clock + MINUTE_MS <= t
    requires a.kind == Gateway.PlaygroundCredential && a.endpoint == Some("geocode") && a.hash !in v.h.issued
    ensures var step := InsertToken(a.hash, PlaygroundToken(k, u, t + TOKEN_TTL_MS), {});
            Enabled(v, env, step, t) && Advance(v, env, step, t).h.clock == t
            && Gateway.Authorize(Advance(v, env, step, t).s, env, a, t).1.status == Gateway.Ok
  {
    var step := InsertToken(a.hash, PlaygroundToken(k, u, t + TOKEN_TTL_MS), {});
    var x := Advance(v, env, step, t);
    hide Served;
    NewKeyIsServed(w, v, env, u, k, a, h, false, t, t);
    NoTokensYet(w, k);
    hide Lived, Configured, Advance, Enabled, Gateway.Authorize, PresentedKey;
    TokenInserted(v, env, step, t);
    PresentsToken(x.s, a, t, k);
    ServedAlike(v.s, x.s, env, k, a, t);
    StandingAndServedIsOk(x, env, a, k, t);
  }

  lemma PresentsToken(s: State, a: Gateway.AuthArgs, now: nat, k: KeyId)
    requires a.kind == Gateway.PlaygroundCredential && a.hash in s.tokens && s.tokens[a.hash].apiKeyId == k
    requires s.tokens[a.hash].expiresAt > now && k in s.keys && s.keys[k].userId == s.tokens[a.hash].userId
    ensures PresentedKey(s, a, now) == Some(k)
  {
  }

  lemma ServedAlike(s: State, x: State, env: Env, k: KeyId, a: Gateway.AuthArgs, t: nat)
    requires k in s.keys && s.keys[k].userId in s.users && Served(s, env, k, a, t)
    requires x.keys == s.keys && x.users == s.users && x.rate == s.rate && x.quota == s.quota
    ensures Served(x, env, k, a, t)
  {
  }

  lemma TokenAfterEnrolment(w: World, env: Env, u: UserId, k: KeyId, h: Hash, a: Gateway.AuthArgs, t: nat)
    requires Configured(env) && Lived(w) && a.kind == Gateway.PlaygroundCredential && a.hash !in w.h.issued
    requires u !in w.s.users && k !in w.s.keys && h !in w.h.issued && h != a.hash && t == w.h.clock + MINUTE_MS
    ensures ComesBack(w, env, a)
  {
    hide Run, Possible, Enrolment, Configured, Gateway.Authorize, ComesBack, HasEnrolled, Advance, Enabled;
    var enrol := Enrolment(u, k, h, false, t);
    var v := Run(w, env, enrol);
    assert Lived(v) && HasEnrolled(w, v, u, k, h, false, t) && Possible(w, env, enrol) by {
      Enrolled(w, env, u, k, h, false, t);
      LivedRun(w, env, enrol);
    }
    hide Lived;
    assert a.hash !in v.h.issued by { IssuedByEnrolment(w, v, u, k, h, t); }
    NewTokenIsOk(w, v, env, u, k, h, Geocoding(a), t);
    var e := Event(InsertToken(a.hash, PlaygroundToken(k, u, t + TOKEN_TTL_MS), {}), t);
    OneEvent(v, env, e);
    Joined(w, env, enrol, [e]);
    OkAgain(w, env, enrol + [e], a, Geocoding(a), t);
  }

  lemma IssuedByEnrolment(w: World, v: World, u: UserId, k: KeyId, h: Hash, t: nat)
    requires HasEnrolled(w, v, u, k, h, false, t)
    ensures v.h.issued == w.h.issued + {h}
  {
  }

  lemma NewTokenComesBack(w: World, env: Env, a: Gateway.AuthArgs)
    requires Configured(env) && Lived(w) && a.kind == Gateway.PlaygroundCredential && a.hash !in w.h.issued
    ensures ComesBack(w, env, a)
  {
    hide Configured, Lived, ComesBack;
    var u := Unused(w.s.users.Keys);
    var k := Unused(w.s.keys.Keys);
    var h := Unused(w.h.issued + {a.hash});
    TokenAfterEnrolment(w, env, u, k, h, a, w.h.clock + MINUTE_MS);
  }

  /** In any reachable world, a credential answered `invalid` can be answered ok later exactly when its hash has
      never been issued. */
  lemma InvalidComesBackIff(env: Env, before: seq<Event>, a: Gateway.AuthArgs, now: nat)
    requires Configured(env) && Possible(EMPTY, env, before)
    requires Run(EMPTY, env, before).h.clock == now
    requires Gateway.Authorize(Run(EMPTY, env, before).s, env, a, now).1.status == Gateway.Invalid
    ensures var w := Run(EMPTY, env, before); ComesBack(w, env, a) <==> a.hash !in w.h.issued
  {
    var w := Run(EMPTY, env, before);
    EmptyIsLived();
    LivedRun(EMPTY, env, before);
    hide Run, Possible, ComesBack;
    if a.hash in w.h.issued {
      InvalidAndIssuedIsDead(w, env, a, now);
      DeadNeverComesBack(w, env, a);
    } else if a.kind == Gateway.KeyCredential {
      NewKeyComesBack(w, env, a);
    } else {
      NewTokenComesBack(w, env, a);
    }
  }
}
