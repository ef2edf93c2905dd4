/** The whole platform as one state machine. Every mutation is atomic, so a run is a list of
    steps; the time of each step is no earlier than that of the step before. A World pairs the
    stored tables with the history of what has happened, which the source does not store. */
module Machine {
  import opened Wrappers
  import opened Calendar
  import opened Tables
  import opened Plans
  import Gateway
  import Payments
  import Keys
  import Usage

  const BATCH: nat := 1000
  const QUOTA_RETENTION_MS: nat := 400 * DAY_MS
  const RATE_RETENTION_MS: nat := 5 * MINUTE_MS

  /** The rows one pruning step deletes. */
  datatype Victims = Victims(rate: set<RateKey>, tokens: set<Hash>, requests: set<nat>, quota: set<QuotaKey>)

  datatype Step =
    | SignUp(user: UserId, isSystem: bool)
    | Authorize(auth: Gateway.AuthArgs)
    | AuthorizeDemo(demo: Gateway.DemoArgs)
    | ActivateFreeTier(user: UserId)
    | RecordPending(newPayment: PaymentId, user: UserId, plan: PaidPlan, intent: string)
    | Settle(intent: string, outcome: Payments.Outcome, amount: int, currency: string)
    | CheckIntent(intent: string, wire: Payments.WireIntent)
    | InsertKey(newKey: KeyId, user: UserId, hash: Hash, endpoints: seq<string>, expiresAt: Option<nat>)
    | InsertSiteKey(newKey: KeyId, user: UserId, hash: Hash)
    | Revoke(user: UserId, key: KeyId)
    | RevokeKey(key: KeyId)
    | ReplaceSecret(key: KeyId, user: UserId, hash: Hash)
    | InsertToken(hash: Hash, token: PlaygroundToken, dropped: set<Hash>)
    | LockUser(user: UserId)
    | EnableUser(user: UserId)
    | RecordUsage(entries: seq<Usage.Entry>)
    | Prune(victims: Victims)

  // ---- What the source stores -------------------------------------------------------------

  function ExpiredRate(rate: map<RateKey, nat>, now: nat): set<RateKey> {
    set k | k in rate && k.windowStart < now - RATE_RETENTION_MS
  }

  function ExpiredTokens(tokens: map<Hash, PlaygroundToken>, now: nat): set<Hash> {
    set h | h in tokens && tokens[h].expiresAt < now
  }

  function ExpiredRequests(requests: map<nat, Request>, env: Env, now: nat): set<nat> {
    set i | i in requests && requests[i].timestamp < (now - env.retentionMs) as real
  }

  function ExpiredQuota(quota: map<QuotaKey, nat>, now: nat): set<QuotaKey> {
    set k | k in quota && k.start < now - QUOTA_RETENTION_MS
  }

  function PruneState(s: State, v: Victims): State {
    s.(rate := s.rate - v.rate, tokens := s.tokens - v.tokens, requests := s.requests - v.requests,
      quota := s.quota - v.quota)
  }

  ghost function InsertSiteKey(s: State, newKey: KeyId, user: UserId, hash: Hash, now: nat): State {
    // Rotating the site key revokes the previous ones.
    s.(keys := (map k | k in s.keys ::
                  if s.keys[k].userId == user && s.keys[k].isSiteKey then Keys.RevokedKey(s.keys[k], now)
                  else s.keys[k])
                 [newKey := ApiKey(user, hash, None, None, true, None, None, None)])
  }

  /** Steps of the key tables. */
  predicate KeyStep(step: Step) {
    step.InsertKey? || step.InsertSiteKey? || step.Revoke? || step.RevokeKey? || step.ReplaceSecret?
      || step.InsertToken?
    || step.LockUser? || step.EnableUser?
  }

  /** Steps of billing. */
  predicate BillingStep(step: Step) {
    step.ActivateFreeTier? || step.RecordPending? || step.Settle? || step.CheckIntent?
  }

  ghost function NextKeys(s: State, step: Step, now: nat): State
    requires KeyStep(step)
  {
    match step
    case InsertKey(k, u, h, es, x) => Keys.InsertKey(s, k, u, h, es, x, now).0
    case InsertSiteKey(k, u, h) => InsertSiteKey(s, k, u, h, now)
    case Revoke(u, k) => Keys.Revoke(s, u, k, now)
    case RevokeKey(k) => Keys.RevokeKey(s, k, now)
    case ReplaceSecret(k, u, h) => Keys.ReplaceSecret(s, k, u, h, now)
    case InsertToken(h, t, d) => Keys.InsertToken(s, h, t, d, now)
    case LockUser(u) => Keys.LockUser(s, u, now)
    case EnableUser(u) => Keys.EnableUser(s, u)
  }

  ghost function NextBilling(s: State, step: Step, now: nat): State
    requires BillingStep(step)
  {
    match step
    case ActivateFreeTier(u) => Payments.ActivateFreeTier(s, u, now)
    case RecordPending(p, u, plan, intent) => Payments.RecordPending(s, p, u, plan, intent, now).0
    case Settle(intent, o, amount, currency) => Payments.Settle(s, intent, o, amount, currency, now).0
    case CheckIntent(intent, w) => Payments.CheckIntent(s, intent, w, now)
  }

  /** The tables after a step. */
  ghost function Next(s: State, env: Env, step: Step, now: nat): State {
    if KeyStep(step) then NextKeys(s, step, now)
    else if BillingStep(step) then NextBilling(s, step, now)
    else match step
      case SignUp(u, sys) => s.(users := s.users[u := User(sys, None, None, None, None, None)])
      case Authorize(a) => Gateway.Authorize(s, env, a, now).0
      case AuthorizeDemo(d) => Gateway.AuthorizeDemo(s, d, now).0
      case RecordUsage(es) => Usage.RecordUsage(s, es, now).0
      case Prune(v) => PruneState(s, v)
  }

  // ---- History ------------------------------------------------------------------------------

  /** One customer request answered ok. */
  datatype Charge = Charge(key: KeyId, user: UserId, endpoint: string, free: bool, at: nat)

  /** One settled payment: plan time [from, to) bought by `payment`. */
  datatype Granted = Granted(user: UserId, plan: PaidPlan, from: nat, to: nat, at: nat, payment: PaymentId)

  datatype History = History(
    clock: nat,
    issued: set<Hash>,
    charges: seq<Charge>,
    grants: seq<Granted>,
    accepted: seq<Request>)

  datatype World = World(s: State, h: History)

  /** The charge an answer stands for: only customer traffic answered ok is charged. */
  function ChargeOf(s: State, a: Gateway.AuthArgs, r: Gateway.Answer, now: nat): seq<Charge> {
    if r.status == Gateway.Ok && r.principal.Some? && !r.principal.value.isSiteKey
      && r.principal.value.user in s.users then
      var p := r.principal.value;
      [Charge(p.key, p.user, Gateway.EndpointName(a.endpoint), ActivePlan(s.users[p.user], now).None?, now)]
    else []
  }

  ghost function GrantOf(s: State, intent: string, o: Payments.Outcome, amount: int, currency: string,
                         now: nat): seq<Granted> {
    if Payments.Settles(s, intent, amount, currency) && o == Payments.WireSucceeded then
      var p := Payments.FindPayment(s.payments, intent).id;
      var pay := s.payments[p];
      if pay.userId in s.users then
        var from := Payments.GrantStart(s.users[pay.userId], now);
        [Granted(pay.userId, pay.plan, from, from + PLAN_DURATION_MS, now, p)]
      else []
    else []
  }

  ghost function Grants(s: State, step: Step, now: nat): seq<Granted> {
    match step
    case Settle(intent, o, amount, currency) => GrantOf(s, intent, o, amount, currency, now)
    case CheckIntent(intent, w) =>
      if w.id == intent && w.status == "succeeded"
      then GrantOf(s, intent, Payments.WireSucceeded, w.amount, w.currency, now) else []
    case _ => []
  }

  function Issued(step: Step): set<Hash> {
    match step
    case InsertKey(_, _, h, _, _) => {h}
    case InsertSiteKey(_, _, h) => {h}
    case ReplaceSecret(_, _, h) => {h}
    case InsertToken(h, _, _) => {h}
    case _ => {}
  }

  ghost function Observe(w: World, env: Env, step: Step, now: nat): History {
    History(
      now,
      w.h.issued + Issued(step),
      w.h.charges + (if step.Authorize?
        then ChargeOf(w.s, step.auth, Gateway.Authorize(w.s, env, step.auth, now).1, now) else []),
      w.h.grants + Grants(w.s, step, now),
      w.h.accepted + (if step.RecordUsage? then
                        Usage.Accepted(w.s.keys, step.entries[..Min(Usage.MAX_USAGE_ENTRIES, |step.entries|)], now)
                      else []))
  }

  ghost function Advance(w: World, env: Env, step: Step, now: nat): World {
    World(Next(w.s, env, step, now), Observe(w, env, step, now))
  }

  // ---- Which steps can happen ------------------------------------------------------------

  /** A batch of the oldest rows: all of them, or the first thousand in index order. */
  ghost predicate OldestBatch<T(!new)>(expired: set<T>, victims: set<T>, age: T -> real) {
    victims <= expired
    && |victims| <= BATCH
    && (victims != expired ==> |victims| == BATCH)
    && (forall v, e | v in victims && e in expired - victims :: age(v) <= age(e))
  }

  // The columns the pruning indexes are ordered by.

  function RateAge(): RateKey -> real {
    (k: RateKey) => k.windowStart as real
  }

  function TokenAge(tokens: map<Hash, PlaygroundToken>): Hash -> real {
    (h: Hash) => if h in tokens then tokens[h].expiresAt as real else 0.0
  }

  function RequestAge(requests: map<nat, Request>): nat -> real {
    (i: nat) => if i in requests then requests[i].timestamp else 0.0
  }

  function QuotaAge(): QuotaKey -> real {
    (k: QuotaKey) => k.start as real
  }

  ghost predicate PruneVictims(s: State, env: Env, v: Victims, now: nat) {
    && OldestBatch(ExpiredRate(s.rate, now), v.rate, RateAge())
    && OldestBatch(ExpiredTokens(s.tokens, now), v.tokens, TokenAge(s.tokens))
    && OldestBatch(ExpiredRequests(s.requests, env, now), v.requests, RequestAge(s.requests))
    && OldestBatch(ExpiredQuota(s.quota, now), v.quota, QuotaAge())
  }

  /** New documents get unused ids, new secrets have unused hashes, and a playground token is
      made for a key by its owner; everything else is allowed at any time. */
  ghost predicate Enabled(w: World, env: Env, step: Step, now: nat) {
    && w.h.clock <= now
    && Issued(step) !! w.h.issued
    && match step
       case SignUp(u, _) => u !in w.s.users
       case RecordPending(p, u, _, _) => p !in w.s.payments && u in w.s.users
       case InsertKey(k, _, _, _, _) => k !in w.s.keys
       case InsertSiteKey(k, u, _) => k !in w.s.keys && u in w.s.users
       case InsertToken(h, t, d) =>
         t.apiKeyId in w.s.keys && w.s.keys[t.apiKeyId].userId == t.userId && Keys.Oldest(w.s.tokens, t.apiKeyId, d)
       case Prune(v) => PruneVictims(w.s, env, v, now)
       case _ => true
  }

  const EMPTY := World(
    State(map[], map[], map[], map[], map[], map[], map[], 0, map[]),
    History(0, {}, [], [], []))

  datatype Event = Event(step: Step, now: nat)

  /** The run is possible from w, step by step. */
  ghost predicate Possible(w: World, env: Env, run: seq<Event>)
    decreases run
  {
    run == [] || (Enabled(w, env, run[0].step, run[0].now) &&
                  Possible(Advance(w, env, run[0].step, run[0].now), env, run[1..]))
  }

  ghost function Run(w: World, env: Env, run: seq<Event>): World
    decreases run
  {
    if run == [] then w else Run(Advance(w, env, run[0].step, run[0].now), env, run[1..])
  }

  /** Runs grow at either end. */
  lemma Then(w: World, env: Env, e: Event, rest: seq<Event>)
    ensures Run(w, env, [e] + rest) == Run(Advance(w, env, e.step, e.now), env, rest)
    ensures Possible(w, env, [e] + rest) <==>
            Enabled(w, env, e.step, e.now) && Possible(Advance(w, env, e.step, e.now), env, rest)
  {
    assert ([e] + rest)[1..] == rest;
  }

  lemma OneEvent(w: World, env: Env, e: Event)
    ensures Run(w, env, [e]) == Advance(w, env, e.step, e.now)
    ensures Possible(w, env, [e]) <==> Enabled(w, env, e.step, e.now)
  {
    hide Enabled, Advance;
    assert [e] == [e] + [];
    Then(w, env, e, []);
  }

  lemma {:induction false} Joined(w: World, env: Env, a: seq<Event>, b: seq<Event>)
    ensures Run(w, env, a + b) == Run(Run(w, env, a), env, b)
    ensures Possible(w, env, a + b) <==> Possible(w, env, a) && Possible(Run(w, env, a), env, b)
    decreases a
  {
    hide Enabled, Advance;
    if a == [] {
      assert a + b == b;
    } else {
      assert a + b == [a[0]] + (a[1..] + b) && a == [a[0]] + a[1..];
      Then(w, env, a[0], a[1..] + b);
      Joined(Advance(w, env, a[0].step, a[0].now), env, a[1..], b);
    }
  }

  // ---- The invariant every step keeps that later theorems build on ---------------------------

  /** Ownership and freshness facts that hold in every reachable state. */
  ghost predicate Sound(w: World) {
    KeysSound(w) && TokensSound(w) && PaymentsSound(w)
  }

  ghost predicate KeysSound(w: World) {
    && (forall k :: k in w.s.keys ==> w.s.keys[k].userId in w.s.users && w.s.keys[k].keyHash in w.h.issued)
    && (forall j, k :: j in w.s.keys && k in w.s.keys && w.s.keys[j].keyHash == w.s.keys[k].keyHash ==> j == k)
  }

  ghost predicate TokensSound(w: World) {
    && (forall t :: t in w.s.tokens ==> t in w.h.issued && w.s.tokens[t].apiKeyId in w.s.keys
                                        && w.s.keys[w.s.tokens[t].apiKeyId].userId == w.s.tokens[t].userId)
  }

  ghost predicate PaymentsSound(w: World) {
    && (forall p :: p in w.s.payments ==> w.s.payments[p].userId in w.s.users)
    && (forall p, q :: p in w.s.payments && q in w.s.payments && w.s.payments[p].intent == w.s.payments[q].intent ==>
       p == q)
  }

  /** A unique-index read never fails: two keys never share a hash. */
  lemma FindKeyIsUnique(w: World, h: Hash)
    requires Sound(w)
    ensures var l := Gateway.FindKey(w.s.keys, h);
            l != Gateway.Duplicate
            && (l == Gateway.Absent <==> forall k :: k in w.s.keys ==> w.s.keys[k].keyHash != h)
            && (forall k :: l == Gateway.Found(k) <==> k in w.s.keys && w.s.keys[k].keyHash == h)
  {
    var ks := Gateway.KeysWithHash(w.s.keys, h);
    if ks != {} {
      var k :| k in ks;
      assert ks == {k};
    } else {
      assert forall k :: k in w.s.keys ==> w.s.keys[k].keyHash != h by {
        forall k | k in w.s.keys ensures w.s.keys[k].keyHash != h {
          assert k !in ks;
        }
      }
    }
  }

  /** Each payment intent has at most one row. */
  lemma FindPaymentIsUnique(w: World, intent: string)
    requires Sound(w)
    ensures var l := Payments.FindPayment(w.s.payments, intent);
            l != Payments.ManyPayments
            && (l == Payments.NoPayment <==> forall p :: p in w.s.payments ==> w.s.payments[p].intent != intent)
            && (forall p :: l == Payments.OnePayment(p) <==> p in w.s.payments && w.s.payments[p].intent == intent)
  {
    var ps := Payments.PaymentsFor(w.s.payments, intent);
    if ps != {} {
      var p :| p in ps;
      assert ps == {p};
    } else {
      forall p | p in w.s.payments ensures w.s.payments[p].intent != intent {
        assert p !in ps;
      }
    }
  }

  predicate SameUsage(s: State, t: State) {
    t.requests == s.requests && t.nextRow == s.nextRow && t.usageDaily == s.usageDaily
  }

  lemma ApplyFrame(s: State, u: UserId, d: Gateway.Decision)
    requires u in s.users
    ensures var t := Gateway.Apply(s, u, d);
            SameUsage(s, t) && t.keys == s.keys && t.tokens == s.tokens && t.payments == s.payments
              && FreeCountsOnly(s.users, t.users)
  {
  }

  /** Authorization counts requests and touches nothing else. */
  lemma AuthorizeFrame(s: State, env: Env, a: Gateway.AuthArgs, now: nat)
    ensures var t := Gateway.Authorize(s, env, a, now).0;
            SameUsage(s, t) && t.keys == s.keys && t.tokens == s.tokens && t.payments == s.payments
              && FreeCountsOnly(s.users, t.users)
  {
    hide Gateway.Decide, Gateway.Apply, Gateway.Screen;
    match Gateway.Screen(s, a.kind, a.hash, now)
    case Rejected(_) =>
    case Passed(k, via) =>
      if k in s.keys && s.keys[k].userId in s.users {
        ApplyFrame(s, s.keys[k].userId, Gateway.Decide(s, env, k, via, a, now));
      }
  }

  predicate SamePlan(a: User, b: User) {
    b.plan == a.plan && b.planExpiresAt == a.planExpiresAt && b.isSystem == a.isSystem
  }

  predicate SameFree(a: User, b: User) {
    b.freeTierActivatedAt == a.freeTierActivatedAt && b.freeRequestsUsed == a.freeRequestsUsed
  }

  predicate SameLock(a: User, b: User) {
    b.disabledAt == a.disabledAt && b.isSystem == a.isSystem
  }

  /** Accounts change in nothing but their plan. */
  ghost predicate PlansOnly(s: map<UserId, User>, t: map<UserId, User>) {
    t.Keys == s.Keys
    && forall u :: u in s ==> SameLock(s[u], t[u]) && SameFree(s[u], t[u])
  }

  ghost predicate LocksOnly(s: map<UserId, User>, t: map<UserId, User>) {
    t.Keys == s.Keys && forall u :: u in s ==> SamePlan(s[u], t[u]) && SameFree(s[u], t[u])
  }

  ghost predicate FreeCountsOnly(s: map<UserId, User>, t: map<UserId, User>) {
    t.Keys == s.Keys && forall u :: u in s ==>
      SamePlan(s[u], t[u]) && SameLock(s[u], t[u]) && t[u].freeTierActivatedAt == s[u].freeTierActivatedAt
  }

  ghost predicate KeyTablesOnly(s: State, t: State) {
    SameUsage(s, t) && t.payments == s.payments && t.rate == s.rate && t.quota == s.quota && LocksOnly(s.users, t.users)
  }

  lemma InsertKeyFrame(s: State, k: KeyId, u: UserId, h: Hash, es: seq<string>, x: Option<nat>, now: nat)
    ensures KeyTablesOnly(s, Keys.InsertKey(s, k, u, h, es, x, now).0)
  {
    hide HasKeyAccess, Keys.KeysOf, Keys.ActiveKeysOf;
  }

  lemma RevokeKeyFrame(s: State, k: KeyId, now: nat)
    ensures KeyTablesOnly(s, Keys.RevokeKey(s, k, now))
  {
    assert LocksOnly(s.users, Keys.RevokeKey(s, k, now).users);
  }

  lemma ReplaceSecretFrame(s: State, k: KeyId, u: UserId, h: Hash, now: nat)
    ensures KeyTablesOnly(s, Keys.ReplaceSecret(s, k, u, h, now))
  {
    assert LocksOnly(s.users, Keys.ReplaceSecret(s, k, u, h, now).users);
  }

  lemma InsertTokenFrame(s: State, h: Hash, t: PlaygroundToken, d: set<Hash>, now: nat)
    ensures KeyTablesOnly(s, Keys.InsertToken(s, h, t, d, now))
  {
    assert LocksOnly(s.users, Keys.InsertToken(s, h, t, d, now).users);
  }

  lemma LockUserFrame(s: State, u: UserId, now: nat)
    ensures KeyTablesOnly(s, Keys.LockUser(s, u, now))
  {
    if u in s.users {
      var t := s.users[u := s.users[u].(disabledAt := Some(now))];
      assert LocksOnly(s.users, t);
    }
  }

  lemma EnableUserFrame(s: State, u: UserId)
    ensures KeyTablesOnly(s, Keys.EnableUser(s, u))
  {
    if u in s.users {
      var t := s.users[u := s.users[u].(disabledAt := None)];
      assert LocksOnly(s.users, t);
    }
  }

  /** Key steps touch the key tables and whether an account is locked. */
  lemma KeysFrame(s: State, step: Step, now: nat)
    requires KeyStep(step)
    ensures KeyTablesOnly(s, NextKeys(s, step, now))
  {
    hide Keys.InsertKey, Keys.RevokeKey, Keys.ReplaceSecret, Keys.InsertToken, Keys.LockUser, Keys.EnableUser;
    match step
    case InsertKey(k, u, h, es, x) => InsertKeyFrame(s, k, u, h, es, x, now);
    case InsertSiteKey(_, _, _) =>
    case Revoke(_, k) => RevokeKeyFrame(s, k, now);
    case RevokeKey(k) => RevokeKeyFrame(s, k, now);
    case ReplaceSecret(k, u, h) => ReplaceSecretFrame(s, k, u, h, now);
    case InsertToken(h, t, d) => InsertTokenFrame(s, h, t, d, now);
    case LockUser(u) => LockUserFrame(s, u, now);
    case EnableUser(u) => EnableUserFrame(s, u);
  }

  ghost predicate BillingTablesOnly(s: State, t: State) {
    SameUsage(s, t) && t.keys == s.keys && t.tokens == s.tokens && t.rate == s.rate && t.quota == s.quota
    && t.users.Keys == s.users.Keys
  }

  lemma SettleFrame(s: State, intent: string, o: Payments.Outcome, amount: int, currency: string, now: nat)
    ensures var t := Payments.Settle(s, intent, o, amount, currency, now).0;
            BillingTablesOnly(s, t) && PlansOnly(s.users, t.users)
  {
    hide Payments.FindPayment;
    assert PlansOnly(s.users, Payments.Settle(s, intent, o, amount, currency, now).0.users);
  }

  lemma CheckIntentFrame(s: State, intent: string, wire: Payments.WireIntent, now: nat)
    ensures var t := Payments.CheckIntent(s, intent, wire, now);
            BillingTablesOnly(s, t) && PlansOnly(s.users, t.users)
  {
    hide Payments.Settle;
    SettleFrame(s, intent, Payments.WireSucceeded, wire.amount, wire.currency, now);
    SettleFrame(s, intent, Payments.WireFailed, wire.amount, wire.currency, now);
  }

  lemma RecordPendingFrame(s: State, p: PaymentId, u: UserId, plan: PaidPlan, intent: string, now: nat)
    ensures var t := Payments.RecordPending(s, p, u, plan, intent, now).0;
            BillingTablesOnly(s, t) && t.users == s.users
  {
  }

  lemma ActivateFrame(s: State, u: UserId, now: nat)
    ensures BillingTablesOnly(s, Payments.ActivateFreeTier(s, u, now))
  {
    assert Payments.ActivateFreeTier(s, u, now).users.Keys == s.users.Keys;
  }

  /** Billing steps touch accounts and payment rows. */
  lemma BillingFrame(s: State, step: Step, now: nat)
    requires BillingStep(step)
    ensures var t := NextBilling(s, step, now);
            BillingTablesOnly(s, t) && (!step.ActivateFreeTier? ==> PlansOnly(s.users, t.users))
  {
    hide Payments.Settle, Payments.CheckIntent, Payments.RecordPending, Payments.ActivateFreeTier;
    match step
    case ActivateFreeTier(u) => ActivateFrame(s, u, now);
    case RecordPending(p, u, plan, intent) => RecordPendingFrame(s, p, u, plan, intent, now);
    case Settle(intent, o, amount, currency) => SettleFrame(s, intent, o, amount, currency, now);
    case CheckIntent(intent, wire) => CheckIntentFrame(s, intent, wire, now);
  }

  lemma RecordUsageFrame(s: State, es: seq<Usage.Entry>, now: nat)
    ensures var t := Usage.RecordUsage(s, es, now).0;
            t.users == s.users && t.tokens == s.tokens && t.payments == s.payments && t.rate == s.rate
              && t.quota == s.quota
  {
  }

  /** Each step touches only the tables of its own kind. */
  lemma Frame(w: World, env: Env, step: Step, now: nat)
    ensures var s, t := w.s, Next(w.s, env, step, now);
            (!step.Authorize? && !step.Prune? ==> t.quota == s.quota)
            && (!step.Authorize? && !step.AuthorizeDemo? && !step.Prune? ==> t.rate == s.rate)
            && (!step.RecordUsage? ==> t.usageDaily == s.usageDaily && t.nextRow == s.nextRow)
            && (!step.RecordUsage? && !step.Prune? ==> t.requests == s.requests)
            && (!BillingStep(step) ==> t.payments == s.payments)
            && (!KeyStep(step) && !step.Prune? ==> t.tokens == s.tokens)
            && (!KeyStep(step) && !step.RecordUsage? ==> t.keys == s.keys)
            && (!step.SignUp? ==> t.users.Keys == s.users.Keys)
            && (KeyStep(step) ==> LocksOnly(s.users, t.users))
            && (step.Authorize? ==> FreeCountsOnly(s.users, t.users))
            && (BillingStep(step) && !step.ActivateFreeTier? ==> PlansOnly(s.users, t.users))
            && (step.SignUp? ==> t.users == s.users[step.user := User(step.isSystem, None, None, None, None, None)])
            && (step.RecordUsage? || step.Prune? || step.AuthorizeDemo? ==> t.users == s.users)
  {
    hide NextKeys, NextBilling, Gateway.Authorize, Usage.RecordUsage;
    if KeyStep(step) {
      KeysFrame(w.s, step, now);
    } else if BillingStep(step) {
      BillingFrame(w.s, step, now);
    } else if step.Authorize? {
      AuthorizeFrame(w.s, env, step.auth, now);
    } else if step.RecordUsage? {
      RecordUsageFrame(w.s, step.entries, now);
    }
  }

  // ---- How the key, token and payment tables evolve ------------------------------------------

  predicate DeadRow(key: ApiKey, now: nat) {
    key.revokedAt.Some? || (key.expiresAt.Some? && key.expiresAt.value <= now)
  }

  /** A key keeps its owner, endpoints and expiry, is never un-revoked, and can change its hash only
      to a new one and only while it is neither revoked nor expired. */
  predicate KeyEvolved(old_: ApiKey, new_: ApiKey, issued: set<Hash>, now: nat) {
    new_.userId == old_.userId && new_.endpoints == old_.endpoints && new_.expiresAt == old_.expiresAt
    && new_.isSiteKey == old_.isSiteKey
    && (old_.revokedAt.Some? ==> new_.revokedAt == old_.revokedAt)
    && (new_.keyHash == old_.keyHash || (new_.keyHash in issued && !DeadRow(old_, now)))
  }

  ghost predicate KeysEvolved(s: State, t: State, issued: set<Hash>, now: nat) {
    && (forall k :: k in s.keys ==> k in t.keys && KeyEvolved(s.keys[k], t.keys[k], issued, now))
    && (forall k :: k in t.keys && k !in s.keys ==> t.keys[k].keyHash in issued && t.keys[k].userId in s.users)
    && (forall j, k ::
          j in t.keys && k in t.keys && t.keys[j].keyHash == t.keys[k].keyHash && t.keys[k].keyHash in issued ==>
          j == k || (j in s.keys && s.keys[j].keyHash in issued) || (k in s.keys && s.keys[k].keyHash in issued))
  }

  lemma InsertKeyEvolves(s: State, k: KeyId, u: UserId, h: Hash, es: seq<string>, x: Option<nat>, now: nat)
    requires k !in s.keys
    ensures KeysEvolved(s, Keys.InsertKey(s, k, u, h, es, x, now).0, {h}, now)
  {
  }

  lemma InsertSiteKeyEvolves(s: State, k: KeyId, u: UserId, h: Hash, now: nat)
    requires k !in s.keys && u in s.users
    ensures KeysEvolved(s, InsertSiteKey(s, k, u, h, now), {h}, now)
  {
  }

  lemma RevokeKeyEvolves(s: State, k: KeyId, now: nat)
    ensures KeysEvolved(s, Keys.RevokeKey(s, k, now), {}, now)
  {
  }

  lemma ReplaceSecretEvolves(s: State, k: KeyId, u: UserId, h: Hash, now: nat)
    ensures KeysEvolved(s, Keys.ReplaceSecret(s, k, u, h, now), {h}, now)
  {
  }

  lemma LockUserEvolves(s: State, u: UserId, now: nat)
    ensures KeysEvolved(s, Keys.LockUser(s, u, now), {}, now)
  {
  }

  lemma RecordUsageEvolves(s: State, es: seq<Usage.Entry>, now: nat)
    ensures KeysEvolved(s, Usage.RecordUsage(s, es, now).0, {}, now)
  {
    var accepted := Usage.Accepted(s.keys, es[..Min(Usage.MAX_USAGE_ENTRIES, |es|)], now);
    var keys := Usage.TouchKeys(s.keys, accepted);
    assert keys.Keys == s.keys.Keys;
    assert forall k :: k in s.keys ==> keys[k] == s.keys[k].(lastUsedAt := keys[k].lastUsedAt);
  }

  lemma KeyStepEvolves(s: State, step: Step, now: nat)
    requires KeyStep(step)
    requires step.InsertKey? ==> step.newKey !in s.keys
    requires step.InsertSiteKey? ==> step.newKey !in s.keys && step.user in s.users
    ensures KeysEvolved(s, NextKeys(s, step, now), Issued(step), now)
  {
    hide KeysEvolved, Keys.InsertKey, Keys.RevokeKey, Keys.ReplaceSecret, Keys.LockUser, InsertSiteKey;
    match step
    case InsertKey(k, u, h, es, x) => InsertKeyEvolves(s, k, u, h, es, x, now);
    case InsertSiteKey(k, u, h) => InsertSiteKeyEvolves(s, k, u, h, now);
    case Revoke(u, k) =>
      RevokeKeyEvolves(s, k, now);
      SameKeysEvolve(s, s, {}, now);
    case RevokeKey(k) => RevokeKeyEvolves(s, k, now);
    case ReplaceSecret(k, u, h) => ReplaceSecretEvolves(s, k, u, h, now);
    case LockUser(u) => LockUserEvolves(s, u, now);
    case InsertToken(h, t, d) => SameKeysEvolve(s, NextKeys(s, step, now), {h}, now);
    case EnableUser(u) => SameKeysEvolve(s, NextKeys(s, step, now), {}, now);
  }

  lemma SameKeysEvolve(s: State, t: State, issued: set<Hash>, now: nat)
    requires t.keys == s.keys
    ensures KeysEvolved(s, t, issued, now)
  {
  }

  lemma KeysEvolve(w: World, env: Env, step: Step, now: nat)
    requires Enabled(w, env, step, now)
    ensures KeysEvolved(w.s, Next(w.s, env, step, now), Issued(step), now)
  {
    hide PruneVictims, Keys.Oldest, NextKeys, NextBilling, Usage.RecordUsage, KeysEvolved, Gateway.Authorize,
      Gateway.AuthorizeDemo;
    if KeyStep(step) {
      KeyStepEvolves(w.s, step, now);
    } else if step.RecordUsage? {
      RecordUsageEvolves(w.s, step.entries, now);
    } else {
      hide Next;
      Frame(w, env, step, now);
      SameKeysEvolve(w.s, Next(w.s, env, step, now), Issued(step), now);
    }
  }

  /** Tokens are only deleted, except for one new token made for a key by its owner. */
  ghost predicate TokensEvolved(s: State, t: State, issued: set<Hash>) {
    forall h :: h in t.tokens ==>
      (h in s.tokens && t.tokens[h] == s.tokens[h])
      || (h in issued && t.tokens[h].apiKeyId in s.keys && s.keys[t.tokens[h].apiKeyId].userId == t.tokens[h].userId)
  }

  lemma KeyTokensEvolve(w: World, env: Env, step: Step, now: nat)
    requires Enabled(w, env, step, now) && KeyStep(step)
    ensures TokensEvolved(w.s, NextKeys(w.s, step, now), Issued(step))
  {
  }

  lemma TokensEvolve(w: World, env: Env, step: Step, now: nat)
    requires Enabled(w, env, step, now)
    ensures TokensEvolved(w.s, Next(w.s, env, step, now), Issued(step))
  {
    hide NextKeys, NextBilling, Gateway.Authorize, Gateway.AuthorizeDemo, Usage.RecordUsage;
    if KeyStep(step) {
      KeyTokensEvolve(w, env, step, now);
    } else if !step.Prune? {
      Frame(w, env, step, now);
    }
  }

  predicate PaymentEvolved(p: Payment, q: Payment) {
    q.userId == p.userId && q.intent == p.intent && q.plan == p.plan && (p.status != Pending ==> q == p)
  }

  /** Payment rows keep their account, plan and intent; a settled row never changes; a new row has an
      intent no other row has. */
  ghost predicate RowsEvolved(users: set<UserId>, a: map<PaymentId, Payment>, b: map<PaymentId, Payment>) {
    && (forall p :: p in a ==> p in b && PaymentEvolved(a[p], b[p]))
    && (forall p :: p in b && p !in a ==> b[p].userId in users && b[p].status == Pending)
    && (forall p, q :: p in b && p !in a && q in b && b[p].intent == b[q].intent ==> p == q)
  }

  ghost predicate PaymentsEvolved(s: State, t: State) {
    RowsEvolved(s.users.Keys, s.payments, t.payments)
  }

  lemma RowChanged(users: set<UserId>, rows: map<PaymentId, Payment>, p: PaymentId, row: Payment)
    requires p in rows ==> PaymentEvolved(rows[p], row)
    requires p !in rows ==>
             row.userId in users && row.status == Pending && forall q :: q in rows ==> rows[q].intent != row.intent
    ensures RowsEvolved(users, rows, rows[p := row]) && RowsEvolved(users, rows, rows)
  {
  }

  lemma SettleEvolves(s: State, intent: string, o: Payments.Outcome, amount: int, currency: string, now: nat)
    ensures PaymentsEvolved(s, Payments.Settle(s, intent, o, amount, currency, now).0)
  {
    hide Payments.Grant, Payments.FindPayment, RowsEvolved;
    var l := Payments.FindPayment(s.payments, intent);
    NothingChanged(s.users.Keys, s.payments);
    if l.OnePayment? && s.payments[l.id].status == Pending {
      var row := s.payments[l.id];
      RowChanged(s.users.Keys, s.payments, l.id, row.(status := Failed));
      RowChanged(s.users.Keys, s.payments, l.id, row.(status := Succeeded, paidAt := Some(now)));
    }
  }

  lemma NothingChanged(users: set<UserId>, rows: map<PaymentId, Payment>)
    ensures RowsEvolved(users, rows, rows)
  {
  }

  lemma RecordPendingEvolves(w: World, p: PaymentId, u: UserId, plan: PaidPlan, intent: string, now: nat)
    requires Sound(w) && p !in w.s.payments && u in w.s.users
    ensures PaymentsEvolved(w.s, Payments.RecordPending(w.s, p, u, plan, intent, now).0)
  {
    FindPaymentIsUnique(w, intent);
    hide Sound, Payments.FindPayment, RowsEvolved;
    NothingChanged(w.s.users.Keys, w.s.payments);
    if Payments.FindPayment(w.s.payments, intent).NoPayment? {
      var row := Payment(u, plan, intent, PLAN_WIRE_AMOUNT, "MNT", Pending, now, None);
      RowChanged(w.s.users.Keys, w.s.payments, p, row);
    }
  }

  lemma CheckIntentEvolves(s: State, intent: string, wire: Payments.WireIntent, now: nat)
    ensures PaymentsEvolved(s, Payments.CheckIntent(s, intent, wire, now))
  {
    hide Payments.Settle;
    SettleEvolves(s, intent, Payments.WireSucceeded, wire.amount, wire.currency, now);
    SettleEvolves(s, intent, Payments.WireFailed, wire.amount, wire.currency, now);
  }

  lemma ActivateEvolves(s: State, u: UserId, now: nat)
    ensures PaymentsEvolved(s, Payments.ActivateFreeTier(s, u, now))
  {
  }

  lemma BillingEvolves(w: World, env: Env, step: Step, now: nat)
    requires Sound(w) && Enabled(w, env, step, now) && BillingStep(step)
    ensures PaymentsEvolved(w.s, NextBilling(w.s, step, now))
  {
    hide Payments.Settle, Payments.CheckIntent, Payments.RecordPending, Sound;
    match step
    case RecordPending(p, u, plan, intent) => RecordPendingEvolves(w, p, u, plan, intent, now);
    case Settle(intent, o, amount, currency) => SettleEvolves(w.s, intent, o, amount, currency, now);
    case CheckIntent(intent, wire) => CheckIntentEvolves(w.s, intent, wire, now);
    case ActivateFreeTier(u) => ActivateEvolves(w.s, u, now);
  }

  lemma PaymentsEvolve(w: World, env: Env, step: Step, now: nat)
    requires Sound(w) && Enabled(w, env, step, now)
    ensures PaymentsEvolved(w.s, Next(w.s, env, step, now))
  {
    hide NextKeys, NextBilling, Gateway.Authorize, Gateway.AuthorizeDemo, Usage.RecordUsage;
    if BillingStep(step) {
      BillingEvolves(w, env, step, now);
    } else {
      Frame(w, env, step, now);
    }
  }

  lemma KeysSoundEvolves(w: World, v: World, issued: set<Hash>, now: nat)
    requires KeysSound(w) && issued !! w.h.issued && v.h.issued == w.h.issued + issued
             && w.s.users.Keys <= v.s.users.Keys
    requires KeysEvolved(w.s, v.s, issued, now)
    ensures KeysSound(v)
  {
  }

  lemma TokensSoundEvolves(w: World, v: World, issued: set<Hash>, now: nat)
    requires TokensSound(w) && v.h.issued == w.h.issued + issued
    requires KeysEvolved(w.s, v.s, issued, now) && TokensEvolved(w.s, v.s, issued)
    ensures TokensSound(v)
  {
  }

  lemma PaymentsSoundEvolves(w: World, v: World)
    requires PaymentsSound(w) && w.s.users.Keys <= v.s.users.Keys && PaymentsEvolved(w.s, v.s)
    ensures PaymentsSound(v)
  {
  }

  lemma SoundEvolves(w: World, v: World, issued: set<Hash>, now: nat)
    requires Sound(w) && issued !! w.h.issued && v.h.issued == w.h.issued + issued && w.s.users.Keys <= v.s.users.Keys
    requires KeysEvolved(w.s, v.s, issued, now) && TokensEvolved(w.s, v.s, issued) && PaymentsEvolved(w.s, v.s)
    ensures Sound(v)
  {
    hide KeysSound, TokensSound, PaymentsSound, KeysEvolved, TokensEvolved, PaymentsEvolved;
    KeysSoundEvolves(w, v, issued, now);
    TokensSoundEvolves(w, v, issued, now);
    PaymentsSoundEvolves(w, v);
  }

  lemma SoundIsKept(w: World, env: Env, step: Step, now: nat)
    requires Sound(w) && Enabled(w, env, step, now)
    ensures Sound(Advance(w, env, step, now))
  {
    hide Next, Sound;
    KeysEvolve(w, env, step, now);
    TokensEvolve(w, env, step, now);
    PaymentsEvolve(w, env, step, now);
    Frame(w, env, step, now);
    SoundEvolves(w, Advance(w, env, step, now), Issued(step), now);
  }

  /** No step moves a key to another owner or forgets a key. */
  lemma OwnersAreKept(w: World, env: Env, step: Step, now: nat, k: KeyId)
    requires Enabled(w, env, step, now) && k in w.s.keys
    ensures var t := Next(w.s, env, step, now); k in t.keys && t.keys[k].userId == w.s.keys[k].userId
  {
    hide Next;
    KeysEvolve(w, env, step, now);
  }

  lemma EmptyIsSound()
    ensures Sound(EMPTY)
  {
  }

  /** Every reachable world is sound. */
  lemma {:induction false} SoundRun(w: World, env: Env, run: seq<Event>)
    requires Sound(w) && Possible(w, env, run)
    ensures Sound(Run(w, env, run))
    decreases run
  {
    if run != [] {
      hide Sound, Next;
      SoundIsKept(w, env, run[0].step, run[0].now);
      SoundRun(Advance(w, env, run[0].step, run[0].now), env, run[1..]);
    }
  }
}
