/** The database and the mutations over it. Every mutation is atomic; each method is proved against
    the table function that the whole-run results are about. */
module Convex {
  import opened Wrappers
  import opened Calendar
  import opened Tables
  import opened Plans
  import Gateway
  import Payments
  import Keys
  import Usage
  import Machine
  import RollupLedger

  // ---- Set and map steps used by the loops ----------------------------------------------------

  lemma ChargedNone(q: map<QuotaKey, nat>)
    ensures Gateway.Charged(q, {}) == q
  {
  }

  lemma ChargedStep(q: map<QuotaKey, nat>, done: set<QuotaKey>, k: QuotaKey)
    requires k !in done
    ensures Gateway.Charged(q, done)[k := Gateway.Units(q, k) + 1] == Gateway.Charged(q, done + {k})
  {
  }

  function KeysIn(specs: seq<Gateway.QuotaSpec>): set<QuotaKey> {
    set q | q in specs :: q.key
  }

  lemma KeysInPrefix(specs: seq<Gateway.QuotaSpec>, i: nat)
    requires i < |specs|
    ensures KeysIn(specs[..i + 1]) == KeysIn(specs[..i]) + {specs[i].key}
  {
    assert specs[..i + 1] == specs[..i] + [specs[i]];
  }

  /** The first i of the listed rows have been charged. */
  ghost predicate ChargedSofar(before: map<QuotaKey, nat>, q: map<QuotaKey, nat>, specs: seq<Gateway.QuotaSpec>,
                               i: nat) {
    i <= |specs| && q == Gateway.Charged(before, KeysIn(specs[..i]))
  }

  lemma NothingCharged(before: map<QuotaKey, nat>, specs: seq<Gateway.QuotaSpec>)
    ensures ChargedSofar(before, before, specs, 0)
  {
    ChargedNone(before);
    assert KeysIn(specs[..0]) == {};
  }

  lemma OneCharged(before: map<QuotaKey, nat>, q: map<QuotaKey, nat>, specs: seq<Gateway.QuotaSpec>, i: nat, n: nat)
    requires i < |specs| && ChargedSofar(before, q, specs, i)
    requires specs[i].key !in KeysIn(specs[..i]) && n == Gateway.Units(before, specs[i].key) + 1
    ensures ChargedSofar(before, q[specs[i].key := n], specs, i + 1)
  {
    hide Gateway.Units;
    KeysInPrefix(specs, i);
    hide KeysIn;
    ChargedStep(before, KeysIn(specs[..i]), specs[i].key);
  }

  lemma AllCharged(before: map<QuotaKey, nat>, q: map<QuotaKey, nat>, specs: seq<Gateway.QuotaSpec>)
    requires ChargedSofar(before, q, specs, |specs|)
    ensures q == Gateway.Charged(before, KeysIn(specs))
  {
    assert specs[..|specs|] == specs;
  }

  /** The five rows of a request are five different rows, and they are the rows it is charged to. */
  lemma SpecsAreTouched(env: Env, k: KeyId, u: UserId, endpoint: string, now: nat, plan: Option<PaidPlan>)
    ensures var specs := Gateway.QuotaSpecs(env, k, u, endpoint, now, plan);
            KeysIn(specs) == Gateway.Touched(k, u, endpoint, plan.None?, now)
            && forall i :: 0 <= i < |specs| ==> specs[i].key !in KeysIn(specs[..i])
  {
    var specs := Gateway.QuotaSpecs(env, k, u, endpoint, now, plan);
    assert specs == [specs[0], specs[1], specs[2], specs[3], specs[4]];
    assert KeysIn(specs) == {specs[0].key, specs[1].key, specs[2].key, specs[3].key, specs[4].key};
    forall i | 0 <= i < |specs| ensures specs[i].key !in KeysIn(specs[..i]) {
      forall q | q in specs[..i] ensures q.key != specs[i].key {
        var j :| 0 <= j < i && specs[..i][j] == q;
        assert q == specs[j];
      }
    }
  }

  lemma LockedTables(s: State, user: UserId, now: nat, keys: map<KeyId, ApiKey>, tokens: map<Hash, PlaygroundToken>)
    requires user in s.users && !s.users[user].isSystem && keys.Keys == s.keys.Keys
    requires forall k :: k in keys ==>
             keys[k] == if k in Keys.KeysOf(s, user) then Keys.RevokedKey(s.keys[k], now) else s.keys[k]
    requires tokens == Keys.DropTokensOf(s.tokens, Keys.KeysOf(s, user))
    ensures keys == Keys.LockUser(s, user, now).keys && tokens == Keys.LockUser(s, user, now).tokens
  {
    hide Keys.DropTokensOf, Keys.RevokedKey;
  }

  lemma DropMore(tokens: map<Hash, PlaygroundToken>, ks: set<KeyId>, k: KeyId)
    ensures Keys.DropTokensOf(Keys.DropTokensOf(tokens, ks), {k}) == Keys.DropTokensOf(tokens, ks + {k})
  {
  }

  lemma DropNone(tokens: map<Hash, PlaygroundToken>)
    ensures Keys.DropTokensOf(tokens, {}) == tokens
  {
  }

  class Database {
    const env: Env
    var users: map<UserId, User>
    var keys: map<KeyId, ApiKey>
    var tokens: map<Hash, PlaygroundToken>
    var payments: map<PaymentId, Payment>
    var rate: map<RateKey, nat>
    var quota: map<QuotaKey, nat>
    var requests: map<nat, Request>
    var nextRow: nat
    var usageDaily: map<Cell, Rollup>

    ghost function Snapshot(): State
      reads this
    {
      State(users, keys, tokens, payments, rate, quota, requests, nextRow, usageDaily)
    }

    constructor (env: Env)
      ensures this.env == env && Snapshot() == Machine.EMPTY.s
    {
      this.env := env;
      users, keys, tokens, payments, rate, quota := map[], map[], map[], map[], map[], map[];
      requests, nextRow, usageDaily := map[], 0, map[];
    }

    // ---- Gateway ---------------------------------------------------------------------------------

    method HitWindow(bucket: RateBucket, limit: int, now: nat, durationMs: nat, cost: nat)
      returns (r: Gateway.RateLimitState)
      requires durationMs > 0
      modifies this`rate
      ensures rate == Gateway.HitRows(old(rate), bucket, now, durationMs, cost)
      ensures r == Gateway.HitState(old(rate), bucket, limit, now, durationMs, cost)
    {
      var start := now / durationMs * durationMs;
      var row := RateKey(bucket, start);
      var count := (if row in rate then rate[row] else 0) + cost;
      rate := rate[row := count];
      r := Gateway.RateLimitState(limit, Max(0, limit - count), (start + durationMs) / 1000, count <= limit);
    }

    /** First pass: look at every counter without touching any. */
    method CheckQuotas(specs: seq<Gateway.QuotaSpec>) returns (next: seq<nat>, states: seq<Gateway.RateLimitState>)
      ensures |next| == |specs| && forall j :: 0 <= j < |specs| ==> next[j] == Gateway.Units(quota, specs[j].key) + 1
      ensures states == Gateway.QuotaStates(quota, specs)
    {
      next, states := [], [];
      var i := 0;
      while i < |specs|
        invariant 0 <= i <= |specs| && |next| == |states| == i
        invariant forall j :: 0 <= j < i ==> next[j] == Gateway.Units(quota, specs[j].key) + 1
        invariant forall j :: 0 <= j < i ==> states[j] == Gateway.QuotaState(quota, specs[j])
      {
        var spec := specs[i];
        var n: nat := (if spec.key in quota then quota[spec.key] else 0) + 1;
        var allowed := n <= spec.limit;
        next := next + [n];
        var remaining := if allowed then Max(0, spec.limit - n) else 0;
        states := states + [Gateway.RateLimitState(spec.limit, remaining, spec.reset / 1000, allowed)];
        i := i + 1;
      }
    }

    /** Second pass: charge every counter. */
    method ChargeQuotas(specs: seq<Gateway.QuotaSpec>, next: seq<nat>)
      requires |next| == |specs| && forall j :: 0 <= j < |specs| ==> next[j] == Gateway.Units(quota, specs[j].key) + 1
      requires forall i :: 0 <= i < |specs| ==> specs[i].key !in KeysIn(specs[..i])
      modifies this`quota
      ensures quota == Gateway.Charged(old(quota), KeysIn(specs))
    {
      ghost var before := quota;
      NothingCharged(before, specs);
      hide ChargedSofar;
      var i := 0;
      while i < |specs|
        invariant 0 <= i <= |specs|
        invariant ChargedSofar(before, quota, specs, i)
      {
        OneCharged(before, quota, specs, i, next[i]);
        quota := quota[specs[i].key := next[i]];
        i := i + 1;
      }
      AllCharged(before, quota, specs);
    }

    method ConsumeCustomerQuotas(k: KeyId, user: UserId, endpoint: string, now: nat, plan: Option<PaidPlan>)
      returns (r: Gateway.RateLimitState)
      modifies this`quota
      ensures (quota, r) == Gateway.ConsumeQuotas(old(quota), env, k, user, endpoint, now, plan)
      ensures !r.allowed ==> quota == old(quota)
    {
      hide Gateway.Binding, Gateway.Touched, Gateway.Charged, Gateway.Spec;
      SpecsAreTouched(env, k, user, endpoint, now, plan);
      var specs := Gateway.QuotaSpecs(env, k, user, endpoint, now, plan);
      hide Gateway.QuotaSpecs;
      var next, states := CheckQuotas(specs);
      r := Gateway.Combine(states);
      if r.allowed {
        ChargeQuotas(specs, next);
      }
    }

    method LookupKey(h: Hash) returns (r: Gateway.Lookup)
      ensures r == Gateway.FindKey(keys, h)
    {
      var ks := Gateway.KeysWithHash(keys, h);
      if ks == {} {
        return Gateway.Absent;
      }
      var k :| k in ks;
      r := if ks == {k} then Gateway.Found(k) else Gateway.Duplicate;
    }

    /** The credential part of authorize: which key is presented, and whether it and its owner stand. */
    method ScreenCredential(kind: Gateway.CredentialKind, h: Hash, now: nat) returns (r: Gateway.Screening)
      ensures r == Gateway.Screen(Snapshot(), kind, h, now)
    {
      var k: KeyId;
      var via := false;
      if kind == Gateway.PlaygroundCredential {
        if h !in tokens {
          return Gateway.Rejected(Gateway.Invalid);
        }
        if tokens[h].expiresAt <= now {
          return Gateway.Rejected(Gateway.Expired);
        }
        k := tokens[h].apiKeyId;
        if k !in keys || keys[k].userId != tokens[h].userId {
          return Gateway.Rejected(Gateway.Invalid);
        }
        via := true;
      } else {
        var found := LookupKey(h);
        match found {
          case Absent => return Gateway.Rejected(Gateway.Invalid);
          case Duplicate => return Gateway.Rejected(Gateway.Thrown);
          case Found(j) => k := j;
        }
      }
      var key := keys[k];
      if key.revokedAt.Some? {
        return Gateway.Rejected(Gateway.Revoked);
      }
      if key.expiresAt.Some? && key.expiresAt.value <= now {
        return Gateway.Rejected(Gateway.Expired);
      }
      if key.userId !in users || users[key.userId].disabledAt.Some? {
        return Gateway.Rejected(Gateway.Revoked);
      }
      r := Gateway.Passed(k, via);
    }

    /** One hit per bucket, in order. */
    method HitBuckets(buckets: seq<Gateway.BucketLimit>, now: nat) returns (states: seq<Gateway.RateLimitState>)
      modifies this`rate
      ensures rate == Gateway.HitAllRows(old(rate), buckets, now)
      ensures states == Gateway.HitAllStates(old(rate), buckets, now)
    {
      states := [];
      var i := 0;
      while i < |buckets|
        invariant 0 <= i <= |buckets|
        invariant Gateway.HitAllRows(rate, buckets[i..], now) == Gateway.HitAllRows(old(rate), buckets, now)
        invariant states + Gateway.HitAllStates(rate, buckets[i..], now)
                  == Gateway.HitAllStates(old(rate), buckets, now)
      {
        assert buckets[i..][1..] == buckets[i + 1..];
        var state := HitWindow(buckets[i].bucket, buckets[i].limit, now, MINUTE_MS, 1);
        states := states + [state];
        i := i + 1;
      }
    }

    method Authorize(a: Gateway.AuthArgs, now: nat) returns (answer: Gateway.Answer)
      modifies this`users, this`rate, this`quota
      ensures (Snapshot(), answer) == Gateway.Authorize(old(Snapshot()), env, a, now)
    {
      hide Gateway.Combine, Gateway.HitAllRows, Gateway.HitAllStates, Gateway.ConsumeQuotas, Gateway.Buckets;
      var screened := ScreenCredential(a.kind, a.hash, now);
      if screened.Rejected? {
        return Gateway.Refusal(screened.status);
      }
      var k, via := screened.key, screened.viaPlayground;
      var key := keys[k];
      var owner := users[key.userId];
      var site := key.isSiteKey && !via;
      var plan := if site then None else ActivePlan(owner, now);
      if !site && !HasKeyAccess(owner, now) {
        return Gateway.Refusal(Gateway.PaymentRequired);
      }
      var principal := Some(Gateway.Principal(k, key.userId, site, via));
      if Gateway.EndpointDenied(key, a.endpoint) {
        return Gateway.Answer(Gateway.EndpointNotAllowed, principal, None,
          Gateway.NormalizeEndpoints(key.endpoints.value));
      }
      var buckets := Gateway.Buckets(env, k, key, a, site, plan);
      var states := HitBuckets(buckets, now);
      var state := Gateway.Combine(states);
      if !state.allowed {
        return Gateway.Answer(Gateway.RateLimited, principal, Some(state), []);
      }
      if !site {
        var q := ConsumeCustomerQuotas(k, key.userId, Gateway.EndpointName(a.endpoint), now, plan);
        if !q.allowed {
          return Gateway.Answer(Gateway.QuotaExceeded, principal, Some(q), []);
        }
        if plan.None? {
          users := users[key.userId := owner.(freeRequestsUsed := Some(owner.freeRequestsUsed.GetOr(0) + 1))];
        }
      }
      answer := Gateway.Answer(Gateway.Ok, principal, Some(state), []);
    }

    method AuthorizeDemo(d: Gateway.DemoArgs, now: nat) returns (answer: Gateway.Answer)
      modifies this`rate
      ensures (Snapshot(), answer) == Gateway.AuthorizeDemo(old(Snapshot()), d, now)
    {
      hide Gateway.Combine;
      var hits, cost := Gateway.DemoHits(d), Gateway.DemoCost(d.cost);
      hide Gateway.DemoHits, Gateway.DemoCost;
      var states: seq<Gateway.RateLimitState> := [];
      var i := 0;
      while i < |hits|
        invariant 0 <= i <= |hits|
        invariant Gateway.DemoRows(rate, hits[i..], now, cost) == Gateway.DemoRows(old(rate), hits, now, cost)
        invariant states + Gateway.DemoStates(rate, hits[i..], now, cost)
                  == Gateway.DemoStates(old(rate), hits, now, cost)
      {
        assert hits[i..][1..] == hits[i + 1..];
        var state := HitWindow(hits[i].bucket, hits[i].limit, now, hits[i].durationMs, cost);
        states := states + [state];
        i := i + 1;
      }
      assert hits[i..] == [];
      assert states == Gateway.DemoStates(old(rate), hits, now, cost)
             && rate == Gateway.DemoRows(old(rate), hits, now, cost);
      var state := Gateway.Combine(states);
      answer := Gateway.Answer(if state.allowed then Gateway.Ok else Gateway.RateLimited, None, Some(state), []);
    }

    // ---- Payments ----------------------------------------------------------------------------------

    method ActivateFreeTier(u: UserId, now: nat)
      modifies this`users
      ensures Snapshot() == Payments.ActivateFreeTier(old(Snapshot()), u, now)
    {
      if u !in users || users[u].isSystem || users[u].disabledAt.Some? {
        return;
      }
      if users[u].freeTierActivatedAt.Some? {
        return;
      }
      users := users[u := users[u].(freeTierActivatedAt := Some(now), freeRequestsUsed := Some(0))];
    }

    method LookupPayment(intent: string) returns (r: Payments.PaymentLookup)
      ensures r == Payments.FindPayment(payments, intent)
    {
      var ps := Payments.PaymentsFor(payments, intent);
      if ps == {} {
        return Payments.NoPayment;
      }
      var p :| p in ps;
      r := if ps == {p} then Payments.OnePayment(p) else Payments.ManyPayments;
    }

    method RecordPending(newId: PaymentId, user: UserId, plan: PaidPlan, intent: string, now: nat)
      returns (r: Payments.Recorded)
      modifies this`payments
      ensures (Snapshot(), r) == Payments.RecordPending(old(Snapshot()), newId, user, plan, intent, now)
    {
      var found := LookupPayment(intent);
      if found.ManyPayments? {
        return Payments.Conflict;
      }
      if found.OnePayment? {
        var row := payments[found.id];
        return if row.userId != user || row.plan != plan then Payments.Conflict else Payments.Recorded(found.id);
      }
      payments := payments[newId := Payment(user, plan, intent, PLAN_WIRE_AMOUNT, "MNT", Pending, now, None)];
      r := Payments.Recorded(newId);
    }

    method Settle(intent: string, outcome: Payments.Outcome, amount: int, currency: string, now: nat)
      returns (settled: bool)
      modifies this`payments, this`users
      ensures (Snapshot(), settled) == Payments.Settle(old(Snapshot()), intent, outcome, amount, currency, now)
    {
      hide Payments.FindPayment;
      var found := LookupPayment(intent);
      if !found.OnePayment? {
        return false;
      }
      var p := found.id;
      var row := payments[p];
      if row.status != Pending || amount != row.amountMinor || currency != row.currency {
        return false;
      }
      if outcome == Payments.WireFailed {
        payments := payments[p := row.(status := Failed)];
        return true;
      }
      if row.userId !in users {
        return false;
      }
      var user := users[row.userId];
      var existingExpiry := if ActivePlan(user, now).Some? then user.planExpiresAt.value else now;
      users := users[row.userId := user.(plan := Some(row.plan),
        planExpiresAt := Some(existingExpiry + PLAN_DURATION_MS))];
      payments := payments[p := row.(status := Succeeded, paidAt := Some(now))];
      settled := true;
    }

    method CheckIntent(intent: string, wire: Payments.WireIntent, now: nat)
      modifies this`payments, this`users
      ensures Snapshot() == Payments.CheckIntent(old(Snapshot()), intent, wire, now)
    {
      hide Payments.Settle;
      if wire.id != intent {
        return;
      }
      if wire.status == "succeeded" {
        var _ := Settle(intent, Payments.WireSucceeded, wire.amount, wire.currency, now);
      } else if wire.status in ["failed", "canceled", "expired"] {
        var _ := Settle(intent, Payments.WireFailed, wire.amount, wire.currency, now);
      }
    }

    /** The index read of pending rows, newest first, at most a hundred of them. */
    method PendingRows() returns (list: seq<PaymentId>)
      ensures NewestPending(payments, list)
    {
      hide NewestPending, PickedNewest;
      list := [];
      var rest := set p | p in payments && payments[p].status == Pending;
      NothingPicked(payments, rest);
      while rest != {} && |list| < MAX_PENDING
        invariant |list| <= MAX_PENDING && PickedNewest(payments, list, rest)
        decreases rest
      {
        ghost var _ := Least(rest, NewestFirst(payments));
        var p :| p in rest && forall q :: q in rest ==> NewestFirst(payments)(p) <= NewestFirst(payments)(q);
        PickOne(payments, list, rest, p);
        list, rest := list + [p], rest - {p};
      }
      AllPicked(payments, list, rest);
    }

    /** The reconcile loop; an unreachable provider (None) skips one payment and not the rest. */
    method ReconcilePending(provider: string -> Option<Payments.WireIntent>, clock: nat -> nat)
      returns (ghost list: seq<PaymentId>)
      modifies this`payments, this`users
      ensures NewestPending(old(payments), list)
      ensures Snapshot() == Reconciled(old(Snapshot()), IntentsOf(old(payments), list), provider, clock, 0)
    {
      hide Payments.CheckIntent, NewestPending;
      var rows := PendingRows();
      assert forall j :: 0 <= j < |rows| ==> rows[j] in payments by { ArePayments(payments, rows); }
      var intents := IntentsOf(payments, rows);
      list := rows;
      var i := 0;
      while i < |intents|
        invariant 0 <= i <= |intents|
        invariant Reconciled(Snapshot(), intents[i..], provider, clock, i)
                  == Reconciled(old(Snapshot()), intents, provider, clock, 0)
      {
        assert intents[i..][1..] == intents[i + 1..];
        var answer := provider(intents[i]);
        if answer.Some? {
          CheckIntent(intents[i], answer.value, clock(i));
        }
        i := i + 1;
      }
    }

    // ---- Keys ------------------------------------------------------------------------------------------

    /** Deletes a key's tokens one by one. */
    method DeletePlaygroundTokens(k: KeyId)
      modifies this`tokens
      ensures tokens == Keys.DropTokensOf(old(tokens), {k})
    {
      ghost var before := tokens;
      var todo := Keys.TokensOf(tokens, k);
      while todo != {}
        invariant todo == Keys.TokensOf(tokens, k)
        invariant tokens.Keys <= before.Keys
        invariant forall h :: h in before && before[h].apiKeyId != k ==> h in tokens
        invariant forall h :: h in tokens ==> tokens[h] == before[h]
        decreases todo
      {
        var h :| h in todo;
        tokens := tokens - {h};
        todo := todo - {h};
      }
      forall h | h in tokens ensures tokens[h].apiKeyId != k {
        assert h !in Keys.TokensOf(tokens, k);
      }
    }

    method InsertKey(newId: KeyId, user: UserId, hash: Hash, endpoints: seq<string>, expiresAt: Option<nat>,
                     now: nat) returns (ok: bool)
      modifies this`keys
      ensures (Snapshot(), ok) == Keys.InsertKey(old(Snapshot()), newId, user, hash, endpoints, expiresAt, now)
    {
      if user !in users || !HasKeyAccess(users[user], now) {
        return false;
      }
      var all := set k | k in keys && keys[k].userId == user;
      if |all| >= Keys.MAX_TOTAL_KEYS_PER_USER {
        return false;
      }
      var active := set k | k in all && keys[k].revokedAt.None?;
      assert all == Keys.KeysOf(Snapshot(), user) && active == Keys.ActiveKeysOf(Snapshot(), user);
      if |active| >= Keys.MAX_ACTIVE_KEYS_PER_USER {
        return false;
      }
      keys := keys[newId := ApiKey(user, hash, Some(endpoints), None, false, None, expiresAt, None)];
      ok := true;
    }

    method RevokeKey(k: KeyId, now: nat)
      modifies this`keys, this`tokens
      ensures Snapshot() == Keys.RevokeKey(old(Snapshot()), k, now)
    {
      if k !in keys {
        return;
      }
      if keys[k].revokedAt.None? {
        keys := keys[k := keys[k].(revokedAt := Some(now))];
      }
      DeletePlaygroundTokens(k);
    }

    method Revoke(user: UserId, k: KeyId, now: nat)
      modifies this`keys, this`tokens
      ensures Snapshot() == Keys.Revoke(old(Snapshot()), user, k, now)
    {
      if k !in keys || keys[k].userId != user {
        return;
      }
      RevokeKey(k, now);
    }

    method ReplaceSecret(k: KeyId, user: UserId, hash: Hash, now: nat)
      modifies this`keys, this`tokens
      ensures Snapshot() == Keys.ReplaceSecret(old(Snapshot()), k, user, hash, now)
    {
      if k !in keys || keys[k].userId != user {
        return;
      }
      if user !in users || !HasKeyAccess(users[user], now) {
        return;
      }
      if keys[k].revokedAt.Some? || (keys[k].expiresAt.Some? && keys[k].expiresAt.value <= now) {
        return;
      }
      keys := keys[k := keys[k].(keyHash := hash)];
      DeletePlaygroundTokens(k);
    }

    /** The tokens of a key beyond its newest four. */
    method OldestTokens(k: KeyId) returns (gone: set<Hash>)
      ensures Keys.Oldest(tokens, k, gone)
    {
      gone := AllButNewest(Keys.TokensOf(tokens, k), Machine.TokenAge(tokens), Keys.MAX_PLAYGROUND_TOKENS_PER_KEY - 1);
      ghost var kept := Keys.TokensOf(tokens, k) - gone;
      forall d, e | d in gone && e in kept ensures tokens[d].expiresAt <= tokens[e].expiresAt {
        assert Machine.TokenAge(tokens)(d) <= Machine.TokenAge(tokens)(e);
      }
    }

    /** Keeps the newest four tokens of the key, then adds one. */
    method InsertPlaygroundToken(hash: Hash, token: PlaygroundToken, now: nat) returns (ghost dropped: set<Hash>)
      modifies this`tokens
      ensures Keys.Oldest(old(tokens), token.apiKeyId, dropped)
      ensures Snapshot() == Keys.InsertToken(old(Snapshot()), hash, token, dropped, now)
    {
      var gone := OldestTokens(token.apiKeyId);
      dropped := gone;
      if token.userId !in users || !HasKeyAccess(users[token.userId], now) {
        return;
      }
      tokens := tokens - gone;
      tokens := tokens[hash := token];
    }

    method LockUser(user: UserId, now: nat)
      modifies this`users, this`keys, this`tokens
      ensures Snapshot() == Keys.LockUser(old(Snapshot()), user, now)
    {
      if user !in users || users[user].isSystem {
        return;
      }
      hide Keys.DropTokensOf, Keys.TokensOf;
      ghost var k0, t0 := keys, tokens;
      users := users[user := users[user].(disabledAt := Some(now))];
      var all := set k | k in keys && keys[k].userId == user;
      var todo := all;
      assert all - todo == {};
      DropNone(t0);
      ghost var u1 := users;
      while todo != {}
        invariant todo <= all && keys.Keys == k0.Keys && users == u1
        invariant forall k :: k in keys ==> keys[k] == if k in all - todo then Keys.RevokedKey(k0[k], now) else k0[k]
        invariant tokens == Keys.DropTokensOf(t0, all - todo)
        decreases todo
      {
        var k :| k in todo;
        if keys[k].revokedAt.None? {
          keys := keys[k := keys[k].(revokedAt := Some(now))];
        }
        DeletePlaygroundTokens(k);
        DropMore(t0, all - todo, k);
        assert all - (todo - {k}) == all - todo + {k};
        todo := todo - {k};
      }
      assert all - todo == all == Keys.KeysOf(old(Snapshot()), user);
      LockedTables(old(Snapshot()), user, now, keys, tokens);
    }

    method EnableUser(user: UserId)
      modifies this`users
      ensures Snapshot() == Keys.EnableUser(old(Snapshot()), user)
    {
      if user in users {
        users := users[user := users[user].(disabledAt := None)];
      }
    }

    // ---- Usage -----------------------------------------------------------------------------------------

    /** Adds a batch's rollups, cell by cell, to the stored ones. */
    method MergeRollups(rollups: map<Cell, Rollup>)
      modifies this`usageDaily
      ensures usageDaily.Keys == old(usageDaily).Keys + rollups.Keys
      ensures forall c :: c in usageDaily ==> usageDaily[c] == Merged(old(usageDaily), rollups, c)
    {
      ghost var before := usageDaily;
      var todo := rollups.Keys;
      while todo != {}
        invariant todo <= rollups.Keys
        invariant usageDaily.Keys == before.Keys + (rollups.Keys - todo)
        invariant forall c :: c in usageDaily ==>
                  usageDaily[c] == if c in todo then before[c] else Merged(before, rollups, c)
        decreases todo
      {
        var c :| c in todo;
        var r := rollups[c];
        if c in usageDaily {
          var e := usageDaily[c];
          usageDaily := usageDaily[c := Rollup(e.user, e.total + r.total, e.successful + r.successful,
                                       e.failed + r.failed,
                                               e.totalResponseTimeMs + r.totalResponseTimeMs)];
        } else {
          usageDaily := usageDaily[c := r];
        }
        todo := todo - {c};
      }
    }

    /** Moves keys' last-used times forward. */
    method TouchLastUsed(lastUsed: map<KeyId, real>)
      modifies this`keys
      ensures keys.Keys == old(keys).Keys
      ensures forall k :: k in keys ==> keys[k] == Touched(old(keys)[k], lastUsed, k)
    {
      ghost var before := keys;
      var todo := lastUsed.Keys;
      while todo != {}
        invariant todo <= lastUsed.Keys && keys.Keys == before.Keys
        invariant forall k :: k in keys ==> keys[k] == if k in todo then before[k] else Touched(before[k], lastUsed, k)
        decreases todo
      {
        var k :| k in todo;
        if k in keys && keys[k].lastUsedAt.GetOr(0.0) < lastUsed[k] {
          keys := keys[k := keys[k].(lastUsedAt := Some(lastUsed[k]))];
        }
        todo := todo - {k};
      }
    }

    /** Stores the raw rows of a batch, summing its rollups and last-used times on the side. */
    method CollectBatch(batch: seq<Usage.Entry>, now: nat)
      returns (written: nat, rollups: map<Cell, Rollup>, lastUsed: map<KeyId, real>, ghost accepted: seq<Request>)
      modifies this`requests, this`nextRow
      ensures accepted == Usage.Accepted(keys, batch, now) && written == |accepted|
      ensures requests == Usage.AddRows(old(requests), old(nextRow), accepted) && nextRow == old(nextRow) + written
      ensures BatchRollups(rollups, keys, accepted) && BatchLastUsed(lastUsed, accepted)
    {
      hide BatchRollups, BatchLastUsed, Usage.AddRows, Usage.Cells, Usage.Plausible, Usage.Plus, Usage.One,
        Usage.TallyOf, Usage.ToRollup;
      rollups, lastUsed, accepted, written := map[], map[], [], 0;
      EmptyBatch(keys, requests, nextRow);
      assert batch[..0] == [] && Usage.Accepted(keys, [], now) == [];
      hide Usage.Accepted;
      var i := 0;
      while i < |batch|
        invariant 0 <= i <= |batch|
        invariant accepted == Usage.Accepted(keys, batch[..i], now) && written == |accepted|
        invariant nextRow == old(nextRow) + written && requests == Usage.AddRows(old(requests), old(nextRow), accepted)
        invariant BatchRollups(rollups, keys, accepted) && BatchLastUsed(lastUsed, accepted)
      {
        var e := batch[i];
        AcceptedStep(keys, batch, i, now);
        if Usage.Plausible(keys, e, now) {
          PlausibleKey(keys, e, now);
          var r := Usage.ToRequest(e, now);
          requests := requests[nextRow := r];
          nextRow := nextRow + 1;
          written := written + 1;
          var seen := if e.keyId in lastUsed then lastUsed[e.keyId] else 0.0;
          var c := Usage.CellOf(r);
          var sofar := if c in rollups then rollups[c] else Rollup(keys[e.keyId].userId, 0, 0, 0, 0);
          var failed := r.statusCode >= Usage.FAILED_STATUS_FROM;
          var added := Rollup(sofar.user, sofar.total + 1, sofar.successful + (if failed then 0 else 1),
                              sofar.failed + (if failed then 1 else 0), sofar.totalResponseTimeMs + r.responseTimeMs);
          AddedIs(rollups, keys, accepted, r, sofar);
          BatchStep(rollups, lastUsed, keys, accepted, r, added);
          RowsStep(old(requests), old(nextRow), accepted, r);
          lastUsed := lastUsed[e.keyId := if seen < r.timestamp then r.timestamp else seen];
          rollups := rollups[c := added];
          accepted := accepted + [r];
        }
        i := i + 1;
      }
      assert batch[..i] == batch;
    }

    /** Stores the plausible records among the first 200, summing them per cell before touching the
        stored rollups. */
    method RecordUsage(entries: seq<Usage.Entry>, now: nat) returns (written: nat, dropped: int)
      modifies this`requests, this`nextRow, this`usageDaily, this`keys
      ensures (Snapshot(), written) == Usage.RecordUsage(old(Snapshot()), entries, now)
      ensures dropped == |entries| - written
    {
      hide BatchRollups, BatchLastUsed, Usage.AddRows, Usage.AddToRollups, Usage.TouchKeys, Usage.Accepted;
      ghost var keys0, usage0 := keys, usageDaily;
      var w, rollups, lastUsed, accepted := CollectBatch(entries[..Min(Usage.MAX_USAGE_ENTRIES, |entries|)], now);
      written := w;
      MergeRollups(rollups);
      TouchLastUsed(lastUsed);
      BatchIsAdded(usage0, keys0, rollups, accepted, usageDaily);
      BatchIsTouched(keys0, lastUsed, accepted, keys);
      dropped := |entries| - written;
    }

    /** One mutation per chunk of 200; the i-th reads the clock anew. */
    method RecordChunks(valid: seq<Usage.Entry>, clock: nat -> nat) returns (written: nat)
      modifies this`requests, this`nextRow, this`usageDaily, this`keys
      ensures (Snapshot(), written) == Chunked(old(Snapshot()), valid, clock, 0)
    {
      hide Usage.RecordUsage, Chunked, Snapshot;
      ghost var rest := valid;
      written := 0;
      var i, n := 0, 0;
      while i < |valid|
        invariant 0 <= i && rest == valid[Min(i, |valid|)..]
        invariant Chunked(old(Snapshot()), valid, clock, 0)
                  == (Chunked(Snapshot(), rest, clock, n).0, written + Chunked(Snapshot(), rest, clock, n).1)
        decreases |valid| - i
      {
        ChunkedStep(Snapshot(), rest, clock, n);
        var chunk := valid[i..Min(i + MAX_USAGE_BATCH, |valid|)];
        assert chunk == rest[..Min(MAX_USAGE_BATCH, |rest|)];
        var w, _ := RecordUsage(chunk, clock(n));
        rest := rest[Min(MAX_USAGE_BATCH, |rest|)..];
        written := written + w;
        i, n := i + MAX_USAGE_BATCH, n + 1;
      }
      NoChunk(Snapshot(), clock, n);
      assert rest == [];
    }

    /** The usage endpoint: malformed records (None) are dropped, the rest stored in chunks of 200. */
    method HandleUsage(entries: seq<Option<Usage.Entry>>, clock: nat -> nat)
      returns (ok: bool, written: nat, dropped: int)
      modifies this`requests, this`nextRow, this`usageDaily, this`keys
      ensures ok == (|entries| <= 1000)
      ensures !ok ==> Snapshot() == old(Snapshot()) && written == 0 == dropped
      ensures ok ==> (Snapshot(), written) == Chunked(old(Snapshot()), WellFormed(entries), clock, 0)
                     && dropped == |entries| - written
    {
      if |entries| > MAX_REQUEST_ENTRIES {
        return false, 0, 0;
      }
      hide Chunked, WellFormed;
      written := RecordChunks(WellFormed(entries), clock);
      ok, dropped := true, |entries| - written;
    }

    // ---- Pruning ---------------------------------------------------------------------------------------

    /** Deletes at most a thousand of the oldest expired rows of each table; true when a full batch
        means that more may be waiting. The audit table is not modelled: `audit` is how many of its rows
        have expired. */
    method Prune(now: nat, audit: nat) returns (again: bool, ghost v: Machine.Victims)
      modifies this`rate, this`tokens, this`requests, this`quota
      ensures Machine.PruneVictims(old(Snapshot()), env, v, now)
      ensures Snapshot() == Machine.PruneState(old(Snapshot()), v)
      ensures again <==> |v.rate| == Machine.BATCH || |v.tokens| == Machine.BATCH || |v.requests| == Machine.BATCH
                         || |v.quota| == Machine.BATCH || audit >= Machine.BATCH
      ensures !again ==> v.rate == Machine.ExpiredRate(old(rate), now)
                         && v.quota == Machine.ExpiredQuota(old(quota), now)
                         && v.tokens == Machine.ExpiredTokens(old(tokens), now)
                         && v.requests == Machine.ExpiredRequests(old(requests), env, now)
    {
      hide Machine.OldestBatch, Machine.ExpiredRate, Machine.ExpiredTokens, Machine.ExpiredRequests,
        Machine.ExpiredQuota;
      var rateGone := TakeOldest(Machine.ExpiredRate(rate, now), Machine.RateAge());
      var tokensGone := TakeOldest(Machine.ExpiredTokens(tokens, now), Machine.TokenAge(tokens));
      var requestsGone := TakeOldest(Machine.ExpiredRequests(requests, env, now), Machine.RequestAge(requests));
      var quotaGone := TakeOldest(Machine.ExpiredQuota(quota, now), Machine.QuotaAge());
      v := Machine.Victims(rateGone, tokensGone, requestsGone, quotaGone);
      rate, tokens, requests, quota := rate - rateGone, tokens - tokensGone, requests - requestsGone, quota - quotaGone;
      var auditGone := Min(audit, Machine.BATCH);
      again := |rateGone| == Machine.BATCH || |tokensGone| == Machine.BATCH || |requestsGone| == Machine.BATCH
        || |quotaGone| == Machine.BATCH || auditGone == Machine.BATCH;
    }
  }

  // ---- Batches of usage records ------------------------------------------------------------------------

  const MAX_USAGE_BATCH: nat := 200
  const MAX_REQUEST_ENTRIES: nat := 1000

  function WellFormed(entries: seq<Option<Usage.Entry>>): seq<Usage.Entry> {
    if entries == [] then []
    else (if entries[0].Some? then [entries[0].value] else []) + WellFormed(entries[1..])
  }

  /** Malformed records are dropped and the others kept, in order. */
  lemma WellFormedIs(a: seq<Option<Usage.Entry>>, b: seq<Option<Usage.Entry>>, e: Usage.Entry)
    ensures WellFormed([None]) == [] && WellFormed([Some(e)]) == [e]
    ensures WellFormed(a + b) == WellFormed(a) + WellFormed(b)
  {
    assert WellFormed([]) == [];
    WellFormedPush(None, []);
    WellFormedPush(Some(e), []);
    WellFormedConcat(a, b);
  }

  lemma {:induction false} WellFormedConcat(a: seq<Option<Usage.Entry>>, b: seq<Option<Usage.Entry>>)
    ensures WellFormed(a + b) == WellFormed(a) + WellFormed(b)
    decreases a
  {
    if a == [] {
      assert a + b == b;
    } else {
      WellFormedConcat(a[1..], b);
      WellFormedPush(a[0], a[1..]);
      WellFormedPush(a[0], a[1..] + b);
      assert a == [a[0]] + a[1..] && a + b == [a[0]] + (a[1..] + b);
    }
  }

  lemma WellFormedPush(e: Option<Usage.Entry>, rest: seq<Option<Usage.Entry>>)
    ensures WellFormed([e] + rest) == (if e.Some? then [e.value] else []) + WellFormed(rest)
  {
    assert ([e] + rest)[1..] == rest;
  }

  /** Recording chunk after chunk. */
  function Chunked(s: State, valid: seq<Usage.Entry>, clock: nat -> nat, i: nat): (State, nat)
    decreases |valid|
  {
    if valid == [] then (s, 0) else
    var n := Min(MAX_USAGE_BATCH, |valid|);
    var (t, w) := Usage.RecordUsage(s, valid[..n], clock(i));
    var (u, v) := Chunked(t, valid[n..], clock, i + 1);
    (u, w + v)
  }

  function Merged(usage: map<Cell, Rollup>, rollups: map<Cell, Rollup>, c: Cell): Rollup
    requires c in usage || c in rollups
  {
    if c !in rollups then usage[c]
    else if c !in usage then rollups[c]
    else Usage.ToRollup(usage[c].user, Usage.Plus(Usage.TallyOf(usage, c), Usage.TallyOf(rollups, c)))
  }

  function Touched(key: ApiKey, lastUsed: map<KeyId, real>, k: KeyId): ApiKey {
    if k in lastUsed && key.lastUsedAt.GetOr(0.0) < lastUsed[k] then key.(lastUsedAt := Some(lastUsed[k])) else key
  }

  /** The batch's own rollups are a scan of its accepted records. */
  ghost predicate BatchRollups(rollups: map<Cell, Rollup>, keys: map<KeyId, ApiKey>, accepted: seq<Request>) {
    rollups.Keys == Usage.Cells(accepted)
    && forall c :: c in rollups ==>
       c.key in keys && rollups[c] == Usage.ToRollup(keys[c.key].userId, Usage.Scan(accepted, c))
  }

  ghost predicate BatchLastUsed(lastUsed: map<KeyId, real>, accepted: seq<Request>) {
    forall k :: Usage.LastUsed(accepted, k) == if k in lastUsed then Some(lastUsed[k]) else None
  }

  lemma EmptyBatch(keys: map<KeyId, ApiKey>, rows: map<nat, Request>, next: nat)
    ensures BatchRollups(map[], keys, []) && BatchLastUsed(map[], []) && Usage.AddRows(rows, next, []) == rows
  {
  }

  lemma BatchUser(rollups: map<Cell, Rollup>, keys: map<KeyId, ApiKey>, accepted: seq<Request>, c: Cell)
    requires BatchRollups(rollups, keys, accepted)
    ensures c in rollups ==> c.key in keys && rollups[c].user == keys[c.key].userId
  {
  }

  lemma AddedIs(rollups: map<Cell, Rollup>, keys: map<KeyId, ApiKey>, accepted: seq<Request>, r: Request, sofar: Rollup)
    requires BatchRollups(rollups, keys, accepted) && r.key in keys
    requires sofar == if Usage.CellOf(r) in rollups then rollups[Usage.CellOf(r)]
             else Rollup(keys[r.key].userId, 0, 0, 0, 0)
    ensures var failed := r.statusCode >= Usage.FAILED_STATUS_FROM;
            Rollup(sofar.user, sofar.total + 1, sofar.successful + (if failed then 0 else 1),
                   sofar.failed + (if failed then 1 else 0),
                   sofar.totalResponseTimeMs + r.responseTimeMs)
            == Usage.ToRollup(keys[r.key].userId, Usage.Plus(Usage.TallyOf(rollups, Usage.CellOf(r)), Usage.One(r)))
  {
    hide BatchRollups;
    BatchUser(rollups, keys, accepted, Usage.CellOf(r));
  }

  lemma AcceptedStep(keys: map<KeyId, ApiKey>, es: seq<Usage.Entry>, i: nat, now: nat)
    requires i < |es|
    ensures Usage.Accepted(keys, es[..i + 1], now) ==
            Usage.Accepted(keys, es[..i], now)
            + if Usage.Plausible(keys, es[i], now) then [Usage.ToRequest(es[i], now)] else []
  {
    hide Usage.Plausible, Usage.ToRequest;
    assert es[..i + 1][..i] == es[..i] && es[..i + 1][i] == es[i];
  }

  lemma PlausibleKey(keys: map<KeyId, ApiKey>, e: Usage.Entry, now: nat)
    requires Usage.Plausible(keys, e, now)
    ensures e.keyId in keys && e.statusCode.Some? && e.timestamp.Some? && keys[e.keyId].userId == e.userId
  {
  }

  lemma NoChunk(s: State, clock: nat -> nat, i: nat)
    ensures Chunked(s, [], clock, i) == (s, 0)
  {
  }

  lemma ChunkedStep(s: State, rest: seq<Usage.Entry>, clock: nat -> nat, i: nat)
    requires rest != []
    ensures var n := Min(MAX_USAGE_BATCH, |rest|);
            var (t, w) := Usage.RecordUsage(s, rest[..n], clock(i));
            var (u, v) := Chunked(t, rest[n..], clock, i + 1);
            Chunked(s, rest, clock, i) == (u, w + v)
  {
    hide Usage.RecordUsage;
  }

  lemma BatchStep(rollups: map<Cell, Rollup>, lastUsed: map<KeyId, real>, keys: map<KeyId, ApiKey>,
                  accepted: seq<Request>, r: Request, added: Rollup)
    requires BatchRollups(rollups, keys, accepted) && BatchLastUsed(lastUsed, accepted) && r.key in keys
    requires added == Usage.ToRollup(keys[r.key].userId,
             Usage.Plus(Usage.TallyOf(rollups, Usage.CellOf(r)), Usage.One(r)))
    ensures BatchRollups(rollups[Usage.CellOf(r) := added], keys, accepted + [r])
    ensures var seen := if r.key in lastUsed then lastUsed[r.key] else 0.0;
            BatchLastUsed(lastUsed[r.key := if seen < r.timestamp then r.timestamp else seen], accepted + [r])
  {
    RollupsStep(rollups, keys, accepted, r, added);
    LastUsedStep(lastUsed, accepted, r);
  }

  lemma RollupsStep(rollups: map<Cell, Rollup>, keys: map<KeyId, ApiKey>, accepted: seq<Request>, r: Request,
                    added: Rollup)
    requires BatchRollups(rollups, keys, accepted) && r.key in keys
    requires added == Usage.ToRollup(keys[r.key].userId,
             Usage.Plus(Usage.TallyOf(rollups, Usage.CellOf(r)), Usage.One(r)))
    ensures BatchRollups(rollups[Usage.CellOf(r) := added], keys, accepted + [r])
  {
    var all, x := accepted + [r], Usage.CellOf(r);
    var after := rollups[x := added];
    RollupLedger.ScanPush(accepted, r, x);
    RollupLedger.ScanBalanced(accepted, x);
    if x !in rollups {
      RollupLedger.EmptyCell(accepted, x);
    }
    forall c | c in after ensures c.key in keys && after[c] == Usage.ToRollup(keys[c.key].userId, Usage.Scan(all, c)) {
      RollupLedger.ScanPush(accepted, r, c);
      if c != x {
        RollupLedger.PlusZero(Usage.Scan(accepted, c));
      }
    }
  }

  lemma LastUsedStep(lastUsed: map<KeyId, real>, accepted: seq<Request>, r: Request)
    requires BatchLastUsed(lastUsed, accepted)
    ensures var seen := if r.key in lastUsed then lastUsed[r.key] else 0.0;
            BatchLastUsed(lastUsed[r.key := if seen < r.timestamp then r.timestamp else seen], accepted + [r])
  {
    assert (accepted + [r])[..|accepted|] == accepted;
  }

  lemma RowsStep(rows: map<nat, Request>, next: nat, accepted: seq<Request>, r: Request)
    ensures Usage.AddRows(rows, next, accepted + [r]) == Usage.AddRows(rows, next, accepted)[next + |accepted| := r]
  {
    assert (accepted + [r])[..|accepted|] == accepted;
  }

  /** Merging a batch's rollups is adding its records to the stored rollups. */
  lemma BatchIsAdded(usage: map<Cell, Rollup>, keys: map<KeyId, ApiKey>, rollups: map<Cell, Rollup>,
                     accepted: seq<Request>, after: map<Cell, Rollup>)
    requires BatchRollups(rollups, keys, accepted)
    requires after.Keys == usage.Keys + rollups.Keys && forall c :: c in after ==> after[c] == Merged(usage, rollups, c)
    ensures after == Usage.AddToRollups(usage, keys, accepted)
  {
    var want := Usage.AddToRollups(usage, keys, accepted);
    assert want.Keys == after.Keys;
    forall c | c in after ensures after[c] == want[c] {
      if c !in rollups {
        RollupLedger.EmptyCell(accepted, c);
        RollupLedger.PlusZero(Usage.TallyOf(usage, c));
      } else if c !in usage {
        RollupLedger.ZeroPlus(Usage.Scan(accepted, c));
      }
    }
  }

  lemma BatchIsTouched(keys: map<KeyId, ApiKey>, lastUsed: map<KeyId, real>, accepted: seq<Request>,
                       after: map<KeyId, ApiKey>)
    requires BatchLastUsed(lastUsed, accepted)
    requires after.Keys == keys.Keys && forall k :: k in after ==> after[k] == Touched(keys[k], lastUsed, k)
    ensures after == Usage.TouchKeys(keys, accepted)
  {
    forall k | k in after ensures after[k] == Usage.TouchKeys(keys, accepted)[k] {
      assert Usage.LastUsed(accepted, k) == if k in lastUsed then Some(lastUsed[k]) else None;
    }
  }

  const MAX_PENDING: nat := 100

  function NewestFirst(payments: map<PaymentId, Payment>): PaymentId -> real {
    (p: PaymentId) => if p in payments then -(payments[p].createdAt as real) else 0.0
  }

  /** The newest hundred pending rows, or all there are. */
  ghost predicate NewestPending(payments: map<PaymentId, Payment>, list: seq<PaymentId>) {
    |list| <= MAX_PENDING
    && (forall j, k :: 0 <= j < k < |list| ==> list[j] != list[k])
    && (forall p :: p in list ==> p in payments && payments[p].status == Pending)
    && (forall p, q :: p in list && q in payments && payments[q].status == Pending && q !in list ==>
          payments[q].createdAt <= payments[p].createdAt)
    && (|list| < MAX_PENDING ==> forall q :: q in payments && payments[q].status == Pending ==> q in list)
  }

  /** Some pending rows have been listed, newest first, and the rest has not. */
  ghost predicate PickedNewest(payments: map<PaymentId, Payment>, list: seq<PaymentId>, rest: set<PaymentId>) {
    (forall p :: p in payments && payments[p].status == Pending <==> p in rest || p in list)
    && (forall p :: p in list ==> p !in rest)
    && (forall j, k :: 0 <= j < k < |list| ==> list[j] != list[k])
    && (forall p, q :: p in list && q in rest ==> payments[q].createdAt <= payments[p].createdAt)
  }

  lemma NothingPicked(payments: map<PaymentId, Payment>, rest: set<PaymentId>)
    requires rest == set p | p in payments && payments[p].status == Pending
    ensures PickedNewest(payments, [], rest)
  {
  }

  lemma PickOne(payments: map<PaymentId, Payment>, list: seq<PaymentId>, rest: set<PaymentId>, p: PaymentId)
    requires PickedNewest(payments, list, rest) && p in rest
    requires forall q :: q in rest ==> NewestFirst(payments)(p) <= NewestFirst(payments)(q)
    ensures PickedNewest(payments, list + [p], rest - {p})
  {
    assert forall q :: q in rest ==> payments[q].createdAt <= payments[p].createdAt;
    hide NewestFirst;
  }

  lemma AllPicked(payments: map<PaymentId, Payment>, list: seq<PaymentId>, rest: set<PaymentId>)
    requires PickedNewest(payments, list, rest) && |list| <= MAX_PENDING && (rest == {} || |list| == MAX_PENDING)
    ensures NewestPending(payments, list)
  {
  }

  lemma ArePayments(payments: map<PaymentId, Payment>, list: seq<PaymentId>)
    requires NewestPending(payments, list)
    ensures forall j :: 0 <= j < |list| ==> list[j] in payments
  {
  }

  function IntentsOf(payments: map<PaymentId, Payment>, list: seq<PaymentId>): (r: seq<string>)
    requires forall j :: 0 <= j < |list| ==> list[j] in payments
    ensures |r| == |list| && forall j :: 0 <= j < |r| ==> r[j] == payments[list[j]].intent
  {
    seq(|list|, j requires 0 <= j < |list| => payments[list[j]].intent)
  }

  /** The checks of the intents, one after another, the first at clock(i). */
  ghost function Reconciled(s: State, intents: seq<string>, provider: string -> Option<Payments.WireIntent>,
                            clock: nat -> nat, i: nat): State
    decreases |intents|
  {
    if intents == [] then s else
    var answer := provider(intents[0]);
    Reconciled(if answer.Some? then Payments.CheckIntent(s, intents[0], answer.value, clock(i)) else s,
               intents[1..], provider, clock, i + 1)
  }

  /** A non-empty finite set has a least element by age. */
  lemma {:induction false} Least<T(!new)>(s: set<T>, age: T -> real) returns (v: T)
    requires s != {}
    ensures v in s && forall e :: e in s ==> age(v) <= age(e)
    decreases |s|
  {
    v :| v in s;
    if s != {v} {
      var h := Least(s - {v}, age);
      if age(h) < age(v) {
        v := h;
      }
    }
  }

  /** The oldest elements of a set, all but `keep` of them. */
  method AllButNewest<T(==, !new)>(all: set<T>, age: T -> real, keep: nat) returns (gone: set<T>)
    ensures gone <= all && |gone| == Max(0, |all| - keep)
    ensures forall d, e :: d in gone && e in all - gone ==> age(d) <= age(e)
  {
    var kept := all;
    gone := {};
    while |kept| > keep
      invariant kept <= all && gone == all - kept && |gone| + |kept| == |all|
      invariant |kept| >= Min(|all|, keep)
      invariant forall d, e :: d in gone && e in kept ==> age(d) <= age(e)
      decreases |kept|
    {
      ghost var _ := Least(kept, age);
      var h :| h in kept && forall e :: e in kept ==> age(h) <= age(e);
      kept, gone := kept - {h}, gone + {h};
    }
    assert all - gone == kept;
  }

  /** The first thousand rows in index order. */
  method TakeOldest<T(==, !new)>(expired: set<T>, age: T -> real) returns (victims: set<T>)
    ensures Machine.OldestBatch(expired, victims, age)
    ensures |victims| != Machine.BATCH ==> victims == expired
  {
    victims := {};
    var rest := expired;
    while rest != {} && |victims| < Machine.BATCH
      invariant victims <= expired && rest == expired - victims && |victims| <= Machine.BATCH
      invariant forall v, e :: v in victims && e in rest ==> age(v) <= age(e)
      decreases rest
    {
      ghost var _ := Least(rest, age);
      var v :| v in rest && forall e :: e in rest ==> age(v) <= age(e);
      victims, rest := victims + {v}, rest - {v};
    }
  }
}
