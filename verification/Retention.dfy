/** What one pruning step deletes, in the tables' own terms, and what it leaves answered as before. */
module Retention {
  import opened Wrappers
  import opened Calendar
  import opened Tables
  import opened Machine
  import Gateway

  /** No batch is full. */
  predicate Partial(v: Victims) {
    |v.rate| < 1_000 && |v.tokens| < 1_000 && |v.requests| < 1_000 && |v.quota| < 1_000
  }

  /** Unless a batch is full, a pruning step leaves exactly the windows begun in the last five minutes, the tokens that
      have not expired, the raw rows within the retention period and the quota periods begun in the last 400 days. */
  lemma PruneLeaves(s: State, env: Env, v: Victims, now: nat)
    requires PruneVictims(s, env, v, now) && Partial(v)
    ensures var t := PruneState(s, v);
            t.rate == (map k | k in s.rate && k.windowStart >= now - 300_000 :: s.rate[k])
            && t.tokens == (map h | h in s.tokens && s.tokens[h].expiresAt >= now :: s.tokens[h])
            && t.requests == (map i | i in s.requests && s.requests[i].timestamp >= (now - env.retentionMs) as real ::
                                s.requests[i])
            && t.quota == (map k | k in s.quota && k.start >= now - 34_560_000_000 :: s.quota[k])
            && t.users == s.users && t.keys == s.keys && t.payments == s.payments && t.usageDaily == s.usageDaily
            && t.nextRow == s.nextRow
  {
    assert v.rate == ExpiredRate(s.rate, now) && v.tokens == ExpiredTokens(s.tokens, now);
    assert v.requests == ExpiredRequests(s.requests, env, now) && v.quota == ExpiredQuota(s.quota, now);
    hide PruneVictims;
  }

  /** A full batch is of a thousand expired rows, and no expired row that is left is older than one deleted. */
  lemma FullBatch(s: State, env: Env, v: Victims, now: nat)
    requires PruneVictims(s, env, v, now)
    ensures |v.rate| <= 1_000 && |v.tokens| <= 1_000 && |v.requests| <= 1_000 && |v.quota| <= 1_000
    ensures forall k :: k in v.rate ==> k in s.rate && k.windowStart < now - 300_000
    ensures forall j, k :: j in v.rate && k in s.rate && k !in v.rate ==> j.windowStart <= k.windowStart
    ensures forall h :: h in v.tokens ==> h in s.tokens && s.tokens[h].expiresAt < now
    ensures forall g, h :: g in v.tokens && h in s.tokens && h !in v.tokens ==>
              s.tokens[g].expiresAt <= s.tokens[h].expiresAt
    ensures forall i :: i in v.requests ==> i in s.requests && s.requests[i].timestamp < (now - env.retentionMs) as real
    ensures forall i, j :: i in v.requests && j in s.requests && j !in v.requests ==>
              s.requests[i].timestamp <= s.requests[j].timestamp
    ensures forall k :: k in v.quota ==> k in s.quota && k.start < now - 34_560_000_000
    ensures forall j, k :: j in v.quota && k in s.quota && k !in v.quota ==> j.start <= k.start
  {
    RateBatch(s, v.rate, now);
    TokenBatch(s, v.tokens, now);
    RequestBatch(s, env, v.requests, now);
    QuotaBatch(s, v.quota, now);
    hide OldestBatch;
  }

  lemma RateBatch(s: State, v: set<RateKey>, now: nat)
    requires OldestBatch(ExpiredRate(s.rate, now), v, RateAge())
    ensures |v| <= 1_000 && forall k :: k in v ==> k in s.rate && k.windowStart < now - 300_000
    ensures forall j, k :: j in v && k in s.rate && k !in v ==> j.windowStart <= k.windowStart
  {
    forall j, k | j in v && k in s.rate && k !in v ensures j.windowStart <= k.windowStart {
      assert j in ExpiredRate(s.rate, now);
      if k in ExpiredRate(s.rate, now) {
        assert RateAge()(j) <= RateAge()(k);
      }
    }
  }

  lemma TokenBatch(s: State, v: set<Hash>, now: nat)
    requires OldestBatch(ExpiredTokens(s.tokens, now), v, TokenAge(s.tokens))
    ensures |v| <= 1_000 && forall h :: h in v ==> h in s.tokens && s.tokens[h].expiresAt < now
    ensures forall g, h :: g in v && h in s.tokens && h !in v ==> s.tokens[g].expiresAt <= s.tokens[h].expiresAt
  {
    forall g, h | g in v && h in s.tokens && h !in v ensures s.tokens[g].expiresAt <= s.tokens[h].expiresAt {
      assert g in ExpiredTokens(s.tokens, now);
      if h in ExpiredTokens(s.tokens, now) {
        assert TokenAge(s.tokens)(g) <= TokenAge(s.tokens)(h);
      }
    }
  }

  lemma RequestBatch(s: State, env: Env, v: set<nat>, now: nat)
    requires OldestBatch(ExpiredRequests(s.requests, env, now), v, RequestAge(s.requests))
    ensures |v| <= 1_000
    ensures forall i :: i in v ==> i in s.requests && s.requests[i].timestamp < (now - env.retentionMs) as real
    ensures forall i, j :: i in v && j in s.requests && j !in v ==> s.requests[i].timestamp <= s.requests[j].timestamp
  {
    forall i, j | i in v && j in s.requests && j !in v ensures s.requests[i].timestamp <= s.requests[j].timestamp {
      assert i in ExpiredRequests(s.requests, env, now);
      if j in ExpiredRequests(s.requests, env, now) {
        assert RequestAge(s.requests)(i) <= RequestAge(s.requests)(j);
      }
    }
  }

  lemma QuotaBatch(s: State, v: set<QuotaKey>, now: nat)
    requires OldestBatch(ExpiredQuota(s.quota, now), v, QuotaAge())
    ensures |v| <= 1_000 && forall k :: k in v ==> k in s.quota && k.start < now - 34_560_000_000
    ensures forall j, k :: j in v && k in s.quota && k !in v ==> j.start <= k.start
  {
    forall j, k | j in v && k in s.quota && k !in v ensures j.start <= k.start {
      assert j in ExpiredQuota(s.quota, now);
      if k in ExpiredQuota(s.quota, now) {
        assert QuotaAge()(j) <= QuotaAge()(k);
      }
    }
  }

  /** Pruning changes no answer about a key, or about a token that has not expired. */
  lemma LiveCredentialsStay(s: State, env: Env, v: Victims, now: nat, a: Gateway.AuthArgs, later: nat)
    requires PruneVictims(s, env, v, now) && now <= later
    requires a.kind == Gateway.PlaygroundCredential && a.hash in s.tokens ==> s.tokens[a.hash].expiresAt > later
    ensures Gateway.Screen(PruneState(s, v), a.kind, a.hash, later) == Gateway.Screen(s, a.kind, a.hash, later)
  {
    TokenBatch(s, v.tokens, now);
    hide PruneVictims, OldestBatch;
    SameIdentity(s, v, a, later);
    hide Gateway.Identify;
  }

  lemma SameIdentity(s: State, v: Victims, a: Gateway.AuthArgs, later: nat)
    requires a.kind == Gateway.PlaygroundCredential && a.hash in s.tokens ==> a.hash !in v.tokens
    ensures Gateway.Identify(PruneState(s, v), a.kind, a.hash, later) == Gateway.Identify(s, a.kind, a.hash, later)
  {
    hide Gateway.FindKey;
  }

  /** A token that has expired is answered Expired until it is pruned, and Invalid from then on. */
  lemma ExpiredTokensAreForgotten(s: State, env: Env, v: Victims, now: nat, a: Gateway.AuthArgs, later: nat)
    requires PruneVictims(s, env, v, now) && now <= later
    requires a.kind == Gateway.PlaygroundCredential && a.hash in s.tokens && s.tokens[a.hash].expiresAt <= later
    ensures Gateway.Authorize(PruneState(s, v), env, a, later).1
            == Gateway.Refusal(if a.hash in v.tokens then Gateway.Invalid else Gateway.Expired)
    ensures Gateway.Authorize(s, env, a, later).1 == Gateway.Refusal(Gateway.Expired)
  {
    hide PruneVictims;
  }
}
