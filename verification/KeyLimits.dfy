/** How many keys and tokens there can be, over every run, and what the system account is kept from. */
module KeyLimits {
  import opened Wrappers
  import opened Tables
  import opened Plans
  import opened Machine
  import Gateway
  import Payments
  import Keys
  import Usage

  // ---- What holds in every reachable state ------------------------------------------------------------------

  /** An account's own keys: those that are not the website's. */
  function Ordinary(keys: map<KeyId, ApiKey>, u: UserId): set<KeyId> {
    set k | k in keys && keys[k].userId == u && !keys[k].isSiteKey
  }

  function LiveOrdinary(keys: map<KeyId, ApiKey>, u: UserId): set<KeyId> {
    set k | k in keys && keys[k].userId == u && !keys[k].isSiteKey && keys[k].revokedAt.None?
  }

  ghost predicate FewTokens(tokens: map<Hash, PlaygroundToken>) {
    forall k :: |Keys.TokensOf(tokens, k)| <= 5
  }

  ghost predicate FewKeys(keys: map<KeyId, ApiKey>) {
    forall u :: |Ordinary(keys, u)| <= 200 && |LiveOrdinary(keys, u)| <= 25
  }

  predicate LiveSiteKey(key: ApiKey) {
    key.isSiteKey && key.revokedAt.None?
  }

  ghost predicate OneSiteKey(keys: map<KeyId, ApiKey>) {
    forall j, k :: j in keys && k in keys && LiveSiteKey(keys[j]) && LiveSiteKey(keys[k])
                   && keys[j].userId == keys[k].userId ==>
                   j == k
  }

  /** The system account is never locked and never on the free tier. */
  ghost predicate SystemStands(users: map<UserId, User>) {
    forall u :: u in users && users[u].isSystem ==> users[u].disabledAt.None? && users[u].freeTierActivatedAt.None?
  }

  lemma Fewer<T>(a: set<T>, b: set<T>)
    requires a <= b
    ensures |a| <= |b|
  {
    assert b == a + (b - a);
  }

  // ---- Tokens ---------------------------------------------------------------------------------------------

  lemma FewerTokens(a: map<Hash, PlaygroundToken>, b: map<Hash, PlaygroundToken>)
    requires FewTokens(a) && forall h :: h in b ==> h in a && b[h] == a[h]
    ensures FewTokens(b)
  {
    forall k ensures |Keys.TokensOf(b, k)| <= 5 {
      Fewer(Keys.TokensOf(b, k), Keys.TokensOf(a, k));
    }
  }

  lemma OneMoreToken(a: map<Hash, PlaygroundToken>, h: Hash, t: PlaygroundToken, d: set<Hash>)
    requires FewTokens(a) && Keys.Oldest(a, t.apiKeyId, d)
    ensures FewTokens((a - d)[h := t])
  {
    var b := (a - d)[h := t];
    forall k ensures |Keys.TokensOf(b, k)| <= 5 {
      if k == t.apiKeyId {
        var all := Keys.TokensOf(a, k);
        assert |all - d| == |all| - |d| by { assert all == d + (all - d); }
        Fewer(Keys.TokensOf(b, k), (all - d) + {h});
      } else {
        Fewer(Keys.TokensOf(b, k), Keys.TokensOf(a, k));
      }
    }
  }

  lemma TokensStayFew(w: World, env: Env, step: Step, now: nat)
    requires FewTokens(w.s.tokens) && Enabled(w, env, step, now)
    ensures FewTokens(Next(w.s, env, step, now).tokens)
  {
    hide FewTokens, Keys.Oldest, HasKeyAccess;
    var t := Next(w.s, env, step, now);
    if step.InsertToken? {
      OneMoreToken(w.s.tokens, step.hash, step.token, step.dropped);
    } else if KeyStep(step) || step.Prune? {
      FewerTokens(w.s.tokens, t.tokens);
    } else {
      hide Next;
      Frame(w, env, step, now);
    }
  }

  /** A token is not dropped for a new one while fewer than four others of its key live as long. */
  lemma NewestTokensStay(s: State, h: Hash, t: PlaygroundToken, d: set<Hash>, now: nat, x: Hash)
    requires Keys.Oldest(s.tokens, t.apiKeyId, d) && x in s.tokens && x != h
    requires var longer := set y | y in Keys.TokensOf(s.tokens, t.apiKeyId) && y != x
                                    && s.tokens[y].expiresAt >= s.tokens[x].expiresAt;
             s.tokens[x].apiKeyId != t.apiKeyId || |longer| < 4
    ensures var v := Keys.InsertToken(s, h, t, d, now); x in v.tokens && v.tokens[x] == s.tokens[x]
  {
    hide HasKeyAccess;
    var all := Keys.TokensOf(s.tokens, t.apiKeyId);
    if x in d {
      var longer := set y | y in all && y != x && s.tokens[y].expiresAt >= s.tokens[x].expiresAt;
      assert |all - d| == |all| - |d| by { assert all == d + (all - d); }
      Fewer(all - d, longer);
    }
  }

  // ---- Keys ----------------------------------------------------------------------------------------------

  lemma FewerKeys(a: map<KeyId, ApiKey>, b: map<KeyId, ApiKey>)
    requires FewKeys(a)
    requires forall k :: k in b && !b[k].isSiteKey ==>
               k in a && !a[k].isSiteKey && b[k].userId == a[k].userId
               && (a[k].revokedAt.Some? ==> b[k].revokedAt.Some?)
    ensures FewKeys(b)
  {
    forall u ensures |Ordinary(b, u)| <= 200 && |LiveOrdinary(b, u)| <= 25 {
      Fewer(Ordinary(b, u), Ordinary(a, u));
      Fewer(LiveOrdinary(b, u), LiveOrdinary(a, u));
    }
  }

  lemma OneMoreKey(s: State, k: KeyId, u: UserId, h: Hash, es: seq<string>, x: Option<nat>, now: nat)
    requires FewKeys(s.keys) && k !in s.keys
    ensures FewKeys(Keys.InsertKey(s, k, u, h, es, x, now).0.keys)
  {
    hide HasKeyAccess;
    var b := Keys.InsertKey(s, k, u, h, es, x, now).0.keys;
    if b != s.keys {
      forall v ensures |Ordinary(b, v)| <= 200 && |LiveOrdinary(b, v)| <= 25 {
        if v == u {
          Fewer(Ordinary(b, v), Keys.KeysOf(s, u) + {k});
          Fewer(LiveOrdinary(b, v), Keys.ActiveKeysOf(s, u) + {k});
        } else {
          Fewer(Ordinary(b, v), Ordinary(s.keys, v));
          Fewer(LiveOrdinary(b, v), LiveOrdinary(s.keys, v));
        }
      }
    }
  }

  /** Only two kinds of steps add keys: one adds ordinary keys, the other the website's. */
  lemma NewKeys(w: World, env: Env, step: Step, now: nat)
    requires Enabled(w, env, step, now)
    ensures var t := Next(w.s, env, step, now);
            forall k :: k in t.keys && k !in w.s.keys ==>
              if step.InsertKey? then k == step.newKey && !t.keys[k].isSiteKey
              else step.InsertSiteKey? && k == step.newKey && t.keys[k].isSiteKey
  {
    hide HasKeyAccess;
    if !KeyStep(step) && !step.RecordUsage? {
      hide Next;
      Frame(w, env, step, now);
    }
  }

  lemma KeysStayFew(w: World, env: Env, step: Step, now: nat)
    requires FewKeys(w.s.keys) && Enabled(w, env, step, now)
    ensures FewKeys(Next(w.s, env, step, now).keys)
  {
    hide FewKeys, Keys.InsertKey;
    if step.InsertKey? {
      OneMoreKey(w.s, step.newKey, step.user, step.hash, step.endpoints, step.expiresAt, now);
    } else {
      hide Next;
      NewKeys(w, env, step, now);
      KeysEvolve(w, env, step, now);
      FewerKeys(w.s.keys, Next(w.s, env, step, now).keys);
    }
  }

  lemma SiteKeyRotated(s: State, k: KeyId, u: UserId, h: Hash, now: nat)
    requires OneSiteKey(s.keys) && k !in s.keys
    ensures OneSiteKey(NextKeys(s, InsertSiteKey(k, u, h), now).keys)
  {
  }

  lemma NoNewSiteKey(a: map<KeyId, ApiKey>, b: map<KeyId, ApiKey>)
    requires OneSiteKey(a)
    requires forall k :: k in b && LiveSiteKey(b[k]) ==> k in a && LiveSiteKey(a[k]) && b[k].userId == a[k].userId
    ensures OneSiteKey(b)
  {
  }

  lemma SiteKeyStaysOne(w: World, env: Env, step: Step, now: nat)
    requires OneSiteKey(w.s.keys) && Enabled(w, env, step, now)
    ensures OneSiteKey(Next(w.s, env, step, now).keys)
  {
    hide OneSiteKey;
    if step.InsertSiteKey? {
      SiteKeyRotated(w.s, step.newKey, step.user, step.hash, now);
    } else {
      hide Next;
      NewKeys(w, env, step, now);
      KeysEvolve(w, env, step, now);
      NoNewSiteKey(w.s.keys, Next(w.s, env, step, now).keys);
    }
  }

  // ---- The system account --------------------------------------------------------------------------------

  lemma UnlockedSystem(s: State, u: UserId, now: nat)
    requires SystemStands(s.users)
    ensures SystemStands(Keys.LockUser(s, u, now).users) && SystemStands(Keys.EnableUser(s, u).users)
    ensures SystemStands(Payments.ActivateFreeTier(s, u, now).users)
  {
    hide Keys.KeysOf, Keys.DropTokensOf;
  }

  lemma SameUsers(s: State, step: Step, now: nat)
    requires KeyStep(step) && !step.LockUser? && !step.EnableUser?
    ensures NextKeys(s, step, now).users == s.users
  {
    hide HasKeyAccess, Keys.KeysOf, Keys.DropTokensOf;
  }

  lemma SystemStillStands(w: World, env: Env, step: Step, now: nat)
    requires SystemStands(w.s.users) && Enabled(w, env, step, now)
    ensures SystemStands(Next(w.s, env, step, now).users)
  {
    hide Keys.LockUser, Keys.EnableUser, Payments.ActivateFreeTier, Enabled;
    if step.LockUser? || step.EnableUser? || step.ActivateFreeTier? {
      UnlockedSystem(w.s, step.user, now);
    } else if KeyStep(step) {
      hide SystemStands;
      SameUsers(w.s, step, now);
      hide NextKeys;
    } else {
      hide Next;
      Frame(w, env, step, now);
    }
  }

  // ---- Over runs -----------------------------------------------------------------------------------------

  ghost predicate Limited(s: State) {
    FewTokens(s.tokens) && FewKeys(s.keys) && OneSiteKey(s.keys) && SystemStands(s.users)
  }

  lemma {:induction false} LimitedRun(w: World, env: Env, run: seq<Event>)
    requires Limited(w.s) && Possible(w, env, run)
    ensures Limited(Run(w, env, run).s)
    decreases run
  {
    if run != [] {
      hide FewTokens, FewKeys, OneSiteKey, SystemStands, Enabled, Next;
      var e := run[0];
      TokensStayFew(w, env, e.step, e.now);
      KeysStayFew(w, env, e.step, e.now);
      SiteKeyStaysOne(w, env, e.step, e.now);
      SystemStillStands(w, env, e.step, e.now);
      LimitedRun(Advance(w, env, e.step, e.now), env, run[1..]);
    }
  }

  lemma EmptyIsLimited()
    ensures Limited(EMPTY.s)
  {
    forall k ensures |Keys.TokensOf(EMPTY.s.tokens, k)| <= 5 {
      assert Keys.TokensOf(EMPTY.s.tokens, k) == {};
    }
    forall u ensures |Ordinary(EMPTY.s.keys, u)| <= 200 && |LiveOrdinary(EMPTY.s.keys, u)| <= 25 {
      assert Ordinary(EMPTY.s.keys, u) == {} && LiveOrdinary(EMPTY.s.keys, u) == {};
    }
  }

  /** In every reachable state an account has at most 200 keys of its own, of which at most 25 are live, a key has
      at most five playground tokens, an account has at most one live website key, and the system account is
      neither locked nor on the free tier. */
  lemma LimitsHold(env: Env, run: seq<Event>)
    requires Possible(EMPTY, env, run)
    ensures var s := Run(EMPTY, env, run).s;
            (forall u :: |Ordinary(s.keys, u)| <= 200 && |LiveOrdinary(s.keys, u)| <= 25)
            && (forall k :: |Keys.TokensOf(s.tokens, k)| <= 5) && OneSiteKey(s.keys) && SystemStands(s.users)
  {
    EmptyIsLimited();
    LimitedRun(EMPTY, env, run);
  }

  /** Within its limits, an account with access gets the key it asks for, with exactly the endpoints, owner and expiry
      asked for; otherwise nothing happens. */
  lemma KeyIsMade(s: State, k: KeyId, u: UserId, h: Hash, es: seq<string>, x: Option<nat>, now: nat)
    requires k !in s.keys
    ensures var (t, ok) := Keys.InsertKey(s, k, u, h, es, x, now);
            (ok <==> k in t.keys) && (!ok ==> t == s)
            && (ok <==> u in s.users && HasKeyAccess(s.users[u], now) && |Keys.KeysOf(s, u)| < 200
                        && |Keys.ActiveKeysOf(s, u)| < 25)
            && (ok ==> t == s.(keys := s.keys[k := ApiKey(u, h, Some(es), None, false, None, x, None)]))
  {
    hide HasKeyAccess;
  }

  /** An account with access gets the token it asks for, in the place of the oldest ones; otherwise nothing happens. */
  lemma TokenIsMade(s: State, h: Hash, t: PlaygroundToken, d: set<Hash>, now: nat)
    requires h !in s.tokens && Keys.Oldest(s.tokens, t.apiKeyId, d)
    ensures var v := Keys.InsertToken(s, h, t, d, now);
            if t.userId in s.users && HasKeyAccess(s.users[t.userId], now)
            then v == s.(tokens := v.tokens) && h in v.tokens && v.tokens[h] == t
                 && forall x :: x in s.tokens ==>
                      (x in v.tokens && v.tokens[x] == s.tokens[x]) || (x in d && x !in v.tokens)
            else v == s
  {
    hide HasKeyAccess;
  }
}
