/** What an account can do to keys and tokens: its own, and no other's. */
module Ownership {
  import opened Wrappers
  import opened Tables
  import opened Plans
  import opened Machine
  import Gateway
  import Keys
  import Usage

  // ---- Only one's own keys -------------------------------------------------------------------------------

  /** The account a step is made by, of the steps an account makes itself. */
  function Maker(step: Step): Option<UserId> {
    match step
    case InsertKey(_, u, _, _, _) => Some(u)
    case Revoke(u, _) => Some(u)
    case ReplaceSecret(_, u, _) => Some(u)
    case InsertToken(_, t, _) => Some(t.userId)
    case _ => None
  }

  /** A token for a key of another account than u. */
  predicate Foreign(keys: map<KeyId, ApiKey>, t: PlaygroundToken, u: UserId) {
    t.apiKeyId in keys && keys[t.apiKeyId].userId != u
  }

  /** No row of another account than u comes, goes or changes. */
  ghost predicate OtherKeysKept(a: map<KeyId, ApiKey>, b: map<KeyId, ApiKey>, u: UserId) {
    (forall k :: k in a && a[k].userId != u ==> k in b && b[k] == a[k])
    && (forall k :: k in b && b[k].userId != u ==> k in a && b[k] == a[k])
  }

  ghost predicate OtherTokensKept(s: State, t: State, u: UserId) {
    (forall h :: h in s.tokens && Foreign(s.keys, s.tokens[h], u) ==> h in t.tokens && t.tokens[h] == s.tokens[h])
    && (forall h :: h in t.tokens && Foreign(t.keys, t.tokens[h], u) ==> h in s.tokens && t.tokens[h] == s.tokens[h])
  }

  ghost predicate OthersKept(s: State, t: State, u: UserId) {
    OtherKeysKept(s.keys, t.keys, u) && OtherTokensKept(s, t, u)
  }

  lemma InsertKeyOthers(s: State, k: KeyId, u: UserId, h: Hash, es: seq<string>, x: Option<nat>, now: nat)
    requires k !in s.keys && forall h :: h in s.tokens ==> s.tokens[h].apiKeyId in s.keys
    ensures OthersKept(s, Keys.InsertKey(s, k, u, h, es, x, now).0, u)
  {
  }

  lemma RevokeOtherTokens(s: State, u: UserId, k: KeyId, now: nat)
    requires k in s.keys && s.keys[k].userId == u
    ensures OtherTokensKept(s, Keys.RevokeKey(s, k, now), u)
  {
  }

  lemma RevokeOthers(s: State, u: UserId, k: KeyId, now: nat)
    ensures OthersKept(s, Keys.Revoke(s, u, k, now), u)
  {
    if k in s.keys && s.keys[k].userId == u {
      RevokeOtherTokens(s, u, k, now);
    }
    hide OtherTokensKept, Keys.DropTokensOf;
    assert OtherTokensKept(s, s, u) by { NothingDone(s, u); }
  }

  lemma NothingDone(s: State, u: UserId)
    ensures OtherTokensKept(s, s, u)
  {
  }

  lemma ReplaceSecretOthers(s: State, k: KeyId, u: UserId, h: Hash, now: nat)
    ensures OthersKept(s, Keys.ReplaceSecret(s, k, u, h, now), u)
  {
  }

  lemma InsertTokenOthers(s: State, h: Hash, t: PlaygroundToken, d: set<Hash>, now: nat)
    requires h !in s.tokens && t.apiKeyId in s.keys && s.keys[t.apiKeyId].userId == t.userId
    requires Keys.Oldest(s.tokens, t.apiKeyId, d)
    ensures OthersKept(s, Keys.InsertToken(s, h, t, d, now), t.userId)
  {
  }

  /** What an account does to keys and tokens leaves every key of every other account, and every token for such a
      key, as it was. */
  lemma MadeForOneself(w: World, env: Env, step: Step, now: nat)
    requires Sound(w) && Enabled(w, env, step, now) && Maker(step).Some?
    ensures OthersKept(w.s, Next(w.s, env, step, now), Maker(step).value)
  {
    hide OthersKept, Keys.InsertKey, Keys.Revoke, Keys.ReplaceSecret, Keys.InsertToken, Keys.Oldest;
    match step
    case InsertKey(k, u, h, es, x) => InsertKeyOthers(w.s, k, u, h, es, x, now);
    case Revoke(u, k) => RevokeOthers(w.s, u, k, now);
    case ReplaceSecret(k, u, h) => ReplaceSecretOthers(w.s, k, u, h, now);
    case InsertToken(h, t, d) => InsertTokenOthers(w.s, h, t, d, now);
    case _ =>
  }

  /** A replacement of the secret of key k asked for by its owner. */
  predicate OwnReplacement(e: Event, k: KeyId, owner: UserId) {
    e.step.ReplaceSecret? && e.step.key == k && e.step.user == owner
  }

  lemma HashChange(w: World, env: Env, step: Step, now: nat, k: KeyId)
    requires Enabled(w, env, step, now) && k in w.s.keys
    ensures var t := Next(w.s, env, step, now);
            k in t.keys && t.keys[k].userId == w.s.keys[k].userId
            && (t.keys[k].keyHash != w.s.keys[k].keyHash ==>
                  OwnReplacement(Event(step, now), k, w.s.keys[k].userId)
                  && HasKeyAccess(w.s.users[w.s.keys[k].userId], now))
  {
    OwnersAreKept(w, env, step, now, k);
    if !KeyStep(step) && !step.RecordUsage? {
      hide Next;
      Frame(w, env, step, now);
    } else if step.RecordUsage? {
      hide Usage.LastUsed;
    }
  }

  /** Over any run, the secret of a key changes only in a replacement asked for by its owner. */
  lemma {:induction false} SecretsAreTheOwners(w: World, env: Env, run: seq<Event>, k: KeyId)
    requires Possible(w, env, run) && k in w.s.keys
    ensures var v := Run(w, env, run);
            k in v.s.keys
            && (v.s.keys[k].keyHash != w.s.keys[k].keyHash ==>
                  exists i :: 0 <= i < |run| && OwnReplacement(run[i], k, w.s.keys[k].userId))
    decreases run
  {
    if run != [] {
      hide Next, Observe, HasKeyAccess;
      var e := run[0];
      var x := Advance(w, env, e.step, e.now);
      HashChange(w, env, e.step, e.now, k);
      SecretsAreTheOwners(x, env, run[1..], k);
      if Run(x, env, run[1..]).s.keys[k].keyHash != x.s.keys[k].keyHash {
        var i :| 0 <= i < |run[1..]| && OwnReplacement(run[1..][i], k, x.s.keys[k].userId);
        assert OwnReplacement(run[i + 1], k, w.s.keys[k].userId);
      } else if x.s.keys[k].keyHash != w.s.keys[k].keyHash {
        assert OwnReplacement(run[0], k, w.s.keys[k].userId);
      }
    }
  }
}
