/** What revoking, locking and replacing a secret put an end to: every credential of the key, and for good. */
module Revocation {
  import opened Wrappers
  import opened Tables
  import opened Plans
  import opened Machine
  import opened Credentials
  import opened Readmission
  import Gateway
  import Keys

  /** The credential is the secret of key k, or a playground token for it. */
  predicate CredentialOf(s: State, a: Gateway.AuthArgs, k: KeyId)
    requires k in s.keys
  {
    match a.kind
    case KeyCredential => a.hash == s.keys[k].keyHash
    case PlaygroundCredential => a.hash in s.tokens && s.tokens[a.hash].apiKeyId == k
  }

  /** A step that revokes key k: by its owner, by the operator, or by locking the account. */
  predicate Revokes(s: State, step: Step, k: KeyId)
    requires k in s.keys && s.keys[k].userId in s.users
  {
    var u := s.keys[k].userId;
    step == RevokeKey(k) || step == Revoke(u, k) || (step == LockUser(u) && !s.users[u].isSystem)
  }

  /** The key is revoked, and so is nothing else unless the account is locked; its tokens are gone. */
  lemma RevokedNow(s: State, step: Step, k: KeyId, now: nat)
    requires k in s.keys && s.keys[k].userId in s.users && Revokes(s, step, k)
    ensures var t := NextKeys(s, step, now);
            k in t.keys && t.keys[k] == s.keys[k].(revokedAt := t.keys[k].revokedAt) && t.keys[k].revokedAt.Some?
            && (s.keys[k].revokedAt.None? ==> t.keys[k].revokedAt == Some(now))
            && forall h :: h in t.tokens ==> t.tokens[h].apiKeyId != k && h in s.tokens && t.tokens[h] == s.tokens[h]
  {
    hide HasKeyAccess;
  }

  /** Nothing happens to other keys and their tokens, unless the whole account is locked. */
  lemma OnlyThatKey(s: State, step: Step, k: KeyId, now: nat)
    requires k in s.keys && (step == RevokeKey(k) || step == Revoke(s.keys[k].userId, k))
    ensures var t := NextKeys(s, step, now);
            t.keys.Keys == s.keys.Keys && (forall j :: j in s.keys && j != k ==> t.keys[j] == s.keys[j])
            && forall h :: h in s.tokens && s.tokens[h].apiKeyId != k ==> h in t.tokens && t.tokens[h] == s.tokens[h]
  {
  }

  /** Locking an account touches no other account and no key or token of one. */
  lemma OnlyThatAccount(s: State, u: UserId, now: nat)
    ensures var t := Keys.LockUser(s, u, now);
            t.keys.Keys == s.keys.Keys && (forall j :: j in s.keys && s.keys[j].userId != u ==> t.keys[j] == s.keys[j])
            && (forall v :: v in s.users && v != u ==> v in t.users && t.users[v] == s.users[v])
            && (u in s.users && !s.users[u].isSystem ==> u in t.users && t.users[u].disabledAt.Some?)
  {
    hide Keys.DropTokensOf, Keys.KeysOf;
  }

  lemma OnlyItsTokens(s: State, u: UserId, now: nat, h: Hash)
    requires h in s.tokens && s.tokens[h].apiKeyId !in Keys.KeysOf(s, u)
    ensures var t := Keys.LockUser(s, u, now); h in t.tokens && t.tokens[h] == s.tokens[h]
  {
  }

  lemma KeyStepTaken(w: World, env: Env, step: Step, now: nat)
    requires KeyStep(step)
    ensures var v := Advance(w, env, step, now);
            v.s == NextKeys(w.s, step, now) && v.h.clock == now && v.h.issued == w.h.issued + Issued(step)
  {
    hide NextKeys;
  }

  /** A revoked key, its secret or a token for it, is never answered ok again, whatever follows. */
  lemma RevocationIsForGood(w: World, env: Env, step: Step, now: nat, k: KeyId, a: Gateway.AuthArgs)
    requires Sound(w) && Enabled(w, env, step, now) && k in w.s.keys && w.s.keys[k].userId in w.s.users
    requires Revokes(w.s, step, k) && CredentialOf(w.s, a, k)
    ensures !ComesBack(Advance(w, env, step, now), env, a)
  {
    hide Advance, NextKeys, Enabled, Sound, CredentialOf, Dead;
    var v := Advance(w, env, step, now);
    SoundIsKept(w, env, step, now);
    RevokedNow(w.s, step, k, now);
    KeyStepTaken(w, env, step, now);
    assert Issued(step) == {};
    hide Revokes;
    RevokedIsDead(w, v, k, a);
    DeadNeverComesBack(v, env, a);
  }

  lemma RevokedIsDead(w: World, v: World, k: KeyId, a: Gateway.AuthArgs)
    requires Sound(w) && k in w.s.keys && CredentialOf(w.s, a, k) && w.h.issued <= v.h.issued
    requires k in v.s.keys && v.s.keys[k].keyHash == w.s.keys[k].keyHash && v.s.keys[k].revokedAt.Some?
    requires forall h :: h in v.s.tokens ==> v.s.tokens[h].apiKeyId != k
    requires forall h :: h in v.s.tokens ==> h in w.s.tokens && v.s.tokens[h] == w.s.tokens[h]
    ensures Dead(v, a.kind, a.hash)
  {
    assert KeyDead(v.s, k, v.h.clock);
  }

  /** When a live key of an account with access gets a new secret, the new one presents the key, and the old one and all
      tokens made with it are never answered ok again. */
  lemma ReplacedSecretIsDead(w: World, env: Env, k: KeyId, h: Hash, now: nat, a: Gateway.AuthArgs, t: nat)
    requires var u := if k in w.s.keys then w.s.keys[k].userId else "";
             Sound(w) && Enabled(w, env, ReplaceSecret(k, u, h), now) && k in w.s.keys && u in w.s.users
             && HasKeyAccess(w.s.users[u], now) && Lives(w.s.keys[k], now)
    requires CredentialOf(w.s, a, k)
    ensures var v := Advance(w, env, ReplaceSecret(k, w.s.keys[k].userId, h), now);
            !ComesBack(v, env, a) && PresentedKey(v.s, a.(kind := Gateway.KeyCredential, hash := h), t) == Some(k)
  {
    var step := ReplaceSecret(k, w.s.keys[k].userId, h);
    var v := Advance(w, env, step, now);
    SoundIsKept(w, env, step, now);
    SecretReplaced(w, env, k, h, now);
    assert a.hash in w.h.issued && h !in w.h.issued;
    hide Advance, Enabled, HasKeyAccess;
    NotTheOldOne(w, v, k, h, a);
    PresentsKey(v, k, a.(kind := Gateway.KeyCredential, hash := h), t);
    hide Sound;
    DeadNeverComesBack(v, env, a);
  }

  lemma SecretReplaced(w: World, env: Env, k: KeyId, h: Hash, now: nat)
    requires k in w.s.keys && w.s.keys[k].userId in w.s.users && HasKeyAccess(w.s.users[w.s.keys[k].userId], now)
    requires Lives(w.s.keys[k], now)
    ensures var v := Advance(w, env, ReplaceSecret(k, w.s.keys[k].userId, h), now);
            v.s.keys == w.s.keys[k := w.s.keys[k].(keyHash := h)] && v.h.issued == w.h.issued + {h}
            && (forall x :: x in v.s.tokens ==>
                  x in w.s.tokens && w.s.tokens[x].apiKeyId != k && v.s.tokens[x] == w.s.tokens[x])
            && forall x :: x in w.s.tokens && w.s.tokens[x].apiKeyId != k ==> x in v.s.tokens
  {
    hide HasKeyAccess;
  }

  lemma NotTheOldOne(w: World, v: World, k: KeyId, h: Hash, a: Gateway.AuthArgs)
    requires Sound(w) && k in w.s.keys && CredentialOf(w.s, a, k) && a.hash in w.h.issued && h !in w.h.issued
    requires v.s.keys == w.s.keys[k := w.s.keys[k].(keyHash := h)] && v.h.issued == w.h.issued + {h}
    requires forall x :: x in v.s.tokens ==> x in w.s.tokens && w.s.tokens[x].apiKeyId != k
    ensures Dead(v, a.kind, a.hash)
  {
    if a.kind == Gateway.KeyCredential {
      assert Replaced(v, a.hash);
    }
  }
}
