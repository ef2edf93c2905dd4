/** API keys, playground tokens and the operator's incident functions. A step that throws leaves
    the tables unchanged. */
module Keys {
  import opened Wrappers
  import opened Tables
  import opened Plans

  const MAX_ACTIVE_KEYS_PER_USER: nat := 25
  const MAX_TOTAL_KEYS_PER_USER: nat := 200
  const MAX_PLAYGROUND_TOKENS_PER_KEY: nat := 5

  function KeysOf(s: State, user: UserId): set<KeyId> {
    set k | k in s.keys && s.keys[k].userId == user
  }

  function ActiveKeysOf(s: State, user: UserId): set<KeyId> {
    set k | k in s.keys && s.keys[k].userId == user && s.keys[k].revokedAt.None?
  }

  function TokensOf(tokens: map<Hash, PlaygroundToken>, key: KeyId): set<Hash> {
    set h | h in tokens && tokens[h].apiKeyId == key
  }

  function DropTokensOf(tokens: map<Hash, PlaygroundToken>, ks: set<KeyId>): map<Hash, PlaygroundToken> {
    map h | h in tokens && tokens[h].apiKeyId !in ks :: tokens[h]
  }

  function InsertKey(s: State, newId: KeyId, user: UserId, hash: Hash, endpoints: seq<string>,
                     expiresAt: Option<nat>, now: nat): (State, bool) {
    if user !in s.users || !HasKeyAccess(s.users[user], now) then (s, false)
    else if |KeysOf(s, user)| >= MAX_TOTAL_KEYS_PER_USER then (s, false)
    else if |ActiveKeysOf(s, user)| >= MAX_ACTIVE_KEYS_PER_USER then (s, false)
    else (s.(keys := s.keys[newId := ApiKey(user, hash, Some(endpoints), None, false, None, expiresAt, None)]), true)
  }

  function RevokedKey(key: ApiKey, now: nat): ApiKey {
    if key.revokedAt.Some? then key else key.(revokedAt := Some(now))
  }

  /** The operator's revocation of any key. */
  function RevokeKey(s: State, k: KeyId, now: nat): State {
    if k !in s.keys then s
    else s.(keys := s.keys[k := RevokedKey(s.keys[k], now)], tokens := DropTokensOf(s.tokens, {k}))
  }

  /** The owner's revocation. */
  function Revoke(s: State, user: UserId, k: KeyId, now: nat): State {
    if k !in s.keys || s.keys[k].userId != user then s else RevokeKey(s, k, now)
  }

  function ReplaceSecret(s: State, k: KeyId, user: UserId, hash: Hash, now: nat): State {
    if k !in s.keys || s.keys[k].userId != user then s
    else if user !in s.users || !HasKeyAccess(s.users[user], now) then s
    else if s.keys[k].revokedAt.Some? then s
    else if s.keys[k].expiresAt.Some? && s.keys[k].expiresAt.value <= now then s
    else s.(keys := s.keys[k := s.keys[k].(keyHash := hash)], tokens := DropTokensOf(s.tokens, {k}))
  }

  /** `dropped` are the oldest tokens of a key beyond the newest four. */
  predicate Oldest(tokens: map<Hash, PlaygroundToken>, key: KeyId, dropped: set<Hash>) {
    var all := TokensOf(tokens, key);
    dropped <= all
    && |dropped| == Max(0, |all| - (MAX_PLAYGROUND_TOKENS_PER_KEY - 1))
    && (forall d, e | d in dropped && e in all - dropped :: tokens[d].expiresAt <= tokens[e].expiresAt)
  }

  function InsertToken(s: State, hash: Hash, token: PlaygroundToken, dropped: set<Hash>, now: nat): State {
    if token.userId !in s.users || !HasKeyAccess(s.users[token.userId], now) then s
    else s.(tokens := (s.tokens - dropped)[hash := token])
  }

  function LockUser(s: State, user: UserId, now: nat): State {
    if user !in s.users || s.users[user].isSystem then s
    else s.(users := s.users[user := s.users[user].(disabledAt := Some(now))],
            keys := map k | k in s.keys :: if s.keys[k].userId == user then RevokedKey(s.keys[k], now) else s.keys[k],
            tokens := DropTokensOf(s.tokens, KeysOf(s, user)))
  }

  function EnableUser(s: State, user: UserId): State {
    if user !in s.users then s
    else s.(users := s.users[user := s.users[user].(disabledAt := None)])
  }
}
