/** Which refusals are final. The API process remembers credential hashes answered `invalid`,
    `revoked` or `expired`. This is sound for every `expired`, for a `revoked` whose key was revoked,
    and for an `invalid` whose hash had been issued, and only for those. */
module Credentials {
  import opened Wrappers
  import opened Tables
  import opened Plans
  import opened Machine
  import Gateway
  import Keys
  import Payments

  ghost predicate KeyDead(s: State, k: KeyId, clock: nat) {
    k in s.keys && DeadRow(s.keys[k], clock)
  }

  /** A hash that was issued and is no key's any more, or never was one's. */
  ghost predicate Replaced(w: World, h: Hash) {
    h in w.h.issued && forall k :: k in w.s.keys ==> w.s.keys[k].keyHash != h
  }

  /** The credential can never be accepted again. */
  ghost predicate Dead(w: World, kind: Gateway.CredentialKind, h: Hash) {
    match kind
    case KeyCredential => (exists k :: KeyDead(w.s, k, w.h.clock) && w.s.keys[k].keyHash == h) || Replaced(w, h)
    case PlaygroundCredential =>
      h in w.h.issued
      && (h in w.s.tokens ==> w.s.tokens[h].expiresAt <= w.h.clock || KeyDead(w.s, w.s.tokens[h].apiKeyId, w.h.clock))
  }

  predicate Terminal(st: Gateway.Status) {
    st == Gateway.Invalid || st == Gateway.Expired || st == Gateway.Revoked
  }

  // ---- A dead credential stays dead ------------------------------------------------------------

  lemma DeadIsKept(w: World, env: Env, step: Step, now: nat, kind: Gateway.CredentialKind, h: Hash)
    requires Sound(w) && Enabled(w, env, step, now) && Dead(w, kind, h)
    ensures Dead(Advance(w, env, step, now), kind, h)
  {
    hide Next;
    var v := Advance(w, env, step, now);
    KeysEvolve(w, env, step, now);
    TokensEvolve(w, env, step, now);
    if kind == Gateway.KeyCredential && !Replaced(w, h) {
      var k :| KeyDead(w.s, k, w.h.clock) && w.s.keys[k].keyHash == h;
      assert KeyDead(v.s, k, v.h.clock) && v.s.keys[k].keyHash == h;
    }
  }

  lemma DeadIsRefused(w: World, env: Env, a: Gateway.AuthArgs, now: nat)
    requires Sound(w) && w.h.clock <= now && Dead(w, a.kind, a.hash)
    ensures Terminal(Gateway.Authorize(w.s, env, a, now).1.status)
  {
    FindKeyIsUnique(w, a.hash);
  }

  lemma {:induction false} DeadRun(w: World, env: Env, run: seq<Event>, kind: Gateway.CredentialKind, h: Hash)
    requires Sound(w) && Possible(w, env, run) && Dead(w, kind, h)
    ensures Dead(Run(w, env, run), kind, h)
    decreases run
  {
    if run != [] {
      hide Sound, Next, Observe, Dead;
      SoundIsKept(w, env, run[0].step, run[0].now);
      DeadIsKept(w, env, run[0].step, run[0].now, kind, h);
      DeadRun(Advance(w, env, run[0].step, run[0].now), env, run[1..], kind, h);
    }
  }

  // ---- Final answers --------------------------------------------------------------------------

  /** The key a credential presents, when it presents one. */
  ghost function PresentedKey(s: State, a: Gateway.AuthArgs, now: nat): Option<KeyId> {
    match Gateway.Identify(s, a.kind, a.hash, now)
    case Passed(k, _) => Some(k)
    case Rejected(_) => None
  }

  /** Answers about a credential that existed: expired, or revoked because its key is. */
  ghost predicate FinalAnswer(w: World, env: Env, a: Gateway.AuthArgs, now: nat) {
    var st := Gateway.Authorize(w.s, env, a, now).1.status;
    st == Gateway.Expired
    || (st == Gateway.Revoked && PresentedKey(w.s, a, now).Some? && PresentedKey(w.s, a, now).value in w.s.keys
        && w.s.keys[PresentedKey(w.s, a, now).value].revokedAt.Some?)
  }

  /** After a refusal the clock stands at the time of the answer and no table has changed. */
  ghost function AfterAnswer(w: World, now: nat): World {
    World(w.s, w.h.(clock := now))
  }

  lemma FinalMeansDead(w: World, env: Env, a: Gateway.AuthArgs, now: nat)
    requires Sound(w) && w.h.clock <= now && FinalAnswer(w, env, a, now)
    ensures Dead(AfterAnswer(w, now), a.kind, a.hash)
  {
    FindKeyIsUnique(w, a.hash);
    match Gateway.Identify(w.s, a.kind, a.hash, now)
    case Rejected(st) =>
    case Passed(k, via) =>
      DecideNeverExpires(w, env, a, now);
      assert KeyDead(w.s, k, now);
  }

  lemma DecisionsAreNotTerminal(s: State, env: Env, k: KeyId, via: bool, a: Gateway.AuthArgs, now: nat)
    requires k in s.keys && s.keys[k].userId in s.users
    ensures !Terminal(Gateway.Decide(s, env, k, via, a, now).answer.status)
  {
    hide Gateway.Buckets, Gateway.Combine, Gateway.HitAllStates, Gateway.HitAllRows, Gateway.ConsumeQuotas;
  }

  lemma DecideNeverExpires(w: World, env: Env, a: Gateway.AuthArgs, now: nat)
    requires Sound(w)
    ensures match Gateway.Screen(w.s, a.kind, a.hash, now)
            case Passed(k, via) => !Terminal(Gateway.Authorize(w.s, env, a, now).1.status)
            case Rejected(st) => Gateway.Authorize(w.s, env, a, now) == (w.s, Gateway.Refusal(st))
  {
    hide Gateway.Decide;
    FindKeyIsUnique(w, a.hash);
    match Gateway.Screen(w.s, a.kind, a.hash, now)
    case Passed(k, via) => DecisionsAreNotTerminal(w.s, env, k, via, a, now);
    case Rejected(_) =>
  }

  /** Once a credential is answered expired, or revoked because its key is, every later answer in any
      run is a refusal of the kind that is remembered; it is never ok. */
  lemma FinalIsForever(w: World, env: Env, a: Gateway.AuthArgs, now: nat, run: seq<Event>, b: Gateway.AuthArgs,
                       later: nat)
    requires Sound(w) && w.h.clock <= now && FinalAnswer(w, env, a, now)
    requires Possible(AfterAnswer(w, now), env, run) && Run(AfterAnswer(w, now), env, run).h.clock <= later
    requires b.kind == a.kind && b.hash == a.hash
    ensures Terminal(Gateway.Authorize(Run(AfterAnswer(w, now), env, run).s, env, b, later).1.status)
  {
    hide Gateway.Authorize, Next, Enabled, Observe;
    var v := AfterAnswer(w, now);
    FinalMeansDead(w, env, a, now);
    DeadRun(v, env, run, a.kind, a.hash);
    SoundRun(v, env, run);
    DeadIsRefused(Run(v, env, run), env, b, later);
  }

  // ---- ... and which `revoked` answers are not final -----------------------------------------

  /** No run turns the refusal into anything but another remembered refusal. */
  ghost predicate StaysTerminal(w: World, env: Env, a: Gateway.AuthArgs) {
    forall run: seq<Event>, later: nat :: Possible(w, env, run) && Run(w, env, run).h.clock <= later ==>
      Terminal(Gateway.Authorize(Run(w, env, run).s, env, a, later).1.status)
  }

  lemma NotTerminal(w: World, env: Env, a: Gateway.AuthArgs, run: seq<Event>, now: nat)
    requires Possible(w, env, run) && Run(w, env, run).h.clock <= now
    requires !Terminal(Gateway.Authorize(Run(w, env, run).s, env, a, now).1.status)
    ensures !StaysTerminal(w, env, a)
  {
    hide Gateway.Authorize, Run, Possible;
  }

  /** A credential whose key and owner stand is not answered with a refusal that is remembered. */
  lemma StandingIsAccepted(v: World, env: Env, a: Gateway.AuthArgs, k: KeyId, now: nat)
    requires Sound(v) && PresentedKey(v.s, a, now) == Some(k) && k in v.s.keys
    requires Gateway.Standing(v.s, k, now) == Gateway.Ok
    ensures !Terminal(Gateway.Authorize(v.s, env, a, now).1.status)
  {
    hide Sound, Gateway.Authorize, Gateway.Standing, Gateway.Identify;
    DecideNeverExpires(v, env, a, now);
  }

  /** What a `revoked` answer for a key that is not revoked means: its owner is locked. */
  lemma OnlyTheOwner(w: World, env: Env, a: Gateway.AuthArgs, now: nat, k: KeyId)
    requires Sound(w) && PresentedKey(w.s, a, now) == Some(k) && k in w.s.keys
    requires Gateway.Authorize(w.s, env, a, now).1.status == Gateway.Revoked && w.s.keys[k].revokedAt.None?
    ensures var s := Keys.EnableUser(w.s, w.s.keys[k].userId);
            PresentedKey(s, a, now) == Some(k) && k in s.keys && Gateway.Standing(s, k, now) == Gateway.Ok
  {
    DecideNeverExpires(w, env, a, now);
    hide Gateway.Authorize;
    assert Gateway.Standing(w.s, k, now) == Gateway.Revoked;
  }

  /** Unlocking the owner at once ends such a refusal. */
  lemma EnablingRevives(w: World, env: Env, a: Gateway.AuthArgs, now: nat, k: KeyId)
    requires Sound(w) && w.h.clock == now && PresentedKey(w.s, a, now) == Some(k) && k in w.s.keys
    requires Gateway.Authorize(w.s, env, a, now).1.status == Gateway.Revoked && w.s.keys[k].revokedAt.None?
    ensures var run := [Event(EnableUser(w.s.keys[k].userId), now)];
            Possible(w, env, run) && Run(w, env, run).h.clock == now
            && !Terminal(Gateway.Authorize(Run(w, env, run).s, env, a, now).1.status) && !StaysTerminal(w, env, a)
  {
    hide Sound, Gateway.Authorize, PresentedKey, Gateway.Standing;
    var e := Event(EnableUser(w.s.keys[k].userId), now);
    var v := Advance(w, env, e.step, now);
    OnlyTheOwner(w, env, a, now, k);
    assert Enabled(w, env, e.step, now) && v.s == Keys.EnableUser(w.s, w.s.keys[k].userId) && v.h.clock == now;
    hide Next, Observe, Enabled, Keys.EnableUser;
    SoundIsKept(w, env, e.step, now);
    assert [e] == [e] + [];
    Then(w, env, e, []);
    StandingIsAccepted(v, env, a, k, now);
    NotTerminal(w, env, a, [e], now);
  }

  /** The refusals stay of the remembered kind exactly when the key itself is revoked. When only its
      owner is locked, unlocking the account ends them, although the API process treats every
      `revoked` as final. */
  lemma RevokedIsFinalIff(w: World, env: Env, a: Gateway.AuthArgs, now: nat, k: KeyId)
    requires Sound(w) && w.h.clock == now && PresentedKey(w.s, a, now) == Some(k) && k in w.s.keys
    requires Gateway.Authorize(w.s, env, a, now).1.status == Gateway.Revoked
    ensures StaysTerminal(w, env, a) <==> w.s.keys[k].revokedAt.Some?
  {
    if w.s.keys[k].revokedAt.Some? {
      assert AfterAnswer(w, now) == w;
      forall run: seq<Event>, later: nat | Possible(w, env, run) && Run(w, env, run).h.clock <= later
        ensures Terminal(Gateway.Authorize(Run(w, env, run).s, env, a, later).1.status)
      {
        FinalIsForever(w, env, a, now, run, a, later);
      }
    } else {
      EnablingRevives(w, env, a, now, k);
    }
  }

  // ---- Runs that bring credentials back ----------------------------------------------------------

  /** A key as its owner makes it: for geocoding, without expiry. */
  function NewKey(u: UserId, h: Hash): ApiKey {
    ApiKey(u, h, Some(["geocode"]), None, false, None, None, None)
  }

  /** An account with the free tier, locked or not, and then a key for it. */
  function Enrolment(u: UserId, k: KeyId, h: Hash, locked: bool, now: nat): seq<Event> {
    [Event(SignUp(u, false), now)] + ([Event(ActivateFreeTier(u), now)] +
    ([Event(if locked then LockUser(u) else EnableUser(u), now)] +
    ([Event(InsertKey(k, u, h, ["geocode"], None), now)] + [])))
  }

  /** An account without keys that has activated the free tier, locked or not. */
  ghost predicate Fresh(s: State, u: UserId, k: KeyId, activated: Option<nat>, locked: Option<nat>) {
    u in s.users
    && s.users[u] == User(false, locked, None, None, activated, if activated.Some? then Some(0) else None)
    && k !in s.keys && (forall j :: j in s.keys ==> s.keys[j].userId != u)
  }

  lemma SignUpStep(s: State, u: UserId, k: KeyId)
    requires u !in s.users && k !in s.keys && forall j :: j in s.keys ==> s.keys[j].userId in s.users
    ensures var t := s.(users := s.users[u := User(false, None, None, None, None, None)]); Fresh(t, u, k, None, None)
  {
  }

  lemma ActivateStep(s: State, u: UserId, k: KeyId, now: nat)
    requires Fresh(s, u, k, None, None)
    ensures var t := Payments.ActivateFreeTier(s, u, now);
            Fresh(t, u, k, Some(now), None) && t.tokens == s.tokens && t.rate == s.rate
  {
  }

  lemma LockStep(s: State, u: UserId, k: KeyId, locked: bool, now: nat)
    requires Fresh(s, u, k, Some(now), None)
    ensures var t := if locked then Keys.LockUser(s, u, now) else Keys.EnableUser(s, u);
            Fresh(t, u, k, Some(now), if locked then Some(now) else None) && t.tokens == s.tokens && t.rate == s.rate
  {
    assert Keys.KeysOf(s, u) == {};
    assert Keys.DropTokensOf(s.tokens, {}) == s.tokens;
    var t := if locked then Keys.LockUser(s, u, now) else Keys.EnableUser(s, u);
    assert t.keys.Keys == s.keys.Keys && forall j :: j in s.keys ==> t.keys[j] == s.keys[j];
  }

  /** Keys are inserted without looking at the lock. */
  lemma InsertStep(s: State, u: UserId, k: KeyId, h: Hash, locked: Option<nat>, now: nat)
    requires Fresh(s, u, k, Some(now), locked)
    ensures var t := Keys.InsertKey(s, k, u, h, ["geocode"], None, now).0;
            t.users == s.users && t.tokens == s.tokens && t.rate == s.rate
            && t.keys == s.keys[k := NewKey(u, h)]
  {
    assert Keys.KeysOf(s, u) == {} && Keys.ActiveKeysOf(s, u) == {};
  }

  /** What an enrolment leaves behind. */
  ghost predicate HasEnrolled(w: World, v: World, u: UserId, k: KeyId, h: Hash, locked: bool, now: nat) {
    Sound(v) && v.h.clock == now && v.h.issued == w.h.issued + {h} && v.s.tokens == w.s.tokens
    && u in v.s.users
    && v.s.users[u] == User(false, if locked then Some(now) else None, None, None, Some(now), Some(0))
    && k in v.s.keys && v.s.keys[k] == NewKey(u, h) && v.s.rate == w.s.rate && v.h.charges == w.h.charges
  }

  /** The world between the steps of an enrolment that starts in w. */
  ghost predicate Underway(w: World, v: World, u: UserId, k: KeyId, activated: Option<nat>, locked: Option<nat>,
                           now: nat) {
    Fresh(v.s, u, k, activated, locked) && v.h.clock == now && v.h.issued == w.h.issued && v.s.tokens == w.s.tokens
    && v.s.rate == w.s.rate && v.h.charges == w.h.charges
  }

  lemma SignUpUnderway(w: World, env: Env, u: UserId, k: KeyId, now: nat)
    requires Sound(w) && w.h.clock <= now && u !in w.s.users && k !in w.s.keys
    ensures Enabled(w, env, SignUp(u, false), now)
    ensures Underway(w, Advance(w, env, SignUp(u, false), now), u, k, None, None, now)
  {
    SignUpStep(w.s, u, k);
    hide Fresh;
  }

  lemma ActivateUnderway(w: World, v: World, env: Env, u: UserId, k: KeyId, now: nat)
    requires Underway(w, v, u, k, None, None, now)
    ensures Enabled(v, env, ActivateFreeTier(u), now)
    ensures Underway(w, Advance(v, env, ActivateFreeTier(u), now), u, k, Some(now), None, now)
  {
    ActivateStep(v.s, u, k, now);
    hide Fresh, Payments.ActivateFreeTier;
  }

  lemma LockUnderway(w: World, v: World, env: Env, u: UserId, k: KeyId, locked: bool, now: nat)
    requires Underway(w, v, u, k, Some(now), None, now)
    ensures var step := if locked then LockUser(u) else EnableUser(u);
            Enabled(v, env, step, now)
            && Underway(w, Advance(v, env, step, now), u, k, Some(now), if locked then Some(now) else None, now)
  {
    LockStep(v.s, u, k, locked, now);
    hide Fresh, Keys.LockUser, Keys.EnableUser;
  }

  lemma InsertUnderway(w: World, v: World, env: Env, u: UserId, k: KeyId, h: Hash, locked: Option<nat>, now: nat)
    requires Underway(w, v, u, k, Some(now), locked, now) && h !in w.h.issued
    ensures var step := InsertKey(k, u, h, ["geocode"], None);
            var x := Advance(v, env, step, now);
            Enabled(v, env, step, now)
            && x.h.clock == now && x.h.issued == w.h.issued + {h} && x.s.tokens == w.s.tokens && x.s.users == v.s.users
            && x.s.keys == v.s.keys[k := NewKey(u, h)] && x.s.rate == w.s.rate && x.h.charges == w.h.charges
  {
    InsertStep(v.s, u, k, h, locked, now);
    hide Keys.InsertKey;
  }

  lemma Enrolled(w: World, env: Env, u: UserId, k: KeyId, h: Hash, locked: bool, now: nat)
    requires Sound(w) && w.h.clock <= now && u !in w.s.users && k !in w.s.keys && h !in w.h.issued
    ensures var run := Enrolment(u, k, h, locked, now);
            Possible(w, env, run) && HasEnrolled(w, Run(w, env, run), u, k, h, locked, now)
  {
    hide Next, Observe, Enabled, Sound;
    var e1, e2 := Event(SignUp(u, false), now), Event(ActivateFreeTier(u), now);
    var e3 := Event(if locked then LockUser(u) else EnableUser(u), now);
    var e4 := Event(InsertKey(k, u, h, ["geocode"], None), now);
    var w1 := Advance(w, env, e1.step, now);
    var w2 := Advance(w1, env, e2.step, now);
    var w3 := Advance(w2, env, e3.step, now);
    SignUpUnderway(w, env, u, k, now);
    ActivateUnderway(w, w1, env, u, k, now);
    LockUnderway(w, w2, env, u, k, locked, now);
    InsertUnderway(w, w3, env, u, k, h, if locked then Some(now) else None, now);
    hide Advance;
    Then(w, env, e1, [e2] + ([e3] + ([e4] + [])));
    Then(w1, env, e2, [e3] + ([e4] + []));
    Then(w2, env, e3, [e4] + []);
    Then(w3, env, e4, []);
    SoundRun(w, env, Enrolment(u, k, h, locked, now));
  }

  lemma LockedIsRevoked(v: World, env: Env, a: Gateway.AuthArgs, k: KeyId, now: nat)
    requires Sound(v) && a.kind == Gateway.KeyCredential && k in v.s.keys && v.s.keys[k].keyHash == a.hash
    requires v.s.keys[k].revokedAt.None? && v.s.keys[k].expiresAt.None?
    requires v.s.keys[k].userId in v.s.users && v.s.users[v.s.keys[k].userId].disabledAt.Some?
    ensures PresentedKey(v.s, a, now) == Some(k) && Gateway.Authorize(v.s, env, a, now).1.status == Gateway.Revoked
  {
    FindKeyIsUnique(v, a.hash);
    hide Gateway.Authorize, Sound;
    DecideNeverExpires(v, env, a, now);
  }

  // ---- `invalid` ------------------------------------------------------------------------------------

  lemma {:induction false} LongerThanAll(s: set<string>) returns (n: nat)
    ensures forall x :: x in s ==> |x| < n
  {
    n := 0;
    if s != {} {
      var x :| x in s;
      var m := LongerThanAll(s - {x});
      n := Max(m, |x| + 1);
    }
  }

  lemma Unused(s: set<string>) returns (x: string)
    ensures x !in s
  {
    var n := LongerThanAll(s);
    x := seq(n, i => 'a');
  }

  lemma InvalidAndIssuedIsDead(w: World, env: Env, a: Gateway.AuthArgs, now: nat)
    requires Sound(w) && Gateway.Authorize(w.s, env, a, now).1.status == Gateway.Invalid && a.hash in w.h.issued
    ensures Dead(w, a.kind, a.hash)
  {
    FindKeyIsUnique(w, a.hash);
    DecideNeverExpires(w, env, a, now);
  }

  /** A hash that was never issued can still become a key's. */
  lemma UnissuedKeyCanAppear(w: World, env: Env, a: Gateway.AuthArgs, now: nat)
    requires Sound(w) && w.h.clock == now && a.kind == Gateway.KeyCredential && a.hash !in w.h.issued
    ensures !StaysTerminal(w, env, a)
  {
    var u := Unused(w.s.users.Keys);
    var k := Unused(w.s.keys.Keys);
    var run := Enrolment(u, k, a.hash, false, now);
    Enrolled(w, env, u, k, a.hash, false, now);
    hide Run, Possible, Enrolment, Sound;
    var v := Run(w, env, run);
    FindKeyIsUnique(v, a.hash);
    StandingIsAccepted(v, env, a, k, now);
    NotTerminal(w, env, a, run, now);
  }

  /** Or a playground token's. */
  lemma UnissuedTokenCanAppear(w: World, env: Env, a: Gateway.AuthArgs, now: nat)
    requires Sound(w) && w.h.clock == now && a.kind == Gateway.PlaygroundCredential && a.hash !in w.h.issued
    ensures !StaysTerminal(w, env, a)
  {
    hide Sound, Enabled, Next, Observe, Run, Possible, Enrolment, Gateway.Authorize, StaysTerminal;
    var u := Unused(w.s.users.Keys);
    var k := Unused(w.s.keys.Keys);
    var h := Unused(w.h.issued + {a.hash});
    var enrol := Enrolment(u, k, h, false, now);
    Enrolled(w, env, u, k, h, false, now);
    var v := Run(w, env, enrol);
    NoTokensYet(w, k);
    TokenAppears(v, env, u, k, a, now);
    var e := Event(InsertToken(a.hash, PlaygroundToken(k, u, now + 1), {}), now);
    OneEvent(v, env, e);
    Joined(w, env, enrol, [e]);
    NotTerminal(w, env, a, enrol + [e], now);
  }

  lemma NoTokensYet(w: World, k: KeyId)
    requires Sound(w) && k !in w.s.keys
    ensures Keys.TokensOf(w.s.tokens, k) == {}
  {
  }

  lemma TokenAppears(v: World, env: Env, u: UserId, k: KeyId, a: Gateway.AuthArgs, now: nat)
    requires Sound(v) && v.h.clock == now && a.kind == Gateway.PlaygroundCredential && a.hash !in v.h.issued
    requires u in v.s.users && v.s.users[u].disabledAt.None? && HasKeyAccess(v.s.users[u], now)
    requires k in v.s.keys && v.s.keys[k].userId == u && Keys.TokensOf(v.s.tokens, k) == {}
    requires v.s.keys[k].revokedAt.None? && v.s.keys[k].expiresAt.None?
    ensures var step := InsertToken(a.hash, PlaygroundToken(k, u, now + 1), {});
            Enabled(v, env, step, now) && Advance(v, env, step, now).h.clock == now
            && !Terminal(Gateway.Authorize(Advance(v, env, step, now).s, env, a, now).1.status)
  {
    var step := InsertToken(a.hash, PlaygroundToken(k, u, now + 1), {});
    var x := Advance(v, env, step, now);
    TokenInserted(v, env, step, now);
    hide Next, Observe, Enabled, Sound, Gateway.Authorize;
    SoundIsKept(v, env, step, now);
    StandingIsAccepted(x, env, a, k, now);
  }

  lemma TokenInserted(v: World, env: Env, step: Step, now: nat)
    requires v.h.clock == now && step.InsertToken? && step.hash !in v.h.issued && step.dropped == {}
    requires step.token.userId in v.s.users && HasKeyAccess(v.s.users[step.token.userId], now)
    requires step.token.apiKeyId in v.s.keys && v.s.keys[step.token.apiKeyId].userId == step.token.userId
    requires Keys.TokensOf(v.s.tokens, step.token.apiKeyId) == {}
    ensures Enabled(v, env, step, now)
    ensures var x := Advance(v, env, step, now);
            x.h.clock == now && x.s.keys == v.s.keys && x.s.users == v.s.users
              && x.s.rate == v.s.rate && x.s.quota == v.s.quota && x.s.tokens == v.s.tokens[step.hash := step.token]
  {
    assert v.s.tokens - {} == v.s.tokens;
  }

  /** After an `invalid` answer the refusals stay of the remembered kind exactly when its hash was issued once:
      as a secret replaced since, or a token deleted since. */
  lemma InvalidIsFinalIff(w: World, env: Env, a: Gateway.AuthArgs, now: nat)
    requires Sound(w) && w.h.clock == now && Gateway.Authorize(w.s, env, a, now).1.status == Gateway.Invalid
    ensures StaysTerminal(w, env, a) <==> a.hash in w.h.issued
  {
    if a.hash in w.h.issued {
      InvalidAndIssuedIsDead(w, env, a, now);
      forall run: seq<Event>, later: nat | Possible(w, env, run) && Run(w, env, run).h.clock <= later
        ensures Terminal(Gateway.Authorize(Run(w, env, run).s, env, a, later).1.status)
      {
        DeadRun(w, env, run, a.kind, a.hash);
        SoundRun(w, env, run);
        DeadIsRefused(Run(w, env, run), env, a, later);
      }
    } else if a.kind == Gateway.KeyCredential {
      UnissuedKeyCanAppear(w, env, a, now);
    } else {
      UnissuedTokenCanAppear(w, env, a, now);
    }
  }
}
