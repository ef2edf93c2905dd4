/** Which request records are stored, as what, and what they say of the keys they were made with. */
module Intake {
  import opened Wrappers
  import opened Tables
  import opened Machine
  import opened Usage
  import opened RollupLedger
  import Gateway
  import Keys

  // ---- What is stored --------------------------------------------------------------------------------------

  predicate Between(x: real, lo: int, hi: int) {
    lo as real <= x <= hi as real
  }

  predicate HasStatus(e: Entry, n: int) {
    e.statusCode == Some(n as real)
  }

  /** A record the gateway could have reported: of an existing key and its owner, for one of the two endpoints, with a
      whole HTTP status, made in the last day or, by a clock that runs ahead, the next five minutes. */
  ghost predicate Credible(keys: map<KeyId, ApiKey>, e: Entry, now: nat) {
    && e.keyId in keys && e.userId == keys[e.keyId].userId
    && (e.endpoint == "/v1/geocode" || e.endpoint == "/v1/route") && (e.httpMethod == "GET" || e.httpMethod == "HEAD")
    && (exists n :: HasStatus(e, n) && 100 <= n <= 599)
    && e.timestamp.Some? && Between(e.timestamp.value, now - 86_400_000, now + 300_000)
  }

  /** What is stored of it: itself, but no time from the future, and a response time of whole milliseconds. */
  predicate StoredAs(r: Request, e: Entry, now: nat) {
    && r.key == e.keyId && r.user == e.userId && r.endpoint == e.endpoint && r.httpMethod == e.httpMethod
    && e.statusCode == Some(r.statusCode as real) && r.responseTimeMs == RoundedResponseTime(e.responseTimeMs)
    && e.timestamp.Some? && r.timestamp <= now as real && r.timestamp <= e.timestamp.value
    && (r.timestamp == now as real || r.timestamp == e.timestamp.value)
  }

  lemma PlausibleIff(keys: map<KeyId, ApiKey>, e: Entry, now: nat)
    ensures Plausible(keys, e, now) <==> Credible(keys, e, now)
  {
    assert ["/v1/geocode", "/v1/route"][0] == "/v1/geocode" && ["/v1/geocode", "/v1/route"][1] == "/v1/route";
    assert ["GET", "HEAD"][0] == "GET" && ["GET", "HEAD"][1] == "HEAD";
    if e.statusCode.Some? {
      var n := e.statusCode.value.Floor;
      if e.statusCode.value == n as real && 100 <= n <= 599 {
        assert HasStatus(e, n);
      }
    }
  }

  /** A single record is stored exactly when it is credible. */
  lemma OneIsStored(keys: map<KeyId, ApiKey>, e: Entry, now: nat)
    ensures var rs := Accepted(keys, [e], now);
            if Credible(keys, e, now) then |rs| == 1 && StoredAs(rs[0], e, now) else rs == []
  {
    PlausibleIff(keys, e, now);
    hide Credible, Plausible;
    assert Accepted(keys, [], now) == [];
    assert [e][..0] == [];
    if Plausible(keys, e, now) {
      KeptAs(keys, e, now);
    }
  }

  lemma KeptAs(keys: map<KeyId, ApiKey>, e: Entry, now: nat)
    requires Plausible(keys, e, now)
    ensures StoredAs(ToRequest(e, now), e, now)
  {
  }

  /** A batch is stored record by record, in order. */
  lemma {:induction false} BatchIsStored(keys: map<KeyId, ApiKey>, a: seq<Entry>, b: seq<Entry>, now: nat)
    ensures Accepted(keys, a + b, now) == Accepted(keys, a, now) + Accepted(keys, b, now)
  {
    if b == [] {
      assert a + b == a;
    } else {
      hide Plausible;
      BatchIsStored(keys, a, b[..|b| - 1], now);
      assert (a + b)[..|a + b| - 1] == a + b[..|b| - 1];
    }
  }

  // ---- The history -----------------------------------------------------------------------------------------

  /** A request that can have been made. */
  predicate Proper(r: Request) {
    (r.endpoint == "/v1/geocode" || r.endpoint == "/v1/route") && (r.httpMethod == "GET" || r.httpMethod == "HEAD")
    && 100 <= r.statusCode <= 599 && 0 <= r.responseTimeMs <= 600_000
  }

  lemma {:induction false} AcceptedAreProper(keys: map<KeyId, ApiKey>, es: seq<Entry>, now: nat)
    ensures forall i :: 0 <= i < |Accepted(keys, es, now)| ==> Proper(Accepted(keys, es, now)[i])
    ensures forall i :: 0 <= i < |Accepted(keys, es, now)| ==>
              Between(Accepted(keys, es, now)[i].timestamp, now - 86_400_000, now)
  {
    if es != [] {
      var e := es[|es| - 1];
      AcceptedAreProper(keys, es[..|es| - 1], now);
      PlausibleIff(keys, e, now);
      if Plausible(keys, e, now) {
        KeptAs(keys, e, now);
        ResponseTimeIsNearest(e.responseTimeMs);
        hide RoundedResponseTime, Plausible;
      }
    }
  }

  lemma AcceptedGrow(w: World, env: Env, step: Step, now: nat)
    ensures Advance(w, env, step, now).h.accepted
            == w.h.accepted + if step.RecordUsage?
                 then Accepted(w.s.keys, step.entries[..Min(MAX_USAGE_ENTRIES, |step.entries|)], now) else []
  {
    hide Next, Accepted;
  }

  lemma {:induction false} ProperRun(w: World, env: Env, run: seq<Event>)
    requires forall i :: 0 <= i < |w.h.accepted| ==> Proper(w.h.accepted[i])
    ensures var v := Run(w, env, run); forall i :: 0 <= i < |v.h.accepted| ==> Proper(v.h.accepted[i])
    decreases run
  {
    hide Proper;
    if run != [] {
      hide Advance, Accepted;
      var e := run[0];
      AcceptedGrow(w, env, e.step, e.now);
      if e.step.RecordUsage? {
        AcceptedAreProper(w.s.keys, e.step.entries[..Min(MAX_USAGE_ENTRIES, |e.step.entries|)], e.now);
      }
      var x := Advance(w, env, e.step, e.now);
      assert forall i :: 0 <= i < |x.h.accepted| ==> Proper(x.h.accepted[i]);
      ProperRun(x, env, run[1..]);
      assert Run(w, env, run) == Run(x, env, run[1..]);
    }
  }

  // ---- When a key was last used ----------------------------------------------------------------------------

  ghost predicate HasRecord(rs: seq<Request>, k: KeyId, t: real) {
    exists i :: 0 <= i < |rs| && rs[i].key == k && rs[i].timestamp == t
  }

  /** A key's last use is not before any of its records, and is that of one of them. */
  ghost predicate LastUse(key: ApiKey, rs: seq<Request>, k: KeyId) {
    (forall i :: 0 <= i < |rs| && rs[i].key == k ==> rs[i].timestamp <= key.lastUsedAt.GetOr(0.0))
    && (key.lastUsedAt.Some? ==> key.lastUsedAt.value > 0.0 && HasRecord(rs, k, key.lastUsedAt.value))
  }

  ghost predicate UseRecorded(w: World) {
    (forall k :: k in w.s.keys ==> LastUse(w.s.keys[k], w.h.accepted, k))
    && (forall i :: 0 <= i < |w.h.accepted| ==> w.h.accepted[i].key in w.s.keys)
  }

  lemma MoreRecords(a: seq<Request>, b: seq<Request>, k: KeyId, t: real)
    ensures HasRecord(a, k, t) || HasRecord(b, k, t) ==> HasRecord(a + b, k, t)
  {
    if HasRecord(a, k, t) {
      var i :| 0 <= i < |a| && a[i].key == k && a[i].timestamp == t;
      assert (a + b)[i] == a[i];
    } else if HasRecord(b, k, t) {
      var i :| 0 <= i < |b| && b[i].key == k && b[i].timestamp == t;
      assert (a + b)[|a| + i] == b[i];
    }
  }

  lemma {:induction false} LatestIs(rs: seq<Request>, k: KeyId)
    ensures var t := LastUsed(rs, k);
            (forall i :: 0 <= i < |rs| && rs[i].key == k ==> t.Some? && rs[i].timestamp <= t.value)
            && (t.Some? && t.value > 0.0 ==> HasRecord(rs, k, t.value))
  {
    if rs != [] {
      var init, r := rs[..|rs| - 1], rs[|rs| - 1];
      LatestIs(init, k);
      assert rs == init + [r];
      assert r.key == k ==> HasRecord([r], k, r.timestamp) by { assert [r][0] == r; }
      hide HasRecord;
      MoreRecords(init, [r], k, LastUsed(rs, k).GetOr(0.0));
    }
  }

  lemma TouchedLastUse(keys: map<KeyId, ApiKey>, rs: seq<Request>, more: seq<Request>, k: KeyId)
    requires k in keys && LastUse(keys[k], rs, k)
    ensures LastUse(TouchKeys(keys, more)[k], rs + more, k)
  {
    LatestIs(more, k);
    hide LastUsed, HasRecord;
    var all, key := rs + more, TouchKeys(keys, more)[k];
    MoreRecords(rs, more, k, key.lastUsedAt.GetOr(0.0));
    assert forall i :: 0 <= i < |more| ==> more[i] == all[|rs| + i];
    assert forall i :: 0 <= i < |rs| ==> rs[i] == all[i];
    forall i | 0 <= i < |all| && all[i].key == k ensures all[i].timestamp <= key.lastUsedAt.GetOr(0.0) {
      assert i >= |rs| ==> all[i] == more[i - |rs|];
    }
  }

  lemma UseAfterRecord(w: World, env: Env, entries: seq<Entry>, now: nat)
    requires UseRecorded(w)
    ensures UseRecorded(Advance(w, env, RecordUsage(entries), now))
  {
    hide Advance, Accepted, LastUse;
    var v := Advance(w, env, RecordUsage(entries), now);
    var batch := entries[..Min(MAX_USAGE_ENTRIES, |entries|)];
    var more := Accepted(w.s.keys, batch, now);
    Recorded(w, env, entries, now);
    TouchKeepsIds(w.s.keys, more);
    hide TouchKeys;
    forall k | k in v.s.keys ensures LastUse(v.s.keys[k], v.h.accepted, k) {
      TouchedLastUse(w.s.keys, w.h.accepted, more, k);
    }
    forall i | 0 <= i < |v.h.accepted| ensures v.h.accepted[i].key in v.s.keys {
      if i >= |w.h.accepted| {
        AcceptedAreGood(w.s.keys, batch, now, i - |w.h.accepted|);
      }
    }
  }

  /** Keys keep when they were last used, and new ones have not been. */
  ghost predicate UseKept(a: map<KeyId, ApiKey>, b: map<KeyId, ApiKey>) {
    forall k :: k in b ==> b[k].lastUsedAt == if k in a then a[k].lastUsedAt else None
  }

  lemma KeptByInsert(s: State, k: KeyId, u: UserId, h: Hash, es: seq<string>, x: Option<nat>, now: nat)
    requires k !in s.keys
    ensures UseKept(s.keys, Keys.InsertKey(s, k, u, h, es, x, now).0.keys)
    ensures UseKept(s.keys, NextKeys(s, InsertSiteKey(k, u, h), now).keys)
  {
    hide Keys.KeysOf, Keys.ActiveKeysOf;
  }

  lemma KeptByChanges(s: State, k: KeyId, u: UserId, h: Hash, now: nat)
    ensures UseKept(s.keys, Keys.RevokeKey(s, k, now).keys) && UseKept(s.keys, Keys.ReplaceSecret(s, k, u, h, now).keys)
    ensures UseKept(s.keys, s.keys)
  {
    hide Keys.DropTokensOf;
  }

  lemma KeptByLock(s: State, u: UserId, now: nat)
    ensures UseKept(s.keys, Keys.LockUser(s, u, now).keys)
  {
    hide Keys.KeysOf, Keys.DropTokensOf;
  }

  lemma KeptByKeySteps(s: State, step: Step, now: nat)
    requires KeyStep(step) && (step.InsertKey? || step.InsertSiteKey? ==> step.newKey !in s.keys)
    ensures UseKept(s.keys, NextKeys(s, step, now).keys)
  {
    hide UseKept, Keys.InsertKey, Keys.RevokeKey, Keys.ReplaceSecret, Keys.LockUser;
    KeptByChanges(s, "", "", "", now);
    match step
    case InsertKey(k, u, h, es, x) => KeptByInsert(s, k, u, h, es, x, now);
    case InsertSiteKey(k, u, h) => KeptByInsert(s, k, u, h, [], None, now);
    case Revoke(u, k) => KeptByChanges(s, k, u, "", now);
    case RevokeKey(k) => KeptByChanges(s, k, "", "", now);
    case ReplaceSecret(k, u, h) => KeptByChanges(s, k, u, h, now);
    case LockUser(u) => KeptByLock(s, u, now);
    case _ =>
  }

  /** Other steps make and change keys without touching when they were last used. */
  lemma UseUntouched(w: World, env: Env, step: Step, now: nat)
    requires Enabled(w, env, step, now) && !step.RecordUsage?
    ensures UseKept(w.s.keys, Next(w.s, env, step, now).keys)
  {
    if KeyStep(step) {
      KeptByKeySteps(w.s, step, now);
      hide NextKeys;
    } else {
      hide Next;
      Frame(w, env, step, now);
    }
  }

  lemma UseAfterOthers(w: World, env: Env, step: Step, now: nat)
    requires UseRecorded(w) && Enabled(w, env, step, now) && !step.RecordUsage?
    ensures UseRecorded(Advance(w, env, step, now))
  {
    hide Advance;
    var v := Advance(w, env, step, now);
    NothingRecorded(w, env, step, now);
    NextState(w, env, step, now);
    UseUntouched(w, env, step, now);
    hide Enabled;
    forall k | k in v.s.keys ensures LastUse(v.s.keys[k], v.h.accepted, k) {
      assert v.s.keys[k].lastUsedAt == if k in w.s.keys then w.s.keys[k].lastUsedAt else None;
      if k in w.s.keys {
        assert LastUse(w.s.keys[k], w.h.accepted, k);
      }
    }
  }

  lemma NextState(w: World, env: Env, step: Step, now: nat)
    ensures Advance(w, env, step, now).s == Next(w.s, env, step, now)
  {
    hide Next;
  }

  lemma {:induction false} UseRun(w: World, env: Env, run: seq<Event>)
    requires UseRecorded(w) && Possible(w, env, run)
    ensures UseRecorded(Run(w, env, run))
    decreases run
  {
    if run != [] {
      hide UseRecorded, Enabled, Advance;
      var e := run[0];
      if e.step.RecordUsage? {
        UseAfterRecord(w, env, e.step.entries, e.now);
      } else {
        UseAfterOthers(w, env, e.step, e.now);
      }
      UseRun(Advance(w, env, e.step, e.now), env, run[1..]);
    }
  }

  /** In every reachable state all stored records could have been made, and a key's last use is the latest time any
      record of it ever had. */
  lemma HistoryIsProper(env: Env, run: seq<Event>)
    requires Possible(EMPTY, env, run)
    ensures var w := Run(EMPTY, env, run);
            (forall i :: 0 <= i < |w.h.accepted| ==> Proper(w.h.accepted[i]))
            && forall k :: k in w.s.keys ==> LastUse(w.s.keys[k], w.h.accepted, k)
  {
    assert UseRecorded(EMPTY);
    hide Run, Possible;
    ProperRun(EMPTY, env, run);
    UseRun(EMPTY, env, run);
  }
}
