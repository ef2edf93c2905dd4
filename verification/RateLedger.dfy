/** Fixed windows over whole runs: what a limit admits, and that pruning old rows never changes a
    one-minute decision. */
module RateLedger {
  import opened Wrappers
  import opened Calendar
  import opened Tables
  import opened Machine
  import opened Plans
  import Gateway

  /** What happens to the window table: counted requests, and sweeps of expired rows. */
  datatype RateEvent =
    | Hit(bucket: RateBucket, limit: int, now: nat, durationMs: nat, cost: nat)
    | Sweep(victims: set<RateKey>, now: nat)

  /** Every bucket but the demo's hourly one counts minutes. */
  predicate PerMinute(b: RateBucket) {
    !b.DemoIpHour?
  }

  /** Windows have a length, and pruning takes expired rows only. */
  predicate GoodEvent(e: RateEvent) {
    match e
    case Hit(_, _, _, d, _) => d > 0
    case Sweep(victims, now) => forall k :: k in victims ==> k.windowStart < now - RATE_RETENTION_MS
  }

  /** The windows the platform counts in. */
  predicate OfPlatform(e: RateEvent) {
    GoodEvent(e) && (e.Hit? ==> e.durationMs == if PerMinute(e.bucket) then MINUTE_MS else Gateway.HOUR_MS)
  }

  /** Events in time order, none before `clock`. */
  predicate Timed(es: seq<RateEvent>, clock: nat) {
    es == [] || (clock <= es[0].now && GoodEvent(es[0]) && Timed(es[1..], es[0].now))
  }

  function After(rate: map<RateKey, nat>, e: RateEvent): map<RateKey, nat>
    requires GoodEvent(e)
  {
    match e
    case Hit(b, _, now, d, cost) => Gateway.HitRows(rate, b, now, d, cost)
    case Sweep(victims, _) => rate - victims
  }

  function Decision(rate: map<RateKey, nat>, e: RateEvent): Gateway.RateLimitState
    requires GoodEvent(e) && e.Hit?
  {
    Gateway.HitState(rate, e.bucket, e.limit, e.now, e.durationMs, e.cost)
  }

  /** The answers to the hits of a run, in order. */
  function Decisions(rate: map<RateKey, nat>, es: seq<RateEvent>, clock: nat): seq<Gateway.RateLimitState>
    requires Timed(es, clock)
    decreases es
  {
    if es == [] then []
    else if es[0].Hit? then [Decision(rate, es[0])] + Decisions(After(rate, es[0]), es[1..], es[0].now)
    else Decisions(After(rate, es[0]), es[1..], es[0].now)
  }

  function HitsOf(es: seq<RateEvent>): (r: seq<RateEvent>)
    ensures forall i :: 0 <= i < |r| ==> r[i].Hit?
  {
    if es == [] then [] else if es[0].Hit? then [es[0]] + HitsOf(es[1..]) else HitsOf(es[1..])
  }

  // ---- Pruning ------------------------------------------------------------------------------------

  /** The tables agree on every row too young to be pruned. */
  ghost predicate AgreeOnLive(r: map<RateKey, nat>, q: map<RateKey, nat>, clock: nat) {
    forall k: RateKey :: clock <= k.windowStart + RATE_RETENTION_MS ==> Gateway.Count(r, k) == Gateway.Count(q, k)
  }

  /** A window of a safe length that is hit now is too young to be pruned. */
  lemma LiveWindow(now: nat, d: nat)
    requires 0 < d <= RATE_RETENTION_MS + 1
    ensures now <= Gateway.WindowStart(now, d) + RATE_RETENTION_MS
  {
    assert now == now / d * d + now % d;
  }

  /** One hit of a safe window gives the same answer on both tables; after any hit they still agree. */
  lemma HitAgrees(r: map<RateKey, nat>, q: map<RateKey, nat>, clock: nat, e: RateEvent)
    requires AgreeOnLive(r, q, clock) && e.Hit? && GoodEvent(e) && clock <= e.now
    ensures e.durationMs <= RATE_RETENTION_MS + 1 ==> Decision(r, e) == Decision(q, e)
    ensures AgreeOnLive(After(r, e), After(q, e), e.now)
  {
    if e.durationMs <= RATE_RETENTION_MS + 1 {
      LiveWindow(e.now, e.durationMs);
    }
  }

  lemma SweepAgrees(r: map<RateKey, nat>, q: map<RateKey, nat>, clock: nat, e: RateEvent)
    requires AgreeOnLive(r, q, clock) && e.Sweep? && GoodEvent(e) && clock <= e.now
    ensures AgreeOnLive(After(r, e), q, e.now)
  {
  }

  lemma {:induction false} HitsAreTimed(es: seq<RateEvent>, clock: nat, earlier: nat)
    requires Timed(es, clock) && earlier <= clock
    ensures Timed(HitsOf(es), earlier)
  {
    if es != [] {
      if es[0].Hit? {
        HitsAreTimed(es[1..], es[0].now, es[0].now);
        assert ([es[0]] + HitsOf(es[1..]))[1..] == HitsOf(es[1..]);
      } else {
        HitsAreTimed(es[1..], es[0].now, earlier);
      }
    }
  }

  /** Two lists of answers to the same hits, equal for every hit of a safe window. */
  ghost predicate SameAnswers(a: seq<Gateway.RateLimitState>, b: seq<Gateway.RateLimitState>, hits: seq<RateEvent>) {
    |a| == |b| == |hits|
    && forall i :: 0 <= i < |hits| && hits[i].Hit? && hits[i].durationMs <= RATE_RETENTION_MS + 1 ==> a[i] == b[i]
  }

  lemma OneMoreAnswer(x: Gateway.RateLimitState, y: Gateway.RateLimitState, e: RateEvent,
                      a: seq<Gateway.RateLimitState>, b: seq<Gateway.RateLimitState>, hits: seq<RateEvent>)
    requires SameAnswers(a, b, hits) && e.Hit? && (e.durationMs <= RATE_RETENTION_MS + 1 ==> x == y)
    ensures SameAnswers([x] + a, [y] + b, [e] + hits)
  {
  }

  /** Interposing pruning anywhere in a run changes no answer of a window of at most five minutes and a
      millisecond. */
  lemma {:induction false} SweepsChangeNoDecision(r: map<RateKey, nat>, q: map<RateKey, nat>, es: seq<RateEvent>,
                                                  clock: nat, qclock: nat)
    requires AgreeOnLive(r, q, clock) && Timed(es, clock) && qclock <= clock
    ensures Timed(HitsOf(es), qclock)
    ensures SameAnswers(Decisions(r, es, clock), Decisions(q, HitsOf(es), qclock), HitsOf(es))
    decreases es
  {
    hide After, Decision, AgreeOnLive, GoodEvent, SameAnswers;
    HitsAreTimed(es, clock, qclock);
    if es == [] {
      NoAnswers();
    } else {
      var e := es[0];
      if e.Hit? {
        assert HitsOf(es) == [e] + HitsOf(es[1..]) && HitsOf(es)[1..] == HitsOf(es[1..]);
        HitAgrees(r, q, clock, e);
        SweepsChangeNoDecision(After(r, e), After(q, e), es[1..], e.now, e.now);
        OneMoreAnswer(Decision(r, e), Decision(q, e), e, Decisions(After(r, e), es[1..], e.now),
                      Decisions(After(q, e), HitsOf(es[1..]), e.now), HitsOf(es[1..]));
      } else {
        SweepAgrees(r, q, clock, e);
        SweepsChangeNoDecision(After(r, e), q, es[1..], e.now, qclock);
      }
    }
  }

  lemma NoAnswers()
    ensures SameAnswers([], [], [])
  {
  }

  /** No run of hits and sweeps answers a hit of a window of d milliseconds otherwise than its hits alone. */
  ghost predicate SweepsAreHarmless(d: nat) {
    forall es: seq<RateEvent>, i: nat ::
      Timed(es, 0) && Timed(HitsOf(es), 0) && i < |HitsOf(es)| && HitsOf(es)[i].durationMs == d ==>
        var a, b := Decisions(map[], es, 0), Decisions(map[], HitsOf(es), 0);
        |a| == |b| == |HitsOf(es)| && a[i] == b[i]
  }

  /** Two hits of one window, a sweep before the second. */
  function HitSweepHit(b: RateBucket, d: nat): seq<RateEvent>
    requires d > 0
  {
    [Hit(b, 1, 0, d, 1), Sweep({RateKey(b, 0)}, d - 1), Hit(b, 1, d - 1, d, 1)]
  }

  /** Any longer window is forgotten while it can still be hit: with a limit of one, the second hit is refused,
      but allowed when a pruning step runs just before it. */
  lemma LongWindowsAreForgotten(b: RateBucket, d: nat)
    requires d > RATE_RETENTION_MS + 1
    ensures var es := HitSweepHit(b, d);
            Timed(es, 0) && HitsOf(es) == [es[0], es[2]] && Timed(HitsOf(es), 0)
            && |Decisions(map[], es, 0)| == |Decisions(map[], HitsOf(es), 0)| == 2
            && Decisions(map[], es, 0)[1].allowed && !Decisions(map[], HitsOf(es), 0)[1].allowed
  {
    var es := HitSweepHit(b, d);
    var first, sweep, second := es[0], es[1], es[2];
    var row := RateKey(b, 0);
    assert Gateway.WindowStart(d - 1, d) == 0 == Gateway.WindowStart(0, d);
    assert GoodEvent(first) && GoodEvent(sweep) && GoodEvent(second);
    assert After(map[], first) == map[row := 1] && After(map[row := 1], sweep) == map[];
    assert Decision(map[], second).allowed && !Decision(map[row := 1], second).allowed;
    hide GoodEvent, After, Decision;
    assert es == [first, sweep, second];
    assert es[1..] == [sweep, second] && [sweep, second][1..] == [second] && [second][1..] == [];
    assert [first, second][1..] == [second];
    assert HitsOf([second]) == [second] + [] && HitsOf([sweep, second]) == [second] && HitsOf(es) == [first] + [second];
    assert Timed([second], d - 1) && Timed([second], 0) && Timed([sweep, second], 0);
    assert Decisions(map[], [second], d - 1) == [Decision(map[], second)] + [];
    assert Decisions(map[row := 1], [second], 0) == [Decision(map[row := 1], second)] + [];
    assert Decisions(map[row := 1], [sweep, second], 0) == Decisions(map[], [second], d - 1);
  }

  /** Exactly the windows of at most five minutes and a millisecond are safe from pruning. */
  lemma SafeDurations(d: nat)
    requires d > 0
    ensures SweepsAreHarmless(d) <==> d <= RATE_RETENTION_MS + 1
  {
    if d <= RATE_RETENTION_MS + 1 {
      forall es: seq<RateEvent>, i: nat | Timed(es, 0) && Timed(HitsOf(es), 0) && i < |HitsOf(es)|
        && HitsOf(es)[i].durationMs == d
        ensures var a, b := Decisions(map[], es, 0), Decisions(map[], HitsOf(es), 0);
                |a| == |b| == |HitsOf(es)| && a[i] == b[i]
      {
        SweepsChangeNoDecision(map[], map[], es, 0, 0);
      }
    } else {
      hide Decisions, Timed, HitsOf;
      LongWindowsAreForgotten(GlobalRate, d);
      assert HitsOf(HitSweepHit(GlobalRate, d))[1].durationMs == d;
    }
  }

  /** The hourly demo window is not among them. */
  lemma HourWindowIsForgotten(ip: string)
    ensures !SweepsAreHarmless(Gateway.HOUR_MS)
    ensures var es := HitSweepHit(DemoIpHour(ip), Gateway.HOUR_MS);
            Timed(es, 0) && |Decisions(map[], es, 0)| == 2 && Decisions(map[], es, 0)[1].allowed
  {
    SafeDurations(Gateway.HOUR_MS);
    LongWindowsAreForgotten(DemoIpHour(ip), Gateway.HOUR_MS);
  }

  // ---- What a limit admits ----------------------------------------------------------------------------

  predicate FixedLimit(es: seq<RateEvent>, b: RateBucket, limit: int) {
    forall i :: 0 <= i < |es| && es[i].Hit? && es[i].bucket == b ==> es[i].limit == limit
  }

  /** A bucket counted by the minute. */
  predicate Minutely(es: seq<RateEvent>, b: RateBucket) {
    forall i :: 0 <= i < |es| && es[i].Hit? && es[i].bucket == b ==> es[i].durationMs == MINUTE_MS
  }

  predicate Between(e: RateEvent, b: RateBucket, lo: nat, hi: int) {
    e.Hit? && e.bucket == b && lo <= e.now <= hi
  }

  /** Total cost of the allowed hits of a bucket at times from lo to hi. */
  function Admitted(rate: map<RateKey, nat>, es: seq<RateEvent>, clock: nat, b: RateBucket, lo: nat, hi: int): nat
    requires Timed(es, clock)
    decreases es
  {
    if es == [] then 0 else
    (if Between(es[0], b, lo, hi) && Decision(rate, es[0]).allowed then es[0].cost else 0)
    + Admitted(After(rate, es[0]), es[1..], es[0].now, b, lo, hi)
  }

  lemma {:induction false} NothingLate(rate: map<RateKey, nat>, es: seq<RateEvent>, clock: nat, b: RateBucket,
                                       lo: nat, hi: int)
    requires Timed(es, clock) && hi < clock
    ensures Admitted(rate, es, clock, b, lo, hi) == 0
    decreases es
  {
    if es != [] {
      NothingLate(After(rate, es[0]), es[1..], es[0].now, b, lo, hi);
    }
  }

  /** Within one minute window, what is admitted plus what was counted before stays within the limit. */
  lemma {:induction false} WindowAdmits(rate: map<RateKey, nat>, es: seq<RateEvent>, clock: nat, b: RateBucket,
                                        limit: int, start: nat)
    requires Timed(es, clock) && FixedLimit(es, b, limit) && Minutely(es, b) && start % MINUTE_MS == 0
    ensures var a := Admitted(rate, es, clock, b, start, start + MINUTE_MS - 1);
            a > 0 ==> a + Gateway.Count(rate, RateKey(b, start)) <= limit
    decreases es
  {
    if es != [] {
      var e := es[0];
      var k := RateKey(b, start);
      assert FixedLimit(es[1..], b, limit) && Minutely(es[1..], b);
      WindowAdmits(After(rate, e), es[1..], e.now, b, limit, start);
      if Between(e, b, start, start + MINUTE_MS - 1) {
        InWindow(e.now, start);
        assert e.limit == limit;
      } else if e.Sweep? && k in e.victims {
        NothingLate(After(rate, e), es[1..], e.now, b, start, start + MINUTE_MS - 1);
      } else {
        assert Gateway.Count(After(rate, e), k) >= Gateway.Count(rate, k);
      }
    }
  }

  lemma InWindow(now: nat, start: nat)
    requires start % MINUTE_MS == 0 && start <= now < start + MINUTE_MS
    ensures Gateway.WindowStart(now, MINUTE_MS) == start
  {
    assert now / MINUTE_MS == start / MINUTE_MS;
  }

  lemma {:induction false} Cover(rate: map<RateKey, nat>, es: seq<RateEvent>, clock: nat, b: RateBucket, lo: nat,
                                 mid: nat, hi: int, from: nat, to: int)
    requires Timed(es, clock) && from <= lo && to >= hi && from <= mid
    ensures Admitted(rate, es, clock, b, lo, hi)
            <= Admitted(rate, es, clock, b, from, mid) + Admitted(rate, es, clock, b, mid + 1, to)
    decreases es
  {
    if es != [] {
      Cover(After(rate, es[0]), es[1..], es[0].now, b, lo, mid, hi, from, to);
    }
  }

  /** A limit admits at most itself in a minute window and at most twice itself in any sixty seconds,
      whatever is pruned in between. */
  lemma LimitAdmits(es: seq<RateEvent>, b: RateBucket, limit: nat, t: nat)
    requires Timed(es, 0) && FixedLimit(es, b, limit) && Minutely(es, b)
    ensures var start := Gateway.WindowStart(t, MINUTE_MS);
            Admitted(map[], es, 0, b, start, start + MINUTE_MS - 1) <= limit
            && Admitted(map[], es, 0, b, t, t + MINUTE_MS) <= 2 * limit
  {
    var start := Gateway.WindowStart(t, MINUTE_MS);
    assert start % MINUTE_MS == 0 && (start + MINUTE_MS) % MINUTE_MS == 0;
    WindowAdmits(map[], es, 0, b, limit, start);
    WindowAdmits(map[], es, 0, b, limit, start + MINUTE_MS);
    Cover(map[], es, 0, b, t, start + MINUTE_MS - 1, t + MINUTE_MS, start, start + 2 * MINUTE_MS - 1);
  }

  // ---- The window table of the platform --------------------------------------------------------

  function Rows(rate: map<RateKey, nat>, es: seq<RateEvent>): map<RateKey, nat>
    requires forall i :: 0 <= i < |es| ==> OfPlatform(es[i])
    decreases es
  {
    if es == [] then rate else
    assert OfPlatform(es[0]);
    Rows(After(rate, es[0]), es[1..])
  }

  /** The buckets an authorized request is counted in; none when it is refused before counting. */
  function CountedBuckets(s: State, env: Env, k: KeyId, via: bool, a: Gateway.AuthArgs,
                          now: nat): seq<Gateway.BucketLimit>
    requires k in s.keys && s.keys[k].userId in s.users
  {
    var key := s.keys[k];
    var owner := s.users[key.userId];
    var site := key.isSiteKey && !via;
    if (!site && !HasKeyAccess(owner, now)) || Gateway.EndpointDenied(key, a.endpoint) then []
    else Gateway.Buckets(env, k, key, a, site, if site then None else ActivePlan(owner, now))
  }

  function BucketEvents(bs: seq<Gateway.BucketLimit>, now: nat): (es: seq<RateEvent>)
    ensures |es| == |bs|
    ensures forall i :: 0 <= i < |es| ==> es[i] == Hit(bs[i].bucket, bs[i].limit, now, MINUTE_MS, 1)
  {
    seq(|bs|, i requires 0 <= i < |bs| => Hit(bs[i].bucket, bs[i].limit, now, MINUTE_MS, 1))
  }

  function DemoEvents(hs: seq<Gateway.DemoHit>, now: nat, cost: nat): (es: seq<RateEvent>)
    ensures |es| == |hs|
    ensures forall i :: 0 <= i < |es| ==> es[i] == Hit(hs[i].bucket, hs[i].limit, now, hs[i].durationMs, cost)
  {
    seq(|hs|, i requires 0 <= i < |hs| => Hit(hs[i].bucket, hs[i].limit, now, hs[i].durationMs, cost))
  }

  /** What one platform step does to the window table. */
  ghost function StepEvents(s: State, env: Env, step: Step, now: nat): seq<RateEvent> {
    match step
    case Authorize(a) =>
      (match Gateway.Screen(s, a.kind, a.hash, now)
       case Rejected(_) => []
       case Passed(k, via) =>
         if k in s.keys && s.keys[k].userId in s.users then BucketEvents(CountedBuckets(s, env, k, via, a, now), now)
           else [])
    case AuthorizeDemo(d) => DemoEvents(Gateway.DemoHits(d), now, Gateway.DemoCost(d.cost))
    case Prune(v) => [Sweep(v.rate, now)]
    case _ => []
  }

  predicate AllGood(es: seq<RateEvent>, now: nat) {
    forall i :: 0 <= i < |es| ==> OfPlatform(es[i]) && es[i].now == now
  }

  lemma {:induction false} HitsAreRows(rate: map<RateKey, nat>, bs: seq<Gateway.BucketLimit>, now: nat)
    requires AllGood(BucketEvents(bs, now), now)
    ensures Rows(rate, BucketEvents(bs, now)) == Gateway.HitAllRows(rate, bs, now)
    decreases bs
  {
    if bs != [] {
      var es := BucketEvents(bs, now);
      assert es[1..] == BucketEvents(bs[1..], now);
      HitsAreRows(After(rate, es[0]), bs[1..], now);
    }
  }

  /** The states combined into an answer are the decisions on those hits. */
  lemma {:induction false} HitsAreDecisions(rate: map<RateKey, nat>, bs: seq<Gateway.BucketLimit>, now: nat)
    requires AllGood(BucketEvents(bs, now), now)
    ensures Timed(BucketEvents(bs, now), now)
    ensures Decisions(rate, BucketEvents(bs, now), now) == Gateway.HitAllStates(rate, bs, now)
    decreases bs
  {
    if bs != [] {
      var es := BucketEvents(bs, now);
      assert es[1..] == BucketEvents(bs[1..], now);
      HitsAreDecisions(After(rate, es[0]), bs[1..], now);
    }
  }

  lemma {:induction false} DemoHitsAreRows(rate: map<RateKey, nat>, hs: seq<Gateway.DemoHit>, now: nat, cost: nat)
    requires Gateway.Positive(hs) && AllGood(DemoEvents(hs, now, cost), now)
    ensures Rows(rate, DemoEvents(hs, now, cost)) == Gateway.DemoRows(rate, hs, now, cost)
    decreases hs
  {
    if hs != [] {
      var es := DemoEvents(hs, now, cost);
      assert es[1..] == DemoEvents(hs[1..], now, cost);
      DemoHitsAreRows(After(rate, es[0]), hs[1..], now, cost);
    }
  }

  lemma DecisionRows(s: State, env: Env, k: KeyId, via: bool, a: Gateway.AuthArgs, now: nat)
    requires k in s.keys && s.keys[k].userId in s.users
    ensures Gateway.Decide(s, env, k, via, a, now).rate
            == Gateway.HitAllRows(s.rate, CountedBuckets(s, env, k, via, a, now), now)
    ensures AllGood(BucketEvents(CountedBuckets(s, env, k, via, a, now), now), now)
  {
    hide Gateway.Combine, Gateway.HitAllStates, Gateway.ConsumeQuotas;
  }

  lemma AuthorizeRows(s: State, env: Env, a: Gateway.AuthArgs, now: nat)
    ensures var es := StepEvents(s, env, Authorize(a), now);
            AllGood(es, now) && Rows(s.rate, es) == Gateway.Authorize(s, env, a, now).0.rate
  {
    hide Gateway.Decide, CountedBuckets;
    match Gateway.Screen(s, a.kind, a.hash, now)
    case Rejected(_) =>
    case Passed(k, via) =>
      if k in s.keys && s.keys[k].userId in s.users {
        DecisionRows(s, env, k, via, a, now);
        HitsAreRows(s.rate, CountedBuckets(s, env, k, via, a, now), now);
      }
  }

  lemma SweepRows(s: State, env: Env, v: Victims, now: nat)
    requires PruneVictims(s, env, v, now)
    ensures AllGood([Sweep(v.rate, now)], now) && Rows(s.rate, [Sweep(v.rate, now)]) == PruneState(s, v).rate
  {
    assert forall k :: k in v.rate ==> k in ExpiredRate(s.rate, now);
    assert Rows(After(s.rate, Sweep(v.rate, now)), []) == s.rate - v.rate;
    assert [Sweep(v.rate, now)][1..] == [];
  }

  /** Every step changes the window table by hits and sweeps made at its own time, and no others. */
  lemma StepRows(w: World, env: Env, step: Step, now: nat)
    requires Enabled(w, env, step, now)
    ensures AllGood(StepEvents(w.s, env, step, now), now)
    ensures Rows(w.s.rate, StepEvents(w.s, env, step, now)) == Next(w.s, env, step, now).rate
  {
    hide Gateway.Authorize, PruneVictims, AllGood, Rows, NextKeys, NextBilling, Gateway.AuthorizeDemo;
    if step.Authorize? {
      AuthorizeRows(w.s, env, step.auth, now);
    } else if step.AuthorizeDemo? {
      DemoRowsOf(w.s, env, step.demo, now);
    } else if step.Prune? {
      SweepRows(w.s, env, step.victims, now);
    } else {
      hide Next;
      Frame(w, env, step, now);
      NoEvents(w.s.rate, now);
    }
  }

  lemma DemoRowsOf(s: State, env: Env, d: Gateway.DemoArgs, now: nat)
    ensures var es := StepEvents(s, env, AuthorizeDemo(d), now);
            AllGood(es, now) && Rows(s.rate, es) == Gateway.AuthorizeDemo(s, d, now).0.rate
  {
    hide Gateway.DemoStates, Gateway.DemoRows, Rows;
    DemoHitsAreRows(s.rate, Gateway.DemoHits(d), now, Gateway.DemoCost(d.cost));
  }

  lemma NoEvents(rate: map<RateKey, nat>, now: nat)
    ensures AllGood([], now) && Rows(rate, []) == rate
  {
  }

  ghost function RunEvents(w: World, env: Env, run: seq<Event>): seq<RateEvent>
    decreases run
  {
    if run == [] then []
    else
      StepEvents(w.s, env, run[0].step, run[0].now) +
      RunEvents(Advance(w, env, run[0].step, run[0].now), env, run[1..])
  }

  lemma {:induction false} Prepend(rate: map<RateKey, nat>, es: seq<RateEvent>, now: nat, clock: nat,
                                   rest: seq<RateEvent>)
    requires AllGood(es, now) && clock <= now && Timed(rest, now)
             && (forall i :: 0 <= i < |rest| ==> OfPlatform(rest[i]))
    ensures Timed(es + rest, clock) && forall i :: 0 <= i < |es + rest| ==> OfPlatform((es + rest)[i])
    ensures Rows(rate, es + rest) == Rows(Rows(rate, es), rest)
    decreases es
  {
    if es == [] {
      assert es + rest == rest;
      Earlier(rest, clock, now);
    } else {
      Prepend(After(rate, es[0]), es[1..], now, now, rest);
      assert (es + rest)[1..] == es[1..] + rest;
    }
  }

  lemma Earlier(es: seq<RateEvent>, clock: nat, later: nat)
    requires Timed(es, later) && clock <= later
    ensures Timed(es, clock)
  {
  }

  /** The window table of any run is that of its hits and sweeps in time order, so what is proved of
      such event lists holds of the platform. */
  lemma {:induction false} RunRows(w: World, env: Env, run: seq<Event>)
    requires Possible(w, env, run)
    ensures Timed(RunEvents(w, env, run), w.h.clock)
    ensures forall i :: 0 <= i < |RunEvents(w, env, run)| ==> OfPlatform(RunEvents(w, env, run)[i])
    ensures Rows(w.s.rate, RunEvents(w, env, run)) == Run(w, env, run).s.rate
    decreases run
  {
    if run != [] {
      hide StepEvents, Next, Enabled;
      var e := run[0];
      var v := Advance(w, env, e.step, e.now);
      assert w.h.clock <= e.now by {
        EnabledIsLater(w, env, e.step, e.now);
      }
      StepRows(w, env, e.step, e.now);
      RunRows(v, env, run[1..]);
      Prepend(w.s.rate, StepEvents(w.s, env, e.step, e.now), e.now, w.h.clock, RunEvents(v, env, run[1..]));
    }
  }

  lemma EnabledIsLater(w: World, env: Env, step: Step, now: nat)
    requires Enabled(w, env, step, now)
    ensures w.h.clock <= now
  {
  }

  /** No row is of a window that has not begun. */
  ghost predicate RowsArePast(w: World) {
    forall r :: r in w.s.rate ==> r.windowStart <= w.h.clock
  }

  lemma {:induction false} RowsStayPast(rate: map<RateKey, nat>, es: seq<RateEvent>, now: nat)
    requires AllGood(es, now) && forall r :: r in rate ==> r.windowStart <= now
    ensures forall r :: r in Rows(rate, es) ==> r.windowStart <= now
    decreases es
  {
    if es != [] {
      assert forall i :: 0 <= i < |es[1..]| ==> OfPlatform(es[1..][i]) && es[1..][i].now == now;
      assert es[0].Hit? ==> Gateway.WindowStart(now, es[0].durationMs) <= now;
      RowsStayPast(After(rate, es[0]), es[1..], now);
    }
  }

  lemma {:induction false} RowsArePastRun(w: World, env: Env, run: seq<Event>)
    requires RowsArePast(w) && Possible(w, env, run)
    ensures RowsArePast(Run(w, env, run))
    decreases run
  {
    if run != [] {
      hide StepEvents, Next, Enabled, AllGood, Rows;
      var e := run[0];
      var v := Advance(w, env, e.step, e.now);
      EnabledIsLater(w, env, e.step, e.now);
      StepRows(w, env, e.step, e.now);
      RowsStayPast(w.s.rate, StepEvents(w.s, env, e.step, e.now), e.now);
      RowsArePastRun(v, env, run[1..]);
    }
  }

  /** Over any run of the platform, a minute bucket with a fixed limit admits at most the limit in a
      minute window and at most twice the limit in any sixty seconds. */
  lemma LimitAdmitsInRun(env: Env, run: seq<Event>, b: RateBucket, limit: nat, t: nat)
    requires Possible(EMPTY, env, run) && PerMinute(b) && FixedLimit(RunEvents(EMPTY, env, run), b, limit)
    ensures Timed(RunEvents(EMPTY, env, run), 0)
    ensures var start := Gateway.WindowStart(t, MINUTE_MS);
            var es := RunEvents(EMPTY, env, run);
            Admitted(map[], es, 0, b, start, start + MINUTE_MS - 1) <= limit
            && Admitted(map[], es, 0, b, t, t + MINUTE_MS) <= 2 * limit
  {
    RunRows(EMPTY, env, run);
    LimitAdmits(RunEvents(EMPTY, env, run), b, limit, t);
  }
}
