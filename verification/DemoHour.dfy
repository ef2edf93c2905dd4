/** The hourly limit of the anonymous demo, and what pruning does to it in a run of the platform. */
module DemoHour {
  import opened Wrappers
  import opened Calendar
  import opened Tables
  import opened Machine
  import Decisions
  import Gateway

  /** A visitor of the demo with a limit of one request an hour. */
  function OncePerHour(ip: string, endpoint: string): Gateway.DemoArgs {
    Gateway.DemoArgs(ip, endpoint, 1.0, None, Some(1.0), None)
  }

  lemma FourHits(ip: string, endpoint: string)
    ensures var hits := Gateway.DemoHits(OncePerHour(ip, endpoint));
            |hits| == 4 && hits[1].limit == 1 && hits[1].durationMs == Gateway.HOUR_MS && hits[1].bucket.DemoIpHour?
            && (forall i :: 0 <= i < 4 ==> hits[i].limit >= 1)
            && Distinct(hits)
    ensures Gateway.DemoCost(1.0) == 1
  {
  }

  predicate Fits(rate: map<RateKey, nat>, h: Gateway.DemoHit, now: nat, cost: nat)
    requires h.durationMs > 0
  {
    Gateway.Count(rate, RateKey(h.bucket, Gateway.WindowStart(now, h.durationMs))) + cost <= h.limit
  }

  /** Hits of different buckets are allowed together exactly when each fits. */
  lemma {:induction false} AllowedIffAllFit(rate: map<RateKey, nat>, hits: seq<Gateway.DemoHit>, now: nat,
                                           cost: nat)
    requires Distinct(hits)
    ensures Gateway.AllAllowed(Gateway.DemoStates(rate, hits, now, cost)) <==>
            forall i :: 0 <= i < |hits| ==> Fits(rate, hits[i], now, cost)
    decreases hits
  {
    if hits != [] {
      var next := Gateway.HitRows(rate, hits[0].bucket, now, hits[0].durationMs, cost);
      var states, rest := Gateway.DemoStates(rate, hits, now, cost), Gateway.DemoStates(next, hits[1..], now, cost);
      AllowedIffAllFit(next, hits[1..], now, cost);
      assert states == [states[0]] + rest;
      assert states[0].allowed <==> Fits(rate, hits[0], now, cost);
      forall i | 0 <= i < |hits[1..]|
        ensures Fits(next, hits[1..][i], now, cost) <==> Fits(rate, hits[i + 1], now, cost) {}
      assert Gateway.AllAllowed(states) <==> states[0].allowed && Gateway.AllAllowed(rest) by {
        assert forall i :: 0 <= i < |rest| ==> rest[i] == states[i + 1];
      }
      assert (forall i :: 0 <= i < |hits| ==> Fits(rate, hits[i], now, cost)) <==>
             Fits(rate, hits[0], now, cost)
             && forall i :: 0 <= i < |hits[1..]| ==> Fits(rate, hits[1..][i], now, cost) by {
        assert forall i :: 0 < i < |hits| ==> hits[i] == hits[1..][i - 1];
      }
    }
  }

  predicate Distinct(hits: seq<Gateway.DemoHit>) {
    Gateway.Positive(hits) && forall i, j :: 0 <= i < j < |hits| ==> hits[i].bucket != hits[j].bucket
  }

  lemma {:induction false} FewRows(rate: map<RateKey, nat>, hits: seq<Gateway.DemoHit>, now: nat)
    requires Gateway.Positive(hits)
    ensures |Gateway.DemoRows(rate, hits, now, 1).Keys| <= |rate.Keys| + |hits|
    decreases hits
  {
    if hits != [] {
      var next := Gateway.HitRows(rate, hits[0].bucket, now, hits[0].durationMs, 1);
      assert next.Keys == rate.Keys + {RateKey(hits[0].bucket, Gateway.WindowStart(now, hits[0].durationMs))};
      hide Gateway.HitRows;
      FewRows(next, hits[1..], now);
    }
  }

  lemma StartIsPast(now: nat, d: nat)
    requires d > 0
    ensures Gateway.WindowStart(now, d) <= now
  {
  }

  lemma {:induction false} PastRows(rate: map<RateKey, nat>, hits: seq<Gateway.DemoHit>, now: nat)
    requires Gateway.Positive(hits) && forall r :: r in rate ==> r.windowStart <= now
    ensures forall r :: r in Gateway.DemoRows(rate, hits, now, 1) ==> r.windowStart <= now
    decreases hits
  {
    if hits != [] {
      StartIsPast(now, hits[0].durationMs);
      hide Gateway.WindowStart;
      PastRows(Gateway.HitRows(rate, hits[0].bucket, now, hits[0].durationMs, 1), hits[1..], now);
    }
  }

  lemma {:induction false} OtherRows(rate: map<RateKey, nat>, hits: seq<Gateway.DemoHit>, now: nat, cost: nat,
                                    k: RateKey)
    requires Gateway.Positive(hits) && forall i :: 0 <= i < |hits| ==> hits[i].bucket != k.bucket
    ensures Gateway.Count(Gateway.DemoRows(rate, hits, now, cost), k) == Gateway.Count(rate, k)
    decreases hits
  {
    if hits != [] {
      OtherRows(Gateway.HitRows(rate, hits[0].bucket, now, hits[0].durationMs, cost), hits[1..], now, cost, k);
    }
  }

  lemma {:induction false} CountedOnce(rate: map<RateKey, nat>, hits: seq<Gateway.DemoHit>, now: nat, cost: nat,
                                      i: nat)
    requires Distinct(hits) && i < |hits|
    ensures var k := RateKey(hits[i].bucket, Gateway.WindowStart(now, hits[i].durationMs));
            Gateway.Count(Gateway.DemoRows(rate, hits, now, cost), k) == Gateway.Count(rate, k) + cost
    decreases hits
  {
    var k := RateKey(hits[i].bucket, Gateway.WindowStart(now, hits[i].durationMs));
    var next := Gateway.HitRows(rate, hits[0].bucket, now, hits[0].durationMs, cost);
    if i == 0 {
      OtherRows(next, hits[1..], now, cost, k);
    } else {
      CountedOnce(next, hits[1..], now, cost, i - 1);
    }
  }

  const LATER_THAT_HOUR: nat := 400_000

  lemma NothingCounted(hits: seq<Gateway.DemoHit>, now: nat)
    requires Distinct(hits)
    requires forall i :: 0 <= i < |hits| ==> hits[i].limit >= 1
    ensures Gateway.AllAllowed(Gateway.DemoStates(map[], hits, now, 1))
  {
    AllowedIffAllFit(map[], hits, now, 1);
  }

  /** One pruning step that takes all there is. */
  lemma SweepsAll(w: World, env: Env, now: nat)
    requires w.h.clock <= now && w.s.tokens == map[] && w.s.requests == map[] && w.s.quota == map[]
    requires |w.s.rate.Keys| <= BATCH && forall r :: r in w.s.rate ==> r.windowStart < now - RATE_RETENTION_MS
    ensures var step := Prune(Victims(w.s.rate.Keys, {}, {}, {}));
            Enabled(w, env, step, now) && Advance(w, env, step, now).s.rate == map[]
  {
    var v := Victims(w.s.rate.Keys, {}, {}, {});
    AllAreVictims(w.s, env, v, now);
    hide PruneVictims, Observe, NextKeys, NextBilling, Gateway.Authorize, Gateway.AuthorizeDemo;
    assert Next(w.s, env, Prune(v), now) == PruneState(w.s, v);
    hide Next;
    assert w.s.rate - w.s.rate.Keys == map[];
  }

  lemma AllAreVictims(s: State, env: Env, v: Victims, now: nat)
    requires v == Victims(s.rate.Keys, {}, {}, {}) && |v.rate| <= BATCH
    requires s.tokens == map[] && s.requests == map[] && s.quota == map[]
    requires forall r :: r in s.rate ==> r.windowStart < now - RATE_RETENTION_MS
    ensures PruneVictims(s, env, v, now)
  {
    assert ExpiredRate(s.rate, now) == v.rate;
    assert ExpiredTokens(s.tokens, now) == {};
    assert ExpiredRequests(s.requests, env, now) == {};
    assert ExpiredQuota(s.quota, now) == {};
    hide ExpiredRate, ExpiredTokens, ExpiredRequests, ExpiredQuota;
  }

  lemma DemoAnswer(s: State, ip: string, endpoint: string, now: nat)
    ensures var hits := Gateway.DemoHits(OncePerHour(ip, endpoint));
            Gateway.AuthorizeDemo(s, OncePerHour(ip, endpoint), now).1.status
            == if Gateway.AllAllowed(Gateway.DemoStates(s.rate, hits, now, 1)) then Gateway.Ok else Gateway.RateLimited
  {
    FourHits(ip, endpoint);
  }

  /** The world after a first request: four rows, one of them the hour's. */
  lemma FirstRequest(env: Env, ip: string, endpoint: string)
    ensures var d := OncePerHour(ip, endpoint);
            var hits, w := Gateway.DemoHits(d), Advance(EMPTY, env, AuthorizeDemo(d), 0);
            Enabled(EMPTY, env, AuthorizeDemo(d), 0) && w.h.clock == 0
            && w.s.rate == Gateway.DemoRows(map[], hits, 0, 1)
            && w.s.tokens == map[] && w.s.requests == map[] && w.s.quota == map[]
  {
    FourHits(ip, endpoint);
    assert OncePerHour(ip, endpoint).cost == 1.0;
    hide Gateway.DemoHits, Gateway.DemoRows, Gateway.DemoStates, OncePerHour;
  }

  lemma SecondIsRefused(rate: map<RateKey, nat>, hits: seq<Gateway.DemoHit>, t: nat)
    requires Distinct(hits) && |hits| == 4 && hits[1].durationMs == Gateway.HOUR_MS && hits[1].limit == 1
    requires rate == Gateway.DemoRows(map[], hits, 0, 1) && t < Gateway.HOUR_MS
    ensures !Gateway.AllAllowed(Gateway.DemoStates(rate, hits, t, 1))
  {
    CountedOnce(map[], hits, 0, 1, 1);
    AllowedIffAllFit(rate, hits, t, 1);
    hide Gateway.DemoStates, Gateway.DemoRows, Gateway.AllAllowed;
    assert !Fits(rate, hits[1], t, 1);
  }

  /** The platform itself forgets the hourly limit of the demo: allowed once an hour, a visitor who has had a request
      answered is refused another within the hour, but is served it when pruning has run in between. */
  lemma PruningForgetsTheHour(env: Env, ip: string, endpoint: string)
    ensures var d := OncePerHour(ip, endpoint);
            var first := [Event(AuthorizeDemo(d), 0)];
            var w := Run(EMPTY, env, first);
            var sweep := [Event(Prune(Victims(w.s.rate.Keys, {}, {}, {})), LATER_THAT_HOUR)];
            LATER_THAT_HOUR < Gateway.HOUR_MS
            && Possible(EMPTY, env, first) && Gateway.AuthorizeDemo(EMPTY.s, d, 0).1.status == Gateway.Ok
            && Gateway.AuthorizeDemo(w.s, d, LATER_THAT_HOUR).1.status == Gateway.RateLimited
            && Possible(w, env, sweep)
            && Gateway.AuthorizeDemo(Run(w, env, sweep).s, d, LATER_THAT_HOUR).1.status == Gateway.Ok
  {
    hide Gateway.DemoHits, Gateway.DemoRows, Gateway.DemoStates, Gateway.AllAllowed, Gateway.AuthorizeDemo, OncePerHour,
      Enabled, Advance, Distinct;
    var d, t := OncePerHour(ip, endpoint), LATER_THAT_HOUR;
    var hits := Gateway.DemoHits(d);
    var e := Event(AuthorizeDemo(d), 0);
    var w := Advance(EMPTY, env, e.step, 0);
    FourHits(ip, endpoint);
    FirstRequest(env, ip, endpoint);
    OneEvent(EMPTY, env, e);
    DemoAnswer(EMPTY.s, ip, endpoint, 0);
    NothingCounted(hits, 0);
    DemoAnswer(w.s, ip, endpoint, t);
    SecondIsRefused(w.s.rate, hits, t);
    FewRows(map[], hits, 0);
    PastRows(map[], hits, 0);
    SweepsAll(w, env, t);
    var sweep := Event(Prune(Victims(w.s.rate.Keys, {}, {}, {})), t);
    OneEvent(w, env, sweep);
    DemoAnswer(Advance(w, env, sweep.step, t).s, ip, endpoint, t);
    NothingCounted(hits, t);
  }

  // ---- The demo's answer -----------------------------------------------------------------------------------

  function Cost(cost: real): nat {
    if cost < 1.0 then 1 else if cost >= 100.0 then 100 else cost.Floor
  }

  function Endpoint(e: string): string {
    if e == "geocode" || e == "route" || e == "reverse" then e else "unknown"
  }

  function MinuteCount(rate: map<RateKey, nat>, b: RateBucket, now: nat): nat {
    Gateway.Count(rate, RateKey(b, now / 60_000 * 60_000))
  }

  function HourCount(rate: map<RateKey, nat>, b: RateBucket, now: nat): nat {
    Gateway.Count(rate, RateKey(b, now / 3_600_000 * 3_600_000))
  }

  lemma DemoHitsAre(d: Gateway.DemoArgs)
    ensures var ip, minute := Decisions.Visitor(Some(d.clientIp)), Decisions.LimitOf(d.minuteLimit, 20);
            Gateway.DemoHits(d)
            == [Gateway.DemoHit(DemoIpMinute(ip), minute, 60_000),
                Gateway.DemoHit(DemoIpHour(ip), Decisions.LimitOf(d.hourLimit, 100), 3_600_000),
                Gateway.DemoHit(DemoIpEndpoint(ip, Endpoint(d.endpoint)), minute, 60_000),
                Gateway.DemoHit(DemoGlobal, Decisions.LimitOf(d.globalMinuteLimit, 5_000), 60_000)]
    ensures Gateway.DemoCost(d.cost) == Cost(d.cost)
  {
    Decisions.SameVisitor(Some(d.clientIp));
    Decisions.SameLimit(d.minuteLimit, 20);
    Decisions.SameLimit(d.hourLimit, 100);
    Decisions.SameLimit(d.globalMinuteLimit, 5_000);
    var all := Gateway.API_ENDPOINTS;
    assert all[0] == "geocode" && all[1] == "route";
    assert d.endpoint in all ==> d.endpoint == all[0] || d.endpoint == all[1];
  }

  /** A demo request costs between one and a hundred; it is served exactly when its cost still fits the visitor's
      minute, hour and endpoint and the demo as a whole, and is counted in all four whether it is or not. */
  lemma DemoIs(s: State, d: Gateway.DemoArgs, now: nat)
    ensures var ip, e, cost := Decisions.Visitor(Some(d.clientIp)), Endpoint(d.endpoint), Cost(d.cost);
            var minute := Decisions.LimitOf(d.minuteLimit, 20);
            var (t, r) := Gateway.AuthorizeDemo(s, d, now);
            r.status == (if MinuteCount(s.rate, DemoIpMinute(ip), now) + cost <= minute
                            && HourCount(s.rate, DemoIpHour(ip), now) + cost <= Decisions.LimitOf(d.hourLimit, 100)
                            && MinuteCount(s.rate, DemoIpEndpoint(ip, e), now) + cost <= minute
                            && MinuteCount(s.rate, DemoGlobal, now) + cost
                               <= Decisions.LimitOf(d.globalMinuteLimit, 5_000)
                         then Gateway.Ok else Gateway.RateLimited)
            && r.principal.None? && t == s.(rate := t.rate)
            && MinuteCount(t.rate, DemoIpMinute(ip), now) == MinuteCount(s.rate, DemoIpMinute(ip), now) + cost
            && HourCount(t.rate, DemoIpHour(ip), now) == HourCount(s.rate, DemoIpHour(ip), now) + cost
            && MinuteCount(t.rate, DemoIpEndpoint(ip, e), now) == MinuteCount(s.rate, DemoIpEndpoint(ip, e), now) + cost
            && MinuteCount(t.rate, DemoGlobal, now) == MinuteCount(s.rate, DemoGlobal, now) + cost
  {
    hide Gateway.DemoHits, Gateway.DemoCost, Gateway.DemoStates, Gateway.DemoRows, Decisions.Visitor, Decisions.LimitOf,
      Endpoint, Cost, Gateway.AllAllowed, Gateway.Count, Gateway.Binding;
    DemoHitsAre(d);
    var hits, cost := Gateway.DemoHits(d), Cost(d.cost);
    AllowedIffAllFit(s.rate, hits, now, cost);
    CountedOnce(s.rate, hits, now, cost, 0);
    CountedOnce(s.rate, hits, now, cost, 1);
    CountedOnce(s.rate, hits, now, cost, 2);
    CountedOnce(s.rate, hits, now, cost, 3);
    assert Fits(s.rate, hits[0], now, cost) <==>
           Gateway.Count(s.rate, RateKey(hits[0].bucket, now / 60_000 * 60_000)) + cost <= hits[0].limit;
  }
}
