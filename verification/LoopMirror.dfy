/** Whole runs of requests charged to the in-process limiter, bucket by bucket, against the same requests charged to
    the gateway's table of windows. */
module LoopMirror {
  import opened Wrappers
  import opened OrderedDict
  import opened Calendar
  import opened Tables
  import opened Gateway
  import opened RateLimiter
  import opened BucketLoop

  /** One request: the buckets it is charged to, in order, and when. */
  datatype Charged = Charged(buckets: seq<BucketLimit>, ms: nat)

  /** What the limiter holds after a run: each request is one call of Charge. */
  function LocalAfter(rs: seq<Charged>, max: nat): Counts {
    if rs == [] then Empty() else
    var r := rs[|rs| - 1];
    LocalCounts(LocalAfter(rs[..|rs| - 1], max), r.buckets, WindowOf(Seconds(r.ms)), max)
  }

  function CentralAfter(rs: seq<Charged>): map<RateKey, nat> {
    if rs == [] then map[] else
    var r := rs[|rs| - 1];
    HitAllRows(CentralAfter(rs[..|rs| - 1]), r.buckets, r.ms)
  }

  /** The states the loop sees for one more request. */
  function LocalAnswer(rs: seq<Charged>, r: Charged, max: nat): (states: seq<RateLimitState>)
    ensures |states| == |r.buckets| && forall i :: 0 <= i < |states| ==> Sane(states[i])
  {
    LocalStates(LocalAfter(rs, max), r.buckets, WindowOf(Seconds(r.ms)), max)
  }

  /** The states the gateway combines. */
  function CentralAnswer(rs: seq<Charged>, r: Charged): (states: seq<RateLimitState>)
    ensures |states| == |r.buckets|
  {
    HitAllStates(CentralAfter(rs), r.buckets, r.ms)
  }

  // ---- Requests as hits ------------------------------------------------------------------------------

  function HitsOf(bs: seq<BucketLimit>, ms: nat): (hs: seq<Hit>)
    ensures |hs| == |bs| && forall i :: 0 <= i < |hs| ==> hs[i] == Hit(bs[i].bucket, bs[i].limit, ms)
  {
    seq(|bs|, i requires 0 <= i < |bs| => Hit(bs[i].bucket, bs[i].limit, ms))
  }

  function AllHits(rs: seq<Charged>): seq<Hit> {
    if rs == [] then [] else AllHits(rs[..|rs| - 1]) + HitsOf(rs[|rs| - 1].buckets, rs[|rs| - 1].ms)
  }

  /** The hits of request i follow those of the requests before it. */
  lemma {:induction false} HitsAt(rs: seq<Charged>, i: nat)
    requires i < |rs|
    ensures var before, hs := AllHits(rs[..i]), HitsOf(rs[i].buckets, rs[i].ms);
            before + hs <= AllHits(rs)
  {
    var n := |rs| - 1;
    if i < n {
      HitsAt(rs[..n], i);
      assert rs[..n][..i] == rs[..i];
    }
  }

  lemma {:induction false} Locate(rs: seq<Charged>, h: nat) returns (i: nat, j: nat)
    requires h < |AllHits(rs)|
    ensures i < |rs| && j < |rs[i].buckets| && h == |AllHits(rs[..i])| + j
  {
    var n := |rs| - 1;
    if h < |AllHits(rs[..n])| {
      i, j := Locate(rs[..n], h);
      assert rs[..n][..i] == rs[..i];
    } else {
      i, j := n, h - |AllHits(rs[..n])|;
    }
  }

  lemma OneMoreHit(hits: seq<Hit>, h: Hit, max: nat)
    ensures After(Keys(hits + [h]), max) == Counted(After(Keys(hits), max), KeyOf(h), max)
    ensures RowsAfter(hits + [h]) == HitRows(RowsAfter(hits), h.bucket, h.ms, MINUTE_MS, 1)
  {
    hide Counted, HitRows, KeyOf;
    assert (hits + [h])[..|hits|] == hits;
    assert Keys(hits + [h])[..|hits|] == Keys(hits);
  }

  /** A bucket's state in the answer to a request is the reply to its hit. */
  ghost predicate IsReply(before: seq<Hit>, bs: seq<BucketLimit>, ms: nat, max: nat, j: nat)
    requires j < |bs|
  {
    var hs := HitsOf(bs, ms);
    LocalStates(After(Keys(before), max), bs, WindowOf(Seconds(ms)), max)[j]
    == StateOf(bs[j].limit, Local(before + hs[..j], hs[j], max))
    && HitAllStates(RowsAfter(before), bs, ms)[j] == StateOf(bs[j].limit, Central(before + hs[..j], hs[j]))
  }

  lemma FirstReply(before: seq<Hit>, bs: seq<BucketLimit>, ms: nat, max: nat)
    requires bs != []
    ensures IsReply(before, bs, ms, max, 0)
  {
    var hs := HitsOf(bs, ms);
    assert before + hs[..0] == before;
    SameWindow(ms);
  }

  lemma LaterStates(d: Counts, rate: map<RateKey, nat>, bs: seq<BucketLimit>, ms: nat, max: nat, j: nat)
    requires 0 < j < |bs|
    ensures var w := WindowOf(Seconds(ms));
            LocalStates(d, bs, w, max)[j]
            == LocalStates(Counted(d, Key(bs[0].bucket, w), max), bs[1..], w, max)[j - 1]
    ensures HitAllStates(rate, bs, ms)[j]
            == HitAllStates(HitRows(rate, bs[0].bucket, ms, MINUTE_MS, 1), bs[1..], ms)[j - 1]
  {
    hide Counted, HitRows, LocalState, HitState;
  }

  lemma NextReply(before: seq<Hit>, bs: seq<BucketLimit>, ms: nat, max: nat, j: nat)
    requires 0 < j < |bs| && IsReply(before + [HitsOf(bs, ms)[0]], bs[1..], ms, max, j - 1)
    ensures IsReply(before, bs, ms, max, j)
  {
    hide Counted, HitRows, RowsAfter, After, Central, Local, LocalStates, HitAllStates;
    var hs := HitsOf(bs, ms);
    var next := before + [hs[0]];
    OneMoreHit(before, hs[0], max);
    LaterStates(After(Keys(before), max), RowsAfter(before), bs, ms, max, j);
    assert HitsOf(bs[1..], ms) == hs[1..];
    assert hs[1..][j - 1] == hs[j] && next + hs[1..][..j - 1] == before + hs[..j];
  }

  lemma {:induction false} StatesAreReplies(before: seq<Hit>, bs: seq<BucketLimit>, ms: nat, max: nat)
    ensures LocalCounts(After(Keys(before), max), bs, WindowOf(Seconds(ms)), max)
            == After(Keys(before + HitsOf(bs, ms)), max)
    ensures HitAllRows(RowsAfter(before), bs, ms) == RowsAfter(before + HitsOf(bs, ms))
    ensures forall j :: 0 <= j < |bs| ==> IsReply(before, bs, ms, max, j)
    decreases bs
  {
    hide Counted, HitRows, RowsAfter, After, IsReply;
    var hs := HitsOf(bs, ms);
    if bs == [] {
      assert before + hs == before;
    } else {
      var next := before + [hs[0]];
      assert hs[1..] == HitsOf(bs[1..], ms) && before + hs == next + hs[1..];
      OneMoreHit(before, hs[0], max);
      StatesAreReplies(next, bs[1..], ms, max);
      hide LocalCounts, HitAllRows;
      forall j | 0 <= j < |bs| ensures IsReply(before, bs, ms, max, j) {
        if j == 0 {
          FirstReply(before, bs, ms, max);
        } else {
          assert IsReply(next, bs[1..], ms, max, j - 1);
          NextReply(before, bs, ms, max, j);
        }
      }
    }
  }

  lemma {:induction false} RunsAreHits(rs: seq<Charged>, max: nat)
    ensures LocalAfter(rs, max) == After(Keys(AllHits(rs)), max) && CentralAfter(rs) == RowsAfter(AllHits(rs))
  {
    if rs != [] {
      var n := |rs| - 1;
      RunsAreHits(rs[..n], max);
      StatesAreReplies(AllHits(rs[..n]), rs[n].buckets, rs[n].ms, max);
    }
  }

  // ---- Agreement ---------------------------------------------------------------------------------------

  ghost predicate SameStatesThroughout(rs: seq<Charged>, max: nat) {
    forall i :: 0 <= i < |rs| ==> LocalAnswer(rs[..i], rs[i], max) == CentralAnswer(rs[..i], rs[i])
  }

  predicate PositiveLimits(rs: seq<Charged>) {
    forall i, j :: 0 <= i < |rs| && 0 <= j < |rs[i].buckets| ==> rs[i].buckets[j].limit >= 1
  }

  lemma StateOfRequest(rs: seq<Charged>, max: nat, i: nat, j: nat)
    requires i < |rs| && j < |rs[i].buckets|
    ensures var before, hs, limit := AllHits(rs[..i]), HitsOf(rs[i].buckets, rs[i].ms), rs[i].buckets[j].limit;
            LocalAnswer(rs[..i], rs[i], max)[j] == StateOf(limit, Local(before + hs[..j], hs[j], max))
            && CentralAnswer(rs[..i], rs[i])[j] == StateOf(limit, Central(before + hs[..j], hs[j]))
  {
    var before, bs, ms := AllHits(rs[..i]), rs[i].buckets, rs[i].ms;
    RunsAreHits(rs[..i], max);
    StatesAreReplies(before, bs, ms, max);
    hide AllHits, Local, Central, LocalStates, HitAllStates, After, RowsAfter, LocalCounts, HitAllRows;
    assert IsReply(before, bs, ms, max, j);
  }

  /** The states of request i are the replies to its hits, among all hits of the run. */
  lemma StateAt(rs: seq<Charged>, max: nat, i: nat, j: nat)
    requires i < |rs| && j < |rs[i].buckets|
    ensures var hits, h := AllHits(rs), |AllHits(rs[..i])| + j;
            var limit := rs[i].buckets[j].limit;
            h < |hits| && hits[h].limit == limit
            && LocalAnswer(rs[..i], rs[i], max)[j] == StateOf(limit, Local(hits[..h], hits[h], max))
            && CentralAnswer(rs[..i], rs[i])[j] == StateOf(limit, Central(hits[..h], hits[h]))
  {
    hide AllHits, Local, Central, LocalAnswer, CentralAnswer;
    var before, hs := AllHits(rs[..i]), HitsOf(rs[i].buckets, rs[i].ms);
    var hits, h := AllHits(rs), |before| + j;
    HitsAt(rs, i);
    StateOfRequest(rs, max, i, j);
    assert hits[h] == (before + hs)[h] == hs[j];
    assert hits[..h] == (before + hs)[..h] == before + hs[..j];
  }

  /** Over a whole run of requests, the loop sees the states the gateway does, request by request and bucket by
      bucket, exactly when fewer than `max` other windows are hit between two hits of one. */
  lemma LoopAgreesIffRoomy(rs: seq<Charged>, max: nat)
    requires PositiveLimits(rs)
    ensures SameStatesThroughout(rs, max) <==> Roomy(Keys(AllHits(rs)), max)
  {
    hide Roomy, LocalAnswer, CentralAnswer, Local, Central;
    var hits := AllHits(rs);
    forall h | 0 <= h < |hits| ensures hits[h].limit >= 1 {
      var i, j := Locate(rs, h);
      StateAt(rs, max, i, j);
    }
    AgreesIffRoomy(hits, max);
    if AgreesThroughout(hits, max) {
      forall i | 0 <= i < |rs| ensures LocalAnswer(rs[..i], rs[i], max) == CentralAnswer(rs[..i], rs[i]) {
        SameStates(rs, max, i);
      }
    }
    if SameStatesThroughout(rs, max) {
      forall h | 0 <= h < |hits| ensures Local(hits[..h], hits[h], max) == Central(hits[..h], hits[h]) {
        var i, j := Locate(rs, h);
        StateAt(rs, max, i, j);
      }
    }
  }

  lemma SameStates(rs: seq<Charged>, max: nat, i: nat)
    requires i < |rs| && AgreesThroughout(AllHits(rs), max)
    ensures LocalAnswer(rs[..i], rs[i], max) == CentralAnswer(rs[..i], rs[i])
  {
    hide AllHits, Local, Central;
    var a, b := LocalAnswer(rs[..i], rs[i], max), CentralAnswer(rs[..i], rs[i]);
    forall j | 0 <= j < |rs[i].buckets| ensures a[j] == b[j] {
      StateAt(rs, max, i, j);
    }
    hide LocalAnswer, CentralAnswer;
    assert |a| == |b|;
  }

  /** So over a run with room, what Charge answers is what the gateway does: whether the request is allowed, how
      many requests are left, and, unless something is refused and the first bucket with nothing left is not, of
      which bucket. */
  lemma LoopMirrorsTheGateway(rs: seq<Charged>, max: nat, i: nat)
    requires PositiveLimits(rs) && Roomy(Keys(AllHits(rs)), max) && i < |rs| && rs[i].buckets != []
    ensures var local, central := LocalAnswer(rs[..i], rs[i], max), CentralAnswer(rs[..i], rs[i]);
            var binding := local[FirstFewest(local)];
            AllAllowed(local) == Combine(central).allowed && binding.remaining == Combine(central).remaining
            && (AllAllowed(local) || !binding.allowed <==> Binding(central) == binding)
  {
    hide Roomy, LocalAnswer, CentralAnswer;
    LoopAgreesIffRoomy(rs, max);
    var local := LocalAnswer(rs[..i], rs[i], max);
    AgreeOnAllowedAndRemaining(local);
    AgreeOnLimit(local);
  }

  // ---- Different limits --------------------------------------------------------------------------------

  function Repeated(r: Charged, n: nat): (rs: seq<Charged>)
    ensures |rs| == n && forall i :: 0 <= i < n ==> rs[i] == r
  {
    seq(n, i => r)
  }

  predicate ThreeBuckets(r: Charged) {
    |r.buckets| == 3 && r.buckets[0].bucket != r.buckets[1].bucket && r.buckets[0].bucket != r.buckets[2].bucket
    && r.buckets[1].bucket != r.buckets[2].bucket
  }

  function LocalKey(r: Charged, j: nat): Key
    requires j < |r.buckets|
  {
    Key(r.buckets[j].bucket, WindowOf(Seconds(r.ms)))
  }

  function CentralKey(r: Charged, j: nat): RateKey
    requires j < |r.buckets|
  {
    RateKey(r.buckets[j].bucket, WindowStart(r.ms, MINUTE_MS))
  }

  /** The limiter has counted n hits of each of the three. */
  predicate LocalLevel(d: Counts, r: Charged, n: nat)
    requires ThreeBuckets(r)
  {
    Cycle(d, LocalKey(r, 0), LocalKey(r, 1), LocalKey(r, 2), n)
  }

  predicate CentralLevel(rate: map<RateKey, nat>, r: Charged, n: nat)
    requires ThreeBuckets(r)
  {
    Count(rate, CentralKey(r, 0)) == n && Count(rate, CentralKey(r, 1)) == n && Count(rate, CentralKey(r, 2)) == n
  }

  /** Hitting the oldest or a new key, with room. */
  lemma HitOldest(d: Counts, k: Key, max: nat)
    requires k !in (if d.order != [] && d.order[0] == k then d.order[1..] else d.order)
    requires |d.order| + (if k in d.order then 0 else 1) <= max
    ensures var t := Counted(d, k, max);
            t.order == (if k in d.order then d.order[1..] else d.order) + [k]
            && forall x :: Seen(t, x) == Seen(d, x) + if x == k then 1 else 0
  {
  }

  function Second(d: Counts, r: Charged, max: nat): Counts
    requires ThreeBuckets(r)
  {
    Counted(d, LocalKey(r, 0), max)
  }

  function Third(d: Counts, r: Charged, max: nat): Counts
    requires ThreeBuckets(r)
  {
    Counted(Second(d, r, max), LocalKey(r, 1), max)
  }

  /** Three keys that are all there are, each hit n times, in that order. */
  predicate Cycle(d: Counts, a: Key, b: Key, c: Key, n: nat) {
    d.order == (if n == 0 then [] else [a, b, c]) && Seen(d, a) == n && Seen(d, b) == n && Seen(d, c) == n
  }

  lemma HitInTurn(d: Counts, a: Key, b: Key, c: Key, n: nat, max: nat)
    requires a != b && a != c && b != c && Cycle(d, a, b, c, n) && max >= 3
    ensures var d1 := Counted(d, a, max);
            var d2 := Counted(d1, b, max);
            Seen(d1, b) == n && Seen(d2, c) == n && Cycle(Counted(d2, c, max), a, b, c, n + 1)
  {
    hide Counted, Seen;
    var d1 := Counted(d, a, max);
    var d2 := Counted(d1, b, max);
    HitOldest(d, a, max);
    if n == 0 {
      assert d1.order == [a];
      HitOldest(d1, b, max);
      assert d2.order == [a, b];
    } else {
      assert d1.order == [b, c, a];
      HitOldest(d1, b, max);
      assert d2.order == [c, a, b];
    }
    HitOldest(d2, c, max);
    assert Counted(d2, c, max).order == [a, b, c];
  }

  /** Each of the three is hit with the count it had. */
  lemma OneByOne(d: Counts, r: Charged, n: nat, max: nat)
    requires ThreeBuckets(r) && LocalLevel(d, r, n) && max >= 3
    ensures Seen(Second(d, r, max), LocalKey(r, 1)) == Seen(Third(d, r, max), LocalKey(r, 2)) == n
    ensures LocalLevel(Counted(Third(d, r, max), LocalKey(r, 2), max), r, n + 1)
  {
    hide Counted, Seen;
    HitInTurn(d, LocalKey(r, 0), LocalKey(r, 1), LocalKey(r, 2), n, max);
  }

  lemma ThreeCounts(d: Counts, r: Charged, max: nat)
    requires ThreeBuckets(r)
    ensures var w := WindowOf(Seconds(r.ms));
            LocalCounts(d, r.buckets, w, max) == Counted(Third(d, r, max), LocalKey(r, 2), max)
            && LocalStates(d, r.buckets, w, max)
               == [LocalState(d, r.buckets[0], w), LocalState(Second(d, r, max), r.buckets[1], w),
                   LocalState(Third(d, r, max), r.buckets[2], w)]
  {
    hide Counted, LocalState;
    var w, bs := WindowOf(Seconds(r.ms)), r.buckets;
    var d1, d2 := Second(d, r, max), Third(d, r, max);
    assert bs[1..][1..] == [bs[2]];
    assert LocalCounts(d1, bs[1..], w, max) == LocalCounts(d2, [bs[2]], w, max);
    assert LocalStates(d2, [bs[2]], w, max) == [LocalState(d2, bs[2], w)];
    assert LocalStates(d1, bs[1..], w, max) == [LocalState(d1, bs[1], w)] + LocalStates(d2, [bs[2]], w, max);
  }

  lemma ThreeRows(rate: map<RateKey, nat>, r: Charged)
    requires ThreeBuckets(r)
    ensures var bs := r.buckets;
            var rate1 := HitRows(rate, bs[0].bucket, r.ms, MINUTE_MS, 1);
            var rate2 := HitRows(rate1, bs[1].bucket, r.ms, MINUTE_MS, 1);
            HitAllRows(rate, bs, r.ms) == HitRows(rate2, bs[2].bucket, r.ms, MINUTE_MS, 1)
            && HitAllStates(rate, bs, r.ms)
               == [HitState(rate, bs[0].bucket, bs[0].limit, r.ms, MINUTE_MS, 1),
                   HitState(rate1, bs[1].bucket, bs[1].limit, r.ms, MINUTE_MS, 1),
                   HitState(rate2, bs[2].bucket, bs[2].limit, r.ms, MINUTE_MS, 1)]
  {
    hide HitRows, HitState;
    var bs := r.buckets;
    var rate1 := HitRows(rate, bs[0].bucket, r.ms, MINUTE_MS, 1);
    var rate2 := HitRows(rate1, bs[1].bucket, r.ms, MINUTE_MS, 1);
    assert bs[1..][1..] == [bs[2]] && [bs[2]][1..] == [];
    assert HitAllRows(rate2, [bs[2]], r.ms) == HitRows(rate2, bs[2].bucket, r.ms, MINUTE_MS, 1);
    assert HitAllRows(rate1, bs[1..], r.ms) == HitAllRows(rate2, [bs[2]], r.ms);
    assert HitAllStates(rate2, [bs[2]], r.ms) == [HitState(rate2, bs[2].bucket, bs[2].limit, r.ms, MINUTE_MS, 1)];
    assert HitAllStates(rate1, bs[1..], r.ms)
        == [HitState(rate1, bs[1].bucket, bs[1].limit, r.ms, MINUTE_MS, 1)] + HitAllStates(rate2, [bs[2]], r.ms);
  }

  /** A state after n hits and one more. */
  predicate IsState(s: RateLimitState, limit: int, n: nat) {
    s.limit == limit && s.remaining == Max(0, limit - (n + 1)) && (s.allowed <==> n + 1 <= limit)
  }

  predicate AreStates(states: seq<RateLimitState>, r: Charged, n: nat)
    requires ThreeBuckets(r)
  {
    |states| == 3 && IsState(states[0], r.buckets[0].limit, n) && IsState(states[1], r.buckets[1].limit, n)
    && IsState(states[2], r.buckets[2].limit, n)
  }

  lemma CentralOneByOne(rate: map<RateKey, nat>, r: Charged, n: nat)
    requires ThreeBuckets(r) && CentralLevel(rate, r, n)
    ensures CentralLevel(HitAllRows(rate, r.buckets, r.ms), r, n + 1)
    ensures AreStates(HitAllStates(rate, r.buckets, r.ms), r, n)
  {
    ThreeRows(rate, r);
    hide HitAllRows, HitAllStates;
  }

  lemma LocalOneByOne(d: Counts, r: Charged, n: nat, max: nat)
    requires ThreeBuckets(r) && LocalLevel(d, r, n) && max >= 3
    ensures LocalLevel(LocalCounts(d, r.buckets, WindowOf(Seconds(r.ms)), max), r, n + 1)
    ensures AreStates(LocalStates(d, r.buckets, WindowOf(Seconds(r.ms)), max), r, n)
  {
    ThreeCounts(d, r, max);
    OneByOne(d, r, n, max);
    assert Seen(d, LocalKey(r, 0)) == n;
    hide LocalCounts, LocalStates, Seen, Counted, Second, Third, LocalLevel;
  }

  lemma {:induction false} RepeatedCounts(r: Charged, n: nat, max: nat)
    requires ThreeBuckets(r) && max >= 3
    ensures LocalLevel(LocalAfter(Repeated(r, n), max), r, n) && CentralLevel(CentralAfter(Repeated(r, n)), r, n)
  {
    hide LocalLevel, CentralLevel, LocalCounts, HitAllRows;
    if n == 0 {
      NoCounts(r, max);
    } else {
      var before := Repeated(r, n - 1);
      RepeatedCounts(r, n - 1, max);
      assert Repeated(r, n)[..n - 1] == before;
      LocalOneByOne(LocalAfter(before, max), r, n - 1, max);
      CentralOneByOne(CentralAfter(before), r, n - 1);
    }
  }

  lemma NoCounts(r: Charged, max: nat)
    requires ThreeBuckets(r)
    ensures LocalLevel(LocalAfter([], max), r, 0) && CentralLevel(CentralAfter([]), r, 0)
  {
  }

  /** A request for a route through the website's key is charged to the visitor, the key and the visitor's routes. */
  lemma RouteBuckets(env: Env, k: KeyId, key: ApiKey, a: AuthArgs)
    requires a.endpoint == Some("route") && a.perIpLimit == Some(60.0) && env.routeRate == 30
    requires key.rateLimitPerMinute.None?
    ensures var ip := VisitorIp(a.clientIp);
            SiteBuckets(env, k, key, a)
            == [BucketLimit(IpRate(ip), 60), BucketLimit(KeyRate(k), 10_000), BucketLimit(IpRouteRate(ip), 30)]
  {
  }

  /** Of three buckets the first has just used its last request and the third is over its limit. */
  lemma ThirdIsRefused(states: seq<RateLimitState>)
    requires |states| == 3 && forall i :: 0 <= i < 3 ==> Sane(states[i])
    requires states[0].allowed && states[0].remaining == 0 && states[1].allowed && !states[2].allowed
    ensures !AllAllowed(states) && FirstFewest(states) == 0
    ensures Combine(states).limit == states[2].limit && !Combine(states).allowed
  {
    BindingIs(states);
  }

  /** The 60th of these requests in a minute. */
  lemma SixtiethIsRefused(r: Charged, states: seq<RateLimitState>)
    requires ThreeBuckets(r) && AreStates(states, r, 59)
    requires r.buckets[0].limit == 60 && r.buckets[1].limit == 10_000 && r.buckets[2].limit == 30
    ensures !AllAllowed(states) && states[FirstFewest(states)].limit == 60
    ensures !Combine(states).allowed && Combine(states).limit == 30
  {
    hide Combine, AllAllowed, FirstFewest;
    ThirdIsRefused(states);
  }

  /** The limits named in a refusal can differ. With 60 requests a minute for a visitor and 30 for routes, after 59
      requests for a route in one minute the next is refused by both: the loop reports the limit of 60, which is just
      used up, and the gateway that of 30. */
  lemma LimitsCanDiffer(env: Env, k: KeyId, key: ApiKey, a: AuthArgs, ms: nat, max: nat)
    requires a.endpoint == Some("route") && a.perIpLimit == Some(60.0) && env.routeRate == 30
    requires key.rateLimitPerMinute.None? && max >= 3
    ensures var r := Charged(SiteBuckets(env, k, key, a), ms);
            var before := Repeated(r, 59);
            var local, central := LocalAnswer(before, r, max), Combine(CentralAnswer(before, r));
            local != [] && !AllAllowed(local) && local[FirstFewest(local)].limit == 60
            && CentralAnswer(before, r) != [] && !central.allowed && central.limit == 30
  {
    var r := Charged(SiteBuckets(env, k, key, a), ms);
    RouteBuckets(env, k, key, a);
    RepeatedCounts(r, 59, max);
    hide LocalStates, HitAllStates, LocalAfter, CentralAfter, SiteBuckets, LocalLevel, CentralLevel, AllAllowed,
      Combine, FirstFewest, AreStates;
    LocalOneByOne(LocalAfter(Repeated(r, 59), max), r, 59, max);
    CentralOneByOne(CentralAfter(Repeated(r, 59)), r, 59);
    SixtiethIsRefused(r, LocalAnswer(Repeated(r, 59), r, max));
    SixtiethIsRefused(r, CentralAnswer(Repeated(r, 59), r));
  }
}
