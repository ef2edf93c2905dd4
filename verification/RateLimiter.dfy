/** The in-process window limiter: bounded, in seconds, and meant to answer as the gateway's windows do. */
module RateLimiter {
  import opened Wrappers
  import opened OrderedDict
  import opened Tables
  import opened Calendar
  import Gateway

  datatype Key = Key(bucket: RateBucket, window: int)

  type Counts = Dict<Key, nat>

  /** Python's floor division of the clock by 60. */
  function WindowOf(now: real): int {
    (now / 60.0).Floor
  }

  datatype Reply = Reply(allowed: bool, remaining: int, reset: int)

  function ReplyTo(count: int, limit: int, window: int): Reply {
    Reply(count <= limit, Max(0, limit - count), (window + 1) * 60)
  }

  function Seen(d: Counts, k: Key): nat {
    if k in d.values then d.values[k] else 0
  }

  function Counted(d: Counts, k: Key, max: nat): Counts {
    Trim(Put(d, k, Seen(d, k) + 1), max)
  }

  class WindowRateLimiter {
    const maxBuckets: nat
    var counts: Counts

    constructor (maxBuckets: nat)
      ensures this.maxBuckets == maxBuckets && counts == Empty()
    {
      this.maxBuckets := maxBuckets;
      counts := Empty();
    }

    method Hit(bucket: RateBucket, limit: int, now: real) returns (r: Reply)
      modifies this
      ensures var k := Key(bucket, WindowOf(now));
              counts == Counted(old(counts), k, maxBuckets) && r == ReplyTo(Seen(old(counts), k) + 1, limit, k.window)
    {
      var window := (now / 60.0).Floor;
      var key := Key(bucket, window);
      var count := (if key in counts.values then counts.values[key] else 0) + 1;
      counts := Put(Remove(counts, key), key, count);
      PutAfterRemove(old(counts), key, count);
      while |counts.order| > maxBuckets
        invariant Trim(counts, maxBuckets) == Counted(old(counts), key, maxBuckets)
        decreases |counts.order|
      {
        counts := DropFirst(counts);
      }
      var reset := (window + 1) * 60;
      r := Reply(count <= limit, Max(0, limit - count), reset);
    }
  }

  // ---- Runs ----------------------------------------------------------------------------------------

  /** One hit, by the clock in milliseconds. */
  datatype Hit = Hit(bucket: RateBucket, limit: int, ms: nat)

  function Seconds(ms: nat): real {
    ms as real / 1000.0
  }

  function KeyOf(h: Hit): Key {
    Key(h.bucket, WindowOf(Seconds(h.ms)))
  }

  function Keys(hits: seq<Hit>): (r: seq<Key>)
    ensures |r| == |hits| && forall i :: 0 <= i < |r| ==> r[i] == KeyOf(hits[i])
  {
    seq(|hits|, i requires 0 <= i < |hits| => KeyOf(hits[i]))
  }

  function After(touched: seq<Key>, max: nat): Counts {
    if touched == [] then Empty() else Counted(After(touched[..|touched| - 1], max), touched[|touched| - 1], max)
  }

  function RowsAfter(hits: seq<Hit>): map<RateKey, nat> {
    if hits == [] then map[]
    else var h := hits[|hits| - 1];
      Gateway.HitRows(RowsAfter(hits[..|hits| - 1]), h.bucket, h.ms, MINUTE_MS, 1)
  }

  /** What the limiter answers to the last hit of a list. */
  function Local(earlier: seq<Hit>, h: Hit, max: nat): Reply {
    ReplyTo(Seen(After(Keys(earlier), max), KeyOf(h)) + 1, h.limit, KeyOf(h).window)
  }

  /** What the gateway's table of windows answers to it. */
  function Central(earlier: seq<Hit>, h: Hit): Reply {
    var s := Gateway.HitState(RowsAfter(earlier), h.bucket, h.limit, h.ms, MINUTE_MS, 1);
    Reply(s.allowed, s.remaining, s.reset)
  }

  // ---- Seconds and milliseconds --------------------------------------------------------------------

  lemma SameWindow(ms: nat)
    ensures WindowOf(Seconds(ms)) == ms / MINUTE_MS
    ensures Gateway.WindowStart(ms, MINUTE_MS) == WindowOf(Seconds(ms)) * MINUTE_MS
    ensures (Gateway.WindowStart(ms, MINUTE_MS) + MINUTE_MS) / 1000 == (WindowOf(Seconds(ms)) + 1) * 60
  {
    var q, r := ms / MINUTE_MS, ms % MINUTE_MS;
    assert ms == q * MINUTE_MS + r;
    assert Seconds(ms) / 60.0 == q as real + r as real / 60000.0;
    assert 0.0 <= r as real / 60000.0 < 1.0;
  }

  // ---- Bounded and unbounded -----------------------------------------------------------------------

  ghost function Times(touched: seq<Key>, k: Key): nat {
    if touched == [] then 0
    else Times(touched[..|touched| - 1], k) + if touched[|touched| - 1] == k then 1 else 0
  }

  lemma {:induction false} TimesPositive(touched: seq<Key>, k: Key)
    ensures Times(touched, k) > 0 <==> k in touched
  {
    if touched != [] {
      var n := |touched| - 1;
      TimesPositive(touched[..n], k);
      assert touched == touched[..n] + [touched[n]];
    }
  }

  /** The limiter holds at most `max` counts, and they are the ones of the most recently hit keys. */
  lemma {:induction false} HoldsTheNewest(touched: seq<Key>, max: nat)
    ensures var d := After(touched, max);
            |d.order| <= max && Newest(d.order, touched, max) && Listed(d)
  {
    if touched != [] {
      hide Newest, Counted;
      var n := |touched| - 1;
      var d := After(touched[..n], max);
      HoldsTheNewest(touched[..n], max);
      CountedNewest(d, touched[..n], touched[n], max);
      assert touched == touched[..n] + [touched[n]];
    }
  }

  lemma CountedNewest(d: Counts, prefix: seq<Key>, k: Key, max: nat)
    requires Newest(d.order, prefix, max) && Listed(d)
    ensures var t := Counted(d, k, max);
            |t.order| <= max && Newest(t.order, prefix + [k], max) && Listed(t)
            && forall x :: x in t.values ==>
               (x == k || x in d.values) && t.values[x] == if x == k then Seen(d, k) + 1 else d.values[x]
  {
    hide Newest, Trim;
    PutNewest(d.order, k, prefix, max);
    TrimNewest(Put(d, k, Seen(d, k) + 1), prefix + [k], max);
  }

  /** A count is held exactly as long as fewer than `max` other keys were hit since. */
  lemma HeldIff(touched: seq<Key>, max: nat, k: Key)
    ensures k in After(touched, max).values <==> k in touched && |Since(touched, k)| < max
  {
    HoldsTheNewest(touched, max);
    var d := After(touched, max);
    if k in touched {
      Membership(d.order, touched, max, k);
    }
  }

  ghost predicate Complete(touched: seq<Key>, d: Counts) {
    forall k :: k in d.values ==> d.values[k] == Times(touched, k)
  }

  /** With room for every repeated key, no held count is short. */
  lemma {:induction false} CountsAreComplete(touched: seq<Key>, max: nat)
    requires Roomy(touched, max)
    ensures Complete(touched, After(touched, max))
  {
    hide Newest, Counted, Complete, Times;
    if touched == [] {
      assert Complete(touched, After(touched, max)) by { NothingIsComplete(); }
    } else {
      var n := |touched| - 1;
      RoomyPrefix(touched, n, max);
      CountsAreComplete(touched[..n], max);
      assert touched == touched[..n] + [touched[n]];
      assert RoomyAt(touched[..n], touched[n], max);
      HeldIff(touched[..n], max, touched[n]);
      HoldsTheNewest(touched[..n], max);
      StaysComplete(After(touched[..n], max), touched[..n], touched[n], max);
    }
  }

  lemma NothingIsComplete()
    ensures Complete([], Empty())
  {
  }

  lemma StaysComplete(d: Counts, prefix: seq<Key>, k: Key, max: nat)
    requires Newest(d.order, prefix, max) && Listed(d)
    requires Complete(prefix, d) && (k in prefix ==> k in d.values)
    ensures Complete(prefix + [k], Counted(d, k, max))
  {
    hide Newest, Counted;
    CountedNewest(d, prefix, k, max);
    TimesPositive(prefix, k);
    var t := Counted(d, k, max);
    forall x | x in t.values ensures t.values[x] == Times(prefix + [k], x) {
      assert (prefix + [k])[..|prefix|] == prefix;
    }
  }

  lemma {:induction false} RowsAreTimes(hits: seq<Hit>, bucket: RateBucket, ms: nat)
    ensures Gateway.Count(RowsAfter(hits), RateKey(bucket, Gateway.WindowStart(ms, MINUTE_MS)))
            == Times(Keys(hits), Key(bucket, WindowOf(Seconds(ms))))
  {
    if hits != [] {
      var n := |hits| - 1;
      RowsAreTimes(hits[..n], bucket, ms);
      assert Keys(hits)[..n] == Keys(hits[..n]);
      SameWindow(ms);
      SameWindow(hits[n].ms);
    }
  }

  /** One answer: the same as the gateway's table when no count of the key was evicted since it was last hit. */
  lemma AnswersAgree(earlier: seq<Hit>, h: Hit, max: nat)
    requires Roomy(Keys(earlier), max)
    ensures RoomyAt(Keys(earlier), KeyOf(h), max) ==> Local(earlier, h, max) == Central(earlier, h)
  {
    var t, k := Keys(earlier), KeyOf(h);
    SameWindow(h.ms);
    RowsAreTimes(earlier, h.bucket, h.ms);
    HeldIff(t, max, k);
    CountsAreComplete(t, max);
    TimesPositive(t, k);
  }

  lemma EvictedCountIsForgotten(earlier: seq<Hit>, h: Hit, max: nat)
    requires h.limit >= 1 && !RoomyAt(Keys(earlier), KeyOf(h), max)
    ensures Local(earlier, h, max) != Central(earlier, h)
    ensures Local(earlier, h, max).allowed && Local(earlier, h, max).remaining == h.limit - 1
  {
    var t, k := Keys(earlier), KeyOf(h);
    SameWindow(h.ms);
    RowsAreTimes(earlier, h.bucket, h.ms);
    HeldIff(t, max, k);
    TimesPositive(t, k);
  }

  ghost predicate AgreesThroughout(hits: seq<Hit>, max: nat) {
    forall i :: 0 <= i < |hits| ==> Local(hits[..i], hits[i], max) == Central(hits[..i], hits[i])
  }

  /** Over a whole run, the bounded limiter answers every hit as the unbounded table does exactly when
      fewer than `max` other keys are hit between two hits of a key. */
  lemma AgreesIffRoomy(hits: seq<Hit>, max: nat)
    requires forall i :: 0 <= i < |hits| ==> hits[i].limit >= 1
    ensures AgreesThroughout(hits, max) <==> Roomy(Keys(hits), max)
  {
    var t := Keys(hits);
    forall i | 0 <= i < |hits| ensures t[..i] == Keys(hits[..i]) && t[i] == KeyOf(hits[i]) {}
    if Roomy(t, max) {
      MirrorsTheGateway(hits, max);
    } else {
      var i :| 0 <= i < |t| && !RoomyAt(t[..i], t[i], max);
      EvictedCountIsForgotten(hits[..i], hits[i], max);
    }
  }

  lemma MirrorsTheGateway(hits: seq<Hit>, max: nat)
    requires Roomy(Keys(hits), max)
    ensures AgreesThroughout(hits, max)
  {
    var t := Keys(hits);
    forall i | 0 <= i < |hits| ensures Local(hits[..i], hits[i], max) == Central(hits[..i], hits[i]) {
      RoomyPrefix(t, i, max);
      assert t[..i] == Keys(hits[..i]);
      AnswersAgree(hits[..i], hits[i], max);
    }
  }
}
