/** The loop that charges a cached credential's buckets to the in-process limiter, against the
    gateway's way of combining limit states. */
module BucketLoop {
  import opened Wrappers
  import opened OrderedDict
  import opened Tables
  import opened Gateway
  import opened RateLimiter

  function StateOf(limit: int, r: Reply): RateLimitState {
    RateLimitState(limit, r.remaining, r.reset, r.allowed)
  }

  function LocalState(d: Counts, b: BucketLimit, window: int): RateLimitState {
    StateOf(b.limit, ReplyTo(Seen(d, Key(b.bucket, window)) + 1, b.limit, window))
  }

  function LocalCounts(d: Counts, buckets: seq<BucketLimit>, window: int, max: nat): Counts
    decreases buckets
  {
    if buckets == [] then d
    else LocalCounts(Counted(d, Key(buckets[0].bucket, window), max), buckets[1..], window, max)
  }

  function LocalStates(d: Counts, buckets: seq<BucketLimit>, window: int, max: nat): (r: seq<RateLimitState>)
    ensures |r| == |buckets|
    ensures forall i :: 0 <= i < |r| ==> Sane(r[i]) && r[i].reset == (window + 1) * 60
    decreases buckets
  {
    if buckets == [] then []
    else
      [LocalState(d, buckets[0], window)] +
      LocalStates(Counted(d, Key(buckets[0].bucket, window), max), buckets[1..], window, max)
  }

  /** A refused state has nothing left. */
  predicate Sane(s: RateLimitState) {
    s.remaining >= 0 && (!s.allowed ==> s.remaining == 0)
  }

  /** The first state with the fewest requests left. */
  function FirstFewest(states: seq<RateLimitState>): (m: nat)
    requires states != []
    ensures m < |states| && (forall i :: 0 <= i < |states| ==> states[m].remaining <= states[i].remaining)
    ensures forall i :: 0 <= i < m ==> states[m].remaining < states[i].remaining
  {
    var n := |states| - 1;
    if n == 0 then 0 else
    var m := FirstFewest(states[..n]);
    if states[n].remaining < states[m].remaining then n else m
  }

  function FirstRefused(states: seq<RateLimitState>): (m: nat)
    requires !AllAllowed(states)
    ensures m < |states| && !states[m].allowed && forall i :: 0 <= i < m ==> states[i].allowed
  {
    if !states[0].allowed then 0 else
    assert states == [states[0]] + states[1..];
    1 + FirstRefused(states[1..])
  }

  /** The first i buckets are charged and reported. */
  ghost predicate Progress(d: Counts, start: Counts, buckets: seq<BucketLimit>, i: nat, window: int, max: nat,
                           allowed: bool, binding: Option<RateLimitState>)
  {
    var all := LocalStates(start, buckets, window, max);
    i <= |buckets|
    && LocalCounts(d, buckets[i..], window, max) == LocalCounts(start, buckets, window, max)
    && all[i..] == LocalStates(d, buckets[i..], window, max)
    && allowed == AllAllowed(all[..i])
    && binding == if i == 0 then None else Some(all[FirstFewest(all[..i])])
  }

  lemma Begin(start: Counts, buckets: seq<BucketLimit>, window: int, max: nat)
    ensures Progress(start, start, buckets, 0, window, max, true, None)
  {
    assert buckets[0..] == buckets;
  }

  lemma Next(d: Counts, start: Counts, buckets: seq<BucketLimit>, i: nat, window: int, max: nat, allowed: bool,
             binding: Option<RateLimitState>)
    requires i < |buckets| && Progress(d, start, buckets, i, window, max, allowed, binding)
    ensures var state := LocalState(d, buckets[i], window);
            Progress(Counted(d, Key(buckets[i].bucket, window), max), start, buckets, i + 1, window, max,
                     allowed && state.allowed,
                     if binding.None? || state.remaining < binding.value.remaining then Some(state) else binding)
  {
    hide Counted, Seen, ReplyTo, LocalState, AllAllowed, FirstFewest;
    var all := LocalStates(start, buckets, window, max);
    assert buckets[i..][1..] == buckets[i + 1..];
    assert all[i..][1..] == all[i + 1..] && all[i] == all[i..][0];
    OneState(all, i);
  }

  lemma Finish(d: Counts, start: Counts, buckets: seq<BucketLimit>, window: int, max: nat, allowed: bool,
               binding: Option<RateLimitState>)
    requires Progress(d, start, buckets, |buckets|, window, max, allowed, binding)
    ensures d == LocalCounts(start, buckets, window, max)
    ensures var states := LocalStates(start, buckets, window, max);
            allowed == AllAllowed(states) && binding == if states == [] then None else Some(states[FirstFewest(states)])
  {
    var all := LocalStates(start, buckets, window, max);
    assert all[..|buckets|] == all;
  }

  lemma OneState(all: seq<RateLimitState>, i: nat)
    requires i < |all|
    ensures AllAllowed(all[..i + 1]) == (AllAllowed(all[..i]) && all[i].allowed)
    ensures FirstFewest(all[..i + 1]) ==
            if i == 0 || all[i].remaining < all[FirstFewest(all[..i])].remaining then i else FirstFewest(all[..i])
  {
    assert all[..i + 1][..i] == all[..i];
    assert all[..i + 1] == all[..i] + [all[i]];
  }

  /** Charges every bucket, also after a refusal, and reports the first state with the fewest left. */
  method Charge(limiter: WindowRateLimiter, buckets: seq<BucketLimit>, now: real)
    returns (allowed: bool, binding: Option<RateLimitState>)
    modifies limiter
    ensures limiter.counts == LocalCounts(old(limiter.counts), buckets, WindowOf(now), limiter.maxBuckets)
    ensures var states := LocalStates(old(limiter.counts), buckets, WindowOf(now), limiter.maxBuckets);
            allowed == AllAllowed(states)
            && binding == if states == [] then None else Some(states[FirstFewest(states)])
  {
    hide Progress, Counted, Seen, ReplyTo, LocalCounts, LocalStates, AllAllowed, FirstFewest;
    var window := WindowOf(now);
    ghost var start, max := limiter.counts, limiter.maxBuckets;
    allowed, binding := true, None;
    var i := 0;
    assert Progress(limiter.counts, start, buckets, i, window, max, allowed, binding) by {
      Begin(start, buckets, window, max);
    }
    while i < |buckets|
      invariant 0 <= i <= |buckets|
      invariant Progress(limiter.counts, start, buckets, i, window, max, allowed, binding)
    {
      Next(limiter.counts, start, buckets, i, window, max, allowed, binding);
      var r := limiter.Hit(buckets[i].bucket, buckets[i].limit, now);
      allowed := allowed && r.allowed;
      var state := StateOf(buckets[i].limit, r);
      if binding.None? || state.remaining < binding.value.remaining {
        binding := Some(state);
      }
      i := i + 1;
    }
    Finish(limiter.counts, start, buckets, window, max, allowed, binding);
  }

  // ---- Against the gateway -------------------------------------------------------------------------

  /** The gateway reports the first refused state, or the first with the fewest left. */
  lemma {:induction false} BindingIs(states: seq<RateLimitState>)
    requires states != [] && forall i :: 0 <= i < |states| ==> Sane(states[i])
    ensures Binding(states) == if AllAllowed(states) then states[FirstFewest(states)] else states[FirstRefused(states)]
  {
    if |states| > 1 {
      var rest := states[1..];
      BindingIs(rest);
      assert states == [states[0]] + rest;
      assert AllAllowed(states) <==> states[0].allowed && AllAllowed(rest);
      if AllAllowed(states) {
        FewestOfRest(states);
      }
    }
  }

  lemma FewestOfRest(states: seq<RateLimitState>)
    requires |states| > 1
    ensures var m := FirstFewest(states[1..]);
            FirstFewest(states) == if states[1..][m].remaining < states[0].remaining then m + 1 else 0
  {
    var m, f := FirstFewest(states[1..]), FirstFewest(states);
    assert forall i :: 1 <= i < |states| ==> states[i] == states[1..][i - 1];
    assert states[m + 1].remaining <= states[f].remaining || f == 0;
  }

  /** The loop and the gateway agree on whether the request is allowed and on how many are left, which is
      the fewest any bucket has left. */
  lemma AgreeOnAllowedAndRemaining(states: seq<RateLimitState>)
    requires states != [] && forall i :: 0 <= i < |states| ==> Sane(states[i])
    ensures Combine(states).allowed <==> AllAllowed(states)
    ensures Combine(states).remaining == states[FirstFewest(states)].remaining
    ensures forall i :: 0 <= i < |states| ==> Combine(states).remaining <= states[i].remaining
  {
    BindingIs(states);
  }

  /** They report the same state exactly when nothing is refused or the first bucket with nothing left is
      a refused one. */
  lemma AgreeOnLimit(states: seq<RateLimitState>)
    requires states != [] && forall i :: 0 <= i < |states| ==> Sane(states[i])
    ensures var m := FirstFewest(states);
            (AllAllowed(states) || !states[m].allowed) <==> Binding(states) == states[m]
  {
    BindingIs(states);
    if !AllAllowed(states) {
      var m, f := FirstFewest(states), FirstRefused(states);
      assert states[f].remaining == 0;
      if !states[m].allowed {
        assert m == f;
      }
    }
  }
}
