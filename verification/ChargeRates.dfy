/** How fast accepted requests can come: per account, over all its keys, whatever is pruned and whatever else runs. */
module ChargeRates {
  import opened Wrappers
  import opened Calendar
  import opened Tables
  import opened Plans
  import opened Machine
  import opened RateLedger
  import opened Decisions
  import QuotaLedger
  import Gateway

  /** The account's charges made at `from` or later and before `to`. */
  function ChargesIn(cs: seq<Charge>, u: UserId, from: nat, to: nat): nat {
    if cs == [] then 0 else
    var c := cs[|cs| - 1];
    ChargesIn(cs[..|cs| - 1], u, from, to) + if c.user == u && from <= c.at < to then 1 else 0
  }

  function FreeIn(cs: seq<Charge>, u: UserId, from: nat, to: nat): nat {
    if cs == [] then 0 else
    var c := cs[|cs| - 1];
    FreeIn(cs[..|cs| - 1], u, from, to) + if c.user == u && c.free && from <= c.at < to then 1 else 0
  }

  lemma OneMoreCharge(cs: seq<Charge>, c: Charge, u: UserId, from: nat, to: nat)
    ensures ChargesIn(cs + [c], u, from, to)
            == ChargesIn(cs, u, from, to) + if c.user == u && from <= c.at < to then 1 else 0
    ensures FreeIn(cs + [c], u, from, to)
            == FreeIn(cs, u, from, to) + if c.user == u && c.free && from <= c.at < to then 1 else 0
  {
    assert (cs + [c])[..|cs|] == cs;
  }

  lemma {:induction false} FreeAreCharges(cs: seq<Charge>, u: UserId, from: nat, to: nat)
    ensures FreeIn(cs, u, from, to) <= ChargesIn(cs, u, from, to)
  {
    if cs != [] {
      FreeAreCharges(cs[..|cs| - 1], u, from, to);
    }
  }

  lemma {:induction false} NoneYet(cs: seq<Charge>, u: UserId, from: nat, to: nat)
    requires forall i :: 0 <= i < |cs| ==> cs[i].at < from
    ensures ChargesIn(cs, u, from, to) == 0
  {
    if cs != [] {
      NoneYet(cs[..|cs| - 1], u, from, to);
    }
  }

  lemma {:induction false} TwoWindows(cs: seq<Charge>, u: UserId, from: nat, to: nat, a: nat, b: nat, c: nat)
    requires a <= from && to <= c && a <= b <= c
    ensures ChargesIn(cs, u, from, to) <= ChargesIn(cs, u, a, b) + ChargesIn(cs, u, b, c)
    ensures FreeIn(cs, u, from, to) <= FreeIn(cs, u, a, b) + FreeIn(cs, u, b, c)
  {
    if cs != [] {
      TwoWindows(cs[..|cs| - 1], u, from, to, a, b, c);
    }
  }

  // ---- Every charge is a hit of its account's bucket -------------------------------------------------------

  lemma {:induction false} HitIsCounted(bs: seq<Gateway.BucketLimit>, now: nat, i: nat)
    requires i < |bs|
    ensures HitsIn(BucketEvents(bs, now), bs[i].bucket, now / 60_000 * 60_000) >= 1
    decreases bs
  {
    var es := BucketEvents(bs, now);
    if i > 0 {
      assert es[1..] == BucketEvents(bs[1..], now);
      HitIsCounted(bs[1..], now, i - 1);
    }
  }

  /** A charged request was below its account's limit this minute, and is counted against it. */
  lemma ChargedIsCounted(w: World, env: Env, a: Gateway.AuthArgs, now: nat)
    requires Sound(w)
    ensures var cs := ChargeOf(w.s, a, Gateway.Authorize(w.s, env, a, now).1, now);
            cs != [] ==>
              |cs| == 1 && cs[0].at == now
              && Gateway.Count(w.s.rate, RateKey(UserRate(cs[0].user), Gateway.WindowStart(now, MINUTE_MS)))
                 < (if cs[0].free then 30 else 2_000)
              && HitsIn(StepEvents(w.s, env, Authorize(a), now), UserRate(cs[0].user), now / 60_000 * 60_000) >= 1
  {
    hide Gateway.Decide, HitsIn, Gateway.WindowStart, Gateway.Count, BucketEvents;
    match Gateway.Screen(w.s, a.kind, a.hash, now)
    case Rejected(_) =>
    case Passed(k, via) =>
      if k in w.s.keys && w.s.keys[k].userId in w.s.users {
        DecidedIsCounted(w.s, env, k, via, a, now);
      }
  }

  lemma DecidedIsCounted(s: State, env: Env, k: KeyId, via: bool, a: Gateway.AuthArgs, now: nat)
    requires k in s.keys && s.keys[k].userId in s.users
    ensures var r := Gateway.Decide(s, env, k, via, a, now).answer;
            var u := s.keys[k].userId;
            var cs := ChargeOf(s, a, r, now);
            cs != [] ==>
              |cs| == 1 && cs[0].at == now && cs[0].user == u
              && Gateway.Count(s.rate, RateKey(UserRate(u), Gateway.WindowStart(now, MINUTE_MS)))
                 < (if cs[0].free then 30 else 2_000)
              && HitsIn(BucketEvents(CountedBuckets(s, env, k, via, a, now), now), UserRate(u),
                        now / 60_000 * 60_000) >= 1
  {
    hide Gateway.Decide, HitsIn, Gateway.WindowStart, Gateway.Count, BucketEvents, ActivePlan, HasKeyAccess,
      Gateway.EndpointDenied, Gateway.HitAllStates, Gateway.AllAllowed, Gateway.ConsumeQuotas, Gateway.Combine;
    DecidedStatus(s, env, k, via, a, now);
    var key, r := s.keys[k], Gateway.Decide(s, env, k, via, a, now).answer;
    if ChargeOf(s, a, r, now) != [] && !(key.isSiteKey && !via) {
      var plan := ActivePlan(s.users[key.userId], now);
      var bs := Gateway.CustomerBuckets(env, k, key, a, plan);
      assert Different(bs) && bs[1] == Gateway.BucketLimit(UserRate(key.userId), MinuteLimit(plan));
      AllowedIff(s.rate, bs, now);
      HitIsCounted(bs, now, 1);
    }
  }

  // ---- Over runs -------------------------------------------------------------------------------------------

  ghost predicate Paced(w: World) {
    (forall u :: var start := w.h.clock / 60_000 * 60_000;
       ChargesIn(w.h.charges, u, start, start + 60_000) <= Gateway.Count(w.s.rate, RateKey(UserRate(u), start)))
    && (forall u, m: nat :: WithinPace(w.h.charges, u, m * 60_000))
    && (forall i :: 0 <= i < |w.h.charges| ==> w.h.charges[i].at <= w.h.clock)
  }

  predicate WithinPace(cs: seq<Charge>, u: UserId, start: nat) {
    ChargesIn(cs, u, start, start + 60_000) <= 2_000 && FreeIn(cs, u, start, start + 60_000) <= 30
  }

  /** In the minute of a step, the table counts at least the charges made so far. */
  lemma SoFar(w: World, now: nat, u: UserId)
    requires Paced(w) && w.h.clock <= now
    ensures var start := now / 60_000 * 60_000;
            ChargesIn(w.h.charges, u, start, start + 60_000) <= Gateway.Count(w.s.rate, RateKey(UserRate(u), start))
  {
    var start := now / 60_000 * 60_000;
    if w.h.clock < start {
      NoneYet(w.h.charges, u, start, start + 60_000);
    } else {
      assert w.h.clock / 60_000 == now / 60_000;
    }
  }

  /** A step leaves at least the row's hits and adds its own. */
  lemma RowAfterStep(w: World, env: Env, step: Step, now: nat, u: UserId)
    requires Enabled(w, env, step, now)
    ensures var k := RateKey(UserRate(u), now / 60_000 * 60_000);
            Gateway.Count(Next(w.s, env, step, now).rate, k)
            == Gateway.Count(w.s.rate, k) + HitsIn(StepEvents(w.s, env, step, now), UserRate(u), now / 60_000 * 60_000)
  {
    hide Next, StepEvents, HitsIn, Rows, Gateway.Count, OfPlatform;
    StepRows(w, env, step, now);
    RowCountsHits(w.s.rate, StepEvents(w.s, env, step, now), UserRate(u), now / 60_000 * 60_000);
  }

  lemma PaceAfterCharge(cs: seq<Charge>, c: Charge, count: nat, u: UserId, m: nat)
    requires WithinPace(cs, u, m * 60_000)
    requires c.user == u && m == c.at / 60_000 ==>
               ChargesIn(cs, u, m * 60_000, m * 60_000 + 60_000) <= count < (if c.free then 30 else 2_000)
    ensures WithinPace(cs + [c], u, m * 60_000)
  {
    hide ChargesIn, FreeIn;
    var start := m * 60_000;
    OneMoreCharge(cs, c, u, start, start + 60_000);
    FreeAreCharges(cs, u, start, start + 60_000);
    MinuteOf(c.at, m);
  }

  lemma MinuteOf(at: nat, m: nat)
    ensures m * 60_000 <= at < m * 60_000 + 60_000 <==> m == at / 60_000
  {
  }

  lemma PacedStep(w: World, env: Env, step: Step, now: nat)
    requires Sound(w) && Paced(w) && Enabled(w, env, step, now)
    ensures Paced(Advance(w, env, step, now))
  {
    hide Advance, Gateway.Authorize, ChargeOf, Next, StepEvents, Sound, HitsIn, Gateway.Count, WithinPace,
      Gateway.WindowStart;
    var v := Advance(w, env, step, now);
    var start := now / 60_000 * 60_000;
    QuotaLedger.ChargesAdded(w, env, step, now);
    assert w.h.clock <= now;
    hide Enabled;
    var cs := if step.Authorize?
      then ChargeOf(w.s, step.auth, Gateway.Authorize(w.s, env, step.auth, now).1, now) else [];
    if step.Authorize? {
      ChargedIsCounted(w, env, step.auth, now);
      StartOf(now);
    }
    forall u
      ensures ChargesIn(v.h.charges, u, start, start + 60_000) <= Gateway.Count(v.s.rate, RateKey(UserRate(u), start))
    {
      SoFar(w, now, u);
      assert Enabled(w, env, step, now);
      RowAfterStep(w, env, step, now, u);
      if cs != [] {
        assert cs == [cs[0]];
        OneMoreCharge(w.h.charges, cs[0], u, start, start + 60_000);
      } else {
        assert v.h.charges == w.h.charges;
      }
    }
    forall u, m: nat ensures WithinPace(v.h.charges, u, m * 60_000) {
      if cs != [] {
        assert cs == [cs[0]];
        SoFar(w, now, cs[0].user);
        PaceAfterCharge(w.h.charges, cs[0], Gateway.Count(w.s.rate, RateKey(UserRate(cs[0].user), start)), u, m);
      } else {
        assert v.h.charges == w.h.charges;
      }
    }
  }

  lemma {:induction false} PacedRun(w: World, env: Env, run: seq<Event>)
    requires Sound(w) && Paced(w) && Possible(w, env, run)
    ensures Paced(Run(w, env, run))
    decreases run
  {
    if run != [] {
      hide Sound, Paced, Enabled, Advance;
      var e := run[0];
      SoundIsKept(w, env, e.step, e.now);
      PacedStep(w, env, e.step, e.now);
      PacedRun(Advance(w, env, e.step, e.now), env, run[1..]);
    }
  }

  lemma EmptyIsPaced()
    ensures Sound(EMPTY) && Paced(EMPTY)
  {
    EmptyIsSound();
  }

  lemma AnySixtySeconds(cs: seq<Charge>, u: UserId, t: nat)
    requires forall m: nat :: WithinPace(cs, u, m * 60_000)
    ensures WithinPace(cs, u, t / 60_000 * 60_000)
    ensures ChargesIn(cs, u, t, t + 60_001) <= 4_000 && FreeIn(cs, u, t, t + 60_001) <= 60
  {
    var m := t / 60_000;
    assert WithinPace(cs, u, m * 60_000) && WithinPace(cs, u, (m + 1) * 60_000);
    TwoWindows(cs, u, t, t + 60_001, m * 60_000, (m + 1) * 60_000, (m + 2) * 60_000);
  }

  /** Over any run, an account is charged for at most 2000 requests in a minute window, over all its keys, and at
      most 30 of them on the free tier; and for at most twice as many in any sixty seconds. */
  lemma AccountsArePaced(env: Env, run: seq<Event>, u: UserId, t: nat)
    requires Possible(EMPTY, env, run)
    ensures var cs, start := Run(EMPTY, env, run).h.charges, t / 60_000 * 60_000;
            ChargesIn(cs, u, start, start + 60_000) <= 2_000 && FreeIn(cs, u, start, start + 60_000) <= 30
            && ChargesIn(cs, u, t, t + 60_001) <= 4_000 && FreeIn(cs, u, t, t + 60_001) <= 60
  {
    hide Run, Possible, ChargesIn, FreeIn, Sound;
    EmptyIsPaced();
    PacedRun(EMPTY, env, run);
    AnySixtySeconds(Run(EMPTY, env, run).h.charges, u, t);
  }
}
