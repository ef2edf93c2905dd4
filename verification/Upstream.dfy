/** A whole upstream request: admission by the circuit breaker, the retries, and the report back. Requests of different
    callers interleave at their awaits. */
module Upstream {
  import opened Wrappers
  import opened Breaker
  import Retry

  /** What a request that nobody interrupts does to the breaker. */
  method Request(b: CircuitBreaker, c: Retry.Config, s: Retry.Script, begin: real, end: real)
    returns (r: Result<(), Retry.Error>, admitted: bool, ghost noToken: bool, ghost sends: nat)
    modifies b
    ensures admitted == Admitted(old(b.State()), Enter(begin))
    ensures !admitted ==> r == Result.Failure(Retry.Unavailable)
    ensures admitted && noToken ==> s.token(sends).Failure? && r == Result.Failure(s.token(sends).error)
    ensures admitted && !noToken ==> sends > 0 && Retry.IsOutcome(r, s.answer(sends - 1))
    ensures b.State() == Run(old(b.State()), b.config,
                             if admitted then [Enter(begin), Retry.Report(r, end)] else [Enter(begin)])
  {
    ghost var start := b.State();
    admitted := b.Enter(begin);
    OneStep(start, b.config, Enter(begin));
    if !admitted {
      return Result.Failure(Retry.Unavailable), false, false, 0;
    }
    var without, n, renewals, sleeps;
    r, without, n, renewals, sleeps := Retry.RequestWithRetries(c, s);
    noToken, sends := without, n;
    if r.Failure? && (r.error == Retry.Unavailable || r.error == Retry.TimedOut) {
      b.Fail(end);
    } else {
      b.Succeed();
    }
    TwoSteps(start, b.config, Enter(begin), Retry.Report(r, end));
  }

  lemma OneStep(b: Breaker, c: Config, e: Event)
    ensures Run(b, c, [e]) == Step(b, c, e)
  {
    hide Step;
    assert [e][1..] == [];
  }

  lemma TwoSteps(b: Breaker, c: Config, e: Event, f: Event)
    ensures Run(b, c, [e, f]) == Step(Step(b, c, e), c, f)
  {
    hide Step;
    assert [e, f][1..] == [f];
    OneStep(Step(b, c, e), c, f);
  }

  // ---- Requests at once --------------------------------------------------------------------------------

  /** A request asks to be let in, and, if it was, ends with a result. */
  datatype Act = Begin(id: nat, now: real) | End(id: nat, r: Result<(), Retry.Error>, now: real)

  datatype Pool = Pool(b: Breaker, running: set<nat>)

  const IDLE := Pool(INITIAL, {})

  function EventOf(a: Act): Event {
    match a
    case Begin(_, now) => Enter(now)
    case End(_, r, now) => Retry.Report(r, now)
  }

  /** Requests have numbers of their own, and end when they are running. */
  predicate CanHappen(p: Pool, a: Act) {
    if a.Begin? then a.id !in p.running else a.id in p.running
  }

  function After(p: Pool, c: Config, a: Act): Pool {
    Pool(Step(p.b, c, EventOf(a)),
         if a.End? then p.running - {a.id} else if Admitted(p.b, EventOf(a)) then p.running + {a.id} else p.running)
  }

  predicate CanRun(p: Pool, c: Config, acts: seq<Act>)
    decreases acts
  {
    acts == [] || (CanHappen(p, acts[0]) && CanRun(After(p, c, acts[0]), c, acts[1..]))
  }

  function PoolAfter(p: Pool, c: Config, acts: seq<Act>): Pool
    decreases acts
  {
    if acts == [] then p else PoolAfter(After(p, c, acts[0]), c, acts[1..])
  }

  function Events(acts: seq<Act>): (es: seq<Event>)
    ensures |es| == |acts| && forall i :: 0 <= i < |es| ==> es[i] == EventOf(acts[i])
  {
    seq(|acts|, i requires 0 <= i < |acts| => EventOf(acts[i]))
  }

  /** However requests interleave, every end the breaker hears of belongs to an admitted request, and as many are in
      flight as are running. */
  lemma {:induction false} RequestsAreMatched(p: Pool, c: Config, acts: seq<Act>)
    requires CanRun(p, c, acts)
    ensures var t, es := PoolAfter(p, c, acts), Events(acts);
            Matched(p.b, c, |p.running|, es) && t.b == Run(p.b, c, es)
            && InFlight(p.b, c, |p.running|, es) == |t.running|
    decreases acts
  {
    if acts != [] {
      var a := acts[0];
      hide Step;
      assert Events(acts)[1..] == Events(acts[1..]);
      assert |After(p, c, a).running| == NowInFlight(p.b, |p.running|, EventOf(a));
      RequestsAreMatched(After(p, c, a), c, acts[1..]);
    }
  }

  /** So whatever the requests end in: when none is running, one made after the recovery time is let in; the circuit
      is half-open only while one is running; and it is closed exactly while fewer than the threshold have failed
      since the last success. */
  lemma NobodyIsLockedOut(c: Config, acts: seq<Act>, now: real)
    requires GoodConfig(c) && CanRun(IDLE, c, acts)
    ensures var p := PoolAfter(IDLE, c, acts);
            (p.running == {} && p.b.openUntil <= now ==> Admitted(p.b, Enter(now)))
            && (p.b.mode == HalfOpen ==> p.running != {})
            && (p.b.mode == Closed <==> FailuresSince(0, Events(acts)) < c.threshold)
  {
    hide CanRun, PoolAfter, Run, Matched, InFlight, FailuresSince;
    RequestsAreMatched(IDLE, c, acts);
    ModesMeanWhatTheySay(c, Events(acts));
    GoodRun(INITIAL, c, 0, Events(acts));
    if PoolAfter(IDLE, c, acts).running == {} && PoolAfter(IDLE, c, acts).b.openUntil <= now {
      NeverWedged(c, Events(acts), now);
    }
  }
}
