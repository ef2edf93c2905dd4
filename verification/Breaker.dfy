/** The circuit breaker shared by all upstream requests. Its three critical sections run under one
    lock, so any interleaving of requests is a list of them in some order. */
module Breaker {
  import opened Wrappers

  datatype Mode = Closed | Open | HalfOpen

  datatype Breaker = Breaker(mode: Mode, failures: nat, openUntil: real, probe: bool)

  datatype Config = Config(threshold: int, recovery: real)

  /** What the settings allow. */
  predicate GoodConfig(c: Config) {
    c.threshold >= 1 && c.recovery > 0.0
  }

  const INITIAL := Breaker(Closed, 0, 0.0, false)

  function Entered(b: Breaker, now: real): (Breaker, bool) {
    if b.mode == Open && now < b.openUntil then (b, false) else
    var mode := if b.mode == Open then HalfOpen else b.mode;
    if mode == HalfOpen && b.probe then (b.(mode := mode), false)
    else (b.(mode := mode, probe := b.probe || mode == HalfOpen), true)
  }

  function Succeeded(b: Breaker): Breaker {
    b.(mode := Closed, failures := 0, probe := false)
  }

  function Failed(b: Breaker, c: Config, now: real): Breaker {
    var failures := b.failures + 1;
    if b.mode == HalfOpen || failures >= c.threshold then Breaker(Open, failures, now + c.recovery, false)
    else b.(failures := failures, probe := false)
  }

  class CircuitBreaker {
    const config: Config
    var mode: Mode
    var failures: nat
    var openUntil: real
    var probe: bool

    ghost function State(): Breaker
      reads this
    {
      Breaker(mode, failures, openUntil, probe)
    }

    constructor (config: Config)
      ensures this.config == config && State() == INITIAL
    {
      this.config := config;
      mode, failures, openUntil, probe := Closed, 0, 0.0, false;
    }

    /** True when the request may go ahead. */
    method Enter(now: real) returns (admitted: bool)
      modifies this
      ensures (State(), admitted) == Entered(old(State()), now)
    {
      if mode == Open {
        if now < openUntil {
          return false;
        }
        mode := HalfOpen;
      }
      if mode == HalfOpen {
        if probe {
          return false;
        }
        probe := true;
      }
      admitted := true;
    }

    method Succeed()
      modifies this
      ensures State() == Succeeded(old(State()))
    {
      mode := Closed;
      failures := 0;
      probe := false;
    }

    method Fail(now: real)
      modifies this
      ensures State() == Failed(old(State()), config, now)
    {
      probe := false;
      failures := failures + 1;
      if mode == HalfOpen || failures >= config.threshold {
        mode := Open;
        openUntil := now + config.recovery;
      }
    }
  }

  // ---- Runs ---------------------------------------------------------------------------------------

  datatype Event = Enter(now: real) | Success(now: real) | Failure(now: real)

  function Step(b: Breaker, c: Config, e: Event): Breaker {
    match e
    case Enter(now) => Entered(b, now).0
    case Success(_) => Succeeded(b)
    case Failure(now) => Failed(b, c, now)
  }

  predicate Admitted(b: Breaker, e: Event) {
    e.Enter? && Entered(b, e.now).1
  }

  function Run(b: Breaker, c: Config, es: seq<Event>): Breaker
    decreases es
  {
    if es == [] then b else Run(Step(b, c, es[0]), c, es[1..])
  }

  predicate Timed(es: seq<Event>, clock: real)
    decreases es
  {
    es == [] || (clock <= es[0].now && Timed(es[1..], es[0].now))
  }

  /** Failures since the last success, counted from `n`. */
  function FailuresSince(n: nat, es: seq<Event>): nat
    decreases es
  {
    if es == [] then n
    else FailuresSince(if es[0].Success? then 0 else if es[0].Failure? then n + 1 else n, es[1..])
  }

  /** How many requests are under way after an event, when n were before. */
  function NowInFlight(b: Breaker, n: int, e: Event): int {
    if Admitted(b, e) then n + 1 else if e.Enter? then n else n - 1
  }

  /** Admitted requests that have not ended yet, counted from n. Negative if more end than began. */
  function InFlight(b: Breaker, c: Config, n: int, es: seq<Event>): int
    decreases es
  {
    if es == [] then n
    else InFlight(Step(b, c, es[0]), c, NowInFlight(b, n, es[0]), es[1..])
  }

  /** Every end belongs to an admitted request. */
  predicate Matched(b: Breaker, c: Config, n: int, es: seq<Event>)
    decreases es
  {
    n >= 0 && (es == [] || Matched(Step(b, c, es[0]), c, NowInFlight(b, n, es[0]), es[1..]))
  }

  // ---- What holds in every reachable state ----------------------------------------------------------

  predicate Good(b: Breaker, c: Config, inFlight: int) {
    && (b.mode == HalfOpen <==> b.probe)
    && (b.mode == Closed <==> b.failures < c.threshold)
    && (b.mode == HalfOpen ==> inFlight >= 1)
  }

  lemma {:induction false} GoodRun(b: Breaker, c: Config, n: int, es: seq<Event>)
    requires GoodConfig(c) && Good(b, c, n) && Matched(b, c, n, es)
    ensures var t := Run(b, c, es);
            Good(t, c, InFlight(b, c, n, es)) && t.failures == FailuresSince(b.failures, es)
    decreases es
  {
    if es != [] {
      GoodRun(Step(b, c, es[0]), c, NowInFlight(b, n, es[0]), es[1..]);
    }
  }

  /** For any interleaving: half-open exactly while a probe is out, closed exactly while the failures
      since the last success are below the threshold. */
  lemma ModesMeanWhatTheySay(c: Config, es: seq<Event>)
    requires GoodConfig(c) && Matched(INITIAL, c, 0, es)
    ensures var b := Run(INITIAL, c, es);
            (b.mode == HalfOpen <==> b.probe) && (b.mode == Closed <==> FailuresSince(0, es) < c.threshold)
  {
    GoodRun(INITIAL, c, 0, es);
  }

  /** The breaker cannot wedge: once every admitted request has ended, a request made after the
      recovery time is admitted. */
  lemma NeverWedged(c: Config, es: seq<Event>, now: real)
    requires GoodConfig(c) && Matched(INITIAL, c, 0, es) && InFlight(INITIAL, c, 0, es) == 0
    requires Run(INITIAL, c, es).openUntil <= now
    ensures Entered(Run(INITIAL, c, es), now).1
  {
    GoodRun(INITIAL, c, 0, es);
  }

  // ---- Probing a failing service ----------------------------------------------------------------------

  /** Times of the admitted requests of a run, in order. */
  function Admissions(b: Breaker, c: Config, es: seq<Event>): seq<real>
    decreases es
  {
    if es == [] then [] else
    (if Admitted(b, es[0]) then [es[0].now] else []) + Admissions(Step(b, c, es[0]), c, es[1..])
  }

  predicate NoSuccess(es: seq<Event>) {
    forall i :: 0 <= i < |es| ==> !es[i].Success?
  }

  /** No request is admitted before this time while nothing succeeds: when a probe is out, the next one
      waits for the probe's end and a whole recovery time after it. */
  function Earliest(b: Breaker, c: Config, clock: real): real {
    if b.mode == Open then b.openUntil else clock + c.recovery
  }

  predicate Tripped(b: Breaker, c: Config, clock: real) {
    b.mode != Closed && (b.mode == HalfOpen <==> b.probe) && b.failures >= c.threshold
    && (b.mode == Open ==> b.openUntil <= clock + c.recovery)
  }

  /** A step without success keeps a tripped breaker tripped, never brings the next admission forward,
      and an admission puts the next one a recovery time away. */
  lemma TrippedStep(b: Breaker, c: Config, e: Event, clock: real)
    requires GoodConfig(c) && Tripped(b, c, clock) && !e.Success? && clock <= e.now
    ensures Tripped(Step(b, c, e), c, e.now)
    ensures Earliest(Step(b, c, e), c, e.now) >= Earliest(b, c, clock)
    ensures Admitted(b, e) ==> e.now >= Earliest(b, c, clock) && Earliest(Step(b, c, e), c, e.now) >= e.now + c.recovery
  {
  }

  /** In a success-free stretch from a tripped breaker, admissions are at least the recovery time apart. */
  lemma {:induction false} AdmissionsAreSpaced(b: Breaker, c: Config, es: seq<Event>, clock: real)
    requires GoodConfig(c) && Tripped(b, c, clock) && NoSuccess(es) && Timed(es, clock)
    ensures var ts := Admissions(b, c, es);
            (ts != [] ==> ts[0] >= Earliest(b, c, clock))
            && forall i :: 0 <= i < |ts| - 1 ==> ts[i] + c.recovery <= ts[i + 1]
    decreases es
  {
    if es != [] {
      var b' := Step(b, c, es[0]);
      TrippedStep(b, c, es[0], clock);
      assert forall i :: 0 <= i < |es[1..]| ==> es[1..][i] == es[i + 1];
      AdmissionsAreSpaced(b', c, es[1..], es[0].now);
      var rest := Admissions(b', c, es[1..]);
      hide Step, Earliest, Tripped;
      if Admitted(b, es[0]) {
        var ts := [es[0].now] + rest;
        assert ts == Admissions(b, c, es);
        forall i | 0 <= i < |ts| - 1 ensures ts[i] + c.recovery <= ts[i + 1] {
          assert ts[i + 1] == rest[i];
          if i > 0 {
            assert ts[i] == rest[i - 1];
          }
        }
      } else {
        assert rest == Admissions(b, c, es);
      }
    }
  }

  lemma {:induction false} SpacedApart(ts: seq<real>, gap: real, i: nat, j: nat)
    requires i <= j < |ts| && forall k :: 0 <= k < |ts| - 1 ==> ts[k] + gap <= ts[k + 1]
    ensures (j - i) as real * gap <= ts[j] - ts[i]
    decreases j - i
  {
    if i < j {
      SpacedApart(ts, gap, i, j - 1);
      assert (j - i) as real * gap == (j - 1 - i) as real * gap + gap;
    }
  }

  lemma FitsInto(n: nat, gap: real, len: real)
    requires gap > 0.0 && n as real * gap <= len
    ensures n <= (len / gap).Floor
  {
    assert n as real <= len / gap;
  }

  lemma {:induction false} TrippedInRun(b: Breaker, c: Config, n: int, es: seq<Event>, clock: real)
    requires GoodConfig(c) && Good(b, c, n) && Matched(b, c, n, es) && Timed(es, clock)
    requires b.mode == Open ==> b.openUntil <= clock + c.recovery
    ensures var t := Run(b, c, es);
            t.mode != Closed ==> Tripped(t, c, EndTime(es, clock))
    decreases es
  {
    if es != [] {
      TrippedInRun(Step(b, c, es[0]), c, NowInFlight(b, n, es[0]), es[1..], es[0].now);
    }
  }

  function EndTime(es: seq<Event>, clock: real): real
    decreases es
  {
    if es == [] then clock else EndTime(es[1..], es[0].now)
  }

  /** Whatever happened before, once the circuit is not closed and nothing succeeds, any T seconds see
      at most floor(T / recovery) + 1 requests admitted. */
  lemma ProbesAreRare(c: Config, before: seq<Event>, stretch: seq<Event>, i: nat, j: nat, len: real)
    requires GoodConfig(c) && Matched(INITIAL, c, 0, before) && Timed(before, 0.0)
    requires Run(INITIAL, c, before).mode != Closed
    requires NoSuccess(stretch) && Timed(stretch, EndTime(before, 0.0))
    ensures var ts := Admissions(Run(INITIAL, c, before), c, stretch);
            (forall k :: 0 <= k < |ts| - 1 ==> ts[k] + c.recovery <= ts[k + 1])
            && (i <= j < |ts| && ts[j] - ts[i] <= len ==> j - i + 1 <= (len / c.recovery).Floor + 1)
  {
    hide Matched, Timed, NoSuccess, Tripped, Run, Admissions, Earliest;
    TrippedInRun(INITIAL, c, 0, before, 0.0);
    var b := Run(INITIAL, c, before);
    AdmissionsAreSpaced(b, c, stretch, EndTime(before, 0.0));
    FewFit(Admissions(b, c, stretch), c.recovery, i, j, len);
  }

  lemma FewFit(ts: seq<real>, gap: real, i: nat, j: nat, len: real)
    requires gap > 0.0 && forall k :: 0 <= k < |ts| - 1 ==> ts[k] + gap <= ts[k + 1]
    ensures i <= j < |ts| && ts[j] - ts[i] <= len ==> j - i + 1 <= (len / gap).Floor + 1
  {
    if i <= j < |ts| && ts[j] - ts[i] <= len {
      SpacedApart(ts, gap, i, j);
      FitsInto(j - i, gap, len);
    }
  }
}
