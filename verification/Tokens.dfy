/** The shared token cache. Reads outside the lock, and the locked sections that generate or drop a
    token, interleave freely; a locked section takes effect at its end. */
module Tokens {
  import opened Wrappers

  const RENEW_MARGIN_SECONDS: real := 300.0
  const FAILURE_BACKOFF_SECONDS: real := 5.0

  datatype Error = Refused | Unreachable

  /** A token and the time it expires. */
  datatype Issued = Issued(token: string, expiresAt: real)

  /** `current` keeps the expiry beside the token so that it can be spoken of; the source keeps only
      the renewal time. */
  datatype Provider = Provider(current: Option<Issued>, renewAt: real, failedUntil: real, lastFailure: Option<Error>)

  const INITIAL := Provider(None, 0.0, 0.0, None)

  /** When a token obtained at `now` is renewed: five minutes early, at most a fifth of its lifetime. */
  function RenewTime(now: real, expiresAt: real): real {
    var lifetime := if expiresAt > now then expiresAt - now else 0.0;
    expiresAt - if RENEW_MARGIN_SECONDS < lifetime / 5.0 then RENEW_MARGIN_SECONDS else lifetime / 5.0
  }

  /** The cached token, when it is still good. */
  function Cached(p: Provider, now: real): Option<string> {
    if p.current.Some? && now < p.renewAt then Some(p.current.value.token) else None
  }

  /** A locked section asks the token service only without a good token and outside the backoff. */
  predicate Asks(p: Provider, now: real) {
    Cached(p, now).None? && (p.lastFailure.None? || p.failedUntil <= now)
  }

  function Locked(p: Provider, now: real, answer: Result<Issued, Error>,
                  after: real): (Provider, Result<string, Error>) {
    if Cached(p, now).Some? then (p, Success(Cached(p, now).value))
    else if !Asks(p, now) then (p, Failure(p.lastFailure.value))
    else match answer
      case Failure(e) => (p.(lastFailure := Some(e), failedUntil := after + FAILURE_BACKOFF_SECONDS), Failure(e))
      case Success(t) => (p.(current := Some(t), renewAt := RenewTime(now, t.expiresAt), lastFailure := None),
        Success(t.token))
  }

  function Invalidated(p: Provider, rejected: Option<string>): Provider {
    if rejected.None? || (p.current.Some? && rejected.value == p.current.value.token)
    then p.(current := None, renewAt := 0.0) else p
  }

  class TokenProvider {
    var current: Option<Issued>
    var renewAt: real
    var failedUntil: real
    var lastFailure: Option<Error>

    ghost function State(): Provider
      reads this
    {
      Provider(current, renewAt, failedUntil, lastFailure)
    }

    constructor ()
      ensures State() == INITIAL
    {
      current, renewAt, failedUntil, lastFailure := None, 0.0, 0.0, None;
    }

    /** The read before taking the lock. */
    method Peek(now: real) returns (r: Option<string>)
      ensures r == Cached(State(), now)
    {
      r := if current.Some? && now < renewAt then Some(current.value.token) else None;
    }

    /** The section under the lock; `answer` is what the token service would say, `after` the time then. */
    method Token(now: real, answer: Result<Issued, Error>, after: real) returns (r: Result<string, Error>)
      modifies this
      ensures (State(), r) == Locked(old(State()), now, answer, after)
    {
      if current.Some? && now < renewAt {
        return Success(current.value.token);
      }
      if lastFailure.Some? && now < failedUntil {
        return Failure(lastFailure.value);
      }
      if answer.Failure? {
        lastFailure := Some(answer.error);
        failedUntil := after + FAILURE_BACKOFF_SECONDS;
        return Failure(answer.error);
      }
      var expiresAt := answer.value.expiresAt;
      var lifetime := if expiresAt > now then expiresAt - now else 0.0;
      current := Some(answer.value);
      renewAt := expiresAt - (if RENEW_MARGIN_SECONDS < lifetime / 5.0 then RENEW_MARGIN_SECONDS else lifetime / 5.0);
      lastFailure := None;
      r := Success(answer.value.token);
    }

    method Invalidate(rejected: Option<string>)
      modifies this
      ensures State() == Invalidated(old(State()), rejected)
    {
      if rejected.None? || (current.Some? && rejected.value == current.value.token) {
        current := None;
        renewAt := 0.0;
      }
    }
  }

  // ---- Runs -------------------------------------------------------------------------------------------

  datatype Event =
    | Peek(now: real)
    | Token(now: real, answer: Result<Issued, Error>, after: real)
    | Invalidate(rejected: Option<string>)

  function Step(p: Provider, e: Event): Provider {
    match e
    case Peek(_) => p
    case Token(now, answer, after) => Locked(p, now, answer, after).0
    case Invalidate(rejected) => Invalidated(p, rejected)
  }

  function Run(p: Provider, es: seq<Event>): Provider
    decreases es
  {
    if es == [] then p else Run(Step(p, es[0]), es[1..])
  }

  /** The event asks the token service. */
  predicate Attempt(p: Provider, e: Event) {
    e.Token? && Asks(p, e.now)
  }

  function Attempts(p: Provider, es: seq<Event>): nat
    decreases es
  {
    if es == [] then 0 else (if Attempt(p, es[0]) then 1 else 0) + Attempts(Step(p, es[0]), es[1..])
  }

  /** Number of new tokens issued in a run. */
  function NewTokens(p: Provider, es: seq<Event>): nat
    decreases es
  {
    if es == [] then 0
    else (if Attempt(p, es[0]) && es[0].answer.Success? then 1 else 0) + NewTokens(Step(p, es[0]), es[1..])
  }

  // ---- What the cache promises -------------------------------------------------------------------------

  /** A token is renewed before it expires, at most five minutes early, and is reused for at least four
      fifths of its lifetime however short that is. */
  lemma RenewalMargin(now: real, expiresAt: real)
    requires now < expiresAt
    ensures now < RenewTime(now, expiresAt) < expiresAt
    ensures RenewTime(now, expiresAt) >= expiresAt - 300.0
    ensures RenewTime(now, expiresAt) - now >= (expiresAt - now) * 4.0 / 5.0
  {
  }

  /** Of a lifetime of 25 minutes or more the last five are left, of a shorter one the last fifth, and of none
      nothing. */
  lemma RenewalIs(now: real, expiresAt: real)
    ensures expiresAt >= now + 1500.0 ==> RenewTime(now, expiresAt) == expiresAt - 300.0
    ensures now < expiresAt < now + 1500.0 ==> RenewTime(now, expiresAt) == now + (expiresAt - now) * 4.0 / 5.0
    ensures expiresAt <= now ==> RenewTime(now, expiresAt) == expiresAt
  {
  }

  predicate Fresh(p: Provider) {
    p.current.Some? ==> p.renewAt <= p.current.value.expiresAt
  }

  lemma {:induction false} FreshRun(p: Provider, es: seq<Event>)
    requires Fresh(p)
    ensures Fresh(Run(p, es))
    decreases es
  {
    if es != [] {
      FreshRun(Step(p, es[0]), es[1..]);
    }
  }

  /** After any interleaving, a token handed out of the cache, with or without the lock, has not
      expired, and is the one last issued. */
  lemma CachedIsUnexpired(es: seq<Event>, now: real)
    ensures var p := Run(INITIAL, es);
            Cached(p, now).Some? ==>
              p.current.Some? && Cached(p, now) == Some(p.current.value.token) && now < p.current.value.expiresAt
  {
    FreshRun(INITIAL, es);
  }

  /** The event neither rejects the current token nor comes once it is due. */
  predicate Harmless(e: Event, token: string, due: real) {
    match e
    case Peek(now) => now < due
    case Token(now, _, _) => now < due
    case Invalidate(rejected) => rejected.Some? && rejected.value != token
  }

  /** Rejections of older tokens never drop a newer one, and while it is neither rejected nor due no
      request asks for another. */
  lemma {:induction false} NewerTokenStays(p: Provider, es: seq<Event>)
    requires p.current.Some?
    requires forall i :: 0 <= i < |es| ==> Harmless(es[i], p.current.value.token, p.renewAt)
    ensures Run(p, es) == p && Attempts(p, es) == 0 && NewTokens(p, es) == 0
    decreases es
  {
    if es != [] {
      assert Step(p, es[0]) == p;
      assert forall i :: 0 <= i < |es[1..]| ==> es[1..][i] == es[i + 1];
      NewerTokenStays(p, es[1..]);
    }
  }

  /** What N requests rejected with `token` do: read, drop that token, and take the lock, in any order.
      Tokens issued meanwhile are different, and nothing happens once one of them is due. */
  predicate RejectedWith(es: seq<Event>, token: string) {
    && (forall i :: 0 <= i < |es| && es[i].Invalidate? ==> es[i].rejected == Some(token))
    && (forall i :: 0 <= i < |es| && es[i].Token? && es[i].answer.Success? ==>
          es[i].answer.value.token != token
          && forall j :: i < j < |es| ==>
             Harmless(es[j], es[i].answer.value.token, RenewTime(es[i].now, es[i].answer.value.expiresAt)))
  }

  /** However many requests are rejected with the same token, at most one new token is issued. */
  lemma {:induction false} OneRenewalForAll(p: Provider, es: seq<Event>, token: string)
    requires RejectedWith(es, token)
    ensures NewTokens(p, es) <= 1
    decreases es
  {
    if es != [] {
      var q := Step(p, es[0]);
      assert forall i :: 0 <= i < |es[1..]| ==> es[1..][i] == es[i + 1];
      if Attempt(p, es[0]) && es[0].answer.Success? {
        NewerTokenStays(q, es[1..]);
      } else {
        OneRenewalForAll(q, es[1..], token);
      }
    }
  }

  /** After a failure nobody asks the token service again until the backoff is over. */
  lemma {:induction false} NoStampede(p: Provider, es: seq<Event>)
    requires p.lastFailure.Some?
    requires forall i :: 0 <= i < |es| && es[i].Token? ==> es[i].now < p.failedUntil
    ensures Attempts(p, es) == 0
    decreases es
  {
    if es != [] {
      var q := Step(p, es[0]);
      assert q.lastFailure == p.lastFailure && q.failedUntil == p.failedUntil;
      assert forall i :: 0 <= i < |es[1..]| ==> es[1..][i] == es[i + 1];
      NoStampede(q, es[1..]);
    }
  }

  /** Stated for a failed attempt: the next one is at least the backoff after its end. */
  lemma FailureIsShared(p: Provider, e: Event, es: seq<Event>)
    requires Attempt(p, e) && e.answer.Failure?
    requires forall i :: 0 <= i < |es| && es[i].Token? ==> es[i].now < e.after + 5.0
    ensures Attempts(Step(p, e), es) == 0
    ensures forall now: real, answer, after | e.after <= now < e.after + 5.0 && Cached(Step(p, e), now).None? ::
              Locked(Step(p, e), now, answer, after).1 == Failure(e.answer.error)
  {
    NoStampede(Step(p, e), es);
  }

  // ---- What callers are given --------------------------------------------------------------------------

  /** An attempt gives its caller what the service answered; a token just issued is what everyone is given until it is
      due, and a failure takes nothing away. */
  lemma AttemptHandsOut(p: Provider, e: Event, now: real)
    requires Attempt(p, e)
    ensures var (q, r) := Locked(p, e.now, e.answer, e.after);
            match e.answer
            case Success(t) =>
              r == Success(t.token) && (Cached(q, now) == Some(t.token) <==> now < RenewTime(e.now, t.expiresAt))
            case Failure(error) => r == Failure(error) && q.current == p.current && Cached(q, now) == Cached(p, now)
  {
  }

  /** Without a good token and outside the backoff, the next locked section asks. */
  lemma NextOneAsks(p: Provider, e: Event)
    requires e.Token? && (p.current.None? || p.renewAt <= e.now) && (p.lastFailure.None? || p.failedUntil <= e.now)
    ensures Attempt(p, e)
  {
  }

  /** Five seconds after a failed attempt has ended the service is asked again. */
  lemma BackoffEnds(p: Provider, e: Event, next: Event)
    requires Attempt(p, e) && e.answer.Failure? && next.Token? && next.now >= e.after + 5.0
    ensures Cached(Step(p, e), next.now).None? ==> Attempt(Step(p, e), next)
  {
  }

  /** A success ends the backoff: when its token is due, another is asked for. */
  lemma SuccessEndsBackoff(p: Provider, e: Event, next: Event)
    requires Attempt(p, e) && e.answer.Success? && next.Token?
    ensures Attempt(Step(p, e), next) <==> next.now >= RenewTime(e.now, e.answer.value.expiresAt)
  {
  }

  /** Once the current token is rejected, or any is, nobody is given it out of the cache again, until another is
      issued. */
  lemma {:induction false} RejectedIsDropped(p: Provider, rejected: Option<string>, es: seq<Event>, now: real)
    requires rejected.None? || (p.current.Some? && p.current.value.token == rejected.value)
    requires NewTokens(Invalidated(p, rejected), es) == 0
    ensures Run(Invalidated(p, rejected), es).current.None? && Cached(Run(Invalidated(p, rejected), es), now).None?
  {
    NoneIssued(Invalidated(p, rejected), es);
  }

  lemma {:induction false} NoneIssued(p: Provider, es: seq<Event>)
    requires p.current.None? && NewTokens(p, es) == 0
    ensures Run(p, es).current.None?
    decreases es
  {
    if es != [] {
      NoneIssued(Step(p, es[0]), es[1..]);
    }
  }
}
