/** One upstream request: retries of transient failures under a deadline, and one token renewal.
    Everything outside (answers, tokens, clock readings, jitter) is given as a script. */
module Retry {
  import opened Wrappers
  import Breaker

  datatype Error = TimedOut | Unavailable | BadResponse(code: Option<int>) | Unauthorized(tokenCode: int)

  /** What one send ends in. */
  datatype Answer =
    | ConnectTimeout
    | SlowTimeout
    | TransportError
    | NoSlot
    | TooLarge
    | Http(status: int, retryAfter: Option<real>)
    | NotJson(status: int)
    | Payload(status: int)
    | ErrorBody(status: int, code: Option<int>)

  datatype Config = Config(maxRetries: nat, timeout: real, backoffBase: real, renewable: bool)

  /** The i-th token read, the i-th answer, the clock readings, and the random part of each backoff. */
  datatype Script = Script(
    token: nat -> Result<Option<string>, Error>,
    answer: nat -> Answer,
    clock: nat -> real,
    jitter: nat -> real)

  predicate RetryableStatus(s: int) {
    s == 429 || s == 502 || s == 503 || s == 504
  }

  predicate TokenErrorCode(c: Option<int>) {
    c == Some(498) || c == Some(499)
  }

  function StatusOf(a: Answer): Option<int> {
    match a
    case Http(s, _) => Some(s)
    case NotJson(s) => Some(s)
    case Payload(s) => Some(s)
    case ErrorBody(s, _) => Some(s)
    case _ => None
  }

  /** The status alone decides when it is an error status; the body is read only otherwise. */
  predicate ErrorStatus(a: Answer) {
    StatusOf(a).Some? && StatusOf(a).value >= 400
  }

  /** Failures worth another try. */
  predicate Transient(a: Answer) {
    a.ConnectTimeout? || a.TransportError?
    || (ErrorStatus(a) && RetryableStatus(StatusOf(a).value))
    || (!ErrorStatus(a) && a.ErrorBody? && !TokenErrorCode(a.code) && a.code.Some? && a.code.value >= 500)
  }

  predicate TokenRejected(a: Answer) {
    !ErrorStatus(a) && a.ErrorBody? && TokenErrorCode(a.code)
  }

  /** What the caller gets when this is the last answer. */
  function Verdict(a: Answer): Result<(), Error> {
    if a.ConnectTimeout? || a.SlowTimeout? then Failure(TimedOut)
    else if a.TransportError? || a.NoSlot? then Failure(Unavailable)
    else if ErrorStatus(a) then
      (if RetryableStatus(StatusOf(a).value) then Failure(Unavailable) else Failure(BadResponse(None)))
    else if a.ErrorBody? then
      (if TokenErrorCode(a.code) then Failure(Unauthorized(a.code.value))
       else if a.code.None? || a.code.value < 500 then Failure(BadResponse(a.code))
       else Failure(Unavailable))
    else if a.Payload? then Success(())
    else Failure(BadResponse(None))
  }

  /** An HTTP response, with a body or not. */
  predicate Responded(a: Answer) {
    a.Http? || a.NotJson? || a.Payload? || a.ErrorBody?
  }

  predicate StatusIn(a: Answer, statuses: set<int>) {
    Responded(a) && a.status in statuses
  }

  /** An error object in an answer whose status is not an error. */
  predicate ErrorObject(a: Answer) {
    a.ErrorBody? && a.status < 400
  }

  predicate HasCode(a: Answer, code: int) {
    ErrorObject(a) && a.code == Some(code)
  }

  /** What an answer makes of the request: only a JSON object without an error is a success; what failed says why. */
  ghost predicate IsOutcome(r: Result<(), Error>, a: Answer) {
    && (r.Success? <==> a.Payload? && a.status < 400)
    && (r == Failure(TimedOut) <==> a.ConnectTimeout? || a.SlowTimeout?)
    && (r == Failure(Unavailable) <==>
          a.TransportError? || a.NoSlot? || StatusIn(a, {429, 502, 503, 504})
          || (ErrorObject(a) && a.code.Some? && a.code.value >= 500))
    && (forall code :: r == Failure(Unauthorized(code)) <==> HasCode(a, code) && (code == 498 || code == 499))
    && (forall code :: r == Failure(BadResponse(Some(code))) <==>
          HasCode(a, code) && code < 500 && code != 498 && code != 499)
    && (r == Failure(BadResponse(None)) <==>
          a.TooLarge? || (Responded(a) && a.status >= 400 && !StatusIn(a, {429, 502, 503, 504}))
          || ((a.Http? || a.NotJson?) && a.status < 400) || (ErrorObject(a) && a.code.None?))
  }

  /** What is worth another try: no connection, an overloaded service, or an error it reports as its own. */
  lemma TransientIs(a: Answer)
    ensures Transient(a) <==> a.ConnectTimeout? || a.TransportError? || StatusIn(a, {429, 502, 503, 504})
                              || (ErrorObject(a) && a.code.Some? && a.code.value >= 500)
    ensures TokenRejected(a) <==> HasCode(a, 498) || HasCode(a, 499)
  {
  }

  lemma VerdictIsOutcome(a: Answer)
    ensures IsOutcome(Verdict(a), a)
  {
  }

  function RetryAfter(a: Answer): Option<real> {
    if a.Http? && RetryableStatus(a.status) && a.retryAfter.Some? then
      Some(if a.retryAfter.value < 0.0 then 0.0 else if a.retryAfter.value > 2.0 then 2.0 else a.retryAfter.value)
    else None
  }

  function Power2(n: nat): real {
    if n == 0 then 1.0 else 2.0 * Power2(n - 1)
  }

  function Backoff(c: Config, s: Script, attempt: nat): real
    requires attempt >= 1
  {
    c.backoffBase * Power2(attempt - 1) + s.jitter(attempt)
  }

  function Delay(c: Config, s: Script, a: Answer, attempt: nat): real
    requires attempt >= 1
  {
    RetryAfter(a).GetOr(Backoff(c, s, attempt))
  }

  /** A Retry-After header is kept within two seconds; otherwise the delays double, apart from what is random. */
  lemma DelayIs(c: Config, s: Script, a: Answer, attempt: nat)
    requires attempt >= 1
    ensures RetryAfter(a).Some? ==> 0.0 <= Delay(c, s, a, attempt) <= 2.0
    ensures a.Http? && StatusIn(a, {429, 502, 503, 504}) && a.retryAfter.Some? && 0.0 <= a.retryAfter.value <= 2.0
            ==> Delay(c, s, a, attempt) == a.retryAfter.value
    ensures !a.Http? || a.retryAfter.None? ==> Delay(c, s, a, attempt) == Backoff(c, s, attempt)
    ensures Backoff(c, s, 1) == c.backoffBase + s.jitter(1)
    ensures Backoff(c, s, attempt + 1) - s.jitter(attempt + 1) == 2.0 * (Backoff(c, s, attempt) - s.jitter(attempt))
  {
    assert Power2(attempt) == 2.0 * Power2(attempt - 1);
    Doubling(c.backoffBase, Power2(attempt - 1));
  }

  lemma Doubling(base: real, p: real)
    ensures base * (2.0 * p) == 2.0 * (base * p)
  {
  }

  function Deadline(c: Config, s: Script): real {
    s.clock(0) + c.timeout * (c.maxRetries + 1) as real
  }

  /** The deadline leaves each try, the first and every retry, the time of one. */
  lemma DeadlineIs(c: Config, s: Script)
    ensures c.maxRetries == 0 ==> Deadline(c, s) == s.clock(0) + c.timeout
    ensures Deadline(c.(maxRetries := c.maxRetries + 1), s) == Deadline(c, s) + c.timeout
  {
  }

  lemma RejectedIsNotTransient(a: Answer)
    requires TokenRejected(a)
    ensures !Transient(a)
  {
  }

  /** Number of the first n answers that were transient failures. */
  function Transients(s: Script, n: nat): nat {
    if n == 0 then 0 else Transients(s, n - 1) + if Transient(s.answer(n - 1)) then 1 else 0
  }

  datatype Sleep = Sleep(from: real, delay: real)

  /** The i-th sleep, begun at the next clock reading, after the j-th answer. */
  predicate SleptAfter(c: Config, s: Script, sleep: Sleep, i: nat, j: nat) {
    Transient(s.answer(j)) && sleep == Sleep(s.clock(i + 1), Delay(c, s, s.answer(j), i + 1))
  }

  lemma Slept(c: Config, s: Script, i: nat, j: nat)
    requires Transient(s.answer(j))
    ensures SleptAfter(c, s, Sleep(s.clock(i + 1), Delay(c, s, s.answer(j), i + 1)), i, j)
  {
  }

  /** The i-th sleep follows one of the first answers, at most one more than the sleeps before it when a token was
      renewed. */
  ghost predicate HasCause(c: Config, s: Script, sleep: Sleep, i: nat, sends: nat, renewals: nat) {
    exists j: nat :: i <= j < sends && j <= i + renewals && SleptAfter(c, s, sleep, i, j)
  }

  lemma CausesExist(c: Config, s: Script, sleeps: seq<Sleep>, causes: seq<nat>, sends: nat, renewals: nat)
    requires |causes| == |sleeps|
    requires forall i :: 0 <= i < |sleeps| ==>
               i <= causes[i] < sends && causes[i] <= i + renewals && SleptAfter(c, s, sleeps[i], i, causes[i])
    ensures forall i :: 0 <= i < |sleeps| ==> HasCause(c, s, sleeps[i], i, sends, renewals)
  {
    hide SleptAfter;
  }

  method RequestWithRetries(c: Config, s: Script)
    returns (r: Result<(), Error>, noToken: bool, sends: nat, renewals: seq<Option<string>>, sleeps: seq<Sleep>)
    // Bounded work: at most max_retries + 2 sends and one renewal, and no sleep reaches the deadline.
    ensures sends <= c.maxRetries + 2 && |renewals| <= 1 && |sleeps| <= c.maxRetries
    ensures forall i :: 0 <= i < |sleeps| ==> sleeps[i].from + sleeps[i].delay < Deadline(c, s)
    // Every send but the last was a transient failure, slept after, or the one renewed token error.
    ensures forall i: nat :: i + 1 < sends ==> Transient(s.answer(i)) || TokenRejected(s.answer(i))
    ensures |sleeps| + |renewals| == (if noToken then sends else sends - 1)
    ensures |sleeps| == Transients(s, |sleeps| + |renewals|)
    // A renewal drops exactly the token that was rejected.
    ensures forall k :: 0 <= k < |renewals| ==>
              exists i: nat :: i < sends && TokenRejected(s.answer(i)) && s.token(i) == Success(renewals[k])
    // Without a token, its error is the outcome; otherwise the last answer decides it.
    ensures noToken ==> s.token(sends).Failure? && r == Failure(s.token(sends).error)
    ensures !noToken ==> sends > 0 && IsOutcome(r, s.answer(sends - 1))
    // Each sleep follows a transient failure and is as long as its answer or the backoff asks.
    ensures forall i :: 0 <= i < |sleeps| ==> HasCause(c, s, sleeps[i], i, sends, |renewals|)
    // A transient failure or a token error is final only when there is a reason not to try again.
    ensures !noToken && Transient(s.answer(sends - 1)) ==>
              |sleeps| == c.maxRetries
              || s.clock(|sleeps| + 1) + Delay(c, s, s.answer(sends - 1), |sleeps| + 1) >= Deadline(c, s)
    ensures !noToken && TokenRejected(s.answer(sends - 1)) ==> !c.renewable || |renewals| == 1
  {
    hide Transient, TokenRejected, Verdict, Delay, Deadline, IsOutcome, SleptAfter, HasCause;
    var deadline := Deadline(c, s);
    var attempt: nat := 0;
    var renewed := false;
    sends, renewals, sleeps, noToken := 0, [], [], false;
    ghost var causes: seq<nat> := [];
    while true
      invariant attempt <= c.maxRetries && |sleeps| == attempt && |renewals| == (if renewed then 1 else 0)
      invariant sends == |sleeps| + |renewals| && Transients(s, sends) == |sleeps|
      invariant forall i :: 0 <= i < |sleeps| ==> sleeps[i].from + sleeps[i].delay < deadline
      invariant |causes| == |sleeps|
      invariant forall i :: 0 <= i < |sleeps| ==>
                  i <= causes[i] < sends && causes[i] <= i + |renewals| && SleptAfter(c, s, sleeps[i], i, causes[i])
      invariant forall i: nat :: i < sends ==> Transient(s.answer(i)) || TokenRejected(s.answer(i))
      invariant forall k :: 0 <= k < |renewals| ==>
                  exists i: nat :: i < sends && TokenRejected(s.answer(i)) && s.token(i) == Success(renewals[k])
      decreases c.maxRetries + 1 - attempt + if renewed then 0 else 1
    {
      CausesExist(c, s, sleeps, causes, sends, |renewals|);
      var token := s.token(sends);
      if token.Failure? {
        return Failure(token.error), true, sends, renewals, sleeps;
      }
      var answer := s.answer(sends);
      sends := sends + 1;
      if TokenRejected(answer) && c.renewable && !renewed {
        renewed := true;
        RejectedIsNotTransient(answer);
        assert s.token(sends - 1) == Success(token.value);
        renewals := renewals + [token.value];
        continue;
      }
      VerdictIsOutcome(answer);
      CausesExist(c, s, sleeps, causes, sends, |renewals|);
      if !Transient(answer) {
        return Verdict(answer), false, sends, renewals, sleeps;
      }
      attempt := attempt + 1;
      var delay := Delay(c, s, answer, attempt);
      if attempt > c.maxRetries || s.clock(attempt) + delay >= deadline {
        return Verdict(answer), false, sends, renewals, sleeps;
      }
      Slept(c, s, attempt - 1, sends - 1);
      sleeps, causes := sleeps + [Sleep(s.clock(attempt), delay)], causes + [sends - 1];
    }
  }

  // ---- What the circuit breaker is told -------------------------------------------------------------

  /** Availability failures count against the service; any other answer proves it reachable. */
  function Report(r: Result<(), Error>, now: real): Breaker.Event {
    if r.Failure? && (r.error == Unavailable || r.error == TimedOut) then Breaker.Failure(now) else Breaker.Success(now)
  }

  /** The breaker hears of a failure exactly when the last answer was a timeout, a transport or capacity
      failure, a retryable status, or a server error reported in the body; a rejected token or query
      closes a half-open circuit. */
  lemma WhatCounts(a: Answer, now: real)
    ensures Report(Verdict(a), now).Failure? <==> Transient(a) || a.SlowTimeout? || a.NoSlot?
    ensures TokenRejected(a) ==> Report(Verdict(a), now).Success?
  {
  }
}
