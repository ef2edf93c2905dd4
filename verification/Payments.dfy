/** Checkout rows and settlement: the payment row is the gate through which plan time is granted. */
module Payments {
  import opened Wrappers
  import opened Tables
  import opened Plans

  datatype PaymentLookup = NoPayment | OnePayment(id: PaymentId) | ManyPayments

  function PaymentsFor(payments: map<PaymentId, Payment>, intent: string): set<PaymentId> {
    set p | p in payments && payments[p].intent == intent
  }

  ghost function FindPayment(payments: map<PaymentId, Payment>, intent: string): (r: PaymentLookup)
    ensures r.OnePayment? ==> r.id in payments && payments[r.id].intent == intent
  {
    var ps := PaymentsFor(payments, intent);
    if ps == {} then NoPayment else
    var p :| p in ps;
    if ps == {p} then OnePayment(p) else ManyPayments
  }

  datatype Recorded = Recorded(id: PaymentId) | Conflict

  /** Registers a checkout once; a repeat delivery of the same checkout returns the existing row. */
  ghost function RecordPending(s: State, newId: PaymentId, user: UserId, plan: PaidPlan, intent: string,
                               now: nat): (State, Recorded) {
    match FindPayment(s.payments, intent)
    case ManyPayments => (s, Conflict)
    case OnePayment(p) =>
      (s, if s.payments[p].userId != user || s.payments[p].plan != plan then Conflict else Recorded(p))
    case NoPayment =>
      (s.(payments := s.payments[newId := Payment(user, plan, intent, PLAN_WIRE_AMOUNT, "MNT", Pending, now, None)]),
        Recorded(newId))
  }

  datatype Outcome = WireSucceeded | WireFailed

  /** Where newly bought plan time starts: after the time already bought, or now. */
  function GrantStart(u: User, now: nat): nat {
    if ActivePlan(u, now).Some? then u.planExpiresAt.value else now
  }

  function Grant(u: User, plan: PaidPlan, now: nat): User {
    u.(plan := Some(plan), planExpiresAt := Some(GrantStart(u, now) + PLAN_DURATION_MS))
  }

  ghost predicate Settles(s: State, intent: string, amount: int, currency: string) {
    match FindPayment(s.payments, intent)
    case OnePayment(p) =>
      s.payments[p].status == Pending && amount == s.payments[p].amountMinor && currency == s.payments[p].currency
    case _ => false
  }

  ghost function Settle(s: State, intent: string, outcome: Outcome, amount: int, currency: string,
                        now: nat): (State, bool) {
    match FindPayment(s.payments, intent)
    case NoPayment => (s, false)
    case ManyPayments => (s, false)
    case OnePayment(p) =>
      var pay := s.payments[p];
      if pay.status != Pending then (s, false)
      else if amount != pay.amountMinor || currency != pay.currency then (s, false)
      else if outcome == WireFailed then (s.(payments := s.payments[p := pay.(status := Failed)]), true)
      else if pay.userId !in s.users then (s, false)
      else (s.(users := s.users[pay.userId := Grant(s.users[pay.userId], pay.plan, now)],
               payments := s.payments[p := pay.(status := Succeeded, paidAt := Some(now))]), true)
  }

  datatype WireIntent = WireIntent(id: string, status: string, amount: int, currency: string)

  /** What a webhook, a refresh or the reconcile loop does with the provider's current view of an intent. */
  ghost function CheckIntent(s: State, intent: string, w: WireIntent, now: nat): State {
    if w.id != intent then s
    else if w.status == "succeeded" then Settle(s, intent, WireSucceeded, w.amount, w.currency, now).0
    else if w.status in ["failed", "canceled", "expired"]
      then Settle(s, intent, WireFailed, w.amount, w.currency, now).0
    else s
  }

  function ActivateFreeTier(s: State, user: UserId, now: nat): State {
    if user !in s.users || s.users[user].isSystem || s.users[user].disabledAt.Some? then s
    else if s.users[user].freeTierActivatedAt.Some? then s
    else s.(users := s.users[user := s.users[user].(freeTierActivatedAt := Some(now), freeRequestsUsed := Some(0))])
  }
}
