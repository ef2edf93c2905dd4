/** Plan time: under any duplication and interleaving of deliveries, each succeeded payment buys one
    30-day interval, the intervals of an account are disjoint, and they alone decide its plan. */
module PaymentLedger {
  import opened Wrappers
  import opened Tables
  import opened Plans
  import opened Machine
  import Payments
  import Gateway
  import Keys
  import Usage

  /** The account's most recent grant. */
  function LastGrant(gs: seq<Granted>, u: UserId): Option<Granted> {
    if gs == [] then None
    else if gs[|gs| - 1].user == u then Some(gs[|gs| - 1])
    else LastGrant(gs[..|gs| - 1], u)
  }

  /** A grant starts where the account's bought time ends, or at once if that has passed. */
  predicate Follows(before: seq<Granted>, g: Granted) {
    var last := LastGrant(before, g.user);
    g.from == (if last.Some? && last.value.to > g.at then last.value.to else g.at)
    && g.to == g.from + PLAN_DURATION_MS
  }

  predicate Chain(gs: seq<Granted>) {
    gs == [] || (Chain(gs[..|gs| - 1]) && Follows(gs[..|gs| - 1], gs[|gs| - 1]))
  }

  /** The stored plan and expiry are those of the latest grant. */
  predicate PlanIsLastGrant(u: User, last: Option<Granted>) {
    match last
    case None => u.plan.None? && u.planExpiresAt.None?
    case Some(g) => u.plan == Some(g.plan) && u.planExpiresAt == Some(g.to)
  }

  ghost predicate Paid(w: World, g: Granted) {
    g.payment in w.s.payments && w.s.payments[g.payment].status == Succeeded
    && w.s.payments[g.payment].userId == g.user && w.s.payments[g.payment].plan == g.plan
    && g.user in w.s.users && g.at <= w.h.clock
  }

  ghost predicate GrantLedger(w: World) {
    && Chain(w.h.grants)
    && (forall u :: u in w.s.users ==> PlanIsLastGrant(w.s.users[u], LastGrant(w.h.grants, u)))
    && (forall i :: 0 <= i < |w.h.grants| ==> Paid(w, w.h.grants[i]))
    && (forall i, j :: 0 <= i < j < |w.h.grants| ==> w.h.grants[i].payment != w.h.grants[j].payment)
    && (forall p :: p in w.s.payments && w.s.payments[p].status == Succeeded ==>
          exists i :: 0 <= i < |w.h.grants| && w.h.grants[i].payment == p)
  }

  // ---- Steps ----------------------------------------------------------------------------------

  /** The effect of a settlement that grants g. */
  ghost predicate GrantEffect(s: State, t: State, g: Granted, now: nat) {
    g.payment in s.payments && s.payments[g.payment].status == Pending
    && s.payments[g.payment].userId == g.user && s.payments[g.payment].plan == g.plan
    && g.user in s.users && g.at == now
    && g.from == Payments.GrantStart(s.users[g.user], now) && g.to == g.from + PLAN_DURATION_MS
    && t.users == s.users[g.user := s.users[g.user].(plan := Some(g.plan), planExpiresAt := Some(g.to))]
    && t.payments == s.payments[g.payment := s.payments[g.payment].(status := Succeeded, paidAt := Some(now))]
  }

  predicate UntouchedOrFailed(p: Payment, q: Payment) {
    q == p || (p.status == Pending && q == p.(status := Failed))
  }

  ghost predicate PaymentsKept(s: State, t: State) {
    && s.users.Keys <= t.users.Keys
    && (forall p :: p in s.payments ==> p in t.payments && UntouchedOrFailed(s.payments[p], t.payments[p]))
    && (forall p :: p in t.payments && p !in s.payments ==> t.payments[p].status == Pending)
  }

  ghost predicate PlansKept(s: State, t: State) {
    forall u :: u in t.users ==>
      if u in s.users then t.users[u].plan == s.users[u].plan && t.users[u].planExpiresAt == s.users[u].planExpiresAt
      else t.users[u].plan.None? && t.users[u].planExpiresAt.None?
  }

  /** Settlement either grants, or at most turns one pending row into a failed one. */
  lemma SettleEffect(s: State, intent: string, o: Payments.Outcome, amount: int, currency: string, now: nat)
    ensures var t := Payments.Settle(s, intent, o, amount, currency, now).0;
            var gs := GrantOf(s, intent, o, amount, currency, now);
            if gs == [] then PlansKept(s, t) && PaymentsKept(s, t)
            else |gs| == 1 && GrantEffect(s, t, gs[0], now)
  {
    hide Payments.FindPayment, ActivePlan;
  }

  lemma QuietPlans(w: World, env: Env, step: Step, now: nat)
    requires Enabled(w, env, step, now) && !BillingStep(step)
    ensures PlansKept(w.s, Next(w.s, env, step, now)) && PaymentsKept(w.s, Next(w.s, env, step, now))
  {
    hide Next, PruneVictims, Keys.Oldest;
    Frame(w, env, step, now);
  }

  lemma RecordPendingPlans(s: State, newId: PaymentId, u: UserId, plan: PaidPlan, intent: string, now: nat)
    requires newId !in s.payments
    ensures var t := Payments.RecordPending(s, newId, u, plan, intent, now).0; PlansKept(s, t) && PaymentsKept(s, t)
  {
    hide Payments.FindPayment;
  }

  lemma ActivatePlans(s: State, u: UserId, now: nat)
    ensures var t := Payments.ActivateFreeTier(s, u, now); PlansKept(s, t) && PaymentsKept(s, t)
  {
    if u in s.users {
      var t := s.users[u := s.users[u].(freeTierActivatedAt := Some(now), freeRequestsUsed := Some(0))];
      assert PlansKept(s, s.(users := t)) && PaymentsKept(s, s.(users := t));
    }
  }

  lemma CheckIntentPlans(s: State, intent: string, wire: Payments.WireIntent, now: nat)
    requires Grants(s, CheckIntent(intent, wire), now) == []
    ensures var t := Payments.CheckIntent(s, intent, wire, now); PlansKept(s, t) && PaymentsKept(s, t)
  {
    hide Payments.Settle, GrantOf;
    SettleEffect(s, intent, Payments.WireSucceeded, wire.amount, wire.currency, now);
    SettleEffect(s, intent, Payments.WireFailed, wire.amount, wire.currency, now);
    FailedGrantsNothing(s, intent, wire.amount, wire.currency, now);
  }

  lemma FailedGrantsNothing(s: State, intent: string, amount: int, currency: string, now: nat)
    ensures GrantOf(s, intent, Payments.WireFailed, amount, currency, now) == []
  {
  }

  /** Steps that grant nothing change no plan and succeed no payment. */
  lemma NoGrantFrame(w: World, env: Env, step: Step, now: nat)
    requires Enabled(w, env, step, now) && Grants(w.s, step, now) == []
    ensures PlansKept(w.s, Next(w.s, env, step, now)) && PaymentsKept(w.s, Next(w.s, env, step, now))
  {
    hide NextKeys, Gateway.Authorize, Gateway.AuthorizeDemo, Usage.RecordUsage, PlansKept, PaymentsKept;
    hide Payments.Settle, Payments.RecordPending, Payments.CheckIntent, Payments.ActivateFreeTier, GrantOf,
      PruneVictims, Keys.Oldest;
    match step
    case Settle(intent, o, amount, currency) => SettleEffect(w.s, intent, o, amount, currency, now);
    case CheckIntent(intent, wire) => CheckIntentPlans(w.s, intent, wire, now);
    case RecordPending(p, u, plan, intent) => RecordPendingPlans(w.s, p, u, plan, intent, now);
    case ActivateFreeTier(u) => ActivatePlans(w.s, u, now);
    case _ => QuietPlans(w, env, step, now);
  }

  lemma GrantingStep(w: World, env: Env, step: Step, now: nat)
    requires Grants(w.s, step, now) != []
    ensures |Grants(w.s, step, now)| == 1 && GrantEffect(w.s, Next(w.s, env, step, now), Grants(w.s, step, now)[0], now)
  {
    hide Payments.Settle, GrantOf;
    if step.Settle? {
      SettleEffect(w.s, step.intent, step.outcome, step.amount, step.currency, now);
    } else {
      SettleEffect(w.s, step.intent, Payments.WireSucceeded, step.wire.amount, step.wire.currency, now);
    }
  }

  lemma GrantKeepsPlans(w: World, t: State, g: Granted, now: nat)
    requires GrantLedger(w) && GrantEffect(w.s, t, g, now)
    ensures Chain(w.h.grants + [g])
    ensures forall u :: u in t.users ==> PlanIsLastGrant(t.users[u], LastGrant(w.h.grants + [g], u))
  {
    var gs := w.h.grants + [g];
    assert gs[..|gs| - 1] == w.h.grants;
    assert PlanIsLastGrant(w.s.users[g.user], LastGrant(w.h.grants, g.user));
  }

  lemma GrantKeepsPayments(w: World, v: World, g: Granted, now: nat)
    requires GrantLedger(w) && GrantEffect(w.s, v.s, g, now) && v.h.grants == w.h.grants + [g]
    requires w.h.clock <= now == v.h.clock
    ensures forall i :: 0 <= i < |v.h.grants| ==> Paid(v, v.h.grants[i])
    ensures forall i, j :: 0 <= i < j < |v.h.grants| ==> v.h.grants[i].payment != v.h.grants[j].payment
    ensures forall p :: p in v.s.payments && v.s.payments[p].status == Succeeded ==>
              exists i :: 0 <= i < |v.h.grants| && v.h.grants[i].payment == p
  {
    forall i | 0 <= i < |v.h.grants| ensures Paid(v, v.h.grants[i]) {
      if i < |w.h.grants| {
        assert Paid(w, w.h.grants[i]);
      }
    }
    forall i, j | 0 <= i < j < |v.h.grants| ensures v.h.grants[i].payment != v.h.grants[j].payment {
      assert Paid(w, w.h.grants[i]);
    }
    forall p | p in v.s.payments && v.s.payments[p].status == Succeeded
      ensures exists i :: 0 <= i < |v.h.grants| && v.h.grants[i].payment == p
    {
      if p == g.payment {
        assert v.h.grants[|w.h.grants|].payment == p;
      } else {
        var i :| 0 <= i < |w.h.grants| && w.h.grants[i].payment == p;
        assert v.h.grants[i].payment == p;
      }
    }
  }

  lemma GrantAppends(w: World, env: Env, step: Step, now: nat)
    requires GrantLedger(w) && Enabled(w, env, step, now) && Grants(w.s, step, now) != []
    ensures GrantLedger(Advance(w, env, step, now))
  {
    hide Grants, GrantEffect, Chain, LastGrant, PlanIsLastGrant, Paid, Advance;
    var v := Advance(w, env, step, now);
    GrantsAdded(w, env, step, now);
    GrantingStep(w, env, step, now);
    var g := Grants(w.s, step, now)[0];
    assert v.h.grants == w.h.grants + [g];
    assert w.h.clock <= now;
    hide Enabled;
    GrantKeepsPlans(w, v.s, g, now);
    GrantKeepsPayments(w, v, g, now);
  }

  lemma GrantsAdded(w: World, env: Env, step: Step, now: nat)
    ensures var v := Advance(w, env, step, now);
            v.s == Next(w.s, env, step, now) && v.h.clock == now && v.h.grants == w.h.grants + Grants(w.s, step, now)
  {
    hide Next, Grants;
  }

  lemma {:induction false} NoGrantYet(gs: seq<Granted>, u: UserId)
    requires forall i :: 0 <= i < |gs| ==> gs[i].user != u
    ensures LastGrant(gs, u).None?
  {
    if gs != [] {
      NoGrantYet(gs[..|gs| - 1], u);
    }
  }

  lemma NothingGranted(w: World, v: World)
    requires GrantLedger(w) && PlansKept(w.s, v.s) && PaymentsKept(w.s, v.s)
    requires v.h.grants == w.h.grants && w.h.clock <= v.h.clock
    ensures GrantLedger(v)
  {
    hide Chain;
    forall u | u in v.s.users ensures PlanIsLastGrant(v.s.users[u], LastGrant(v.h.grants, u)) {
      if u !in w.s.users {
        forall i | 0 <= i < |w.h.grants| ensures w.h.grants[i].user != u {
          assert Paid(w, w.h.grants[i]);
        }
        NoGrantYet(w.h.grants, u);
      }
    }
    forall i | 0 <= i < |v.h.grants| ensures Paid(v, v.h.grants[i]) {
      assert Paid(w, w.h.grants[i]);
    }
  }

  lemma GrantLedgerIsKept(w: World, env: Env, step: Step, now: nat)
    requires Sound(w) && GrantLedger(w) && Enabled(w, env, step, now)
    ensures GrantLedger(Advance(w, env, step, now))
  {
    hide Next, Grants, GrantLedger, PlansKept, PaymentsKept, Sound;
    if Grants(w.s, step, now) != [] {
      GrantAppends(w, env, step, now);
    } else {
      NoGrantFrame(w, env, step, now);
      NothingGranted(w, Advance(w, env, step, now));
    }
  }

  lemma {:induction false} GrantRun(w: World, env: Env, run: seq<Event>)
    requires Sound(w) && GrantLedger(w) && Possible(w, env, run)
    ensures GrantLedger(Run(w, env, run)) && Sound(Run(w, env, run))
    decreases run
  {
    if run != [] {
      hide Sound, GrantLedger, Next, Observe;
      SoundIsKept(w, env, run[0].step, run[0].now);
      GrantLedgerIsKept(w, env, run[0].step, run[0].now);
      GrantRun(Advance(w, env, run[0].step, run[0].now), env, run[1..]);
    }
  }

  // ---- Settled rows never change ------------------------------------------------------------

  lemma SettledIsKept(w: World, env: Env, step: Step, now: nat, p: PaymentId)
    requires Sound(w) && Enabled(w, env, step, now)
    requires p in w.s.payments && w.s.payments[p].status != Pending
    ensures var t := Next(w.s, env, step, now); p in t.payments && t.payments[p] == w.s.payments[p]
  {
    hide Next;
    PaymentsEvolve(w, env, step, now);
  }

  /** Succeeded and failed are absorbing over any run. */
  lemma {:induction false} SettledForever(w: World, env: Env, run: seq<Event>, p: PaymentId)
    requires Sound(w) && Possible(w, env, run)
    requires p in w.s.payments && w.s.payments[p].status != Pending
    ensures var t := Run(w, env, run).s; p in t.payments && t.payments[p] == w.s.payments[p]
    decreases run
  {
    if run != [] {
      hide Sound, Next, Observe;
      SoundIsKept(w, env, run[0].step, run[0].now);
      SettledIsKept(w, env, run[0].step, run[0].now, p);
      SettledForever(Advance(w, env, run[0].step, run[0].now), env, run[1..], p);
    }
  }

  // ---- The intervals -----------------------------------------------------------------------------

  lemma {:induction false} LastEndsLatest(gs: seq<Granted>, i: nat)
    requires Chain(gs) && i < |gs|
    ensures LastGrant(gs, gs[i].user).Some? && gs[i].to <= LastGrant(gs, gs[i].user).value.to
  {
    var n := |gs| - 1;
    if i < n {
      LastEndsLatest(gs[..n], i);
    }
  }

  /** Intervals bought for one account never overlap. */
  lemma {:induction false} GrantsAreDisjoint(gs: seq<Granted>, i: nat, j: nat)
    requires Chain(gs) && i < j < |gs| && gs[i].user == gs[j].user
    ensures gs[i].from < gs[i].to <= gs[j].from && gs[i].to - gs[i].from == PLAN_DURATION_MS
  {
    var n := |gs| - 1;
    if j < n {
      GrantsAreDisjoint(gs[..n], i, j);
    } else {
      LastEndsLatest(gs[..n], i);
      LengthOf(gs, i);
    }
  }

  lemma {:induction false} LengthOf(gs: seq<Granted>, i: nat)
    requires Chain(gs) && i < |gs|
    ensures gs[i].to == gs[i].from + PLAN_DURATION_MS && gs[i].at <= gs[i].from
  {
    if i < |gs| - 1 {
      LengthOf(gs[..|gs| - 1], i);
    }
  }

  /** The plan bought last. */
  function LatestPlan(gs: seq<Granted>, u: UserId): Option<PaidPlan> {
    if LastGrant(gs, u).Some? then Some(LastGrant(gs, u).value.plan) else None
  }

  predicate Covers(gs: seq<Granted>, u: UserId, t: nat) {
    exists i :: 0 <= i < |gs| && gs[i].user == u && gs[i].from <= t < gs[i].to
  }

  /** Bought time has no gap between the present and its end. */
  lemma {:induction false} NoGapAhead(gs: seq<Granted>, u: UserId, t: nat)
    requires Chain(gs) && (forall i :: 0 <= i < |gs| ==> gs[i].at <= t)
    requires LastGrant(gs, u).Some? && t < LastGrant(gs, u).value.to
    ensures Covers(gs, u, t)
  {
    var n := |gs| - 1;
    if gs[n].user == u && gs[n].from <= t {
    } else {
      NoGapAhead(gs[..n], u, t);
      var i :| 0 <= i < n && gs[..n][i].user == u && gs[..n][i].from <= t < gs[..n][i].to;
      assert gs[i].user == u;
    }
  }

  function GrantsOf(gs: seq<Granted>, u: UserId): nat {
    if gs == [] then 0 else GrantsOf(gs[..|gs| - 1], u) + if gs[|gs| - 1].user == u then 1 else 0
  }

  ghost function PaymentsOf(gs: seq<Granted>, u: UserId): set<PaymentId> {
    set i | 0 <= i < |gs| && gs[i].user == u :: gs[i].payment
  }

  lemma PaymentsOfPush(gs: seq<Granted>, g: Granted, u: UserId)
    ensures PaymentsOf(gs + [g], u) == PaymentsOf(gs, u) + if g.user == u then {g.payment} else {}
  {
    var all := gs + [g];
    forall p | p in PaymentsOf(gs, u) ensures p in PaymentsOf(all, u) {
      var i :| 0 <= i < |gs| && gs[i].user == u && gs[i].payment == p;
      assert all[i].payment == p;
    }
    if g.user == u {
      assert all[|gs|].payment == g.payment;
    }
  }

  lemma NotPaidBefore(gs: seq<Granted>, u: UserId)
    requires gs != [] && forall i, j :: 0 <= i < j < |gs| ==> gs[i].payment != gs[j].payment
    ensures gs[|gs| - 1].payment !in PaymentsOf(gs[..|gs| - 1], u)
  {
  }

  lemma {:induction false} DistinctPayments(gs: seq<Granted>, u: UserId)
    requires forall i, j :: 0 <= i < j < |gs| ==> gs[i].payment != gs[j].payment
    ensures |PaymentsOf(gs, u)| == GrantsOf(gs, u)
  {
    if gs != [] {
      var init, g := gs[..|gs| - 1], gs[|gs| - 1];
      DistinctPayments(init, u);
      PaymentsOfPush(init, g, u);
      assert gs == init + [g];
      NotPaidBefore(gs, u);
      hide PaymentsOf;
    }
  }

  ghost function SucceededPayments(s: State, u: UserId): set<PaymentId> {
    set p | p in s.payments && s.payments[p].userId == u && s.payments[p].status == Succeeded
  }

  lemma SucceededAreGranted(w: World, u: UserId)
    requires GrantLedger(w)
    ensures SucceededPayments(w.s, u) == PaymentsOf(w.h.grants, u)
  {
    forall p | p in SucceededPayments(w.s, u) ensures p in PaymentsOf(w.h.grants, u) {
      var i :| 0 <= i < |w.h.grants| && w.h.grants[i].payment == p;
      assert Paid(w, w.h.grants[i]);
    }
    forall p | p in PaymentsOf(w.h.grants, u) ensures p in SucceededPayments(w.s, u) {
      var i :| 0 <= i < |w.h.grants| && w.h.grants[i].user == u && w.h.grants[i].payment == p;
      assert Paid(w, w.h.grants[i]);
    }
  }

  lemma PlanIsCovered(w: World, u: UserId, t: nat)
    requires GrantLedger(w) && u in w.s.users && w.h.clock <= t
    ensures ActivePlan(w.s.users[u], t) == if Covers(w.h.grants, u, t) then LatestPlan(w.h.grants, u) else None
  {
    var gs := w.h.grants;
    assert PlanIsLastGrant(w.s.users[u], LastGrant(gs, u));
    if Covers(gs, u, t) {
      var i :| 0 <= i < |gs| && gs[i].user == u && gs[i].from <= t < gs[i].to;
      LastEndsLatest(gs, i);
    } else if LastGrant(gs, u).Some? && t < LastGrant(gs, u).value.to {
      forall i | 0 <= i < |gs| ensures gs[i].at <= t {
        assert Paid(w, gs[i]);
      }
      NoGapAhead(gs, u, t);
    }
  }

  lemma EmptyGrants()
    ensures GrantLedger(EMPTY)
  {
  }

  lemma IntervalsArePaid(w: World, u: UserId, t: nat)
    requires GrantLedger(w) && w.h.clock <= t
    ensures var gs := w.h.grants;
            |SucceededPayments(w.s, u)| == GrantsOf(gs, u)
            && SucceededPayments(w.s, u) == PaymentsOf(gs, u)
            && (forall i, j :: 0 <= i < j < |gs| && gs[i].user == gs[j].user == u ==> gs[i].to <= gs[j].from)
            && (forall i :: 0 <= i < |gs| ==> gs[i].to == gs[i].from + 30 * 24 * 60 * 60 * 1000)
            && (u in w.s.users ==> ActivePlan(w.s.users[u], t) == if Covers(gs, u, t) then LatestPlan(gs, u) else None)
  {
    var gs := w.h.grants;
    DistinctPayments(gs, u);
    SucceededAreGranted(w, u);
    forall i, j | 0 <= i < j < |gs| && gs[i].user == gs[j].user == u ensures gs[i].to <= gs[j].from {
      GrantsAreDisjoint(gs, i, j);
    }
    forall i | 0 <= i < |gs| ensures gs[i].to == gs[i].from + PLAN_DURATION_MS {
      LengthOf(gs, i);
    }
    if u in w.s.users {
      PlanIsCovered(w, u, t);
    }
    hide SucceededPayments, PaymentsOf, GrantsOf, Covers, ActivePlan, GrantLedger, Chain;
  }

  /** Over any run: as many intervals as succeeded payments, one payment each, pairwise disjoint and
      30 days long; and at any later moment the account has a plan exactly when one of them covers it, namely
      the plan bought last. */
  lemma PlanTimeIsWhatWasPaidFor(env: Env, run: seq<Event>, u: UserId, t: nat)
    requires Possible(EMPTY, env, run) && Run(EMPTY, env, run).h.clock <= t
    ensures var w := Run(EMPTY, env, run);
            var gs := w.h.grants;
            |SucceededPayments(w.s, u)| == GrantsOf(gs, u)
            && SucceededPayments(w.s, u) == PaymentsOf(gs, u)
            && (forall i, j :: 0 <= i < j < |gs| && gs[i].user == gs[j].user == u ==> gs[i].to <= gs[j].from)
            && (forall i :: 0 <= i < |gs| ==> gs[i].to == gs[i].from + 30 * 24 * 60 * 60 * 1000)
            && (u in w.s.users ==> ActivePlan(w.s.users[u], t) == if Covers(gs, u, t) then LatestPlan(gs, u) else None)
  {
    EmptyIsSound();
    EmptyGrants();
    hide Sound, GrantLedger, SucceededPayments, PaymentsOf, GrantsOf, Covers, ActivePlan;
    GrantRun(EMPTY, env, run);
    IntervalsArePaid(Run(EMPTY, env, run), u, t);
  }

  // ---- Purchases ---------------------------------------------------------------------------------------

  /** One purchase: a checkout is recorded and its payment succeeds. */
  function Purchase(p: PaymentId, u: UserId, plan: PaidPlan, intent: string, now: nat): (es: seq<Event>)
    ensures |es| == 2
  {
    [Event(RecordPending(p, u, plan, intent), now),
     Event(Settle(intent, Payments.WireSucceeded, PLAN_WIRE_AMOUNT, "MNT"), now)]
  }

  lemma RecordedPending(w: World, env: Env, p: PaymentId, u: UserId, plan: PaidPlan, intent: string, now: nat)
    requires Sound(w) && w.h.clock <= now && p !in w.s.payments && u in w.s.users
    requires forall q :: q in w.s.payments ==> w.s.payments[q].intent != intent
    ensures var step := Purchase(p, u, plan, intent, now)[0].step;
            var v := Advance(w, env, step, now);
            Enabled(w, env, step, now) && v.h.clock == now && v.h.grants == w.h.grants && v.s.users == w.s.users
            && v.s.payments == w.s.payments[p := Payment(u, plan, intent, PLAN_WIRE_AMOUNT, "MNT", Pending, now, None)]
  {
    FindPaymentIsUnique(w, intent);
  }

  lemma SettlesAndGrants(s: State, p: PaymentId, u: UserId, plan: PaidPlan, intent: string, now: nat)
    requires Payments.FindPayment(s.payments, intent) == Payments.OnePayment(p) && u in s.users
    requires s.payments[p] == Payment(u, plan, intent, PLAN_WIRE_AMOUNT, "MNT", Pending, now, None)
    ensures var t := Payments.Settle(s, intent, Payments.WireSucceeded, PLAN_WIRE_AMOUNT, "MNT", now).0;
            var from := Payments.GrantStart(s.users[u], now);
            t.users == s.users[u := Payments.Grant(s.users[u], plan, now)]
            && t.payments == s.payments[p := s.payments[p].(status := Succeeded, paidAt := Some(now))]
            && GrantOf(s, intent, Payments.WireSucceeded, PLAN_WIRE_AMOUNT, "MNT", now)
               == [Granted(u, plan, from, from + PLAN_DURATION_MS, now, p)]
  {
    hide Payments.FindPayment, Payments.GrantStart, Payments.Grant;
  }

  lemma Bought(w: World, env: Env, p: PaymentId, u: UserId, plan: PaidPlan, intent: string, now: nat)
    requires Sound(w) && w.h.clock <= now && u in w.s.users && p in w.s.payments
    requires w.s.payments[p] == Payment(u, plan, intent, PLAN_WIRE_AMOUNT, "MNT", Pending, now, None)
    ensures var step := Purchase(p, u, plan, intent, now)[1].step;
            var v := Advance(w, env, step, now);
            var from := Payments.GrantStart(w.s.users[u], now);
            Enabled(w, env, step, now) && v.h.clock == now && v.s.users.Keys == w.s.users.Keys
            && v.h.grants == w.h.grants + [Granted(u, plan, from, from + PLAN_DURATION_MS, now, p)]
            && v.s.users[u] == Payments.Grant(w.s.users[u], plan, now)
            && v.s.payments == w.s.payments[p := w.s.payments[p].(status := Succeeded, paidAt := Some(now))]
  {
    FindPaymentIsUnique(w, intent);
    SettlesAndGrants(w.s, p, u, plan, intent, now);
    hide Payments.FindPayment, Payments.Settle, GrantOf, Payments.GrantStart, Payments.Grant, Sound;
  }

  /** A purchase from any world: the plan and its interval are those of the latest grant. */
  lemma Purchased(w: World, env: Env, p: PaymentId, u: UserId, plan: PaidPlan, intent: string, now: nat)
    requires Sound(w) && w.h.clock <= now && p !in w.s.payments && u in w.s.users
    requires forall q :: q in w.s.payments ==> w.s.payments[q].intent != intent
    ensures var run := Purchase(p, u, plan, intent, now);
            var v := Run(w, env, run);
            var from := Payments.GrantStart(w.s.users[u], now);
            Possible(w, env, run) && Sound(v) && v.h.clock == now && u in v.s.users
            && v.h.grants == w.h.grants + [Granted(u, plan, from, from + PLAN_DURATION_MS, now, p)]
            && v.s.users[u] == Payments.Grant(w.s.users[u], plan, now)
            && v.s.payments.Keys == w.s.payments.Keys + {p} && v.s.payments[p].intent == intent
            && forall q :: q in w.s.payments ==> v.s.payments[q] == w.s.payments[q]
  {
    hide Sound, Next, Observe, Enabled;
    var run := Purchase(p, u, plan, intent, now);
    var e1, e2 := run[0], run[1];
    var x := Advance(w, env, e1.step, now);
    RecordedPending(w, env, p, u, plan, intent, now);
    SoundIsKept(w, env, e1.step, now);
    Bought(x, env, p, u, plan, intent, now);
    SoundIsKept(x, env, e2.step, now);
    assert run == [e1] + ([e2] + []);
    Then(w, env, e1, [e2] + []);
    Then(x, env, e2, []);
  }

  /** What a billing step leaves alone. */
  ghost predicate OnlyBilled(w: World, v: World) {
    v.s.keys == w.s.keys && v.s.tokens == w.s.tokens && v.s.rate == w.s.rate && v.h.charges == w.h.charges
  }

  lemma BillingLeaves(w: World, env: Env, step: Step, now: nat)
    requires BillingStep(step)
    ensures OnlyBilled(w, Advance(w, env, step, now))
  {
    hide Next;
    Frame(w, env, step, now);
    assert w.h.charges + [] == w.h.charges;
  }

  lemma PurchaseLeaves(w: World, env: Env, p: PaymentId, u: UserId, plan: PaidPlan, intent: string, now: nat)
    ensures OnlyBilled(w, Run(w, env, Purchase(p, u, plan, intent, now)))
  {
    var run := Purchase(p, u, plan, intent, now);
    var e1, e2 := run[0], run[1];
    var x := Advance(w, env, e1.step, now);
    BillingLeaves(w, env, e1.step, now);
    BillingLeaves(x, env, e2.step, now);
    hide Advance;
    assert run == [e1] + ([e2] + []);
    Then(w, env, e1, [e2] + []);
    Then(x, env, e2, []);
  }

  lemma SignedUp(env: Env, u: UserId, now: nat)
    ensures var step := SignUp(u, false);
            var v := Advance(EMPTY, env, step, now);
            Enabled(EMPTY, env, step, now) && Sound(v) && v.s.payments == map[] && v.h.grants == [] && v.h.clock == now
            && u in v.s.users && v.s.users[u] == User(false, None, None, None, None, None)
  {
    EmptyIsSound();
    SoundIsKept(EMPTY, env, SignUp(u, false), now);
    hide Sound;
  }

  /** The plan bought for an interval need not be in force in it: an account that has just bought Pro and buys
      Starter is on Starter at once, with all of its Pro interval still ahead. */
  lemma BuyingReplacesThePlan(env: Env, u: UserId, p: PaymentId, q: PaymentId, now: nat)
    requires p != q
    ensures var run := [Event(SignUp(u, false), now)]
                       + (Purchase(p, u, Pro, "first", now) + Purchase(q, u, Starter, "second", now));
            var w := Run(EMPTY, env, run);
            Possible(EMPTY, env, run) && u in w.s.users && |w.h.grants| == 2
            && w.h.grants[0] == Granted(u, Pro, now, now + PLAN_DURATION_MS, now, p)
            && ActivePlan(w.s.users[u], now) == Some(Starter)
  {
    hide Sound, Next, Observe, Enabled, Purchase, Run, Possible;
    var e := Event(SignUp(u, false), now);
    var w1 := Advance(EMPTY, env, e.step, now);
    var pro, starter := Purchase(p, u, Pro, "first", now), Purchase(q, u, Starter, "second", now);
    SignedUp(env, u, now);
    Purchased(w1, env, p, u, Pro, "first", now);
    Purchased(Run(w1, env, pro), env, q, u, Starter, "second", now);
    Joined(w1, env, pro, starter);
    Then(EMPTY, env, e, pro + starter);
  }
}
