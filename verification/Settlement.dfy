/** What the provider's answer about a payment does, in reachable states and over runs. */
module Settlement {
  import opened Wrappers
  import opened Tables
  import opened Plans
  import opened Machine
  import opened PaymentLedger
  import opened Reconciliation
  import Convex
  import Payments

  /** The provider reports the payment of a row as failed, with the amount and currency of the row. */
  predicate Refused(row: Payment, w: Payments.WireIntent) {
    w.id == row.intent && (w.status == "failed" || w.status == "canceled" || w.status == "expired")
    && w.amount == row.amountMinor && w.currency == row.currency
  }

  /** Exactly that row becomes failed. */
  lemma RefusalFailsTheRow(s: State, p: PaymentId, w: Payments.WireIntent, now: nat)
    requires OnlyRow(s.payments, p) && s.payments[p].status == Pending && Refused(s.payments[p], w)
    ensures Payments.CheckIntent(s, s.payments[p].intent, w, now)
            == s.(payments := s.payments[p := s.payments[p].(status := Failed)])
  {
    FindsIt(s.payments, p);
    hide Payments.FindPayment;
  }

  /** In every reachable state, a webhook, refresh or reconcile check whose answer reports a pending payment as failed,
      canceled or expired makes exactly its row failed: no other row and no account changes. */
  lemma RefusalInRun(env: Env, run: seq<Event>, p: PaymentId, wire: Payments.WireIntent, now: nat)
    requires Possible(EMPTY, env, run)
    requires var rows := Run(EMPTY, env, run).s.payments;
             p in rows && rows[p].status == Pending && Refused(rows[p], wire)
    ensures var s := Run(EMPTY, env, run).s;
            Next(s, env, CheckIntent(s.payments[p].intent, wire), now)
            == s.(payments := s.payments[p := s.payments[p].(status := Failed)])
  {
    EmptyIsSound();
    SoundRun(EMPTY, env, run);
    var w := Run(EMPTY, env, run);
    hide Run, Possible, Sound, Payments.CheckIntent;
    SoundRows(w);
    hide OnlyRow, Refused;
    RefusalFailsTheRow(w.s, p, wire, now);
  }

  /** Nothing an answer says changes a row it does not name, one already settled, or one of another amount or
      currency. */
  lemma OtherAnswersChangeNothing(s: State, intent: string, w: Payments.WireIntent, now: nat)
    requires forall p :: p in s.payments && s.payments[p].intent == intent ==>
               s.payments[p].status != Pending || w.id != intent || w.amount != s.payments[p].amountMinor
               || w.currency != s.payments[p].currency
               || w.status !in ["succeeded", "failed", "canceled", "expired"]
    ensures Payments.CheckIntent(s, intent, w, now) == s
  {
    assert "succeeded" in ["succeeded", "failed", "canceled", "expired"];
    assert w.status in ["failed", "canceled", "expired"] ==> w.status in ["succeeded", "failed", "canceled", "expired"];
  }

  /** The answer of a settlement is whether the status of a row has changed. */
  lemma SettlesIff(s: State, intent: string, o: Payments.Outcome, amount: int, currency: string, now: nat)
    ensures var (t, settled) := Payments.Settle(s, intent, o, amount, currency, now);
            t.payments.Keys == s.payments.Keys
            && (settled <==> exists p :: p in s.payments && t.payments[p].status != s.payments[p].status)
            && (!settled ==> t == s)
  {
    hide Payments.Grant, Payments.FindPayment;
    var (t, settled) := Payments.Settle(s, intent, o, amount, currency, now);
    if settled {
      var p := Payments.FindPayment(s.payments, intent).id;
      assert t.payments[p].status != s.payments[p].status;
    }
  }

  /** A payment reported as failed while it is pending is never granted, over any run. */
  lemma RefusedIsNeverGranted(env: Env, run: seq<Event>, p: PaymentId, wire: Payments.WireIntent, now: nat,
                             more: seq<Event>)
    requires Possible(EMPTY, env, run)
    requires var w := Run(EMPTY, env, run);
             p in w.s.payments && w.s.payments[p].status == Pending && Refused(w.s.payments[p], wire)
             && w.h.clock <= now
             && Possible(Advance(w, env, CheckIntent(w.s.payments[p].intent, wire), now), env, more)
    ensures var w := Run(EMPTY, env, run);
            var v := Run(Advance(w, env, CheckIntent(w.s.payments[p].intent, wire), now), env, more);
            p in v.s.payments && v.s.payments[p].status == Failed
            && forall i :: 0 <= i < |v.h.grants| ==> v.h.grants[i].payment != p
  {
    var w := Run(EMPTY, env, run);
    var step := CheckIntent(w.s.payments[p].intent, wire);
    var x := Advance(w, env, step, now);
    EmptyIsSound();
    EmptyGrants();
    GrantRun(EMPTY, env, run);
    RefusalInRun(env, run, p, wire, now);
    assert Enabled(w, env, step, now);
    hide Run, Possible, Sound, GrantLedger, Refused;
    FailedNow(w, env, step, now, p);
    SoundIsKept(w, env, step, now);
    GrantLedgerIsKept(w, env, step, now);
    hide Advance, Enabled;
    SettledForever(x, env, more, p);
    GrantRun(x, env, more);
    NotGranted(Run(x, env, more), p);
  }

  lemma FailedNow(w: World, env: Env, step: Step, now: nat, p: PaymentId)
    requires p in w.s.payments
    requires Next(w.s, env, step, now) == w.s.(payments := w.s.payments[p := w.s.payments[p].(status := Failed)])
    ensures var t := Advance(w, env, step, now).s; p in t.payments && t.payments[p].status == Failed
  {
    hide Next, Observe;
  }

  lemma NotGranted(w: World, p: PaymentId)
    requires GrantLedger(w) && p in w.s.payments && w.s.payments[p].status != Succeeded
    ensures forall i :: 0 <= i < |w.h.grants| ==> w.h.grants[i].payment != p
  {
    forall i | 0 <= i < |w.h.grants| ensures w.h.grants[i].payment != p {
      assert Paid(w, w.h.grants[i]);
    }
  }

  /** A reconcile run makes a pending payment that the provider reports as failed a failed one exactly when it looks
      at it. */
  lemma {:induction false} FailedIffChecked(s: State, intents: seq<string>,
                                            provider: string -> Option<Payments.WireIntent>, clock: nat -> nat, i: nat,
                                            p: PaymentId)
    requires OnlyRow(s.payments, p) && s.payments[p].status == Pending
    requires var w := provider(s.payments[p].intent); w.Some? && Refused(s.payments[p], w.value)
    ensures var t := Convex.Reconciled(s, intents, provider, clock, i);
            p in t.payments && t.payments[p].status == if s.payments[p].intent in intents then Failed else Pending
    decreases |intents|
  {
    hide Payments.CheckIntent, Refused;
    if intents != [] {
      assert s.payments[p].intent in intents <==>
             s.payments[p].intent == intents[0] || s.payments[p].intent in intents[1..];
      var answer := provider(intents[0]);
      if answer.Some? {
        CheckEffect(s, intents[0], answer.value, clock(i), p);
        var t := Payments.CheckIntent(s, intents[0], answer.value, clock(i));
        if intents[0] == s.payments[p].intent {
          RefusalFailsTheRow(s, p, answer.value, clock(i));
          SettledStays(t, intents[1..], provider, clock, i + 1, p);
        } else {
          FailedIffChecked(t, intents[1..], provider, clock, i + 1, p);
        }
      } else {
        FailedIffChecked(s, intents[1..], provider, clock, i + 1, p);
      }
    }
  }

  // ---- Checkouts ---------------------------------------------------------------------------------------------

  /** In every reachable state, recording a checkout answers with the row of its intent, which is for that account and
      plan, and with a conflict exactly when the intent has a row for another account or plan; only a new intent adds a
      row, pending and unpaid. */
  lemma CheckoutIsRecorded(env: Env, run: seq<Event>, id: PaymentId, u: UserId, plan: PaidPlan, intent: string,
                           now: nat)
    requires Possible(EMPTY, env, run) && id !in Run(EMPTY, env, run).s.payments
    ensures var s := Run(EMPTY, env, run).s;
            var (t, r) := Payments.RecordPending(s, id, u, plan, intent, now);
            (r.Conflict? <==> exists p :: p in s.payments && s.payments[p].intent == intent
                                          && (s.payments[p].userId != u || s.payments[p].plan != plan))
            && (r.Recorded? ==> r.id in t.payments && t.payments[r.id].intent == intent && t.payments[r.id].userId == u
                                && t.payments[r.id].plan == plan)
            && (if forall p :: p in s.payments ==> s.payments[p].intent != intent
                then t == s.(payments := s.payments[id := Payment(u, plan, intent, 1_000, "MNT", Pending, now, None)])
                else t == s)
  {
    hide Run, Possible, Sound, Payments.RecordPending;
    EmptyIsSound();
    SoundRun(EMPTY, env, run);
    Checkout(Run(EMPTY, env, run), id, u, plan, intent, now);
  }

  lemma Checkout(w: World, id: PaymentId, u: UserId, plan: PaidPlan, intent: string, now: nat)
    requires Sound(w) && id !in w.s.payments
    ensures var s := w.s;
            var (t, r) := Payments.RecordPending(s, id, u, plan, intent, now);
            (r.Conflict? <==> exists p :: p in s.payments && s.payments[p].intent == intent
                                          && (s.payments[p].userId != u || s.payments[p].plan != plan))
            && (r.Recorded? ==> r.id in t.payments && t.payments[r.id].intent == intent && t.payments[r.id].userId == u
                                && t.payments[r.id].plan == plan)
            && (if forall p :: p in s.payments ==> s.payments[p].intent != intent
                then t == s.(payments := s.payments[id := Payment(u, plan, intent, 1_000, "MNT", Pending, now, None)])
                else t == s)
  {
    FindPaymentIsUnique(w, intent);
    hide Sound, Payments.FindPayment;
  }

  // ---- The free tier -----------------------------------------------------------------------------------------

  /** Over one step, an account's free tier is activated only by itself, while it is unlocked and not the system's, only
      once, and with nothing used. */
  lemma ActivationIsOnce(s: State, u: UserId, now: nat)
    ensures var t := Payments.ActivateFreeTier(s, u, now);
            (forall v :: v in s.users && v != u ==> v in t.users && t.users[v] == s.users[v])
            && (u in s.users ==>
                  u in t.users && t.users[u].disabledAt == s.users[u].disabledAt
                  && if s.users[u].isSystem || s.users[u].disabledAt.Some? || s.users[u].freeTierActivatedAt.Some?
                     then t.users[u] == s.users[u]
                     else t.users[u].freeTierActivatedAt == Some(now) && FreeRequestsRemaining(t.users[u]) == 500)
  {
  }
}
