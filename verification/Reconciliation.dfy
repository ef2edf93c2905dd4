/** What a reconcile run settles: it looks at the newest hundred pending payments, and at no others. */
module Reconciliation {
  import opened Wrappers
  import opened Tables
  import opened Plans
  import opened Machine
  import opened Convex
  import Payments

  /** No other row has the intent of row p. */
  ghost predicate OnlyRow(rows: map<PaymentId, Payment>, p: PaymentId) {
    p in rows && forall q :: q in rows && rows[q].intent == rows[p].intent ==> q == p
  }

  lemma FindsIt(rows: map<PaymentId, Payment>, p: PaymentId)
    requires OnlyRow(rows, p)
    ensures Payments.FindPayment(rows, rows[p].intent) == Payments.OnePayment(p)
  {
    assert Payments.PaymentsFor(rows, rows[p].intent) == {p};
  }

  /** The provider reports the payment of row p as made, in full. */
  predicate Confirmed(row: Payment, w: Payments.WireIntent) {
    w.id == row.intent && w.status == "succeeded" && w.amount == row.amountMinor && w.currency == row.currency
  }

  /** How a settlement of some intent changes the payment rows, seen from row p. */
  ghost predicate RowsSettled(rows: map<PaymentId, Payment>, t: map<PaymentId, Payment>, intent: string, p: PaymentId) {
    OnlyRow(rows, p) && OnlyRow(t, p) && t[p].intent == rows[p].intent
    && (rows[p].intent != intent || rows[p].status != Pending ==> t[p] == rows[p])
  }

  lemma RowSettled(rows: map<PaymentId, Payment>, p: PaymentId, r: PaymentId, row: Payment)
    requires OnlyRow(rows, p) && r in rows && row.intent == rows[r].intent && rows[r].status == Pending
    ensures RowsSettled(rows, rows[r := row], rows[r].intent, p)
  {
  }

  lemma NothingSettled(rows: map<PaymentId, Payment>, intent: string, p: PaymentId)
    requires OnlyRow(rows, p)
    ensures RowsSettled(rows, rows, intent, p)
  {
  }

  ghost predicate Settled(s: State, t: State, intent: string, p: PaymentId) {
    t.users.Keys == s.users.Keys && RowsSettled(s.payments, t.payments, intent, p)
  }

  lemma SettleEffect(s: State, intent: string, o: Payments.Outcome, amount: int, currency: string, now: nat,
                     p: PaymentId)
    requires OnlyRow(s.payments, p)
    ensures Settled(s, Payments.Settle(s, intent, o, amount, currency, now).0, intent, p)
  {
    hide Payments.FindPayment, Payments.Grant, OnlyRow, RowsSettled;
    NothingSettled(s.payments, intent, p);
    var found := Payments.FindPayment(s.payments, intent);
    if found.OnePayment? && s.payments[found.id].status == Pending {
      var r, row := found.id, s.payments[found.id];
      RowSettled(s.payments, p, r, row.(status := Failed));
      RowSettled(s.payments, p, r, row.(status := Succeeded, paidAt := Some(now)));
    }
  }

  lemma SettlesInFull(s: State, p: PaymentId, now: nat)
    requires OnlyRow(s.payments, p) && s.payments[p].status == Pending && s.payments[p].userId in s.users
    ensures var row := s.payments[p];
            var t := Payments.Settle(s, row.intent, Payments.WireSucceeded, row.amountMinor, row.currency, now).0;
            p in t.payments && t.payments[p].status == Succeeded
  {
    FindsIt(s.payments, p);
    hide Payments.FindPayment, Payments.Grant, OnlyRow;
  }

  /** One check changes no intent, no other row, and no settled row, and it settles the row of its own intent when the
      provider confirms it. */
  lemma CheckEffect(s: State, intent: string, w: Payments.WireIntent, now: nat, p: PaymentId)
    requires OnlyRow(s.payments, p)
    ensures Settled(s, Payments.CheckIntent(s, intent, w, now), intent, p)
    ensures (s.payments[p].status == Pending && s.payments[p].userId in s.users) ==>
            (s.payments[p].intent == intent && Confirmed(s.payments[p], w)) ==>
            Payments.CheckIntent(s, intent, w, now).payments[p].status == Succeeded
  {
    SettleEffect(s, intent, Payments.WireSucceeded, w.amount, w.currency, now, p);
    SettleEffect(s, intent, Payments.WireFailed, w.amount, w.currency, now, p);
    if s.payments[p].status == Pending && s.payments[p].userId in s.users {
      SettlesInFull(s, p, now);
    }
    hide Payments.Settle, OnlyRow;
  }

  lemma {:induction false} SettledStays(s: State, intents: seq<string>,
                                        provider: string -> Option<Payments.WireIntent>, clock: nat -> nat, i: nat,
                                        p: PaymentId)
    requires OnlyRow(s.payments, p) && s.payments[p].status != Pending
    ensures var t := Reconciled(s, intents, provider, clock, i); p in t.payments && t.payments[p] == s.payments[p]
    decreases |intents|
  {
    hide Payments.CheckIntent;
    if intents != [] {
      var answer := provider(intents[0]);
      if answer.Some? {
        CheckEffect(s, intents[0], answer.value, clock(i), p);
        var t := Payments.CheckIntent(s, intents[0], answer.value, clock(i));
        SettledStays(t, intents[1..], provider, clock, i + 1, p);
      } else {
        SettledStays(s, intents[1..], provider, clock, i + 1, p);
      }
    }
  }

  /** A confirmed payment is settled exactly when its intent is among those looked at. */
  lemma {:induction false} SettledIffChecked(s: State, intents: seq<string>,
                                             provider: string -> Option<Payments.WireIntent>, clock: nat -> nat,
                                             i: nat, p: PaymentId)
    requires OnlyRow(s.payments, p) && s.payments[p].status == Pending && s.payments[p].userId in s.users
    requires var w := provider(s.payments[p].intent); w.Some? && Confirmed(s.payments[p], w.value)
    ensures var t := Reconciled(s, intents, provider, clock, i);
            p in t.payments && t.payments[p].status == if s.payments[p].intent in intents then Succeeded else Pending
    decreases |intents|
  {
    hide Payments.CheckIntent;
    if intents != [] {
      assert s.payments[p].intent in intents <==>
             s.payments[p].intent == intents[0] || s.payments[p].intent in intents[1..];
      var answer := provider(intents[0]);
      if answer.Some? {
        CheckEffect(s, intents[0], answer.value, clock(i), p);
        var t := Payments.CheckIntent(s, intents[0], answer.value, clock(i));
        if intents[0] == s.payments[p].intent {
          SettledStays(t, intents[1..], provider, clock, i + 1, p);
        } else {
          SettledIffChecked(t, intents[1..], provider, clock, i + 1, p);
        }
      } else {
        SettledIffChecked(s, intents[1..], provider, clock, i + 1, p);
      }
    }
  }

  /** The pending rows made after row p. */
  ghost function Newer(rows: map<PaymentId, Payment>, p: PaymentId): set<PaymentId>
    requires p in rows
  {
    set q | q in rows && rows[q].status == Pending && rows[q].createdAt > rows[p].createdAt
  }

  ghost function Listed(list: seq<PaymentId>): set<PaymentId> {
    set p | p in list
  }

  lemma {:induction false} ListedSize(list: seq<PaymentId>)
    requires forall j, k :: 0 <= j < k < |list| ==> list[j] != list[k]
    ensures |Listed(list)| == |list|
  {
    if list != [] {
      var n := |list| - 1;
      ListedSize(list[..n]);
      assert Listed(list) == Listed(list[..n]) + {list[n]};
      assert list[n] !in list[..n];
    }
  }

  lemma Fewer<T>(a: set<T>, b: set<T>)
    requires a <= b
    ensures |a| <= |b|
  {
    assert b == a + (b - a);
  }

  /** Whether a row is looked at is decided by how many newer ones are pending, as long as no two are equally old. */
  lemma LookedAtIff(rows: map<PaymentId, Payment>, list: seq<PaymentId>, p: PaymentId)
    requires NewestPending(rows, list) && p in rows && rows[p].status == Pending
    requires forall q :: q in rows && rows[q].status == Pending && rows[q].createdAt == rows[p].createdAt ==> q == p
    ensures p in list <==> |Newer(rows, p)| < 100
  {
    ListedSize(list);
    if p in list {
      assert Newer(rows, p) <= Listed(list) - {p};
      Fewer(Newer(rows, p), Listed(list) - {p});
    } else {
      assert Listed(list) <= Newer(rows, p);
      Fewer(Listed(list), Newer(rows, p));
    }
  }

  lemma SettledIffListed(s: State, list: seq<PaymentId>, provider: string -> Option<Payments.WireIntent>,
                         clock: nat -> nat, p: PaymentId)
    requires NewestPending(s.payments, list) && forall q :: q in s.payments ==> OnlyRow(s.payments, q)
    requires p in s.payments && s.payments[p].status == Pending && s.payments[p].userId in s.users
    requires var w := provider(s.payments[p].intent); w.Some? && Confirmed(s.payments[p], w.value)
    ensures forall j :: 0 <= j < |list| ==> list[j] in s.payments
    ensures var t := Reconciled(s, IntentsOf(s.payments, list), provider, clock, 0);
            p in t.payments && t.payments[p].status == if p in list then Succeeded else Pending
  {
    ArePayments(s.payments, list);
    var intents := IntentsOf(s.payments, list);
    assert s.payments[p].intent in intents <==> p in list by {
      if p in list {
        var j :| 0 <= j < |list| && list[j] == p;
        assert intents[j] == s.payments[p].intent;
      }
    }
    hide NewestPending, OnlyRow;
    SettledIffChecked(s, intents, provider, clock, 0, p);
  }

  lemma SoundRows(w: World)
    requires Sound(w)
    ensures forall q :: q in w.s.payments ==> OnlyRow(w.s.payments, q) && w.s.payments[q].userId in w.s.users
  {
  }

  /** In any reachable state, a payment the provider confirms is settled by a reconcile run exactly when fewer than a
      hundred newer ones are pending: behind a hundred that stay open, an older one is never looked at. */
  lemma ReconciledIff(env: Env, run: seq<Event>, list: seq<PaymentId>,
                      provider: string -> Option<Payments.WireIntent>, clock: nat -> nat, p: PaymentId)
    requires Possible(EMPTY, env, run)
    requires var rows := Run(EMPTY, env, run).s.payments;
             NewestPending(rows, list) && p in rows && rows[p].status == Pending
             && (forall q :: q in rows && rows[q].status == Pending && rows[q].createdAt == rows[p].createdAt ==>
                   q == p)
             && provider(rows[p].intent).Some? && Confirmed(rows[p], provider(rows[p].intent).value)
    ensures var rows := Run(EMPTY, env, run).s.payments; forall j :: 0 <= j < |list| ==> list[j] in rows
    ensures var s := Run(EMPTY, env, run).s;
            var t := Reconciled(s, IntentsOf(s.payments, list), provider, clock, 0);
            p in t.payments
            && t.payments[p].status == if |Newer(s.payments, p)| < 100 then Succeeded else Pending
  {
    EmptyIsSound();
    SoundRun(EMPTY, env, run);
    var w := Run(EMPTY, env, run);
    SoundRows(w);
    hide Run, Possible, Sound;
    LookedAtIff(w.s.payments, list, p);
    hide NewestPending, Newer, OnlyRow;
    SettledIffListed(w.s, list, provider, clock, p);
  }
}
