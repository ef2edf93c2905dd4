/** Which plan an account is on while it uses the time it has paid for. Buying a plan on top of another one replaces
    it at once, although the time already bought was for the other. */
module PlansInForce {
  import opened Wrappers
  import opened Tables
  import opened Plans
  import opened Machine
  import opened PaymentLedger
  import Payments

  /** A purchase leaves the plan in force, now and as long as it would have been, exactly when there is none or it
      is for the same plan. */
  lemma PurchaseKeepsThePlanIff(u: User, plan: PaidPlan, now: nat)
    ensures (forall t: nat :: now <= t && ActivePlan(u, t).Some? ==>
               ActivePlan(Payments.Grant(u, plan, now), t) == ActivePlan(u, t))
            <==> ActivePlan(u, now) in {None, Some(plan)}
  {
    assert ActivePlan(Payments.Grant(u, plan, now), now) == Some(plan);
  }

  // ---- The plan at a moment of a run ----------------------------------------------------------------

  /** The events of a run until a time. */
  function UpTo(run: seq<Event>, t: nat): seq<Event> {
    if run == [] || run[0].now > t then [] else [run[0]] + UpTo(run[1..], t)
  }

  ghost function WorldAt(env: Env, run: seq<Event>, t: nat): World {
    Run(EMPTY, env, UpTo(run, t))
  }

  ghost function PlanAt(env: Env, run: seq<Event>, u: UserId, t: nat): Option<PaidPlan> {
    var users := WorldAt(env, run, t).s.users;
    if u in users then ActivePlan(users[u], t) else None
  }

  lemma {:induction false} UpToIsPrefix(run: seq<Event>, t: nat) returns (rest: seq<Event>)
    ensures run == UpTo(run, t) + rest && (rest != [] ==> rest[0].now > t)
  {
    rest := run;
    if run != [] && run[0].now <= t {
      rest := UpToIsPrefix(run[1..], t);
      assert run == [run[0]] + run[1..];
    }
  }

  lemma {:induction false} ClockUpTo(w: World, env: Env, run: seq<Event>, t: nat)
    requires w.h.clock <= t && forall i :: 0 <= i < |run| ==> run[i].now <= t
    ensures Run(w, env, run).h.clock <= t
    decreases run
  {
    if run != [] {
      hide Next;
      ClockUpTo(Advance(w, env, run[0].step, run[0].now), env, run[1..], t);
    }
  }

  lemma {:induction false} UpToIsEarly(run: seq<Event>, t: nat)
    ensures forall i :: 0 <= i < |UpTo(run, t)| ==> UpTo(run, t)[i].now <= t
  {
    if run != [] && run[0].now <= t {
      UpToIsEarly(run[1..], t);
    }
  }

  lemma StepGrants(w: World, env: Env, step: Step, now: nat)
    ensures var v := Advance(w, env, step, now);
            v.h.clock == now && v.h.grants == w.h.grants + Grants(w.s, step, now)
            && forall i :: 0 <= i < |Grants(w.s, step, now)| ==> Grants(w.s, step, now)[i].at == now
  {
    hide Next, Grants, Advance;
    GrantsAdded(w, env, step, now);
    if Grants(w.s, step, now) != [] {
      GrantingStep(w, env, step, now);
    }
  }

  /** Later events grant later. */
  lemma {:induction false} LaterGrants(w: World, env: Env, run: seq<Event>, t: nat)
    requires Possible(w, env, run) && (run != [] ==> run[0].now > t)
    ensures var gs := Run(w, env, run).h.grants;
            |w.h.grants| <= |gs| && gs[..|w.h.grants|] == w.h.grants
            && forall i :: |w.h.grants| <= i < |gs| ==> gs[i].at > t
    decreases run
  {
    if run != [] {
      var e := run[0];
      var v := Advance(w, env, e.step, e.now);
      StepGrants(w, env, e.step, e.now);
      assert run[1..] != [] ==> run[1..][0].now > t;
      hide Advance, Grants;
      LaterGrants(v, env, run[1..], t);
      var gs := Run(w, env, run).h.grants;
      assert gs == Run(v, env, run[1..]).h.grants;
      assert gs[..|w.h.grants|] == gs[..|v.h.grants|][..|w.h.grants|];
      forall i | |w.h.grants| <= i < |gs| ensures gs[i].at > t {
        assert i < |v.h.grants| ==> gs[i] == gs[..|v.h.grants|][i];
      }
    }
  }

  /** At any time the grants are those of the whole run made by then. */
  lemma GrantsAt(env: Env, run: seq<Event>, t: nat)
    requires Possible(EMPTY, env, run)
    ensures Possible(EMPTY, env, UpTo(run, t)) && WorldAt(env, run, t).h.clock <= t
    ensures var all, gs := Run(EMPTY, env, run).h.grants, WorldAt(env, run, t).h.grants;
            |gs| <= |all| && gs == all[..|gs|] && (forall i :: |gs| <= i < |all| ==> all[i].at > t)
            && forall i :: 0 <= i < |gs| ==> gs[i].at <= t && gs[i].user in WorldAt(env, run, t).s.users
  {
    var rest := UpToIsPrefix(run, t);
    Joined(EMPTY, env, UpTo(run, t), rest);
    UpToIsEarly(run, t);
    ClockUpTo(EMPTY, env, UpTo(run, t), t);
    var x := WorldAt(env, run, t);
    LaterGrants(x, env, rest, t);
    EmptyIsSound();
    EmptyGrants();
    GrantRun(EMPTY, env, UpTo(run, t));
    hide Run, Possible, UpTo, Sound;
    forall i | 0 <= i < |x.h.grants|
      ensures x.h.grants[i].at <= t && x.h.grants[i].user in x.s.users
    {
      assert Paid(x, x.h.grants[i]);
    }
  }

  lemma {:induction false} LatestOf(gs: seq<Granted>, u: UserId, i: nat) returns (j: nat)
    requires i < |gs| && gs[i].user == u
    ensures i <= j < |gs| && gs[j].user == u && LastGrant(gs, u) == Some(gs[j])
    ensures forall k :: j < k < |gs| ==> gs[k].user != u
  {
    j := |gs| - 1;
    if gs[j].user != u {
      j := LatestOf(gs[..j], u, i);
    }
  }

  /** Within a bought interval the plan in force is that of the latest purchase made by then. */
  lemma PlanAtIs(env: Env, run: seq<Event>, i: nat, t: nat) returns (j: nat)
    requires Possible(EMPTY, env, run)
    requires var gs := Run(EMPTY, env, run).h.grants; i < |gs| && gs[i].from <= t < gs[i].to
    ensures var gs := Run(EMPTY, env, run).h.grants;
            var u := gs[i].user;
            i <= j < |gs| && gs[j].user == u && gs[j].at <= t
            && (forall k :: j < k < |gs| && gs[k].user == u ==> gs[k].at > t)
            && PlanAt(env, run, u, t) == Some(gs[j].plan)
  {
    var all, x := Run(EMPTY, env, run).h.grants, WorldAt(env, run, t);
    var u := all[i].user;
    BoughtBefore(env, run, i);
    GrantsAt(env, run, t);
    hide Possible, Run, UpTo, ActivePlan, SucceededPayments, PaymentsOf, GrantsOf;
    assert i < |x.h.grants| && x.h.grants[i] == all[i];
    PlanTimeIsWhatWasPaidFor(env, UpTo(run, t), u, t);
    assert Covers(x.h.grants, u, t);
    j := LatestOf(x.h.grants, u, i);
    assert all[j] == x.h.grants[j];
    forall k | j < k < |x.h.grants| ensures all[k].user != u {
      assert all[k] == x.h.grants[k];
    }
  }

  lemma BoughtBefore(env: Env, run: seq<Event>, i: nat)
    requires Possible(EMPTY, env, run) && i < |Run(EMPTY, env, run).h.grants|
    ensures var g := Run(EMPTY, env, run).h.grants[i]; g.at <= g.from < g.to
  {
    EmptyIsSound();
    EmptyGrants();
    GrantRun(EMPTY, env, run);
    hide Run, Possible, Sound;
    LengthOf(Run(EMPTY, env, run).h.grants, i);
  }

  /** Purchase j is the account's latest at some moment of the interval that purchase i bought: it is made before
      the interval ends, and no other follows it before the interval begins or at the same time. */
  predicate Decides(gs: seq<Granted>, i: nat, j: nat)
    requires i < |gs| && j < |gs|
  {
    gs[j].user == gs[i].user && gs[j].at < gs[i].to
    && forall k :: j < k < |gs| && gs[k].user == gs[i].user ==> gs[k].at > Max(gs[i].from, gs[j].at)
  }

  /** Over any run, a bought interval is from its beginning to its end in force as the plan paid for exactly when
      no purchase that decides for some moment of it is for another plan. */
  lemma BoughtPlanIsInForceIff(env: Env, run: seq<Event>, i: nat)
    requires Possible(EMPTY, env, run) && i < |Run(EMPTY, env, run).h.grants|
    ensures var gs := Run(EMPTY, env, run).h.grants;
            (forall t: nat :: gs[i].from <= t < gs[i].to ==> PlanAt(env, run, gs[i].user, t) == Some(gs[i].plan))
            <==> (forall j :: i <= j < |gs| && Decides(gs, i, j) ==> gs[j].plan == gs[i].plan)
  {
    hide Possible, Run, PlanAt;
    var gs := Run(EMPTY, env, run).h.grants;
    var u, from, to, plan := gs[i].user, gs[i].from, gs[i].to, gs[i].plan;
    BoughtBefore(env, run, i);
    if forall j :: i <= j < |gs| && Decides(gs, i, j) ==> gs[j].plan == plan {
      forall t: nat | from <= t < to ensures PlanAt(env, run, u, t) == Some(plan) {
        var j := PlanAtIs(env, run, i, t);
        assert Decides(gs, i, j);
      }
    }
    if forall t: nat :: from <= t < to ==> PlanAt(env, run, u, t) == Some(plan) {
      forall j | i <= j < |gs| && Decides(gs, i, j) ensures gs[j].plan == plan {
        var k := PlanAtIs(env, run, i, Max(from, gs[j].at));
        assert k == j;
      }
    }
  }

  /** When an interval begins at its purchase and no two purchases are made at the same time, those are all
      purchases the account makes before the interval ends. */
  lemma EveryPurchaseDecides(gs: seq<Granted>, i: nat)
    requires i < |gs| && gs[i].from == gs[i].at
    requires forall j, k :: i <= j < k < |gs| ==> gs[j].at < gs[k].at
    ensures forall j :: i <= j < |gs| ==> (Decides(gs, i, j) <==> gs[j].user == gs[i].user && gs[j].at < gs[i].to)
  {
  }
}
