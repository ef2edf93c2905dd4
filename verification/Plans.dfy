/** Plan constants and what an account may use at a given time. */
module Plans {
  import opened Wrappers
  import opened Tables

  const PLAN_WIRE_AMOUNT: int := 1_000
  const PLAN_DURATION_MS: nat := 30 * 24 * 60 * 60 * 1_000
  const FREE_TOTAL_REQUESTS: nat := 500
  const FREE_RATE_LIMIT_PER_MINUTE: nat := 30

  function MonthlyRequests(p: PaidPlan): nat {
    match p
    case Starter => 10_000
    case Essentials => 100_000
    case Pro => 500_000
  }

  function RequestsPerMinute(p: PaidPlan): nat {
    match p
    case Starter => 100
    case Essentials => 500
    case Pro => 2_000
  }

  function ActivePlan(u: User, now: nat): Option<PaidPlan> {
    if u.plan.Some? && u.planExpiresAt.Some? && u.planExpiresAt.value > now then u.plan else None
  }

  function FreeRequestsRemaining(u: User): nat {
    if u.freeTierActivatedAt.None? then 0
    else Max(0, FREE_TOTAL_REQUESTS - u.freeRequestsUsed.GetOr(0))
  }

  predicate HasKeyAccess(u: User, now: nat) {
    ActivePlan(u, now).Some? || FreeRequestsRemaining(u) > 0
  }
}
