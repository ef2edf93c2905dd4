# A verified model of the metering platform

The platform sells metered access to a geocoding and routing API. Convex mutations authorize, meter and bill
requests; a Python API process caches credentials, limits rates locally, records usage in batches and talks to
ArcGIS layers. This project models both sides and proves what they promise over whole runs.

- **Metering and billing.** `Tables`, `Calendar` and `Plans` hold the data. `Gateway`, `Payments`, `Keys` and `Usage`
  say what each mutation does to the tables. `Convex` is the database as a class: its methods work step by step, as
  the mutations do, and are proved equal to those functions. `Machine` makes every mutation, pruning included, a step
  with a non-decreasing clock and a history, and `QuotaLedger`, `PaymentLedger`, `PlansInForce`, `Settlement`,
  `Reconciliation`, `Credentials`, `Readmission`, `Ownership`, `Revocation`, `KeyLimits`, `Retention`, `RollupLedger`,
  `Intake`, `RateLedger`, `ChargeRates` and `DemoHour` prove what every run keeps, and where it does not. `Decisions`
  gives the gateway's answer from the history and the rows of the key and its owner, without any counter. `UsageQueries`, `EndpointUsage` and `Dashboard` tie the
  dashboard's numbers to it, and `CivilCalendar` its months to the Gregorian calendar.
- **The upstream client.** `Pagination`, `Breaker`, `Retry`, `Upstream` and `Tokens`. Each critical section of the breaker and of
  the token provider is a step of its own, so requests interleave at the awaits. What a server answers is arbitrary.
- **Bounded structures.** `OrderedDict` with `RateLimiter`, `FailureLimiter` and `TtlCache` (both caches), `BucketLoop` and
  `LoopMirror`, and `Recorder`, each against an unbounded and simpler description.
- **Search clauses.** `Where` prints them, `SqlReader` reads SQL (ISO/IEC 9075-2, sections 5.3 and 8.5, with three truth
  values), and `WhereMeaning` proves that what is read back means what the search meant.
- **Geometry over the reals.** `Centroid` and `Geodesy`.

Where the code and its comments disagree, the model follows the code:

- Pruning deletes windows older than five minutes, which includes live one-hour windows (`apps/convex/convex/maintenance.ts:16`).
  `DemoHour.PruningForgetsTheHour` is such a run, `RateLedger.SafeDurations` the exact bound; everything said of
  windows and pruning is about windows within it.
- Completeness of a paginated query rests on the transfer-limit flag (`apps/api/app/services/arcgis/client.py:336`): a page
  cut short without it ends the query early. `Pagination.CompleteIffFlagged` is exact.
- `TERMINAL_STATUSES` is described as statuses that cannot turn back into ok (`apps/api/app/api/deps.py:113`). A
  credential answered revoked only because its owner is locked works again once the account is enabled;
  `Readmission.RevokedComesBackIff` is the exact condition and `Readmission.LockedOwnerHoldsALiveKey` a run that ends in
  ok. Of the third such status, invalid, `Readmission.InvalidComesBackIff` says when it can.
- Buying a plan during another one replaces it at once (`apps/convex/convex/payments.ts:111-112`), although the time already
  bought was for the other; `PlansInForce.PurchaseKeepsThePlanIff` and `PlansInForce.BoughtPlanIsInForceIff` are exact.
- The reconcile loop reads the newest hundred pending payments (`apps/convex/convex/payments.ts:87-94`), so behind a
  hundred that stay open an older one is not looked at; `Reconciliation.ReconciledIff` is exact.
- The failure limiter forgets clients when it is full (`apps/api/app/core/abuse.py:38-39`); `FailureLimiter.BlocksExactlyIff` says
  exactly for whom that matters.
- The in-process limiter is said to mirror the gateway's (`apps/api/app/core/abuse.py:86`). `RateLimiter.AgreesIffRoomy` says
  exactly when it does for single hits, `LoopMirror.LoopAgreesIffRoomy` for whole requests, and
  `BucketLoop.AgreeOnLimit` when a refusal names the same limit.
- A field named like a reserved word passes the field name check but does not read back
  (`apps/api/app/services/arcgis/client.py:186-189`), nor does a clause without fields or tokens; `WhereMeaning.ParseClause` is exact.
- Closing a ring without area moves its centroid; `Centroid.ClosingMatters` is exact.

Assumptions of the runs: the clock never goes back between steps; a new row's id, key hash, token hash and intent have not
been used before; the platform's configuration does not change during a run; a request of the breaker and a batch
send end, if they end, in one of the outcomes the code handles. What is said of credentials that come back is said of
configured limits that are positive, as the source makes them.

## Model

| member | source | states |
|---|---|---|
| Convex.Database.HitWindow | apps/convex/convex/gateway.ts:43-68 | one hit adds its cost to the window row of (bucket, start), refused or not, changes no other row, and answers the limit, what is left, the reset second and whether the new count fits |
| Convex.Database.CheckQuotas | apps/convex/convex/gateway.ts:159-176 | the first pass reads every counter and touches none |
| Convex.Database.ChargeQuotas | apps/convex/convex/gateway.ts:181-191 | the second pass adds exactly one unit to each of the listed, different, rows |
| Convex.Database.ConsumeCustomerQuotas | apps/convex/convex/gateway.ts:132-193 | the two passes amount to the all-or-nothing charge of the five quotas that the whole-run results are about |
| Convex.Database.LookupKey | apps/convex/convex/gateway.ts:277-280 | a unique-index read: found, absent, or failing on two rows |
| Convex.Database.ScreenCredential | apps/convex/convex/gateway.ts:253-311 | which key a credential presents, or with which status it is rejected, in the order of the checks |
| Convex.Database.HitBuckets | apps/convex/convex/gateway.ts:372-374 | all buckets are hit in order, also after a refusal |
| Convex.Database.Authorize | apps/convex/convex/gateway.ts:242-417 | the whole mutation equals the table function Gateway.Authorize: answer and every table |
| Convex.Database.AuthorizeDemo | apps/convex/convex/gateway.ts:73-111 | the anonymous demo hits four buckets and changes only window rows |
| Gateway.FindKey | apps/convex/convex/gateway.ts:277-280 | a found key is stored and carries the hash |
| Decisions.AnswerIs | apps/convex/convex/gateway.ts:242-417 | in every reachable state the answer to a request that presents a key is the one expected from the rows of the key and its owner and from the history: revoked, expired, payment required, endpoint not allowed; then rate limited exactly when a bucket it is counted in has as many hits this minute as its limit; then quota exceeded exactly when a quota is used up by requests charged before; ok otherwise |
| Decisions.UnknownAnswerIs | apps/convex/convex/gateway.ts:257-284 | a request that presents no key is answered invalid, or expired while its token is stored, and changes nothing |
| Decisions.StrayTokens | apps/convex/convex/gateway.ts:270-274 | in any state, a token that does not belong to its key's account is answered invalid |
| Decisions.AnswerNames | apps/convex/convex/gateway.ts:324-417 | in every reachable state an answer names the key, its account and how it was reached, the endpoints the key may call when it refuses one, and one of the limits: that of the first bucket that refuses, or the first with the fewest requests left, with what is left and the end of the minute |
| Decisions.CustomersAllowedIff | apps/convex/convex/gateway.ts:323-374 | in every reachable state a customer passes its four buckets exactly when each has fewer hits in the minute than its limit: 100, 500 or 2000 by plan, 30 on the free tier, the configured ones for routes and for all customers |
| Decisions.SiteAllowedIff | apps/convex/convex/gateway.ts:347-374 | the same for website traffic: per visitor, per key and per visitor's routes |
| Decisions.QuotaIff | apps/convex/convex/gateway.ts:148-193 | the five-counter check is passed exactly while the requests charged are fewer than the quota: the plan's month for paid traffic, and the five configured ones, none above 500, for free traffic |
| Decisions.RefusedQuota | apps/convex/convex/gateway.ts:159-180 | a refusal for quota names the first quota used up, with nothing left and the end of its day or month |
| ChargeRates.AccountsArePaced | apps/convex/convex/gateway.ts:323-386 | over any run an account is charged for at most 2000 requests in a minute window, over all its keys, and at most 30 free ones, and for at most twice as many in any sixty seconds |
| DemoHour.DemoIs | apps/convex/convex/gateway.ts:73-111 | a demo request costs between one and a hundred, is served exactly when its cost fits the visitor's minute, hour and endpoint and the demo as a whole, and is counted in all four either way |
| Convex.Database.ActivateFreeTier | apps/convex/convex/payments.ts:42-51 | sets the activation time once and the used count to zero only then |
| Settlement.ActivationIsOnce | apps/convex/convex/payments.ts:42-51 | only an unlocked account that is not the system's and has not activated before gets the allowance of 500; nothing else changes |
| Convex.Database.LookupPayment | apps/convex/convex/payments.ts:79-85 | a unique-index read of the payment row of an intent |
| Convex.Database.RecordPending | apps/convex/convex/payments.ts:63-77 | an intent already recorded gets no second row, and an error for another account or plan; a new one starts pending |
| Settlement.CheckoutIsRecorded | apps/convex/convex/payments.ts:63-77 | in every reachable state the answer is the row of the intent, for that account and plan, or a conflict exactly when the intent has a row for another; only a new intent adds a row, pending and unpaid |
| Convex.Database.Settle | apps/convex/convex/payments.ts:97-116 | only a pending row of the very amount and currency settles: failure marks it, success grants 30 days from now or from the end of the running plan; everything else changes nothing |
| Settlement.RefusalInRun | apps/convex/convex/payments.ts:97-107 | in every reachable state an answer that reports a pending payment as failed, canceled or expired, with its amount and currency, makes exactly its row failed and changes nothing else |
| Settlement.RefusedIsNeverGranted | apps/convex/convex/payments.ts:97-116 | over any run, a payment so reported while pending stays failed and is never granted |
| Settlement.SettlesIff | apps/convex/convex/payments.ts:97-116 | a settlement answers true exactly when the status of a row has changed, and otherwise changes nothing |
| Settlement.OtherAnswersChangeNothing | apps/convex/convex/payments.ts:126-135 | an answer about another intent, amount or currency, a settled row or a payment still open changes nothing |
| Settlement.FailedIffChecked | apps/convex/convex/payments.ts:209-218 | of pending payments reported as failed, a run of checks fails exactly those whose intents it looks at |
| Convex.Database.CheckIntent | apps/convex/convex/payments.ts:126-135 | asks the provider and settles by its answer, or leaves a still open intent alone |
| Convex.Database.ReconcilePending | apps/convex/convex/payments.ts:209-218 | the newest hundred pending payments, or all there are, are checked in turn, and one the provider cannot answer for does not stop the rest |
| Convex.Database.PendingRows | apps/convex/convex/payments.ts:87-94 | the index read: pending rows only, none twice, no newer one left out, and all of them when there are fewer than a hundred |
| Reconciliation.SettledIffChecked | apps/convex/convex/payments.ts:209-218 | of pending payments the provider confirms, a run of checks settles exactly those whose intents it looks at, whatever the other answers are |
| Reconciliation.ReconciledIff | apps/convex/convex/payments.ts:87-94 | in every reachable state: a confirmed pending payment, no other being as old to the millisecond, is settled by a reconcile run exactly when fewer than a hundred newer ones are pending |
| Convex.Database.InsertKey | apps/convex/convex/apiKeys.ts:105-135 | a new key row for an account with access and below both limits on keys, or an error and no change |
| Convex.Database.Revoke | apps/convex/convex/apiKeys.ts:205-217 | an owned key gets a revocation time unless it has one, and loses its playground tokens |
| Convex.Database.RevokeKey | apps/convex/convex/admin.ts:47-60 | the same from administration, without the ownership check |
| Convex.Database.ReplaceSecret | apps/convex/convex/apiKeys.ts:219-237 | the hash of a live owned key is replaced and its playground tokens are deleted |
| Ownership.MadeForOneself | apps/convex/convex/apiKeys.ts:105-276 | a step an account makes, a new key, token or secret or a revocation, leaves every key of every other account, and every token for such a key, as it was |
| Ownership.SecretsAreTheOwners | apps/convex/convex/apiKeys.ts:219-237 | over any run, the secret of a key changes only in a replacement asked for by its owner |
| Ownership.HashChange | apps/convex/convex/apiKeys.ts:219-237 | a step changes the secret of a key only when its owner asks and has access |
| Revocation.ReplacedSecretIsDead | apps/convex/convex/apiKeys.ts:219-237 | when the secret of a live key is replaced, the new one presents the key, and the old one and all tokens made with it are never answered ok again |
| Revocation.RevocationIsForGood | apps/convex/convex/apiKeys.ts:205-217 | a key revoked by its owner, by the operator or by locking the account, and every token for it, is never answered ok again, whatever follows |
| Revocation.OnlyThatKey | apps/convex/convex/apiKeys.ts:205-217 | revoking a key touches no other key and no token of another |
| Revocation.OnlyThatAccount | apps/convex/convex/admin.ts:62-81 | locking an account touches no other account and no key of one |
| Revocation.OnlyItsTokens | apps/convex/convex/admin.ts:62-81 | and no token for a key of another account |
| KeyLimits.LimitsHold | apps/convex/convex/apiKeys.ts:105-135 | in every reachable state an account has at most 200 keys of its own, at most 25 of them live, a key has at most five playground tokens, an account has at most one live website key, and the system account is neither locked nor on the free tier |
| KeyLimits.KeyIsMade | apps/convex/convex/apiKeys.ts:105-135 | exactly an account with access and below both limits gets the key it asks for, with the endpoints and expiry asked for |
| KeyLimits.TokenIsMade | apps/convex/convex/apiKeys.ts:259-276 | exactly an account with access gets its token, and only oldest ones give way |
| KeyLimits.NewestTokensStay | apps/convex/convex/apiKeys.ts:266-274 | a token is not dropped for a new one while fewer than four others of its key live as long |
| Convex.Database.DeletePlaygroundTokens | apps/convex/convex/apiKeys.ts:196-202 | all tokens of the key go and no others |
| Convex.Database.InsertPlaygroundToken | apps/convex/convex/apiKeys.ts:259-276 | the newest four tokens of the key stay and the new one is added |
| Convex.Database.LockUser | apps/convex/convex/admin.ts:62-81 | locks the account unless it is the system's, revokes its live keys and deletes the tokens of all of them |
| Convex.Database.EnableUser | apps/convex/convex/admin.ts:99-111 | unlocks the account and nothing else |
| Convex.Database.CollectBatch | apps/convex/convex/gateway.ts:463-507 | raw rows of the plausible records, with their rollups and last-used times summed on the side equal to a scan of them |
| Convex.Database.MergeRollups | apps/convex/convex/gateway.ts:508-525 | every cell of the batch is added to the stored cell, or inserted |
| Convex.Database.TouchLastUsed | apps/convex/convex/gateway.ts:526-529 | a key's last-used time only moves forward |
| Convex.Database.RecordUsage | apps/convex/convex/gateway.ts:455-532 | a batch equals adding its plausible records, among the first 200, to rows, rollups and keys |
| Intake.OneIsStored | apps/convex/convex/gateway.ts:463-487 | a record is stored exactly when it is of an existing key and its owner, for one of the two endpoints, with a whole status from 100 to 599, made in the last day or the next five minutes; as itself, but with no time from the future and whole milliseconds |
| Intake.BatchIsStored | apps/convex/convex/gateway.ts:463-487 | a batch is stored record by record, in order |
| Intake.HistoryIsProper | apps/convex/convex/gateway.ts:463-529 | in every reachable state all stored records could have been made, and a key's last use is the latest time any record of it ever had |
| Usage.DayHolds | apps/convex/convex/gateway.ts:490-490 | a record's day is d exactly when its time lies in the 24 hours of day d |
| Usage.SameDay | apps/convex/convex/lib/time.ts:6-8 | records and queries count days alike |
| Usage.ResponseTimeIsNearest | apps/convex/convex/gateway.ts:475-477 | response times are rounded to the nearest millisecond, halves up, between nothing and ten minutes |
| Convex.BatchIsAdded | apps/convex/convex/gateway.ts:508-525 | merging the rollups of a batch is the same as adding its records one by one to the stored rollups |
| Convex.Database.RecordChunks | apps/convex/convex/http.ts:179-185 | the chunk loop stores consecutive slices of 200, each with a clock reading of its own, and adds up what was written |
| Convex.Database.HandleUsage | apps/convex/convex/http.ts:166-188 | more than 1000 entries are refused; malformed ones are dropped and counted; the rest goes chunk by chunk |
| Convex.WellFormedIs | apps/convex/convex/http.ts:176-178 | malformed records are dropped and the others kept, in order |
| Convex.Database.Prune | apps/convex/convex/maintenance.ts:10-65 | deletes at most the thousand oldest expired rows of each table, only expired ones, and asks for another run exactly when one of them, the audit table included, gave a full batch, and otherwise left nothing expired |
| Retention.PruneLeaves | apps/convex/convex/maintenance.ts:10-46 | unless a batch is full, exactly the windows of the last five minutes, the tokens not expired, the raw rows within the retention period and the quota periods of the last 400 days are left, and nothing else is touched |
| Retention.FullBatch | apps/convex/convex/maintenance.ts:10-46 | a batch is of at most a thousand expired rows, and no expired row that is left is older than one deleted |
| Retention.LiveCredentialsStay | apps/convex/convex/maintenance.ts:20-24 | pruning changes the check of no key and of no token that has not expired |
| Retention.ExpiredTokensAreForgotten | apps/convex/convex/maintenance.ts:20-24 | an expired token is answered expired until it is pruned, and invalid from then on |
| Calendar.MonthStartBounds | apps/convex/convex/lib/time.ts:10-12 | a month start is at most the day start, which is at most the time; the next month starts within 31 days and after the day |
| Calendar.MonthStartIff | apps/convex/convex/lib/time.ts:10-12 | two times have the same month start exactly when the second's day lies in the month of the first; month starts never decrease |
| CivilCalendar.MonthsAreGregorian | apps/convex/convex/lib/time.ts:10-12 | the month of any time begins on the first of a month of the Gregorian calendar, by its closed formula, and ends where the next one begins |
| CivilCalendar.Landmarks | apps/convex/convex/lib/time.ts:10-12 | dates that tell its rules apart: 2000 and 2024 are leap years, 2100 is not, and 1970 begins on day zero |
| Tables.NamesAreInjective | apps/convex/convex/gateway.ts:148-158 | two quota counters never share a stored bucket name |
| Machine.SoundRun | apps/convex/convex/gateway.ts:242-417 | every run of any steps keeps the tables consistent: unique hashes and intents, tokens of existing keys |
| Machine.Frame | apps/convex/convex/admin.ts:47-111 | each kind of step touches only the tables of its own kind |
| Machine.FindKeyIsUnique | apps/convex/convex/gateway.ts:277-280 | in reachable states the unique-index read of a key never fails and finds exactly the key with that hash |
| Machine.FindPaymentIsUnique | apps/convex/convex/payments.ts:79-85 | each intent has at most one payment row, and the read finds exactly it |
| Machine.AuthorizeFrame | apps/convex/convex/gateway.ts:242-417 | authorization changes counters and nothing else |
| Machine.OwnersAreKept | apps/convex/convex/apiKeys.ts:105-276 | no step moves a key to another account or forgets one |
| QuotaLedger.LedgerIsKept | apps/convex/convex/gateway.ts:132-193 | every step, pruning included, keeps each retained counter equal to the number of accepted requests charged to it |
| QuotaLedger.LedgerRun | apps/convex/convex/maintenance.ts:34-38 | over every run, pruning anywhere |
| QuotaLedger.KeysAddUp | apps/convex/convex/gateway.ts:132-193 | an account's month counter equals the sum over its keys' month counters |
| QuotaLedger.EndpointsAddUp | apps/convex/convex/gateway.ts:132-193 | and the sum over the endpoint labels |
| QuotaLedger.DaysAddUp | apps/convex/convex/gateway.ts:132-193 | and the sum over the days of the month |
| QuotaLedger.CountersAddUpInRun | apps/convex/convex/gateway.ts:132-193 | in every reachable state all three sums equal the month counter, which is the number of requests charged that month |
| QuotaLedger.FiveAreBounded | apps/convex/convex/gateway.ts:148-170 | each of the five counters is at most the account's month counter |
| QuotaLedger.PaidRefusal | apps/convex/convex/gateway.ts:159-193 | a paid request is refused exactly when the account's month counter has reached the plan quota, and a refusal changes no counter |
| QuotaLedger.PaidRefusalInRun | apps/convex/convex/gateway.ts:159-193 | in every reachable state: refused exactly when as many paid requests were accepted this month as the plan allows |
| QuotaLedger.FreeAllowanceIsForLife | apps/convex/convex/gateway.ts:397-404 | over any run an account gets at most 500 free requests answered ok, and freeRequestsUsed is their number |
| QuotaLedger.FreeFits | apps/convex/convex/gateway.ts:132-193 | with configured quotas of at least 500, free traffic with allowance left passes all five counters |
| QuotaLedger.WhyQuotaExceeded | apps/convex/convex/gateway.ts:387-396 | quota_exceeded comes only from the five-counter check of traffic with access |
| QuotaLedger.FreeIsNeverQuotaExceeded | apps/convex/convex/gateway.ts:313-323 | so in every reachable state it is only ever answered to paid traffic |
| PaymentLedger.GrantLedgerIsKept | apps/convex/convex/payments.ts:97-116 | every step keeps the list of grants in step with payments and plan ends |
| PaymentLedger.SettledIsKept | apps/convex/convex/payments.ts:97-116 | no step changes a settled payment |
| PaymentLedger.SettledForever | apps/convex/convex/payments.ts:97-116 | succeeded and failed are absorbing over any run of webhooks, refreshes, reconciliations and checkouts |
| PaymentLedger.GrantsAreDisjoint | apps/convex/convex/payments.ts:97-116 | two intervals granted to one account never overlap and are 30 days long |
| PaymentLedger.NoGapAhead | apps/convex/convex/payments.ts:97-116 | bought time has no gap between the present and its end |
| PaymentLedger.PlanTimeIsWhatWasPaidFor | apps/convex/convex/lib/plans.ts:16-18 | over any run: as many grants as succeeded payments, one each, disjoint, 30 days; a plan is active exactly when one covers the moment, and it is the plan of the latest purchase |
| PlansInForce.PurchaseKeepsThePlanIff | apps/convex/convex/payments.ts:111-112 | a purchase leaves the plan in force, now and as long as it would have been, exactly when there is none or it is for the same plan |
| PlansInForce.PlanAtIs | apps/convex/convex/payments.ts:97-116 | over any run, at any moment of a bought interval the plan in force is that of the latest purchase made by then |
| PlansInForce.BoughtPlanIsInForceIff | apps/convex/convex/payments.ts:97-116 | over any run, a bought interval is from beginning to end in force as the plan paid for exactly when no purchase that is the latest at some moment of it is for another plan |
| PlansInForce.EveryPurchaseDecides | apps/convex/convex/payments.ts:97-116 | when the interval begins at its purchase and no two are made at the same time, those are all purchases of the account before the interval ends |
| PaymentLedger.BuyingReplacesThePlan | apps/convex/convex/payments.ts:111-112 | a reachable run in which it is not: Starter bought on top of Pro takes effect at once, with the whole Pro interval ahead |
| Credentials.FinalIsForever | apps/api/app/api/deps.py:113-114 | after an answer expired, or revoked because the key is, no run makes the credential answer ok again |
| Credentials.EnablingRevives | apps/convex/convex/admin.ts:99-111 | when only the owner is locked, unlocking it at once makes the answer none of invalid, expired and revoked |
| Readmission.UnlockedIsOk | apps/convex/convex/admin.ts:99-111 | unlocking makes a live key answered ok at every later time at which nothing but the lock stood in its way: its endpoint, a minute without counts, and access and quota of the account |
| Credentials.RevokedIsFinalIff | apps/api/app/api/deps.py:113-114 | after a revoked answer all later answers are invalid, expired or revoked exactly when the key itself is revoked |
| Readmission.RevokedComesBackIff | apps/api/app/api/deps.py:113-114 | in every reachable state: a revoked credential that lives until some time a minute or more ahead, in whose month the account is within the largest plan, can be answered ok again exactly when its key is not revoked itself and has an endpoint |
| Readmission.AMonthIsEnough | apps/convex/convex/gateway.ts:148-170 | in a month that has not begun an account is within every plan, so a credential with a month to live has such a time |
| Readmission.LockedOwnerHoldsALiveKey | apps/convex/convex/admin.ts:62-81 | from every reachable state a run leads there: an account is locked and then given a key for geocoding, which is answered revoked without being so, and ok a minute after the account is unlocked |
| Credentials.InvalidIsFinalIff | apps/api/app/api/deps.py:113-114 | after an invalid answer all later answers are invalid, expired or revoked exactly when its hash was issued once, as a secret replaced or a token deleted since |
| Readmission.InvalidComesBackIff | apps/api/app/api/deps.py:113-114 | in every reachable state: an invalid credential, key or playground token, can be answered ok later exactly when its hash was never issued |
| RollupLedger.RollupsAreKept | apps/convex/convex/gateway.ts:455-532 | every step keeps the rollups equal to the fold of all accepted records |
| RollupLedger.RollupsAreTheHistory | apps/convex/convex/gateway.ts:455-532 | in every reachable state each rollup row is the scan of the history for its key, endpoint and day; it exists exactly when there is a record; total is successes plus failures |
| RollupLedger.RawRowsAreKept | apps/convex/convex/maintenance.ts:26-30 | every step keeps it: raw rows are the accepted records, missing only past the retention period |
| RollupLedger.RawRowsAreTheRecentHistory | apps/convex/convex/maintenance.ts:26-30 | in every reachable state each raw row is the accepted record of its number, and every record accepted within the retention period has its row |
| RollupLedger.CellsAddUp | apps/convex/convex/usage.ts:25-37 | the rows of a set of cells add up to a direct scan of the records in them |
| RollupLedger.DayTotals | apps/convex/convex/usage.ts:75-100 | the rows of an account, or one of its keys, for a day add up to a scan of its records that day |
| RollupLedger.TotalsFrom | apps/convex/convex/usage.ts:25-37 | the same from a day on |
| RateLedger.SweepsChangeNoDecision | apps/convex/convex/maintenance.ts:14-18 | interposing prune anywhere in a run of hits changes no answer of a window of at most five minutes and a millisecond |
| RateLedger.SafeDurations | apps/convex/convex/maintenance.ts:14-18 | over all runs of hits and sweeps: sweeps change no decision of a window of the given duration if and only if it is at most five minutes and a millisecond |
| RateLedger.LongWindowsAreForgotten | apps/convex/convex/maintenance.ts:14-18 | for every longer duration a run in which a sweep admits a hit that is refused without it |
| RateLedger.HourWindowIsForgotten | apps/convex/convex/maintenance.ts:14-18 | the hourly demo bucket is among the longer ones, so sweeps are not harmless to it: a list of hits on it in which a sweep admits the second |
| DemoHour.PruningForgetsTheHour | apps/convex/convex/maintenance.ts:14-18 | a run of the platform from empty tables: a demo visitor allowed once an hour is refused a second request within the hour, but served it when pruning runs in between |
| RateLedger.WindowAdmits | apps/convex/convex/gateway.ts:43-68 | what one minute window admits, with what was counted before, stays within the limit |
| RateLedger.LimitAdmits | apps/convex/convex/gateway.ts:43-68 | a fixed limit admits at most itself per minute window and at most twice itself in any sixty seconds |
| RateLedger.HitsAreDecisions | apps/convex/convex/gateway.ts:372-375 | the states combined into an answer are the decisions on those hits |
| RateLedger.StepRows | apps/convex/convex/gateway.ts:372-386 | every step changes the window table by hits and sweeps made at its own time only |
| RateLedger.RunRows | apps/convex/convex/gateway.ts:372-386 | the window table of any run is that of its hits and sweeps |
| RateLedger.LimitAdmitsInRun | apps/convex/convex/gateway.ts:372-386 | the admission bounds over any run of the platform |
| UsageQueries.Daily | apps/convex/convex/usage.ts:75-100 | one row per day for the span, oldest first, each the column sums of the stored rows of that day |
| UsageQueries.Summary | apps/convex/convex/usage.ts:16-37 | today's and this month's column sums in one loop |
| UsageQueries.QueriesShowTheHistory | apps/convex/convex/usage.ts:16-100 | in every reachable state these sums are direct scans of the history |
| Dashboard.SummaryShows | apps/convex/convex/usage.ts:16-37 | in every reachable state, today's numbers count the account's records with a time in the 24 hours that hold the present, and the month's those since the first of the month |
| Dashboard.SeriesShows | apps/convex/convex/usage.ts:75-100 | row i of a series counts the records of its own 24 hours, and the last row is today |
| Dashboard.SpanIs | apps/convex/convex/usage.ts:79-79 | a series has as many days as asked for, at least one and at most ninety |
| Dashboard.ScanCounts | apps/convex/convex/gateway.ts:500-504 | a scan counts all records, those with a status below 400 and those with one from 400 on, and adds up their response times |
| UsageQueries.ChunkingLosesNothing | apps/convex/convex/http.ts:178-186 | cutting a request into chunks of 200, each with its own clock reading, never runs into the 200-record limit: the rows and sums are those of all the records accepted |
| UsageQueries.NoChunkIsLost | apps/convex/convex/http.ts:178-186 | whatever other steps run between the chunks of a request, every record that was due is among the accepted ones, as often as it was sent |
| EndpointUsage.Endpoints | apps/convex/convex/usage.ts:103-132 | one row per endpoint with stored rows, with its sums and rounded average, busiest first |
| EndpointUsage.ByEndpoint | apps/convex/convex/usage.ts:111-122 | the loop groups exactly the wanted rows by endpoint |
| EndpointUsage.EndpointsShowTheHistory | apps/convex/convex/usage.ts:103-132 | in every reachable state the sums of an endpoint are a direct scan of the history |
| Dashboard.EndpointShows | apps/convex/convex/usage.ts:103-132 | in every reachable state the row of an endpoint counts the records made to it since the first day began, and its average is their mean response time to the nearest millisecond |
| Pagination.QueryAll | apps/api/app/services/arcgis/client.py:295-338 | the loop equals the function Fetch; for any server it ends within the cap; for an honest one, which may cut any page short if it sets the transfer-limit flag, over a changing layer ids strictly increase and every record present throughout is returned, up to the last id if capped; on a fixed layer exactly its first records |
| Pagination.FailsIffStalled | apps/api/app/services/arcgis/client.py:331-335 | for any server, a query fails exactly when a fetched page ends with no id or with none after the last one before |
| Pagination.AsksForNoMore | apps/api/app/services/arcgis/client.py:317-328 | only requests for at least one record, at most the server's maximum and at most what the cap leaves are made |
| Pagination.CapIs | apps/api/app/services/arcgis/client.py:312-312 | the cap is what the caller asks for, unless that is nothing or more than the client allows |
| Pagination.HonestPage | apps/api/app/services/arcgis/client.py:312-330 | what a page of an honest server is: ordered, after the last id, complete up to its end |
| Pagination.CompleteIffFlagged | apps/api/app/services/arcgis/client.py:331-338 | over a fixed layer, for any server that sends first records of what is left, the result is the layer's first records up to the cap exactly when no fetched page is cut short without the flag |
| Pagination.UnflaggedCutLosesRecords | apps/api/app/services/arcgis/client.py:336-337 | a server that sends one record at a time without the flag is such a server and loses all records of a layer but the first |
| Breaker.CircuitBreaker.Enter | apps/api/app/services/arcgis/client.py:449-459 | admits or not, and opens the half-open probe, as the state function says |
| Breaker.CircuitBreaker.Succeed | apps/api/app/services/arcgis/client.py:461-468 | a success closes the circuit |
| Breaker.CircuitBreaker.Fail | apps/api/app/services/arcgis/client.py:470-483 | a failure counts, and opens at the threshold or when half-open |
| Breaker.ModesMeanWhatTheySay | apps/api/app/services/arcgis/client.py:449-483 | for any interleaving of requests: half-open exactly while the probe flag is set, closed exactly while the failures since the last success are below the threshold |
| Breaker.NeverWedged | apps/api/app/services/arcgis/client.py:485-502 | once every admitted request has ended, a request after the recovery time is admitted |
| Breaker.AdmissionsAreSpaced | apps/api/app/services/arcgis/client.py:449-483 | in a success-free stretch from a tripped circuit, admissions are at least the recovery time apart |
| Breaker.ProbesAreRare | apps/api/app/services/arcgis/client.py:449-483 | at most floor(T / recovery) + 1 of them happen in time T |
| Retry.RequestWithRetries | apps/api/app/services/arcgis/client.py:504-571 | at most max_retries + 2 sends and one renewal, no sleep reaches the deadline, every sleep is as long as the answer before it or the backoff asks, which answers are tried again, and the outcome the last one means |
| Retry.VerdictIsOutcome | apps/api/app/services/arcgis/client.py:517-571 | only a JSON object without an error is a success; timeouts, unavailability, a rejected token with its code and a bad response with its code are each reported for exactly their answers |
| Retry.TransientIs | apps/api/app/services/arcgis/client.py:517-561 | exactly a missing connection, the statuses 429, 502, 503 and 504, and error codes from 500 on are worth another try; exactly 498 and 499 reject the token |
| Retry.DelayIs | apps/api/app/services/arcgis/client.py:562-575 | a Retry-After header is kept within two seconds; otherwise the delays double, apart from what is random |
| Retry.DeadlineIs | apps/api/app/services/arcgis/client.py:510-510 | the deadline leaves each try the time of one |
| Upstream.Request | apps/api/app/services/arcgis/client.py:485-502 | admission, retries and report: the breaker hears of one end for an admitted request, a failure exactly for a timeout or unavailability, and of nothing else; the caller gets what the last answer means |
| Upstream.RequestsAreMatched | apps/api/app/services/arcgis/client.py:485-502 | however requests interleave, every end the breaker hears of belongs to an admitted request, and as many are in flight as are running |
| Upstream.NobodyIsLockedOut | apps/api/app/services/arcgis/client.py:449-502 | so for any interleaving of requests: with none running, one made after the recovery time is let in; half-open only while one runs; closed exactly while the failures since the last success are below the threshold |
| Retry.WhatCounts | apps/api/app/services/arcgis/client.py:485-502 | exactly the transient outcomes, slow timeouts and missing slots count against the circuit |
| Tokens.TokenProvider.Peek | apps/api/app/services/arcgis/auth.py:97-101 | the read before the lock returns the cached token while it is good |
| Tokens.TokenProvider.Token | apps/api/app/services/arcgis/auth.py:102-117 | the locked section as a step of the provider state |
| Tokens.TokenProvider.Invalidate | apps/api/app/services/arcgis/auth.py:119-123 | only the rejected token is dropped |
| Tokens.AttemptHandsOut | apps/api/app/services/arcgis/auth.py:109-117 | an attempt gives its caller the token just issued, which everyone is given until it is due, or the failure, which takes nothing away |
| Tokens.RejectedIsDropped | apps/api/app/services/arcgis/auth.py:119-123 | a rejected token is not given out of the cache again until another is issued |
| Tokens.BackoffEnds | apps/api/app/services/arcgis/auth.py:102-108 | five seconds after a failed attempt the service is asked again |
| Tokens.NextOneAsks | apps/api/app/services/arcgis/auth.py:102-109 | without a good token and outside the backoff the next locked section asks |
| Tokens.SuccessEndsBackoff | apps/api/app/services/arcgis/auth.py:112-117 | after a success the service is asked again exactly when the new token is due |
| Tokens.RenewalIs | apps/api/app/services/arcgis/auth.py:112-114 | of a lifetime of 25 minutes or more the last five are left, of a shorter one the last fifth |
| Tokens.RenewalMargin | apps/api/app/services/arcgis/auth.py:109-114 | renewal is due before expiry, at most five minutes early, and after at least four fifths of the lifetime |
| Tokens.CachedIsUnexpired | apps/api/app/services/arcgis/auth.py:97-117 | over any interleaving a cached token is returned only before its expiry |
| Tokens.NewerTokenStays | apps/api/app/services/arcgis/auth.py:119-123 | rejections of older tokens neither drop the newer one nor cause another request |
| Tokens.OneRenewalForAll | apps/api/app/services/arcgis/client.py:543-549 | requests rejected with the same token cause at most one new token |
| Tokens.NoStampede | apps/api/app/services/arcgis/auth.py:102-108 | nobody asks again during the backoff after a failure |
| Tokens.FailureIsShared | apps/api/app/services/arcgis/auth.py:102-117 | a failed attempt is what everyone waiting is answered until the backoff ends |
| OrderedDict.Membership | apps/api/app/core/abuse.py:94-102 | after puts and evictions exactly the keys with fewer than max others touched since are held |
| RateLimiter.WindowRateLimiter.Hit | apps/api/app/core/abuse.py:94-102 | pop, count, reinsert and evict equal one step of the bounded counts; the answer is the gateway's form |
| RateLimiter.SameWindow | apps/api/app/core/abuse.py:94-102 | windows and resets in seconds and in milliseconds are the same |
| RateLimiter.HoldsTheNewest | apps/api/app/core/abuse.py:94-102 | at most max counts are held, and they are the most recently hit keys |
| RateLimiter.HeldIff | apps/api/app/core/abuse.py:94-102 | a count is held exactly while fewer than max other keys were hit since |
| RateLimiter.AnswersAgree | apps/api/app/core/abuse.py:94-102 | without an eviction of a repeated key, allowed, remaining and reset equal the gateway's |
| RateLimiter.EvictedCountIsForgotten | apps/api/app/core/abuse.py:94-102 | after one, the limiter starts over and its answer differs |
| RateLimiter.AgreesIffRoomy | apps/api/app/core/abuse.py:94-102 | over a whole run it answers as the unbounded table exactly when fewer than max other keys are hit between two hits of a key |
| BucketLoop.Charge | apps/api/app/api/deps.py:290-297 | the loop charges every bucket, allows when all do, and keeps the first state with the fewest left |
| BucketLoop.BindingIs | apps/convex/convex/gateway.ts:113-117 | the gateway's sort picks the first refused state, or the first with the fewest left |
| BucketLoop.AgreeOnAllowedAndRemaining | apps/convex/convex/gateway.ts:113-117 | both agree on allowed and on remaining, the minimum |
| BucketLoop.AgreeOnLimit | apps/api/app/api/deps.py:290-297 | they report the same state exactly when nothing is refused or the first bucket with nothing left is a refused one |
| LoopMirror.LoopAgreesIffRoomy | apps/api/app/core/abuse.py:86-102 | over any run of requests, the loop over the bounded limiter sees the gateway's states, request by request and bucket by bucket, exactly when fewer than max other windows are hit between two hits of one |
| LoopMirror.LoopMirrorsTheGateway | apps/api/app/api/deps.py:290-307 | then its answers are the gateway's: allowed, remaining, and the same state exactly when nothing is refused or the first bucket with nothing left is a refused one |
| LoopMirror.LimitsCanDiffer | apps/api/app/api/deps.py:290-307 | the 60th request for a route of one visitor in a minute, with 60 a minute for visitors and 30 for routes: the loop reports the limit of 60, the gateway that of 30 |
| TtlCache.TTLCache.Get | apps/api/app/services/cache.py:23-34 | an expired entry is deleted, a live one returned and made the newest |
| TtlCache.TTLCache.Set | apps/api/app/services/cache.py:36-42 | put, made the newest, oldest evicted down to the maximum |
| TtlCache.TerminalStatusCache.Get | apps/api/app/core/abuse.py:51-59 | an expired entry is deleted, a live one returned without being refreshed |
| TtlCache.TerminalStatusCache.Put | apps/api/app/core/abuse.py:61-67 | put as the newest, oldest evicted down to the maximum, nothing when disabled |
| TtlCache.NeverOverfull | apps/api/app/services/cache.py:36-42 | no run of either cache holds more than the maximum |
| TtlCache.OnlyTheLatest | apps/api/app/services/cache.py:23-34 | a read returns only the value of the latest set of its key and only within its time to live |
| TtlCache.RecentIsFound | apps/api/app/services/cache.py:23-42 | in either cache an unexpired key with fewer than max other keys touched since its last touch is found |
| FailureLimiter.FailureLimiter.Blocked | apps/api/app/core/abuse.py:27-32 | blocked exactly by the held count of the minute of the first clock reading; the answer is the rest of the minute of the second, between 1 and 60 seconds |
| FailureLimiter.FailureLimiter.RecordFailure | apps/api/app/core/abuse.py:34-39 | counts on in the same minute, starts at one in another, evicts the oldest clients |
| FailureLimiter.NeverBlocksEarly | apps/api/app/core/abuse.py:27-39 | however many clients there are, nobody is blocked with fewer failures in the present minute than the limit |
| FailureLimiter.BlocksExactlyIff | apps/api/app/core/abuse.py:27-39 | a client is blocked exactly from the limit on, for every limit, if and only if fewer than max other clients failed between its failures in the present minute and since the last of them; evictions of other clients and of older minutes do no harm |
| FailureLimiter.EvictionForgives | apps/api/app/core/abuse.py:38-39 | a concrete run in which that condition fails and an evicted client starts over |
| Recorder.UsageRecorder.Record | apps/api/app/services/usage.py:41-44 | the record is added, a full buffer drops its oldest; delivered, in flight and pending stay the recorded sequence with only dropped records missing |
| Recorder.UsageRecorder.TakeBatch | apps/api/app/services/usage.py:74-74 | the first records, at most a batch, leave the buffer in order |
| Recorder.UsageRecorder.SendSucceeded | apps/api/app/services/usage.py:75-81 | the batch becomes delivered |
| Recorder.UsageRecorder.SendFailed | apps/api/app/services/usage.py:77-80 | the buffer is the first max_pending of the batch followed by what arrived meanwhile |
| Recorder.UsageRecorder.ExtendLeft | apps/api/app/services/usage.py:79-79 | pushing the batch back one by one on the left of a bounded deque keeps the first max_pending of batch and buffer |
| Recorder.UsageRecorder.SendBatch | apps/api/app/services/usage.py:74-81 | one round with records arriving during the send: delivered and the rest waits, or put back in front of what waits |
| Recorder.UsageRecorder.Flush | apps/api/app/services/usage.py:69-82 | the whole loop, with records arriving during every send: what is delivered, what is left, how many were written and whether a send failed |
| Recorder.FlushConserves | apps/api/app/services/usage.py:69-82 | while everything fits, what a flush sends and what it leaves are what was pending and what arrived, in order |
| Recorder.FlushEnds | apps/api/app/services/usage.py:69-82 | a flush goes on until nothing is pending unless a send fails; the first that fails ends it and keeps its batch in front |
| Recorder.NothingIsLost | apps/api/app/services/usage.py:69-82 | an increasing selection as long as the recorded sequence is that sequence |
| Recorder.NoOverflowNoLoss | apps/api/app/services/usage.py:41-82 | without an overflow, delivered, in flight and pending are exactly the recorded sequence |
| Where.NormalizedIsItsWords | apps/api/app/services/arcgis/where.py:19-21 | normalized text is the words of the cleaned text joined by single spaces |
| Where.KeptCharacters | apps/api/app/services/arcgis/where.py:15-21 | letters, digits, white space and some punctuation are kept; everything else, and the underscore, becomes a space |
| WhereMeaning.NamesAre | apps/api/app/services/arcgis/client.py:186-189 | a field name is a letter or an underscore followed by letters, digits, underscores and dots |
| WhereMeaning.LiteralRoundTrip | apps/api/app/services/arcgis/where.py:24-25 | reading a rendered literal gives back its value |
| WhereMeaning.UpperIs | apps/api/app/services/arcgis/where.py:28-31 | patterns are upper-cased character by character |
| WhereMeaning.ContainsRenders | apps/api/app/services/arcgis/where.py:42-43 | rendering fails exactly when a token is looked for in an invalid field name, naming the first |
| WhereMeaning.PrefixRenders | apps/api/app/services/arcgis/where.py:38-39 | the same for the prefix clause |
| WhereMeaning.ParseGroup | apps/api/app/services/arcgis/where.py:34-35 | a group reads back as its OR exactly when it has a field and no field is a reserved word |
| WhereMeaning.ParseClause | apps/api/app/services/arcgis/where.py:28-43 | a rendered clause reads back as the intended AND of ORs exactly then and with at least one pattern; otherwise it is refused |
| WhereMeaning.ContainsMeans | apps/api/app/services/arcgis/where.py:42-43 | it holds of exactly the records in which every token is part of some upper-cased field |
| WhereMeaning.PrefixMeans | apps/api/app/services/arcgis/where.py:38-39 | it holds of exactly the records in which some upper-cased field starts with the text |
| WhereMeaning.NormalizedSplits | apps/api/app/services/arcgis/where.py:19-21 | normalized text splits into exactly the words, all of allowed characters |
| WhereMeaning.TokensAreTheFirst | apps/api/app/services/arcgis/providers.py:120-150 | the tokens searched for are the first eight different words |
| WhereMeaning.SearchMeans | apps/api/app/services/arcgis/providers.py:120-150 | for any search text with a word, both clauses of a search read back and mean what the search meant |
| Centroid.RingCentroid | apps/api/app/services/arcgis/geometry.py:38-48 | the loop computes the three sums around the ring and the centroid and size from them |
| Centroid.StartDoesNotMatter | apps/api/app/services/arcgis/geometry.py:38-48 | the result does not depend on the starting vertex |
| Centroid.OrientationDoesNotMatter | apps/api/app/services/arcgis/geometry.py:38-48 | nor on the orientation |
| Centroid.MovesWithTheRing | apps/api/app/services/arcgis/geometry.py:38-48 | it moves exactly with the ring |
| Centroid.ClosingMatters | apps/api/app/services/arcgis/geometry.py:38-48 | repeating the first vertex changes nothing exactly when the ring has an area or that vertex is the mean |
| Centroid.ClosingMovesAFlatRing | apps/api/app/services/arcgis/geometry.py:45-47 | a flat ring whose centroid moves when it is closed |
| Centroid.Triangle | apps/api/app/services/arcgis/geometry.py:38-48 | a triangle's centroid is the mean of its corners |
| Centroid.ChordCut | apps/api/app/services/arcgis/geometry.py:38-48 | cutting a ring along a chord splits every sum, so centroids combine by signed area |
| Centroid.RepresentativePoint | apps/api/app/services/arcgis/geometry.py:66-71 | the centroid of the first ring of the largest size among those with a vertex |
| Centroid.RectangleIs | apps/api/app/services/arcgis/geometry.py:38-48 | the size of a rectangle is its area, and its point the middle |
| Centroid.LargerRectangleWins | apps/api/app/services/arcgis/geometry.py:66-71 | of two rectangles, in whichever order, the larger one is chosen |
| Centroid.LargestIsUnique | apps/api/app/services/arcgis/geometry.py:70-70 | there is only one first largest ring |
| Centroid.RepresentativePointIsGeometric | apps/api/app/services/arcgis/geometry.py:66-71 | redrawing the rings keeps it, moving the polygon moves it |
| Geodesy.ProjectionIsNearest | apps/api/app/services/geo/geodesy.py:21-41 | the clamped projection minimizes the planar squared distance over the whole segment, degenerate segments included |
| Geodesy.SquaredIs | apps/api/app/services/geo/geodesy.py:30-33 | the plane in which longitudes count by their scale |
| Geodesy.DistanceToPolyline | apps/api/app/services/geo/geodesy.py:44-50 | the smallest of the segments' distances, the point's for one point, none for an empty path |

## Left out

- HTTP, Convex and FastAPI plumbing, the payment provider's API, email and logging: answers from outside are parameters, and nothing is proved about them.
- HMAC, SHA-256 and random secrets: a credential hash and a visitor address are opaque values; equal hashes mean the same credential.
- Floating point: times of the Python side, coordinates and response times are exact reals; the cosine of the latitude and the great-circle distance are parameters, and nothing is said of their accuracy.
- Configured rate limits are whole numbers; fallbacks for a customer without a per-minute rate are not modelled because every plan, and the free tier, has one.
- Document ids, key names and prefixes, the legacy environment field, and audit rows: they take part in no decision; `Prune` is only told how many of them have expired.
- `describe`, the key list, `recent` and the quota block of `summary`: they only read rows already described here.
- Creating a key over an existing one for the website, and the checkout's calls to the provider: only their database steps, `InsertKey` and `RecordPending`, are modelled.
- Days are numbers since 1970-01-01 instead of ISO date strings, which sort and compare alike.
- Quota rows older than 400 days are deleted by pruning, so the sums of `QuotaLedger` are stated for periods not older than that.
- `visitor_bucket`: the address library is not part of this model.
- Task cancellation in the breaker and the recorder, and redelivery after a batch was stored but its answer lost: the code does not handle them either.
- The slot semaphore, response size limit, jitter and Retry-After values of the client are outcomes and delays of a script that may hold anything.
- Points, multipoints and lines in `representative_point`, coordinate parsing, and the buffer envelope: single expressions.
- The route graph and the provider factory are not part of this model.
- Convex.Database.ReconcilePending: its checks run one after another, each with its own time and answer, and nothing runs in between; between other steps each of them is the `CheckIntent` step of `Machine`, of which the results over runs are proved.
- Readmission.RevokedComesBackIff: for a credential that expires within the minute, or whose account has used up the largest plan until it expires, only `Readmission.UnlockedIsOk` says when it is answered ok again.
- Convex.Database.RecordChunks: nothing runs between the chunks; `UsageQueries.NoChunkIsLost` is about chunks with any other steps in between.
- Convex.Database.HandleUsage: as for `RecordChunks`.
- Recorder.UsageRecorder.Flush: the arrivals and outcomes of the sends are a finite list, after which nothing arrives and sends succeed; a flush that is kept busy for ever is not modelled.
