# Verified model of the billing, domain, analytics, bio and webhook stores

A Dafny 4.11 model of the parts of the repository where several tables, or several packages, have to
stay in step over whole runs of operations. Stateful code is modelled as classes whose methods run the
transactions statement by statement, each proved equal to a function on table values; what the system
promises is proved about those functions, and about every sequence of them.

`dafny verify dfyconfig.toml` checks everything.

## What is modelled

**Billing lifecycle and its two ledgers** (`Billing*.dfy`, `DomainEntitlement.dfy`, `Calendar.dfy`).
Orders, provider transactions, invoices, subscriptions and billing grants form one store, changed by
authenticated callbacks, downgrade requests with a seven-day grace, and lazy promotion when the grace
ends. Every step also writes a second ledger, the plan sources `p13:billing` and `p13:billing:target`,
read by the custom-domain resolver. The central invariant gives each workspace one of three phases:
nothing in control, one subscription in control, or one in its grace with its target waiting. From it
follow: the two ledgers agree at every instant from the run's clock on; a downgrade hands over at one
exact instant; promotion is invisible to the resolver; a repeated request never schedules twice;
downgrades terminate; orders follow their transactions; settlement happens exactly once. Which callbacks
and requests are accepted, which of the accepted ones the schema refuses, and which targets can be found
again is characterised by guards on the rows and the request; what each accepted operation writes is stated
row by row, and over any run an idempotency key has one order and a transaction only advances.

**Administrator overlay** (`DomainGovernance.dfy`, `DomainOverlay.dfy`, `DomainDecisions.dfy`,
`GovernanceStore.dfy`). A suspend or revoke control sits on top of the domain resolver and forces routing
off; the safety properties range over runs of decisions, domain mutations, security holds, ownership
losses, verifier results and source edits. A domain routes only after a verifier found all its axes in order.
Decisions are authorised, and replayed under their key.

**Click analytics** (`Analytics*.dfy`, `Tallies.dfy`). Outbox, at-least-once stream, deduplicated log
and hourly aggregate; after every interleaving each delivered click is logged and counted once, the
aggregate is the group-by of the log exactly where no click fell into the last half microsecond of an
hour, and a report over the log adds up and matches the aggregate. Recovery loses no event: one on record as
published is on the stream.

**Bio page children** (`Bio*.dfy`). The in-place list update that shifts positions out of the way,
under the unique key on page and position, with approvals carried only for an unchanged destination. Under
its version a page is written once.

**Webhook deliveries** (`Webhook*.dfy`). Workers with expiring leases, as interleaved steps; the recorded outcomes
determine each delivery's state.

## Assumptions

- A transaction commits as a whole or leaves the store unchanged. The unique keys of the schema are the
  keys of the maps: provider and event id, provider and transaction id, grant source, plan source key,
  page and position, webhook and event. The outbox and the event log check both of their keys.
- Ids derived by hashing are injective constructors of what is hashed; random ids and tokens are
  parameters, or fresh. Identifiers and texts are numbers, 0 being blank.
- Where the code derives something from a clock reading besides storing it, in billing and in the click
  pipeline, a reading is an `Instant`: whole microseconds and the nanoseconds beyond them. `DATETIME(6)`
  keeps the nearest microsecond, as MySQL rounds by default. Stored times, and all others, are whole
  microseconds, 0 being the zero time; no reading falls into the first microsecond. A resolver compares
  with stored times only, so at a reading it answers as at the reading's whole microsecond.
- Plan rows do not change during a run, and every plan limit is at least 1 (a check of the schema).
- Time is whatever each step carries and need not be monotone: the clock of a run is the latest time it
  has seen, as stored.
- The schema's checks on grants and subscriptions are a switch of the billing store (`checks`). The
  run properties hold with either setting unless they name one.

## What the code does that its rules do not say

- The id of a downgrade's target is derived from the request's clock reading with its nanoseconds, and
  looked up later from the grace end as stored. A request read at anything but a whole microsecond
  therefore loses its target: repeating it is refused (`RepeatFinds`, `SameRequestAgain`), and from the
  grace end on every load fails (`DueLoadFinds`) until a callback ends the deadlock (`LostUntilSettled`).
  `TargetIsLost` is a run; `WholeRunsFindTargets` is what holds where requests carry whole microseconds.
- A paid callback, or a refund of the subscription in control, that arrives during a grace revokes the
  waiting target before its start. `EntitlementGrant.Validate` rejects such a row, so the billing
  resolver would fail for the workspace from then on (`CancelBeforeStart`,
  `RefundInGraceBreaksResolver`). The schema check `chk_entitlement_grant_revoke` stops it instead: the
  whole callback is refused (`EarlyRevocationRefused`). Validity is characterised exactly in
  `GrantsValidUnlessEarly` without the check and holds outright with it (`GrantsAlwaysValid`);
  `EarlyIsInGrace` reads the condition off the phase, and `CallbackEnforced` says exactly which accepted
  callbacks the schema refuses.
- A refund after the grace end has a different result before and after promotion
  (`RefundDependsOnPromotion`; runs in `RefundAfterGrace`), because it reads the stored status only.
- A downgrade request is accepted after the current term has lapsed, and then gives the old plan back
  for seven days (`ScheduleRevivesLapsedTerm`; a run in `LapsedTermIsRevived`).
- A domain suspended for the loss of its ownership is never routed again (`OwnershipLossIsFinal`), but a
  loss while the domain is held for abuse, fraud or anything else leaves that category in place and is
  not final (`LossHolds`, `LossUnderAnotherHold`).
- A control is checked against the reading a request took before it waited for the tables. A creation or
  activation that read its clock before a control was set and comes after it goes through, and the
  control stays over a workspace that routes (`ControlsHold`; a run in `LateCreation`).
- A click in the last half microsecond of an hour is counted in that hour and logged in the next
  (`IncrementalEqualsBatch`). Reconciliation compares totals: it repairs exactly the tables whose total is
  wrong (`RepairExact`), which no run brings about (`RepairNeverWrites`), and leaves that count where it
  is (`RepairMissesMovedCount`).
- When a lease expires under a slow worker, a recorded outcome goes uncounted (`OverlapLosesACount`);
  counts go wrong exactly where an outcome is recorded on a count that has changed (`CountsExactly`).

## Model

| member | source | states |
|---|---|---|
| `BillingAgreement.LedgersAgree` | internal/billing/callbacks.go:82-148 | in every state of every run from the empty store, at every instant from its clock on, the largest live billing grant for custom domains is the routing limit of the two plan sources, or both give nothing |
| `BillingAgreement.ResolversAgree` | internal/domains/entitlement.go:113-188 | the same for the two resolvers themselves: on the workspace's billing grants and on its plan sources they allow the same and give the same limit, wherever the grants validate |
| `BillingRecords.EnforcedResolversAgree` | internal/billing/entitlement.go:20-73 | with the schema's checks on, that premise is always met: both resolvers always answer, and alike |
| `BillingAgreement.GrantTimeline` | internal/billing/downgrade.go:110-148 | from the clock on, the live billing grants of a workspace are exactly one per capability of the plan in control, under its subscription, with its limit |
| `BillingAgreement.DomainTimeline` | internal/billing/downgrade_plan.go:100-148 | the domain resolver's answer on the plan sources, read off the same subscription in control: routing exactly while its plan has custom domains, mutation exactly outside a grace |
| `BillingInvariant.InvStep` | internal/billing/callbacks.go:248-294 | a step that leaves other workspaces' rows alone and gives its own a phase keeps the invariant of all |
| `BillingRuns.NextKeepsInv` | internal/billing/callbacks.go:19-172 | every step of the store, committed or refused, keeps the invariant, with or without the schema's checks |
| `BillingRuns.RunKeepsInv` | internal/billing/downgrade_lifecycle.go:16-124 | the invariant holds after every run from the empty store, and plan rows are untouched |
| `BillingRuns.PaidKeepsInv` | internal/billing/callbacks.go:82-107 | a paid callback puts the order's own new subscription in control, whatever phase it finds |
| `BillingRuns.RefundKeepsInv` | internal/billing/callbacks.go:118-145 | a refund ends control or changes no phase, and touches no other workspace |
| `BillingRuns.LoadKeepsInv` | internal/billing/downgrade_lifecycle.go:16-80 | a load that answers (exactly when is `LifecycleHolds`) keeps the invariant and gives the subscription running, possibly after completing a due downgrade, or the untouched one still inside its grace |
| `BillingRuns.ScheduleKeepsInv` | internal/billing/downgrade.go:46-205 | a created schedule adds one new target under the subscription in control, on a strictly smaller plan; any other answer changes at most a due promotion |
| `BillingRuns.ScheduledPhase` | internal/billing/downgrade.go:83-109 | a created schedule leaves current and target waiting, the target on the asked plan, starting exactly seven days after the request |
| `BillingWrites.ScheduleWrites` | internal/billing/downgrade.go:83-148 | a downgrade gives the subscription in control seven days of grace from the request and adds one waiting row on the asked plan, whose term is one calendar month or year counted from the grace end; every other row stays, and one audit record is added |
| `BillingWrites.ScheduleGrantsWritten` | internal/billing/downgrade.go:110-148 | the unrevoked grants of the subscription in control end with its grace, the target has one grant for each entitlement of its plan for its term, and no other grant changes |
| `BillingWrites.ScheduleSources` | internal/billing/downgrade_plan.go:100-148 | the billing source is degraded at the request for seven days, the target source carries the target's limit and term, and a plan without custom domains expires its source |
| `BillingWrites.LoadWrites` | internal/billing/downgrade_lifecycle.go:16-80 | with something in control a load changes nothing before a grace end; from then on the row in its grace expires, the one named after its stored grace end takes over as it stands, and no other row changes |
| `BillingWrites.DueWrites` | internal/billing/downgrade_lifecycle.go:82-124 | with nothing in control a load promotes the due waiting row that started last, and changes no other row |
| `BillingWrites.LoadSources` | internal/billing/downgrade_lifecycle.go:126-157 | a promotion puts the promoted plan's limit and window on the billing source and expires the target source, or expires both |
| `BillingWrites.PaymentWrites` | internal/billing/callbacks.go:82-107 | a payment makes order and invoice paid at its time and puts a new subscription on the order's plan in control for one calendar term from then; what waited is canceled, what was in control expires, other workspaces keep their rows |
| `BillingWrites.PaymentGrants` | internal/billing/callbacks.go:248-294 | a payment adds one grant for each entitlement with its limit for the term, revokes every other unrevoked billing grant of the workspace at its time, and leaves all other grants alone |
| `BillingWrites.PaymentSources` | internal/billing/callbacks.go:319-345 | a payment writes the plan's limit and term to the billing source, or expires it where the plan has no custom domains, and expires a waiting target's source |
| `BillingWrites.RefundWrites` | internal/billing/callbacks.go:118-145 | a refund makes order and invoice refunded at its time and cancels the order's own subscription, and what waits exactly where that one was in control; no other row changes |
| `BillingWrites.RefundAuthority` | internal/billing/callbacks.go:296-317 | a refund revokes the unrevoked grants of exactly those subscriptions and expires both plan sources exactly where the order was in control |
| `BillingLifecycle.LifecycleHolds` | internal/billing/downgrade_lifecycle.go:16-124 | in every reachable state a workspace has at most one subscription in control and at most one pending; a pending one exists exactly during a grace, under an id derived from an instant stored as the grace end; loading fails exactly where nothing is in control, and then nothing is promoted, or where a due target was named after an instant with nanoseconds |
| `BillingLifecycle.WholeRunsFindTargets` | internal/billing/downgrade_lifecycle.go:38-50 | over every run whose requests were read at whole microseconds, a pending target has the id derived from the stored grace end and loading fails exactly where nothing is in control |
| `BillingLifecycle.DueLoadFinds` | internal/billing/downgrade_lifecycle.go:38-50 | in every later state in which the target of a schedule is still pending, a load after the grace end finds it if and only if the request was read at a whole microsecond |
| `BillingLifecycle.RepeatFinds` | internal/billing/downgrade.go:65-82 | in every such state a repeat during the grace, with a version the code accepts, is answered with the stored schedule if and only if the request was read at a whole microsecond |
| `BillingLifecycle.SameRequestAgain` | internal/billing/downgrade.go:46-82 | the very same request sent again at once is answered exactly on whole microseconds |
| `BillingLifecycle.AnsweredInGrace` | internal/billing/downgrade.go:65-82 | during a grace a request is answered, with the stored schedule, if and only if it asks for the waiting plan with the version from before or after the schedule and the target can be found |
| `BillingLifecycle.RequestLoadsFirst` | internal/billing/downgrade.go:46-68 | a request answers exactly as it would after the promotion that is due, and fails where the load fails |
| `BillingLifecycle.LostUntilSettled` | internal/billing/downgrade_lifecycle.go:38-50 | a target named after an instant with nanoseconds keeps the workspace in its grace and every due load failing through any run without a callback of the workspace |
| `BillingScenarios.TargetIsLost` | internal/billing/downgrade.go:83-109 | a run from an empty store: a purchase and a request with nanoseconds, after which the same request is refused and every due load fails though the purchase is in control |
| `BillingDowngrades.ExactHandoff` | internal/billing/downgrade.go:83-148 | after a schedule a kept capability is live through the old subscription alone before the grace end, through the target alone from it to the target's term end, and nothing is live after it; the limit never rises and a dropped capability ends at the boundary |
| `BillingDowngrades.PromotionInvisible` | internal/billing/downgrade_lifecycle.go:126-157 | where the target is found, promoting it leaves grants untouched, and at every instant from the grace end on the resolver over all the workspace's sources gives the same status, permissions, grace flag and limit as before |
| `BillingDowngrades.RefundDependsOnPromotion` | internal/billing/callbacks.go:305-317 | after the grace end a refund of the old order ends all control if no promotion ran, and leaves the target in control if one did |
| `BillingDowngrades.ScheduleRevivesLapsedTerm` | internal/billing/downgrade.go:83-109 | a schedule accepted after the current term ended makes the old plan, of which nothing was live, live again until the new grace end |
| `BillingScenarios.RefundAfterGrace` | internal/billing/callbacks.go:305-317 | two runs from an empty store, with one purchase and the same refund after the grace end: it ends all control, or, where a second request promoted the target, leaves the target in control |
| `BillingScenarios.RefundPhase` | internal/billing/callbacks.go:118-145 | an accepted refund of a paid order ends control exactly if the stored rows put the order in control, and leaves the phase alone otherwise |
| `BillingScenarios.LapsedTermIsRevived` | internal/billing/downgrade.go:83-109 | a run from an empty store in which a request after the purchased month gives the old limit back until the grace end |
| `BillingHistory.GraceBoundaryFixed` | internal/domains/downgrade_tx.go:13-63 | once a subscription has a grace end no run changes it, and during its grace the domain source carries the same boundary |
| `BillingHistory.RunKeepsRows` | internal/billing/downgrade_lifecycle.go:16-157 | over any run a subscription row stays, keeps its workspace, plan and start, and its grace end once it has one, and every change shows in a higher version |
| `BillingHistory.RunIsolates` | internal/billing/callbacks.go:19-172 | a run whose steps all concern other workspaces changes no subscription, grant or source of this one |
| `BillingHistory.NextMoves` | internal/billing/downgrade_lifecycle.go:82-124 | the transition relation of a workspace: an activation, a schedule onto a strictly smaller plan, a completed downgrade, an end of control, or no change |
| `BillingHistory.NextWeight` | internal/billing/downgrade_plan.go:76-98 | a created schedule strictly lowers price plus limits of the plan in line, and nothing but an activation raises it |
| `BillingHistory.DowngradesTerminate` | internal/billing/downgrade.go:83-109 | in any run without a new activation the number of schedules plus the remaining weight is at most the initial weight |
| `BillingHistory.RepeatIsServed` | internal/billing/downgrade.go:65-82 | repeating a stored downgrade, at any time and version, either returns the stored schedule and changes nothing or is rejected |
| `BillingHistory.RepeatsNeverCreate` | internal/billing/downgrade.go:65-82 | over any run without a new activation, repeated requests for the same plan create no second target |
| `BillingHistory.ScheduleServes` | internal/billing/downgrade.go:110-205 | a created schedule puts the workspace in that state |
| `BillingSettlement.OrdersFollowTransactions` | internal/billing/callbacks.go:78-148 | in every reachable state an order's status fits its transactions, its invoice follows its status, and every transaction carries its order's money and workspace |
| `BillingSettlement.StatusDetermined` | internal/billing/callbacks.go:187-235 | a set of transactions fits one order status only, so the status is a function of them |
| `BillingSettlement.SettleMovesOrder` | internal/billing/callbacks.go:78-148 | a settlement moves the order by its outcome or is refused, activates exactly on the move to paid, and moves the invoice along |
| `BillingSettlement.SettledExactlyOnce` | internal/billing/callbacks.go:84-145 | over any run, with duplicates and reorderings, each order activates at most once and is refunded at most once, only after activating; its status tells which |
| `BillingSettlement.StatusCounts` | internal/billing/callbacks.go:84-145 | from any state at all, the change of an order's status over a run counts its activations and refunds |
| `BillingSettlement.ReplayOnlyAudits` | internal/billing/callbacks.go:34-67 | a command accepted once is, after any further run, answered as a duplicate and changes the audit log only |
| `BillingSettlement.AcceptedIsRemembered` | internal/billing/callbacks.go:68-77 | an accepted command leaves its event, transaction and order on record |
| `BillingTransactions.TransactionsOnlyAdvance` | internal/billing/callbacks.go:187-235 | over any run a transaction keeps its order, money and workspace and moves only from pending to paid or failed and from paid to refunded |
| `BillingTransactions.CallbackTransactions` | internal/billing/callbacks.go:187-221 | a new event leaves its own transaction with its outcome after an allowed move and no other changed; a known event changes none |
| `BillingTransactions.SecondEventOnlyRecords` | internal/billing/callbacks.go:223-235 | a second event with the outcome its transaction already has, for an order already there, is accepted and changes events and audit only |
| `BillingTransactions.DuplicatesExactly` | internal/billing/callbacks.go:46-67 | a known event is answered if and only if transaction, type, order and money are those on record |
| `BillingTransactions.AnswerShowsRows` | internal/billing/callbacks.go:34-172 | an accepted callback answers with the order and transaction as they are after it, and says whether its event was known |
| `BillingAcceptance.RefusedCallbacks` | internal/billing/callbacks.go:19-80 | why a callback is refused: missing fields, money nobody can be charged, something not on record, or a contradiction to what is |
| `BillingAcceptance.AcceptedExactly` | internal/billing/callbacks.go:19-148 | in every reachable state a callback with a new event is accepted if and only if its money, transaction, order status and plan pass the guards, each read off the stored rows |
| `BillingRecords.GrantsValidUnlessEarly` | internal/billing/model.go:131-150 | without enforced checks, all billing grants of a run's last state validate if and only if no step of the run was a callback that passed its guards and was about an unrevoked grant starting after it |
| `BillingRecords.EarlyIsInGrace` | internal/billing/downgrade_cleanup.go:50-55 | for a callback received no earlier than the clock that condition is: the workspace waits for a target with an entitlement that starts later, and the guards hold for a payment of an unpaid order or a refund of the one in control |
| `BillingRecords.GrantsValidInOrder` | internal/billing/model.go:131-150 | over runs whose callbacks are received in order, all billing grants validate if and only if no callback came during a grace in that way |
| `BillingRecords.NextValid` | internal/billing/downgrade_cleanup.go:50-55 | one step leaves all billing grants valid exactly when it found them so and revoked none before its start |
| `BillingRecords.CallbackGrantStep` | internal/billing/callbacks.go:248-303 | a callback revokes exactly the grants its outcome says, at its time, keeps every start, and adds only sound unrevoked grants |
| `BillingRecords.GrantsAlwaysValid` | migrations/000009_billing_payments_entitlements.sql:75-77 | with enforced checks every billing grant of every reachable state validates |
| `BillingRecords.EarlyRevocationRefused` | migrations/000009_billing_payments_entitlements.sql:77 | with enforced checks a callback that would revoke a grant before its start is refused as a whole and changes nothing |
| `BillingEnforcement.CallbackEnforced` | migrations/000009_billing_payments_entitlements.sql:54-77 | an accepted callback fails the schema's checks if and only if it revokes a grant before its start or pays while a subscription without a term end has not started before |
| `BillingEnforcement.ScheduledExactly` | internal/billing/downgrade.go:83-109 | a downgrade of a running subscription is accepted if and only if version, time, plans and the free target id pass the guards |
| `BillingEnforcement.ScheduleEnforced` | migrations/000009_billing_payments_entitlements.sql:54-77 | a created schedule passes the schema's checks if and only if its subscription started in an earlier stored microsecond |
| `BillingEnforcement.RefusedDowngrades` | internal/billing/downgrade.go:46-109 | why a downgrade of a running subscription is refused |
| `BillingEnforcement.SchemaExactly` | migrations/000009_billing_payments_entitlements.sql:53-77 | the checks hold exactly where no grant permits nothing, has an empty window or was revoked before its start, and no subscription lacks a version, has an empty term or a grace that ends before it |
| `BillingRecords.PlanSourcesValid` | internal/domains/entitlement.go:76-111 | every plan source billing writes in any run validates |
| `BillingRecords.CancelBeforeStart` | internal/billing/downgrade_cleanup.go:50-55 | a callback that passes its guards during a grace, paying another order or refunding the one in control, is accepted and leaves a grant on which the billing resolver fails at every instant |
| `BillingScenarios.RefundInGraceBreaksResolver` | internal/billing/model.go:146-148 | a run from an empty store: a purchase, a downgrade and a refund during the grace, after which the resolver fails on the waiting grant; with the schema's checks the refund is refused |
| `BillingModel.StrictPlanDowngrade` | internal/billing/downgrade_plan.go:76-98 | the loop over both entitlement maps decides the strict downgrade relation, both ways |
| `BillingModel.DowngradeIrreflexive` | internal/billing/downgrade_plan.go:76-98 | no plan is a downgrade of itself |
| `BillingModel.DowngradeTransitive` | internal/billing/downgrade_plan.go:76-98 | downgrades compose |
| `BillingModel.DowngradeLowersWeight` | internal/billing/downgrade_plan.go:76-98 | a downgrade strictly lowers the price plus the sum of the limits |
| `BillingModel.DowngradeExactly` | internal/billing/downgrade_plan.go:76-98 | the relation holds if and only if currency and period are equal, nothing grows, and the price plus the sum of the limits is smaller |
| `BillingEntitlement.ResolveEntitlement` | internal/billing/entitlement.go:20-73 | the resolver's loop and sorts compute the specified resolution |
| `BillingEntitlement.ResolveMeaning` | internal/billing/entitlement.go:20-73 | it fails exactly on an invalid grant; a live denial wins; otherwise the answer is the best live grant, with the largest limit |
| `BillingCredits.PermitReports` | internal/billing/entitlement.go:54-88 | an answer that permits credits the live grant with the largest limit, among those a manual before an inherited before a billing before a baseline one, then the smaller source id, and reports all live grants with it first |
| `BillingCredits.RefusalReports` | internal/billing/entitlement.go:42-53 | an answer that does not permit credits the denial with the smallest source id, or nothing where there is none, and has limit 0 |
| `BillingCredits.InvalidExactly` | internal/billing/model.go:131-150 | each way a grant is refused |
| `BillingEntitlement.BestUnique` | internal/billing/entitlement.go:54-88 | the tie-break leaves one answer: two best grants agree on limit, type and source |
| `BillingEntitlement.OrderIndependent` | internal/billing/entitlement.go:54-72 | the decision and the credited source do not depend on the order of the rows |
| `BillingEntitlement.MoreGrantsMoreAuthority` | internal/billing/entitlement.go:20-73 | one more grant that is not a denial never lowers the answer |
| `BillingEntitlement.ConstantBetweenBoundaries` | internal/billing/entitlement.go:28-36 | the resolution is constant between consecutive start, end and revocation instants |
| `BillingStore.Tx.CancelScheduledDowngradeTx` | internal/billing/downgrade_cleanup.go:15-75 | canceling pending targets one by one revokes their unrevoked grants, cancels their rows and expires the target source, and nothing else |
| `BillingStore.Tx.ActivateSubscriptionTx` | internal/billing/callbacks.go:248-294 | an activation clears what was scheduled and in control and installs the order's subscription with one grant per entitlement |
| `BillingStore.Tx.RevokeSubscriptionTx` | internal/billing/callbacks.go:296-303 | the unrevoked grants of the order's subscription end now and are live no more, every other grant is the one it was, and no subscription but the order's own changes, which then is canceled |
| `BillingStore.Tx.FirstByStart` | internal/billing/downgrade_lifecycle.go:16-29 | the row selected is the latest by start, then by id |
| `BillingStore.Tx.PromoteDuePendingSubscriptionTx` | internal/billing/downgrade_lifecycle.go:82-124 | with nothing in control, the latest due pending subscription is promoted |
| `BillingStore.Tx.LoadCurrentSubscriptionForUpdate` | internal/billing/downgrade_lifecycle.go:16-80 | loading expires a subscription past its grace and promotes its derived target, or fails as specified |
| `BillingStore.Tx.InsertTargetGrants` | internal/billing/downgrade.go:121-144 | the target's grants are inserted one by one, and an existing row is a conflict |
| `BillingStore.Tx.ScheduleFromTx` | internal/billing/downgrade.go:83-205 | scheduling on the loaded subscription writes target, grace, grants and sources as specified, or fails |
| `BillingStore.Tx.UpsertTransactionTx` | internal/billing/callbacks.go:187-221 | a transaction is inserted, moved along an allowed transition, or refused |
| `BillingStore.Tx.SettlePaidTx` | internal/billing/callbacks.go:82-107 | the paid branch settles, activates and projects once |
| `BillingStore.Tx.SettleFailedTx` | internal/billing/callbacks.go:108-117 | refused if and only if the order was settled before; otherwise that order alone becomes failed |
| `BillingStore.Tx.SettleRefundedTx` | internal/billing/callbacks.go:118-145 | the refunded branch takes the schedule and the projection along only for the subscription in control |
| `BillingStore.Tx.UpsertPlanSourceTx` | internal/domains/plan_projection_tx.go:13-74 | a validated active plan source replaces the row under its key |
| `BillingStore.Tx.ExpirePlanSourceTx` | internal/domains/plan_projection_tx.go:79-126 | an unexpired source is expired, and the answer says whether a row changed |
| `BillingStore.Tx.ApplyNormalPlanDowngradeTx` | internal/domains/downgrade_tx.go:13-63 | the seven-day boundary is written once: the same one again is accepted, another refused |
| `BillingStore.Tx.ProjectP06DomainEntitlementTx` | internal/billing/callbacks.go:319-345 | an activation mirrors the plan's domain limit into the billing source, or expires it |
| `BillingStore.Tx.PromoteP06DowngradeTargetTx` | internal/billing/downgrade_lifecycle.go:126-157 | a promotion moves the target's limit and window to the billing source and expires the target source |
| `BillingStore.Tx.ProjectP06ScheduledDowngradeTx` | internal/billing/downgrade_plan.go:100-148 | a schedule puts the billing source into its grace and the target source after it |
| `BillingStore.Store.ApplyAuthenticatedCallback` | internal/billing/callbacks.go:19-172 | the statements of a callback commit exactly the specified tables, or the store is unchanged |
| `BillingStore.Store.ScheduleDowngrade` | internal/billing/downgrade.go:46-205 | the statements of a downgrade request commit exactly the specified tables, or the store is unchanged |
| `BillingStore.Store.CreateOrder` | internal/billing/store.go:90-142 | an order and its open invoice are created once per idempotency key, for an active priced plan |
| `BillingOrders.OneOrderPerKey` | internal/billing/store.go:90-142 | over any run from the empty store two orders of one workspace under the same idempotency key are the same order, and an order never changes workspace, plan, kind, money or key |
| `BillingOrders.RequestedOnce` | internal/billing/store.go:100-104 | an accepted request that comes back, after any run and with any new id, answers that nothing was created and changes no table |
| `BillingOrders.UsedKeyChangesNothing` | internal/billing/store.go:100-104 | under a key the workspace has used a request changes no table, whatever else it asks |
| `BillingOrders.NewKeyPlacesOrder` | internal/billing/store.go:106-142 | under a new key an order is placed if and only if the plan is active and priced; it carries the workspace, plan and kind asked for and the plan's price, is pending, and has an open invoice over the same money |
| `BillingOrders.RefusedOrders` | internal/billing/store.go:90-142 | why an order is refused: missing fields, an unknown plan, or a plan not for sale |
| `BillingStore.Store.ResolveWorkspaceEntitlement` | internal/billing/store.go:163-196 | all grant rows of the workspace and capability are resolved, whatever order they are read in |
| `Calendar.MonthlyTerm` | internal/billing/callbacks.go:431-445 | a monthly term is as long as the month it starts in: 28 to 31 days |
| `Calendar.YearlyTerm` | internal/billing/callbacks.go:431-445 | a yearly term has 366 days exactly when it spans a 29 February, else 365 |
| `Calendar.YearsCounted` | internal/billing/callbacks.go:431-445 | the days before a year are those of the Gregorian rule in closed form: 365 a year, one more every fourth, not every hundredth, again every four hundredth |
| `Calendar.MonthsCounted` | internal/billing/callbacks.go:431-445 | the days before each month are those of the common year, one more from March on in a leap year |
| `Calendar.TermEndsLater` | internal/billing/callbacks.go:431-445 | only a one-time plan has no term end, and every other ends after its start |
| `DomainEntitlement.ResolveEntitlement` | internal/domains/entitlement.go:113-188 | the resolver's loops compute the specified resolution |
| `DomainEntitlement.StrongestCurrentSecuritySource` | internal/domains/entitlement.go:190-219 | the tracked selection ends at the first of the strongest current security sources |
| `DomainSources.StrongestFirst` | internal/domains/entitlement.go:190-219 | the deciding hold is the first of those in force, a revocation before a suspension |
| `DomainEntitlement.ResolveMeaning` | internal/domains/entitlement.go:113-188 | each answer read off the set of sources: invalid input fails, a current hold denies, ordinary authority beats grace, the limit is the largest of the deciding class |
| `DomainSources.AnswerReports` | internal/domains/entitlement.go:143-233 | an answer credits the source with the largest limit of the deciding class, a plan before an approval, then the smaller key, with its dates, granter and reason, and lists all sources of that class; without any it shows the open request |
| `DomainSources.SourceWindow` | internal/domains/entitlement.go:128-188 | a valid source counts from its start up to its end; once degraded in full up to the downgrade and as a grace for seven days from it; a hold from its start up to its end |
| `DomainSources.InvalidExactly` | internal/domains/entitlement.go:76-111 | each way a source is refused |
| `DomainEntitlement.OrderIndependent` | internal/domains/entitlement.go:113-233 | status, permissions, grace flag and limit do not depend on the order or repetition of sources |
| `DomainEntitlement.PermissionLadder` | internal/domains/entitlement.go:128-188 | mutation permission implies routing permission, and a current hold denies both |
| `DomainEntitlement.MoreSourcesMoreAuthority` | internal/domains/entitlement.go:143-233 | without a hold one more valid source takes no permission away and lowers no limit |
| `DomainOverlay.EffectiveAuthority` | internal/domains/entitlement_admin_control.go:23-65 | a workspace's authority at an instant read off its rows: when it resolves, that mutation needs an ordinary source, no current hold and no control in effect, that routing may also rest on a grace, and which fields stay the base resolution's |
| `DomainOverlay.ControlKeepsBase` | internal/admin/domain_entitlements_mutation.go:140-216 | suspending, revoking and restoring never change the base resolution at any instant |
| `DomainOverlay.RestoreRevealsBase` | internal/admin/domain_entitlements_mutation.go:183-216 | after any run of controls and restores that nobody's source or request edits interrupt, removing the control gives back exactly the earlier base resolution, at every instant |
| `DomainOverlay.ControlsHold` | internal/admin/domain_entitlements_mutation.go:140-181 | each control is in effect over a workspace without a pending or enabled domain, in every state of a run with clock readings in any order, if and only if no creation or activation of a controlled workspace passed its guards on a reading from before the control |
| `DomainOverlay.OrderedIsTimely` | internal/domains/entitlement_admin_control.go:43-65 | where every step reads the clock after all steps before it, no step is outdated and every control holds |
| `DomainOverlay.LateCreation` | internal/domains/domain_store_mysql.go:27-162 | a run from an empty store: a creation that read its clock before a revocation leaves a pending domain under the control in effect |
| `DomainOverlay.NothingWhileControlled` | internal/domains/domain_store_mysql.go:27-162 | as long as a control lasts and no step is outdated in that way, the workspace's set of domains does not change and none of them routes |
| `DomainOverlay.EnabledExactlyWhenReady` | internal/domains/security_restore_mysql.go:24-96 | routing is turned on if and only if a pending domain is activated, a suspended one without a category is restored, or a security hold of an external category is lifted under its own category, with every axis ready, the resolution permitting it and no control in effect |
| `DomainVerification.RoutedOnlyVerified` | internal/domains/domain_store_mysql.go:100-112 | over any run a domain created in it routes only if, after its creation, a verifier found ownership, ingress, HTTPS and risk all in order at once |
| `DomainVerification.CreatedUnverified` | internal/domains/domain_store_mysql.go:100-112 | a new domain has the submitted name, is pending on every axis and held for nothing, and nobody can activate or restore it before a verifier has seen it |
| `DomainVerification.CreatesExactly` | internal/domains/domain_store_mysql.go:27-162 | a domain is created if and only if the resolution permits mutation, the counter is below the limit and no domain has the name |
| `DomainAnswers.RefusedCreations` | internal/domains/domain_store_mysql.go:27-162 | why a creation is refused |
| `DomainVerification.NamesStayUnique` | internal/domains/domain_store_mysql.go:100-125 | over any run no two domains have the same name |
| `DomainAnswers.SuspendsExactly` | internal/domains/security_suspension_mysql.go:50-105 | a security suspension is accepted if and only if the category is external and the domain neither final nor held for another; it then is suspended under it |
| `DomainAnswers.RoutingWrites` | internal/domains/security_restore_mysql.go:24-96 | lifting a hold routes the domain and clears the category; activating and restoring change its routing only |
| `DomainAnswers.RefusedChanges` | internal/domains/authority_service.go:118-200 | why a change of a domain is refused: its input, a domain that is not the workspace's, invalid sources, or its state |
| `DomainAnswers.LosesExactly` | internal/domains/security_suspension_mysql.go:111-171 | a loss is recorded on every domain that is not final: ownership lost, suspended, held for the loss unless held already |
| `DomainOverlay.OwnershipLossIsFinal` | internal/domains/security_suspension_mysql.go:111-171 | a domain suspended for the loss of its ownership keeps that category and stays suspended over every run, whatever verifiers see and whoever restores what |
| `DomainOverlay.LossHolds` | internal/domains/security_suspension_mysql.go:138-171 | a recorded loss puts a domain there if and only if it was not held under another category before |
| `DomainOverlay.LossUnderAnotherHold` | internal/domains/ownership_verify_mysql.go:151-153 | otherwise a loss, a verifier that finds everything ready again and a restore of the other category route the domain |
| `DomainOverlay.TerminalRouting` | internal/domains/authority_service.go:157-184 | over any run a revoked or removed domain stays so, and no domain changes workspace or name |
| `DomainOverlay.RevocationStays` | internal/admin/domain_entitlements_mutation.go:140-160 | a revocation is never softened to a suspension; only a restore of the workspace removes it |
| `DomainOverlay.NextCounts` | internal/domains/domain_store_mysql.go:27-162 | the usage counter is the number of the workspace's domains, and a creation takes it at most to the limit resolved at that instant |
| `GovernanceStore.Tables.SetDomainEntitlementControlTx` | internal/admin/domain_entitlements_mutation.go:140-181 | the control is set and every pending or enabled domain suspended, one by one, with their count returned |
| `GovernanceStore.Tables.RestoreDomainEntitlementControlTx` | internal/admin/domain_entitlements_mutation.go:183-216 | the control is deleted, and nothing else changes, unless an unsafe domain blocks it |
| `GovernanceStore.Tables.ApproveDomainEntitlementTx` | internal/admin/domain_entitlements_mutation.go:82-115 | an open request with the ticket becomes approved together with its manual source |
| `GovernanceStore.Tables.DenyDomainEntitlementTx` | internal/admin/domain_entitlements_mutation.go:117-138 | refused if and only if no request is open; otherwise exactly one request changes, the latest open one, and becomes denied |
| `GovernanceStore.Tables.ApplyAdminEntitlementControl` | internal/domains/entitlement_admin_control.go:23-65 | the adjusted copy of the base resolution, or its errors |
| `GovernanceStore.Tables.CreateDomainTx` | internal/domains/domain_store_mysql.go:27-162 | a permitted, unique hostname below the limit becomes a pending domain and is counted |
| `GovernanceStore.Tables.MutateRoutingTx` | internal/domains/authority_service.go:118-200 | the guarded update of one domain's routing |
| `GovernanceStore.Service.DecideDomainEntitlement` | internal/admin/domain_entitlements_decision.go:14-166 | authorization, replay, action switch and record commit exactly what is specified, or the store is unchanged |
| `DomainAnswers.DecidesExactly` | internal/admin/domain_entitlements_decision.go:38-166 | a decision is accepted if and only if its guards hold, each read off the rows, the resolution before it and the input, action by action |
| `DomainAnswers.RefusedDecisions` | internal/admin/domain_entitlements_decision.go:14-166 | why a decision is refused: its input, an unknown workspace, a workspace or state in the way, or invalid sources |
| `DomainAnswers.AdmittedExactly` | internal/admin/service.go:297-311 | a decision is admitted with the permission, a reason, a key and a second factor of at most ten minutes ago, and otherwise gets the error of the first that is missing |
| `DomainAnswers.ApprovalWrites` | internal/admin/domain_entitlements_mutation.go:82-115 | an approval answers one open request with the ticket and appends one active manual source with the granted limit, window, granter, ticket and reason |
| `DomainAnswers.DenialWrites` | internal/admin/domain_entitlements_mutation.go:117-138 | a denial answers the latest open request and changes nothing else |
| `DomainAnswers.ControlWrites` | internal/admin/domain_entitlements_mutation.go:140-181 | a control suspends exactly the pending and enabled domains of its workspace and answers their number |
| `DomainAnswers.AnswerIsCurrent` | internal/admin/domain_entitlements_decision.go:108-166 | the answer to a new decision carries the authority after it and the number of domains taken out of routing |
| `DomainAnswers.LatestOpenShown` | internal/admin/domain_entitlements_mutation.go:60-80 | the request a resolution shows is the latest open one |
| `DomainDecisions.ReplayExactly` | internal/admin/governance_idempotency.go:12-31 | after a decision, whatever happened since, an admitted repetition under its key gets the answer on record and changes nothing, and anything else under that key is refused |
| `DomainDecisions.DecidesOnce` | internal/admin/governance_idempotency.go:12-40 | over any run a key decides exactly once if the run put it on record, and never otherwise |
| `DomainDecisions.ActsUnderFreshKey` | internal/admin/service.go:297-311 | only an authorised decision under a new key changes anything, and it adds that one record |
| `Analytics.IncrementalEqualsBatch` | internal/analytics/store.go:73-128 | in every reachable state the aggregate is the group-by of the log, which a rebuild would write, if and only if no delivered click fell into the last half microsecond of an hour |
| `Analytics.DeliveredExactlyOnce` | internal/analytics/store.go:73-128 | after any interleaving of accepting, publishing, dying before the mark, redelivering and reconciling, the log holds each delivered click once and nothing else, and the aggregate counts each once under its own hour |
| `Analytics.TotalsAgree` | internal/analytics/reconcile.go:135-146 | consumed events equal the aggregate's total and do not exceed the accepted ones, in every reachable state |
| `Analytics.DrainedIsComplete` | internal/analytics/store.go:24-56 | once everything accepted was published and everything published delivered, all three totals are equal |
| `AnalyticsDelivery.PublishedReachStream` | internal/analytics/store.go:44-56 | over any run an event is on record as published only if its click is on the stream, and the outbox lists each event once in the order of creation |
| `AnalyticsDelivery.AcceptsExactly` | internal/analytics/store.go:24-42 | an event is accepted if and only if its fields are filled in and neither of its keys is taken; it then is pending |
| `AnalyticsDelivery.AggregateMeaning` | internal/analytics/store.go:100-120 | in every reachable state each aggregate row counts the delivered clicks of its workspace, link and dimensions whose instant falls into its hour |
| `AnalyticsDelivery.PersistAnswers` | internal/analytics/store.go:73-128 | a delivery answers that it counted the click if and only if it was not delivered before |
| `Analytics.RepairExact` | internal/analytics/reconcile.go:59-133 | whatever the table held, after a repair it is the group-by if and only if its total was wrong or it already was |
| `Analytics.ReconcileReports` | internal/analytics/reconcile.go:59-133 | a reconciliation reports the totals before and after, a mismatch if and only if they differed and a repair if and only if one was also asked for, and records its run once |
| `Analytics.RepairNeverWrites` | internal/analytics/reconcile.go:59-133 | in every reachable state the totals agree, so reconciliation reports no mismatch and leaves the table alone |
| `Analytics.RepairMissesMovedCount` | internal/analytics/reconcile.go:59-133 | a run from an empty pipeline: one click accepted, published, delivered and repaired stays counted under another hour than the log has it |
| `Analytics.PublicationIsWrittenOnce` | internal/analytics/store.go:44-56 | over any run the first publication time of an event stays on record |
| `AnalyticsStore.RecoveryKeepsInv` | internal/analytics/reconcile.go:31-57 | recovery, with any pattern of failures, keeps the pipeline's invariant and counts nothing |
| `AnalyticsStore.Store.InsertOutboxTx` | internal/analytics/store.go:24-42 | a valid event with both keys free is accepted |
| `AnalyticsStore.Store.MarkOutboxPublished` | internal/analytics/store.go:44-56 | the first publication is kept, attempts go up and the error is cleared |
| `AnalyticsStore.Store.PersistConsumedEvent` | internal/analytics/store.go:73-128 | an event is logged at its stored time and counted once under the hour it carries; a known one changes nothing |
| `AnalyticsStore.Store.ReconcileAggregates` | internal/analytics/reconcile.go:59-133 | totals are compared, the table rebuilt when asked and different, and the run recorded |
| `AnalyticsStore.Store.AuthoritativeTotals` | internal/analytics/reconcile.go:135-146 | the three totals are counted from the tables |
| `AnalyticsStore.Store.RecoverUnpublishedOutbox` | internal/analytics/reconcile.go:31-57 | the oldest unpublished events up to the limit are handled one by one; the stream grows by exactly the clicks of those that were published, in order, and those also marked are counted as published, the others as failed |
| `AnalyticsStore.RecoveredReachStream` | internal/analytics/reconcile.go:38-52 | recovery appends to the stream exactly the clicks of the events it published, in order, and leaves rows it was not given alone |
| `AnalyticsStore.RecoveredRows` | internal/analytics/reconcile.go:38-52 | each recovered row follows its own outcome: a failure raises attempts and is noted, a mark sets the first publication, raises attempts and clears the error, a lost mark changes nothing |
| `AnalyticsDelivery.PendingExactly` | internal/analytics/store.go:130-160 | the pending events are exactly the oldest unpublished ones up to the limit, in order, each once |
| `AnalyticsDelivery.RecoveryReachesStream` | internal/analytics/reconcile.go:31-57 | whatever fails, recovery marks an event published only if it is on the stream |
| `AnalyticsDelivery.RecoveryDrains` | internal/analytics/reconcile.go:31-57 | where every publication and mark goes through, a recovery leaves pending exactly what did not fit its limit |
| `AnalyticsReport.QueryReport` | internal/analytics/query.go:167-262 | refused exactly on an invalid query or a link of another workspace; otherwise one pass over the selected clicks yields the total, each list is the sorted group-by of the same clicks, conversions are counted over the same window; window, flag and state as documented |
| `AnalyticsReport.CountClicks` | internal/analytics/query.go:198-209 | incrementing six counters per click yields six group-bys |
| `AnalyticsReport.ListOf` | internal/analytics/query.go:429-441 | the list holds each group of the table once, sorted |
| `AnalyticsReport.EffectiveFrom` | internal/analytics/query.go:185-193 | the retention clamp stays inside the request, reaches no further back than the cutoff, and changes nothing it need not |
| `AnalyticsReport.ListConserves` | internal/analytics/query.go:194-214 | each list of a report sums to its total |
| `AnalyticsDrilldown.FilterIsGroup` | internal/analytics/query.go:304-344 | filtering by a country, device, language, source, campaign or link gives the total the report without that filter lists for the value |
| `AnalyticsDrilldown.UnfilteredClicks` | internal/analytics/query.go:304-344 | without filter and link a report is about all logged clicks of its workspace from its start up to its end |
| `AnalyticsDrilldown.WindowsAdd` | internal/analytics/query.go:304-344 | the totals and conversions of two windows that meet add up to those of both together |
| `AnalyticsDrilldown.ConversionsCounted` | internal/analytics/query.go:346-372 | conversions are those of the workspace and window, by campaign and link where asked, and do not depend on the other filters |
| `AnalyticsDrilldown.ListsInOrder` | internal/analytics/query.go:215-441 | buckets come in the order of their keys, the values of a dimension by falling clicks and then by key |
| `AnalyticsDrilldown.RetentionInDays` | internal/analytics/query.go:185-193 | the clamp cuts at the given number of days of 24 hours before now |
| `AnalyticsReport.ReportMatchesAggregate` | internal/analytics/store.go:100-120 | where the window left by the retention clamp starts and ends on whole hours, an unfiltered report's total is the sum of the aggregate rows in it |
| `AnalyticsReport.ReportBounds` | internal/analytics/query.go:185-214 | for every unfiltered query, after the retention clamp, the total lies between the sums of the aggregate rows of the hours inside the window and of those it touches |
| `Tallies.TallyOneMore` | internal/analytics/store.go:100-120 | incrementing the counter of one more row's group gives the group-by of the larger log |
| `BioRuns.NormalizeChildrenList` | internal/bio/store.go:169-214 | the loop, the sort and the final check compute the specified list, or refuse it |
| `BioPages.AcceptedExactly` | internal/bio/store.go:169-214 | a list is accepted if and only if it is short and clean, no id repeats, and its positions are 0 to n-1 in some order |
| `BioPages.NormalizeMeaning` | internal/bio/store.go:169-214 | an accepted list is a permutation of the input with item i at position i and no id twice |
| `BioPages.ItemsAtPositions` | internal/bio/store.go:169-214 | each submitted child becomes the item at its position with its id, label and destination |
| `BioStore.ChildTable.Write` | internal/bio/store.go:450-495 | every insert and update of a row finds its position free and leaves positions unique |
| `BioStore.ChildTable.ShiftPositions` | internal/bio/store.go:462-464 | moving a page's rows out of the way, row by row in any order, never repeats a position |
| `BioStore.ChildTable.ReplaceChildren` | internal/bio/store.go:450-495 | the in-place update ends in exactly the placed list, without repeating a position on the way, or refuses a foreign id and changes nothing |
| `BioStore.PlacedMeaning` | internal/bio/store.go:450-495 | item i is the page's one row at position i, under its own id when it had one, dropped rows are gone and other pages are untouched |
| `BioStore.ApprovalCarried` | internal/bio/store.go:474-486 | a risk decision is carried over if and only if the row is kept with the same fingerprint |
| `BioStore.NextIsFree` | internal/bio/store.go:465-495 | partway through the list, with the old rows shifted away, the next item's position is free |
| `BioRuns.RunKeepsSite` | internal/bio/store.go:234-313 | over any run each page's children sit at 0, 1, ... once each and a workspace's counter is the number of its live pages, within the quota |
| `BioRuns.AllowedMeansApproved` | internal/bio/store.go:646-659 | over any run a child that is allowed, or blocked, shows a destination that was itself allowed, or blocked, for that very child |
| `BioEdits.SecondWriterRefused` | internal/bio/store.go:387-522 | once an update or deletion of a page went through, none that expects the same version ever does again, whatever happens in between |
| `BioEdits.RunMovesPage` | internal/bio/store.go:387-641 | over any run a page keeps its workspace, a deleted one stays as it is, and every change shows in a higher version |
| `BioEdits.UpdatesExactly` | internal/bio/store.go:387-440 | an update is accepted if and only if the page is live, the workspace's and at the expected version, something is given, each part is valid and listed ids are the page's |
| `BioEdits.UpdateMeaning` | internal/bio/store.go:441-522 | an update raises the version by one, writes the parts given, keeps the others, makes the page's rows the submitted list with decisions kept for unchanged destinations, and changes no other page |
| `BioEdits.CreatesExactly` | internal/bio/store.go:234-275 | a page is created if and only if title, biography and list are valid and the workspace has fewer live pages than its quota |
| `BioEdits.CreateMeaning` | internal/bio/store.go:276-313 | a new page is live at version 1 with what was submitted, its rows under review, and counted |
| `BioEdits.DeletesExactly` | internal/bio/store.go:599-641 | a page is deleted if and only if it is live, the workspace's and at the expected version; its content stays and the counter goes down by one |
| `BioEdits.RefusedWrites` | internal/bio/store.go:387-641 | why a write to a page is refused: its input, a page that is not the workspace's, its state or version |
| `BioEdits.SyncsExactly` | internal/bio/store.go:646-659 | any decision, allowed, blocked or review, is stored if and only if the child still has the destination it is about |
| `BioRuns.Store.Create` | internal/bio/store.go:234-313 | a page with a valid title and biography and its rows is created and counted below the quota, or refused as specified |
| `BioRuns.Store.Update` | internal/bio/store.go:387-522 | the versioned update of title, biography and list, each only where given, or the specified refusal with nothing changed |
| `BioRuns.Store.Delete` | internal/bio/store.go:599-641 | the page is marked deleted and the counter lowered, not below zero |
| `BioRuns.Store.SyncChildRisk` | internal/bio/store.go:646-659 | a decision is stored only where the child still has the fingerprint it is about |
| `WebhookWorker.RunKeepsInv` | internal/admin/webhooks.go:566-607 | in every interleaving, with crashes and expiring leases, attempts never exceed five, a retrying delivery has at most four, and no lease token is held twice |
| `WebhookWorker.ReleaseKeepsOthers` | internal/admin/webhooks.go:468-470 | a release never removes another worker's lease |
| `WebhookWorker.DeliveredIsFinal` | internal/admin/webhooks.go:566-579 | no run changes a delivered delivery |
| `WebhookOutcomes.DeliveredExactly` | internal/admin/webhooks.go:566-579 | over any run a delivery is delivered if and only if an accepted outcome was recorded for it |
| `WebhookOutcomes.StatusFollowsOutcomes` | internal/admin/webhooks.go:566-624 | over any run without an outcome on a changed count, the recorded outcomes determine the row: delivered after an accepted one, failed after a permanent rejection or the fifth outcome, otherwise due 1, 5, 15 or 60 minutes after the last attempt |
| `WebhookOutcomes.FailsExactly` | internal/admin/webhooks.go:581-607 | in any state a recorded rejection fails the delivery if and only if it is permanent or the worker had loaded at least four attempts |
| `WebhookOutcomes.OneDeliveryPerEvent` | internal/admin/webhooks.go:384-388 | over any run there is one delivery for a webhook and an event |
| `WebhookOutcomes.QueuedExactly` | internal/admin/webhooks.go:342-389 | an event is queued if and only if the webhook is active and it was not queued for it before; it then is due at once |
| `WebhookOutcomes.AsksExactly` | internal/admin/webhooks.go:448-487 | a worker takes the lease if and only if nobody has it, and asks the endpoint if and only if the delivery then still is to be made, due and its webhook active |
| `WebhookOutcomes.LeasesEnd` | internal/admin/webhooks.go:466-470 | a worker that leaves gives up its own lease only, a crash leaves it behind, an expiry takes it from anyone |
| `WebhookWorker.FiveOutcomes` | internal/admin/webhooks.go:414-446 | where leases expire only when nobody relies on them, attempts counts the outcomes recorded since the last manual retry, and there are at most five |
| `WebhookWorker.CountsExactly` | internal/admin/webhooks.go:566-607 | over any run attempts is always the number of outcomes recorded since the last manual retry if and only if no outcome was recorded on a count that had changed since the worker loaded it |
| `WebhookWorker.OverlapLosesACount` | internal/admin/webhooks.go:581-607 | without that condition a concrete run records two outcomes and counts one |
| `WebhookWorker.Authority.NextDueDelivery` | internal/admin/webhooks.go:537-547 | the due delivery with the earliest next attempt, then the smallest id, is found if there is any |
| `WebhookWorker.Authority.MarkDelivery` | internal/admin/webhooks.go:566-607 | an outcome is recorded only on a delivery still retrying: delivered if and only if accepted, failed if and only if rejected for good or for the fifth time, and no other delivery changes |
| `WebhookWorker.Authority.RetryDelivery` | internal/admin/webhooks.go:414-446 | succeeds if and only if the delivery had failed and its webhook is active; then it is due with no attempts, and no other delivery changes |
| `WebhookWorker.Authority.ReleaseDelivery` | internal/admin/webhooks.go:468-470 | a lease survives if and only if it is another delivery's or has another token |
| `WebhookWorker.Authority.RunDeliveryOnce` | internal/admin/webhooks.go:448-524 | one worker alone takes exactly the protocol's steps for the first due delivery: under somebody's lease it changes nothing, otherwise the outcome decides the row and the lease is given back |

## Left out

- HTTP handlers, cookies, JSON, sessions, and error texts; error codes are merged into a few values. Of authorization only that of domain decisions is modelled. An administrator's instants arrive as whole microseconds (internal/admin/http_domain_entitlements.go:104-117).
- Audit and notification rows, except the audit of callbacks and schedules, which is an append-only sequence.
- Hashing, encryption, signatures, random ids, DNS, TLS and Redis clients: injective constructors, fresh values or arbitrary answers.
- SQL isolation: a transaction is one atomic step. The schema's checks are evaluated on the tables a transaction would commit, not statement by statement.
- Time below a microsecond outside billing and the click pipeline, and in the bounds of a report: nothing is derived from it there, and a comparison shifts by at most a microsecond.
- Edits of plan rows during a run, and plans edited between an order and its payment.
- Promotion outside a downgrade request: the runs also contain promotion as a step of its own, which the code takes only inside `ScheduleDowngrade`, so that they are a superset of the code's runs.
- Billing grants and domain sources written by other packages are arbitrary edits of rows billing does not own; the agreement of the two ledgers is about billing's own rows.
- Title, biography, label, destination and hostname normalisation and public suffixes: parameters that carry the normaliser's answer.
- Bucket keys and time zones: a parameter of the report. Bucket and dimension texts are numbers in the order of the texts.
- Recording conversions, dataset completeness updates and pagination.
- Ownership, ingress, HTTPS and risk verification: steps that may set the axes of a domain to anything.
- Domain requests: kept in the order of submission instead of by timestamp.
- The page transitions publish, unpublish and archive, and the tests for a blank actor, correlation or reason on page writes.
- User, role, announcement, setting, API-key, file, mail and support administration, payment intents, exchange rates, the installer and all rendering: short switches that add only easy members.
- Marks of publication without a publication: the caller marks with what the stream returned, so a mark is a step only where the click is on the stream.
- The order a repeated request is answered with: the model says that nothing was created, and `BillingOrders.OneOrderPerKey` which order it is.
- WebhookWorker.Authority.RunDeliveryOnce: runs without interference, so the reload finds the picked row; interference is in the interleaved steps of the run properties.
