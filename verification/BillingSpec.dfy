/**
 * The billing tables and what each transaction does to them, as functions on table values.
 * A failed transaction is rolled back: it has no new tables. The methods that run these
 * transactions statement by statement are in BillingStore.
 */
module BillingSpec {
  import opened Foundations
  import opened Calendar
  import opened BillingModel
  import D = DomainEntitlement

  datatype OrderKind = NewOrder | Upgrade | Renewal

  datatype OrderStatus = OrderPending | OrderProcessing | OrderPaid | OrderFailed | OrderCanceled | OrderRefunded

  datatype Order = Order(
    workspace: nat, plan: nat, kind: OrderKind, money: Money, status: OrderStatus, idempotencyKey: nat)

  datatype InvoiceStatus = InvoiceOpen | InvoicePaid | InvoiceVoid | InvoiceRefunded

  datatype Invoice = Invoice(
    workspace: nat, money: Money, status: InvoiceStatus, paidAt: Option<Micros>, refundedAt: Option<Micros>)

  datatype TransactionStatus = TransactionPending | TransactionPaid | TransactionFailed | TransactionRefunded

  datatype Transaction = Transaction(workspace: nat, order: nat, money: Money, status: TransactionStatus)

  /** Provider transactions and callback events are unique per provider. */
  datatype ProviderKey = ProviderKey(provider: Provider, id: nat)

  datatype Event = Event(transactionId: nat, eventType: nat, receivedAt: Micros)

  /** uq_entitlement_grant_source. */
  datatype GrantKey = GrantKey(workspace: nat, capability: Capability, sourceType: SourceType, sourceId: SourceId)

  /** uq_domain_entitlement_source. */
  datatype SourceKey = SourceKey(workspace: nat, kind: D.Kind, key: D.Key)

  datatype Audit = DuplicateCallback(event: ProviderKey)
    | ProcessedCallback(event: ProviderKey, outcome: TransactionStatus)
    | DowngradeScheduled(actor: nat, subscription: SubId)

  datatype Database = Database(
    plans: map<nat, Plan>,
    orders: map<nat, Order>,
    invoices: map<nat, Invoice>,                   // by order: uq_billing_invoice_order
    transactions: map<ProviderKey, Transaction>,
    events: map<ProviderKey, Event>,
    subs: map<SubId, Subscription>,
    grants: map<GrantKey, Grant>,
    sources: map<SourceKey, D.Source>,
    audit: seq<Audit>)

  /** Tables a subscription step leaves alone. */
  predicate SameLedger(db: Database, db': Database) {
    && db.plans == db'.plans && db.orders == db'.orders && db.invoices == db'.invoices
    && db.transactions == db'.transactions && db.events == db'.events
  }

  /** Tables a settlement leaves alone; of orders and invoices it touches one row. */
  predicate SameLedgerBut(db: Database, db': Database, o: nat) {
    && db.plans == db'.plans && db.transactions == db'.transactions && db.events == db'.events
    && db.orders.Keys == db'.orders.Keys && (forall i :: i in db.orders && i != o ==> db'.orders[i] == db.orders[i])
    && db.invoices.Keys == db'.invoices.Keys
      && (forall i :: i in db.invoices && i != o ==> db'.invoices[i] == db.invoices[i])
  }

  // ---------------------------------------------------------------- schema constraints

  /** chk_entitlement_grant_limit, _window and _revoke of migrations/000009. */
  predicate GrantChecks(g: Grant) {
    && (g.sourceType.HardDeny? || g.limit > 0)
    && (g.endsAt.Some? ==> g.startsAt < g.endsAt.value)
    && (g.revokedAt.Some? ==> g.startsAt <= g.revokedAt.value)
  }

  /** chk_workspace_subscription_version, _term and _grace. */
  predicate SubscriptionChecks(s: Subscription) {
    && s.version >= 1
    && (s.termEndsAt.Some? ==> s.startsAt < s.termEndsAt.value)
    && (s.graceEndsAt.Some? && s.termEndsAt.Some? ==> s.termEndsAt.value <= s.graceEndsAt.value)
  }

  predicate SchemaOk(db: Database) {
    && (forall k :: k in db.grants ==> GrantChecks(db.grants[k]))
    && (forall id :: id in db.subs ==> SubscriptionChecks(db.subs[id]))
  }

  // ---------------------------------------------------------------- custom-domain plan sources

  type Sources = map<SourceKey, D.Source>

  function PlanSourceKey(w: nat, key: D.Key): SourceKey { SourceKey(w, D.Plan, key) }

  /** UpsertPlanSourceTx with an active status and no downgrade. */
  function UpsertPlanSource(sources: Sources, w: nat, key: D.Key, limit: nat, startsAt: Micros,
                            expiresAt: Option<Micros>, reason: D.Reason): Result<Sources> {
    var source := D.Source(w, D.Plan, key, D.Active, limit, startsAt, expiresAt, None, None, 0, 0, reason, 0);
    if !D.Valid(source) then Failure(InvalidSource)
    else Success(sources[PlanSourceKey(w, key) := source])
  }

  /** ExpirePlanSourceTx: a missing or already expired source is left alone. */
  function ExpirePlanSource(sources: Sources, w: nat, key: D.Key): Sources {
    var k := PlanSourceKey(w, key);
    if k !in sources || sources[k].status.Expired? then sources
    else
      sources[k := sources[k].(status := D.Expired, degradedAt := None, graceUntil := None,
                               reason := D.BillingExpired, category := 0)]
  }

  /** ApplyNormalPlanDowngradeTx: the seven-day boundary is written once. */
  function ApplyNormalPlanDowngrade(sources: Sources, w: nat, key: D.Key, degradedAt: Instant): Result<Sources> {
    var k := PlanSourceKey(w, key);
    if k !in sources then Failure(NotFound)
    else
      var source := sources[k];
      var graceUntil := degradedAt.Plus(D.GRACE);
      if !source.status.Active? || degradedAt.Before(source.startsAt) then Failure(Conflict)
      else if source.degradedAt.Some? then
        if ReadBack(source.degradedAt.value) == degradedAt
           && source.graceUntil.Some? && ReadBack(source.graceUntil.value) == graceUntil
        then Success(sources) else Failure(Conflict)
      else
        Success(sources[k := source.(degradedAt := Some(degradedAt.Stored()), graceUntil := Some(graceUntil.Stored()),
                                     reason := D.BillingDowngrade, category := 0)])
  }

  /** The plan's limit_value row for custom domains, if it has one. */
  function DomainLimit(plans: map<nat, Plan>, plan: nat): Option<nat> {
    if plan in plans && CustomDomains in plans[plan].entitlements
    then Some(plans[plan].entitlements[CustomDomains]) else None
  }

  /** projectP06DomainEntitlementTx. */
  function ProjectDomainEntitlement(sources: Sources, w: nat, limit: Option<nat>, sub: Subscription): Result<Sources> {
    if limit.None? then Success(ExpirePlanSource(sources, w, D.BillingKey))
    else if limit.value == 0 || limit.value > MAX_UINT32 then Failure(Conflict)
    else UpsertPlanSource(sources, w, D.BillingKey, limit.value, sub.startsAt, sub.termEndsAt, D.BillingActive)
  }

  /** promoteP06DowngradeTargetTx. */
  function PromoteDomainTarget(sources: Sources, limit: Option<nat>, target: Subscription): Result<Sources> {
    var w := target.workspace;
    if limit.None? then
      Success(ExpirePlanSource(ExpirePlanSource(sources, w, D.BillingKey), w, D.TargetKey))
    else if limit.value == 0 || limit.value > MAX_UINT32 then Failure(Conflict)
    else
      var promoted :-
        UpsertPlanSource(sources, w, D.BillingKey, limit.value, target.startsAt, target.termEndsAt, D.BillingEffective);
      Success(ExpirePlanSource(promoted, w, D.TargetKey))
  }

  /**
   * projectP06ScheduledDowngradeTx. The target source is validated before it is stored; its two ends share
   * their nanoseconds, so that they are in order exactly when the stored ones are.
   */
  function ProjectScheduledDowngrade(sources: Sources, w: nat, current: Plan, target: Plan, graceStart: Instant,
                                     targetTermEnd: Option<Micros>): Result<Sources> {
    var currentLimit := if CustomDomains in current.entitlements then current.entitlements[CustomDomains] else 0;
    var targetLimit := if CustomDomains in target.entitlements then target.entitlements[CustomDomains] else 0;
    if currentLimit > MAX_UINT32 || targetLimit > MAX_UINT32 then Failure(Conflict)
    else if currentLimit == 0 then Success(ExpirePlanSource(sources, w, D.TargetKey))
    else
      var degraded :- ApplyNormalPlanDowngrade(sources, w, D.BillingKey, graceStart);
      if targetLimit == 0 then Success(ExpirePlanSource(degraded, w, D.TargetKey))
      else
        UpsertPlanSource(degraded, w, D.TargetKey, targetLimit, graceStart.Plus(D.GRACE).Stored(), targetTermEnd,
                         D.BillingTarget)
  }

  // ---------------------------------------------------------------- subscriptions and grants

  predicate Billable(status: SubscriptionStatus) { status.Active? || status.Grace? || status.Overdue? }

  function BillableIds(subs: map<SubId, Subscription>, w: nat): set<SubId> {
    set id | id in subs && subs[id].workspace == w && Billable(subs[id].status)
  }

  function PendingIds(subs: map<SubId, Subscription>, w: nat): set<SubId> {
    set id | id in subs && subs[id].workspace == w && subs[id].status.Pending?
  }

  predicate OwnedBy(k: GrantKey, w: nat, ids: set<SubId>) {
    k.workspace == w && k.sourceType.Billing? && k.sourceId.SubRef? && k.sourceId.sub in ids
  }

  function Revoked(g: Grant, now: Micros): Grant { g.(revokedAt := Coalesce(g.revokedAt, now)) }

  function RevokeGrants(grants: map<GrantKey, Grant>, w: nat, ids: set<SubId>, now: Micros): map<GrantKey, Grant> {
    map k | k in grants :: if OwnedBy(k, w, ids) then Revoked(grants[k], now) else grants[k]
  }

  function Canceled(s: Subscription, now: Micros): Subscription {
    s.(status := SubscriptionStatus.Canceled, cancelAt := Coalesce(s.cancelAt, now), version := s.version + 1)
  }

  function CancelSubs(subs: map<SubId, Subscription>, ids: set<SubId>, now: Micros): map<SubId, Subscription> {
    map id | id in subs :: if id in ids then Canceled(subs[id], now) else subs[id]
  }

  /** cancelScheduledDowngradeTx. */
  function CancelScheduled(db: Database, w: nat, now: Micros): (r: Database)
    ensures SameLedger(db, r)
  {
    var pending := PendingIds(db.subs, w);
    db.(grants := RevokeGrants(db.grants, w, pending, now),
        subs := CancelSubs(db.subs, pending, now),
        sources := ExpirePlanSource(db.sources, w, D.TargetKey))
  }

  /** The key of a subscription's grant for one capability. */
  function OwnKey(w: nat, c: Capability, id: SubId): GrantKey { GrantKey(w, c, Billing, SubRef(id)) }

  function PlanKeys(w: nat, id: SubId, entitlements: map<Capability, nat>): set<GrantKey> {
    set c | c in entitlements :: OwnKey(w, c, id)
  }

  /** The billing grants of one subscription: one per entitlement of its plan. */
  function PlanGrants(w: nat, id: SubId, entitlements: map<Capability, nat>, startsAt: Micros,
                      endsAt: Option<Micros>): map<GrantKey, Grant> {
    map k | k in PlanKeys(w, id, entitlements)
      :: Grant(w, k.capability, Billing, SubRef(id), entitlements[k.capability], startsAt, endsAt, None)
  }

  /** The subscriptions an activation supersedes are expired. */
  function ExpireOthers(subs: map<SubId, Subscription>, w: nat, keep: SubId, now: Micros): map<SubId, Subscription> {
    map id | id in subs ::
      if subs[id].workspace == w && Billable(subs[id].status) && id != keep
      then subs[id].(status := SubscriptionStatus.Expired, termEndsAt := Coalesce(subs[id].termEndsAt, now),
                     version := subs[id].version + 1)
      else subs[id]
  }

  function RevokeOthers(grants: map<GrantKey, Grant>, w: nat, keep: SubId, now: Micros): map<GrantKey, Grant> {
    map k | k in grants ::
      if k.workspace == w && k.sourceType.Billing? && k.sourceId != SubRef(keep) && grants[k].revokedAt.None?
      then Revoked(grants[k], now) else grants[k]
  }

  function ActivatedRow(subs: map<SubId, Subscription>, id: SubId, w: nat, plan: nat, now: Micros,
                        termEnd: Option<Micros>): Subscription {
    if id in subs then
      subs[id].(status := SubscriptionStatus.Active, plan := plan, termEndsAt := termEnd, graceEndsAt := None,
                cancelAt := None, version := subs[id].version + 1)
    else Subscription(w, plan, SubscriptionStatus.Active, now, termEnd, None, None, 1)
  }

  /** activateSubscriptionTx. */
  function Activate(db: Database, orderId: nat, order: Order, at: Instant): (r: Result<Database>)
    ensures r.Success? ==> SameLedger(db, r.value) && OrderSub(orderId) in r.value.subs
  {
    if order.plan !in db.plans then Failure(NotFound)
    else
      var (w, now) := (order.workspace, at.Stored());
      var plan := db.plans[order.plan];
      var termEnd := StoredTermEnd(plan.period, at);
      var id := OrderSub(orderId);
      var db1 := CancelScheduled(db, w, now);
      var subs := ExpireOthers(db1.subs, w, id, now);
      Success(db1.(
        subs := subs[id := ActivatedRow(subs, id, w, order.plan, now, termEnd)],
        grants := RevokeOthers(db1.grants, w, id, now) + PlanGrants(w, id, plan.entitlements, now, termEnd)))
  }

  function CancelOwn(subs: map<SubId, Subscription>, id: SubId, w: nat, now: Micros): map<SubId, Subscription> {
    if id in subs && subs[id].workspace == w then subs[id := Canceled(subs[id], now)] else subs
  }

  /** revokeSubscriptionTx. */
  function RevokeSubscription(db: Database, orderId: nat, w: nat, now: Micros): (r: Database)
    ensures SameLedger(db, r)
  {
    var id := OrderSub(orderId);
    db.(subs := CancelOwn(db.subs, id, w, now), grants := RevokeGrants(db.grants, w, {id}, now))
  }

  /** subscriptionControlsCurrentBillingTx. */
  predicate ControlsCurrent(subs: map<SubId, Subscription>, orderId: nat, w: nat) {
    var id := OrderSub(orderId);
    id in subs && subs[id].workspace == w && Billable(subs[id].status)
  }

  // ---------------------------------------------------------------- the current subscription

  predicate Newer(subs: map<SubId, Subscription>, a: SubId, b: SubId)
    requires a in subs && b in subs
  {
    subs[a].startsAt > subs[b].startsAt || (subs[a].startsAt == subs[b].startsAt && IdBefore(b, a))
  }

  ghost predicate IsNewest(subs: map<SubId, Subscription>, ids: set<SubId>, id: SubId)
    requires ids <= subs.Keys
  {
    id in ids && forall o :: o in ids && o != id ==> Newer(subs, id, o)
  }

  lemma NewestUnique(subs: map<SubId, Subscription>, ids: set<SubId>, a: SubId, b: SubId)
    requires ids <= subs.Keys && IsNewest(subs, ids, a) && IsNewest(subs, ids, b)
    ensures a == b
  {
    IdBeforeTotal(a, b);
  }

  /** The first row of ORDER BY starts_at DESC, id DESC. */
  ghost function Newest(subs: map<SubId, Subscription>, ids: set<SubId>): (r: SubId)
    requires ids <= subs.Keys && ids != {}
    ensures IsNewest(subs, ids, r)
  {
    var x :| x in ids;
    if ids == {x} then x
    else
      var y := Newest(subs, ids - {x});
      IdBeforeTotal(x, y);
      if Newer(subs, x, y) then
        NewerTransitive(subs, ids - {x}, x, y);
        x
      else y
  }

  lemma NewerTransitive(subs: map<SubId, Subscription>, ids: set<SubId>, x: SubId, y: SubId)
    requires ids <= subs.Keys && x in subs && IsNewest(subs, ids, y) && Newer(subs, x, y)
    ensures forall o :: o in ids ==> Newer(subs, x, o)
  {
    forall o | o in ids
      ensures Newer(subs, x, o)
    {
      if o != y && IdBefore(o, y) && IdBefore(y, x) { IdBeforeTransitive(o, y, x); }
    }
  }

  function DuePending(subs: map<SubId, Subscription>, w: nat, now: Instant): set<SubId> {
    set id | id in subs && subs[id].workspace == w && subs[id].status.Pending? && subs[id].startsAt <= now.Stored()
  }

  function Promoted(s: Subscription): Subscription {
    s.(status := SubscriptionStatus.Active, version := s.version + 1)
  }

  /** promoteDuePendingSubscriptionTx. */
  ghost function PromoteDuePending(db: Database, w: nat, now: Instant): (r: Result<(Database, SubId)>)
    ensures r.Success? ==> SameLedger(db, r.value.0) && r.value.1 in r.value.0.subs
    ensures r.Success? ==> r.value.0.subs[r.value.1].workspace == w
  {
    var due := DuePending(db.subs, w, now);
    if due == {} then Failure(NotFound)
    else
      var id := Newest(db.subs, due);
      var target := db.subs[id];
      var sources :- PromoteDomainTarget(db.sources, DomainLimit(db.plans, target.plan), target);
      Success((db.(sources := sources, subs := db.subs[id := Promoted(target)]), id))
  }

  /**
   * loadCurrentSubscriptionForUpdate: a due scheduled downgrade is promoted first. Its target is looked up
   * under the id derived from the stored grace end.
   */
  ghost function LoadCurrent(db: Database, w: nat, now: Instant): (r: Result<(Database, SubId)>)
    ensures r.Success? ==> SameLedger(db, r.value.0) && r.value.1 in r.value.0.subs
    ensures r.Success? ==> r.value.0.subs[r.value.1].workspace == w
  {
    var ids := BillableIds(db.subs, w);
    if ids == {} then PromoteDuePending(db, w, now)
    else
      var id := Newest(db.subs, ids);
      var sub := db.subs[id];
      if !sub.status.Grace? || sub.graceEndsAt.None? || now.Before(sub.graceEndsAt.value) then Success((db, id))
      else
        var targetId := TargetSub(id, ReadBack(sub.graceEndsAt.value));
        if targetId !in db.subs then Failure(NotFound)
        else
          var target := db.subs[targetId];
          if target.workspace != w || !target.status.Pending? || now.Before(target.startsAt) then Failure(Conflict)
          else
            var sources :- PromoteDomainTarget(db.sources, DomainLimit(db.plans, target.plan), target);
            var expired := sub.(status := SubscriptionStatus.Expired, version := sub.version + 1);
            Success((db.(sources := sources, subs := db.subs[id := expired][targetId := Promoted(target)]), targetId))
  }

  // ---------------------------------------------------------------- scheduling a downgrade

  datatype ScheduleInput = ScheduleInput(workspace: nat, targetPlan: nat, expectedVersion: nat, actor: nat,
    now: Instant)

  /** graceStartsAt leaves out the nanoseconds, which are those of effectiveAt. */
  datatype Schedule = Schedule(current: SubId, target: SubId, graceStartsAt: int, effectiveAt: Instant, created: bool)

  function TargetRow(w: nat, plan: nat, graceEnd: Micros, termEnd: Micros): Subscription {
    Subscription(w, plan, SubscriptionStatus.Pending, graceEnd, Some(termEnd), None, None, 1)
  }

  function GraceRow(current: Subscription, now: Micros): Subscription {
    current.(status := SubscriptionStatus.Grace, termEndsAt := Some(now), graceEndsAt := Some(now + D.GRACE),
             cancelAt := None, version := current.version + 1)
  }

  /** The old subscription's unrevoked grants now end with its grace. */
  function EndGrants(grants: map<GrantKey, Grant>, w: nat, id: SubId, at: Micros): map<GrantKey, Grant> {
    map k | k in grants ::
      if OwnedBy(k, w, {id}) && grants[k].revokedAt.None? then grants[k].(endsAt := Some(at)) else grants[k]
  }

  /** The new target's grant rows must not exist yet (uq_entitlement_grant_source). */
  predicate GrantsFree(db: Database, w: nat, id: SubId, entitlements: map<Capability, nat>) {
    forall c :: c in entitlements ==> OwnKey(w, c, id) !in db.grants
  }

  function ScheduledTerm(db: Database, input: ScheduleInput): Option<Micros>
    requires input.targetPlan in db.plans
  {
    StoredTermEnd(db.plans[input.targetPlan].period, input.now.Plus(D.GRACE))
  }

  /** Why a request on an active subscription is refused, if it is. */
  function ScheduleRefusal(db: Database, currentId: SubId, input: ScheduleInput): Option<Error>
    requires currentId in db.subs
  {
    var current := db.subs[currentId];
    var targetId := TargetSub(currentId, input.now.Plus(D.GRACE));
    if !current.status.Active? || current.version != input.expectedVersion || !input.now.After(current.startsAt)
    then Some(Conflict)
    else if current.plan !in db.plans || input.targetPlan !in db.plans then Some(NotFound)
    else
      var target := db.plans[input.targetPlan];
      if !target.status.ActivePlan? || !StrictDowngrade(current.plan, db.plans[current.plan], input.targetPlan, target)
      then Some(Conflict)
      else if PendingIds(db.subs, input.workspace) != {} || ScheduledTerm(db, input).None? then Some(Conflict)
      else if targetId in db.subs || !GrantsFree(db, input.workspace, targetId, target.entitlements) then Some(Conflict)
      else if current.workspace != input.workspace then Some(Conflict)
      else None
  }

  function ScheduledSubs(subs: map<SubId, Subscription>, currentId: SubId, w: nat, plan: nat, now: Instant,
                         termEnd: Micros): map<SubId, Subscription>
    requires currentId in subs
  {
    subs[TargetSub(currentId, now.Plus(D.GRACE)) := TargetRow(w, plan, now.Stored() + D.GRACE, termEnd)]
        [currentId := GraceRow(subs[currentId], now.Stored())]
  }

  function ScheduledGrants(grants: map<GrantKey, Grant>, w: nat, currentId: SubId, entitlements: map<Capability, nat>,
                           now: Instant, termEnd: Option<Micros>): map<GrantKey, Grant> {
    EndGrants(grants, w, currentId, now.Stored() + D.GRACE)
      + PlanGrants(w, TargetSub(currentId, now.Plus(D.GRACE)), entitlements, now.Stored() + D.GRACE, termEnd)
  }

  function ScheduleFrom(db: Database, currentId: SubId, input: ScheduleInput): (r: Result<(Database, Schedule)>)
    requires currentId in db.subs
    ensures r.Success? ==> SameLedger(db, r.value.0)
  {
    var refusal := ScheduleRefusal(db, currentId, input);
    if refusal.Some? then Failure(refusal.value)
    else
      var w := input.workspace;
      var graceEnd := input.now.Plus(D.GRACE);
      var target := db.plans[input.targetPlan];
      var termEnd := ScheduledTerm(db, input);
      var sources :- ProjectScheduledDowngrade(db.sources, w, db.plans[db.subs[currentId].plan], target, input.now,
        termEnd);
      Success((db.(subs := ScheduledSubs(db.subs, currentId, w, input.targetPlan, input.now, termEnd.value),
                   grants := ScheduledGrants(db.grants, w, currentId, target.entitlements, input.now, termEnd),
                   sources := sources,
                   audit := db.audit + [DowngradeScheduled(input.actor, currentId)]),
               Schedule(currentId, TargetSub(currentId, graceEnd), input.now.at, graceEnd, true)))
  }

  /** ScheduleDowngrade. */
  ghost function ScheduleDowngrade(db: Database, input: ScheduleInput): (r: Result<(Database, Schedule)>)
    ensures r.Success? ==> SameLedger(db, r.value.0)
  {
    var w := input.workspace;
    if w == 0 || input.targetPlan == 0 || input.expectedVersion == 0 || input.actor == 0 || input.now.Zero()
    then Failure(InvalidInput)
    else
      var loaded :- LoadCurrent(db, w, input.now);
      var (db0, currentId) := loaded;
      var current := db0.subs[currentId];
      if current.status.Grace? then
        if current.graceEndsAt.None?
           || (input.expectedVersion != current.version && input.expectedVersion + 1 != current.version)
        then Failure(Conflict)
        else
          var effectiveAt := current.graceEndsAt.value;
          var targetId := TargetSub(currentId, ReadBack(effectiveAt));
          if targetId !in db0.subs || db0.subs[targetId].workspace != w
             || db0.subs[targetId].plan != input.targetPlan || !db0.subs[targetId].status.Pending?
          then Failure(Conflict)
          else Success((db0, Schedule(currentId, targetId, effectiveAt - D.GRACE, ReadBack(effectiveAt), false)))
      else ScheduleFrom(db0, currentId, input)
  }

  // ---------------------------------------------------------------- callbacks

  datatype Command = Command(
    provider: Provider,
    eventId: nat,
    transactionId: nat,
    orderId: nat,
    eventType: nat,
    correlation: nat,
    receivedAt: Instant,
    money: Money,
    outcome: TransactionStatus)

  datatype CallbackResult = CallbackResult(
    duplicate: bool, order: Order, transaction: Transaction, subscription: Option<SubId>)

  function EventKey(cmd: Command): ProviderKey { ProviderKey(cmd.provider, cmd.eventId) }
  function TransactionKey(cmd: Command): ProviderKey { ProviderKey(cmd.provider, cmd.transactionId) }

  /** validateCallbackCommand. */
  function ValidateCommand(cmd: Command): Option<Error> {
    if cmd.eventId == 0 || cmd.transactionId == 0 || cmd.orderId == 0 || cmd.eventType == 0 || cmd.correlation == 0
       || cmd.receivedAt.Zero()
    then Some(InvalidInput)
    else if !cmd.money.Charged() then Some(InvalidMoney)
    else if cmd.outcome.TransactionPending? then Some(InvalidInput)
    else None
  }

  /** transactionTransitionAllowed. */
  predicate TransitionAllowed(current: TransactionStatus, next: TransactionStatus) {
    || current == next
    || (current.TransactionPending? && (next.TransactionPaid? || next.TransactionFailed?))
    || (current.TransactionPaid? && next.TransactionRefunded?)
  }

  /** upsertTransactionTx. */
  function UpsertTransaction(db: Database, order: Order, cmd: Command): Result<Database> {
    var k := TransactionKey(cmd);
    if k in db.transactions then
      var t := db.transactions[k];
      if t.order != cmd.orderId || t.money != cmd.money || !TransitionAllowed(t.status, cmd.outcome)
      then Failure(Conflict)
      else Success(db.(transactions := db.transactions[k := t.(status := cmd.outcome)]))
    else
      Success(db.(transactions :=
        db.transactions[k := Transaction(order.workspace, cmd.orderId, cmd.money, cmd.outcome)]))
  }

  /** The rows a new event leaves before it is settled: the event itself and its transaction. */
  function Recorded(db: Database, cmd: Command): (r: Result<Database>)
    requires cmd.orderId in db.orders
    ensures r.Success? ==>
      r.value == db.(events := r.value.events, transactions := r.value.transactions)
  {
    var event := Event(cmd.transactionId, cmd.eventType, cmd.receivedAt.Stored());
    UpsertTransaction(db.(events := db.events[EventKey(cmd) := event]), db.orders[cmd.orderId], cmd)
  }

  function SetOrder(orders: map<nat, Order>, orderId: nat, status: OrderStatus): map<nat, Order>
    requires orderId in orders
  {
    orders[orderId := orders[orderId].(status := status)]
  }

  function PayInvoice(invoices: map<nat, Invoice>, orderId: nat, now: Micros): map<nat, Invoice> {
    if orderId !in invoices then invoices
    else invoices[orderId := invoices[orderId].(status := InvoicePaid,
      paidAt := Coalesce(invoices[orderId].paidAt, now))]
  }

  function RefundInvoice(invoices: map<nat, Invoice>, orderId: nat, now: Micros): map<nat, Invoice> {
    if orderId !in invoices then invoices
    else
      invoices[orderId := invoices[orderId].(status := InvoiceRefunded,
                                             refundedAt := Coalesce(invoices[orderId].refundedAt, now))]
  }

  function MarkPaid(db: Database, orderId: nat, now: Micros): (r: Database)
    requires orderId in db.orders
    ensures SameLedgerBut(db, r, orderId)
  {
    db.(orders := SetOrder(db.orders, orderId, OrderPaid), invoices := PayInvoice(db.invoices, orderId, now))
  }

  function MarkRefunded(db: Database, orderId: nat, now: Micros): (r: Database)
    requires orderId in db.orders
    ensures SameLedgerBut(db, r, orderId)
  {
    db.(orders := SetOrder(db.orders, orderId, OrderRefunded), invoices := RefundInvoice(db.invoices, orderId, now))
  }

  /** Activates the order's subscription and projects its custom-domain entitlement. */
  function ActivateAndProject(db: Database, orderId: nat, order: Order, now: Instant): (r: Result<Database>)
    ensures r.Success? ==> SameLedger(db, r.value)
  {
    var active :- Activate(db, orderId, order, now);
    var sources :- ProjectDomainEntitlement(active.sources, order.workspace, DomainLimit(db.plans, order.plan),
                                            active.subs[OrderSub(orderId)]);
    Success(active.(sources := sources))
  }

  /** The paid branch: settle the order, activate its subscription, project its entitlement. */
  function SettlePaid(db: Database, orderId: nat, now: Instant): (r: Result<(Database, Option<SubId>)>)
    requires orderId in db.orders
    ensures r.Success? ==> SameLedgerBut(db, r.value.0, orderId)
  {
    var order := db.orders[orderId];
    if !order.status.OrderPending? && !order.status.OrderProcessing? && !order.status.OrderPaid? then Failure(Conflict)
    else if order.status.OrderPaid? then Success((db, None))
    else
      var settled :- ActivateAndProject(MarkPaid(db, orderId, now.Stored()), orderId, order, now);
      Success((settled, Some(OrderSub(orderId))))
  }

  function SettleFailed(db: Database, orderId: nat): (r: Result<Database>)
    requires orderId in db.orders
    ensures r.Success? ==> SameLedgerBut(db, r.value, orderId)
  {
    var order := db.orders[orderId];
    if !order.status.OrderPending? && !order.status.OrderProcessing?
      && !order.status.OrderFailed? then Failure(Conflict)
    else Success(db.(orders := SetOrder(db.orders, orderId, OrderFailed)))
  }

  /** The refunded branch: only the subscription in control takes the schedule and the projection with it. */
  function SettleRefunded(db: Database, orderId: nat, now: Micros): (r: Result<Database>)
    requires orderId in db.orders
    ensures r.Success? ==> SameLedgerBut(db, r.value, orderId)
  {
    hide CancelScheduled, RevokeSubscription, MarkRefunded, ControlsCurrent, ExpirePlanSource;
    var order := db.orders[orderId];
    var w := order.workspace;
    if !order.status.OrderPaid? && !order.status.OrderRefunded? then Failure(Conflict)
    else if order.status.OrderRefunded? then Success(db)
    else
      var refunded := MarkRefunded(db, orderId, now);
      if ControlsCurrent(db.subs, orderId, w) then
        var revoked := RevokeSubscription(CancelScheduled(refunded, w, now), orderId, w, now);
        Success(revoked.(sources := ExpirePlanSource(revoked.sources, w, D.BillingKey)))
      else
        Success(RevokeSubscription(refunded, orderId, w, now))
  }

  function Settle(db: Database, cmd: Command): (r: Result<(Database, Option<SubId>)>)
    requires cmd.orderId in db.orders
    ensures r.Success? ==> SameLedgerBut(db, r.value.0, cmd.orderId)
  {
    match cmd.outcome
    case TransactionPaid => SettlePaid(db, cmd.orderId, cmd.receivedAt)
    case TransactionFailed =>
      var failed :- SettleFailed(db, cmd.orderId);
      Success((failed, None))
    case TransactionRefunded =>
      var refunded :- SettleRefunded(db, cmd.orderId, cmd.receivedAt.Stored());
      Success((refunded, None))
    case TransactionPending => Failure(InvalidInput)
  }

  /** ApplyAuthenticatedCallback. */
  function ApplyCallback(db: Database, cmd: Command): Result<(Database, CallbackResult)> {
    var invalid := ValidateCommand(cmd);
    if invalid.Some? then Failure(invalid.value)
    else if cmd.orderId !in db.orders then Failure(NotFound)
    else if db.orders[cmd.orderId].money != cmd.money then Failure(Conflict)
    else if EventKey(cmd) in db.events then
      var event := db.events[EventKey(cmd)];
      if event.transactionId != cmd.transactionId || event.eventType != cmd.eventType then Failure(Conflict)
      else if TransactionKey(cmd) !in db.transactions then Failure(NotFound)
      else
        var t := db.transactions[TransactionKey(cmd)];
        if t.order != cmd.orderId || t.money != cmd.money then Failure(Conflict)
        else
          Success((db.(audit := db.audit + [DuplicateCallback(EventKey(cmd))]),
                   CallbackResult(true, db.orders[cmd.orderId], t, None)))
    else
      var recorded :- Recorded(db, cmd);
      var settled :- Settle(recorded, cmd);
      var (db1, sub) := settled;
      var done := db1.(audit := db1.audit + [ProcessedCallback(EventKey(cmd), cmd.outcome)]);
      if cmd.orderId !in done.orders || TransactionKey(cmd) !in done.transactions then Failure(NotFound)
      else
        Success((done, CallbackResult(false, done.orders[cmd.orderId], done.transactions[TransactionKey(cmd)], sub)))
  }

  // ---------------------------------------------------------------- orders

  datatype CreateOrderInput = CreateOrderInput(workspace: nat, plan: nat, kind: OrderKind, idempotencyKey: nat,
    now: Micros)

  predicate HasOrder(db: Database, w: nat, key: nat) {
    exists id :: id in db.orders && db.orders[id].workspace == w && db.orders[id].idempotencyKey == key
  }

  /** CreateOrder; newId is the random order id. A key seen before changes nothing. */
  function CreateOrder(db: Database, input: CreateOrderInput, newId: nat): Result<(Database, bool)> {
    if input.workspace == 0 || input.plan == 0 || input.idempotencyKey == 0 || input.now == 0 then Failure(InvalidInput)
    else if HasOrder(db, input.workspace, input.idempotencyKey) then Success((db, false))
    else if input.plan !in db.plans then Failure(NotFound)
    else
      var plan := db.plans[input.plan];
      if !plan.status.ActivePlan? || !plan.money.Charged() then Failure(Conflict)
      else if newId in db.orders then Failure(Conflict)
      else
        var order := Order(input.workspace, input.plan, input.kind, plan.money, OrderPending, input.idempotencyKey);
        Success((db.(orders := db.orders[newId := order],
                     invoices := db.invoices[newId := Invoice(input.workspace, plan.money, InvoiceOpen, None, None)]),
                 true))
  }

  // ---------------------------------------------------------------- commit

  /** A transaction commits its new tables, unless it failed or the schema rejects a row it wrote. */
  function Committed<T>(enforceChecks: bool, db: Database, r: Result<(Database, T)>): Database {
    if r.Failure? || (enforceChecks && !SchemaOk(r.value.0)) then db else r.value.0
  }

  function Answer<T>(enforceChecks: bool, r: Result<(Database, T)>): Result<T> {
    if r.Failure? then Failure(r.error)
    else if enforceChecks && !SchemaOk(r.value.0) then Failure(SchemaViolation)
    else Success(r.value.1)
  }
}
