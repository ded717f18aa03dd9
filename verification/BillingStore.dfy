/**
 * The transactions of the billing store, statement by statement: each works on its own copy of the
 * tables and commits it, or rolls back, exactly as the functions of BillingSpec say.
 */
module BillingStore {
  import opened Foundations
  import opened Calendar
  import opened BillingModel
  import opened BillingSpec
  import B = BillingEntitlement
  import D = DomainEntitlement

  // ---------------------------------------------------------------- one row at a time

  lemma RevokeOneMore(grants: map<GrantKey, Grant>, w: nat, done: set<SubId>, id: SubId, now: Micros)
    ensures RevokeGrants(RevokeGrants(grants, w, done, now), w, {id}, now) == RevokeGrants(grants, w, done + {id}, now)
  {
  }

  lemma CancelOneMore(subs: map<SubId, Subscription>, done: set<SubId>, id: SubId, now: Micros)
    requires id in subs && id !in done
    ensures CancelSubs(subs, done, now)[id := BillingSpec.Canceled(subs[id], now)] == CancelSubs(subs, done + {id}, now)
  {
  }

  lemma PlanGrantsOneMore(w: nat, id: SubId, done: map<Capability, nat>, c: Capability, limit: nat, s: Micros,
      e: Option<Micros>)
    ensures PlanGrants(w, id, done, s, e)[OwnKey(w, c, id) := Grant(w, c, Billing, SubRef(id), limit, s, e, None)]
         == PlanGrants(w, id, done[c := limit], s, e)
  {
    assert PlanKeys(w, id, done[c := limit]) == PlanKeys(w, id, done) + {OwnKey(w, c, id)};
  }

  lemma CancelKeepsRow(subs: map<SubId, Subscription>, done: set<SubId>, id: SubId, now: Micros)
    requires id in subs && id !in done
    ensures id in CancelSubs(subs, done, now) && CancelSubs(subs, done, now)[id] == subs[id]
  {
  }

  lemma MergeOneMore<K, V>(a: map<K, V>, b: map<K, V>, k: K, v: V)
    ensures (a + b)[k := v] == a + b[k := v]
  {
  }

  lemma EndGrantsKeys(grants: map<GrantKey, Grant>, w: nat, id: SubId, at: Micros)
    ensures EndGrants(grants, w, id, at).Keys == grants.Keys
  {
  }

  lemma NoPlanGrants(w: nat, id: SubId, s: Micros, e: Option<Micros>)
    ensures PlanGrants(w, id, map[], s, e) == map[]
  {
  }

  lemma NothingRevoked(grants: map<GrantKey, Grant>, subs: map<SubId, Subscription>, w: nat, now: Micros)
    ensures RevokeGrants(grants, w, {}, now) == grants && CancelSubs(subs, {}, now) == subs
  {
  }

  /** The tables of an open transaction. Plan rows are read only. */
  class Tx {
    const plans: map<nat, Plan>
    var orders: map<nat, Order>
    var invoices: map<nat, Invoice>
    var transactions: map<ProviderKey, Transaction>
    var events: map<ProviderKey, Event>
    var subs: map<SubId, Subscription>
    var grants: map<GrantKey, Grant>
    var sources: map<SourceKey, D.Source>
    var audit: seq<Audit>

    constructor (db: Database)
      ensures State() == db
    {
      plans, orders, invoices, transactions := db.plans, db.orders, db.invoices, db.transactions;
      events, subs, grants, sources, audit := db.events, db.subs, db.grants, db.sources, db.audit;
    }

    function State(): Database
      reads this
    {
      Database(plans, orders, invoices, transactions, events, subs, grants, sources, audit)
    }

    method FindOrder(w: nat, key: nat) returns (found: bool)
      ensures found <==> HasOrder(State(), w, key)
    {
      found := false;
      var rest := orders.Keys;
      while rest != {} && !found
        invariant rest <= orders.Keys
        invariant found ==> exists id :: id in orders && orders[id].workspace == w && orders[id].idempotencyKey == key
        invariant !found ==> forall id :: id in orders && id !in rest ==>
          orders[id].workspace != w || orders[id].idempotencyKey != key
        decreases |rest|
      {
        var id :| id in rest;
        if orders[id].workspace == w && orders[id].idempotencyKey == key { found := true; }
        rest := rest - {id};
      }
    }

    // -------------------------------------------------------------- custom-domain plan sources

    method UpsertPlanSourceTx(w: nat, key: D.Key, limit: nat, startsAt: Micros, expiresAt: Option<Micros>,
        reason: D.Reason)
      returns (r: Result<()>)
      modifies this`sources
      ensures var spec := UpsertPlanSource(old(sources), w, key, limit, startsAt, expiresAt, reason);
              r == (if spec.Success? then Success(()) else Failure(spec.error))
              && sources == if spec.Success? then spec.value else old(sources)
    {
      var source := D.Source(w, D.Plan, key, D.Active, limit, startsAt, expiresAt, None, None, 0, 0, reason, 0);
      if !D.Valid(source) { return Failure(InvalidSource); }
      sources := sources[PlanSourceKey(w, key) := source];
      return Success(());
    }

    method ExpirePlanSourceTx(w: nat, key: D.Key) returns (changed: bool)
      modifies this`sources
      ensures sources == ExpirePlanSource(old(sources), w, key)
      ensures changed <==> sources != old(sources)
    {
      var k := PlanSourceKey(w, key);
      if k !in sources || sources[k].status.Expired? { return false; }
      var expired := sources[k].(status := D.Expired, degradedAt := None, graceUntil := None,
        reason := D.BillingExpired, category := 0);
      assert expired != sources[k];
      sources := sources[k := expired];
      return true;
    }

    method ApplyNormalPlanDowngradeTx(w: nat, key: D.Key, degradedAt: Instant) returns (r: Result<()>)
      modifies this`sources
      ensures var spec := ApplyNormalPlanDowngrade(old(sources), w, key, degradedAt);
              r == (if spec.Success? then Success(()) else Failure(spec.error))
              && sources == if spec.Success? then spec.value else old(sources)
    {
      var k := PlanSourceKey(w, key);
      if k !in sources { return Failure(NotFound); }
      var source := sources[k];
      var graceUntil := degradedAt.Plus(D.GRACE);
      if !source.status.Active? || degradedAt.Before(source.startsAt) { return Failure(Conflict); }
      if source.degradedAt.Some? {
        if ReadBack(source.degradedAt.value) == degradedAt && source.graceUntil.Some?
           && ReadBack(source.graceUntil.value) == graceUntil
        {
          return Success(());
        }
        return Failure(Conflict);
      }
      sources := sources[k := source.(degradedAt := Some(degradedAt.Stored()), graceUntil := Some(graceUntil.Stored()),
                                      reason := D.BillingDowngrade, category := 0)];
      return Success(());
    }

    method ProjectP06DomainEntitlementTx(order: Order, sub: Subscription) returns (r: Result<()>)
      modifies this`sources
      ensures var spec := ProjectDomainEntitlement(old(sources), order.workspace, DomainLimit(plans, order.plan), sub);
              r == (if spec.Success? then Success(()) else Failure(spec.error))
              && (r.Success? ==> sources == spec.value)
    {
      var limit := DomainLimit(plans, order.plan);
      if limit.None? {
        var _ := ExpirePlanSourceTx(order.workspace, D.BillingKey);
        return Success(());
      }
      if limit.value == 0 || limit.value > MAX_UINT32 { return Failure(Conflict); }
      r := UpsertPlanSourceTx(order.workspace, D.BillingKey, limit.value, sub.startsAt, sub.termEndsAt,
        D.BillingActive);
    }

    method PromoteP06DowngradeTargetTx(target: Subscription) returns (r: Result<()>)
      modifies this`sources
      ensures var spec := PromoteDomainTarget(old(sources), DomainLimit(plans, target.plan), target);
              r == (if spec.Success? then Success(()) else Failure(spec.error))
              && (r.Success? ==> sources == spec.value)
    {
      var limit := DomainLimit(plans, target.plan);
      var w := target.workspace;
      if limit.None? {
        var _ := ExpirePlanSourceTx(w, D.BillingKey);
        var _ := ExpirePlanSourceTx(w, D.TargetKey);
        return Success(());
      }
      if limit.value == 0 || limit.value > MAX_UINT32 { return Failure(Conflict); }
      r := UpsertPlanSourceTx(w, D.BillingKey, limit.value, target.startsAt, target.termEndsAt, D.BillingEffective);
      if r.Failure? { return; }
      var _ := ExpirePlanSourceTx(w, D.TargetKey);
    }

    method ProjectP06ScheduledDowngradeTx(w: nat, current: Plan, target: Plan, graceStart: Instant, graceEnd: Instant,
                                     targetTermEnd: Option<Micros>) returns (r: Result<()>)
      requires graceEnd == graceStart.Plus(D.GRACE)
      modifies this`sources
      ensures var spec := ProjectScheduledDowngrade(old(sources), w, current, target, graceStart, targetTermEnd);
              r == (if spec.Success? then Success(()) else Failure(spec.error))
              && (r.Success? ==> sources == spec.value)
    {
      var currentLimit := if CustomDomains in current.entitlements then current.entitlements[CustomDomains] else 0;
      var targetLimit := if CustomDomains in target.entitlements then target.entitlements[CustomDomains] else 0;
      if currentLimit > MAX_UINT32 || targetLimit > MAX_UINT32 { return Failure(Conflict); }
      if currentLimit == 0 {
        var _ := ExpirePlanSourceTx(w, D.TargetKey);
        return Success(());
      }
      r := ApplyNormalPlanDowngradeTx(w, D.BillingKey, graceStart);
      if r.Failure? { return; }
      if targetLimit == 0 {
        var _ := ExpirePlanSourceTx(w, D.TargetKey);
        return Success(());
      }
      r := UpsertPlanSourceTx(w, D.TargetKey, targetLimit, graceEnd.Stored(), targetTermEnd, D.BillingTarget);
    }

    // -------------------------------------------------------------- cancel, activate, revoke

    /** Cancels the workspace's pending subscriptions one by one and ends the target source. */
    method CancelScheduledDowngradeTx(w: nat, now: Micros)
      modifies this`grants, this`subs, this`sources
      ensures State() == CancelScheduled(old(State()), w, now)
    {
      hide RevokeGrants, CancelSubs, OwnedBy;
      var pending := PendingIds(subs, w);
      var rest := pending;
      assert pending - rest == {};
      NothingRevoked(grants, subs, w, now);
      while rest != {}
        invariant rest <= pending
        invariant sources == old(sources)
        invariant grants == RevokeGrants(old(grants), w, pending - rest, now)
        invariant subs == CancelSubs(old(subs), pending - rest, now)
        decreases |rest|
      {
        var id :| id in rest;
        ghost var done := pending - rest;
        CancelKeepsRow(old(subs), done, id, now);
        grants := RevokeGrants(grants, w, {id}, now);
        subs := subs[id := BillingSpec.Canceled(subs[id], now)];
        RevokeOneMore(old(grants), w, done, id, now);
        CancelOneMore(old(subs), done, id, now);
        rest := rest - {id};
        assert pending - rest == done + {id};
      }
      assert pending - rest == pending;
      var _ := ExpirePlanSourceTx(w, D.TargetKey);
    }

    /** Writes the activated subscription's grants, one per plan entitlement. */
    method InsertPlanGrants(w: nat, id: SubId, entitlements: map<Capability, nat>, startsAt: Micros,
        endsAt: Option<Micros>)
      modifies this`grants
      ensures grants == old(grants) + PlanGrants(w, id, entitlements, startsAt, endsAt)
    {
      hide PlanGrants, PlanKeys;
      ghost var done: map<Capability, nat> := map[];
      var rest := entitlements.Keys;
      NoPlanGrants(w, id, startsAt, endsAt);
      while rest != {}
        invariant rest <= entitlements.Keys && done.Keys == entitlements.Keys - rest
        invariant forall c :: c in done ==> done[c] == entitlements[c]
        invariant grants == old(grants) + PlanGrants(w, id, done, startsAt, endsAt)
        decreases |rest|
      {
        var capability :| capability in rest;
        var row := Grant(w, capability, Billing, SubRef(id), entitlements[capability], startsAt, endsAt, None);
        grants := grants[OwnKey(w, capability, id) := row];
        PlanGrantsOneMore(w, id, done, capability, entitlements[capability], startsAt, endsAt);
        MergeOneMore(old(grants), PlanGrants(w, id, done, startsAt, endsAt), OwnKey(w, capability, id), row);
        done := done[capability := entitlements[capability]];
        rest := rest - {capability};
      }
      assert done == entitlements;
    }

    method ActivateSubscriptionTx(orderId: nat, order: Order, at: Instant) returns (r: Result<SubId>)
      modifies this`grants, this`subs, this`sources
      ensures var spec := Activate(old(State()), orderId, order, at);
              r == (if spec.Success? then Success(OrderSub(orderId)) else Failure(spec.error))
              && (r.Success? ==> State() == spec.value)
    {
      hide StoredTermEnd, PlanGrants, RevokeOthers, ExpireOthers, CancelScheduled;
      if order.plan !in plans { return Failure(NotFound); }
      var w, now := order.workspace, at.Stored();
      var termEnd := StoredTermEnd(plans[order.plan].period, at);
      var id := OrderSub(orderId);
      CancelScheduledDowngradeTx(w, now);
      subs := ExpireOthers(subs, w, id, now);
      subs := subs[id := ActivatedRow(subs, id, w, order.plan, now, termEnd)];
      grants := RevokeOthers(grants, w, id, now);
      InsertPlanGrants(w, id, plans[order.plan].entitlements, now, termEnd);
      return Success(id);
    }

    method RevokeSubscriptionTx(orderId: nat, w: nat, now: Micros)
      modifies this`grants, this`subs
      ensures State() == RevokeSubscription(old(State()), orderId, w, now)
      ensures grants.Keys == old(grants.Keys) && subs.Keys == old(subs.Keys)
      ensures forall k :: k in grants && OwnedBy(k, w, {OrderSub(orderId)}) ==>
        grants[k].revokedAt.Some?
          && (old(grants)[k].revokedAt.None? ==> grants[k].revokedAt == Some(now) && !Live(grants[k], now))
      ensures forall k :: k in grants && !OwnedBy(k, w, {OrderSub(orderId)}) ==> grants[k] == old(grants)[k]
      ensures forall id :: id in subs && subs[id] != old(subs)[id] ==>
        id == OrderSub(orderId) && subs[id].workspace == w && subs[id].status.Canceled?
    {
      subs := CancelOwn(subs, OrderSub(orderId), w, now);
      grants := RevokeGrants(grants, w, {OrderSub(orderId)}, now);
    }

    // -------------------------------------------------------------- the current subscription

    /** ORDER BY starts_at DESC, id DESC LIMIT 1. */
    method FirstByStart(ids: set<SubId>) returns (id: SubId)
      requires ids != {} && ids <= subs.Keys
      ensures id == Newest(subs, ids)
    {
      id :| id in ids;
      var rest := ids - {id};
      while rest != {}
        invariant rest <= ids && id in ids - rest
        invariant IsNewest(subs, ids - rest, id)
        decreases |rest|
      {
        var other :| other in rest;
        ghost var seen := ids - rest;
        IdBeforeTotal(other, id);
        if Newer(subs, other, id) {
          NewerTransitive(subs, seen, other, id);
          id := other;
        }
        rest := rest - {other};
        assert ids - rest == seen + {other};
      }
      assert ids - rest == ids;
      NewestUnique(subs, ids, id, Newest(subs, ids));
    }

    method PromoteDuePendingSubscriptionTx(w: nat, now: Instant) returns (r: Result<SubId>)
      modifies this`subs, this`sources
      ensures var spec := PromoteDuePending(old(State()), w, now);
              r == (if spec.Success? then Success(spec.value.1) else Failure(spec.error))
              && (r.Success? ==> State() == spec.value.0)
    {
      var due := DuePending(subs, w, now);
      if due == {} { return Failure(NotFound); }
      var id := FirstByStart(due);
      var target := subs[id];
      var promoted := PromoteP06DowngradeTargetTx(target);
      if promoted.Failure? { return Failure(promoted.error); }
      subs := subs[id := Promoted(target)];
      return Success(id);
    }

    method LoadCurrentSubscriptionForUpdate(w: nat, now: Instant) returns (r: Result<SubId>)
      modifies this`subs, this`sources
      ensures var spec := LoadCurrent(old(State()), w, now);
              r == (if spec.Success? then Success(spec.value.1) else Failure(spec.error))
              && (r.Success? ==> State() == spec.value.0)
    {
      var billable := BillableIds(subs, w);
      if billable == {} {
        r := PromoteDuePendingSubscriptionTx(w, now);
        return;
      }
      var id := FirstByStart(billable);
      var sub := subs[id];
      if !sub.status.Grace? || sub.graceEndsAt.None? || now.Before(sub.graceEndsAt.value) { return Success(id); }
      var targetId := TargetSub(id, ReadBack(sub.graceEndsAt.value));
      if targetId !in subs { return Failure(NotFound); }
      var target := subs[targetId];
      if target.workspace != w || !target.status.Pending? || now.Before(target.startsAt) { return Failure(Conflict); }
      var promoted := PromoteP06DowngradeTargetTx(target);
      if promoted.Failure? { return Failure(promoted.error); }
      subs := subs[id := sub.(status := SubscriptionStatus.Expired, version := sub.version + 1)];
      subs := subs[targetId := Promoted(target)];
      return Success(targetId);
    }

    // -------------------------------------------------------------- scheduling a downgrade

    /** Inserts the target's future grants; an existing row is a conflict. */
    method InsertTargetGrants(w: nat, id: SubId, entitlements: map<Capability, nat>, startsAt: Micros,
        endsAt: Option<Micros>)
      returns (r: Result<()>)
      modifies this`grants
      ensures r.Success? <==> forall c :: c in entitlements ==> OwnKey(w, c, id) !in old(grants)
      ensures r.Failure? ==> r.error == Conflict
      ensures r.Success? ==> grants == old(grants) + PlanGrants(w, id, entitlements, startsAt, endsAt)
    {
      hide PlanGrants, PlanKeys;
      ghost var done: map<Capability, nat> := map[];
      var rest := entitlements.Keys;
      NoPlanGrants(w, id, startsAt, endsAt);
      while rest != {}
        invariant rest <= entitlements.Keys && done.Keys == entitlements.Keys - rest
        invariant forall c :: c in done ==> done[c] == entitlements[c] && OwnKey(w, c, id) !in old(grants)
        invariant forall c :: c in rest ==> (OwnKey(w, c, id) in grants <==> OwnKey(w, c, id) in old(grants))
        invariant grants == old(grants) + PlanGrants(w, id, done, startsAt, endsAt)
        decreases |rest|
      {
        var capability :| capability in rest;
        if OwnKey(w, capability, id) in grants { return Failure(Conflict); }
        var row := Grant(w, capability, Billing, SubRef(id), entitlements[capability], startsAt, endsAt, None);
        grants := grants[OwnKey(w, capability, id) := row];
        PlanGrantsOneMore(w, id, done, capability, entitlements[capability], startsAt, endsAt);
        MergeOneMore(old(grants), PlanGrants(w, id, done, startsAt, endsAt), OwnKey(w, capability, id), row);
        done := done[capability := entitlements[capability]];
        rest := rest - {capability};
      }
      assert done == entitlements;
      return Success(());
    }

    /** The part of a downgrade request that follows loading the current subscription. */
    method ScheduleFromTx(currentId: SubId, input: ScheduleInput) returns (r: Result<Schedule>)
      requires currentId in subs && subs[currentId].workspace == input.workspace
      modifies this`subs, this`grants, this`sources, this`audit
      ensures var spec := ScheduleFrom(old(State()), currentId, input);
              r == (if spec.Success? then Success(spec.value.1) else Failure(spec.error))
              && (r.Success? ==> State() == spec.value.0)
    {
      hide ProjectScheduledDowngrade, PlanGrants, EndGrants, StoredTermEnd, PendingIds;
      var w := input.workspace;
      var now := input.now;
      var current := subs[currentId];
      ghost var before := State();
      if !current.status.Active? || current.version != input.expectedVersion || !now.After(current.startsAt) {
        return Failure(Conflict);
      }
      var graceEnd := now.Plus(D.GRACE);
      if current.plan !in plans || input.targetPlan !in plans { return Failure(NotFound); }
      var currentPlan, targetPlan := plans[current.plan], plans[input.targetPlan];
      var downgrade := StrictPlanDowngrade(current.plan, currentPlan, input.targetPlan, targetPlan);
      if !targetPlan.status.ActivePlan? || !downgrade { return Failure(Conflict); }
      hide StrictDowngrade;
      if PendingIds(subs, w) != {} { return Failure(Conflict); }
      var termEnd := StoredTermEnd(targetPlan.period, graceEnd);
      if termEnd.None? { return Failure(Conflict); }
      var targetId := TargetSub(currentId, graceEnd);
      if targetId in subs { return Failure(Conflict); }
      subs := subs[targetId := TargetRow(w, input.targetPlan, graceEnd.Stored(), termEnd.value)];
      grants := EndGrants(grants, w, currentId, graceEnd.Stored());
      EndGrantsKeys(old(grants), w, currentId, graceEnd.Stored());
      var inserted := InsertTargetGrants(w, targetId, targetPlan.entitlements, graceEnd.Stored(), termEnd);
      if inserted.Failure? { return Failure(inserted.error); }
      var projected := ProjectP06ScheduledDowngradeTx(w, currentPlan, targetPlan, now, graceEnd, termEnd);
      if projected.Failure? { return Failure(projected.error); }
      subs := subs[currentId := GraceRow(current, now.Stored())];
      audit := audit + [DowngradeScheduled(input.actor, currentId)];
      return Success(Schedule(currentId, targetId, now.at, graceEnd, true));
    }

    // -------------------------------------------------------------- callbacks

    method UpsertTransactionTx(order: Order, cmd: Command) returns (r: Result<()>)
      modifies this`transactions
      ensures var spec := UpsertTransaction(old(State()), order, cmd);
              r == (if spec.Success? then Success(()) else Failure(spec.error))
              && (r.Success? ==> State() == spec.value)
    {
      var k := TransactionKey(cmd);
      if k in transactions {
        var t := transactions[k];
        if t.order != cmd.orderId || t.money != cmd.money { return Failure(Conflict); }
        if !TransitionAllowed(t.status, cmd.outcome) { return Failure(Conflict); }
        if t.status != cmd.outcome { transactions := transactions[k := t.(status := cmd.outcome)]; }
        return Success(());
      }
      transactions := transactions[k := Transaction(order.workspace, cmd.orderId, cmd.money, cmd.outcome)];
      return Success(());
    }

    method SettlePaidTx(orderId: nat, now: Instant) returns (r: Result<Option<SubId>>)
      requires orderId in orders
      modifies this`orders, this`invoices, this`subs, this`grants, this`sources
      ensures var spec := SettlePaid(old(State()), orderId, now);
              r == (if spec.Success? then Success(spec.value.1) else Failure(spec.error))
              && (r.Success? ==> State() == spec.value.0)
    {
      hide Activate, ProjectDomainEntitlement, PayInvoice;
      var order := orders[orderId];
      if !order.status.OrderPending? && !order.status.OrderProcessing? && !order.status.OrderPaid? { return Failure(Conflict); }
      if order.status.OrderPaid? { return Success(None); }
      orders := SetOrder(orders, orderId, OrderPaid);
      invoices := PayInvoice(invoices, orderId, now.Stored());
      var activated := ActivateSubscriptionTx(orderId, order, now);
      if activated.Failure? { return Failure(activated.error); }
      var projected := ProjectP06DomainEntitlementTx(order, subs[activated.value]);
      if projected.Failure? { return Failure(projected.error); }
      return Success(Some(activated.value));
    }

    method SettleFailedTx(orderId: nat) returns (r: Result<()>)
      requires orderId in orders
      modifies this`orders
      ensures var spec := SettleFailed(old(State()), orderId);
              r == (if spec.Success? then Success(()) else Failure(spec.error))
              && (r.Success? ==> State() == spec.value)
      ensures var status := old(orders)[orderId].status;
              r.Failure? <==> status.OrderPaid? || status.OrderRefunded? || status.OrderCanceled?
      ensures orders.Keys == old(orders.Keys) && (r.Success? ==> orders[orderId].status.OrderFailed?)
      ensures forall o :: o in orders && o != orderId ==> orders[o] == old(orders)[o]
    {
      var order := orders[orderId];
      if !order.status.OrderPending? && !order.status.OrderProcessing? && !order.status.OrderFailed? { return Failure(Conflict); }
      if !order.status.OrderFailed? { orders := SetOrder(orders, orderId, OrderFailed); }
      return Success(());
    }

    method SettleRefundedTx(orderId: nat, now: Micros) returns (r: Result<()>)
      requires orderId in orders
      modifies this`orders, this`invoices, this`subs, this`grants, this`sources
      ensures var spec := SettleRefunded(old(State()), orderId, now);
              r == (if spec.Success? then Success(()) else Failure(spec.error))
              && (r.Success? ==> State() == spec.value)
    {
      hide CancelScheduled, RevokeSubscription, ExpirePlanSource, RefundInvoice;
      var order := orders[orderId];
      var w := order.workspace;
      if !order.status.OrderPaid? && !order.status.OrderRefunded? { return Failure(Conflict); }
      if order.status.OrderRefunded? { return Success(()); }
      var controlsCurrent := ControlsCurrent(subs, orderId, w);
      orders := SetOrder(orders, orderId, OrderRefunded);
      invoices := RefundInvoice(invoices, orderId, now);
      if controlsCurrent { CancelScheduledDowngradeTx(w, now); }
      RevokeSubscriptionTx(orderId, w, now);
      if controlsCurrent { var _ := ExpirePlanSourceTx(w, D.BillingKey); }
      return Success(());
    }

    method SettleTx(cmd: Command) returns (r: Result<Option<SubId>>)
      requires cmd.orderId in orders
      modifies this`orders, this`invoices, this`subs, this`grants, this`sources
      ensures var spec := Settle(old(State()), cmd);
              r == (if spec.Success? then Success(spec.value.1) else Failure(spec.error))
              && (r.Success? ==> State() == spec.value.0)
    {
      hide SettlePaid, SettleFailed, SettleRefunded;
      match cmd.outcome {
        case TransactionPaid =>
          r := SettlePaidTx(cmd.orderId, cmd.receivedAt);
        case TransactionFailed =>
          var failed := SettleFailedTx(cmd.orderId);
          r := if failed.Success? then Success(None) else Failure(failed.error);
        case TransactionRefunded =>
          var refunded := SettleRefundedTx(cmd.orderId, cmd.receivedAt.Stored());
          r := if refunded.Success? then Success(None) else Failure(refunded.error);
        case TransactionPending =>
          r := Failure(InvalidInput);
      }
    }

    /** A callback after validation, up to the commit. */
    method CallbackTx(cmd: Command) returns (r: Result<CallbackResult>)
      requires ValidateCommand(cmd).None?
      modifies this
      ensures var spec := ApplyCallback(old(State()), cmd);
              r == (if spec.Success? then Success(spec.value.1) else Failure(spec.error))
              && (r.Success? ==> State() == spec.value.0)
    {
      hide Settle, ValidateCommand;
      if cmd.orderId !in orders { return Failure(NotFound); }
      var order := orders[cmd.orderId];
      if order.money != cmd.money { return Failure(Conflict); }
      if EventKey(cmd) in events {
        var event := events[EventKey(cmd)];
        if event.transactionId != cmd.transactionId || event.eventType != cmd.eventType { return Failure(Conflict); }
        if TransactionKey(cmd) !in transactions { return Failure(NotFound); }
        var t := transactions[TransactionKey(cmd)];
        if t.order != cmd.orderId || t.money != cmd.money { return Failure(Conflict); }
        audit := audit + [DuplicateCallback(EventKey(cmd))];
        return Success(CallbackResult(true, order, t, None));
      }
      events := events[EventKey(cmd) := Event(cmd.transactionId, cmd.eventType, cmd.receivedAt.Stored())];
      var recorded := UpsertTransactionTx(order, cmd);
      if recorded.Failure? { return Failure(recorded.error); }
      hide UpsertTransaction;
      var settled := SettleTx(cmd);
      if settled.Failure? { return Failure(settled.error); }
      audit := audit + [ProcessedCallback(EventKey(cmd), cmd.outcome)];
      if cmd.orderId !in orders || TransactionKey(cmd) !in transactions { return Failure(NotFound); }
      return Success(CallbackResult(false, orders[cmd.orderId], transactions[TransactionKey(cmd)], settled.value));
    }

    /** A downgrade request after validation, up to the commit. */
    method ScheduleDowngradeTx(input: ScheduleInput) returns (r: Result<Schedule>)
      requires input.workspace != 0 && input.targetPlan != 0 && input.expectedVersion != 0 && input.actor != 0
        && !input.now.Zero()
      modifies this
      ensures var spec := ScheduleDowngrade(old(State()), input);
              r == (if spec.Success? then Success(spec.value.1) else Failure(spec.error))
              && (r.Success? ==> State() == spec.value.0)
    {
      hide LoadCurrent, ScheduleFrom;
      var loaded := LoadCurrentSubscriptionForUpdate(input.workspace, input.now);
      if loaded.Failure? { return Failure(loaded.error); }
      var currentId := loaded.value;
      var current := subs[currentId];
      if current.status.Grace? {
        if current.graceEndsAt.None?
           || (input.expectedVersion != current.version && input.expectedVersion + 1 != current.version)
        {
          return Failure(Conflict);
        }
        var effectiveAt := current.graceEndsAt.value;
        var targetId := TargetSub(currentId, ReadBack(effectiveAt));
        if targetId !in subs || subs[targetId].workspace != input.workspace || subs[targetId].plan != input.targetPlan
           || !subs[targetId].status.Pending?
        {
          return Failure(Conflict);
        }
        return Success(Schedule(currentId, targetId, effectiveAt - D.GRACE, ReadBack(effectiveAt), false));
      }
      r := ScheduleFromTx(currentId, input);
    }
  }

  /** The store: each operation opens a transaction, commits it when it succeeds and the schema accepts its rows. */
  class Store {
    const enforceChecks: bool
    var db: Database

    constructor (enforceChecks: bool, db: Database)
      ensures this.enforceChecks == enforceChecks && this.db == db
    {
      this.enforceChecks, this.db := enforceChecks, db;
    }

    method Commit(tx: Tx) returns (ok: bool)
      modifies this`db
      ensures ok <==> !enforceChecks || SchemaOk(tx.State())
      ensures db == if ok then tx.State() else old(db)
    {
      ok := !enforceChecks || SchemaOk(tx.State());
      if ok { db := tx.State(); }
    }

    method CreateOrder(input: CreateOrderInput, newId: nat) returns (r: Result<bool>)
      modifies this`db
      ensures db == Committed(enforceChecks, old(db), BillingSpec.CreateOrder(old(db), input, newId))
      ensures r == Answer(enforceChecks, BillingSpec.CreateOrder(old(db), input, newId))
    {
      hide SchemaOk;
      if input.workspace == 0 || input.plan == 0 || input.idempotencyKey == 0 || input.now == 0 { return Failure(InvalidInput); }
      var tx := new Tx(db);
      var existing := tx.FindOrder(input.workspace, input.idempotencyKey);
      if existing {
        var kept := Commit(tx);
        return if kept then Success(false) else Failure(SchemaViolation);
      }
      if input.plan !in tx.plans { return Failure(NotFound); }
      var plan := tx.plans[input.plan];
      if !plan.status.ActivePlan? || !plan.money.Charged() { return Failure(Conflict); }
      if newId in tx.orders { return Failure(Conflict); }
      tx.orders := tx.orders[newId := Order(input.workspace, input.plan, input.kind, plan.money, OrderPending,
        input.idempotencyKey)];
      tx.invoices := tx.invoices[newId := Invoice(input.workspace, plan.money, InvoiceOpen, None, None)];
      var ok := Commit(tx);
      return if ok then Success(true) else Failure(SchemaViolation);
    }

    method ApplyAuthenticatedCallback(cmd: Command) returns (r: Result<CallbackResult>)
      modifies this`db
      ensures db == Committed(enforceChecks, old(db), ApplyCallback(old(db), cmd))
      ensures r == Answer(enforceChecks, ApplyCallback(old(db), cmd))
    {
      hide SchemaOk;
      var invalid := ValidateCommand(cmd);
      if invalid.Some? { return Failure(invalid.value); }
      hide ApplyCallback;
      var tx := new Tx(db);
      r := tx.CallbackTx(cmd);
      if r.Failure? { return; }
      var ok := Commit(tx);
      if !ok { r := Failure(SchemaViolation); }
    }

    method ScheduleDowngrade(input: ScheduleInput) returns (r: Result<Schedule>)
      modifies this`db
      ensures db == Committed(enforceChecks, old(db), BillingSpec.ScheduleDowngrade(old(db), input))
      ensures r == Answer(enforceChecks, BillingSpec.ScheduleDowngrade(old(db), input))
    {
      hide SchemaOk;
      if input.workspace == 0 || input.targetPlan == 0 || input.expectedVersion == 0 || input.actor == 0
        || input.now.Zero() {
        return Failure(InvalidInput);
      }
      hide BillingSpec.ScheduleDowngrade;
      var tx := new Tx(db);
      r := tx.ScheduleDowngradeTx(input);
      if r.Failure? { return; }
      var ok := Commit(tx);
      if !ok { r := Failure(SchemaViolation); }
    }

    /** Reads the workspace's grant rows for the capability, in some order, and resolves them. */
    method ResolveWorkspaceEntitlement(w: nat, c: Capability, now: Micros) returns (r: Result<B.Resolved>,
        ghost rows: seq<Grant>)
      ensures w == 0 || now == 0 ==> r == Failure(InvalidInput)
      ensures forall g :: g in rows <==> exists k ::
        k in db.grants && k.workspace == w && k.capability == c && db.grants[k] == g
      ensures w != 0 && now != 0 ==> r == B.Resolve(now, w, c, rows)
    {
      var gs: seq<Grant> := [];
      var rest := db.grants.Keys;
      while rest != {}
        invariant rest <= db.grants.Keys
        invariant forall g :: g in gs <==>
          exists k :: k in db.grants && k !in rest && k.workspace == w && k.capability == c && db.grants[k] == g
        decreases |rest|
      {
        var k :| k in rest;
        rest := rest - {k};
        if k.workspace == w && k.capability == c { gs := gs + [db.grants[k]]; }
      }
      rows := gs;
      if w == 0 || now == 0 { r := Failure(InvalidInput); return; }
      r := B.ResolveEntitlement(now, w, c, gs);
    }
  }
}
