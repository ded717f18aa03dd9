/** Exactly which callbacks are accepted, in terms of the rows a caller finds before the call. */
module BillingAcceptance {
  import opened Foundations
  import opened Calendar
  import opened BillingModel
  import opened BillingSpec
  import opened BillingInvariant
  import opened BillingRuns
  import opened BillingSettlement
  import D = DomainEntitlement

  /** The provider transaction is new, or is the order's own and may move to the outcome. */
  predicate TransactionMoves(db: Database, cmd: Command) {
    var k := TransactionKey(cmd);
    k in db.transactions ==>
      && db.transactions[k].order == cmd.orderId && db.transactions[k].money == cmd.money
      && match db.transactions[k].status
         case TransactionPending => !cmd.outcome.TransactionRefunded?
         case TransactionPaid => cmd.outcome.TransactionPaid? || cmd.outcome.TransactionRefunded?
         case TransactionFailed => cmd.outcome.TransactionFailed?
         case TransactionRefunded => cmd.outcome.TransactionRefunded?
  }

  /** The plan can be activated: it exists, and its domain limit fits a domain source. */
  predicate Activatable(plans: map<nat, Plan>, plan: nat) {
    plan in plans && (CustomDomains in plans[plan].entitlements ==>
      plans[plan].entitlements[CustomDomains] <= 0xFFFF_FFFF)
  }

  predicate OutcomeFits(db: Database, cmd: Command)
    requires cmd.orderId in db.orders
  {
    var order := db.orders[cmd.orderId];
    match cmd.outcome
    case TransactionPending => false
    case TransactionPaid =>
      order.status.OrderPaid?
      || ((order.status.OrderPending? || order.status.OrderProcessing?) && Activatable(db.plans, order.plan))
    case TransactionFailed => order.status.OrderPending? || order.status.OrderProcessing? || order.status.OrderFailed?
    case TransactionRefunded => order.status.OrderPaid? || order.status.OrderRefunded?
  }

  /** The guards of a callback whose event has not been seen. */
  predicate Acceptable(db: Database, cmd: Command) {
    && cmd.eventId != 0 && cmd.transactionId != 0 && cmd.orderId != 0 && cmd.eventType != 0 && cmd.correlation != 0
    && cmd.receivedAt.at != 0 && cmd.money.currency < 26 * 26 * 26 && cmd.money.amount != 0
    && ProviderKey(cmd.provider, cmd.eventId) !in db.events
    && cmd.orderId in db.orders && db.orders[cmd.orderId].money == cmd.money
    && TransactionMoves(db, cmd) && OutcomeFits(db, cmd)
  }

  lemma ProjectionFits(sources: Sources, w: nat, plans: Plans, plan: nat, sub: Subscription)
    requires PlansOk(plans) && plan in plans && w != 0 && sub.startsAt != 0
    requires sub.termEndsAt.Some? ==> sub.startsAt < sub.termEndsAt.value
    ensures ProjectDomainEntitlement(sources, w, DomainLimit(plans, plan), sub).Success? <==> Activatable(plans, plan)
  {
  }

  /** A new activation starts when the callback was received. */
  lemma ActivatedStart(db: Database, o: nat, order: Order, now: Instant)
    requires order.plan in db.plans && OrderSub(o) !in db.subs
    ensures Activate(db, o, order, now).Success?
    ensures var r := Activate(db, o, order, now);
            && OrderSub(o) in r.value.subs
            && r.value.subs[OrderSub(o)].startsAt == now.Stored()
            && r.value.subs[OrderSub(o)].termEndsAt == StoredTermEnd(db.plans[order.plan].period, now)
  {
    hide RevokeGrants, RevokeOthers, PlanGrants, StoredTermEnd, ExpirePlanSource;
  }

  lemma PaidFits(db: Database, o: nat, now: Instant)
    requires WellFormed(db) && o in db.orders && !now.Zero()
    ensures SettlePaid(db, o, now).Success? <==>
      && StatusAfter(db.orders[o].status, TransactionPaid).Some?
      && (!db.orders[o].status.OrderPaid? ==> Activatable(db.plans, db.orders[o].plan))
  {
    hide ActivateAndProject, WellFormed, Activatable, PayInvoice;
    if db.orders[o].status.OrderPending? || db.orders[o].status.OrderProcessing? {
      UnsettledOrder(db, o);
      ActivationFits(MarkPaid(db, o, now.Stored()), o, db.orders[o], now);
    }
  }

  lemma UnsettledOrder(db: Database, o: nat)
    requires WellFormed(db) && o in db.orders && !db.orders[o].status.OrderPaid? && !db.orders[o].status.OrderRefunded?
    ensures OrderSub(o) !in db.subs && db.orders[o].workspace != 0 && PlansOk(db.plans)
  {
  }

  lemma ActivationFits(db: Database, o: nat, order: Order, now: Instant)
    requires OrderSub(o) !in db.subs && order.workspace != 0 && PlansOk(db.plans) && !now.Zero()
    ensures ActivateAndProject(db, o, order, now).Success? <==> Activatable(db.plans, order.plan)
  {
    if order.plan in db.plans {
      ActivatedStart(db, o, order, now);
      hide Activate, ProjectDomainEntitlement, StoredTermEnd, PlansOk, Activatable;
      TermEndsLater(db.plans[order.plan].period, now);
      var active := Activate(db, o, order, now).value;
      ProjectionFits(active.sources, order.workspace, db.plans, order.plan, active.subs[OrderSub(o)]);
    }
  }

  lemma SettleFits(db: Database, cmd: Command)
    requires WellFormed(db) && cmd.orderId in db.orders && ValidateCommand(cmd).None?
    ensures Settle(db, cmd).Success? <==> OutcomeFits(db, cmd)
  {
    hide SettlePaid, WellFormed, Activatable, CancelScheduled, RevokeSubscription, MarkRefunded;
    PaidFits(db, cmd.orderId, cmd.receivedAt);
  }

  lemma RecordedFits(db: Database, cmd: Command)
    requires cmd.orderId in db.orders
    ensures Recorded(db, cmd).Success? <==> TransactionMoves(db, cmd)
    ensures Recorded(db, cmd).Success? ==> TransactionKey(cmd) in Recorded(db, cmd).value.transactions
  {
  }

  lemma ValidCommand(cmd: Command)
    ensures ValidateCommand(cmd).None? <==>
      && cmd.eventId != 0 && cmd.transactionId != 0 && cmd.orderId != 0 && cmd.eventType != 0 && cmd.correlation != 0
      && cmd.receivedAt.at != 0 && cmd.money.currency < 26 * 26 * 26 && cmd.money.amount != 0
      && !cmd.outcome.TransactionPending?
  {
  }

  /** A callback with a new event is accepted exactly when its guards hold, in every reachable state. */
  lemma AcceptedExactly(db: Database, clock: Micros, cmd: Command)
    requires Inv(db, clock) && EventKey(cmd) !in db.events
    ensures ApplyCallback(db, cmd).Success? <==> Acceptable(db, cmd)
  {
    hide Recorded, Settle, TransactionMoves, ValidateCommand, OrdersOk, HasShape;
    ValidCommand(cmd);
    if ValidateCommand(cmd).None? && cmd.orderId in db.orders && TransactionMoves(db, cmd) {
      RecordedFits(db, cmd);
      var recorded := Recorded(db, cmd).value;
      SettleFits(recorded, cmd);
    } else if cmd.orderId in db.orders {
      RecordedFits(db, cmd);
    }
  }

  predicate BlankCommand(cmd: Command) {
    || cmd.eventId == 0 || cmd.transactionId == 0 || cmd.orderId == 0 || cmd.eventType == 0 || cmd.correlation == 0
    || cmd.receivedAt.at == 0
  }

  predicate BadMoney(cmd: Command) { cmd.money.currency >= 26 * 26 * 26 || cmd.money.amount == 0 }

  lemma SettleRefused(db: Database, cmd: Command)
    requires WellFormed(db) && cmd.orderId in db.orders && ValidateCommand(cmd).None? && Settle(db, cmd).Failure?
    ensures var order := db.orders[cmd.orderId];
            Settle(db, cmd).error
            == if cmd.outcome.TransactionPaid? && (order.status.OrderPending? || order.status.OrderProcessing?)
                  && order.plan !in db.plans then NotFound else Conflict
  {
    hide PlansOk, GrantsOk, SourcesOk, StoredTermEnd, CancelScheduled, RevokeSubscription, MarkRefunded, CancelSubs,
      ExpireOthers, RevokeOthers, RevokeGrants, PlanGrants;
    var order := db.orders[cmd.orderId];
    if cmd.outcome.TransactionPaid? && (order.status.OrderPending? || order.status.OrderProcessing?)
      && order.plan in db.plans {
      ActivationRefused(MarkPaid(db, cmd.orderId, cmd.receivedAt.Stored()), cmd.orderId, order, cmd.receivedAt);
    }
  }

  lemma ActivationRefused(db: Database, o: nat, order: Order, now: Instant)
    requires OrderSub(o) !in db.subs && order.workspace != 0 && PlansOk(db.plans) && !now.Zero()
      && order.plan in db.plans
    ensures ActivateAndProject(db, o, order, now).Failure? ==> ActivateAndProject(db, o, order, now).error.Conflict?
  {
    ActivatedStart(db, o, order, now);
    hide Activate, StoredTermEnd, PlansOk, ExpirePlanSource;
    TermEndsLater(db.plans[order.plan].period, now);
  }

  /**
   * Why a callback is refused: something missing from it, money nobody can be charged, something it speaks of that
   * is not on record, or a contradiction to what is.
   */
  lemma RefusedCallbacks(db: Database, clock: Micros, cmd: Command)
    requires Inv(db, clock) && ApplyCallback(db, cmd).Failure?
    ensures var e := ApplyCallback(db, cmd).error;
            && (e.InvalidInput? <==> BlankCommand(cmd) || (!BadMoney(cmd) && cmd.outcome.TransactionPending?))
            && (e.InvalidMoney? <==> !BlankCommand(cmd) && BadMoney(cmd))
            && (!e.InvalidInput? && !e.InvalidMoney? ==> e.NotFound? || e.Conflict?)
            && (e.NotFound? && cmd.orderId in db.orders ==>
                  || (ProviderKey(cmd.provider, cmd.eventId) in db.events
                      && ProviderKey(cmd.provider, cmd.transactionId) !in db.transactions)
                  || (ProviderKey(cmd.provider, cmd.eventId) !in db.events && db.orders[cmd.orderId].plan !in db.plans))
            && (e.Conflict? ==> cmd.orderId in db.orders)
  {
    hide Recorded, Settle, OrdersOk, HasShape, TransactionMoves;
    if ValidateCommand(cmd).None? && cmd.orderId in db.orders {
      RecordedFits(db, cmd);
      RecordedRefused(db, cmd);
      if Recorded(db, cmd).Success? && Settle(Recorded(db, cmd).value, cmd).Failure? {
        SettleRefused(Recorded(db, cmd).value, cmd);
      }
    }
  }

  lemma RecordedRefused(db: Database, cmd: Command)
    requires cmd.orderId in db.orders
    ensures Recorded(db, cmd).Failure? ==> Recorded(db, cmd).error.Conflict?
    ensures Recorded(db, cmd).Success? ==>
      Recorded(db, cmd).value.orders == db.orders && Recorded(db, cmd).value.plans == db.plans
  {
  }
}
