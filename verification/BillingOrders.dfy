/** One order for each idempotency key, and what an order keeps for good (internal/billing/store.go, callbacks.go). */
module BillingOrders {
  import opened Foundations
  import opened BillingModel
  import opened BillingSpec
  import opened BillingRuns
  import opened BillingSettlement

  /** An order of the workspace was placed under the key. */
  ghost predicate KeyUsed(orders: map<nat, Order>, w: nat, key: nat) {
    exists id :: id in orders && orders[id].workspace == w && orders[id].idempotencyKey == key
  }

  /** Under a key already on record a request changes no table and says that nothing was created. */
  lemma UsedKeyChangesNothing(db: Database, input: CreateOrderInput, newId: nat)
    requires KeyUsed(db.orders, input.workspace, input.idempotencyKey)
    requires input.workspace != 0 && input.plan != 0 && input.idempotencyKey != 0 && input.now != 0
    ensures CreateOrder(db, input, newId) == Success((db, false))
  {
  }

  /**
   * Under a new key an order is placed exactly for an active plan with a price, pending and with what was asked
   * at that price, together with its open invoice; nothing else changes.
   */
  lemma NewKeyPlacesOrder(db: Database, input: CreateOrderInput, newId: nat)
    requires !KeyUsed(db.orders, input.workspace, input.idempotencyKey) && newId !in db.orders
    ensures CreateOrder(db, input, newId).Success? <==>
      && input.workspace != 0 && input.plan != 0 && input.idempotencyKey != 0 && input.now != 0
      && input.plan in db.plans && db.plans[input.plan].status.ActivePlan?
      && db.plans[input.plan].money.amount != 0 && db.plans[input.plan].money.currency < 26 * 26 * 26
    ensures CreateOrder(db, input, newId).Success? ==>
      var (db', created) := CreateOrder(db, input, newId).value;
      && created && newId in db'.orders && newId in db'.invoices
      && db' == db.(orders := db.orders[newId := db'.orders[newId]],
        invoices := db.invoices[newId := db'.invoices[newId]])
      && var (order, invoice) := (db'.orders[newId], db'.invoices[newId]);
         && order.workspace == input.workspace && order.plan == input.plan && order.kind == input.kind
         && order.money == db.plans[input.plan].money && order.status.OrderPending?
         && order.idempotencyKey == input.idempotencyKey
         && invoice.workspace == input.workspace && invoice.money == order.money && invoice.status.InvoiceOpen?
         && invoice.paidAt.None? && invoice.refundedAt.None?
  {
  }

  predicate SameRequest(a: Order, b: Order) { a.workspace == b.workspace && a.idempotencyKey == b.idempotencyKey }

  /** No two orders of one workspace were placed under the same key. */
  ghost predicate KeysUnique(orders: map<nat, Order>) {
    forall a, b :: a in orders && b in orders && SameRequest(orders[a], orders[b]) ==> a == b
  }

  /** The parts of an order that never change. */
  predicate SameOrder(a: Order, b: Order) {
    && a.workspace == b.workspace && a.plan == b.plan && a.kind == b.kind && a.money == b.money
    && a.idempotencyKey == b.idempotencyKey
  }

  /** Orders stay, with all but their status. */
  ghost predicate OrdersStay(orders: map<nat, Order>, orders': map<nat, Order>) {
    forall o :: o in orders ==> o in orders' && SameOrder(orders[o], orders'[o])
  }

  lemma CallbackOrders(db: Database, cmd: Command)
    requires ApplyCallback(db, cmd).Success?
    ensures var orders' := ApplyCallback(db, cmd).value.0.orders;
            orders'.Keys == db.orders.Keys && OrdersStay(db.orders, orders')
  {
    if EventKey(cmd) !in db.events {
      NewCallback(db, cmd);
      SettleMovesOrder(Recorded(db, cmd).value, cmd);
      hide ApplyCallback, Settle;
    }
  }

  lemma NextOrders(checks: bool, db: Database, step: Step)
    ensures OrdersStay(db.orders, Next(checks, db, step).orders)
    ensures KeysUnique(db.orders) ==> KeysUnique(Next(checks, db, step).orders)
  {
    hide ApplyCallback, SchemaOk, ScheduleDowngrade, LoadCurrent;
    match step
    case Calling(command) => if ApplyCallback(db, command).Success? { CallbackOrders(db, command); }
    case Ordering(input, newId) =>
    case Scheduling(_) =>
    case Refreshing(_, _) =>
    case GrantEdit(_, _) =>
    case SourceEdit(_, _) =>
  }

  /**
   * Over any run from the empty store two orders of one workspace under the same key are the same order, and
   * from any state on an order keeps its workspace, plan, kind, money and key.
   */
  lemma {:induction false} OneOrderPerKey(checks: bool, db: Database, steps: seq<Step>)
    ensures OrdersStay(db.orders, Run(checks, db, steps).orders)
    ensures KeysUnique(db.orders) ==> KeysUnique(Run(checks, db, steps).orders)
    ensures Initial(db) ==> KeysUnique(Run(checks, db, steps).orders)
  {
    hide Next;
    if steps != [] {
      OneOrderPerKey(checks, db, steps[..|steps| - 1]);
      NextOrders(checks, Run(checks, db, steps[..|steps| - 1]), steps[|steps| - 1]);
    }
  }

  /** However often and whenever a request comes back, after it was accepted it changes nothing. */
  lemma RequestedOnce(checks: bool, db: Database, input: CreateOrderInput, newId: nat, steps: seq<Step>, laterId: nat)
    requires CreateOrder(db, input, newId).Success?
    ensures var later := Run(checks, CreateOrder(db, input, newId).value.0, steps);
            CreateOrder(later, input, laterId) == Success((later, false))
  {
    var placed := CreateOrder(db, input, newId).value.0;
    assert KeyUsed(placed.orders, input.workspace, input.idempotencyKey) by { AcceptedKeyUsed(db, input, newId); }
    hide Run;
    OneOrderPerKey(checks, placed, steps);
    UsedKeyChangesNothing(Run(checks, placed, steps), input, laterId);
  }

  lemma AcceptedKeyUsed(db: Database, input: CreateOrderInput, newId: nat)
    requires CreateOrder(db, input, newId).Success?
    ensures KeyUsed(CreateOrder(db, input, newId).value.0.orders, input.workspace, input.idempotencyKey)
  {
    var placed := CreateOrder(db, input, newId).value.0;
    if placed != db { assert newId in placed.orders; }
  }

  /** Why a request is refused: what is missing from it, an unknown plan, or a plan that is not for sale. */
  lemma RefusedOrders(db: Database, input: CreateOrderInput, newId: nat)
    requires CreateOrder(db, input, newId).Failure? && newId !in db.orders
    ensures var (e, blank) := (CreateOrder(db, input, newId).error,
                               input.workspace == 0 || input.plan == 0 || input.idempotencyKey == 0 || input.now == 0);
            && (e.InvalidInput? <==> blank)
            && (e.NotFound? <==> !blank && input.plan !in db.plans)
            && (e.Conflict? <==> !blank && input.plan in db.plans)
  {
  }
}
