/** Orders, invoices, transactions and callback events: settlement is a function of what was recorded, once. */
module BillingSettlement {
  import opened Foundations
  import opened BillingModel
  import opened BillingSpec
  import opened BillingRuns

  type Transactions = map<ProviderKey, Transaction>

  // ---------------------------------------------------------------- order status from transactions

  ghost predicate HasStatus(ts: Transactions, o: nat, status: TransactionStatus) {
    exists k :: k in ts && ts[k].order == o && ts[k].status == status
  }

  ghost predicate OnlyStatus(ts: Transactions, o: nat, statuses: set<TransactionStatus>) {
    forall k :: k in ts && ts[k].order == o ==> ts[k].status in statuses
  }

  /** The status an order must have, given the transactions recorded for it. */
  ghost predicate StatusFits(ts: Transactions, o: nat, status: OrderStatus) {
    match status
    case OrderPending => OnlyStatus(ts, o, {})
    case OrderFailed => HasStatus(ts, o, TransactionFailed) && OnlyStatus(ts, o, {TransactionFailed})
    case OrderPaid => HasStatus(ts, o, TransactionPaid) && OnlyStatus(ts, o, {TransactionPaid})
    case OrderRefunded =>
      HasStatus(ts, o, TransactionRefunded) && OnlyStatus(ts, o, {TransactionPaid, TransactionRefunded})
    case OrderProcessing => false
    case OrderCanceled => false
  }

  predicate InvoiceFits(order: Order, invoice: Invoice) {
    && invoice.workspace == order.workspace && invoice.money == order.money
    && (order.status.OrderPending? || order.status.OrderProcessing? || order.status.OrderFailed? ==>
      invoice.status.InvoiceOpen?)
    && (order.status.OrderPaid? ==> invoice.status.InvoicePaid? && invoice.paidAt.Some?)
    && (order.status.OrderRefunded? ==>
      invoice.status.InvoiceRefunded? && invoice.paidAt.Some? && invoice.refundedAt.Some?)
  }

  ghost predicate TransactionsFit(ts: Transactions, orders: map<nat, Order>) {
    forall k :: k in ts ==>
      && ts[k].order in orders
      && ts[k].money == orders[ts[k].order].money && ts[k].workspace == orders[ts[k].order].workspace
  }

  ghost predicate Settled(db: Database) {
    && TransactionsFit(db.transactions, db.orders)
    && (forall o :: o in db.orders ==> StatusFits(db.transactions, o, db.orders[o].status))
    && (forall o :: o in db.orders ==> o in db.invoices && InvoiceFits(db.orders[o], db.invoices[o]))
  }

  /** Transactions determine the status. */
  lemma StatusDetermined(ts: Transactions, o: nat, a: OrderStatus, b: OrderStatus)
    requires StatusFits(ts, o, a) && StatusFits(ts, o, b)
    ensures a == b
  {
  }

  /** The status an order moves to when a new or changed transaction is settled. */
  function StatusAfter(status: OrderStatus, outcome: TransactionStatus): Option<OrderStatus> {
    match outcome
    case TransactionPaid =>
      if status.OrderPending? || status.OrderProcessing? || status.OrderPaid? then Some(OrderPaid) else None
    case TransactionFailed =>
      if status.OrderPending? || status.OrderProcessing? || status.OrderFailed? then Some(OrderFailed) else None
    case TransactionRefunded =>
      if status.OrderPaid? || status.OrderRefunded? then Some(OrderRefunded) else None
    case TransactionPending => None
  }

  lemma PaidMovesOrder(db: Database, o: nat, now: Instant)
    requires o in db.orders && SettlePaid(db, o, now).Success?
    ensures var (db', activated) := SettlePaid(db, o, now).value;
            && StatusAfter(db.orders[o].status, TransactionPaid).Some?
            && (activated.Some? <==> !db.orders[o].status.OrderPaid?)
            && (activated.Some? ==> activated.value == OrderSub(o))
            && db'.orders == SetOrder(db.orders, o, OrderPaid)
            && db'.invoices == if activated.Some? then PayInvoice(db.invoices, o, now.Stored()) else db.invoices
  {
    hide Activate, ProjectDomainEntitlement, DomainLimit, PayInvoice;
  }

  lemma RefundMovesOrder(db: Database, o: nat, now: Micros)
    requires o in db.orders && SettleRefunded(db, o, now).Success?
    ensures var db' := SettleRefunded(db, o, now).value;
            && StatusAfter(db.orders[o].status, TransactionRefunded).Some?
            && db'.orders == SetOrder(db.orders, o, OrderRefunded)
            && db'.invoices == if db.orders[o].status.OrderPaid? then RefundInvoice(db.invoices, o, now)
              else db.invoices
  {
    hide CancelScheduled, RevokeSubscription, ExpirePlanSource, RefundInvoice, ControlsCurrent;
  }

  /** A settlement moves its order by that table, or is refused. */
  lemma SettleMovesOrder(db: Database, cmd: Command)
    requires cmd.orderId in db.orders && Settle(db, cmd).Success?
    ensures var db' := Settle(db, cmd).value.0;
            var (o, before) := (cmd.orderId, db.orders[cmd.orderId]);
            && StatusAfter(before.status, cmd.outcome).Some?
            && db'.orders == db.orders[o := before.(status := StatusAfter(before.status, cmd.outcome).value)]
            && (Settle(db, cmd).value.1.Some? <==> cmd.outcome.TransactionPaid? && !before.status.OrderPaid?)
            && (o in db.invoices && InvoiceFits(before, db.invoices[o]) ==> InvoiceFits(db'.orders[o], db'.invoices[o]))
  {
    hide SettlePaid, SettleRefunded;
    match cmd.outcome
    case TransactionPaid => PaidMovesOrder(db, cmd.orderId, cmd.receivedAt);
    case TransactionRefunded => RefundMovesOrder(db, cmd.orderId, cmd.receivedAt.Stored());
    case TransactionFailed =>
    case TransactionPending =>
  }

  lemma RecordedTransaction(db: Database, cmd: Command)
    requires cmd.orderId in db.orders && Recorded(db, cmd).Success?
    ensures var ts := Recorded(db, cmd).value.transactions;
            var k := TransactionKey(cmd);
            && k in ts && ts[k].order == cmd.orderId && ts[k].status == cmd.outcome && ts[k].money == cmd.money
            && ts == db.transactions[k := ts[k]]
            && (k in db.transactions ==>
                  db.transactions[k] == ts[k].(status := db.transactions[k].status)
                  && TransitionAllowed(db.transactions[k].status, cmd.outcome))
            && (k !in db.transactions ==> ts[k].workspace == db.orders[cmd.orderId].workspace)
  {
  }

  /** Recording a transaction and moving its order keep status and transactions in step. */
  lemma RecordFits(ts: Transactions, ts': Transactions, o: nat, k: ProviderKey, before: OrderStatus,
      outcome: TransactionStatus)
    requires StatusFits(ts, o, before) && StatusAfter(before, outcome).Some?
    requires k in ts' && ts'[k].order == o && ts'[k].status == outcome && ts' == ts[k := ts'[k]]
    requires k in ts ==> ts[k].order == o && TransitionAllowed(ts[k].status, outcome)
    ensures StatusFits(ts', o, StatusAfter(before, outcome).value)
  {
  }

  lemma RecordKeepsOthers(ts: Transactions, ts': Transactions, o: nat, k: ProviderKey, other: nat, status: OrderStatus)
    requires StatusFits(ts, other, status) && other != o
    requires k in ts' && ts'[k].order == o && ts' == ts[k := ts'[k]]
    requires k in ts ==> ts[k].order == o
    ensures StatusFits(ts', other, status)
  {
    forall s | HasStatus(ts, other, s)
      ensures HasStatus(ts', other, s)
    {
      var x :| x in ts && ts[x].order == other && ts[x].status == s;
      assert x in ts' && ts'[x] == ts[x];
    }
  }

  /** One order moves with its transactions; every other order keeps both. */
  lemma SettledStep(db: Database, db': Database, o: nat, k: ProviderKey, outcome: TransactionStatus)
    requires Settled(db) && o in db.orders && StatusAfter(db.orders[o].status, outcome).Some?
    requires db'.orders == db.orders[o := db.orders[o].(status := StatusAfter(db.orders[o].status, outcome).value)]
    requires k in db'.transactions && db'.transactions == db.transactions[k := db'.transactions[k]]
    requires var t := db'.transactions[k];
             && t.order == o && t.status == outcome
             && t.money == db.orders[o].money && t.workspace == db.orders[o].workspace
    requires k in db.transactions ==>
      db.transactions[k].order == o && TransitionAllowed(db.transactions[k].status, outcome)
    requires db'.invoices.Keys == db.invoices.Keys
    requires forall i :: i in db.invoices && i != o ==> db'.invoices[i] == db.invoices[i]
    requires InvoiceFits(db.orders[o], db.invoices[o]) ==> InvoiceFits(db'.orders[o], db'.invoices[o])
    ensures Settled(db')
  {
    hide StatusFits, TransitionAllowed, InvoiceFits, StatusAfter;
    RecordFits(db.transactions, db'.transactions, o, k, db.orders[o].status, outcome);
    forall other | other in db'.orders && other != o
      ensures StatusFits(db'.transactions, other, db'.orders[other].status)
    {
      RecordKeepsOthers(db.transactions, db'.transactions, o, k, other, db.orders[other].status);
    }
  }

  lemma CallbackKeepsSettled(db: Database, cmd: Command)
    requires Settled(db) && ApplyCallback(db, cmd).Success?
    ensures Settled(ApplyCallback(db, cmd).value.0)
  {
    if EventKey(cmd) !in db.events {
      NewCallback(db, cmd);
      var recorded := Recorded(db, cmd).value;
      RecordedTransaction(db, cmd);
      SettleMovesOrder(recorded, cmd);
      assert SameLedgerBut(recorded, Settle(recorded, cmd).value.0, cmd.orderId);
      hide Settle, Recorded, ApplyCallback, StatusFits, TransitionAllowed, InvoiceFits, StatusAfter;
      SettledStep(db, ApplyCallback(db, cmd).value.0, cmd.orderId, TransactionKey(cmd), cmd.outcome);
    }
  }

  /** What an accepted event that was not seen before has gone through. */
  lemma NewCallback(db: Database, cmd: Command)
    requires ApplyCallback(db, cmd).Success? && EventKey(cmd) !in db.events
    ensures cmd.orderId in db.orders && db.orders[cmd.orderId].money == cmd.money && Recorded(db, cmd).Success?
    ensures var recorded := Recorded(db, cmd).value;
            && Settle(recorded, cmd).Success?
            && var (settled, activated) := Settle(recorded, cmd).value;
               var (db', result) := ApplyCallback(db, cmd).value;
               && db' == settled.(audit := settled.audit + [ProcessedCallback(EventKey(cmd), cmd.outcome)])
               && !result.duplicate && result.subscription == activated
  {
    hide Settle, Recorded, ValidateCommand;
  }

  lemma CreateOrderKeepsSettled(db: Database, input: CreateOrderInput, newId: nat)
    requires Settled(db) && CreateOrder(db, input, newId).Success?
    ensures Settled(CreateOrder(db, input, newId).value.0)
  {
  }

  lemma NextKeepsSettled(checks: bool, db: Database, step: Step)
    requires Settled(db)
    ensures Settled(Next(checks, db, step))
  {
    hide ApplyCallback, CreateOrder, SchemaOk, ScheduleDowngrade, LoadCurrent, StatusFits, InvoiceFits;
    if Next(checks, db, step) != db {
      match step
      case Calling(command) => CallbackKeepsSettled(db, command);
      case Ordering(input, newId) => CreateOrderKeepsSettled(db, input, newId);
      case Scheduling(_) =>
      case Refreshing(_, _) =>
      case GrantEdit(_, _) =>
      case SourceEdit(_, _) =>
    }
  }

  /**
   * In every reachable state an order's status is a function of its transactions (StatusDetermined),
   * its invoice follows, and every transaction carries its order's money.
   */
  lemma {:induction false} OrdersFollowTransactions(checks: bool, db: Database, steps: seq<Step>)
    requires Initial(db)
    ensures Settled(Run(checks, db, steps))
  {
    hide Next;
    if steps != [] {
      hide Settled, Initial;
      OrdersFollowTransactions(checks, db, steps[..|steps| - 1]);
      NextKeepsSettled(checks, Run(checks, db, steps[..|steps| - 1]), steps[|steps| - 1]);
    }
  }

  // ---------------------------------------------------------------- exactly once

  predicate WasPaid(db: Database, o: nat) {
    o in db.orders && (db.orders[o].status.OrderPaid? || db.orders[o].status.OrderRefunded?)
  }

  predicate WasRefunded(db: Database, o: nat) { o in db.orders && db.orders[o].status.OrderRefunded? }

  function Count(b: bool): nat { if b then 1 else 0 }

  /** The step activates the order's subscription. */
  predicate Activates(checks: bool, db: Database, step: Step, o: nat) {
    && step.Calling? && step.command.orderId == o
    && var r := Answer(checks, ApplyCallback(db, step.command));
       r.Success? && r.value.subscription.Some?
  }

  /** The step takes the order from paid to refunded. */
  predicate Refunds(checks: bool, db: Database, step: Step, o: nat) {
    && step.Calling? && step.command.orderId == o && step.command.outcome.TransactionRefunded?
    && var r := Answer(checks, ApplyCallback(db, step.command));
       r.Success? && !r.value.duplicate && o in db.orders && db.orders[o].status.OrderPaid?
  }

  lemma CallbackCounts(db: Database, cmd: Command, o: nat)
    requires ApplyCallback(db, cmd).Success?
    ensures var (db', result) := ApplyCallback(db, cmd).value;
            && Count(WasPaid(db', o)) == Count(WasPaid(db, o)) + Count(cmd.orderId == o && result.subscription.Some?)
            && Count(WasRefunded(db', o)) == Count(WasRefunded(db, o))
               + Count(cmd.orderId == o && cmd.outcome.TransactionRefunded? && !result.duplicate
                       && o in db.orders && db.orders[o].status.OrderPaid?)
  {
    if EventKey(cmd) !in db.events {
      NewCallback(db, cmd);
      SettleMovesOrder(Recorded(db, cmd).value, cmd);
      hide ApplyCallback, Settle;
    }
  }

  /** Apart from callbacks a step at most adds a pending order. */
  lemma OtherStepsOrders(checks: bool, db: Database, step: Step)
    requires !step.Calling?
    ensures var orders' := Next(checks, db, step).orders;
            && (forall o :: o in db.orders ==> o in orders' && orders'[o] == db.orders[o])
            && (forall o :: o in orders' && o !in db.orders ==> orders'[o].status.OrderPending?)
  {
    hide SchemaOk, ScheduleDowngrade, LoadCurrent, HasOrder;
  }

  lemma NextCounts(checks: bool, db: Database, step: Step, o: nat)
    ensures var db' := Next(checks, db, step);
            && Count(WasPaid(db', o)) == Count(WasPaid(db, o)) + Count(Activates(checks, db, step, o))
            && Count(WasRefunded(db', o)) == Count(WasRefunded(db, o)) + Count(Refunds(checks, db, step, o))
  {
    hide ApplyCallback, SchemaOk, CreateOrder, ScheduleDowngrade, LoadCurrent, SameLedger;
    if step.Calling? {
      if ApplyCallback(db, step.command).Success? { CallbackCounts(db, step.command, o); }
    } else {
      hide Next;
      OtherStepsOrders(checks, db, step);
    }
  }

  function ActivationsOf(checks: bool, states: seq<Database>, steps: seq<Step>, o: nat): nat
    requires |states| >= |steps|
  {
    if steps == [] then 0
    else
      var n := |steps| - 1;
      ActivationsOf(checks, states[..n], steps[..n], o) + Count(Activates(checks, states[n], steps[n], o))
  }

  function RefundsOf(checks: bool, states: seq<Database>, steps: seq<Step>, o: nat): nat
    requires |states| >= |steps|
  {
    if steps == [] then 0
    else
      var n := |steps| - 1;
      RefundsOf(checks, states[..n], steps[..n], o) + Count(Refunds(checks, states[n], steps[n], o))
  }

  /** The state each step of a run finds. */
  ghost predicate Trace(checks: bool, db: Database, steps: seq<Step>, states: seq<Database>) {
    |states| == |steps| && forall i :: 0 <= i < |steps| ==> states[i] == Run(checks, db, steps[..i])
  }

  /** From any state at all: the order's status counts what happened to it. */
  lemma {:induction false} StatusCounts(checks: bool, db: Database, steps: seq<Step>, states: seq<Database>, o: nat)
    requires Trace(checks, db, steps, states)
    ensures var run := Run(checks, db, steps);
            && Count(WasPaid(run, o)) == Count(WasPaid(db, o)) + ActivationsOf(checks, states, steps, o)
            && Count(WasRefunded(run, o)) == Count(WasRefunded(db, o)) + RefundsOf(checks, states, steps, o)
  {
    hide Next, Activates, Refunds, WasPaid, WasRefunded;
    if steps != [] {
      var n := |steps| - 1;
      forall i | 0 <= i < n
        ensures states[..n][i] == Run(checks, db, steps[..n][..i])
      {
        assert steps[..n][..i] == steps[..i];
      }
      StatusCounts(checks, db, steps[..n], states[..n], o);
      NextCounts(checks, states[n], steps[n], o);
    }
  }

  /**
   * Over any run from the empty store, with duplicates and reorderings, each order activates at most
   * once and is refunded at most once, a refund only after an activation; a paid order has activated
   * exactly once and a refunded one has also been refunded exactly once.
   */
  lemma SettledExactlyOnce(checks: bool, db: Database, steps: seq<Step>, states: seq<Database>, o: nat)
    requires Initial(db) && Trace(checks, db, steps, states)
    ensures var run := Run(checks, db, steps);
            var (activations, refunds) := (ActivationsOf(checks, states, steps, o),
              RefundsOf(checks, states, steps, o));
            && refunds <= activations <= 1
            && (activations == 1 <==>
              o in run.orders && (run.orders[o].status.OrderPaid? || run.orders[o].status.OrderRefunded?))
            && (refunds == 1 <==> o in run.orders && run.orders[o].status.OrderRefunded?)
  {
    hide Run, Activates, Refunds;
    StatusCounts(checks, db, steps, states, o);
  }

  // ---------------------------------------------------------------- replays

  /** The event of an accepted command, its transaction and its order are still on record. */
  predicate Remembered(db: Database, cmd: Command) {
    && ValidateCommand(cmd).None?
    && cmd.orderId in db.orders && db.orders[cmd.orderId].money == cmd.money
    && EventKey(cmd) in db.events
    && db.events[EventKey(cmd)].transactionId == cmd.transactionId
      && db.events[EventKey(cmd)].eventType == cmd.eventType
    && TransactionKey(cmd) in db.transactions
    && db.transactions[TransactionKey(cmd)].order == cmd.orderId
      && db.transactions[TransactionKey(cmd)].money == cmd.money
  }

  lemma AcceptedIsRemembered(db: Database, cmd: Command)
    requires ApplyCallback(db, cmd).Success?
    ensures Remembered(ApplyCallback(db, cmd).value.0, cmd)
  {
    assert ValidateCommand(cmd).None?;
    if EventKey(cmd) !in db.events {
      NewCallback(db, cmd);
      var recorded := Recorded(db, cmd).value;
      RecordedTransaction(db, cmd);
      RecordedEvent(db, cmd);
      SettleMovesOrder(recorded, cmd);
      hide ApplyCallback, Settle, Recorded, ValidateCommand;
    }
  }

  lemma RecordedEvent(db: Database, cmd: Command)
    requires cmd.orderId in db.orders && Recorded(db, cmd).Success?
    ensures Recorded(db, cmd).value.events
      == db.events[EventKey(cmd) := Event(cmd.transactionId, cmd.eventType, cmd.receivedAt.Stored())]
  {
  }

  lemma CallbackRemembers(db: Database, next: Command, cmd: Command)
    requires Remembered(db, cmd) && ApplyCallback(db, next).Success?
    ensures Remembered(ApplyCallback(db, next).value.0, cmd)
  {
    if EventKey(next) !in db.events {
      NewCallback(db, next);
      var recorded := Recorded(db, next).value;
      RecordedTransaction(db, next);
      RecordedEvent(db, next);
      SettleMovesOrder(recorded, next);
      hide ApplyCallback, Settle, Recorded, ValidateCommand;
    }
  }

  lemma NextRemembers(checks: bool, db: Database, step: Step, cmd: Command)
    requires Remembered(db, cmd)
    ensures Remembered(Next(checks, db, step), cmd)
  {
    hide ApplyCallback, SchemaOk, ScheduleDowngrade, LoadCurrent, HasOrder, ValidateCommand;
    if step.Calling? && ApplyCallback(db, step.command).Success? { CallbackRemembers(db, step.command, cmd); }
  }

  lemma {:induction false} RunRemembers(checks: bool, db: Database, steps: seq<Step>, cmd: Command)
    requires Remembered(db, cmd)
    ensures Remembered(Run(checks, db, steps), cmd)
  {
    hide Next, Remembered;
    if steps != [] {
      RunRemembers(checks, db, steps[..|steps| - 1], cmd);
      NextRemembers(checks, Run(checks, db, steps[..|steps| - 1]), steps[|steps| - 1], cmd);
    }
  }

  /**
   * However much later it comes back, a command accepted once is answered as a duplicate and only adds to
   * the audit log.
   */
  lemma ReplayOnlyAudits(checks: bool, db: Database, cmd: Command, steps: seq<Step>)
    requires Answer(checks, ApplyCallback(db, cmd)).Success?
    ensures var run := Run(checks, Committed(checks, db, ApplyCallback(db, cmd)), steps);
            var again := ApplyCallback(run, cmd);
            && again.Success? && again.value.1.duplicate && again.value.1.subscription.None?
            && again.value.0 == run.(audit := run.audit + [DuplicateCallback(EventKey(cmd))])
  {
    AcceptedIsRemembered(db, cmd);
    var first := Committed(checks, db, ApplyCallback(db, cmd));
    RunRemembers(checks, first, steps, cmd);
    DuplicateAnswer(Run(checks, first, steps), cmd);
  }

  lemma DuplicateAnswer(db: Database, cmd: Command)
    requires Remembered(db, cmd)
    ensures var again := ApplyCallback(db, cmd);
            && again.Success? && again.value.1.duplicate && again.value.1.subscription.None?
            && again.value.0 == db.(audit := db.audit + [DuplicateCallback(EventKey(cmd))])
  {
    hide Settle, Recorded;
  }
}
