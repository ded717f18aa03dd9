/** What provider events do to transactions over whole runs (internal/billing/callbacks.go). */
module BillingTransactions {
  import opened Foundations
  import opened BillingModel
  import opened BillingSpec
  import opened BillingInvariant
  import opened BillingRuns
  import opened BillingSettlement
  import opened BillingAcceptance

  /** One event moves a transaction from pending to paid or failed, from paid to refunded, or not at all. */
  predicate Moves(a: TransactionStatus, b: TransactionStatus) {
    match a
    case TransactionPending => !b.TransactionRefunded?
    case TransactionPaid => b.TransactionPaid? || b.TransactionRefunded?
    case TransactionFailed => b.TransactionFailed?
    case TransactionRefunded => b.TransactionRefunded?
  }

  /** How far a transaction has come; failed and refunded are ends. */
  predicate Follows(a: TransactionStatus, b: TransactionStatus) {
    Moves(a, b) || (a.TransactionPending? && b.TransactionRefunded?)
  }

  ghost predicate TransactionsFollow(ts: map<ProviderKey, Transaction>, ts': map<ProviderKey, Transaction>) {
    forall k :: k in ts ==>
      k in ts' && ts'[k] == ts[k].(status := ts'[k].status) && Follows(ts[k].status, ts'[k].status)
  }

  /** An event that was not seen before writes its own transaction only, with its outcome; others write none. */
  lemma CallbackTransactions(db: Database, cmd: Command)
    requires ApplyCallback(db, cmd).Success?
    ensures var (ts, ts', k) := (db.transactions, ApplyCallback(db, cmd).value.0.transactions,
                                 ProviderKey(cmd.provider, cmd.transactionId));
            && k in ts' && ts' == ts[k := ts'[k]] && ts'[k].order == cmd.orderId && ts'[k].money == cmd.money
            && (ProviderKey(cmd.provider, cmd.eventId) in db.events ==> ts' == ts)
            && (ProviderKey(cmd.provider, cmd.eventId) !in db.events ==> ts'[k].status == cmd.outcome)
            && (k in ts ==> ts'[k] == ts[k].(status := ts'[k].status) && Moves(ts[k].status, ts'[k].status))
            && (k !in ts ==> cmd.orderId in db.orders && ts'[k].workspace == db.orders[cmd.orderId].workspace)
  {
    if EventKey(cmd) !in db.events {
      NewCallback(db, cmd);
      RecordedTransaction(db, cmd);
      assert Settle(Recorded(db, cmd).value, cmd).value.0.transactions == Recorded(db, cmd).value.transactions;
      hide ApplyCallback, Settle;
    }
  }

  lemma OtherStepsTransactions(checks: bool, db: Database, step: Step)
    requires !step.Calling?
    ensures Next(checks, db, step).transactions == db.transactions
  {
    hide SchemaOk, ScheduleDowngrade, LoadCurrent, HasOrder;
  }

  lemma NextTransactions(checks: bool, db: Database, step: Step)
    ensures TransactionsFollow(db.transactions, Next(checks, db, step).transactions)
  {
    hide ApplyCallback, SchemaOk;
    if step.Calling? {
      if ApplyCallback(db, step.command).Success? { CallbackTransactions(db, step.command); }
    } else {
      OtherStepsTransactions(checks, db, step);
      hide Next;
    }
  }

  /**
   * Over any run a transaction keeps its order, money and workspace and never goes back: failed and
   * refunded are final.
   */
  lemma {:induction false} TransactionsOnlyAdvance(checks: bool, db: Database, steps: seq<Step>)
    ensures TransactionsFollow(db.transactions, Run(checks, db, steps).transactions)
  {
    hide Next;
    if steps != [] {
      TransactionsOnlyAdvance(checks, db, steps[..|steps| - 1]);
      NextTransactions(checks, Run(checks, db, steps[..|steps| - 1]), steps[|steps| - 1]);
    }
  }

  /** The order already is what the outcome makes it. */
  predicate Done(status: OrderStatus, outcome: TransactionStatus) {
    match outcome
    case TransactionPaid => status.OrderPaid?
    case TransactionFailed => status.OrderFailed?
    case TransactionRefunded => status.OrderRefunded?
    case TransactionPending => false
  }

  /**
   * A second event with the outcome a transaction already has, for an order that already is where it leads, is
   * accepted and remembered, and changes nothing else: no second activation, no second refund.
   */
  lemma SecondEventOnlyRecords(db: Database, cmd: Command)
    requires cmd.eventId != 0 && cmd.transactionId != 0 && cmd.orderId != 0 && cmd.eventType != 0
      && cmd.correlation != 0
    requires cmd.receivedAt.at != 0 && cmd.money.currency < 26 * 26 * 26 && cmd.money.amount != 0
    requires ProviderKey(cmd.provider, cmd.eventId) !in db.events
    requires cmd.orderId in db.orders && db.orders[cmd.orderId].money == cmd.money
    requires ProviderKey(cmd.provider, cmd.transactionId) in db.transactions
    requires var t := db.transactions[ProviderKey(cmd.provider, cmd.transactionId)];
             t.order == cmd.orderId && t.money == cmd.money && t.status == cmd.outcome
    requires Done(db.orders[cmd.orderId].status, cmd.outcome)
    ensures ApplyCallback(db, cmd).Success?
    ensures var (db', result) := ApplyCallback(db, cmd).value;
            && !result.duplicate && result.subscription.None?
            && var k := ProviderKey(cmd.provider, cmd.eventId);
               db' == db.(events := db.events[k := Event(cmd.transactionId, cmd.eventType, cmd.receivedAt.Stored())],
                          audit := db.audit + [ProcessedCallback(k, cmd.outcome)])
  {
    hide ActivateAndProject, ControlsCurrent;
    var k := TransactionKey(cmd);
    assert db.transactions[k := db.transactions[k].(status := cmd.outcome)] == db.transactions;
    if cmd.outcome.TransactionFailed? {
      assert db.orders[cmd.orderId := db.orders[cmd.orderId].(status := OrderFailed)] == db.orders;
    }
  }

  /** An event seen before is answered exactly when it is the same event for the same transaction, order and money. */
  lemma DuplicatesExactly(db: Database, cmd: Command)
    requires ProviderKey(cmd.provider, cmd.eventId) in db.events
    ensures var (event, k) := (db.events[ProviderKey(cmd.provider, cmd.eventId)],
                               ProviderKey(cmd.provider, cmd.transactionId));
            ApplyCallback(db, cmd).Success? <==>
              && cmd.eventId != 0 && cmd.transactionId != 0 && cmd.orderId != 0 && cmd.eventType != 0
                && cmd.correlation != 0
              && cmd.receivedAt.at != 0 && cmd.money.currency < 26 * 26 * 26 && cmd.money.amount != 0
              && !cmd.outcome.TransactionPending?
              && cmd.orderId in db.orders && db.orders[cmd.orderId].money == cmd.money
              && event.transactionId == cmd.transactionId && event.eventType == cmd.eventType
              && k in db.transactions && db.transactions[k].order == cmd.orderId
                && db.transactions[k].money == cmd.money
  {
    hide Settle, Recorded;
  }

  /** The answer shows the order and the transaction as they are after the event. */
  lemma AnswerShowsRows(db: Database, cmd: Command)
    requires ApplyCallback(db, cmd).Success?
    ensures var (db', result) := ApplyCallback(db, cmd).value;
            && cmd.orderId in db'.orders && result.order == db'.orders[cmd.orderId]
            && ProviderKey(cmd.provider, cmd.transactionId) in db'.transactions
            && result.transaction == db'.transactions[ProviderKey(cmd.provider, cmd.transactionId)]
            && (result.duplicate <==> ProviderKey(cmd.provider, cmd.eventId) in db.events)
  {
    hide Settle, Recorded, ValidateCommand;
  }
}
