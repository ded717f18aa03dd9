/**
 * Runs from the empty store in which the surprising cases happen. One workspace buys plan 1 at instant 10
 * and asks for a downgrade to plan 2; the instants of what follows are parameters.
 */
module BillingScenarios {
  import opened Foundations
  import opened Calendar
  import opened BillingModel
  import opened BillingSpec
  import opened BillingInvariant
  import opened BillingSteps
  import opened BillingPhases
  import opened BillingTransitions
  import opened BillingRuns
  import opened BillingSettlement
  import opened BillingHistory
  import opened BillingLifecycle
  import opened BillingAcceptance
  import opened BillingAgreement
  import opened BillingRecords
  import opened BillingEnforcement
  import opened BillingDowngrades
  import B = BillingEntitlement
  import D = DomainEntitlement

  const PLANS: map<nat, Plan> := map[
    1 := Plan(PlanStatus.ActivePlan, Money(0, 10), Monthly, map[CustomDomains := 5]),
    2 := Plan(PlanStatus.ActivePlan, Money(0, 4), Monthly, map[CustomDomains := 3]),
    3 := Plan(PlanStatus.ActivePlan, Money(0, 2), Monthly, map[CustomDomains := 1])]

  const EMPTY_STORE := Database(PLANS, map[], map[], map[], map[], map[], map[], map[], [])

  const ORDER := Ordering(CreateOrderInput(1, 1, NewOrder, 9, 5), 7)
  const PAYMENT := Command(Stripe, 2, 1, 7, 1, 1, Instant(10, 0), Money(0, 10), TransactionPaid)
  const PURCHASE := [ORDER, Calling(PAYMENT)]
  const BOUGHT := OrderSub(7)

  function Asking(now: Instant): ScheduleInput { ScheduleInput(1, 2, 1, 1, now) }

  function Refunding(now: Instant): Command { Command(Stripe, 3, 1, 7, 1, 1, now, Money(0, 10), TransactionRefunded) }

  function TermAt(): Option<Micros> { StoredTermEnd(Monthly, Instant(10, 0)) }

  function Ordered(): Database {
    EMPTY_STORE.(orders := map[7 := Order(1, 1, NewOrder, Money(0, 10), OrderPending, 9)],
                 invoices := map[7 := Invoice(1, Money(0, 10), InvoiceOpen, None, None)])
  }

  /** The store after the purchase. */
  function Purchased(): Database {
    var key := PlanSourceKey(1, D.BillingKey);
    Database(
      PLANS,
      map[7 := Order(1, 1, NewOrder, Money(0, 10), OrderPaid, 9)],
      map[7 := Invoice(1, Money(0, 10), InvoicePaid, Some(10), None)],
      map[ProviderKey(Stripe, 1) := Transaction(1, 7, Money(0, 10), TransactionPaid)],
      map[ProviderKey(Stripe, 2) := Event(1, 1, 10)],
      map[BOUGHT := Subscription(1, 1, SubscriptionStatus.Active, 10, TermAt(), None, None, 1)],
      map[OwnKey(1, CustomDomains, BOUGHT) := Grant(1, CustomDomains, Billing, SubRef(BOUGHT), 5, 10, TermAt(), None)],
      map[key := D.Source(1, D.Plan, D.BillingKey, D.Active, 5, 10, TermAt(), None, None, 0, 0, D.BillingActive, 0)],
      [ProcessedCallback(ProviderKey(Stripe, 2), TransactionPaid)])
  }

  lemma EmptyStoreInitial()
    ensures Initial(EMPTY_STORE)
  {
  }

  lemma OrderIsPlaced()
    ensures CreateOrder(EMPTY_STORE, ORDER.input, ORDER.newId) == Success((Ordered(), true)) && SchemaOk(Ordered())
  {
  }

  lemma FirstActivation()
    ensures var db := Ordered().(orders := Purchased().orders, invoices := Purchased().invoices,
                                 transactions := Purchased().transactions, events := Purchased().events);
            && Activate(db, 7, Ordered().orders[7], Instant(10, 0)).Success?
            && var active := Activate(db, 7, Ordered().orders[7], Instant(10, 0)).value;
               && active.subs == Purchased().subs && active.grants == Purchased().grants
               && active == db.(subs := active.subs, grants := active.grants)
  {
    hide StoredTermEnd, PlanGrants;
    FirstGrants();
  }

  lemma FirstGrants()
    ensures PlanGrants(1, BOUGHT, PLANS[1].entitlements, 10, TermAt()) == Purchased().grants
  {
    hide StoredTermEnd;
    assert PlanKeys(1, BOUGHT, PLANS[1].entitlements) == {OwnKey(1, CustomDomains, BOUGHT)};
  }

  lemma PaymentSettles()
    ensures var recorded := Ordered().(transactions := Purchased().transactions, events := Purchased().events);
            SettlePaid(recorded, 7, Instant(10, 0)) == Success((Purchased().(audit := []), Some(BOUGHT)))
  {
    hide Activate, StoredTermEnd, ProjectDomainEntitlement;
    var recorded := Ordered().(transactions := Purchased().transactions, events := Purchased().events);
    FirstActivation();
    PaymentIsMarked(recorded);
    FirstProjection();
  }

  lemma PaymentIsMarked(recorded: Database)
    requires recorded.orders == Ordered().orders && recorded.invoices == Ordered().invoices
    ensures MarkPaid(recorded, 7, 10) == recorded.(orders := Purchased().orders, invoices := Purchased().invoices)
  {
    hide StoredTermEnd;
  }

  lemma FirstProjection()
    ensures ProjectDomainEntitlement(map[], 1, DomainLimit(PLANS, 1), Purchased().subs[BOUGHT])
      == Success(Purchased().sources)
  {
    hide StoredTermEnd;
    TermEndsLater(Monthly, Instant(10, 0));
  }

  lemma PaymentIsAccepted()
    ensures ApplyCallback(Ordered(), PAYMENT).Success? && ApplyCallback(Ordered(), PAYMENT).value.0 == Purchased()
    ensures SchemaOk(Purchased())
  {
    hide SettlePaid, StoredTermEnd, Recorded, GrantChecks, SubscriptionChecks;
    PaymentSettles();
    PaymentIsRecorded();
    PurchaseChecks();
  }

  lemma PaymentIsRecorded()
    ensures Recorded(Ordered(), PAYMENT)
      == Success(Ordered().(transactions := Purchased().transactions, events := Purchased().events))
  {
    hide StoredTermEnd;
  }

  lemma PurchaseChecks()
    ensures SchemaOk(Purchased())
  {
    hide StoredTermEnd;
    TermEndsLater(Monthly, Instant(10, 0));
  }

  /** With the checks or without, the purchase comes to the same store, with plan 1 in control. */
  lemma PurchaseRun(checks: bool)
    ensures Run(checks, EMPTY_STORE, PURCHASE) == Purchased() && Clock(PURCHASE) == 10
    ensures Inv(Purchased(), 10) && AllBase(Purchased().grants) && SchemaOk(Purchased())
    ensures PhaseOf(Purchased().subs, 1) == Running(BOUGHT)
  {
    hide Inv, AllBase, ApplyCallback, CreateOrder, SchemaOk, Purchased, Ordered, StoredTermEnd, Initial;
    EmptyStoreInitial();
    OrderIsPlaced();
    PaymentIsAccepted();
    LastStep(checks, EMPTY_STORE, [], ORDER);
    LastStep(checks, EMPTY_STORE, [ORDER], Calling(PAYMENT));
    assert [] + [ORDER] == [ORDER] && [ORDER] + [Calling(PAYMENT)] == PURCHASE;
    RunKeepsInv(checks, EMPTY_STORE, PURCHASE);
    RunBase(checks, EMPTY_STORE, PURCHASE);
    PurchasedRuns();
  }

  lemma PurchasedRuns()
    ensures PhaseOf(Purchased().subs, 1) == Running(BOUGHT)
  {
    hide StoredTermEnd;
    assert BOUGHT in Purchased().subs;
    assert BillableIds(Purchased().subs, 1) == {BOUGHT} && PendingIds(Purchased().subs, 1) == {};
    NewestOfOne(Purchased().subs, BOUGHT);
  }

  // ---------------------------------------------------------------- the downgrade

  function Target(now: Instant): SubId { TargetSub(BOUGHT, now.Plus(D.GRACE)) }

  function Asked(now: Instant): seq<Step> { PURCHASE + [Scheduling(Asking(now))] }

  lemma SmallerPlans()
    ensures StrictDowngrade(1, PLANS[1], 2, PLANS[2]) && StrictDowngrade(2, PLANS[2], 3, PLANS[3])
  {
  }

  lemma AskingIsSchedulable(now: Instant)
    requires 10 < now.at
    ensures Purchased().subs.Keys == {BOUGHT}
    ensures Schedulable(Purchased(), BOUGHT, Asking(now)) && Purchased().subs[BOUGHT].startsAt == 10
    ensures Purchased().subs[BOUGHT].plan == 1
  {
    hide StoredTermEnd, StrictDowngrade;
    SmallerPlans();
  }

  ghost function Downgraded(now: Instant): Result<(Database, Schedule)> { ScheduleDowngrade(Purchased(), Asking(now)) }

  lemma LastStep(checks: bool, db: Database, steps: seq<Step>, step: Step)
    ensures Run(checks, db, steps + [step]) == Next(checks, Run(checks, db, steps), step)
    ensures Clock(steps + [step]) == Max(Clock(steps), Time(step))
  {
    hide Next;
    assert (steps + [step])[..|steps|] == steps;
  }

  /** The run reaches the scheduled downgrade, with the checks or without. */
  lemma AskedRun(checks: bool, now: Instant)
    requires 10 < now.at
    ensures Downgraded(now).Success?
      && Downgraded(now).value.1 == Schedule(BOUGHT, Target(now), now.at, now.Plus(D.GRACE), true)
    ensures var run := Run(checks, EMPTY_STORE, Asked(now));
            && run == Downgraded(now).value.0 && run.plans == PLANS && Clock(Asked(now)) == now.Stored()
            && Inv(run, now.Stored()) && AllBase(run.grants) && SchemaOk(run) && SameLedger(Purchased(), run)
            && PhaseOf(run.subs, 1) == Downgrading(BOUGHT, Target(now)) && Target(now) in run.subs
            && run.subs[Target(now)].startsAt == now.Stored() + D.GRACE && run.subs[Target(now)].plan == 2
            && run.subs[Target(now)].version == 1 && run.subs.Keys == {BOUGHT, Target(now)}
  {
    hide Inv, AllBase, ScheduleDowngrade, SchemaOk, Purchased, PhaseOf, Schedulable, ScheduleFrom, Run, PURCHASE,
      Initial;
    PurchaseRun(checks);
    AskingIsSchedulable(now);
    var input := Asking(now);
    ScheduledExactly(Purchased(), 10, BOUGHT, input);
    ScheduleEnforced(Purchased(), 10, BOUGHT, input);
    LastStep(checks, EMPTY_STORE, PURCHASE, Scheduling(input));
    EmptyStoreInitial();
    RunKeepsInv(checks, EMPTY_STORE, Asked(now));
    RunBase(checks, EMPTY_STORE, Asked(now));
    AskedAnswer(now);
  }

  lemma AskedAnswer(now: Instant)
    requires 10 < now.at && Purchased().subs.Keys == {BOUGHT} && Inv(Purchased(), 10)
      && PhaseOf(Purchased().subs, 1) == Running(BOUGHT)
    requires ScheduleFrom(Purchased(), BOUGHT, Asking(now)).Success?
      && Downgraded(now) == ScheduleFrom(Purchased(), BOUGHT, Asking(now))
    ensures var (run, schedule) := Downgraded(now).value;
            && schedule == Schedule(BOUGHT, Target(now), now.at, now.Plus(D.GRACE), true)
              && SameLedger(Purchased(), run)
            && PhaseOf(run.subs, 1) == Downgrading(BOUGHT, Target(now)) && Target(now) in run.subs
            && run.subs[Target(now)].startsAt == now.Stored() + D.GRACE && run.subs[Target(now)].plan == 2
            && run.subs[Target(now)].version == 1 && run.subs.Keys == {BOUGHT, Target(now)}
  {
    hide Inv, ScheduleDowngrade, Purchased, PhaseOf, ScheduleFrom, ScheduledTerm;
    ScheduleAnswer(Purchased(), BOUGHT, Asking(now));
    ScheduledPhase(Purchased(), 10, Asking(now));
    PhaseOfShape(Downgraded(now).value.0, Max(10, now.Stored()), 1, Downgrading(BOUGHT, Target(now)));
  }

  // ---------------------------------------------------------------- a target that is never found

  /**
   * Asked at an instant with nanoseconds, the same request is refused at once, and from the grace end on
   * every load fails although the purchased subscription is still in control.
   */
  lemma TargetIsLost(checks: bool, asked: Instant, now: Instant)
    requires 10 < asked.at && !asked.Whole() && !now.Before(asked.Stored() + D.GRACE)
    ensures var run := Run(checks, EMPTY_STORE, Asked(asked));
            && BillableIds(run.subs, 1) == {BOUGHT} && Target(asked) in PendingIds(run.subs, 1)
            && ScheduleDowngrade(run, Asking(asked)).Failure? && LoadCurrent(run, 1, now).Failure?
  {
    hide Inv, ScheduleDowngrade, LoadCurrent, PhaseOf, Purchased, Run, Asked, SchemaOk, AllBase;
    AskedRun(checks, asked);
    var run := Run(checks, EMPTY_STORE, Asked(asked));
    InvShape(run, asked.Stored(), 1);
    BillableInShape(run, asked.Stored(), 1, Downgrading(BOUGHT, Target(asked)));
    LifecycleFromInv(run, asked.Stored(), 1, now);
    PurchaseRun(checks);
    SameRequestAgain(Purchased(), 10, Asking(asked));
  }

  // ---------------------------------------------------------------- a refund during the grace

  lemma RefundGuards(asked: Instant, refunded: Instant, run: Database)
    requires SameLedger(Purchased(), run) && !refunded.Zero()
    ensures Acceptable(run, Refunding(refunded)) && run.orders[7].workspace == 1 && run.orders[7].status.OrderPaid?
    ensures run.plans == PLANS && CustomDomains in PLANS[2].entitlements
  {
    hide StoredTermEnd;
  }

  /**
   * A refund during the grace revokes the waiting grant before its start. Without the schema's checks every
   * resolution over rows that hold it fails from then on; with them the refund is refused.
   */
  lemma RefundInGraceBreaksResolver(asked: Instant, refunded: Instant, t: Micros, v: nat, c: Capability, gs: seq<Grant>)
    requires 10 < asked.at && asked.Stored() <= refunded.Stored() < asked.Stored() + D.GRACE && !refunded.Zero()
    ensures var steps := Asked(asked) + [Calling(Refunding(refunded))];
            && RevokesEarly(Run(false, EMPTY_STORE, Asked(asked)), Calling(Refunding(refunded)))
            && var (run, k) := (Run(false, EMPTY_STORE, steps), OwnKey(1, CustomDomains, Target(asked)));
               && k in run.grants && (run.grants[k] in gs ==> B.Resolve(t, v, c, gs) == Failure(InvalidGrant))
               && Run(true, EMPTY_STORE, steps) == Run(true, EMPTY_STORE, Asked(asked))
  {
    hide Inv, PhaseOf, Purchased, Run, Asked, SchemaOk, AllBase, Acceptable, ApplyCallback, RevokesEarly, B.Resolve,
      Downgraded;
    AskedRun(false, asked);
    AskedRun(true, asked);
    var run, cmd := Downgraded(asked).value.0, Refunding(refunded);
    RefundGuards(asked, refunded, run);
    assert EndsGraceEarly(run, cmd);
    EarlyIsInGrace(run, asked.Stored(), cmd);
    CancelBeforeStart(run, asked.Stored(), cmd, CustomDomains);
    EarlyRevocationRefused(run, asked.Stored(), Calling(cmd));
    LastStep(false, EMPTY_STORE, Asked(asked), Calling(cmd));
    LastStep(true, EMPTY_STORE, Asked(asked), Calling(cmd));
  }

  // ---------------------------------------------------------------- a refund after the grace

  /** What a refund of a paid order does to the phase of its workspace. */
  lemma RefundPhase(db: Database, clock: Micros, cmd: Command)
    requires Inv(db, clock) && Acceptable(db, cmd) && cmd.outcome.TransactionRefunded?
      && db.orders[cmd.orderId].status.OrderPaid?
    ensures ApplyCallback(db, cmd).Success?
    ensures var w := db.orders[cmd.orderId].workspace;
            PhaseOf(ApplyCallback(db, cmd).value.0.subs, w)
            == if ControlsCurrent(db.subs, cmd.orderId, w) then Idle else PhaseOf(db.subs, w)
  {
    hide Recorded, SettleRefunded, PhaseOf, Shape, ValidateCommand, TransactionMoves, OrdersOk;
    AcceptedExactly(db, clock, cmd);
    var (recorded, now) := (Recorded(db, cmd).value, cmd.receivedAt.Stored());
    InvFrame(db, recorded, clock, clock);
    var w := db.orders[cmd.orderId].workspace;
    InvShape(recorded, clock, w);
    var ph := PhaseOf(recorded.subs, w);
    WellFormedInv(recorded, clock);
    if ControlsCurrent(db.subs, cmd.orderId, w) {
      RefundEndsControl(recorded, clock, ph, cmd.orderId, now);
      var left := SettleRefunded(recorded, cmd.orderId, now).value;
      assert Shape(left, Max(clock, now), w, Idle) by { IdleIsShape(left, Max(clock, now), w); }
      PhaseOfShape(left, Max(clock, now), w, Idle);
    } else {
      RefundKeepsPhase(recorded, clock, ph, cmd.orderId, now);
      PhaseOfShape(SettleRefunded(recorded, cmd.orderId, now).value, clock, w, ph);
    }
  }

  lemma IdleIsShape(db: Database, clock: Micros, w: nat)
    requires IdleShape(db, clock, w)
    ensures Shape(db, clock, w, Idle)
  {
  }

  /** A refund received after everything else, outside a grace of the order's own, passes the checks. */
  lemma LateRefund(checks: bool, steps: seq<Step>, refunded: Instant)
    requires var run := Run(checks, EMPTY_STORE, steps);
             && SchemaOk(run) && SameLedger(Purchased(), run) && Clock(steps) <= refunded.Stored() && !refunded.Zero()
             && var ph := PhaseOf(run.subs, 1);
                && ph.Downgrading? && ph.target in run.subs
                && (ph.current == BOUGHT ==> run.subs[ph.target].startsAt <= refunded.Stored())
    ensures var (run, cmd) := (Run(checks, EMPTY_STORE, steps), Refunding(refunded));
            && Next(checks, run, Calling(cmd)) == Run(checks, EMPTY_STORE, steps + [Calling(cmd)])
            && PhaseOf(Next(checks, run, Calling(cmd)).subs, 1)
               == if ControlsCurrent(run.subs, 7, 1) then Idle else PhaseOf(run.subs, 1)
  {
    hide Inv, PhaseOf, Purchased, Run, SchemaOk, AllBase, Acceptable, ApplyCallback, RevokesEarly, ControlsCurrent,
      Initial;
    EmptyStoreInitial();
    RunKeepsInv(checks, EMPTY_STORE, steps);
    RunBase(checks, EMPTY_STORE, steps);
    var (run, cmd) := (Run(checks, EMPTY_STORE, steps), Refunding(refunded));
    RefundGuards(refunded, refunded, run);
    RefundPhase(run, Clock(steps), cmd);
    EarlyIsInGrace(run, Clock(steps), cmd);
    CallbackEnforced(run, Clock(steps), cmd);
    LastStep(checks, EMPTY_STORE, steps, Calling(cmd));
  }

  /** The promoted target's own downgrade, to plan 3. */
  function AskingAgain(now: Instant): ScheduleInput { ScheduleInput(1, 3, 2, 1, now) }

  function AskedTwice(asked: Instant, again: Instant): seq<Step> { Asked(asked) + [Scheduling(AskingAgain(again))] }

  lemma AgainIsSchedulable(db: Database, t: SubId, again: Instant)
    requires db.plans == PLANS && t in db.subs && db.subs[t].plan == 2 && db.subs[t].version == 2
    requires again.After(db.subs[t].startsAt) && TargetSub(t, again.Plus(D.GRACE)) !in db.subs && !again.Zero()
    ensures Schedulable(db, t, AskingAgain(again))
  {
    hide StrictDowngrade;
    SmallerPlans();
  }

  /** Two requests from the same loaded state have the same answer. */
  lemma SameLoad(db: Database, db': Database, input: ScheduleInput)
    requires LoadCurrent(db, input.workspace, input.now).Success?
    requires LoadCurrent(db', input.workspace, input.now) == LoadCurrent(db, input.workspace, input.now)
    ensures ScheduleDowngrade(db', input) == ScheduleDowngrade(db, input)
  {
    hide LoadCurrent, ScheduleFrom;
  }

  lemma PromotedSchema(db: Database, clock: Micros, w: nat, c: SubId, t: SubId, now: Instant)
    requires WellFormed(db) && DowngradingShape(db, clock, w, c, t) && t.effectiveAt.Whole()
      && !now.Before(db.subs[t].startsAt)
    requires SchemaOk(db)
    ensures LoadCurrent(db, w, now).Success? && SchemaOk(LoadCurrent(db, w, now).value.0)
  {
    hide LoadCurrent, OwnsExactly, Mirrors, SubsClosed, GrantsDead, WellFormed, PromoteDomainTarget;
    PromotionFacts(db, clock, w, c, t, now);
    assert SubscriptionChecks(db.subs[c]) && SubscriptionChecks(db.subs[t]);
  }

  /** What the second request loads: the first target, promoted. */
  lemma AgainLoads(checks: bool, asked: Instant, again: Instant)
    requires 10 < asked.at && asked.Whole() && asked.Stored() + D.GRACE < again.at
    ensures var (run, t) := (Run(checks, EMPTY_STORE, Asked(asked)), Target(asked));
            && LoadCurrent(run, 1, again).Success?
            && var loaded := LoadCurrent(run, 1, again).value.0;
               && LoadCurrent(run, 1, again) == LoadCurrent(loaded, 1, again) == Success((loaded, t))
               && Inv(loaded, Max(asked.Stored(), again.Stored())) && AllBase(loaded.grants) && SchemaOk(loaded)
               && SameLedger(Purchased(), loaded) && loaded.plans == PLANS
               && PhaseOf(loaded.subs, 1) == Running(t) && Schedulable(loaded, t, AskingAgain(again))
               && loaded.subs[t].startsAt == asked.Stored() + D.GRACE
  {
    hide Inv, PhaseOf, Purchased, Run, Asked, SchemaOk, AllBase, ScheduleDowngrade, LoadCurrent, Schedulable;
    AskedRun(checks, asked);
    var (run, t) := (Run(checks, EMPTY_STORE, Asked(asked)), Target(asked));
    PromotionKeepsInv(run, asked.Stored(), 1, BOUGHT, t, again);
    PromotedRow(run, asked.Stored(), 1, BOUGHT, t, again);
    var loaded := LoadCurrent(run, 1, again).value.0;
    LoadedSchema(run, asked.Stored(), t, again);
    LoadedAgain(loaded, Max(asked.Stored(), again.Stored()), t, again);
    LedgerKept(run, again);
    AgainIsSchedulable(loaded, t, again);
  }

  /** The state the second request leaves: the first target is promoted and in its own grace. */
  lemma AskedTwiceRun(checks: bool, asked: Instant, again: Instant)
    requires 10 < asked.at && asked.Whole() && asked.Stored() + D.GRACE < again.at
    ensures var (run, t) := (Run(checks, EMPTY_STORE, AskedTwice(asked, again)), Target(asked));
            var t' := TargetSub(t, again.Plus(D.GRACE));
            && Clock(AskedTwice(asked, again)) == again.Stored() && SchemaOk(run) && SameLedger(Purchased(), run)
            && PhaseOf(run.subs, 1) == Downgrading(t, t') && t' in run.subs
  {
    hide Inv, PhaseOf, Purchased, Run, Asked, SchemaOk, AllBase, ScheduleDowngrade, LoadCurrent, ScheduleFrom,
      Schedulable;
    hide Shape, ScheduledTerm;
    AskedRun(checks, asked);
    AgainLoads(checks, asked, again);
    var (run, t, input) := (Run(checks, EMPTY_STORE, Asked(asked)), Target(asked), AskingAgain(again));
    var (loaded, clock) := (LoadCurrent(run, 1, again).value.0, Max(asked.Stored(), again.Stored()));
    SameLoad(run, loaded, input);
    ScheduledExactly(loaded, clock, t, input);
    ScheduleEnforced(loaded, clock, t, input);
    ScheduleAnswer(loaded, t, input);
    ScheduledPhase(loaded, clock, input);
    var next := ScheduleDowngrade(loaded, input).value.0;
    PhaseOfShape(next, Max(clock, again.Stored()), 1, Downgrading(t, TargetSub(t, again.Plus(D.GRACE))));
    LastStep(checks, EMPTY_STORE, Asked(asked), Scheduling(input));
  }

  lemma LoadedSchema(db: Database, clock: Micros, t: SubId, now: Instant)
    requires Inv(db, clock) && PhaseOf(db.subs, 1) == Downgrading(BOUGHT, t) && t in db.subs && SchemaOk(db)
    requires t.TargetSub? && t.effectiveAt.Whole() && !now.Before(db.subs[t].startsAt)
    ensures LoadCurrent(db, 1, now).Success? && SchemaOk(LoadCurrent(db, 1, now).value.0)
  {
    hide LoadCurrent, PhaseOf, SchemaOk;
    InvShape(db, clock, 1);
    WellFormedInv(db, clock);
    PromotedSchema(db, clock, 1, BOUGHT, t, now);
  }

  lemma LoadedAgain(db: Database, clock: Micros, t: SubId, now: Instant)
    requires Inv(db, clock) && PhaseOf(db.subs, 1) == Running(t)
    ensures LoadCurrent(db, 1, now) == Success((db, t))
  {
    hide LoadCurrent, PhaseOf;
    InvShape(db, clock, 1);
    WellFormedInv(db, clock);
    LoadCurrentInShape(db, clock, 1, Running(t), now);
  }

  lemma LedgerKept(db: Database, now: Instant)
    requires LoadCurrent(db, 1, now).Success?
    ensures SameLedger(db, LoadCurrent(db, 1, now).value.0)
  {
    hide LoadCurrent;
  }

  /**
   * The same refund of the same purchase, after the grace end: without a promotion in between it ends all
   * control; where a second request promoted the target first, the target stays in control.
   */
  lemma RefundAfterGrace(checks: bool, asked: Instant, again: Instant, refunded: Instant)
    requires 10 < asked.at && asked.Whole() && asked.Stored() + D.GRACE < again.at
      && again.Stored() <= refunded.Stored()
    ensures var refund := [Calling(Refunding(refunded))];
            && PhaseOf(Run(checks, EMPTY_STORE, Asked(asked) + refund).subs, 1) == Idle
            && PhaseOf(Run(checks, EMPTY_STORE, AskedTwice(asked, again) + refund).subs, 1)
               == Downgrading(Target(asked), TargetSub(Target(asked), again.Plus(D.GRACE)))
  {
    hide Inv, PhaseOf, Purchased, Run, Asked, AskedTwice, SchemaOk, AllBase, ControlsCurrent, Next;
    AskedRun(checks, asked);
    AskedTwiceRun(checks, asked, again);
    LateRefund(checks, Asked(asked), refunded);
    LateRefund(checks, AskedTwice(asked, again), refunded);
    ControlInPhase(checks, Asked(asked));
    ControlInPhase(checks, AskedTwice(asked, again));
  }

  /** The purchased subscription is in control exactly while it is the phase's current one. */
  lemma ControlInPhase(checks: bool, steps: seq<Step>)
    requires !PhaseOf(Run(checks, EMPTY_STORE, steps).subs, 1).Idle?
    ensures var run := Run(checks, EMPTY_STORE, steps);
            ControlsCurrent(run.subs, 7, 1) <==> PhaseOf(run.subs, 1).current == BOUGHT
  {
    hide Run, PhaseOf, Initial;
    EmptyStoreInitial();
    RunKeepsInv(checks, EMPTY_STORE, steps);
    var run := Run(checks, EMPTY_STORE, steps);
    InvShape(run, Clock(steps), 1);
    BillableInShape(run, Clock(steps), 1, PhaseOf(run.subs, 1));
    assert ControlsCurrent(run.subs, 7, 1) <==> BOUGHT in BillableIds(run.subs, 1);
  }

  // ---------------------------------------------------------------- a request after the term

  /**
   * Asked after the purchased month is over, when nothing is live any more, the downgrade gives the old
   * plan's five domains back until its grace end.
   */
  lemma LapsedTermIsRevived(checks: bool, asked: Instant, t: Micros)
    requires 10 < asked.at && TermAt().value <= asked.Stored() <= t < asked.Stored() + D.GRACE
    ensures forall k :: !LiveBilling(Run(checks, EMPTY_STORE, PURCHASE).grants, 1, CustomDomains, asked.Stored(), k)
    ensures GivesAlone(Run(checks, EMPTY_STORE, Asked(asked)), 1, CustomDomains, t, BOUGHT, 5)
  {
    hide Inv, PhaseOf, Run, SchemaOk, AllBase, ScheduleDowngrade, StoredTermEnd, Live;
    PurchaseRun(checks);
    AskedRun(checks, asked);
    TermEndsLater(Monthly, Instant(10, 0));
    ScheduleRevivesLapsedTerm(Purchased(), 10, BOUGHT, Asking(asked), CustomDomains, t);
  }
}
