/**
 * Runs of the billing store: any sequence of order creations, callbacks, downgrade requests and
 * promotions, interleaved with edits other packages make to rows billing does not own.
 */
module BillingRuns {
  import opened Foundations
  import opened BillingModel
  import opened Calendar
  import opened BillingSpec
  import opened BillingInvariant
  import opened BillingSteps
  import opened BillingPhases
  import opened BillingTransitions
  import D = DomainEntitlement

  datatype Step =
    | Ordering(input: CreateOrderInput, newId: nat)
    | Calling(command: Command)
    | Scheduling(request: ScheduleInput)
    | Refreshing(workspace: nat, now: Instant)
    | GrantEdit(grantKey: GrantKey, grant: Option<Grant>)
    | SourceEdit(sourceKey: SourceKey, source: Option<D.Source>)

  function Time(step: Step): Micros {
    match step
    case Ordering(input, _) => input.now
    case Calling(command) => command.receivedAt.Stored()
    case Scheduling(request) => request.now.Stored()
    case Refreshing(_, now) => now.Stored()
    case GrantEdit(_, _) => 0
    case SourceEdit(_, _) => 0
  }

  /** An edit of a grant that is not a billing grant; anything else is not an edit. */
  function EditGrant(db: Database, k: GrantKey, row: Option<Grant>): Result<(Database, bool)> {
    if k.sourceType.Billing? || (row.Some? && KeyOf(row.value) != k) then Failure(InvalidInput)
    else Success((db.(grants := if row.None? then db.grants - {k} else db.grants[k := row.value]), true))
  }

  /** An edit of a domain source that is not one of billing's two plan sources. */
  function EditSource(db: Database, k: SourceKey, row: Option<D.Source>): Result<(Database, bool)> {
    if PlanOwned(k) || (row.Some? && SourceKey(row.value.workspace, row.value.kind, row.value.key) != k)
    then Failure(InvalidInput)
    else Success((db.(sources := if row.None? then db.sources - {k} else db.sources[k := row.value]), true))
  }

  ghost function Next(checks: bool, db: Database, step: Step): Database {
    match step
    case Ordering(input, newId) => Committed(checks, db, CreateOrder(db, input, newId))
    case Calling(command) => Committed(checks, db, ApplyCallback(db, command))
    case Scheduling(request) => Committed(checks, db, ScheduleDowngrade(db, request))
    case Refreshing(w, now) => Committed(checks, db, LoadCurrent(db, w, now))
    case GrantEdit(k, row) => Committed(checks, db, EditGrant(db, k, row))
    case SourceEdit(k, row) => Committed(checks, db, EditSource(db, k, row))
  }

  /** The state after each step of a run, the start included. */
  ghost function Run(checks: bool, db: Database, steps: seq<Step>): Database {
    if steps == [] then db
    else Next(checks, Run(checks, db, steps[..|steps| - 1]), steps[|steps| - 1])
  }

  /** The latest instant a run has seen; the steps themselves may carry their times in any order. */
  function Clock(steps: seq<Step>): Micros {
    if steps == [] then 0 else Max(Clock(steps[..|steps| - 1]), Time(steps[|steps| - 1]))
  }

  /** Plans exist, with limits of at least one (migrations/000009); nothing has been bought. */
  ghost predicate Initial(db: Database) {
    && PlansOk(db.plans)
    && db == Database(db.plans, map[], map[], map[], map[], map[], map[], map[], [])
  }

  // ---------------------------------------------------------------- phases

  /** The phase of a workspace, read off its subscription rows. */
  ghost function PhaseOf(subs: Subs, w: nat): Phase {
    var billable, pending := BillableIds(subs, w), PendingIds(subs, w);
    if billable == {} then Idle
    else if pending == {} then Running(Newest(subs, billable))
    else Downgrading(Newest(subs, billable), Newest(subs, pending))
  }

  lemma PhaseOfShape(db: Database, clock: Micros, w: nat, ph: Phase)
    requires Shape(db, clock, w, ph)
    ensures PhaseOf(db.subs, w) == ph
  {
    BillableInShape(db, clock, w, ph);
    if !ph.Idle? {
      assert ph.current in {ph.current};
      NewestOfOne(db.subs, ph.current);
      if ph.Downgrading? { NewestOfOne(db.subs, ph.target); }
    }
  }

  lemma NewestOfOne(subs: Subs, id: SubId)
    requires id in subs
    ensures Newest(subs, {id}) == id
  {
  }

  lemma InvShape(db: Database, clock: Micros, w: nat)
    requires Inv(db, clock)
    ensures Shape(db, clock, w, PhaseOf(db.subs, w))
  {
    assert HasShape(db, clock, w);
    var ph :| Shape(db, clock, w, ph);
    PhaseOfShape(db, clock, w, ph);
  }

  /** The subscription that is, or will be, in control. */
  function Heir(ph: Phase): SubId
    requires !ph.Idle?
  {
    if ph.Running? then ph.current else ph.target
  }

  /** A callback activates a new subscription, ends control, or changes no phase. */
  ghost predicate CallbackMove(subs: Subs, subs': Subs, w: nat, activated: Option<SubId>) {
    if activated.Some? then activated.value !in subs && PhaseOf(subs', w) == Running(activated.value)
    else PhaseOf(subs', w) == PhaseOf(subs, w) || PhaseOf(subs', w).Idle?
  }

  ghost predicate PromotionMove(subs: Subs, subs': Subs, w: nat) {
    || PhaseOf(subs', w) == PhaseOf(subs, w)
    || (PhaseOf(subs, w).Downgrading? && PhaseOf(subs', w) == Running(PhaseOf(subs, w).target))
  }

  /** A schedule adds one target under the subscription in control, on a strictly smaller plan. */
  ghost predicate ScheduleMove(plans: Plans, subs: Subs, subs': Subs, w: nat) {
    var ph, ph' := PhaseOf(subs, w), PhaseOf(subs', w);
    && !ph.Idle? && ph'.Downgrading? && ph'.current == Heir(ph)
    && ph'.target !in subs && ph'.target in subs' && ph'.current in subs'
    && subs'[ph'.current].plan in plans && subs'[ph'.target].plan in plans
    && StrictDowngrade(subs'[ph'.current].plan, plans[subs'[ph'.current].plan],
                       subs'[ph'.target].plan, plans[subs'[ph'.target].plan])
  }

  // ---------------------------------------------------------------- one step

  lemma OthersFrame(db: Database, db0: Database, db1: Database, db': Database, w: nat)
    requires OthersSame(db0, db1, w)
    requires db0.plans == db.plans && db0.subs == db.subs && db0.grants == db.grants && db0.sources == db.sources
    requires db'.plans == db1.plans && db'.subs == db1.subs && db'.grants == db1.grants && db'.sources == db1.sources
    ensures OthersSame(db, db', w)
  {
    forall v: nat | v != w
      ensures SameRows(db, db', v)
    {
      assert SameRows(db0, db1, v);
    }
  }

  lemma OthersUntouched(db: Database, db': Database, w: nat)
    requires db'.plans == db.plans && db'.subs == db.subs && db'.grants == db.grants && db'.sources == db.sources
    ensures OthersSame(db, db', w)
  {
  }

  /** Tables the invariant does not speak of may change, and the clock may advance. */
  lemma InvFrame(db: Database, db': Database, clock: Micros, clock': Micros)
    requires Inv(db, clock) && clock <= clock'
    requires db'.plans == db.plans && db'.subs == db.subs && db'.grants == db.grants && db'.sources == db.sources
    requires db'.orders == db.orders || OrdersOk(db'.orders, db'.subs)
    ensures Inv(db', clock')
  {
    forall w: nat
      ensures HasShape(db', clock', w)
    {
      InvShape(db, clock, w);
      ShapeFrame(db, db', clock, clock', w, PhaseOf(db.subs, w));
    }
  }

  lemma NewOrderOk(orders: Orders, subs: Subs, newId: nat, orders': Orders)
    requires OrdersOk(orders, subs) && newId !in orders && newId in orders'
      && orders' == orders[newId := orders'[newId]]
    requires orders'[newId].workspace != 0
    ensures OrdersOk(orders', subs)
  {
  }

  lemma CreateOrderKeepsInv(db: Database, clock: Micros, input: CreateOrderInput, newId: nat)
    requires Inv(db, clock) && CreateOrder(db, input, newId).Success?
    ensures Inv(CreateOrder(db, input, newId).value.0, Max(clock, input.now))
  {
    hide Shape, GrantsOk, SourcesOk, HasOrder, PlansOk, HasShape;
    if CreateOrder(db, input, newId).value.1 { NewOrderOk(db.orders, db.subs, newId, CreateOrder(db, input, newId).value.0.orders); }
    hide Inv, OrdersOk;
    InvFrame(db, CreateOrder(db, input, newId).value.0, clock, Max(clock, input.now));
  }

  lemma PaidNames(db: Database, clock: Micros, o: nat, now: Instant)
    requires Inv(db, clock) && o in db.orders && SettlePaid(db, o, now).Success?
    ensures WellFormed(db)
    ensures db.orders[o].status.OrderPaid? ==> SettlePaid(db, o, now).value == (db, None)
    ensures !db.orders[o].status.OrderPaid? ==>
      SettlePaid(db, o, now).value.1 == Some(OrderSub(o)) && OrderSub(o) !in db.subs
  {
    hide ActivateAndProject, Shape;
  }

  lemma PaidKeepsInv(db: Database, clock: Micros, o: nat, now: Instant)
    requires Inv(db, clock) && o in db.orders && !now.Zero() && SettlePaid(db, o, now).Success?
    ensures var (db', activated) := SettlePaid(db, o, now).value;
            && Inv(db', Max(clock, now.Stored())) && OthersSame(db, db', db.orders[o].workspace)
            && CallbackMove(db.subs, db'.subs, db.orders[o].workspace, activated)
  {
    hide SettlePaid, Inv, WellFormed, RunningShape, PhaseOf;
    var w := db.orders[o].workspace;
    PaidNames(db, clock, o, now);
    if db.orders[o].status.OrderPaid? {
      InvLater(db, clock, Max(clock, now.Stored()));
      OthersUntouched(db, db, w);
    } else {
      InvShape(db, clock, w);
      PaidTakesControl(db, clock, PhaseOf(db.subs, w), o, now);
      InvStep(db, SettlePaid(db, o, now).value.0, clock, Max(clock, now.Stored()), w, Running(OrderSub(o)));
      PhaseOfShape(SettlePaid(db, o, now).value.0, Max(clock, now.Stored()), w, Running(OrderSub(o)));
    }
  }

  lemma RefundKeepsInv(db: Database, clock: Micros, o: nat, now: Micros)
    requires Inv(db, clock) && o in db.orders && SettleRefunded(db, o, now).Success?
    ensures var db' := SettleRefunded(db, o, now).value;
            && Inv(db', Max(clock, now)) && OthersSame(db, db', db.orders[o].workspace)
            && CallbackMove(db.subs, db'.subs, db.orders[o].workspace, None)
  {
    var w := db.orders[o].workspace;
    if db.orders[o].status.OrderRefunded? {
      InvLater(db, clock, Max(clock, now));
    } else {
      assert db.orders[o].status.OrderPaid?;
      hide SettleRefunded, IdleShape, RunningShape, DowngradingShape, OthersSame, PhaseOf;
      var db' := SettleRefunded(db, o, now).value;
      InvShape(db, clock, w);
      if ControlsCurrent(db.subs, o, w) {
        RefundEndsControl(db, clock, PhaseOf(db.subs, w), o, now);
        InvStep(db, db', clock, Max(clock, now), w, Idle);
        PhaseOfShape(db', Max(clock, now), w, Idle);
      } else {
        RefundKeepsPhase(db, clock, PhaseOf(db.subs, w), o, now);
        InvStep(db, db', clock, clock, w, PhaseOf(db.subs, w));
        PhaseOfShape(db', clock, w, PhaseOf(db.subs, w));
        InvLater(db', clock, Max(clock, now));
      }
    }
  }

  lemma SettleKeepsInv(db: Database, clock: Micros, cmd: Command)
    requires Inv(db, clock) && cmd.orderId in db.orders && !cmd.receivedAt.Zero()
    requires Settle(db, cmd).Success?
    ensures var (db', activated) := Settle(db, cmd).value;
            && Inv(db', Max(clock, cmd.receivedAt.Stored())) && OthersSame(db, db', db.orders[cmd.orderId].workspace)
            && CallbackMove(db.subs, db'.subs, db.orders[cmd.orderId].workspace, activated)
  {
    hide SettlePaid, SettleRefunded, PhaseOf;
    match cmd.outcome
    case TransactionPaid => PaidKeepsInv(db, clock, cmd.orderId, cmd.receivedAt);
    case TransactionFailed => InvFrame(db, SettleFailed(db, cmd.orderId).value, clock,
      Max(clock, cmd.receivedAt.Stored()));
    case TransactionRefunded => RefundKeepsInv(db, clock, cmd.orderId, cmd.receivedAt.Stored());
  }

  lemma CallbackKeepsInv(db: Database, clock: Micros, cmd: Command)
    requires Inv(db, clock) && ApplyCallback(db, cmd).Success?
    ensures cmd.orderId in db.orders
    ensures var (db', result) := ApplyCallback(db, cmd).value;
            && Inv(db', Max(clock, cmd.receivedAt.Stored())) && OthersSame(db, db', db.orders[cmd.orderId].workspace)
            && CallbackMove(db.subs, db'.subs, db.orders[cmd.orderId].workspace, result.subscription)
  {
    hide Settle, PhaseOf, Recorded, Shape, SameRows, OrdersOk;
    var db' := ApplyCallback(db, cmd).value.0;
    if EventKey(cmd) in db.events {
      InvFrame(db, db', clock, Max(clock, cmd.receivedAt.Stored()));
      OthersUntouched(db, db', db.orders[cmd.orderId].workspace);
    } else {
      var recorded := Recorded(db, cmd).value;
      InvFrame(db, recorded, clock, clock);
      SettleKeepsInv(recorded, clock, cmd);
      var settled := Settle(recorded, cmd).value.0;
      InvFrame(settled, db', Max(clock, cmd.receivedAt.Stored()), Max(clock, cmd.receivedAt.Stored()));
      OthersFrame(db, recorded, settled, db', db.orders[cmd.orderId].workspace);
    }
  }

  /** Loading the current subscription keeps the invariant and finds it running, or still in its grace. */
  lemma LoadKeepsInv(db: Database, clock: Micros, w: nat, now: Instant)
    requires Inv(db, clock) && LoadCurrent(db, w, now).Success?
    ensures var (db', id) := LoadCurrent(db, w, now).value;
            && Inv(db', Max(clock, now.Stored())) && OthersSame(db, db', w) && PromotionMove(db.subs, db'.subs, w)
            && db'.subs.Keys == db.subs.Keys
            && (|| (PhaseOf(db'.subs, w) == Running(id) && (PhaseOf(db.subs, w) == Running(id) ==> db' == db))
                || (db' == db && PhaseOf(db.subs, w).Downgrading? && PhaseOf(db.subs, w).current == id
                    && id in db.subs && db.subs[id].status.Grace? && db.subs[id].graceEndsAt.Some?
                      && now.Before(db.subs[id].graceEndsAt.value)))
  {
    var ph := PhaseOf(db.subs, w);
    InvShape(db, clock, w);
    LoadCurrentInShape(db, clock, w, ph, now);
    if ph.Downgrading? && !now.Before(db.subs[ph.target].startsAt) {
      PromotionKeepsInv(db, clock, w, ph.current, ph.target, now);
    } else {
      hide LoadCurrent, PhaseOf;
      InvLater(db, clock, Max(clock, now.Stored()));
      OthersUntouched(db, db, w);
    }
  }

  lemma PromotionKeepsInv(db: Database, clock: Micros, w: nat, c: SubId, t: SubId, now: Instant)
    requires Inv(db, clock) && PhaseOf(db.subs, w) == Downgrading(c, t)
    requires t in db.subs && !now.Before(db.subs[t].startsAt) && t.TargetSub? && t.effectiveAt.Whole()
    ensures LoadCurrent(db, w, now).Success?
    ensures var (db', id) := LoadCurrent(db, w, now).value;
            && id == t && Inv(db', Max(clock, now.Stored())) && OthersSame(db, db', w)
            && PhaseOf(db'.subs, w) == Running(t) && db'.subs.Keys == db.subs.Keys
            && db'.grants == db.grants
  {
    InvShape(db, clock, w);
    PromotionFacts(db, clock, w, c, t, now);
    assert LoadCurrent(db, w, now).value.0.subs.Keys == db.subs.Keys;
    hide LoadCurrent, PhaseOf;
    PromotionHandsOver(db, clock, w, c, t, now);
    var db' := LoadCurrent(db, w, now).value.0;
    InvStep(db, db', clock, Max(clock, now.Stored()), w, Running(t));
    PhaseOfShape(db', Max(clock, now.Stored()), w, Running(t));
  }

  lemma ScheduleFromKeepsInv(db: Database, clock: Micros, c: SubId, input: ScheduleInput)
    requires Inv(db, clock) && PhaseOf(db.subs, input.workspace) == Running(c)
    requires c in db.subs && ScheduleFrom(db, c, input).Success?
    ensures var db' := ScheduleFrom(db, c, input).value.0;
            && Inv(db', Max(clock, input.now.Stored())) && OthersSame(db, db', input.workspace)
            && ScheduleMove(db.plans, db.subs, db'.subs, input.workspace)
  {
    var w := input.workspace;
    var t := TargetSub(c, input.now.Plus(D.GRACE));
    var db' := ScheduleFrom(db, c, input).value.0;
    InvShape(db, clock, w);
    assert t !in db.subs by { ScheduleAccepted(db, c, input); }
    hide PhaseOf, ScheduleFrom;
    ScheduleStarts(db, clock, c, input);
    InvStep(db, db', clock, Max(clock, input.now.Stored()), w, Downgrading(c, t));
    PhaseOfShape(db', Max(clock, input.now.Stored()), w, Downgrading(c, t));
  }

  /** A request either finds the stored schedule or makes a new one on the loaded subscription. */
  lemma ScheduleCases(db: Database, input: ScheduleInput)
    requires ScheduleDowngrade(db, input).Success?
    ensures LoadCurrent(db, input.workspace, input.now).Success?
    ensures var (loaded, c) := LoadCurrent(db, input.workspace, input.now).value;
            var (db', schedule) := ScheduleDowngrade(db, input).value;
            && c in loaded.subs
            && if loaded.subs[c].status.Grace? then db' == loaded && !schedule.created
               else ScheduleFrom(loaded, c, input) == Success((db', schedule)) && schedule.created
  {
    hide LoadCurrent, ScheduleRefusal, ScheduledTerm, ScheduledSubs, ScheduledGrants, ProjectScheduledDowngrade;
  }

  lemma ScheduleKeepsInv(db: Database, clock: Micros, input: ScheduleInput)
    requires Inv(db, clock) && ScheduleDowngrade(db, input).Success?
    ensures var (db', schedule) := ScheduleDowngrade(db, input).value;
            && Inv(db', Max(clock, input.now.Stored())) && OthersSame(db, db', input.workspace)
            && if schedule.created then ScheduleMove(db.plans, db.subs, db'.subs, input.workspace)
               else PromotionMove(db.subs, db'.subs, input.workspace)
  {
    var w := input.workspace;
    var (loaded, c) := LoadCurrent(db, w, input.now).value;
    var now := Max(clock, input.now.Stored());
    ScheduleCases(db, input);
    hide PhaseOf, ScheduleFrom, ScheduleDowngrade, Inv, LoadCurrent;
    LoadKeepsInv(db, clock, w, input.now);
    InvShape(loaded, now, w);
    if !loaded.subs[c].status.Grace? {
      assert PhaseOf(loaded.subs, w) == Running(c);
      ScheduleFromKeepsInv(loaded, now, c, input);
      OthersCompose(db, loaded, ScheduleFrom(loaded, c, input).value.0, w);
    }
  }

  /** The phase a created schedule leaves. */
  lemma ScheduledPhase(db: Database, clock: Micros, input: ScheduleInput)
    requires Inv(db, clock) && ScheduleDowngrade(db, input).Success? && ScheduleDowngrade(db, input).value.1.created
    ensures var (db', schedule) := ScheduleDowngrade(db, input).value;
            && WellFormed(db') && db'.plans == db.plans
            && Shape(db', Max(clock, input.now.Stored()), input.workspace,
              Downgrading(schedule.current, schedule.target))
            && schedule.target == TargetSub(schedule.current, schedule.effectiveAt)
            && schedule.effectiveAt == input.now.Plus(D.GRACE)
            && schedule.target in db'.subs && db'.subs[schedule.target].startsAt == schedule.effectiveAt.Stored()
            && db'.subs[schedule.target].plan == input.targetPlan && input.targetPlan in db.plans
            && var (n, term) := (db'.subs[schedule.target], TermEnd(db.plans[input.targetPlan].period, schedule.effectiveAt.at));
               term.Some? && n.termEndsAt.Some?
                 && n.termEndsAt.value - n.startsAt == term.value - schedule.effectiveAt.at
  {
    var w := input.workspace;
    var now := Max(clock, input.now.Stored());
    ScheduleCases(db, input);
    hide ScheduleDowngrade, LoadCurrent, ScheduleFrom, DowngradingShape, RunningShape;
    LoadKeepsInv(db, clock, w, input.now);
    var (loaded, c) := LoadCurrent(db, w, input.now).value;
    InvShape(loaded, now, w);
    ScheduleStarts(loaded, now, c, input);
    ScheduleAnswer(loaded, c, input);
  }

  lemma EditsKeepShape(db: Database, db': Database, clock: Micros, w: nat, ph: Phase)
    requires Shape(db, clock, w, ph)
    requires db' == db.(grants := db'.grants, sources := db'.sources)
    requires forall k: GrantKey :: k.sourceType.Billing? ==> (k in db.grants <==> k in db'.grants)
    requires forall k: GrantKey :: k.sourceType.Billing? && k in db.grants ==> db'.grants[k] == db.grants[k]
    requires forall k: SourceKey :: PlanOwned(k) ==> (k in db.sources <==> k in db'.sources)
    requires forall k: SourceKey :: PlanOwned(k) && k in db.sources ==> db'.sources[k] == db.sources[k]
    ensures Shape(db', clock, w, ph)
  {
  }

  lemma EditedInv(db: Database, db': Database, clock: Micros)
    requires Inv(db, clock) && WellFormed(db')
    requires db' == db.(grants := db'.grants, sources := db'.sources)
    requires forall k: GrantKey :: k.sourceType.Billing? ==> (k in db.grants <==> k in db'.grants)
    requires forall k: GrantKey :: k.sourceType.Billing? && k in db.grants ==> db'.grants[k] == db.grants[k]
    requires forall k: SourceKey :: PlanOwned(k) ==> (k in db.sources <==> k in db'.sources)
    requires forall k: SourceKey :: PlanOwned(k) && k in db.sources ==> db'.sources[k] == db.sources[k]
    ensures Inv(db', clock)
  {
    forall w: nat
      ensures HasShape(db', clock, w)
    {
      InvShape(db, clock, w);
      EditsKeepShape(db, db', clock, w, PhaseOf(db.subs, w));
    }
  }

  lemma GrantEditKeepsInv(db: Database, clock: Micros, k: GrantKey, row: Option<Grant>)
    requires Inv(db, clock) && EditGrant(db, k, row).Success?
    ensures Inv(EditGrant(db, k, row).value.0, clock)
  {
    hide Shape;
    EditedInv(db, EditGrant(db, k, row).value.0, clock);
  }

  lemma SourceEditKeepsInv(db: Database, clock: Micros, k: SourceKey, row: Option<D.Source>)
    requires Inv(db, clock) && EditSource(db, k, row).Success?
    ensures Inv(EditSource(db, k, row).value.0, clock)
  {
    hide Shape;
    EditedInv(db, EditSource(db, k, row).value.0, clock);
  }

  /** Every step keeps the invariant, whether the schema's checks are enforced or not. */
  lemma NextKeepsInv(checks: bool, db: Database, clock: Micros, step: Step)
    requires Inv(db, clock)
    ensures Inv(Next(checks, db, step), Max(clock, Time(step)))
  {
    hide Inv, SchemaOk, CreateOrder, ApplyCallback, ScheduleDowngrade, LoadCurrent, EditGrant, EditSource;
    InvLater(db, clock, Max(clock, Time(step)));
    if Next(checks, db, step) != db {
      match step
      case Ordering(input, newId) => CreateOrderKeepsInv(db, clock, input, newId);
      case Calling(command) => CallbackKeepsInv(db, clock, command);
      case Scheduling(request) => ScheduleKeepsInv(db, clock, request);
      case Refreshing(w, now) => LoadKeepsInv(db, clock, w, now);
      case GrantEdit(k, row) => GrantEditKeepsInv(db, clock, k, row);
      case SourceEdit(k, row) => SourceEditKeepsInv(db, clock, k, row);
    }
  }

  lemma InvLater(db: Database, clock: Micros, clock': Micros)
    requires Inv(db, clock) && clock <= clock'
    ensures Inv(db, clock')
  {
    InvFrame(db, db, clock, clock');
  }

  // ---------------------------------------------------------------- whole runs

  /** A run from any state that satisfies the invariant keeps it. */
  lemma {:induction false} RunFromInv(checks: bool, db: Database, clock: Micros, steps: seq<Step>)
    requires Inv(db, clock)
    ensures Inv(Run(checks, db, steps), Max(clock, Clock(steps)))
    ensures Run(checks, db, steps).plans == db.plans
  {
    hide Inv, Next;
    if steps != [] {
      var before := steps[..|steps| - 1];
      RunFromInv(checks, db, clock, before);
      NextKeepsInv(checks, Run(checks, db, before), Max(clock, Clock(before)), steps[|steps| - 1]);
      PlansFixed(checks, Run(checks, db, before), steps[|steps| - 1]);
    }
  }

  lemma InitialInv(db: Database)
    requires Initial(db)
    ensures Inv(db, 0)
  {
    forall w: nat
      ensures HasShape(db, 0, w)
    {
      assert Shape(db, 0, w, Idle);
    }
  }

  /** The invariant holds after every run from the empty store. */
  lemma RunKeepsInv(checks: bool, db: Database, steps: seq<Step>)
    requires Initial(db)
    ensures Inv(Run(checks, db, steps), Clock(steps))
    ensures Run(checks, db, steps).plans == db.plans
  {
    InitialInv(db);
    RunFromInv(checks, db, 0, steps);
  }

  lemma CallbackPlans(db: Database, cmd: Command)
    requires ApplyCallback(db, cmd).Success?
    ensures ApplyCallback(db, cmd).value.0.plans == db.plans
  {
    hide Recorded, Settle, ValidateCommand;
  }

  lemma PlansFixed(checks: bool, db: Database, step: Step)
    ensures Next(checks, db, step).plans == db.plans
  {
    hide SchemaOk, ScheduleDowngrade, LoadCurrent, ApplyCallback, HasOrder;
    if step.Calling? && ApplyCallback(db, step.command).Success? { CallbackPlans(db, step.command); }
  }
}
