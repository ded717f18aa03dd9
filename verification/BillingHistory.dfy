/** What never changes, or only shrinks, along a run. */
module BillingHistory {
  import opened Foundations
  import opened BillingModel
  import opened BillingSpec
  import opened BillingInvariant
  import opened BillingSteps
  import opened BillingPhases
  import opened BillingTransitions
  import opened BillingRuns
  import D = DomainEntitlement

  // ---------------------------------------------------------------- subscription rows

  /**
   * A row keeps its workspace, plan and start for good, its grace end once it has one, and changes under a
   * new version.
   */
  ghost predicate RowKept(a: Subscription, b: Subscription) {
    && a.workspace == b.workspace && a.plan == b.plan && a.startsAt == b.startsAt
    && (a.graceEndsAt.Some? ==> b.graceEndsAt == a.graceEndsAt)
    && (a == b || a.version < b.version)
  }

  ghost predicate RowsKept(subs: Subs, subs': Subs) {
    forall id :: id in subs ==> id in subs' && RowKept(subs[id], subs'[id])
  }

  lemma RowsKeptTransitive(subs: Subs, subs1: Subs, subs2: Subs)
    requires RowsKept(subs, subs1) && RowsKept(subs1, subs2)
    ensures RowsKept(subs, subs2)
  {
  }

  lemma PaidKeepsRows(db: Database, o: nat, now: Instant)
    requires OrdersOk(db.orders, db.subs) && o in db.orders && SettlePaid(db, o, now).Success?
    ensures RowsKept(db.subs, SettlePaid(db, o, now).value.0.subs)
  {
    hide Activate, ProjectDomainEntitlement;
    if !db.orders[o].status.OrderPaid? {
      var paid := MarkPaid(db, o, now.Stored());
      var order := db.orders[o];
      assert OrderSub(o) !in db.subs;
      ActivateKeepsRows(paid, o, order, now);
      assert SettlePaid(db, o, now).value.0.subs == Activate(paid, o, order, now).value.subs;
    }
  }

  lemma ActivateKeepsRows(db: Database, o: nat, order: Order, now: Instant)
    requires OrderSub(o) !in db.subs && Activate(db, o, order, now).Success?
    ensures RowsKept(db.subs, Activate(db, o, order, now).value.subs)
  {
  }

  lemma RevokeKeepsRows(db: Database, o: nat, w: nat, now: Micros)
    ensures RowsKept(db.subs, RevokeSubscription(db, o, w, now).subs)
    ensures RowsKept(db.subs, CancelScheduled(db, w, now).subs)
  {
  }

  lemma RefundKeepsRows(db: Database, o: nat, now: Micros)
    requires o in db.orders && SettleRefunded(db, o, now).Success?
    ensures RowsKept(db.subs, SettleRefunded(db, o, now).value.subs)
  {
    hide CancelScheduled, RevokeSubscription, RowKept, ExpirePlanSource;
    if db.orders[o].status.OrderPaid? {
      var w := db.orders[o].workspace;
      var refunded := MarkRefunded(db, o, now);
      RevokeKeepsRows(refunded, o, w, now);
      var clear := CancelScheduled(refunded, w, now);
      RevokeKeepsRows(clear, o, w, now);
      RowsKeptTransitive(refunded.subs, clear.subs, RevokeSubscription(clear, o, w, now).subs);
    } else {
      SameRowsKept(db.subs);
    }
  }

  lemma SameRowsKept(subs: Subs)
    ensures RowsKept(subs, subs)
  {
  }

  lemma LoadKeepsRows(db: Database, clock: Micros, w: nat, now: Instant)
    requires Inv(db, clock) && LoadCurrent(db, w, now).Success?
    ensures RowsKept(db.subs, LoadCurrent(db, w, now).value.0.subs)
  {
    hide LoadCurrent, Inv, WellFormed, PhaseOf, PromoteDomainTarget, RunningShape, IdleShape;
    hide OwnsExactly, Mirrors, GrantsDead, SubsClosed;
    InvShape(db, clock, w);
    var ph := PhaseOf(db.subs, w);
    assert WellFormed(db) by { WellFormedInv(db, clock); }
    LoadCurrentInShape(db, clock, w, ph, now);
    if ph.Downgrading? && !now.Before(db.subs[ph.target].startsAt) {
      PromotionFacts(db, clock, w, ph.current, ph.target, now);
    }
  }

  lemma ScheduleFromKeepsRows(db: Database, clock: Micros, c: SubId, input: ScheduleInput)
    requires Inv(db, clock) && PhaseOf(db.subs, input.workspace) == Running(c)
    requires c in db.subs && ScheduleFrom(db, c, input).Success?
    ensures RowsKept(db.subs, ScheduleFrom(db, c, input).value.0.subs)
  {
    InvShape(db, clock, input.workspace);
    assert db.subs[c].graceEndsAt.None?;
    hide Inv, Shape, PhaseOf, ScheduleFrom;
    ScheduleAnswer(db, c, input);
    hide ScheduleRefusal, ScheduledTerm;
  }

  lemma ScheduleKeepsRows(db: Database, clock: Micros, input: ScheduleInput)
    requires Inv(db, clock) && ScheduleDowngrade(db, input).Success?
    ensures RowsKept(db.subs, ScheduleDowngrade(db, input).value.0.subs)
  {
    ScheduleCases(db, input);
    hide ScheduleDowngrade, LoadCurrent, ScheduleFrom, RowKept, Inv;
    var (loaded, c) := LoadCurrent(db, input.workspace, input.now).value;
    LoadKeepsInv(db, clock, input.workspace, input.now);
    LoadKeepsRows(db, clock, input.workspace, input.now);
    if !loaded.subs[c].status.Grace? { ScheduleFromKeepsRows(loaded, Max(clock, input.now.Stored()), c, input); }
  }

  lemma CallbackKeepsRows(db: Database, clock: Micros, cmd: Command)
    requires Inv(db, clock) && ApplyCallback(db, cmd).Success?
    ensures RowsKept(db.subs, ApplyCallback(db, cmd).value.0.subs)
  {
    if EventKey(cmd) !in db.events {
      var recorded := Recorded(db, cmd).value;
      assert OrdersOk(recorded.orders, recorded.subs);
      hide Inv, SettlePaid, SettleRefunded, RowKept, Recorded, OrdersOk;
      match cmd.outcome
      case TransactionPaid => PaidKeepsRows(recorded, cmd.orderId, cmd.receivedAt);
      case TransactionFailed =>
      case TransactionRefunded => RefundKeepsRows(recorded, cmd.orderId, cmd.receivedAt.Stored());
      case TransactionPending =>
    }
  }

  lemma NextKeepsRows(checks: bool, db: Database, clock: Micros, step: Step)
    requires Inv(db, clock)
    ensures RowsKept(db.subs, Next(checks, db, step).subs)
  {
    hide Inv, ApplyCallback, ScheduleDowngrade, LoadCurrent, SchemaOk, HasOrder;
    if Next(checks, db, step) != db {
      match step
      case Calling(command) => CallbackKeepsRows(db, clock, command);
      case Scheduling(request) => ScheduleKeepsRows(db, clock, request);
      case Refreshing(w, now) => LoadKeepsRows(db, clock, w, now);
      case Ordering(_, _) =>
      case GrantEdit(_, _) =>
      case SourceEdit(_, _) =>
    }
  }

  lemma {:induction false} RunKeepsRows(checks: bool, db: Database, clock: Micros, steps: seq<Step>)
    requires Inv(db, clock)
    ensures RowsKept(db.subs, Run(checks, db, steps).subs)
  {
    hide Inv, Next;
    if steps != [] {
      var before := steps[..|steps| - 1];
      RunFromInv(checks, db, clock, before);
      RunKeepsRows(checks, db, clock, before);
      NextKeepsRows(checks, Run(checks, db, before), Max(clock, Clock(before)), steps[|steps| - 1]);
    }
  }

  /**
   * A grace is never extended: once a subscription has a grace end, every later state has the same
   * one, and while it is still in its grace the domain source carries the very same boundary.
   */
  lemma GraceBoundaryFixed(checks: bool, db: Database, clock: Micros, steps: seq<Step>, id: SubId)
    requires Inv(db, clock) && id in db.subs && db.subs[id].graceEndsAt.Some?
    ensures var run := Run(checks, db, steps);
            && id in run.subs && run.subs[id].graceEndsAt == db.subs[id].graceEndsAt
            && (run.subs[id].status.Grace? && DomainLimit(run.plans, run.subs[id].plan).Some? ==>
                  var k := PlanSourceKey(run.subs[id].workspace, D.BillingKey);
                  k in run.sources && run.sources[k].graceUntil == db.subs[id].graceEndsAt)
  {
    RunKeepsRows(checks, db, clock, steps);
    RunFromInv(checks, db, clock, steps);
    var run := Run(checks, db, steps);
    hide Run, Inv;
    var w := run.subs[id].workspace;
    InvShape(run, Max(clock, Clock(steps)), w);
    BillableInShape(run, Max(clock, Clock(steps)), w, PhaseOf(run.subs, w));
    assert run.subs[id].status.Grace? ==> id in BillableIds(run.subs, w);
  }

  // ---------------------------------------------------------------- isolation

  /** The step is about this workspace. */
  predicate Concerns(db: Database, step: Step, w: nat) {
    match step
    case Ordering(input, _) => input.workspace == w
    case Calling(command) => command.orderId in db.orders && db.orders[command.orderId].workspace == w
    case Scheduling(request) => request.workspace == w
    case Refreshing(v, _) => v == w
    case GrantEdit(k, _) => k.workspace == w
    case SourceEdit(k, _) => k.workspace == w
  }

  /** A step about other workspaces changes no row of this one. */
  lemma NextIsolates(checks: bool, db: Database, clock: Micros, step: Step, w: nat)
    requires Inv(db, clock) && !Concerns(db, step, w)
    ensures SameRows(db, Next(checks, db, step), w)
  {
    hide Inv, ApplyCallback, ScheduleDowngrade, LoadCurrent, CreateOrder, EditGrant, EditSource, SchemaOk, HasOrder;
    hide PhaseOf, CallbackMove, ScheduleMove, PromotionMove, SameRows;
    SameRowsSelf(db, w);
    if Next(checks, db, step) != db {
      match step
      case Calling(command) => CallbackKeepsInv(db, clock, command);
      case Scheduling(request) => ScheduleKeepsInv(db, clock, request);
      case Refreshing(v, now) => LoadKeepsInv(db, clock, v, now);
      case Ordering(input, newId) => OrderIsolates(db, input, newId, w);
      case GrantEdit(k, row) => GrantEditIsolates(db, k, row, w);
      case SourceEdit(k, row) => SourceEditIsolates(db, k, row, w);
    }
  }

  lemma SameRowsSelf(db: Database, w: nat)
    ensures SameRows(db, db, w)
  {
  }

  lemma OrderIsolates(db: Database, input: CreateOrderInput, newId: nat, w: nat)
    requires CreateOrder(db, input, newId).Success?
    ensures SameRows(db, CreateOrder(db, input, newId).value.0, w)
  {
  }

  lemma GrantEditIsolates(db: Database, k: GrantKey, row: Option<Grant>, w: nat)
    requires k.workspace != w && EditGrant(db, k, row).Success?
    ensures SameRows(db, EditGrant(db, k, row).value.0, w)
  {
  }

  lemma SourceEditIsolates(db: Database, k: SourceKey, row: Option<D.Source>, w: nat)
    requires k.workspace != w && EditSource(db, k, row).Success?
    ensures SameRows(db, EditSource(db, k, row).value.0, w)
  {
  }

  lemma SameRowsTransitive(db: Database, db1: Database, db2: Database, w: nat)
    requires SameRows(db, db1, w) && SameRows(db1, db2, w)
    ensures SameRows(db, db2, w)
  {
  }

  /** No run whose steps are all about other workspaces changes a subscription, grant or source of this one. */
  lemma {:induction false} RunIsolates(checks: bool, db: Database, clock: Micros, steps: seq<Step>, w: nat)
    requires Inv(db, clock)
    requires forall i :: 0 <= i < |steps| ==> !Concerns(Run(checks, db, steps[..i]), steps[i], w)
    ensures SameRows(db, Run(checks, db, steps), w)
  {
    hide Inv, Next, Concerns;
    if steps != [] {
      hide SameRows;
      var before := steps[..|steps| - 1];
      forall i | 0 <= i < |before|
        ensures !Concerns(Run(checks, db, before[..i]), before[i], w)
      {
        assert before[..i] == steps[..i];
      }
      RunFromInv(checks, db, clock, before);
      RunIsolates(checks, db, clock, before, w);
      NextIsolates(checks, Run(checks, db, before), Max(clock, Clock(before)), steps[|steps| - 1], w);
      SameRowsTransitive(db, Run(checks, db, before), Run(checks, db, steps), w);
    }
  }

  // ---------------------------------------------------------------- the phase machine

  predicate ActivatesIn(checks: bool, db: Database, step: Step, w: nat) {
    && step.Calling? && Concerns(db, step, w)
    && var r := Answer(checks, ApplyCallback(db, step.command));
       r.Success? && r.value.subscription.Some?
  }

  ghost predicate SchedulesIn(checks: bool, db: Database, step: Step, w: nat) {
    && step.Scheduling? && Concerns(db, step, w)
    && var r := Answer(checks, ScheduleDowngrade(db, step.request));
       r.Success? && r.value.created
  }

  /**
   * The transition relation of a workspace: an activation puts a new subscription in control, a
   * created schedule puts a new, strictly smaller target under the one in control, and any other
   * step of the store keeps the phase, ends control or completes the pending downgrade.
   */
  lemma NextMoves(checks: bool, db: Database, clock: Micros, step: Step, w: nat)
    requires Inv(db, clock)
    ensures var (ph, ph') := (PhaseOf(db.subs, w), PhaseOf(Next(checks, db, step).subs, w));
            if ActivatesIn(checks, db, step, w) then ph'.Running? && ph'.current !in db.subs
            else if SchedulesIn(checks, db, step, w)
              then ScheduleMove(db.plans, db.subs, Next(checks, db, step).subs, w)
            else ph' == ph || ph'.Idle? || (ph.Downgrading? && ph' == Running(ph.target))
  {
    hide ApplyCallback, ScheduleDowngrade, LoadCurrent, SchemaOk, HasOrder, PhaseOf;
    if !Concerns(db, step, w) {
      NextIsolates(checks, db, clock, step, w);
      SamePhase(db, Next(checks, db, step), clock, w);
    } else if Next(checks, db, step) != db || ActivatesIn(checks, db, step, w) || SchedulesIn(checks, db, step, w) {
      hide Inv;
      match step
      case Calling(command) => CallbackKeepsInv(db, clock, command);
      case Scheduling(request) => ScheduleKeepsInv(db, clock, request);
      case Refreshing(v, now) => LoadKeepsInv(db, clock, v, now);
      case Ordering(_, _) =>
      case GrantEdit(_, _) =>
      case SourceEdit(_, _) =>
    }
  }

  lemma SamePhase(db: Database, db': Database, clock: Micros, w: nat)
    requires Inv(db, clock) && SameRows(db, db', w)
    ensures PhaseOf(db'.subs, w) == PhaseOf(db.subs, w)
  {
    InvShape(db, clock, w);
    ShapeFrame(db, db', clock, clock, w, PhaseOf(db.subs, w));
    PhaseOfShape(db', clock, w, PhaseOf(db.subs, w));
  }

  // ---------------------------------------------------------------- downgrades terminate

  /** The weight of the plan that is, or will be, in control. */
  ghost function Weight(db: Database, w: nat): nat {
    var ph := PhaseOf(db.subs, w);
    if ph.Idle? || Heir(ph) !in db.subs || db.subs[Heir(ph)].plan !in db.plans then 0
    else PlanWeight(db.plans[db.subs[Heir(ph)].plan])
  }

  lemma HeirRow(db: Database, clock: Micros, w: nat)
    requires Inv(db, clock)
    ensures var ph := PhaseOf(db.subs, w);
            !ph.Idle? ==> Heir(ph) in db.subs && db.subs[Heir(ph)].plan in db.plans
  {
    InvShape(db, clock, w);
  }

  /** A created schedule lowers the weight; nothing but an activation raises it. */
  lemma NextWeight(checks: bool, db: Database, clock: Micros, step: Step, w: nat)
    requires Inv(db, clock) && !ActivatesIn(checks, db, step, w)
    ensures Weight(Next(checks, db, step), w) + (if SchedulesIn(checks, db, step, w) then 1 else 0) <= Weight(db, w)
  {
    var db' := Next(checks, db, step);
    var ph, ph' := PhaseOf(db.subs, w), PhaseOf(db'.subs, w);
    assert PlansOk(db.plans);
    hide Inv, Next, PhaseOf, PlanWeight, StrictDowngrade;
    NextMoves(checks, db, clock, step, w);
    NextKeepsRows(checks, db, clock, step);
    PlansFixed(checks, db, step);
    HeirRow(db, clock, w);
    if SchedulesIn(checks, db, step, w) {
      var (i, j) := (db'.subs[ph'.current].plan, db'.subs[ph'.target].plan);
      DowngradeLowersWeight(i, db.plans[i], j, db.plans[j]);
    }
  }

  ghost function SchedulesOf(checks: bool, db: Database, steps: seq<Step>, w: nat): nat {
    if steps == [] then 0
    else
      var before := steps[..|steps| - 1];
      SchedulesOf(checks, db, before, w)
        + if SchedulesIn(checks, Run(checks, db, before), steps[|steps| - 1], w) then 1 else 0
  }

  /** Without a new paid activation a workspace is downgraded at most as often as its plan weighs. */
  lemma {:induction false} DowngradesTerminate(checks: bool, db: Database, clock: Micros, steps: seq<Step>, w: nat)
    requires Inv(db, clock)
    requires forall i :: 0 <= i < |steps| ==> !ActivatesIn(checks, Run(checks, db, steps[..i]), steps[i], w)
    ensures SchedulesOf(checks, db, steps, w) + Weight(Run(checks, db, steps), w) <= Weight(db, w)
  {
    hide Inv, Next, Weight, ActivatesIn, SchedulesIn;
    if steps != [] {
      var before := steps[..|steps| - 1];
      forall i | 0 <= i < |before|
        ensures !ActivatesIn(checks, Run(checks, db, before[..i]), before[i], w)
      {
        assert before[..i] == steps[..i];
      }
      DowngradesTerminate(checks, db, clock, before, w);
      RunFromInv(checks, db, clock, before);
      NextWeight(checks, Run(checks, db, before), Max(clock, Clock(before)), steps[|steps| - 1], w);
    }
  }

  // ---------------------------------------------------------------- repeating a request

  /** A downgrade of the workspace to the plan is pending, or was the last thing that happened to it. */
  ghost predicate Served(subs: Subs, w: nat, plan: nat) {
    var ph := PhaseOf(subs, w);
    !ph.Idle? && Heir(ph) in subs && subs[Heir(ph)].plan == plan
  }

  /** Repeating a request, at any time and with any version, finds the stored schedule or is rejected. */
  lemma RepeatIsServed(db: Database, clock: Micros, input: ScheduleInput)
    requires Inv(db, clock) && Served(db.subs, input.workspace, input.targetPlan)
    ensures var r := ScheduleDowngrade(db, input);
            r.Success? ==>
              var ph := PhaseOf(db.subs, input.workspace);
              && ph.Downgrading? && ph.target in db.subs && input.now.Before(db.subs[ph.target].startsAt)
              && r.value.0 == db && !r.value.1.created
              && r.value.1.current == ph.current && r.value.1.target == ph.target
              && r.value.1.effectiveAt == ReadBack(db.subs[ph.target].startsAt)
  {
    hide LoadCurrent, Inv, ScheduleFrom, OwnsExactly, Mirrors, SourceOff, SubsClosed, GrantsDead;
    if ScheduleDowngrade(db, input).Success? {
      ServedIsInGrace(db, clock, input);
      InvShape(db, clock, input.workspace);
      WellFormedInv(db, clock);
      BillableInShape(db, clock, input.workspace, PhaseOf(db.subs, input.workspace));
      var answered := ScheduleDowngrade(db, input).value.1.target;
      assert answered in PendingIds(db.subs, input.workspace);
    }
  }

  /** A workspace already on the asked plan has nothing to downgrade, so an answer finds the schedule pending. */
  lemma ServedIsInGrace(db: Database, clock: Micros, input: ScheduleInput)
    requires Inv(db, clock) && Served(db.subs, input.workspace, input.targetPlan)
      && ScheduleDowngrade(db, input).Success?
    ensures LoadCurrent(db, input.workspace, input.now).Success?
    ensures var (loaded, c) := LoadCurrent(db, input.workspace, input.now).value;
            var ph := PhaseOf(db.subs, input.workspace);
            && loaded == db && ph.Downgrading? && ph.current == c
            && c in db.subs && db.subs[c].status.Grace?
            && db.subs[c].graceEndsAt.Some? && input.now.Before(db.subs[c].graceEndsAt.value)
  {
    hide LoadCurrent, Inv, ScheduleDowngrade, OwnsExactly, Mirrors, SourceOff, SubsClosed, GrantsDead;
    var w := input.workspace;
    ScheduleCases(db, input);
    LoadKeepsInv(db, clock, w, input.now);
    LoadKeepsRows(db, clock, w, input.now);
    InvShape(db, clock, w);
    var (loaded, c) := LoadCurrent(db, w, input.now).value;
    if PhaseOf(loaded.subs, w) == Running(c) {
      InvShape(loaded, Max(clock, input.now.Stored()), w);
      ScheduleAnswer(loaded, c, input);
      ScheduleAccepted(loaded, c, input);
      assert false;
    }
  }

  lemma ServedStays(checks: bool, db: Database, clock: Micros, step: Step, w: nat, plan: nat)
    requires Inv(db, clock) && (Served(db.subs, w, plan) || PhaseOf(db.subs, w).Idle?)
    requires !ActivatesIn(checks, db, step, w)
    requires step.Scheduling? && step.request.workspace == w ==> step.request.targetPlan == plan
    ensures !SchedulesIn(checks, db, step, w)
    ensures var subs' := Next(checks, db, step).subs; Served(subs', w, plan) || PhaseOf(subs', w).Idle?
  {
    hide Inv, Next, PhaseOf, StrictDowngrade, ActivatesIn;
    NextMoves(checks, db, clock, step, w);
    NextKeepsRows(checks, db, clock, step);
    if SchedulesIn(checks, db, step, w) {
      if Served(db.subs, w, plan) { RepeatIsServed(db, clock, step.request); }
      assert false;
    }
  }

  /**
   * Once a downgrade to a plan is stored, repeating the request never creates a second target, in any
   * run without a new paid activation in the workspace: refunds, promotions and other workspaces' steps
   * may come in between.
   */
  lemma {:induction false} RepeatsNeverCreate(checks: bool, db: Database, clock: Micros, steps: seq<Step>, w: nat,
      plan: nat)
    requires Inv(db, clock) && (Served(db.subs, w, plan) || PhaseOf(db.subs, w).Idle?)
    requires forall i :: 0 <= i < |steps| ==> !ActivatesIn(checks, Run(checks, db, steps[..i]), steps[i], w)
    requires forall i :: 0 <= i < |steps| && steps[i].Scheduling? && steps[i].request.workspace == w ==>
      steps[i].request.targetPlan == plan
    ensures SchedulesOf(checks, db, steps, w) == 0
    ensures var subs' := Run(checks, db, steps).subs; Served(subs', w, plan) || PhaseOf(subs', w).Idle?
  {
    hide Inv, Next, Served, PhaseOf, ActivatesIn, SchedulesIn;
    if steps != [] {
      var before := steps[..|steps| - 1];
      forall i | 0 <= i < |before|
        ensures !ActivatesIn(checks, Run(checks, db, before[..i]), before[i], w)
      {
        assert before[..i] == steps[..i];
      }
      RepeatsNeverCreate(checks, db, clock, before, w, plan);
      RunFromInv(checks, db, clock, before);
      ServedStays(checks, Run(checks, db, before), Max(clock, Clock(before)), steps[|steps| - 1], w, plan);
    }
  }

  /** A created schedule is served from then on. */
  lemma ScheduleServes(db: Database, clock: Micros, input: ScheduleInput)
    requires Inv(db, clock) && ScheduleDowngrade(db, input).Success? && ScheduleDowngrade(db, input).value.1.created
    ensures Served(ScheduleDowngrade(db, input).value.0.subs, input.workspace, input.targetPlan)
  {
    ScheduledPhase(db, clock, input);
    var (db', schedule) := ScheduleDowngrade(db, input).value;
    hide ScheduleDowngrade, Inv, Shape, PhaseOf;
    PhaseOfShape(db', Max(clock, input.now.Stored()), input.workspace, Downgrading(schedule.current, schedule.target));
  }
}
