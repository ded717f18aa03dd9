/**
 * The lifecycle of a workspace's subscriptions over whole runs, and what becomes of a downgrade whose
 * target was named after an instant with nanoseconds: the tables keep microseconds, so that the id
 * derived from the stored grace end is not the target's.
 */
module BillingLifecycle {
  import opened Foundations
  import opened BillingModel
  import opened BillingSpec
  import opened BillingInvariant
  import opened BillingSteps
  import opened BillingPhases
  import opened BillingTransitions
  import opened BillingRuns
  import opened BillingHistory
  import D = DomainEntitlement

  /**
   * One subscription in control at most, one pending at most, and a pending one exactly during a grace:
   * under an id derived from the one in grace and an instant that is stored as its grace end.
   */
  ghost predicate Lifecycle(subs: Subs, w: nat) {
    && |BillableIds(subs, w)| <= 1 && |PendingIds(subs, w)| <= 1
    && (forall c :: c in BillableIds(subs, w) ==> !subs[c].status.Overdue?)
    && (PendingIds(subs, w) != {} <==> exists c :: c in BillableIds(subs, w) && subs[c].status.Grace?)
    && (forall c, t :: c in BillableIds(subs, w) && t in PendingIds(subs, w) ==>
          subs[c].graceEndsAt.Some? && t.TargetSub? && t.parent == c
          && t.effectiveAt.Stored() == subs[c].graceEndsAt.value == subs[t].startsAt)
  }

  lemma ShapeLifecycle(db: Database, clock: Micros, w: nat, ph: Phase)
    requires Shape(db, clock, w, ph)
    ensures Lifecycle(db.subs, w)
  {
    BillableInShape(db, clock, w, ph);
    assert Keep(ph) <= BillableIds(db.subs, w);
    if !ph.Idle? { assert ph.current in BillableIds(db.subs, w); }
    assert |Keep(ph)| <= 1;
  }

  /** A target of the workspace is due and was named after an instant with nanoseconds. */
  ghost predicate LosesTarget(subs: Subs, w: nat, now: Instant) {
    exists t :: t in PendingIds(subs, w) && t.TargetSub? && !now.Before(subs[t].startsAt) && !t.effectiveAt.Whole()
  }

  /**
   * In every reachable state each workspace is in one phase of the lifecycle. Loading its current
   * subscription fails exactly where there is none, and then no pending one is ever promoted, or where
   * a due target is lost.
   */
  lemma LifecycleHolds(checks: bool, db: Database, steps: seq<Step>, w: nat, now: Instant)
    requires Initial(db)
    ensures var run := Run(checks, db, steps);
            && Lifecycle(run.subs, w)
            && (LoadCurrent(run, w, now).Failure? <==> BillableIds(run.subs, w) == {} || LosesTarget(run.subs, w, now))
            && (BillableIds(run.subs, w) == {} ==>
                  LoadCurrent(run, w, now) == Failure(NotFound) && PromoteDuePending(run, w, now) == Failure(NotFound))
  {
    RunKeepsInv(checks, db, steps);
    hide Run;
    LifecycleFromInv(Run(checks, db, steps), Clock(steps), w, now);
  }

  lemma LifecycleFromInv(db: Database, clock: Micros, w: nat, now: Instant)
    requires Inv(db, clock)
    ensures Lifecycle(db.subs, w)
    ensures LoadCurrent(db, w, now).Failure? <==> BillableIds(db.subs, w) == {} || LosesTarget(db.subs, w, now)
    ensures BillableIds(db.subs, w) == {} ==>
      LoadCurrent(db, w, now) == Failure(NotFound) && PromoteDuePending(db, w, now) == Failure(NotFound)
  {
    hide PhaseOf, LoadCurrent, Lifecycle;
    InvShape(db, clock, w);
    WellFormedInv(db, clock);
    var ph := PhaseOf(db.subs, w);
    ShapeLifecycle(db, clock, w, ph);
    BillableInShape(db, clock, w, ph);
    LoadCurrentInShape(db, clock, w, ph, now);
    assert ph.Idle? ==> DuePending(db.subs, w, now) == {};
    assert Lost(db.subs, ph, now) ==> ph.target in PendingIds(db.subs, w);
    assert ph.Downgrading? ==> ph.current in BillableIds(db.subs, w);
  }

  // ---------------------------------------------------------------- requests at whole microseconds

  ghost predicate WholeSchedules(steps: seq<Step>) {
    forall i :: 0 <= i < |steps| && steps[i].Scheduling? ==> steps[i].request.now.Whole()
  }

  ghost predicate WholeIds(subs: Subs) { forall id :: id in subs && id.TargetSub? ==> id.effectiveAt.Whole() }

  lemma ActivatedIds(db: Database, o: nat, order: Order, now: Instant)
    requires Activate(db, o, order, now).Success?
    ensures forall id :: id in Activate(db, o, order, now).value.subs && id !in db.subs ==> id.OrderSub?
  {
    hide RevokeGrants, RevokeOthers, PlanGrants, ExpirePlanSource, PendingIds;
  }

  lemma PaidIds(db: Database, o: nat, now: Instant)
    requires o in db.orders && SettlePaid(db, o, now).Success?
    ensures forall id :: id in SettlePaid(db, o, now).value.0.subs && id !in db.subs ==> id.OrderSub?
  {
    hide Activate, ProjectDomainEntitlement, PayInvoice;
    if !db.orders[o].status.OrderPaid? { ActivatedIds(MarkPaid(db, o, now.Stored()), o, db.orders[o], now); }
  }

  lemma RefundedIds(db: Database, o: nat, now: Micros)
    requires o in db.orders && SettleRefunded(db, o, now).Success?
    ensures SettleRefunded(db, o, now).value.subs.Keys == db.subs.Keys
  {
    hide CancelScheduled, RevokeSubscription, ExpirePlanSource, MarkRefunded;
    var (refunded, w) := (MarkRefunded(db, o, now), db.orders[o].workspace);
    RevokedIds(refunded, o, w, now);
    RevokedIds(CancelScheduled(refunded, w, now), o, w, now);
    assert refunded.subs == db.subs by { MarkedSubs(db, o, now); }
  }

  lemma RevokedIds(db: Database, o: nat, w: nat, now: Micros)
    ensures CancelScheduled(db, w, now).subs.Keys == db.subs.Keys
    ensures RevokeSubscription(db, o, w, now).subs.Keys == db.subs.Keys
  {
    hide RevokeGrants, ExpirePlanSource;
  }

  lemma MarkedSubs(db: Database, o: nat, now: Micros)
    requires o in db.orders
    ensures MarkRefunded(db, o, now).subs == db.subs
  {
  }

  lemma SettleIds(db: Database, cmd: Command)
    requires cmd.orderId in db.orders && Settle(db, cmd).Success?
    ensures forall id :: id in Settle(db, cmd).value.0.subs && id !in db.subs ==> id.OrderSub?
  {
    hide SettlePaid, SettleRefunded;
    match cmd.outcome
    case TransactionPaid => PaidIds(db, cmd.orderId, cmd.receivedAt);
    case TransactionRefunded => RefundedIds(db, cmd.orderId, cmd.receivedAt.Stored());
    case TransactionFailed =>
    case TransactionPending =>
  }

  lemma CallbackIds(db: Database, cmd: Command)
    requires ApplyCallback(db, cmd).Success?
    ensures forall id :: id in ApplyCallback(db, cmd).value.0.subs && id !in db.subs ==> id.OrderSub?
  {
    hide ValidateCommand, Recorded, Settle;
    if EventKey(cmd) !in db.events { SettleIds(Recorded(db, cmd).value, cmd); }
  }

  lemma NextIds(checks: bool, db: Database, clock: Micros, step: Step)
    requires Inv(db, clock) && WholeIds(db.subs) && (step.Scheduling? ==> step.request.now.Whole())
    ensures WholeIds(Next(checks, db, step).subs)
  {
    hide ApplyCallback, ScheduleDowngrade, LoadCurrent, ScheduleFrom, HasOrder, SchemaOk, Inv, PhaseOf;
    if Next(checks, db, step) != db {
      match step
      case Calling(command) => CallbackIds(db, command);
      case Refreshing(w, now) => LoadKeepsInv(db, clock, w, now);
      case Scheduling(input) =>
        ScheduleCases(db, input);
        LoadKeepsInv(db, clock, input.workspace, input.now);
        var (loaded, c) := LoadCurrent(db, input.workspace, input.now).value;
        if !loaded.subs[c].status.Grace? { ScheduleAnswer(loaded, c, input); }
      case Ordering(_, _) =>
      case GrantEdit(_, _) =>
      case SourceEdit(_, _) =>
    }
  }

  lemma {:induction false} RunIds(checks: bool, db: Database, steps: seq<Step>)
    requires Initial(db) && WholeSchedules(steps)
    ensures WholeIds(Run(checks, db, steps).subs)
  {
    hide Next, Inv;
    if steps != [] {
      var before := steps[..|steps| - 1];
      RunIds(checks, db, before);
      RunKeepsInv(checks, db, before);
      NextIds(checks, Run(checks, db, before), Clock(before), steps[|steps| - 1]);
    }
  }

  /**
   * In every run whose requests were read at whole microseconds, a pending target has the id derived from
   * the stored grace end, and loading fails exactly where nothing is in control.
   */
  lemma WholeRunsFindTargets(checks: bool, db: Database, steps: seq<Step>, w: nat, now: Instant)
    requires Initial(db) && WholeSchedules(steps)
    ensures var run := Run(checks, db, steps);
            && (forall c, t :: c in BillableIds(run.subs, w) && t in PendingIds(run.subs, w) ==>
                  run.subs[c].graceEndsAt.Some? && t == TargetSub(c, ReadBack(run.subs[c].graceEndsAt.value)))
            && (LoadCurrent(run, w, now).Failure? <==> BillableIds(run.subs, w) == {})
  {
    LifecycleHolds(checks, db, steps, w, now);
    RunIds(checks, db, steps);
    hide Run, LoadCurrent, PromoteDuePending, Initial;
  }

  // ---------------------------------------------------------------- exactly when a target is found again

  /** While its target is pending, a schedule made any time before is the phase of the workspace. */
  lemma StillPending(checks: bool, db: Database, clock: Micros, input: ScheduleInput, steps: seq<Step>)
    requires Inv(db, clock) && ScheduleDowngrade(db, input).Success? && ScheduleDowngrade(db, input).value.1.created
    requires var (db', schedule) := ScheduleDowngrade(db, input).value;
             schedule.target in PendingIds(Run(checks, db', steps).subs, input.workspace)
    ensures var (db', schedule) := ScheduleDowngrade(db, input).value;
            var run := Run(checks, db', steps);
            && Inv(run, Max(Max(clock, input.now.Stored()), Clock(steps)))
            && PhaseOf(run.subs, input.workspace) == Downgrading(schedule.current, schedule.target)
            && schedule.target == TargetSub(schedule.current, input.now.Plus(D.GRACE))
            && run.subs[schedule.target].startsAt == input.now.Stored() + D.GRACE
            && run.subs[schedule.target].plan == input.targetPlan
  {
    hide ScheduleDowngrade, Run, PhaseOf, Inv, Shape;
    var (db', schedule) := ScheduleDowngrade(db, input).value;
    var (w, at) := (input.workspace, Max(clock, input.now.Stored()));
    ScheduleKeepsInv(db, clock, input);
    ScheduledPhase(db, clock, input);
    RunFromInv(checks, db', at, steps);
    RunKeepsRows(checks, db', at, steps);
    var run := Run(checks, db', steps);
    PendingIsTarget(run, Max(at, Clock(steps)), w, schedule.target);
  }

  lemma PendingIsTarget(db: Database, clock: Micros, w: nat, t: SubId)
    requires Inv(db, clock) && t in PendingIds(db.subs, w)
    ensures t.TargetSub? && PhaseOf(db.subs, w) == Downgrading(t.parent, t)
  {
    hide PhaseOf;
    InvShape(db, clock, w);
    BillableInShape(db, clock, w, PhaseOf(db.subs, w));
  }

  /**
   * A due load finds the target of a schedule if and only if the request was read at a whole microsecond.
   * This holds in every later state in which the target is still pending.
   */
  lemma DueLoadFinds(checks: bool, db: Database, clock: Micros, input: ScheduleInput, steps: seq<Step>, now: Instant)
    requires Inv(db, clock) && ScheduleDowngrade(db, input).Success? && ScheduleDowngrade(db, input).value.1.created
    requires var (db', schedule) := ScheduleDowngrade(db, input).value;
             schedule.target in PendingIds(Run(checks, db', steps).subs, input.workspace)
    requires !now.Before(input.now.Stored() + D.GRACE)
    ensures var (db', schedule) := ScheduleDowngrade(db, input).value;
            var loaded := LoadCurrent(Run(checks, db', steps), input.workspace, now);
            && (loaded.Success? <==> input.now.Whole())
            && (loaded.Success? ==> loaded.value.1 == schedule.target)
  {
    hide ScheduleDowngrade, Run, LoadCurrent, PhaseOf, Inv, Shape;
    StillPending(checks, db, clock, input, steps);
    var (db', schedule) := ScheduleDowngrade(db, input).value;
    var (run, at) := (Run(checks, db', steps), Max(Max(clock, input.now.Stored()), Clock(steps)));
    WellFormedInv(run, at);
    InvShape(run, at, input.workspace);
    LoadCurrentInShape(run, at, input.workspace, Downgrading(schedule.current, schedule.target), now);
  }

  /** The request names what was scheduled, with a version the code accepts for a repeat, before the grace end. */
  ghost predicate Repeats(db: Database, input: ScheduleInput, schedule: Schedule, again: ScheduleInput)
  {
    && again.workspace == input.workspace && again.targetPlan == input.targetPlan
    && again.actor != 0 && again.expectedVersion != 0 && !again.now.Zero()
    && again.now.Before(schedule.effectiveAt.Stored())
    && schedule.current in db.subs
    && (again.expectedVersion == db.subs[schedule.current].version
      || again.expectedVersion + 1 == db.subs[schedule.current].version)
  }

  /** What a repeated request gets during the grace. */
  lemma RepeatInShape(db: Database, clock: Micros, w: nat, c: SubId, t: SubId, again: ScheduleInput)
    requires WellFormed(db) && DowngradingShape(db, clock, w, c, t) && w != 0
    requires again.workspace == w && again.targetPlan == db.subs[t].plan && again.targetPlan != 0
    requires again.actor != 0 && again.expectedVersion != 0 && !again.now.Zero()
      && again.now.Before(db.subs[t].startsAt)
    requires again.expectedVersion == db.subs[c].version || again.expectedVersion + 1 == db.subs[c].version
    ensures ScheduleDowngrade(db, again).Success? <==> t.effectiveAt.Whole()
    ensures t.effectiveAt.Whole() ==>
      ScheduleDowngrade(db, again).value == (db, Schedule(c, t, t.effectiveAt.at - D.GRACE, t.effectiveAt, false))
  {
    hide LoadCurrent, ScheduleFrom, OwnsExactly, Mirrors, SubsClosed, GrantsDead;
    LoadCurrentInShape(db, clock, w, Downgrading(c, t), again.now);
    BillableInShape(db, clock, w, Downgrading(c, t));
    var derived := TargetSub(c, ReadBack(db.subs[c].graceEndsAt.value));
    assert derived in db.subs && db.subs[derived].workspace == w && db.subs[derived].status.Pending? ==>
        derived in PendingIds(db.subs, w);
  }

  lemma GraceAnswer(db: Database, clock: Micros, w: nat, c: SubId, t: SubId, again: ScheduleInput)
    requires WellFormed(db) && DowngradingShape(db, clock, w, c, t)
    requires again.workspace == w && again.now.Before(db.subs[t].startsAt)
    ensures ScheduleDowngrade(db, again).Success? ==>
      && w != 0 && again.targetPlan == db.subs[t].plan && again.targetPlan != 0
      && again.actor != 0 && again.expectedVersion != 0 && !again.now.Zero()
      && (again.expectedVersion == db.subs[c].version || again.expectedVersion + 1 == db.subs[c].version)
  {
    hide LoadCurrent, ScheduleFrom, OwnsExactly, Mirrors, SubsClosed, GrantsDead;
    LoadCurrentInShape(db, clock, w, Downgrading(c, t), again.now);
    BillableInShape(db, clock, w, Downgrading(c, t));
    var derived := TargetSub(c, ReadBack(db.subs[c].graceEndsAt.value));
    assert derived in db.subs && db.subs[derived].workspace == w && db.subs[derived].status.Pending? ==>
        derived in PendingIds(db.subs, w);
  }

  /**
   * During a grace a request is answered if and only if it asks for the waiting plan with a version from before or
   * after the schedule, and the waiting target can be found; the answer is the stored schedule.
   */
  lemma AnsweredInGrace(db: Database, clock: Micros, again: ScheduleInput)
    requires Inv(db, clock) && PhaseOf(db.subs, again.workspace).Downgrading?
    requires var t := PhaseOf(db.subs, again.workspace).target; t in db.subs && again.now.Before(db.subs[t].startsAt)
    ensures var (c, t) := (PhaseOf(db.subs, again.workspace).current, PhaseOf(db.subs, again.workspace).target);
            && c in db.subs && t.TargetSub?
            && (ScheduleDowngrade(db, again).Success? <==>
                  && again.workspace != 0 && again.targetPlan != 0 && again.actor != 0 && again.expectedVersion != 0
                  && again.now.at != 0 && again.targetPlan == db.subs[t].plan
                  && (again.expectedVersion == db.subs[c].version || again.expectedVersion + 1 == db.subs[c].version)
                  && t.effectiveAt.nanos == 0)
            && (ScheduleDowngrade(db, again).Success? ==>
                  ScheduleDowngrade(db, again).value
                  == (db, Schedule(c, t, t.effectiveAt.at - 7 * 86_400_000_000, t.effectiveAt, false)))
  {
    var (w, ph) := (again.workspace, PhaseOf(db.subs, again.workspace));
    hide ScheduleDowngrade, PhaseOf, OwnsExactly, Mirrors, SubsClosed, GrantsDead, HasShape;
    InvShape(db, clock, w);
    WellFormedInv(db, clock);
    GraceAnswer(db, clock, w, ph.current, ph.target, again);
    if w != 0 && again.targetPlan != 0 && again.targetPlan == db.subs[ph.target].plan && again.actor != 0
      && again.expectedVersion != 0 && !again.now.Zero()
      && (again.expectedVersion == db.subs[ph.current].version
        || again.expectedVersion + 1 == db.subs[ph.current].version)
    {
      RepeatInShape(db, clock, w, ph.current, ph.target, again);
    }
  }

  /** A request acts on what a load leaves: where a promotion is due it is as if it came after it. */
  lemma RequestLoadsFirst(db: Database, clock: Micros, input: ScheduleInput)
    requires Inv(db, clock)
    ensures LoadCurrent(db, input.workspace, input.now).Failure? ==> ScheduleDowngrade(db, input).Failure?
    ensures LoadCurrent(db, input.workspace, input.now).Success? ==>
      ScheduleDowngrade(db, input) == ScheduleDowngrade(LoadCurrent(db, input.workspace, input.now).value.0, input)
  {
    hide LoadCurrent, ScheduleFrom, PhaseOf, Inv;
    if LoadCurrent(db, input.workspace, input.now).Success? { LoadedTwice(db, clock, input.workspace, input.now); }
  }

  lemma LoadedTwice(db: Database, clock: Micros, w: nat, now: Instant)
    requires Inv(db, clock) && LoadCurrent(db, w, now).Success?
    ensures LoadCurrent(LoadCurrent(db, w, now).value.0, w, now) == LoadCurrent(db, w, now)
  {
    hide LoadCurrent, PhaseOf, Shape, WellFormed, HasShape;
    LoadKeepsInv(db, clock, w, now);
    var (loaded, id) := LoadCurrent(db, w, now).value;
    if PhaseOf(loaded.subs, w) == Running(id) {
      InvShape(loaded, Max(clock, now.Stored()), w);
      WellFormedInv(loaded, Max(clock, now.Stored()));
      LoadCurrentInShape(loaded, Max(clock, now.Stored()), w, Running(id), now);
    }
  }

  /**
   * A repeat of a scheduled downgrade finds the stored schedule if and only if the request was read at a
   * whole microsecond; otherwise it is refused although the downgrade is on its way.
   */
  lemma RepeatFinds(checks: bool, db: Database, clock: Micros, input: ScheduleInput, steps: seq<Step>,
      again: ScheduleInput)
    requires Inv(db, clock) && ScheduleDowngrade(db, input).Success? && ScheduleDowngrade(db, input).value.1.created
    requires var (db', schedule) := ScheduleDowngrade(db, input).value;
             var run := Run(checks, db', steps);
             schedule.target in PendingIds(run.subs, input.workspace) && Repeats(run, input, schedule, again)
    ensures var (db', schedule) := ScheduleDowngrade(db, input).value;
            var run := Run(checks, db', steps);
            && (ScheduleDowngrade(run, again).Success? <==> input.now.Whole())
            && (input.now.Whole() ==> ScheduleDowngrade(run, again).value == (run, schedule.(created := false)))
  {
    hide Run, LoadCurrent, PhaseOf, Inv, DowngradingShape, ScheduleDowngrade, PendingIds;
    StillPending(checks, db, clock, input, steps);
    ScheduledAnswer(db, clock, input);
    var (db', schedule) := ScheduleDowngrade(db, input).value;
    var (run, at) := (Run(checks, db', steps), Max(Max(clock, input.now.Stored()), Clock(steps)));
    WellFormedInv(run, at);
    InvShape(run, at, input.workspace);
    RepeatInShape(run, at, input.workspace, schedule.current, schedule.target, again);
  }

  /** The whole answer of a created schedule. */
  lemma ScheduledAnswer(db: Database, clock: Micros, input: ScheduleInput)
    requires Inv(db, clock) && ScheduleDowngrade(db, input).Success? && ScheduleDowngrade(db, input).value.1.created
    ensures var (db', schedule) := ScheduleDowngrade(db, input).value;
            var (c, e) := (schedule.current, input.now.Plus(D.GRACE));
            && input.workspace != 0 && input.targetPlan != 0
            && schedule == Schedule(c, TargetSub(c, e), input.now.at, e, true)
            && c in db'.subs && db'.subs[c].version == input.expectedVersion + 1
            && TargetSub(c, e) in PendingIds(db'.subs, input.workspace)
  {
    ScheduleCases(db, input);
    hide ScheduleDowngrade, LoadCurrent, ScheduleFrom;
    var (loaded, c) := LoadCurrent(db, input.workspace, input.now).value;
    ScheduleAnswer(loaded, c, input);
    assert loaded.subs[c].version == input.expectedVersion;
  }

  /** In particular the very same request, sent again at once, is answered exactly on whole microseconds. */
  lemma SameRequestAgain(db: Database, clock: Micros, input: ScheduleInput)
    requires Inv(db, clock) && ScheduleDowngrade(db, input).Success? && ScheduleDowngrade(db, input).value.1.created
    ensures ScheduleDowngrade(ScheduleDowngrade(db, input).value.0, input).Success? <==> input.now.Whole()
  {
    assert input.actor != 0 && input.expectedVersion != 0 && !input.now.Zero();
    hide ScheduleDowngrade, Inv, PendingIds;
    ScheduledAnswer(db, clock, input);
    RepeatFinds(false, db, clock, input, [], input);
  }

  // ---------------------------------------------------------------- a lost target stays lost

  /** The step is a callback for an order of the workspace. */
  predicate Settles(db: Database, step: Step, w: nat) { step.Calling? && Concerns(db, step, w) }

  /**
   * Once a downgrade is under an id with nanoseconds, nothing but a callback of the workspace changes any of its
   * rows: the old subscription stays in its grace for good, and every load from the grace end on fails.
   */
  lemma {:induction false} LostUntilSettled(checks: bool, db: Database, clock: Micros, steps: seq<Step>, w: nat,
      c: SubId, t: SubId)
    requires Inv(db, clock) && PhaseOf(db.subs, w) == Downgrading(c, t) && t.TargetSub? && !t.effectiveAt.Whole()
    requires forall i :: 0 <= i < |steps| ==> !Settles(Run(checks, db, steps[..i]), steps[i], w)
    ensures SameSubs(db.subs, Run(checks, db, steps).subs, w)
    ensures PhaseOf(Run(checks, db, steps).subs, w) == Downgrading(c, t)
    ensures t in db.subs && forall now: Instant | !now.Before(db.subs[t].startsAt) :: LoadCurrent(Run(checks, db, steps), w, now).Failure?
  {
    hide Next, Inv, LoadCurrent, Settles, Shape, PhaseOf;
    if steps == [] {
      LostLoads(db, clock, w, c, t);
    } else {
      var (before, step) := (steps[..|steps| - 1], steps[|steps| - 1]);
      assert forall i :: 0 <= i < |before| ==> before[..i] == steps[..i] && before[i] == steps[i];
      LostUntilSettled(checks, db, clock, before, w, c, t);
      RunFromInv(checks, db, clock, before);
      var run := Run(checks, db, before);
      LostStep(checks, run, Max(clock, Clock(before)), step, w, c, t);
      RunFromInv(checks, db, clock, steps);
      var next := Run(checks, db, steps);
      LostLoads(next, Max(clock, Clock(steps)), w, c, t);
    }
  }

  lemma LostLoads(db: Database, clock: Micros, w: nat, c: SubId, t: SubId)
    requires Inv(db, clock) && PhaseOf(db.subs, w) == Downgrading(c, t) && t.TargetSub? && !t.effectiveAt.Whole()
    ensures t in db.subs && db.subs[t].workspace == w
    ensures forall now: Instant | !now.Before(db.subs[t].startsAt) :: LoadCurrent(db, w, now).Failure?
  {
    hide LoadCurrent, PhaseOf;
    InvShape(db, clock, w);
    forall now: Instant | !now.Before(db.subs[t].startsAt)
      ensures LoadCurrent(db, w, now).Failure?
    {
      LoadCurrentInShape(db, clock, w, Downgrading(c, t), now);
    }
  }

  lemma LostStep(checks: bool, db: Database, clock: Micros, step: Step, w: nat, c: SubId, t: SubId)
    requires Inv(db, clock) && PhaseOf(db.subs, w) == Downgrading(c, t) && t.TargetSub? && !t.effectiveAt.Whole()
    requires !Settles(db, step, w)
    ensures SameSubs(db.subs, Next(checks, db, step).subs, w)
    ensures PhaseOf(Next(checks, db, step).subs, w) == Downgrading(c, t)
  {
    hide Inv, ApplyCallback, ScheduleDowngrade, LoadCurrent, SchemaOk, HasOrder, PhaseOf, ScheduleFrom;
    if !Concerns(db, step, w) {
      hide Next;
      NextIsolates(checks, db, clock, step, w);
      SamePhase(db, Next(checks, db, step), clock, w);
    } else if Next(checks, db, step) != db {
      match step
      case Refreshing(_, now) => LostLoad(db, clock, w, c, t, now);
      case Scheduling(input) =>
        ScheduleCases(db, input);
        LostLoad(db, clock, w, c, t, input.now);
      case Ordering(_, _) =>
      case GrantEdit(_, _) =>
      case SourceEdit(_, _) =>
    }
  }

  lemma LostLoad(db: Database, clock: Micros, w: nat, c: SubId, t: SubId, now: Instant)
    requires Inv(db, clock) && PhaseOf(db.subs, w) == Downgrading(c, t) && t.TargetSub? && !t.effectiveAt.Whole()
    ensures LoadCurrent(db, w, now).Success? ==> LoadCurrent(db, w, now).value == (db, c)
    ensures c in db.subs && db.subs[c].status.Grace?
  {
    hide LoadCurrent, PhaseOf;
    InvShape(db, clock, w);
    LoadCurrentInShape(db, clock, w, Downgrading(c, t), now);
  }
}
