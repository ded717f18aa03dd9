/** Whether stored records stay resolvable: the sources always do, the grants exactly as far as described here. */
module BillingRecords {
  import opened Foundations
  import opened Calendar
  import opened BillingModel
  import opened BillingSpec
  import opened BillingInvariant
  import opened BillingSteps
  import opened BillingPhases
  import opened BillingTransitions
  import opened BillingRuns
  import opened BillingSettlement
  import opened BillingAcceptance
  import opened BillingAgreement
  import B = BillingEntitlement
  import D = DomainEntitlement

  /** Everything EntitlementGrant.Validate asks of a billing grant except the order of start and revocation. */
  predicate BaseOk(g: Grant) {
    g.workspace != 0 && g.startsAt != 0 && g.limit != 0 && (g.endsAt.Some? ==> g.startsAt < g.endsAt.value)
  }

  ghost predicate AllBase(grants: Grants) {
    forall k :: k in grants && k.sourceType.Billing? ==> BaseOk(grants[k]) && KeyOf(grants[k]) == k
  }

  ghost predicate BillingGrantsValid(grants: Grants) {
    forall k :: k in grants && k.sourceType.Billing? ==> ValidGrant(grants[k])
  }

  /**
   * The unrevoked billing grants an accepted command is about: all of the workspace where it pays an
   * unpaid order, and for a refund those of the order and, if the order is in control, of what is pending.
   */
  predicate Revokes(db: Database, cmd: Command, k: GrantKey)
    requires cmd.orderId in db.orders && k in db.grants
  {
    var order := db.orders[cmd.orderId];
    && k.workspace == order.workspace && k.sourceType.Billing? && db.grants[k].revokedAt.None?
    && match cmd.outcome
       case TransactionPaid => !order.status.OrderPaid?
       case TransactionRefunded =>
         && order.status.OrderPaid? && k.sourceId.SubRef?
         && (|| k.sourceId.sub == OrderSub(cmd.orderId)
             || (ControlsCurrent(db.subs, cmd.orderId, order.workspace)
               && k.sourceId.sub in PendingIds(db.subs, order.workspace)))
       case _ => false
  }

  function RevokedBy(db: Database, cmd: Command): set<GrantKey> {
    if cmd.orderId !in db.orders || EventKey(cmd) in db.events then {}
    else set k | k in db.grants && Revokes(db, cmd, k)
  }

  /**
   * The guards of an accepted callback hold, and one of the grants it is about starts after the
   * callback's time. Everything here is read off the rows the callback finds.
   */
  predicate RevokesEarly(db: Database, step: Step) {
    && step.Calling? && Acceptable(db, step.command)
    && exists k ::
      k in db.grants && Revokes(db, step.command, k) && step.command.receivedAt.Stored() < db.grants[k].startsAt
  }

  /** Starts are kept, the given grants and no others are revoked, and new grants are sound and unrevoked. */
  ghost predicate GrantStep(grants: Grants, grants': Grants, revoked: set<GrantKey>, now: Micros) {
    && (forall k :: k in grants && k.sourceType.Billing? ==>
          && k in grants' && grants'[k].startsAt == grants[k].startsAt
          && grants'[k].revokedAt == if k in revoked then Some(now) else grants[k].revokedAt)
    && (forall k :: k in grants' && k.sourceType.Billing? && k !in grants ==> grants'[k].revokedAt.None?)
    && AllBase(grants')
  }

  lemma PlanGrantsBase(w: nat, id: SubId, entitlements: map<Capability, nat>, s: Micros, e: Option<Micros>)
    requires w != 0 && s != 0 && (e.Some? ==> s < e.value) && forall c :: c in entitlements ==> 1 <= entitlements[c]
    ensures AllBase(PlanGrants(w, id, entitlements, s, e))
  {
  }

  /** An activation revokes every unrevoked billing grant of the workspace. */
  lemma RevokeAll(grants: Grants, w: nat, ids: set<SubId>, id: SubId, now: Micros)
    requires AllBase(grants) && forall c :: OwnKey(w, c, id) !in grants
    requires forall k :: k in grants && k.sourceType.Billing? ==> k.sourceId.SubRef?
    ensures var revoked := Unrevoked(grants, w);
            GrantStep(grants, RevokeOthers(RevokeGrants(grants, w, ids, now), w, id, now), revoked, now)
  {
    forall k | k in grants && k.workspace == w && k.sourceType.Billing?
      ensures k.sourceId != SubRef(id)
    {
      assert k.sourceId == SubRef(id) ==> k == OwnKey(w, k.capability, id);
    }
  }

  lemma NewGrantStep(grants: Grants, grants': Grants, more: Grants, revoked: set<GrantKey>, now: Micros)
    requires GrantStep(grants, grants', revoked, now) && AllBase(more)
    requires forall k :: k in more ==> k !in grants && more[k].revokedAt.None?
    ensures GrantStep(grants, grants' + more, revoked, now)
  {
  }

  /** The grants of a paid activation. */
  lemma PaidGrants(grants: Grants, subs: Subs, w: nat, id: SubId, entitlements: map<Capability, nat>, now: Micros,
      e: Option<Micros>)
    requires GrantsOk(grants, subs) && AllBase(grants) && id !in subs
    requires w != 0 && now != 0 && (e.Some? ==> now < e.value) && forall c :: c in entitlements ==> 1 <= entitlements[c]
    ensures var cleared := RevokeGrants(grants, w, PendingIds(subs, w), now);
            var revoked := Unrevoked(grants, w);
            GrantStep(grants, RevokeOthers(cleared, w, id, now) + PlanGrants(w, id, entitlements, now, e), revoked, now)
  {
    PlanGrantsBase(w, id, entitlements, now, e);
    NoGrantsYet(grants, subs, w, id);
    RevokeAll(grants, w, PendingIds(subs, w), id, now);
    hide GrantStep, RevokeOthers, RevokeGrants, PendingIds;
    var revoked := Unrevoked(grants, w);
    NewGrantStep(grants, RevokeOthers(RevokeGrants(grants, w, PendingIds(subs, w), now), w, id, now),
                 PlanGrants(w, id, entitlements, now, e), revoked, now);
  }

  lemma RefundGrants(grants: Grants, w: nat, ids: set<SubId>, id: SubId, now: Micros)
    requires AllBase(grants)
    ensures var revoked := set k | k in grants && OwnedBy(k, w, ids + {id}) && grants[k].revokedAt.None?;
            GrantStep(grants, RevokeGrants(RevokeGrants(grants, w, ids, now), w, {id}, now), revoked, now)
    ensures var own := set k | k in grants && OwnedBy(k, w, {id}) && grants[k].revokedAt.None?;
            GrantStep(grants, RevokeGrants(grants, w, {id}, now), own, now)
  {
  }

  lemma SameGrantStep(grants: Grants, now: Micros)
    requires AllBase(grants)
    ensures GrantStep(grants, grants, {}, now)
  {
  }

  function Unrevoked(grants: Grants, w: nat): set<GrantKey> {
    set k | k in grants && k.workspace == w && k.sourceType.Billing? && grants[k].revokedAt.None?
  }

  lemma PaidGrantTable(db: Database, o: nat, now: Instant)
    requires o in db.orders && !db.orders[o].status.OrderPaid? && SettlePaid(db, o, now).Success?
    ensures var order := db.orders[o];
            && order.plan in db.plans
            && var plan := db.plans[order.plan];
               SettlePaid(db, o, now).value.0.grants
               == RevokeOthers(RevokeGrants(db.grants, order.workspace, PendingIds(db.subs, order.workspace), now.Stored()),
                               order.workspace, OrderSub(o), now.Stored())
                + PlanGrants(order.workspace, OrderSub(o), plan.entitlements, now.Stored(),
                  StoredTermEnd(plan.period, now))
  {
    hide StoredTermEnd, RevokeOthers, PlanGrants, RevokeGrants, CancelSubs, ExpireOthers, ProjectDomainEntitlement;
  }

  lemma PaidGrantStep(db: Database, clock: Micros, o: nat, now: Instant)
    requires Inv(db, clock) && AllBase(db.grants) && !now.Zero()
    requires o in db.orders && !db.orders[o].status.OrderPaid? && SettlePaid(db, o, now).Success?
    ensures GrantStep(db.grants, SettlePaid(db, o, now).value.0.grants, Unrevoked(db.grants, db.orders[o].workspace),
      now.Stored())
  {
    var order := db.orders[o];
    PaidGrantTable(db, o, now);
    assert OrderSub(o) !in db.subs;
    hide SettlePaid, GrantStep, HasShape, StoredTermEnd, RevokeOthers, RevokeGrants, PlanGrants, SourcesOk;
    TermEndsLater(db.plans[order.plan].period, now);
    PaidGrants(db.grants, db.subs, order.workspace, OrderSub(o), db.plans[order.plan].entitlements, now.Stored(),
               StoredTermEnd(db.plans[order.plan].period, now));
  }

  function RefundIds(db: Database, o: nat): set<SubId>
    requires o in db.orders
  {
    var w := db.orders[o].workspace;
    if ControlsCurrent(db.subs, o, w) then PendingIds(db.subs, w) + {OrderSub(o)} else {OrderSub(o)}
  }

  function UnrevokedOf(grants: Grants, w: nat, ids: set<SubId>): set<GrantKey> {
    set k | k in grants && OwnedBy(k, w, ids) && grants[k].revokedAt.None?
  }

  lemma RefundGrantStep(db: Database, o: nat, now: Micros)
    requires AllBase(db.grants) && o in db.orders && db.orders[o].status.OrderPaid?
      && SettleRefunded(db, o, now).Success?
    ensures GrantStep(db.grants, SettleRefunded(db, o, now).value.grants,
                      UnrevokedOf(db.grants, db.orders[o].workspace, RefundIds(db, o)), now)
  {
    RefundGrants(db.grants, db.orders[o].workspace, PendingIds(db.subs, db.orders[o].workspace), OrderSub(o), now);
    hide GrantStep, RevokeGrants, CancelSubs, CancelOwn, ExpirePlanSource, OwnedBy;
  }

  lemma RevokesWhich(db: Database, cmd: Command)
    requires cmd.orderId in db.orders
    ensures var order := db.orders[cmd.orderId];
            (set k | k in db.grants && Revokes(db, cmd, k))
            == match cmd.outcome
               case TransactionPaid => if order.status.OrderPaid? then {} else Unrevoked(db.grants, order.workspace)
               case TransactionRefunded =>
                 if order.status.OrderPaid? then UnrevokedOf(db.grants, order.workspace, RefundIds(db, cmd.orderId)) else {}
               case _ => {}
  {
  }

  /** Settling a recorded command revokes exactly the grants listed, at its time. */
  lemma SettleGrantStep(db: Database, clock: Micros, cmd: Command)
    requires Inv(db, clock) && AllBase(db.grants) && !cmd.receivedAt.Zero()
    requires cmd.orderId in db.orders && Settle(db, cmd).Success?
    ensures GrantStep(db.grants, Settle(db, cmd).value.0.grants, (set k | k in db.grants && Revokes(db, cmd, k)),
      cmd.receivedAt.Stored())
  {
    hide Inv, SettlePaid, SettleRefunded, GrantStep, AllBase, Revokes, Unrevoked, UnrevokedOf, RefundIds;
    RevokesWhich(db, cmd);
    SameGrantStep(db.grants, cmd.receivedAt.Stored());
    match cmd.outcome
    case TransactionPaid =>
      if db.orders[cmd.orderId].status.OrderPaid? { PaidTwice(db, cmd); }
      else { PaidGrantStep(db, clock, cmd.orderId, cmd.receivedAt); }
    case TransactionFailed =>
    case TransactionRefunded =>
      if db.orders[cmd.orderId].status.OrderPaid? { RefundGrantStep(db, cmd.orderId, cmd.receivedAt.Stored()); }
      else { RefundedTwice(db, cmd); }
    case TransactionPending =>
  }

  /** The same for a whole callback; a duplicate revokes nothing. */
  lemma CallbackGrantStep(db: Database, clock: Micros, cmd: Command)
    requires Inv(db, clock) && AllBase(db.grants) && ApplyCallback(db, cmd).Success?
    ensures GrantStep(db.grants, ApplyCallback(db, cmd).value.0.grants, RevokedBy(db, cmd), cmd.receivedAt.Stored())
  {
    if EventKey(cmd) in db.events {
      SameGrantStep(db.grants, cmd.receivedAt.Stored());
    } else {
      assert !cmd.receivedAt.Zero();
      NewCallback(db, cmd);
      var recorded := Recorded(db, cmd).value;
      InvFrame(db, recorded, clock, clock);
      hide ApplyCallback, Inv, GrantStep, Settle, Recorded, AllBase;
      SettleGrantStep(recorded, clock, cmd);
      assert RevokedBy(db, cmd) == set k | k in recorded.grants && Revokes(recorded, cmd, k);
    }
  }

  lemma PaidTwice(db: Database, cmd: Command)
    requires cmd.orderId in db.orders && db.orders[cmd.orderId].status.OrderPaid?
    ensures SettlePaid(db, cmd.orderId, cmd.receivedAt) == Success((db, None))
  {
  }

  lemma RefundedTwice(db: Database, cmd: Command)
    requires cmd.orderId in db.orders && !db.orders[cmd.orderId].status.OrderPaid?
    requires SettleRefunded(db, cmd.orderId, cmd.receivedAt.Stored()).Success?
    ensures SettleRefunded(db, cmd.orderId, cmd.receivedAt.Stored()).value == db
  {
  }

  // ---------------------------------------------------------------- schedules, promotions and other steps

  lemma EndedBase(grants: Grants, w: nat, c: SubId, before: map<Capability, nat>, s: Micros, e: Option<Micros>,
      at: Micros)
    requires AllBase(grants) && OwnsExactly(grants, w, c, before, s, e) && s < at
    requires forall k :: k in grants && k.sourceType.Billing? ==> k.sourceId.SubRef?
    ensures GrantStep(grants, EndGrants(grants, w, c, at), {}, 0)
  {
    forall k | k in grants && OwnedBy(k, w, {c})
      ensures grants[k].startsAt == s
    {
      assert k == OwnKey(w, k.capability, c);
    }
  }

  lemma RunningFacts(db: Database, clock: Micros, w: nat, c: SubId)
    requires Inv(db, clock) && PhaseOf(db.subs, w) == Running(c)
    ensures c in db.subs && db.subs[c].plan in db.plans && GrantsOk(db.grants, db.subs) && PlansOk(db.plans)
    ensures OwnsExactly(db.grants, w, c, db.plans[db.subs[c].plan].entitlements, db.subs[c].startsAt,
      db.subs[c].termEndsAt)
  {
    InvShape(db, clock, w);
  }

  lemma ScheduleGrantStep(db: Database, clock: Micros, c: SubId, input: ScheduleInput)
    requires Inv(db, clock) && AllBase(db.grants) && PhaseOf(db.subs, input.workspace) == Running(c)
      && input.workspace != 0
    requires c in db.subs && ScheduleFrom(db, c, input).Success?
    ensures GrantStep(db.grants, ScheduleFrom(db, c, input).value.0.grants, {}, 0)
  {
    hide Inv, PhaseOf, ScheduleFrom, StoredTermEnd, EndGrants, PlanGrants, GrantStep, OwnsExactly, AllBase,
      ScheduleRefusal, StrictDowngrade;
    var (w, e, s) := (input.workspace, input.now.Stored() + D.GRACE, db.subs[c]);
    var t := TargetSub(c, input.now.Plus(D.GRACE));
    RunningFacts(db, clock, w, c);
    ScheduleGrantTable(db, c, input);
    ScheduleAccepted(db, c, input);
    var target := db.plans[input.targetPlan];
    TermEndsLater(target.period, input.now.Plus(D.GRACE));
    EndedBase(db.grants, w, c, db.plans[s.plan].entitlements, s.startsAt, s.termEndsAt, e);
    PlanGrantsBase(w, t, target.entitlements, e, ScheduledTerm(db, input));
    NoGrantsYet(db.grants, db.subs, w, t);
    AddScheduled(db, c, input);
  }

  lemma ScheduleGrantTable(db: Database, c: SubId, input: ScheduleInput)
    requires c in db.subs && ScheduleFrom(db, c, input).Success?
    ensures ScheduleRefusal(db, c, input).None? && input.targetPlan in db.plans
    ensures ScheduleFrom(db, c, input).value.0.grants
         == EndGrants(db.grants, input.workspace, c, input.now.Stored() + D.GRACE)
          + PlanGrants(input.workspace, TargetSub(c, input.now.Plus(D.GRACE)), db.plans[input.targetPlan].entitlements,
                       input.now.Stored() + D.GRACE, ScheduledTerm(db, input))
  {
    hide ScheduledTerm, ScheduledSubs, EndGrants, PlanGrants, ProjectScheduledDowngrade, StrictDowngrade, GrantsFree;
  }

  lemma AddScheduled(db: Database, c: SubId, input: ScheduleInput)
    requires c in db.subs && ScheduleFrom(db, c, input).Success? && input.targetPlan in db.plans
    requires var (w, e, t) := (input.workspace, input.now.Stored() + D.GRACE, TargetSub(c, input.now.Plus(D.GRACE)));
             var more := PlanGrants(w, t, db.plans[input.targetPlan].entitlements, e, ScheduledTerm(db, input));
             && GrantStep(db.grants, EndGrants(db.grants, w, c, e), {}, 0) && AllBase(more)
             && forall cap :: OwnKey(w, cap, t) !in db.grants
    ensures GrantStep(db.grants, ScheduleFrom(db, c, input).value.0.grants, {}, 0)
  {
    ScheduleGrantTable(db, c, input);
    hide ScheduleFrom, GrantStep, EndGrants, AllBase, ScheduledTerm;
    var (w, e, t) := (input.workspace, input.now.Stored() + D.GRACE, TargetSub(c, input.now.Plus(D.GRACE)));
    NewGrantStep(db.grants, EndGrants(db.grants, w, c, e),
                 PlanGrants(w, t, db.plans[input.targetPlan].entitlements, e, ScheduledTerm(db, input)), {}, 0);
  }

  lemma LoadKeepsGrants(db: Database, w: nat, now: Instant)
    requires LoadCurrent(db, w, now).Success?
    ensures LoadCurrent(db, w, now).value.0.grants == db.grants
  {
    hide PromoteDomainTarget, Newest, IsNewest, BillableIds, DuePending;
  }

  lemma DowngradeGrantStep(db: Database, clock: Micros, input: ScheduleInput)
    requires Inv(db, clock) && AllBase(db.grants) && ScheduleDowngrade(db, input).Success?
    ensures GrantStep(db.grants, ScheduleDowngrade(db, input).value.0.grants, {}, 0)
  {
    ScheduleCases(db, input);
    assert input.workspace != 0;
    LoadKeepsInv(db, clock, input.workspace, input.now);
    LoadKeepsGrants(db, input.workspace, input.now);
    var (loaded, c) := LoadCurrent(db, input.workspace, input.now).value;
    InvShape(loaded, Max(clock, input.now.Stored()), input.workspace);
    if loaded.subs[c].status.Grace? {
      hide LoadCurrent, ScheduleDowngrade, Inv;
      SameGrantStep(db.grants, 0);
    } else {
      hide LoadCurrent, ScheduleDowngrade, Inv, ScheduleFrom;
      ScheduleGrantStep(loaded, Max(clock, input.now.Stored()), c, input);
    }
  }

  /** The grants the committed step revokes. */
  function StepRevokes(step: Step, db: Database): set<GrantKey> {
    if step.Calling? && ApplyCallback(db, step.command).Success? then RevokedBy(db, step.command) else {}
  }

  lemma NextGrantStep(checks: bool, db: Database, clock: Micros, step: Step)
    requires Inv(db, clock) && AllBase(db.grants)
    ensures Next(checks, db, step) == db
      || GrantStep(db.grants, Next(checks, db, step).grants, StepRevokes(step, db), Time(step))
    ensures AllBase(Next(checks, db, step).grants)
  {
    hide Inv, ApplyCallback, ScheduleDowngrade, LoadCurrent, SchemaOk, HasOrder, RevokedBy, GrantStep, EditGrant,
      AllBase;
    SameGrantStep(db.grants, Time(step));
    if Next(checks, db, step) != db {
      match step
      case Calling(command) =>
        CallbackGrantStep(db, clock, command);
        StepBase(db.grants, Next(checks, db, step).grants, RevokedBy(db, command), Time(step), Time(step));
      case Scheduling(request) =>
        DowngradeGrantStep(db, clock, request);
        StepBase(db.grants, Next(checks, db, step).grants, {}, 0, Time(step));
      case Refreshing(w, now) => LoadKeepsGrants(db, w, now);
      case Ordering(_, _) =>
      case GrantEdit(k, row) => EditGrantStep(db, k, row);
      case SourceEdit(_, _) =>
    }
  }

  /** The time of a step matters to the grants it revokes only. */
  lemma StepBase(grants: Grants, grants': Grants, revoked: set<GrantKey>, now: Micros, now': Micros)
    requires GrantStep(grants, grants', revoked, now) && (revoked == {} || now == now')
    ensures AllBase(grants') && GrantStep(grants, grants', revoked, now')
  {
  }

  lemma EditGrantStep(db: Database, k: GrantKey, row: Option<Grant>)
    requires AllBase(db.grants) && EditGrant(db, k, row).Success?
    ensures AllBase(EditGrant(db, k, row).value.0.grants)
    ensures GrantStep(db.grants, EditGrant(db, k, row).value.0.grants, {}, 0)
  {
  }

  // ---------------------------------------------------------------- without the schema's checks

  lemma StepValidity(grants: Grants, grants': Grants, revoked: set<GrantKey>, now: Micros)
    requires AllBase(grants) && GrantStep(grants, grants', revoked, now)
    requires forall k :: k in revoked ==> k in grants && k.sourceType.Billing? && grants[k].revokedAt.None?
    ensures BillingGrantsValid(grants') <==>
      BillingGrantsValid(grants) && forall k :: k in revoked ==> grants[k].startsAt <= now
  {
  }

  /** The guards tell what the callback would do. */
  lemma EarlyMeans(db: Database, clock: Micros, cmd: Command)
    requires Inv(db, clock)
    ensures RevokesEarly(db, Calling(cmd)) <==>
      && ApplyCallback(db, cmd).Success?
      && exists k :: k in RevokedBy(db, cmd) && cmd.receivedAt.Stored() < db.grants[k].startsAt
  {
    if EventKey(cmd) !in db.events {
      hide Inv, ApplyCallback, Revokes;
      AcceptedExactly(db, clock, cmd);
    }
  }

  /**
   * Where no check is enforced, a step leaves every billing grant valid exactly when it found them so and
   * revokes none before its start.
   */
  lemma NextValid(db: Database, clock: Micros, step: Step)
    requires Inv(db, clock) && AllBase(db.grants)
    ensures BillingGrantsValid(Next(false, db, step).grants) <==>
      BillingGrantsValid(db.grants) && !RevokesEarly(db, step)
  {
    hide Inv, ApplyCallback, GrantStep, BillingGrantsValid, AllBase, SchemaOk, Acceptable, PendingIds, ControlsCurrent;
    NextGrantStep(false, db, clock, step);
    if step.Calling? { EarlyMeans(db, clock, step.command); }
    if step.Calling? && ApplyCallback(db, step.command).Success? {
      CallbackGrantStep(db, clock, step.command);
      StepValidity(db.grants, Next(false, db, step).grants, RevokedBy(db, step.command), Time(step));
    } else if Next(false, db, step) != db {
      hide Next;
      StepValidity(db.grants, Next(false, db, step).grants, {}, Time(step));
    }
  }

  /**
   * Without enforced checks, every billing grant of a run's last state validates if and only if no
   * callback of the run revoked a grant before its start; an invalid one stays invalid for good.
   */
  lemma {:induction false} GrantsValidUnlessEarly(db: Database, steps: seq<Step>)
    requires Initial(db)
    ensures AllBase(Run(false, db, steps).grants)
    ensures BillingGrantsValid(Run(false, db, steps).grants) <==>
      forall i :: 0 <= i < |steps| ==> !RevokesEarly(Run(false, db, steps[..i]), steps[i])
  {
    hide Next, RevokesEarly, AllBase, BillingGrantsValid, Inv, Initial, GrantStep;
    if steps == [] {
      EmptyGrants(db);
    } else {
      var before := steps[..|steps| - 1];
      GrantsValidUnlessEarly(db, before);
      RunKeepsInv(false, db, before);
      NextValid(Run(false, db, before), Clock(before), steps[|steps| - 1]);
      NextGrantStep(false, Run(false, db, before), Clock(before), steps[|steps| - 1]);
      LastStepEarly(db, steps);
    }
  }

  /** The condition splits into the last step's and that of the steps before it. */
  lemma LastStepEarly(db: Database, steps: seq<Step>)
    requires steps != []
    ensures var before := steps[..|steps| - 1];
            (forall i :: 0 <= i < |steps| ==> !RevokesEarly(Run(false, db, steps[..i]), steps[i])) <==>
              && (forall i :: 0 <= i < |before| ==> !RevokesEarly(Run(false, db, before[..i]), before[i]))
              && !RevokesEarly(Run(false, db, before), steps[|steps| - 1])
  {
    hide Run, RevokesEarly;
    var before := steps[..|steps| - 1];
    assert forall i :: 0 <= i < |before| ==> before[..i] == steps[..i] && before[i] == steps[i];
    assert forall i :: 0 <= i < |steps| ==> i < |before| || (steps[..i] == before && steps[i] == steps[|steps| - 1]);
  }

  lemma EmptyGrants(db: Database)
    requires Initial(db)
    ensures AllBase(db.grants) && BillingGrantsValid(db.grants)
  {
  }

  // ---------------------------------------------------------------- with the schema's checks

  lemma NextSchemaOk(db: Database, step: Step)
    requires SchemaOk(db)
    ensures SchemaOk(Next(true, db, step))
  {
    hide SchemaOk, ApplyCallback, CreateOrder, ScheduleDowngrade, LoadCurrent;
  }

  lemma {:induction false} RunSchemaOk(db: Database, steps: seq<Step>)
    requires SchemaOk(db)
    ensures SchemaOk(Run(true, db, steps))
  {
    hide SchemaOk, Next;
    if steps != [] {
      RunSchemaOk(db, steps[..|steps| - 1]);
      NextSchemaOk(Run(true, db, steps[..|steps| - 1]), steps[|steps| - 1]);
    }
  }

  lemma {:induction false} RunBase(checks: bool, db: Database, steps: seq<Step>)
    requires Initial(db)
    ensures AllBase(Run(checks, db, steps).grants)
  {
    hide Next, AllBase, Inv, Initial;
    if steps == [] {
      EmptyGrants(db);
    } else {
      var before := steps[..|steps| - 1];
      RunBase(checks, db, before);
      RunKeepsInv(checks, db, before);
      NextGrantStep(checks, Run(checks, db, before), Clock(before), steps[|steps| - 1]);
    }
  }

  /** With the checks enforced every billing grant of every reachable state validates. */
  lemma GrantsAlwaysValid(db: Database, steps: seq<Step>)
    requires Initial(db)
    ensures BillingGrantsValid(Run(true, db, steps).grants)
  {
    assert SchemaOk(db);
    RunSchemaOk(db, steps);
    RunBase(true, db, steps);
    hide Run;
  }

  /**
   * So with the checks enforced both resolvers always answer, and alike: on all billing grants of a
   * workspace and on its plan sources they allow the same and give the same limit.
   */
  lemma EnforcedResolversAgree(db: Database, steps: seq<Step>, w: nat, t: Micros, gs: seq<Grant>)
    requires Initial(db) && Clock(steps) <= t
    requires var grants := Run(true, db, steps).grants;
             forall g :: g in gs <==>
               exists k :: k in grants && k.workspace == w && k.capability == CustomDomains && k.sourceType.Billing?
                 && grants[k] == g
    ensures var b := B.Resolve(t, w, CustomDomains, gs);
            var d := D.Resolve(t, PlanSources(Run(true, db, steps).sources, w), None);
            && b.Success? && d.Success?
            && b.value.allowed == d.value.routingAllowed
            && b.value.limit == d.value.limit
  {
    hide Run, Initial, B.Resolve, D.Resolve, ValidGrant;
    GrantsAlwaysValid(db, steps);
    ResolversAgree(true, db, steps, w, t, gs);
  }

  /** The price: a callback that would revoke a grant before its start is refused, and changes nothing. */
  lemma EarlyRevocationRefused(db: Database, clock: Micros, step: Step)
    requires Inv(db, clock) && AllBase(db.grants) && RevokesEarly(db, step)
    ensures ApplyCallback(db, step.command).Success?
    ensures Answer(true, ApplyCallback(db, step.command)) == Failure(SchemaViolation)
    ensures Next(true, db, step) == db
  {
    hide Inv, ApplyCallback, Acceptable, PendingIds, ControlsCurrent;
    EarlyMeans(db, clock, step.command);
    CallbackGrantStep(db, clock, step.command);
    var db' := ApplyCallback(db, step.command).value.0;
    var k :| k in RevokedBy(db, step.command) && step.command.receivedAt.Stored() < db.grants[k].startsAt;
    assert !GrantChecks(db'.grants[k]);
  }

  // ---------------------------------------------------------------- the domain sources

  /** Every plan source billing ever writes validates, with or without the checks. */
  lemma PlanSourcesValid(checks: bool, db: Database, steps: seq<Step>, k: SourceKey)
    requires Initial(db) && k in Run(checks, db, steps).sources && PlanOwned(k)
    ensures D.Valid(Run(checks, db, steps).sources[k])
  {
    RunKeepsInv(checks, db, steps);
    hide Run, HasShape;
  }

  // ---------------------------------------------------------------- the excluded case, phase by phase

  /**
   * The guards of an accepted callback hold, it arrives during a grace whose target has grants, and it
   * pays an order or refunds the one in control.
   */
  ghost predicate EndsGraceEarly(db: Database, cmd: Command) {
    && Acceptable(db, cmd)
    && var (order, ph) := (db.orders[cmd.orderId], PhaseOf(db.subs, db.orders[cmd.orderId].workspace));
       && ph.Downgrading? && ph.target in db.subs
       && cmd.receivedAt.Stored() < db.subs[ph.target].startsAt
       && db.subs[ph.target].plan in db.plans && db.plans[db.subs[ph.target].plan].entitlements != map[]
       && (|| (cmd.outcome.TransactionPaid? && !order.status.OrderPaid?)
           || (cmd.outcome.TransactionRefunded? && order.status.OrderPaid? && ph.current == OrderSub(cmd.orderId)))
  }

  /** Once the clock has passed a time, an unrevoked billing grant that starts later is a waiting target's. */
  lemma LaterIsTarget(db: Database, clock: Micros, w: nat, ph: Phase, k: GrantKey)
    requires WellFormed(db) && Shape(db, clock, w, ph) && AllBase(db.grants)
    requires k in db.grants && k.workspace == w && k.sourceType.Billing? && db.grants[k].revokedAt.None?
    requires clock < db.grants[k].startsAt
    ensures ph.Downgrading? && ph.target in db.subs && k == OwnKey(w, k.capability, ph.target)
    ensures db.subs[ph.target].plan in db.plans && k.capability in db.plans[db.subs[ph.target].plan].entitlements
    ensures db.grants[k].startsAt == db.subs[ph.target].startsAt
  {
    hide OrdersOk, SourcesOk, Mirrors, SourceOff, SubsClosed;
    match ph
    case Idle =>
    case Running(c) =>
      var s := db.subs[c];
      OwnedStart(db.grants, w, c, db.plans[s.plan].entitlements, s.startsAt, s.termEndsAt, k);
    case Downgrading(c, t) =>
      var s, n := db.subs[c], db.subs[t];
      OwnedStart(db.grants, w, c, db.plans[s.plan].entitlements, s.startsAt, s.graceEndsAt, k);
      OwnedStart(db.grants, w, t, db.plans[n.plan].entitlements, n.startsAt, n.termEndsAt, k);
  }

  lemma OwnedStart(grants: Grants, w: nat, id: SubId, entitlements: map<Capability, nat>, s: Micros,
      e: Option<Micros>, k: GrantKey)
    requires OwnsExactly(grants, w, id, entitlements, s, e) && k in grants
    ensures OwnedBy(k, w, {id}) ==>
      k == OwnKey(w, k.capability, id) && k.capability in entitlements && grants[k].startsAt == s
  {
  }

  /** The waiting target's grants are stored and unrevoked. */
  lemma TargetGrant(db: Database, clock: Micros, w: nat, ph: Phase, cap: Capability)
    requires WellFormed(db) && Shape(db, clock, w, ph) && ph.Downgrading?
    ensures ph.current in db.subs && Billable(db.subs[ph.current].status) && db.subs[ph.current].workspace == w
    ensures ph.target in PendingIds(db.subs, w) && db.subs[ph.target].plan in db.plans
    ensures cap in db.plans[db.subs[ph.target].plan].entitlements ==>
      var k := OwnKey(w, cap, ph.target);
      k in db.grants && db.grants[k].startsAt == db.subs[ph.target].startsAt && db.grants[k].revokedAt.None?
  {
    BillableInShape(db, clock, w, ph);
  }

  /** For callbacks that come in order of time the two conditions are one. */
  lemma EarlyIsInGrace(db: Database, clock: Micros, cmd: Command)
    requires Inv(db, clock) && AllBase(db.grants) && clock <= cmd.receivedAt.Stored()
    ensures RevokesEarly(db, Calling(cmd)) <==> EndsGraceEarly(db, cmd)
  {
    hide Acceptable, Shape, PhaseOf, WellFormed;
    if Acceptable(db, cmd) {
      KnownOrder(db, cmd);
      var w := db.orders[cmd.orderId].workspace;
      var ph := PhaseOf(db.subs, w);
      InvShape(db, clock, w);
      if k :| k in db.grants && Revokes(db, cmd, k) && cmd.receivedAt.Stored() < db.grants[k].startsAt {
        LaterIsTarget(db, clock, w, ph, k);
        TargetGrant(db, clock, w, ph, k.capability);
        InGraceRefund(db, clock, w, ph, cmd, k);
      }
      if EndsGraceEarly(db, cmd) {
        var cap :| cap in db.plans[db.subs[ph.target].plan].entitlements;
        TargetGrant(db, clock, w, ph, cap);
        assert Revokes(db, cmd, OwnKey(w, cap, ph.target));
      }
    }
  }

  lemma KnownOrder(db: Database, cmd: Command)
    requires Acceptable(db, cmd)
    ensures cmd.orderId in db.orders
  {
  }

  /** A refund that revokes the target's grants is a refund of the subscription in control. */
  lemma InGraceRefund(db: Database, clock: Micros, w: nat, ph: Phase, cmd: Command, k: GrantKey)
    requires WellFormed(db) && Shape(db, clock, w, ph) && ph.Downgrading? && cmd.orderId in db.orders && k in db.grants
    requires db.orders[cmd.orderId].workspace == w && Revokes(db, cmd, k) && k == OwnKey(w, k.capability, ph.target)
    ensures cmd.outcome.TransactionRefunded? ==> ph.current == OrderSub(cmd.orderId)
  {
    BillableInShape(db, clock, w, ph);
    if cmd.outcome.TransactionRefunded? {
      assert ph.target.TargetSub?;
      assert OrderSub(cmd.orderId) in BillableIds(db.subs, w);
    }
  }

  /** Each callback is received no earlier than anything before it. */
  ghost predicate CallbacksInOrder(steps: seq<Step>) {
    forall i :: 0 <= i < |steps| && steps[i].Calling? ==> Clock(steps[..i]) <= Time(steps[i])
  }

  /**
   * Over a run whose callbacks come in order of time, without enforced checks, every billing grant of the
   * last state validates if and only if no callback ended a downgrade during its grace.
   */
  lemma GrantsValidInOrder(db: Database, steps: seq<Step>)
    requires Initial(db) && CallbacksInOrder(steps)
    ensures BillingGrantsValid(Run(false, db, steps).grants) <==>
      forall i :: 0 <= i < |steps| && steps[i].Calling? ==>
        !EndsGraceEarly(Run(false, db, steps[..i]), steps[i].command)
  {
    hide Run, RevokesEarly, EndsGraceEarly, BillingGrantsValid, Inv, AllBase, Initial;
    GrantsValidUnlessEarly(db, steps);
    forall i | 0 <= i < |steps|
      ensures RevokesEarly(Run(false, db, steps[..i]), steps[i]) <==>
        steps[i].Calling? && EndsGraceEarly(Run(false, db, steps[..i]), steps[i].command)
    {
      RunKeepsInv(false, db, steps[..i]);
      RunBase(false, db, steps[..i]);
      if steps[i].Calling? { EarlyIsInGrace(Run(false, db, steps[..i]), Clock(steps[..i]), steps[i].command); }
      else { OnlyCallbacks(Run(false, db, steps[..i]), steps[i]); }
    }
  }

  lemma OnlyCallbacks(db: Database, step: Step)
    requires !step.Calling?
    ensures !RevokesEarly(db, step)
  {
  }

  /**
   * Such a callback is accepted where no check stops it, and each grant of the target it revokes makes
   * the billing resolver fail on every collection holding it, at every instant.
   */
  lemma CancelBeforeStart(db: Database, clock: Micros, cmd: Command, cap: Capability)
    requires Inv(db, clock) && AllBase(db.grants) && EndsGraceEarly(db, cmd)
    requires cap in db.plans[db.subs[PhaseOf(db.subs, db.orders[cmd.orderId].workspace).target].plan].entitlements
    ensures ApplyCallback(db, cmd).Success?
    ensures var w := db.orders[cmd.orderId].workspace;
            var (k, grants') := (OwnKey(w, cap, PhaseOf(db.subs, w).target), ApplyCallback(db, cmd).value.0.grants);
            && k in grants'
            && forall t: Micros, v: nat, capability: Capability, gs: seq<Grant> ::
                 grants'[k] in gs ==> B.Resolve(t, v, capability, gs) == Failure(InvalidGrant)
  {
    hide ApplyCallback, Shape, PhaseOf, WellFormed, PendingIds;
    var w := db.orders[cmd.orderId].workspace;
    var ph := PhaseOf(db.subs, w);
    InvShape(db, clock, w);
    TargetGrant(db, clock, w, ph, cap);
    AcceptedExactly(db, clock, cmd);
    CallbackGrantStep(db, clock, cmd);
    assert Revokes(db, cmd, OwnKey(w, cap, ph.target));
  }
}
