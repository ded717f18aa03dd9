/** Exactly which transactions the schema's checks refuse, and which downgrade requests are accepted. */
module BillingEnforcement {
  import opened Foundations
  import opened Calendar
  import opened BillingModel
  import opened BillingSpec
  import opened BillingInvariant
  import opened BillingSteps
  import opened BillingPhases
  import opened BillingTransitions
  import opened BillingRuns
  import opened BillingSettlement
  import opened BillingAcceptance
  import opened BillingRecords
  import D = DomainEntitlement

  // ---------------------------------------------------------------- callbacks

  ghost predicate OthersKept(grants: Grants, grants': Grants) {
    && (forall k :: k in grants && !k.sourceType.Billing? ==> k in grants' && grants'[k] == grants[k])
    && (forall k :: k in grants' && !k.sourceType.Billing? ==> k in grants)
  }

  lemma PaidKeepsOthers(db: Database, o: nat, now: Instant)
    requires o in db.orders && !db.orders[o].status.OrderPaid? && SettlePaid(db, o, now).Success?
    ensures OthersKept(db.grants, SettlePaid(db, o, now).value.0.grants)
  {
    hide SettlePaid;
    PaidGrantTable(db, o, now);
  }

  lemma RefundKeepsOthers(db: Database, o: nat, now: Micros)
    requires o in db.orders && SettleRefunded(db, o, now).Success?
    ensures OthersKept(db.grants, SettleRefunded(db, o, now).value.grants)
  {
    hide PendingIds, CancelSubs, CancelOwn, ExpirePlanSource, RevokeGrants, OthersKept, RefundInvoice, ControlsCurrent;
    var w := db.orders[o].workspace;
    SameOthers(db.grants);
    RevokeKeepsOthers(db.grants, w, {OrderSub(o)}, now);
    RevokeTwiceKeepsOthers(db.grants, w, PendingIds(db.subs, w), {OrderSub(o)}, now);
  }

  lemma RevokeKeepsOthers(grants: Grants, w: nat, ids: set<SubId>, now: Micros)
    ensures OthersKept(grants, RevokeGrants(grants, w, ids, now))
  {
  }

  lemma RevokeTwiceKeepsOthers(grants: Grants, w: nat, ids: set<SubId>, ids': set<SubId>, now: Micros)
    ensures OthersKept(grants, RevokeGrants(RevokeGrants(grants, w, ids, now), w, ids', now))
  {
    hide RevokeGrants;
    RevokeKeepsOthers(grants, w, ids, now);
    RevokeKeepsOthers(RevokeGrants(grants, w, ids, now), w, ids', now);
  }

  lemma CallbackKeepsOthers(db: Database, cmd: Command)
    requires ApplyCallback(db, cmd).Success?
    ensures OthersKept(db.grants, ApplyCallback(db, cmd).value.0.grants)
  {
    hide SettlePaid, SettleRefunded, Recorded, ValidateCommand, OthersKept;
    SameOthers(db.grants);
    if EventKey(cmd) !in db.events {
      var recorded := Recorded(db, cmd).value;
      match cmd.outcome
      case TransactionPaid =>
        if db.orders[cmd.orderId].status.OrderPaid? { PaidTwice(recorded, cmd); }
        else { PaidKeepsOthers(recorded, cmd.orderId, cmd.receivedAt); }
      case TransactionRefunded => RefundKeepsOthers(recorded, cmd.orderId, cmd.receivedAt.Stored());
      case _ =>
    }
  }

  lemma SameOthers(grants: Grants)
    ensures OthersKept(grants, grants)
  {
  }

  ghost predicate GrantRowsOk(grants: Grants) { forall k :: k in grants ==> GrantChecks(grants[k]) }

  ghost predicate SubRowsOk(subs: Subs) { forall id :: id in subs ==> SubscriptionChecks(subs[id]) }

  /** Of the checks on grants only that on the revocation can fail, and only for the grants revoked. */
  lemma GrantStepChecks(grants: Grants, grants': Grants, revoked: set<GrantKey>, now: Micros)
    requires AllBase(grants) && GrantStep(grants, grants', revoked, now) && OthersKept(grants, grants')
      && GrantRowsOk(grants)
    requires forall k :: k in revoked ==> k in grants && k.sourceType.Billing?
    ensures GrantRowsOk(grants') <==> forall k :: k in revoked ==> grants[k].startsAt <= now
  {
    if k :| k in revoked && now < grants[k].startsAt { assert !GrantChecks(grants'[k]); }
  }

  /** A subscription in control without a term end that starts no earlier than the callback. */
  ghost predicate EndsAtStart(db: Database, cmd: Command) {
    && cmd.orderId in db.orders && cmd.outcome.TransactionPaid? && !db.orders[cmd.orderId].status.OrderPaid?
    && EventKey(cmd) !in db.events
    && exists id :: id in BillableIds(db.subs, db.orders[cmd.orderId].workspace)
         && db.subs[id].termEndsAt.None? && cmd.receivedAt.Stored() <= db.subs[id].startsAt
  }

  lemma PaidSubTable(db: Database, o: nat, now: Instant)
    requires o in db.orders && !db.orders[o].status.OrderPaid? && SettlePaid(db, o, now).Success?
      && OrderSub(o) !in db.subs
    ensures var order := db.orders[o];
            && order.plan in db.plans
            && var canceled := CancelSubs(db.subs, PendingIds(db.subs, order.workspace), now.Stored());
               var end := StoredTermEnd(db.plans[order.plan].period, now);
               SettlePaid(db, o, now).value.0.subs
               == ExpireOthers(canceled, order.workspace, OrderSub(o), now.Stored())
                    [OrderSub(o) := Subscription(order.workspace, order.plan, SubscriptionStatus.Active,
                      now.Stored(), end, None, None, 1)]
  {
    hide StoredTermEnd, RevokeOthers, PlanGrants, RevokeGrants, ProjectDomainEntitlement, PayInvoice, ExpirePlanSource;
    assert OrderSub(o) !in CancelSubs(db.subs, PendingIds(db.subs, db.orders[o].workspace), now.Stored());
  }

  ghost predicate GraceHasTerm(subs: Subs, w: nat) {
    forall i :: i in BillableIds(subs, w) && subs[i].graceEndsAt.Some? ==> subs[i].termEndsAt.Some?
  }

  lemma InvGraceHasTerm(db: Database, clock: Micros, w: nat)
    requires Inv(db, clock)
    ensures GraceHasTerm(db.subs, w)
  {
    hide PhaseOf;
    InvShape(db, clock, w);
    BillableInShape(db, clock, w, PhaseOf(db.subs, w));
  }

  /**
   * Expiring the subscription in control fails its term check exactly where it has no term and has not
   * started before.
   */
  lemma ExpiredChecks(subs: Subs, w: nat, pending: set<SubId>, id: SubId, now: Micros)
    requires SubRowsOk(subs) && id !in subs && pending == PendingIds(subs, w) && GraceHasTerm(subs, w)
    ensures SubRowsOk(ExpireOthers(CancelSubs(subs, pending, now), w, id, now)) <==>
      forall i :: i in BillableIds(subs, w) ==> subs[i].termEndsAt.Some? || subs[i].startsAt < now
  {
    var after := ExpireOthers(CancelSubs(subs, pending, now), w, id, now);
    if i :| i in BillableIds(subs, w) && subs[i].termEndsAt.None? && now <= subs[i].startsAt {
      assert !SubscriptionChecks(after[i]);
    }
    forall i | i in after && (i in BillableIds(subs, w) ==> subs[i].termEndsAt.Some? || subs[i].startsAt < now)
      ensures SubscriptionChecks(after[i])
    {
      assert SubscriptionChecks(subs[i]);
    }
  }

  lemma RefundSubChecks(db: Database, o: nat, now: Micros)
    requires o in db.orders && SettleRefunded(db, o, now).Success? && SubRowsOk(db.subs)
    ensures SubRowsOk(SettleRefunded(db, o, now).value.subs)
  {
    hide RevokeGrants, ExpirePlanSource, PendingIds, RefundInvoice, CancelSubs, CancelOwn, SubRowsOk, ControlsCurrent;
    var w := db.orders[o].workspace;
    CancelChecks(db.subs, PendingIds(db.subs, w), OrderSub(o), w, now);
    CancelChecks(CancelSubs(db.subs, PendingIds(db.subs, w), now), {}, OrderSub(o), w, now);
  }

  lemma CancelChecks(subs: Subs, pending: set<SubId>, id: SubId, w: nat, now: Micros)
    requires SubRowsOk(subs)
    ensures SubRowsOk(CancelSubs(subs, pending, now)) && SubRowsOk(CancelOwn(subs, id, w, now))
  {
    assert forall i :: i in subs ==> SubscriptionChecks(subs[i]);
  }

  lemma CallbackSubChecks(db: Database, clock: Micros, cmd: Command)
    requires Inv(db, clock) && SubRowsOk(db.subs) && ApplyCallback(db, cmd).Success?
    ensures SubRowsOk(ApplyCallback(db, cmd).value.0.subs) <==> !EndsAtStart(db, cmd)
  {
    hide SettlePaid, SettleRefunded, Recorded, ValidateCommand, SubRowsOk, HasShape;
    if EventKey(cmd) !in db.events {
      var recorded := Recorded(db, cmd).value;
      var o := cmd.orderId;
      match cmd.outcome
      case TransactionPaid =>
        if db.orders[o].status.OrderPaid? {
          PaidTwice(recorded, cmd);
        } else {
          InvFrame(db, recorded, clock, clock);
          PaidNames(recorded, clock, o, cmd.receivedAt);
          InvGraceHasTerm(recorded, clock, db.orders[o].workspace);
          PaidSubChecks(recorded, o, cmd.receivedAt);
          assert ApplyCallback(db, cmd).value.0.subs == SettlePaid(recorded, o, cmd.receivedAt).value.0.subs;
        }
      case TransactionRefunded => RefundSubChecks(recorded, o, cmd.receivedAt.Stored());
      case _ =>
    }
  }

  lemma PaidSubChecks(db: Database, o: nat, now: Instant)
    requires o in db.orders && !db.orders[o].status.OrderPaid? && SettlePaid(db, o, now).Success?
      && OrderSub(o) !in db.subs
    requires SubRowsOk(db.subs) && GraceHasTerm(db.subs, db.orders[o].workspace)
    ensures SubRowsOk(SettlePaid(db, o, now).value.0.subs) <==>
      forall i :: i in BillableIds(db.subs, db.orders[o].workspace) ==>
        db.subs[i].termEndsAt.Some? || db.subs[i].startsAt < now.Stored()
  {
    hide SettlePaid, BillableIds, StoredTermEnd, PendingIds;
    PaidSubTable(db, o, now);
    var (w, plan) := (db.orders[o].workspace, db.orders[o].plan);
    var pending := PendingIds(db.subs, w);
    ExpiredChecks(db.subs, w, pending, OrderSub(o), now.Stored());
    TermEndsLater(db.plans[plan].period, now);
    var expired := ExpireOthers(CancelSubs(db.subs, pending, now.Stored()), w, OrderSub(o), now.Stored());
    AddedRow(expired, OrderSub(o), SettlePaid(db, o, now).value.0.subs[OrderSub(o)]);
  }

  lemma AddedRow(subs: Subs, id: SubId, row: Subscription)
    requires id !in subs && SubscriptionChecks(row)
    ensures SubRowsOk(subs[id := row]) <==> SubRowsOk(subs)
  {
    if SubRowsOk(subs[id := row]) {
      forall i | i in subs
        ensures SubscriptionChecks(subs[i])
      {
        assert SubscriptionChecks(subs[id := row][i]);
      }
    }
  }

  /**
   * Exactly which accepted callbacks the schema refuses: those that revoke a grant before its start, and
   * payments that would expire a subscription without a term end at or before its start.
   */
  lemma CallbackEnforced(db: Database, clock: Micros, cmd: Command)
    requires Inv(db, clock) && AllBase(db.grants) && SchemaOk(db) && ApplyCallback(db, cmd).Success?
    ensures SchemaOk(ApplyCallback(db, cmd).value.0) <==> !RevokesEarly(db, Calling(cmd)) && !EndsAtStart(db, cmd)
  {
    hide Inv, ApplyCallback, RevokesEarly, EndsAtStart, AllBase, GrantStep, Revokes;
    CallbackGrantStep(db, clock, cmd);
    CallbackKeepsOthers(db, cmd);
    RevokedAreBilling(db, cmd);
    GrantStepChecks(db.grants, ApplyCallback(db, cmd).value.0.grants, RevokedBy(db, cmd), cmd.receivedAt.Stored());
    EarlyMeans(db, clock, cmd);
    CallbackSubChecks(db, clock, cmd);
  }

  lemma RevokedAreBilling(db: Database, cmd: Command)
    ensures forall k :: k in RevokedBy(db, cmd) ==> k in db.grants && k.sourceType.Billing?
  {
  }

  // ---------------------------------------------------------------- downgrade requests

  /** The domain projection of a schedule is never refused where its plan is in control. */
  lemma ScheduleProjects(db: Database, clock: Micros, c: SubId, input: ScheduleInput)
    requires WellFormed(db) && RunningShape(db, clock, input.workspace, c) && input.workspace != 0
    requires ScheduleRefusal(db, c, input).None?
    ensures input.targetPlan in db.plans && ScheduledTerm(db, input).Some?
    ensures ProjectScheduledDowngrade(db.sources, input.workspace, db.plans[db.subs[c].plan], db.plans[input.targetPlan],
                                      input.now, ScheduledTerm(db, input)).Success?
  {
    hide StoredTermEnd, OwnsExactly, GrantsDead, SubsClosed, GrantsOk, OrdersOk, PendingIds, GrantsFree;
    ScheduleAccepted(db, c, input);
    var (w, s) := (input.workspace, db.subs[c]);
    TermEndsLater(db.plans[input.targetPlan].period, input.now.Plus(D.GRACE));
    var current := db.plans[s.plan].entitlements;
    if CustomDomains in current { DegradeSource(db.sources, w, current, s.startsAt, s.termEndsAt, input.now); }
  }

  /** The guards of a downgrade request of a workspace whose subscription runs. */
  predicate Schedulable(db: Database, c: SubId, input: ScheduleInput)
    requires c in db.subs
  {
    && input.workspace != 0 && input.targetPlan != 0 && input.expectedVersion != 0 && input.actor != 0
      && !input.now.Zero()
    && db.subs[c].version == input.expectedVersion
    && (db.subs[c].startsAt < input.now.at || (db.subs[c].startsAt == input.now.at && input.now.nanos != 0))
    && db.subs[c].plan in db.plans && input.targetPlan in db.plans
    && db.plans[input.targetPlan].status.ActivePlan? && !db.plans[input.targetPlan].period.OneTime?
    && StrictDowngrade(db.subs[c].plan, db.plans[db.subs[c].plan], input.targetPlan, db.plans[input.targetPlan])
    && TargetSub(c, input.now.Plus(D.GRACE)) !in db.subs
  }

  lemma RefusedExactly(db: Database, clock: Micros, c: SubId, input: ScheduleInput)
    requires WellFormed(db) && RunningShape(db, clock, input.workspace, c)
    requires input.workspace != 0 && input.targetPlan != 0 && input.expectedVersion != 0 && input.actor != 0
      && !input.now.Zero()
    ensures ScheduleRefusal(db, c, input).None? <==> Schedulable(db, c, input)
  {
    hide StoredTermEnd, StrictDowngrade, OwnsExactly, Mirrors, GrantsDead;
    BillableInShape(db, clock, input.workspace, Running(c));
    if input.targetPlan in db.plans { TermEndsLater(db.plans[input.targetPlan].period, input.now.Plus(D.GRACE)); }
    if TargetSub(c, input.now.Plus(D.GRACE)) !in db.subs {
      NoGrantsYet(db.grants, db.subs, input.workspace, TargetSub(c, input.now.Plus(D.GRACE)));
    }
  }

  /** A downgrade of a running subscription is accepted exactly when its guards hold. */
  lemma ScheduledExactly(db: Database, clock: Micros, c: SubId, input: ScheduleInput)
    requires Inv(db, clock) && PhaseOf(db.subs, input.workspace) == Running(c)
    ensures c in db.subs && (ScheduleDowngrade(db, input).Success? <==> Schedulable(db, c, input))
    ensures ScheduleDowngrade(db, input).Success? ==>
      ScheduleFrom(db, c, input).Success? && ScheduleDowngrade(db, input) == ScheduleFrom(db, c, input)
  {
    hide ScheduleRefusal, LoadCurrent, PhaseOf, ScheduledTerm, ScheduledSubs, ScheduledGrants,
      ProjectScheduledDowngrade, Schedulable;
    InvShape(db, clock, input.workspace);
    WellFormedInv(db, clock);
    RunningIsActive(db, clock, input.workspace, c);
    LoadCurrentInShape(db, clock, input.workspace, Running(c), input.now);
    if input.workspace != 0 && input.targetPlan != 0 && input.expectedVersion != 0 && input.actor != 0
      && !input.now.Zero() {
      RefusedExactly(db, clock, c, input);
      if ScheduleRefusal(db, c, input).None? { ScheduleProjects(db, clock, c, input); }
    } else {
      Unschedulable(db, c, input);
    }
  }

  lemma RunningIsActive(db: Database, clock: Micros, w: nat, c: SubId)
    requires Shape(db, clock, w, Running(c))
    ensures c in db.subs && db.subs[c].status.Active? && RunningShape(db, clock, w, c)
  {
  }

  lemma Unschedulable(db: Database, c: SubId, input: ScheduleInput)
    requires c in db.subs
    requires input.workspace == 0 || input.targetPlan == 0 || input.expectedVersion == 0 || input.actor == 0
      || input.now.Zero()
    ensures !Schedulable(db, c, input)
  {
  }

  /**
   * A created schedule passes the schema's checks exactly when its subscription started in an earlier
   * stored microsecond.
   */
  lemma ScheduleEnforced(db: Database, clock: Micros, c: SubId, input: ScheduleInput)
    requires Inv(db, clock) && PhaseOf(db.subs, input.workspace) == Running(c) && AllBase(db.grants) && SchemaOk(db)
    requires c in db.subs && input.workspace != 0 && ScheduleFrom(db, c, input).Success?
    ensures SchemaOk(ScheduleFrom(db, c, input).value.0) <==> db.subs[c].startsAt < input.now.Stored()
  {
    hide ScheduleFrom, Inv, PhaseOf, AllBase, GrantStep, ScheduledTerm, ScheduledSubs, ScheduledGrants;
    ScheduleGrantStep(db, clock, c, input);
    ScheduleKeepsOthers(db, c, input);
    GrantStepChecks(db.grants, ScheduleFrom(db, c, input).value.0.grants, {}, 0);
    ScheduleAnswer(db, c, input);
    ScheduleSubChecks(db, c, input);
  }

  lemma ScheduleKeepsOthers(db: Database, c: SubId, input: ScheduleInput)
    requires c in db.subs && ScheduleFrom(db, c, input).Success?
    ensures OthersKept(db.grants, ScheduleFrom(db, c, input).value.0.grants)
  {
    hide ScheduleFrom, ScheduledTerm, ScheduleRefusal;
    ScheduleGrantTable(db, c, input);
  }

  lemma ScheduleSubChecks(db: Database, c: SubId, input: ScheduleInput)
    requires c in db.subs && SubRowsOk(db.subs) && input.targetPlan in db.plans && ScheduledTerm(db, input).Some?
    requires TargetSub(c, input.now.Plus(D.GRACE)) !in db.subs && c != TargetSub(c, input.now.Plus(D.GRACE))
    ensures SubRowsOk(ScheduledSubs(db.subs, c, input.workspace, input.targetPlan, input.now, ScheduledTerm(db, input).value))
       <==> db.subs[c].startsAt < input.now.Stored()
  {
    hide StoredTermEnd;
    TermEndsLater(db.plans[input.targetPlan].period, input.now.Plus(D.GRACE));
    var after := ScheduledSubs(db.subs, c, input.workspace, input.targetPlan, input.now,
      ScheduledTerm(db, input).value);
    assert SubscriptionChecks(after[c]) <==> db.subs[c].startsAt < input.now.Stored() by { assert SubscriptionChecks(db.subs[c]); }
  }

  /** Why a downgrade of a running subscription is refused: something missing, an unknown plan, or a conflict. */
  lemma RefusedDowngrades(db: Database, clock: Micros, c: SubId, input: ScheduleInput)
    requires Inv(db, clock) && PhaseOf(db.subs, input.workspace) == Running(c) && ScheduleDowngrade(db, input).Failure?
    ensures var (e, blank) := (ScheduleDowngrade(db, input).error,
                               input.workspace == 0 || input.targetPlan == 0 || input.expectedVersion == 0
                               || input.actor == 0 || input.now.Zero());
            && c in db.subs && (e.InvalidInput? <==> blank)
            && (e.NotFound? ==> input.targetPlan !in db.plans) && (!blank ==> e.NotFound? || e.Conflict?)
            && (!blank && db.subs[c].version == input.expectedVersion && input.now.After(db.subs[c].startsAt) ==>
                  (input.targetPlan !in db.plans ==> e.NotFound?))
  {
    hide LoadCurrent, PhaseOf, ScheduledTerm, ScheduledSubs, ScheduledGrants, HasShape, ProjectScheduledDowngrade;
    InvShape(db, clock, input.workspace);
    WellFormedInv(db, clock);
    RunningIsActive(db, clock, input.workspace, c);
    LoadCurrentInShape(db, clock, input.workspace, Running(c), input.now);
    if input.workspace != 0 && ScheduleRefusal(db, c, input).None? { ScheduleProjects(db, clock, c, input); }
  }

  /** The schema refuses the grant: it permits nothing, has an empty window, or was revoked before its start. */
  predicate GrantRefused(g: Grant) {
    || (g.limit == 0 && !g.sourceType.HardDeny?) || (g.endsAt.Some? && g.endsAt.value <= g.startsAt)
    || (g.revokedAt.Some? && g.revokedAt.value < g.startsAt)
  }

  /** The schema refuses the subscription: no version, an empty term, or a grace that ends before its term. */
  predicate SubscriptionRefused(s: Subscription) {
    || s.version == 0 || (s.termEndsAt.Some? && s.termEndsAt.value <= s.startsAt)
    || (s.termEndsAt.Some? && s.graceEndsAt.Some? && s.graceEndsAt.value < s.termEndsAt.value)
  }

  /** The checks hold exactly where no row is refused. */
  lemma SchemaExactly(db: Database)
    ensures SchemaOk(db) <==>
      && (forall k :: k in db.grants ==> !GrantRefused(db.grants[k]))
      && (forall id :: id in db.subs ==> !SubscriptionRefused(db.subs[id]))
  {
    assert forall k :: k in db.grants ==> (GrantChecks(db.grants[k]) <==> !GrantRefused(db.grants[k]));
    assert forall id :: id in db.subs ==> (SubscriptionChecks(db.subs[id]) <==> !SubscriptionRefused(db.subs[id]));
  }

  /** A transaction changes the store exactly if it succeeds and, where the checks are enforced, passes them. */
  lemma CommitsExactly<T>(checks: bool, db: Database, r: Result<(Database, T)>)
    ensures var commits := r.Success? && (checks ==> SchemaOk(r.value.0));
            && Committed(checks, db, r) == (if commits then r.value.0 else db)
            && Answer(checks, r) == (if commits then Success(r.value.1)
                                     else if r.Failure? then Failure(r.error) else Failure(SchemaViolation))
  {
  }
}
