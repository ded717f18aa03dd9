/** Refunds, schedules and promotions, phase by phase. */
module BillingTransitions {
  import opened Foundations
  import opened Calendar
  import opened BillingModel
  import opened BillingSpec
  import opened BillingInvariant
  import opened BillingSteps
  import opened BillingPhases
  import D = DomainEntitlement

  // ---------------------------------------------------------------- refunds

  lemma CancelOwnRows(subs: Subs, orders: Orders, w: nat, keep: set<SubId>, id: SubId, now: Micros)
    requires OrdersOk(orders, subs) && SubsClosed(subs, w, keep)
    ensures var subs' := CancelOwn(subs, id, w, now);
            && OrdersOk(orders, subs') && SubsClosed(subs', w, keep - {id})
            && (forall v: nat :: v != w ==> SameSubs(subs, subs', v))
            && (forall i :: i in subs <==> i in subs')
            && (forall i :: i in subs ==> subs'[i].workspace == subs[i].workspace && (i != id ==> subs'[i] == subs[i]))
  {
  }

  /** Revoking the controlling subscription of a cleared workspace leaves nothing in force. */
  lemma RevokeCleared(clear: Database, clock: Micros, w: nat, o: nat, now: Micros)
    requires WellFormed(clear) && Cleared(clear, clock, w, {OrderSub(o)}) && now <= clock
    ensures var revoked := RevokeSubscription(clear, o, w, now);
            var db' := revoked.(sources := ExpirePlanSource(revoked.sources, w, D.BillingKey));
            && WellFormed(db') && OthersSame(clear, db', w) && IdleShape(db', clock, w)
  {
    var id := OrderSub(o);
    CancelOwnRows(clear.subs, clear.orders, w, {id}, id, now);
    RevokeGrantsFrame(clear.grants, clear.subs, w, {id}, now);
    RevokeKills(clear.grants, clock, w, {id}, {id}, now);
    GrantsOkSubs(RevokeGrants(clear.grants, w, {id}, now), clear.subs, CancelOwn(clear.subs, id, w, now));
    ExpireSource(clear.sources, w, D.BillingKey);
    assert {id} - {id} == {};
  }

  /** Refunding the subscription in control ends the schedule, the grants and both domain sources. */
  lemma RefundEndsControl(db: Database, clock: Micros, ph: Phase, o: nat, now: Micros)
    requires o in db.orders && db.orders[o].status.OrderPaid?
    requires WellFormed(db) && Shape(db, clock, db.orders[o].workspace, ph)
    requires ControlsCurrent(db.subs, o, db.orders[o].workspace)
    ensures var w := db.orders[o].workspace;
            var r := SettleRefunded(db, o, now);
            && r.Success? && WellFormed(r.value) && OthersSame(db, r.value, w)
            && IdleShape(r.value, Max(clock, now), w)
  {
    var w := db.orders[o].workspace;
    BillableInShape(db, clock, w, ph);
    assert OrderSub(o) in BillableIds(db.subs, w);
    assert Keep(ph) == {OrderSub(o)};
    var refunding := MarkRefunded(db, o, now);
    SettledOrderFrame(db, clock, ph, o, refunding);
    CancelClears(refunding, clock, w, ph, now);
    var clear := CancelScheduled(refunding, w, now);
    RevokeCleared(clear, Max(clock, now), w, o, now);
    OthersCompose(db, refunding, clear, w);
    OthersCompose(db, clear, SettleRefunded(db, o, now).value, w);
  }

  lemma RevokeKeepsDead(grants: Grants, clock: Micros, w: nat, keep: set<SubId>, ids: set<SubId>, now: Micros)
    requires GrantsDead(grants, clock, w, keep)
    ensures GrantsDead(RevokeGrants(grants, w, ids, now), clock, w, keep)
  {
  }

  /** Revoking an outsider keeps the grants of the subscriptions a phase is made of. */
  lemma RevokeKeepsPhaseGrants(db: Database, clock: Micros, ph: Phase, w: nat, id: SubId, now: Micros)
    requires Shape(db, clock, w, ph) && id !in Keep(ph) && (ph.Downgrading? ==> id != ph.target)
    ensures Shape(db.(grants := RevokeGrants(db.grants, w, {id}, now)), clock, w, ph)
  {
    match ph
    case Idle =>
      RevokeKeepsDead(db.grants, clock, w, {}, {id}, now);
    case Running(c) =>
      var s := db.subs[c];
      RevokeKeepsDead(db.grants, clock, w, {c}, {id}, now);
      RevokeKeepsOwner(db.grants, w, {id}, now, c, db.plans[s.plan].entitlements, s.startsAt, s.termEndsAt);
    case Downgrading(c, t) =>
      var s, n := db.subs[c], db.subs[t];
      RevokeKeepsDead(db.grants, clock, w, {c, t}, {id}, now);
      RevokeKeepsOwner(db.grants, w, {id}, now, c, db.plans[s.plan].entitlements, s.startsAt, s.graceEndsAt);
      RevokeKeepsOwner(db.grants, w, {id}, now, t, db.plans[n.plan].entitlements, n.startsAt, n.termEndsAt);
  }

  lemma CancelKeepsPhaseSubs(db: Database, clock: Micros, ph: Phase, w: nat, id: SubId, now: Micros)
    requires Shape(db, clock, w, ph) && id !in Keep(ph) && (ph.Downgrading? ==> id != ph.target)
    ensures Shape(db.(subs := CancelOwn(db.subs, id, w, now)), clock, w, ph)
  {
  }

  /** Revoking a subscription that is not in control changes nothing that is in force. */
  lemma RevokeOutsider(db: Database, clock: Micros, ph: Phase, w: nat, o: nat, now: Micros)
    requires WellFormed(db) && Shape(db, clock, w, ph) && !ControlsCurrent(db.subs, o, w)
    ensures var db' := RevokeSubscription(db, o, w, now);
            && WellFormed(db') && OthersSame(db, db', w) && Shape(db', clock, w, ph)
  {
    var id := OrderSub(o);
    BillableInShape(db, clock, w, ph);
    assert id !in BillableIds(db.subs, w);
    CancelOwnRows(db.subs, db.orders, w, db.subs.Keys, id, now);
    RevokeGrantsFrame(db.grants, db.subs, w, {id}, now);
    GrantsOkSubs(RevokeGrants(db.grants, w, {id}, now), db.subs, CancelOwn(db.subs, id, w, now));
    var revoked := db.(grants := RevokeGrants(db.grants, w, {id}, now));
    RevokeKeepsPhaseGrants(db, clock, ph, w, id, now);
    CancelKeepsPhaseSubs(revoked, clock, ph, w, id, now);
    assert revoked.(subs := CancelOwn(db.subs, id, w, now)) == RevokeSubscription(db, o, w, now);
  }

  /** Refunding an order whose subscription is not in control keeps the phase of its workspace. */
  lemma RefundKeepsPhase(db: Database, clock: Micros, ph: Phase, o: nat, now: Micros)
    requires o in db.orders && db.orders[o].status.OrderPaid?
    requires WellFormed(db) && Shape(db, clock, db.orders[o].workspace, ph)
    requires !ControlsCurrent(db.subs, o, db.orders[o].workspace)
    ensures var w := db.orders[o].workspace;
            var r := SettleRefunded(db, o, now);
            && r.Success? && WellFormed(r.value) && OthersSame(db, r.value, w)
            && Shape(r.value, clock, w, ph)
  {
    var w := db.orders[o].workspace;
    var refunding := MarkRefunded(db, o, now);
    SettledOrderFrame(db, clock, ph, o, refunding);
    RevokeOutsider(refunding, clock, ph, w, o, now);
    OthersCompose(db, refunding, RevokeSubscription(refunding, o, w, now), w);
  }

  // ---------------------------------------------------------------- schedules

  lemma ScheduleSubs(plans: Plans, subs: Subs, orders: Orders, clock: Micros, w: nat, c: SubId, plan: nat,
      now: Instant, termEnd: Micros)
    requires OrdersOk(orders, subs) && SubsClosed(subs, w, {c}) && RunningRow(plans, subs, w, c)
    requires TargetSub(c, now.Plus(D.GRACE)) !in subs && now.Stored() + D.GRACE < termEnd
      && subs[c].startsAt <= now.Stored()
    requires plan in plans && StrictDowngrade(subs[c].plan, plans[subs[c].plan], plan, plans[plan])
    ensures var t := TargetSub(c, now.Plus(D.GRACE));
            var subs' := ScheduledSubs(subs, c, w, plan, now, termEnd);
            && OrdersOk(orders, subs') && SubsClosed(subs', w, {c, t})
            && DowngradingRows(plans, subs', Max(clock, now.Stored()), w, c, t)
            && (forall v: nat :: v != w ==> SameSubs(subs, subs', v))
            && (forall i :: i in subs ==> i in subs' && subs'[i].workspace == subs[i].workspace)
  {
  }

  lemma EndGrantsOk(grants: Grants, subs: Subs, w: nat, c: SubId, at: Micros)
    requires GrantsOk(grants, subs)
    ensures GrantsOk(EndGrants(grants, w, c, at), subs)
  {
  }

  lemma ScheduledGrantTable(grants: Grants, subs: Subs, subs': Subs, clock: Micros, w: nat, c: SubId, before: map<Capability, nat>,
                            after: map<Capability, nat>, now: Instant, termEnd: Option<Micros>)
    requires GrantsOk(grants, subs) && GrantsDead(grants, clock, w, {c}) && c in subs
    requires OwnsExactly(grants, w, c, before, subs[c].startsAt, subs[c].termEndsAt)
    requires TargetSub(c, now.Plus(D.GRACE)) !in subs && TargetSub(c, now.Plus(D.GRACE)) in subs'
    requires subs'[TargetSub(c, now.Plus(D.GRACE))].workspace == w
    requires forall i :: i in subs ==> i in subs' && subs'[i].workspace == subs[i].workspace
    ensures var (t, e) := (TargetSub(c, now.Plus(D.GRACE)), now.Stored() + D.GRACE);
            var grants' := ScheduledGrants(grants, w, c, after, now, termEnd);
            && GrantsOk(grants', subs') && OtherGrantsSame(grants, grants', w)
            && OwnsExactly(grants', w, c, before, subs[c].startsAt, Some(e))
            && OwnsExactly(grants', w, t, after, e, termEnd)
            && GrantsDead(grants', Max(clock, now.Stored()), w, {c, t})
  {
    var e := now.Stored() + D.GRACE;
    var t := TargetSub(c, now.Plus(D.GRACE));
    ScheduleGrants(grants, subs, clock, w, c, t, before, after, subs[c].startsAt, subs[c].termEndsAt, e, termEnd);
    EndGrantsOk(grants, subs, w, c, e);
    AddPlanGrants(EndGrants(grants, w, c, e), subs, subs', w, t, after, e, termEnd);
  }

  /** The domain sources a schedule leaves. */
  lemma ScheduledSourceTable(db: Database, clock: Micros, w: nat, c: SubId, plan: nat, now: Instant,
      termEnd: Option<Micros>, sources': Sources)
    requires WellFormed(db) && RunningShape(db, clock, w, c) && plan in db.plans && now.After(db.subs[c].startsAt)
    requires StrictDowngrade(db.subs[c].plan, db.plans[db.subs[c].plan], plan, db.plans[plan])
    requires ProjectScheduledDowngrade(db.sources, w, db.plans[db.subs[c].plan], db.plans[plan], now, termEnd)
             == Success(sources')
    ensures var (s, e) := (db.subs[c], now.Stored() + D.GRACE);
            && SourcesOk(sources') && OtherSourcesSame(db.sources, sources', w)
            && Mirrors(sources', w, D.BillingKey, db.plans[s.plan].entitlements, s.startsAt, None,
              Some(now.Stored()), Some(e))
            && Mirrors(sources', w, D.TargetKey, db.plans[plan].entitlements, e, termEnd, None, None)
  {
    var s := db.subs[c];
    ProjectSchedule(db.sources, w, db.plans[s.plan], db.plans[plan], s.startsAt, s.termEndsAt, now, termEnd);
  }

  /** The tests a successful schedule has passed. */
  lemma ScheduleAccepted(db: Database, c: SubId, input: ScheduleInput)
    requires c in db.subs && ScheduleRefusal(db, c, input).None?
    ensures var s := db.subs[c];
            && input.now.After(s.startsAt) && s.plan in db.plans && input.targetPlan in db.plans
            && StrictDowngrade(s.plan, db.plans[s.plan], input.targetPlan, db.plans[input.targetPlan])
            && TargetSub(c, input.now.Plus(D.GRACE)) !in db.subs
            && ScheduledTerm(db, input).Some?
  {
  }

  /** What a successful schedule answers and the subscription rows it leaves. */
  lemma ScheduleAnswer(db: Database, c: SubId, input: ScheduleInput)
    requires c in db.subs && ScheduleFrom(db, c, input).Success?
    ensures ScheduleRefusal(db, c, input).None? && ScheduledTerm(db, input).Some?
    ensures var (db', schedule) := ScheduleFrom(db, c, input).value;
            var (t, e) := (TargetSub(c, input.now.Plus(D.GRACE)), input.now.Stored() + D.GRACE);
            && schedule == Schedule(c, t, input.now.at, input.now.Plus(D.GRACE), true)
            && db'.subs == ScheduledSubs(db.subs, c, input.workspace, input.targetPlan, input.now,
              ScheduledTerm(db, input).value)
            && t in db'.subs && db'.subs[t].startsAt == e && db'.subs[t].plan == input.targetPlan
            && input.targetPlan in db.plans
            && var term := TermEnd(db.plans[input.targetPlan].period, input.now.at + D.GRACE);
               term.Some? && db'.subs[t].termEndsAt == Some(e + term.value - (input.now.at + D.GRACE))
  {
    hide ScheduleRefusal, ScheduledGrants, ProjectScheduledDowngrade, StrictDowngrade, TermEnd, StoredTermEnd;
    ScheduleAccepted(db, c, input);
    TermEndsLater(db.plans[input.targetPlan].period, input.now.Plus(D.GRACE));
  }

  /** A schedule takes a running workspace into its downgrade. */
  lemma ScheduleStarts(db: Database, clock: Micros, c: SubId, input: ScheduleInput)
    requires WellFormed(db) && RunningShape(db, clock, input.workspace, c)
    requires ScheduleFrom(db, c, input).Success?
    ensures var t := TargetSub(c, input.now.Plus(D.GRACE));
            var db' := ScheduleFrom(db, c, input).value.0;
            && WellFormed(db') && OthersSame(db, db', input.workspace)
            && DowngradingShape(db', Max(clock, input.now.Stored()), input.workspace, c, t)
  {
    hide ScheduledGrants, StoredTermEnd, ScheduledSubs, DowngradingShape, StrictDowngrade, ProjectScheduledDowngrade,
      ScheduleRefusal;
    ScheduleAccepted(db, c, input);
    ScheduledTables(db, ScheduleFrom(db, c, input).value.0, clock, input.workspace, c, input.targetPlan, input.now,
                    ScheduledTerm(db, input));
  }

  lemma ScheduledTables(db: Database, db': Database, clock: Micros, w: nat, c: SubId, plan: nat, now: Instant,
      termEnd: Option<Micros>)
    requires WellFormed(db) && RunningShape(db, clock, w, c)
    requires plan in db.plans && now.After(db.subs[c].startsAt) && TargetSub(c, now.Plus(D.GRACE)) !in db.subs
    requires StrictDowngrade(db.subs[c].plan, db.plans[db.subs[c].plan], plan, db.plans[plan])
    requires termEnd == StoredTermEnd(db.plans[plan].period, now.Plus(D.GRACE)) && termEnd.Some?
    requires db'.plans == db.plans && db'.orders == db.orders
    requires db'.subs == ScheduledSubs(db.subs, c, w, plan, now, termEnd.value)
    requires db'.grants == ScheduledGrants(db.grants, w, c, db.plans[plan].entitlements, now, termEnd)
    requires ProjectScheduledDowngrade(db.sources, w, db.plans[db.subs[c].plan], db.plans[plan], now, termEnd)
             == Success(db'.sources)
    ensures WellFormed(db') && OthersSame(db, db', w)
    ensures DowngradingShape(db', Max(clock, now.Stored()), w, c, TargetSub(c, now.Plus(D.GRACE)))
  {
    hide ScheduledGrants, PlanGrants, EndGrants;
    TermEndsLater(db.plans[plan].period, now.Plus(D.GRACE));
    ScheduleSubs(db.plans, db.subs, db.orders, clock, w, c, plan, now, termEnd.value);
    ScheduledGrantTable(db.grants, db.subs, db'.subs, clock, w, c, db.plans[db.subs[c].plan].entitlements,
                        db.plans[plan].entitlements, now, termEnd);
    ScheduledSourceTable(db, clock, w, c, plan, now, termEnd, db'.sources);
    ScheduledShape(db, db', clock, w, c, plan, now, termEnd);
  }

  /** Table by table, the shape of a downgrade. */
  lemma ScheduledShape(db: Database, db': Database, clock: Micros, w: nat, c: SubId, plan: nat, now: Instant,
      termEnd: Option<Micros>)
    requires PlansOk(db.plans) && db'.plans == db.plans && c in db.subs && plan in db.plans && termEnd.Some?
    requires OrdersOk(db'.orders, db'.subs) && GrantsOk(db'.grants, db'.subs) && SourcesOk(db'.sources)
    requires forall v: nat :: v != w ==> SameSubs(db.subs, db'.subs, v)
    requires OtherGrantsSame(db.grants, db'.grants, w) && OtherSourcesSame(db.sources, db'.sources, w)
    requires var (s, e, t) := (db.subs[c], now.Stored() + D.GRACE, TargetSub(c, now.Plus(D.GRACE)));
             && c in db'.subs && t in db'.subs && s.plan in db.plans
             && db'.subs[c] == GraceRow(s, now.Stored()) && db'.subs[t] == TargetRow(w, plan, e, termEnd.value)
             && DowngradingRows(db'.plans, db'.subs, Max(clock, now.Stored()), w, c, t)
             && SubsClosed(db'.subs, w, {c, t})
             && OwnsExactly(db'.grants, w, c, db.plans[s.plan].entitlements, s.startsAt, Some(e))
             && OwnsExactly(db'.grants, w, t, db.plans[plan].entitlements, e, termEnd)
             && GrantsDead(db'.grants, Max(clock, now.Stored()), w, {c, t})
             && Mirrors(db'.sources, w, D.BillingKey, db.plans[s.plan].entitlements, s.startsAt, None,
               Some(now.Stored()), Some(e))
             && Mirrors(db'.sources, w, D.TargetKey, db.plans[plan].entitlements, e, termEnd, None, None)
    ensures WellFormed(db') && OthersSame(db, db', w)
    ensures DowngradingShape(db', Max(clock, now.Stored()), w, c, TargetSub(c, now.Plus(D.GRACE)))
  {
  }

  // ---------------------------------------------------------------- promotion

  lemma PromoteSubs(subs: Subs, orders: Orders, w: nat, c: SubId, t: SubId)
    requires OrdersOk(orders, subs) && SubsClosed(subs, w, {c, t})
    requires c in subs && t in subs && c != t && subs[c].workspace == w && subs[t].workspace == w
    ensures var subs' := subs[c := subs[c].(status := SubscriptionStatus.Expired, version := subs[c].version + 1)]
                             [t := Promoted(subs[t])];
            && OrdersOk(orders, subs') && SubsClosed(subs', w, {t})
            && (forall v: nat :: v != w ==> SameSubs(subs, subs', v))
            && (forall i :: i in subs <==> i in subs')
            && (forall i :: i in subs ==> subs'[i].workspace == subs[i].workspace)
  {
  }

  /** Once the grace is over the old subscription's grants are dead. */
  lemma GraceEndsGrants(grants: Grants, subs: Subs, clock: Micros, w: nat, c: SubId, t: SubId, before: map<Capability, nat>,
                        s: Micros, e: Micros)
    requires GrantsOk(grants, subs) && GrantsDead(grants, clock, w, {c, t}) && e <= clock
    requires OwnsExactly(grants, w, c, before, s, Some(e))
    ensures GrantsDead(grants, clock, w, {t})
  {
    OwnedUnrevoked(grants, subs, w, c, before, s, Some(e));
    forall k | k in grants && k.workspace == w && k.sourceType.Billing? && !OwnedBy(k, w, {t})
      ensures DeadFrom(grants[k], clock)
    {
      if OwnedBy(k, w, {c}) { assert grants[k].endsAt == Some(e); }
    }
  }

  /**
   * What loading the current subscription does once the grace is over, if the target's id was derived from
   * a whole microsecond.
   */
  lemma PromotionFacts(db: Database, clock: Micros, w: nat, c: SubId, t: SubId, now: Instant)
    requires WellFormed(db) && DowngradingShape(db, clock, w, c, t) && t.effectiveAt.Whole()
      && !now.Before(db.subs[t].startsAt)
    ensures var s, n := db.subs[c], db.subs[t];
            var sources := PromoteDomainTarget(db.sources, DomainLimit(db.plans, n.plan), n);
            var expired := s.(status := SubscriptionStatus.Expired, version := s.version + 1);
            && c != t && sources.Success?
            && LoadCurrent(db, w, now)
               == Success((db.(sources := sources.value, subs := db.subs[c := expired][t := Promoted(n)]), t))
  {
    PromoteTarget(db.sources, db.plans, db.subs[t]);
    BillableInShape(db, clock, w, Downgrading(c, t));
    assert Newest(db.subs, {c}) == c;
  }

  /** A due promotion succeeds, hands control to the target and leaves every grant as it was. */
  lemma PromotionHandsOver(db: Database, clock: Micros, w: nat, c: SubId, t: SubId, now: Instant)
    requires WellFormed(db) && DowngradingShape(db, clock, w, c, t) && t.effectiveAt.Whole()
      && !now.Before(db.subs[t].startsAt)
    ensures LoadCurrent(db, w, now).Success?
    ensures var (db', id) := LoadCurrent(db, w, now).value;
            && id == t && db'.grants == db.grants && db' == db.(subs := db'.subs, sources := db'.sources)
            && WellFormed(db') && OthersSame(db, db', w)
            && RunningShape(db', Max(clock, now.Stored()), w, t)
  {
    PromotionFacts(db, clock, w, c, t, now);
    PromotedTables(db, LoadCurrent(db, w, now).value.0, clock, w, c, t, now);
  }

  lemma PromotedTables(db: Database, db': Database, clock: Micros, w: nat, c: SubId, t: SubId, now: Instant)
    requires WellFormed(db) && DowngradingShape(db, clock, w, c, t) && !now.Before(db.subs[t].startsAt) && c != t
    requires db'.plans == db.plans && db'.orders == db.orders && db'.grants == db.grants
    requires db'.subs == db.subs[c := db.subs[c].(status := SubscriptionStatus.Expired, version := db.subs[c].version + 1)]
                                [t := Promoted(db.subs[t])]
    requires PromoteDomainTarget(db.sources, DomainLimit(db.plans, db.subs[t].plan), db.subs[t]) == Success(db'.sources)
    ensures WellFormed(db') && OthersSame(db, db', w)
    ensures RunningShape(db', Max(clock, now.Stored()), w, t)
  {
    hide PromoteDomainTarget, OrdersOk, GrantsOk, PlansOk;
    var s, n := db.subs[c], db.subs[t];
    PromoteSubs(db.subs, db.orders, w, c, t);
    GraceEndsGrants(db.grants, db.subs, Max(clock, now.Stored()), w, c, t, db.plans[s.plan].entitlements, s.startsAt,
      n.startsAt);
    PromoteTarget(db.sources, db.plans, n);
    GrantsOkSubs(db.grants, db.subs, db'.subs);
  }
}
