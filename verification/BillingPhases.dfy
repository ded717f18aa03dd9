/** Every billing transaction keeps the invariant, with the phase it leaves each workspace in. */
module BillingPhases {
  import opened Foundations
  import opened Calendar
  import opened BillingModel
  import opened BillingSpec
  import opened BillingInvariant
  import opened BillingSteps
  import D = DomainEntitlement

  /** The workspace holds nothing but the subscription in control, whose grants are unrevoked. */
  ghost predicate Cleared(db: Database, clock: Micros, w: nat, keep: set<SubId>) {
    && SourceOff(db.sources, w, D.TargetKey)
    && ClearedRows(db.subs, db.grants, clock, w, keep)
  }

  ghost predicate ClearedRows(subs: Subs, grants: Grants, clock: Micros, w: nat, keep: set<SubId>) {
    && SubsClosed(subs, w, keep)
    && GrantsDead(grants, clock, w, keep)
    && (forall k :: k in grants && OwnedBy(k, w, keep) ==> grants[k].revokedAt.None?)
    && (forall id :: id in keep ==> id in subs && Billable(subs[id].status))
  }

  lemma SubsOfCancel(subs: Subs, orders: Orders, w: nat, keep: set<SubId>, ids: set<SubId>, now: Micros)
    requires OrdersOk(orders, subs) && SubsClosed(subs, w, keep)
    requires forall id :: id in ids && id in subs ==> subs[id].workspace == w
    ensures var subs' := CancelSubs(subs, ids, now);
            && OrdersOk(orders, subs') && SubsClosed(subs', w, keep - ids)
            && (forall v: nat :: v != w ==> SameSubs(subs, subs', v))
  {
  }

  lemma GrantsOkSubs(grants: Grants, subs: Subs, subs': Subs)
    requires GrantsOk(grants, subs)
    requires forall i :: i in subs ==> i in subs' && subs'[i].workspace == subs[i].workspace
    ensures GrantsOk(grants, subs')
  {
  }

  lemma UnrevokedInShape(db: Database, clock: Micros, w: nat, ph: Phase)
    requires WellFormed(db) && Shape(db, clock, w, ph)
    ensures var all := Keep(ph) + if ph.Downgrading? then {ph.target} else {};
            && SubsClosed(db.subs, w, all) && GrantsDead(db.grants, clock, w, all)
            && (forall k :: k in db.grants && OwnedBy(k, w, all) ==> db.grants[k].revokedAt.None?)
  {
    match ph
    case Idle =>
    case Running(c) =>
      var s := db.subs[c];
      OwnedUnrevoked(db.grants, db.subs, w, c, db.plans[s.plan].entitlements, s.startsAt, s.termEndsAt);
      assert {c} + {} == {c};
    case Downgrading(c, t) =>
      var s, n := db.subs[c], db.subs[t];
      OwnedUnrevoked(db.grants, db.subs, w, c, db.plans[s.plan].entitlements, s.startsAt, s.graceEndsAt);
      OwnedUnrevoked(db.grants, db.subs, w, t, db.plans[n.plan].entitlements, n.startsAt, n.termEndsAt);
      assert {c} + {t} == {c, t};
      assert forall k :: OwnedBy(k, w, {c, t}) ==> OwnedBy(k, w, {c}) || OwnedBy(k, w, {t});
  }

  lemma UnrevokedPart(grants: Grants, w: nat, all: set<SubId>, part: set<SubId>)
    requires part <= all && forall k :: k in grants && OwnedBy(k, w, all) ==> grants[k].revokedAt.None?
    ensures forall k :: k in grants && OwnedBy(k, w, part) ==> grants[k].revokedAt.None?
  {
  }

  lemma RevokeSpares(grants: Grants, w: nat, keep: set<SubId>, ids: set<SubId>, now: Micros)
    requires keep !! ids
    ensures var grants' := RevokeGrants(grants, w, ids, now);
            forall k :: k in grants' && OwnedBy(k, w, keep) ==> k in grants && grants'[k] == grants[k]
  {
  }

  /** Canceling a scheduled downgrade removes all future authority and leaves the subscription in control alone. */
  lemma CancelClears(db: Database, clock: Micros, w: nat, ph: Phase, now: Micros)
    requires WellFormed(db) && Shape(db, clock, w, ph)
    ensures var db' := CancelScheduled(db, w, now);
            && WellFormed(db') && OthersSame(db, db', w)
            && Cleared(db', Max(clock, now), w, Keep(ph))
            && db'.subs.Keys == db.subs.Keys
            && (!ph.Idle? ==> db'.subs[ph.current] == db.subs[ph.current])
  {
    BillableInShape(db, clock, w, ph);
    UnrevokedInShape(db, clock, w, ph);
    var pending := PendingIds(db.subs, w);
    assert ph.Downgrading? ==> ph.target != ph.current;
    CancelClearsRows(db, clock, w, Keep(ph), pending, now);
  }

  lemma CancelClearsRows(db: Database, clock: Micros, w: nat, keep: set<SubId>, pending: set<SubId>, now: Micros)
    requires WellFormed(db) && pending == PendingIds(db.subs, w) && keep !! pending
    requires forall id :: id in keep ==> id in db.subs && Billable(db.subs[id].status)
    requires SubsClosed(db.subs, w, keep + pending) && GrantsDead(db.grants, clock, w, keep + pending)
    requires forall k :: k in db.grants && OwnedBy(k, w, keep + pending) ==> db.grants[k].revokedAt.None?
    ensures var db' := CancelScheduled(db, w, now);
            && WellFormed(db') && OthersSame(db, db', w)
            && Cleared(db', Max(clock, now), w, keep)
  {
    hide RevokeGrants, ExpirePlanSource, OrdersOk, GrantsOk, PlansOk, SourcesOk, GrantsDead, SubsClosed, SourceOff,
      OwnedBy;
    var all := keep + pending;
    assert all - pending == keep;
    UnrevokedPart(db.grants, w, all, pending);
    UnrevokedPart(db.grants, w, all, keep);
    RevokeGrantsFrame(db.grants, db.subs, w, pending, now);
    RevokeSpares(db.grants, w, keep, pending, now);
    RevokeKills(db.grants, clock, w, all, pending, now);
    SubsOfCancel(db.subs, db.orders, w, all, pending, now);
    GrantsOkSubs(RevokeGrants(db.grants, w, pending, now), db.subs, CancelSubs(db.subs, pending, now));
    ExpireSource(db.sources, w, D.TargetKey);
  }

  lemma SubsOfActivation(subs: Subs, orders: Orders, w: nat, keep: set<SubId>, o: nat, plan: nat, now: Micros,
      end: Option<Micros>)
    requires OrdersOk(orders, subs) && SubsClosed(subs, w, keep) && OrderSub(o) !in subs && OrderSub(o) !in keep
    requires forall id :: id in keep && id in subs ==> Billable(subs[id].status)
    requires o in orders && orders[o].workspace == w && orders[o].status.OrderPaid?
    ensures var id := OrderSub(o);
            var expired := ExpireOthers(subs, w, id, now);
            var row := ActivatedRow(expired, id, w, plan, now, end);
            var subs' := expired[id := row];
            && row == Subscription(w, plan, SubscriptionStatus.Active, now, end, None, None, 1)
            && OrdersOk(orders, subs') && SubsClosed(subs', w, {id})
            && (forall v: nat :: v != w ==> SameSubs(subs, subs', v))
            && (forall i :: i in subs ==> i in subs' && subs'[i].workspace == subs[i].workspace)
  {
  }

  lemma OthersCompose(db: Database, db1: Database, db2: Database, w: nat)
    requires OthersSame(db, db1, w) && OthersSame(db1, db2, w)
    ensures OthersSame(db, db2, w)
  {
    forall v: nat | v != w
      ensures SameRows(db, db2, v)
    {
      assert SameRows(db, db1, v) && SameRows(db1, db2, v);
    }
  }

  /** What an activation leaves once the workspace has been cleared, before the domain projection. */
  ghost predicate Activated(plans: Plans, subs: Subs, grants: Grants, clock: Micros, w: nat, o: nat, plan: nat,
      at: Instant) {
    && plan in plans
    && OrderSub(o) in subs
    && var (now, end) := (at.Stored(), StoredTermEnd(plans[plan].period, at));
       && subs[OrderSub(o)] == Subscription(w, plan, SubscriptionStatus.Active, now, end, None, None, 1)
       && SubsClosed(subs, w, {OrderSub(o)})
       && GrantsDead(grants, clock, w, {OrderSub(o)})
       && OwnsExactly(grants, w, OrderSub(o), plans[plan].entitlements, now, end)
  }

  lemma ActivateCleared(plans: Plans, orders: Orders, subs: Subs, grants: Grants, clock: Micros, w: nat,
                        keep: set<SubId>, o: nat, at: Instant)
    requires OrdersOk(orders, subs) && GrantsOk(grants, subs) && ClearedRows(subs, grants, clock, w, keep)
      && at.Stored() <= clock
    requires o in orders && orders[o].workspace == w && orders[o].status.OrderPaid? && orders[o].plan in plans
    requires OrderSub(o) !in subs && OrderSub(o) !in keep
    ensures var plan := orders[o].plan;
            var id := OrderSub(o);
            var (now, end) := (at.Stored(), StoredTermEnd(plans[plan].period, at));
            var expired := ExpireOthers(subs, w, id, now);
            var subs' := expired[id := ActivatedRow(expired, id, w, plan, now, end)];
            var grants' := RevokeOthers(grants, w, id, now) + PlanGrants(w, id, plans[plan].entitlements, now, end);
            && OrdersOk(orders, subs') && GrantsOk(grants', subs')
            && Activated(plans, subs', grants', clock, w, o, plan, at)
            && (forall v: nat :: v != w ==> SameSubs(subs, subs', v))
            && OtherGrantsSame(grants, grants', w)
  {
    var id := OrderSub(o);
    var plan := orders[o].plan;
    var (now, end) := (at.Stored(), StoredTermEnd(plans[plan].period, at));
    var expired := ExpireOthers(subs, w, id, now);
    var subs' := expired[id := ActivatedRow(expired, id, w, plan, now, end)];
    SubsOfActivation(subs, orders, w, keep, o, plan, now, end);
    ActivateGrants(grants, subs, clock, w, keep, id, plans[plan].entitlements, now, end);
    RevokeOthersOk(grants, subs, w, id, now);
    AddPlanGrants(RevokeOthers(grants, w, id, now), subs, subs', w, id, plans[plan].entitlements, now, end);
  }

  /** The domain projection completes the shape of a running subscription. */
  lemma ProjectActivated(active: Database, clock: Micros, w: nat, o: nat, plan: nat, now: Instant)
    requires WellFormed(active) && Activated(active.plans, active.subs, active.grants, clock, w, o, plan, now)
      && !now.Zero()
    requires now.Stored() <= clock
    requires SourceOff(active.sources, w, D.TargetKey)
    requires ProjectDomainEntitlement(active.sources, w, DomainLimit(active.plans, plan),
      active.subs[OrderSub(o)]).Success?
    ensures var sources :=
              ProjectDomainEntitlement(active.sources, w, DomainLimit(active.plans, plan),
                active.subs[OrderSub(o)]).value;
            var db' := active.(sources := sources);
            WellFormed(db') && RunningShape(db', clock, w, OrderSub(o)) && OthersSame(active, db', w)
  {
    TermEndsLater(active.plans[plan].period, now);
    ProjectEntitlement(active.sources, w, active.plans, plan, active.subs[OrderSub(o)]);
  }

  /** Settling the order and invoice rows changes no phase. */
  lemma SettledOrderFrame(db: Database, clock: Micros, ph: Phase, o: nat, db': Database)
    requires o in db.orders && WellFormed(db) && Shape(db, clock, db.orders[o].workspace, ph)
    requires db' == db.(orders := db'.orders, invoices := db'.invoices)
    requires exists s :: db'.orders == SetOrder(db.orders, o, s) && (s.OrderPaid? || s.OrderRefunded?)
    ensures WellFormed(db') && Shape(db', clock, db.orders[o].workspace, ph)
    ensures OthersSame(db, db', db.orders[o].workspace)
    ensures OrderSub(o) !in db.subs ==> OrderSub(o) !in Keep(ph)
  {
    ShapeFrame(db, db', clock, clock, db.orders[o].workspace, ph);
  }

  /** Settling a paid order first clears the workspace. */
  lemma PaidClears(db: Database, clock: Micros, ph: Phase, o: nat, now: Micros)
    requires o in db.orders && WellFormed(db) && Shape(db, clock, db.orders[o].workspace, ph)
    requires OrderSub(o) !in db.subs
    ensures var w := db.orders[o].workspace;
            var paid := MarkPaid(db, o, now);
            var clear := CancelScheduled(paid, w, now);
            && WellFormed(clear) && OthersSame(db, clear, w)
            && Cleared(clear, Max(clock, now), w, Keep(ph))
            && OrderSub(o) !in clear.subs && OrderSub(o) !in Keep(ph)
  {
    var w := db.orders[o].workspace;
    var paid := MarkPaid(db, o, now);
    SettledOrderFrame(db, clock, ph, o, paid);
    CancelClears(paid, clock, w, ph, now);
    OthersCompose(db, paid, CancelScheduled(paid, w, now), w);
  }

  /** A paid order's subscription takes control, whatever the workspace held before. */
  lemma PaidTakesControl(db: Database, clock: Micros, ph: Phase, o: nat, now: Instant)
    requires o in db.orders && WellFormed(db) && Shape(db, clock, db.orders[o].workspace, ph) && !now.Zero()
    requires !db.orders[o].status.OrderPaid? && SettlePaid(db, o, now).Success?
    ensures var w := db.orders[o].workspace;
            var db' := SettlePaid(db, o, now).value.0;
            && WellFormed(db') && OthersSame(db, db', w)
            && RunningShape(db', Max(clock, now.Stored()), w, OrderSub(o))
  {
    hide Cleared, CancelScheduled, RunningShape, Shape;
    assert OrderSub(o) !in db.subs;
    PaidClears(db, clock, ph, o, now.Stored());
    PaidFromCleared(db, Max(clock, now.Stored()), Keep(ph), o, now);
  }

  lemma PaidFromCleared(db: Database, clock: Micros, keep: set<SubId>, o: nat, now: Instant)
    requires o in db.orders && !now.Zero() && now.Stored() <= clock && OrderSub(o) !in keep
    requires !db.orders[o].status.OrderPaid? && SettlePaid(db, o, now).Success?
    requires var w := db.orders[o].workspace;
             var paid := MarkPaid(db, o, now.Stored());
             var clear := CancelScheduled(paid, w, now.Stored());
             && WellFormed(clear) && OthersSame(db, clear, w) && Cleared(clear, clock, w, keep)
             && OrderSub(o) !in clear.subs
    ensures var w := db.orders[o].workspace;
            var db' := SettlePaid(db, o, now).value.0;
            && WellFormed(db') && OthersSame(db, db', w)
            && RunningShape(db', clock, w, OrderSub(o))
  {
    hide StoredTermEnd, PlanGrants, RevokeOthers, ExpireOthers, RunningShape, ProjectDomainEntitlement, CancelSubs,
      RevokeGrants, ExpirePlanSource;
    var w := db.orders[o].workspace;
    var paid := MarkPaid(db, o, now.Stored());
    var clear := CancelScheduled(paid, w, now.Stored());
    ActivateCleared(clear.plans, clear.orders, clear.subs, clear.grants, clock, w, keep, o, now);
    var active := Activate(paid, o, db.orders[o], now).value;
    ProjectActivated(active, clock, w, o, db.orders[o].plan, now);
    OthersCompose(db, clear, active, w);
    OthersCompose(db, active, SettlePaid(db, o, now).value.0, w);
  }
}
