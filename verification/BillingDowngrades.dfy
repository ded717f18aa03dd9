/** What schedules and promotions guarantee over whole runs. */
module BillingDowngrades {
  import opened Foundations
  import opened BillingModel
  import opened Calendar
  import opened BillingSpec
  import opened BillingInvariant
  import opened BillingSteps
  import opened BillingPhases
  import opened BillingTransitions
  import opened BillingRuns
  import opened BillingAgreement
  import D = DomainEntitlement

  // ---------------------------------------------------------------- exact handoff

  /** The live billing grants for one capability are exactly that one subscription's. */
  ghost predicate GivesAlone(db: Database, w: nat, c: Capability, t: Micros, id: SubId, limit: nat) {
    && (forall k :: LiveBilling(db.grants, w, c, t, k) <==> k == OwnKey(w, c, id))
    && OwnKey(w, c, id) in db.grants && db.grants[OwnKey(w, c, id)].limit == limit
  }

  /**
   * After a schedule every capability the target keeps is live through the old subscription alone up
   * to the grace end, through the target alone from that instant to the target's term end, and gone
   * after it; the limit never rises at the boundary, and a dropped capability ends there. The target's
   * term is the one its plan's period gives from the grace end on. Nothing is said of the old term's end:
   * the schedule replaces it.
   */
  lemma ExactHandoff(db: Database, clock: Micros, input: ScheduleInput, c: Capability, t: Micros)
    requires Inv(db, clock) && ScheduleDowngrade(db, input).Success? && ScheduleDowngrade(db, input).value.1.created
    requires clock <= t && input.now.Stored() <= t
    ensures var (db', schedule) := ScheduleDowngrade(db, input).value;
            && schedule.current in db'.subs && schedule.target in db'.subs
            && var (s, n) := (db'.subs[schedule.current], db'.subs[schedule.target]);
               && s.plan in db.plans && n.plan == input.targetPlan && n.plan in db.plans && n.termEndsAt.Some?
               && schedule.effectiveAt == Instant(input.now.at + 7 * 86_400_000_000, input.now.nanos)
               && schedule.effectiveAt.Stored() < n.termEndsAt.value
               && var (before, after) := (db.plans[s.plan].entitlements, db.plans[n.plan].entitlements);
                  var term := TermEnd(db.plans[n.plan].period, schedule.effectiveAt.at);
                  && term.Some?
                  && n.termEndsAt.value - schedule.effectiveAt.Stored() == term.value - schedule.effectiveAt.at
                  && (c in after ==> c in before && after[c] <= before[c])
                  && (c in before && t < schedule.effectiveAt.Stored() ==>
                        GivesAlone(db', input.workspace, c, t, schedule.current, before[c]))
                  && (c in after && schedule.effectiveAt.Stored() <= t < n.termEndsAt.value ==>
                        GivesAlone(db', input.workspace, c, t, schedule.target, after[c]))
                  && ((c !in before || (c !in after && schedule.effectiveAt.Stored() <= t) || n.termEndsAt.value <= t) ==>
                        forall k :: !LiveBilling(db'.grants, input.workspace, c, t, k))
  {
    hide ScheduleDowngrade, PhaseOf, Live, Inv, WellFormed, LiveBilling;
    var w := input.workspace;
    var (db', schedule) := ScheduleDowngrade(db, input).value;
    ScheduledPhase(db, clock, input);
    GrantTimeline(db', Max(clock, input.now.Stored()), w, Downgrading(schedule.current, schedule.target), c, t);
  }

  // ---------------------------------------------------------------- promotion is invisible

  ghost predicate Enumerates(ss: seq<D.Source>, sources: Sources, w: nat) {
    forall s :: s in ss <==> exists k :: k in sources && k.workspace == w && sources[k] == s
  }

  /** An offer of the workspace comes from one of billing's plan sources or from another source. */
  lemma OffersSplit(sources: Sources, w: nat, ss: seq<D.Source>, t: Micros, c: D.Class, limit: nat)
    requires Enumerates(ss, sources, w)
    ensures D.Offers(t, ss, c, limit) <==>
      || D.Offers(t, PlanSources(sources, w), c, limit)
      || exists k ::
        k in sources && k.workspace == w && !PlanOwned(k) && D.ClassOf(t, sources[k]) == c && sources[k].limit == limit
  {
  }

  /** What the plan sources offer is read off the controller. */
  lemma PlanOffers(db: Database, clock: Micros, w: nat, ph: Phase, t: Micros, c: D.Class, limit: nat)
    requires WellFormed(db) && Shape(db, clock, w, ph) && c != D.Ignored
    requires ph.Downgrading? ==> ph.target in db.subs && db.subs[ph.target].startsAt <= t
    ensures !ph.Idle? ==> ph.current in db.subs
    ensures var holder := Controller(db.subs, ph, t);
            D.Offers(t, PlanSources(db.sources, w), c, limit) <==>
              && Enjoys(db.plans, db.subs, holder, CustomDomains)
              && limit == db.plans[db.subs[holder.value].plan].entitlements[CustomDomains]
              && c == D.Regular
  {
    hide Shape, WellFormed, PlanSources;
    SourceTimeline(db, clock, w, ph, t);
  }

  /** A due target is found only under an id derived from a whole microsecond. */
  lemma FoundIsWhole(db: Database, clock: Micros, w: nat, c: SubId, n: SubId, now: Instant)
    requires Inv(db, clock) && PhaseOf(db.subs, w) == Downgrading(c, n) && n in db.subs
    requires !now.Before(db.subs[n].startsAt) && LoadCurrent(db, w, now).Success?
    ensures n.TargetSub? && n.effectiveAt.Whole()
  {
    hide LoadCurrent, PhaseOf;
    InvShape(db, clock, w);
    LoadCurrentInShape(db, clock, w, Downgrading(c, n), now);
  }

  /** A promotion touches no source but the two plan sources, which keep validating and never hold. */
  lemma PromotionKeepsOthers(db: Database, w: nat, c: SubId, t: SubId, now: Instant, clock: Micros)
    requires Inv(db, clock) && PhaseOf(db.subs, w) == Downgrading(c, t) && t in db.subs
    requires !now.Before(db.subs[t].startsAt) && t.TargetSub? && t.effectiveAt.Whole()
    ensures LoadCurrent(db, w, now).Success?
    ensures var sources' := LoadCurrent(db, w, now).value.0.sources;
            && (forall k :: !PlanOwned(k) ==> (k in db.sources <==> k in sources'))
            && (forall k :: !PlanOwned(k) && k in db.sources ==> sources'[k] == db.sources[k])
  {
    hide LoadCurrent, PhaseOf, DowngradingShape, WellFormed, HasShape;
    InvShape(db, clock, w);
    assert WellFormed(db) by { WellFormedInv(db, clock); }
    PromotionFacts(db, clock, w, c, t, now);
    PromotionSources(db.sources, DomainLimit(db.plans, db.subs[t].plan), db.subs[t]);
  }

  lemma PromotionSources(sources: Sources, limit: Option<nat>, target: Subscription)
    requires PromoteDomainTarget(sources, limit, target).Success?
    ensures var sources' := PromoteDomainTarget(sources, limit, target).value;
            && (forall k :: !PlanOwned(k) ==> (k in sources <==> k in sources'))
            && (forall k :: !PlanOwned(k) && k in sources ==> sources'[k] == sources[k])
  {
  }

  lemma SameHolds(sources: Sources, sources': Sources, w: nat, ss: seq<D.Source>, ss': seq<D.Source>, t: Micros)
    requires SourcesOk(sources) && SourcesOk(sources') && Enumerates(ss, sources, w) && Enumerates(ss', sources', w)
    requires !D.Held(t, PlanSources(sources, w)) && !D.Held(t, PlanSources(sources', w))
    requires forall k :: !PlanOwned(k) ==> (k in sources <==> k in sources')
    requires forall k :: !PlanOwned(k) && k in sources ==> sources'[k] == sources[k]
    ensures D.AllValid(ss) <==> D.AllValid(ss')
    ensures forall s :: D.SecurityHold(t, s) ==> (s in ss <==> s in ss')
  {
  }

  /**
   * Promotion does not show: whenever the store finds and promotes a due target, the grants are untouched
   * and, at every instant from the grace end on, the domain resolver authorises exactly the same from all
   * the workspace's sources, approvals and holds included.
   */
  lemma PromotionInvisible(db: Database, clock: Micros, w: nat, c: SubId, n: SubId, now: Instant, t: Micros,
                           ss: seq<D.Source>, ss': seq<D.Source>, request: Option<nat>)
    requires Inv(db, clock) && PhaseOf(db.subs, w) == Downgrading(c, n) && n in db.subs
    requires !now.Before(db.subs[n].startsAt) && db.subs[n].startsAt <= t
    requires LoadCurrent(db, w, now).Success? && Enumerates(ss, db.sources, w)
    requires Enumerates(ss', LoadCurrent(db, w, now).value.0.sources, w)
    ensures LoadCurrent(db, w, now).value.0.grants == db.grants
    ensures var (a, b) := (D.Resolve(t, ss, request), D.Resolve(t, ss', request));
            && (a.Success? <==> b.Success?)
            && (a.Success? ==> D.SameAuthority(a.value, b.value))
  {
    hide LoadCurrent, D.Resolve, Shape, HasShape, PhaseOf, PlanSources, GrantsOk, OrdersOk;
    var db' := LoadCurrent(db, w, now).value.0;
    var later := Max(clock, now.Stored());
    FoundIsWhole(db, clock, w, c, n, now);
    PromotionKeepsOthers(db, w, c, n, now, clock);
    PromotedRow(db, clock, w, c, n, now);
    PromotionKeepsInv(db, clock, w, c, n, now);
    InvShape(db, clock, w);
    InvShape(db', later, w);
    SourceTimeline(db, clock, w, Downgrading(c, n), t);
    SourceTimeline(db', later, w, Running(n), t);
    SameHolds(db.sources, db'.sources, w, ss, ss', t);
    forall cl: D.Class, limit: nat | cl != D.Ignored
      ensures D.Offers(t, ss, cl, limit) <==> D.Offers(t, ss', cl, limit)
    {
      OffersSplit(db.sources, w, ss, t, cl, limit);
      OffersSplit(db'.sources, w, ss', t, cl, limit);
      PlanOffers(db, clock, w, Downgrading(c, n), t, cl, limit);
      PlanOffers(db', later, w, Running(n), t, cl, limit);
    }
    D.SameOffersSameAuthority(t, ss, ss', request);
  }

  lemma PromotedRow(db: Database, clock: Micros, w: nat, c: SubId, n: SubId, now: Instant)
    requires Inv(db, clock) && PhaseOf(db.subs, w) == Downgrading(c, n) && n in db.subs
    requires !now.Before(db.subs[n].startsAt) && n.TargetSub? && n.effectiveAt.Whole()
    ensures LoadCurrent(db, w, now).Success?
    ensures var db' := LoadCurrent(db, w, now).value.0;
            && n in db'.subs && db'.subs[n] == Promoted(db.subs[n]) && db'.plans == db.plans
  {
    InvShape(db, clock, w);
    PromotionFacts(db, clock, w, c, n, now);
  }

  // ---------------------------------------------------------------- where the order of steps shows

  /**
   * A refund after the grace end depends on whether anyone has promoted the target yet: the refund reads
   * only stored statuses. Before promotion it ends the target too, after it the target stays in control.
   */
  lemma RefundDependsOnPromotion(db: Database, clock: Micros, o: nat, n: SubId, now: Instant)
    requires Inv(db, clock) && o in db.orders && db.orders[o].status.OrderPaid?
    requires PhaseOf(db.subs, db.orders[o].workspace) == Downgrading(OrderSub(o), n) && n in db.subs
    requires !now.Before(db.subs[n].startsAt) && n.TargetSub? && n.effectiveAt.Whole()
    ensures var (w, direct) := (db.orders[o].workspace, SettleRefunded(db, o, now.Stored()));
            direct.Success? && PhaseOf(direct.value.subs, w).Idle?
    ensures var w := db.orders[o].workspace;
            var loaded := LoadCurrent(db, w, now);
            && loaded.Success? && o in loaded.value.0.orders
            && var later := SettleRefunded(loaded.value.0, o, now.Stored());
               later.Success? && PhaseOf(later.value.subs, w) == Running(n)
  {
    hide SettleRefunded, LoadCurrent, Shape;
    var w := db.orders[o].workspace;
    RefundIdles(db, clock, o, n, now.Stored());
    PromotionKeepsInv(db, clock, w, OrderSub(o), n, now);
    RefundKeepsTarget(LoadCurrent(db, w, now).value.0, Max(clock, now.Stored()), o, n, now.Stored());
  }

  lemma RefundIdles(db: Database, clock: Micros, o: nat, n: SubId, now: Micros)
    requires Inv(db, clock) && o in db.orders && db.orders[o].status.OrderPaid?
    requires PhaseOf(db.subs, db.orders[o].workspace) == Downgrading(OrderSub(o), n)
    ensures SettleRefunded(db, o, now).Success?
      && PhaseOf(SettleRefunded(db, o, now).value.subs, db.orders[o].workspace).Idle?
  {
    hide SettleRefunded, PhaseOf;
    var w := db.orders[o].workspace;
    InvShape(db, clock, w);
    RefundEndsControl(db, clock, PhaseOf(db.subs, w), o, now);
    PhaseOfShape(SettleRefunded(db, o, now).value, Max(clock, now), w, Idle);
  }

  lemma RefundKeepsTarget(db: Database, clock: Micros, o: nat, n: SubId, now: Micros)
    requires Inv(db, clock) && o in db.orders && db.orders[o].status.OrderPaid? && n != OrderSub(o)
    requires PhaseOf(db.subs, db.orders[o].workspace) == Running(n)
    ensures SettleRefunded(db, o, now).Success?
    ensures PhaseOf(SettleRefunded(db, o, now).value.subs, db.orders[o].workspace) == Running(n)
  {
    hide SettleRefunded, PhaseOf;
    var w := db.orders[o].workspace;
    InvShape(db, clock, w);
    BillableInShape(db, clock, w, Running(n));
    assert OrderSub(o) !in BillableIds(db.subs, w);
    RefundKeepsPhase(db, clock, Running(n), o, now);
    PhaseOfShape(SettleRefunded(db, o, now).value, clock, w, Running(n));
  }

  /**
   * A schedule may follow the end of the current term: then nothing was live any more, and the accepted
   * schedule makes every capability of the old plan live again until its grace end.
   */
  lemma ScheduleRevivesLapsedTerm(db: Database, clock: Micros, c: SubId, input: ScheduleInput, cap: Capability,
      t: Micros)
    requires Inv(db, clock) && clock <= input.now.Stored() && PhaseOf(db.subs, input.workspace) == Running(c)
    requires c in db.subs && D.Ended(db.subs[c].termEndsAt, input.now.Stored())
    requires ScheduleDowngrade(db, input).Success? && input.now.Stored() <= t < input.now.Stored() + D.GRACE
    requires db.subs[c].plan in db.plans && cap in db.plans[db.subs[c].plan].entitlements
    ensures forall k :: !LiveBilling(db.grants, input.workspace, cap, input.now.Stored(), k)
    ensures GivesAlone(ScheduleDowngrade(db, input).value.0, input.workspace, cap, t, c,
                       db.plans[db.subs[c].plan].entitlements[cap])
  {
    var w := input.workspace;
    InvShape(db, clock, w);
    GrantTimeline(db, clock, w, Running(c), cap, input.now.Stored());
    RunningSchedule(db, clock, c, input);
    hide ScheduleDowngrade, PhaseOf, Inv, Shape, Live;
    ExactHandoff(db, clock, input, cap, t);
  }

  lemma RunningSchedule(db: Database, clock: Micros, c: SubId, input: ScheduleInput)
    requires Inv(db, clock) && PhaseOf(db.subs, input.workspace) == Running(c) && ScheduleDowngrade(db, input).Success?
    ensures c in db.subs
    ensures var (db', schedule) := ScheduleDowngrade(db, input).value;
            schedule.created && schedule.current == c && c in db'.subs && db'.subs[c].plan == db.subs[c].plan
  {
    InvShape(db, clock, input.workspace);
    ScheduleCases(db, input);
    hide ScheduleDowngrade, ScheduleFrom, LoadCurrent, PhaseOf;
    LoadKeepsInv(db, clock, input.workspace, input.now);
    ScheduleAnswer(db, c, input);
  }
}
