/**
 * The two ledgers. From the clock on, live billing grants and the domain resolver both follow one
 * controller per instant; schedules hand it over at the grace end and promotion does not show.
 */
module BillingAgreement {
  import opened Foundations
  import opened BillingModel
  import opened BillingSpec
  import opened BillingInvariant
  import opened BillingSteps
  import opened BillingPhases
  import opened BillingTransitions
  import opened BillingRuns
  import B = BillingEntitlement
  import D = DomainEntitlement

  // ---------------------------------------------------------------- one controller per instant

  /** Whose plan a workspace enjoys at an instant, given its phase. */
  ghost function Controller(subs: Subs, ph: Phase, t: Micros): Option<SubId>
    requires !ph.Idle? ==> ph.current in subs
    requires ph.Downgrading? ==> ph.target in subs
  {
    match ph
    case Idle => None
    case Running(c) => if subs[c].startsAt <= t && !D.Ended(subs[c].termEndsAt, t) then Some(c) else None
    case Downgrading(c, n) =>
      if t < subs[n].startsAt then (if subs[c].startsAt <= t then Some(c) else None)
      else if D.Ended(subs[n].termEndsAt, t) then None else Some(n)
  }

  ghost predicate LiveBilling(grants: Grants, w: nat, c: Capability, t: Micros, k: GrantKey) {
    k in grants && k.workspace == w && k.capability == c && k.sourceType.Billing? && Live(grants[k], t)
  }

  /** What a plan gives at an instant through the subscription in control. */
  ghost predicate Enjoys(plans: Plans, subs: Subs, holder: Option<SubId>, c: Capability) {
    holder.Some? && holder.value in subs && subs[holder.value].plan in plans
    && c in plans[subs[holder.value].plan].entitlements
  }

  lemma ShapeHasRows(db: Database, clock: Micros, w: nat, ph: Phase)
    requires Shape(db, clock, w, ph)
    ensures !ph.Idle? ==> ph.current in db.subs
    ensures ph.Downgrading? ==> ph.target in db.subs
  {
  }

  lemma OnlyOwned(grants: Grants, subs: Subs, clock: Micros, w: nat, keep: set<SubId>, c: Capability, t: Micros,
      k: GrantKey)
    requires GrantsOk(grants, subs) && GrantsDead(grants, clock, w, keep) && clock <= t
    requires LiveBilling(grants, w, c, t, k)
    ensures k.sourceId.SubRef? && k.sourceId.sub in keep && k == OwnKey(w, c, k.sourceId.sub)
  {
  }

  /** A subscription's grants are live exactly in their window. */
  lemma OwnedLive(grants: Grants, w: nat, id: SubId, entitlements: map<Capability, nat>, s: Micros, e: Option<Micros>,
                  c: Capability, t: Micros)
    requires OwnsExactly(grants, w, id, entitlements, s, e)
    ensures LiveBilling(grants, w, c, t, OwnKey(w, c, id)) <==> c in entitlements && s <= t && !D.Ended(e, t)
    ensures LiveBilling(grants, w, c, t, OwnKey(w, c, id)) ==> grants[OwnKey(w, c, id)].limit == entitlements[c]
  {
  }

  /**
   * From the clock on, the live billing grants of a workspace are exactly the controller's plan:
   * for each capability one grant, the controller's, and none when nobody is in control.
   */
  lemma GrantTimeline(db: Database, clock: Micros, w: nat, ph: Phase, c: Capability, t: Micros)
    requires WellFormed(db) && Shape(db, clock, w, ph) && clock <= t
    ensures !ph.Idle? ==> ph.current in db.subs
    ensures ph.Downgrading? ==> ph.target in db.subs
    ensures var holder := Controller(db.subs, ph, t);
            && (forall k :: LiveBilling(db.grants, w, c, t, k) <==>
                  Enjoys(db.plans, db.subs, holder, c) && k == OwnKey(w, c, holder.value))
            && (Enjoys(db.plans, db.subs, holder, c) ==>
                  OwnKey(w, c, holder.value) in db.grants
                  && db.grants[OwnKey(w, c, holder.value)].limit
                    == db.plans[db.subs[holder.value].plan].entitlements[c])
  {
    hide OrdersOk, SourcesOk, Mirrors, SourceOff, SubsClosed;
    ShapeHasRows(db, clock, w, ph);
    var all := Keep(ph) + if ph.Downgrading? then {ph.target} else {};
    UnrevokedInShape(db, clock, w, ph);
    forall k | LiveBilling(db.grants, w, c, t, k)
      ensures k.sourceId.SubRef? && k.sourceId.sub in all && k == OwnKey(w, c, k.sourceId.sub)
    {
      OnlyOwned(db.grants, db.subs, clock, w, all, c, t, k);
    }
    match ph
    case Idle =>
    case Running(r) =>
      var s := db.subs[r];
      OwnedLive(db.grants, w, r, db.plans[s.plan].entitlements, s.startsAt, s.termEndsAt, c, t);
    case Downgrading(r, n) =>
      var s, after := db.subs[r], db.subs[n];
      OwnedLive(db.grants, w, r, db.plans[s.plan].entitlements, s.startsAt, s.graceEndsAt, c, t);
      OwnedLive(db.grants, w, n, db.plans[after.plan].entitlements, after.startsAt, after.termEndsAt, c, t);
  }

  // ---------------------------------------------------------------- the domain resolver's side

  /** The plan sources billing maintains for a workspace. */
  function PlanSources(sources: Sources, w: nat): (r: seq<D.Source>)
    ensures forall s :: s in r <==>
      || (PlanSourceKey(w, D.BillingKey) in sources && s == sources[PlanSourceKey(w, D.BillingKey)])
      || (PlanSourceKey(w, D.TargetKey) in sources && s == sources[PlanSourceKey(w, D.TargetKey)])
  {
    var b, n := PlanSourceKey(w, D.BillingKey), PlanSourceKey(w, D.TargetKey);
    (if b in sources then [sources[b]] else []) + (if n in sources then [sources[n]] else [])
  }

  /** What one mirrored source contributes at an instant. */
  lemma MirroredClass(sources: Sources, w: nat, key: D.Key, entitlements: map<Capability, nat>, s: Micros, e: Option<Micros>,
                      d: Option<Micros>, g: Option<Micros>, t: Micros)
    requires Mirrors(sources, w, key, entitlements, s, e, d, g) && PlanSourceKey(w, key) in sources
    requires d.Some? ==> d.value <= t
    ensures var cl := D.ClassOf(t, sources[PlanSourceKey(w, key)]);
            && !D.SecurityHold(t, sources[PlanSourceKey(w, key)])
            && (cl.Regular? <==> CustomDomains in entitlements && s <= t && d.None? && !D.Ended(e, t))
            && (cl.Grace? <==> CustomDomains in entitlements && s <= t && d.Some? && g.Some? && t < g.value)
  {
  }

  lemma OffClass(sources: Sources, w: nat, key: D.Key, t: Micros)
    requires SourceOff(sources, w, key) && PlanSourceKey(w, key) in sources
    ensures D.ClassOf(t, sources[PlanSourceKey(w, key)]).Ignored? && !D.SecurityHold(t, sources[PlanSourceKey(w, key)])
  {
  }

  /** Whether the workspace is inside the grace of a downgrade at an instant. */
  ghost predicate InGrace(subs: Subs, ph: Phase, t: Micros)
    requires ph.Downgrading? ==> ph.target in subs
  {
    ph.Downgrading? && t < subs[ph.target].startsAt
  }

  /** The classes of the two plan sources, phase by phase. */
  lemma SourceTimeline(db: Database, clock: Micros, w: nat, ph: Phase, t: Micros)
    requires WellFormed(db) && Shape(db, clock, w, ph)
    requires ph.Downgrading? ==> ph.target in db.subs && db.subs[ph.target].startsAt <= t + D.GRACE
    ensures !ph.Idle? ==> ph.current in db.subs
    ensures ph.Downgrading? ==> ph.target in db.subs
    ensures var ss := PlanSources(db.sources, w);
            var holder := Controller(db.subs, ph, t);
            && D.AllValid(ss) && !D.Held(t, ss)
            && (forall s :: s in ss && !D.ClassOf(t, s).Ignored? ==>
                  && Enjoys(db.plans, db.subs, holder, CustomDomains)
                  && s.limit == db.plans[db.subs[holder.value].plan].entitlements[CustomDomains]
                  && D.ClassOf(t, s) == if InGrace(db.subs, ph, t) then D.Grace else D.Regular)
            && (Enjoys(db.plans, db.subs, holder, CustomDomains) ==> exists s :: s in ss && !D.ClassOf(t, s).Ignored?)
  {
    hide GrantsOk, OrdersOk, SubsClosed, GrantsDead, OwnsExactly;
    ShapeHasRows(db, clock, w, ph);
    var b, n := PlanSourceKey(w, D.BillingKey), PlanSourceKey(w, D.TargetKey);
    match ph
    case Idle =>
      if b in db.sources { OffClass(db.sources, w, D.BillingKey, t); }
      if n in db.sources { OffClass(db.sources, w, D.TargetKey, t); }
    case Running(r) =>
      var s := db.subs[r];
      if b in db.sources {
        MirroredClass(db.sources, w, D.BillingKey, db.plans[s.plan].entitlements, s.startsAt, s.termEndsAt, None,
          None, t);
      }
      if n in db.sources { OffClass(db.sources, w, D.TargetKey, t); }
    case Downgrading(r, next) =>
      var s, after := db.subs[r], db.subs[next];
      if b in db.sources {
        MirroredClass(db.sources, w, D.BillingKey, db.plans[s.plan].entitlements, s.startsAt, None,
                      Some(after.startsAt - D.GRACE), Some(after.startsAt), t);
      }
      if n in db.sources {
        MirroredClass(db.sources, w, D.TargetKey, db.plans[after.plan].entitlements, after.startsAt,
          after.termEndsAt, None, None, t);
      }
  }

  lemma GraceStarted(db: Database, clock: Micros, w: nat, ph: Phase, t: Micros)
    requires Shape(db, clock, w, ph) && clock <= t
    ensures ph.Downgrading? ==> ph.target in db.subs && db.subs[ph.target].startsAt <= t + D.GRACE
  {
  }

  /** The resolver's answer on the plan sources alone, read off the controller. */
  lemma DomainTimeline(db: Database, clock: Micros, w: nat, ph: Phase, t: Micros)
    requires WellFormed(db) && Shape(db, clock, w, ph) && clock <= t
    ensures !ph.Idle? ==> ph.current in db.subs
    ensures ph.Downgrading? ==> ph.target in db.subs
    ensures var r := D.Resolve(t, PlanSources(db.sources, w), None);
            var holder := Controller(db.subs, ph, t);
            && r.Success?
            && (r.value.routingAllowed <==> Enjoys(db.plans, db.subs, holder, CustomDomains))
            && (r.value.routingAllowed ==>
                  r.value.limit == db.plans[db.subs[holder.value].plan].entitlements[CustomDomains])
            && (!r.value.routingAllowed ==> r.value.limit == 0)
            && (r.value.gracePeriod <==> r.value.routingAllowed && InGrace(db.subs, ph, t))
            && (r.value.mutationAllowed <==> r.value.routingAllowed && !InGrace(db.subs, ph, t))
  {
    GraceStarted(db, clock, w, ph, t);
    hide Shape, WellFormed, D.Resolve;
    SourceTimeline(db, clock, w, ph, t);
    D.ResolveMeaning(t, PlanSources(db.sources, w), None);
  }

  // ---------------------------------------------------------------- the ledgers agree

  /**
   * The largest live billing grant for custom domains is the routing limit of the plan sources, or both
   * give nothing.
   */
  ghost predicate Agree(db: Database, w: nat, t: Micros) {
    var r := D.Resolve(t, PlanSources(db.sources, w), None);
    && r.Success?
    && (r.value.routingAllowed <==> exists k :: LiveBilling(db.grants, w, CustomDomains, t, k))
    && (forall k :: LiveBilling(db.grants, w, CustomDomains, t, k) ==> db.grants[k].limit <= r.value.limit)
    && (r.value.routingAllowed ==>
          exists k :: LiveBilling(db.grants, w, CustomDomains, t, k) && db.grants[k].limit == r.value.limit)
    && (!r.value.routingAllowed ==> r.value.limit == 0)
  }

  lemma InvAgrees(db: Database, clock: Micros, w: nat, t: Micros)
    requires Inv(db, clock) && clock <= t
    ensures Agree(db, w, t)
  {
    var ph := PhaseOf(db.subs, w);
    InvShape(db, clock, w);
    hide Shape, WellFormed, D.Resolve, Live, PhaseOf;
    GrantTimeline(db, clock, w, ph, CustomDomains, t);
    DomainTimeline(db, clock, w, ph, t);
    var holder := Controller(db.subs, ph, t);
    if Enjoys(db.plans, db.subs, holder, CustomDomains) {
      assert LiveBilling(db.grants, w, CustomDomains, t, OwnKey(w, CustomDomains, holder.value));
    }
  }

  /** The two ledgers agree in every state any run reaches, at every instant from its clock on. */
  lemma LedgersAgree(checks: bool, db: Database, steps: seq<Step>, w: nat, t: Micros)
    requires Initial(db) && Clock(steps) <= t
    ensures Agree(Run(checks, db, steps), w, t)
  {
    RunKeepsInv(checks, db, steps);
    InvAgrees(Run(checks, db, steps), Clock(steps), w, t);
  }

  /** The same with both resolvers: on the billing grants of a workspace they allow the same and give the same limit. */
  lemma ResolversAgree(checks: bool, db: Database, steps: seq<Step>, w: nat, t: Micros, gs: seq<Grant>)
    requires Initial(db) && Clock(steps) <= t
    requires var grants := Run(checks, db, steps).grants;
             forall g :: g in gs <==>
               exists k :: k in grants && k.workspace == w && k.capability == CustomDomains && k.sourceType.Billing?
                 && grants[k] == g
    requires forall g :: g in gs ==> ValidGrant(g)
    ensures var b := B.Resolve(t, w, CustomDomains, gs);
            var d := D.Resolve(t, PlanSources(Run(checks, db, steps).sources, w), None);
            && b.Success? && d.Success?
            && b.value.allowed == d.value.routingAllowed
            && b.value.limit == d.value.limit
  {
    RunKeepsInv(checks, db, steps);
    var run := Run(checks, db, steps);
    assert GrantsOk(run.grants, run.subs);
    InvAgrees(run, Clock(steps), w, t);
    hide Inv, Run, D.Resolve, B.Resolve, PlanSources;
    B.ResolveMeaning(t, w, CustomDomains, gs);
    var d := D.Resolve(t, PlanSources(run.sources, w), None).value;
    forall g | g in gs
      ensures !g.sourceType.HardDeny?
      ensures B.Applies(t, w, CustomDomains, g) <==> Live(g, t)
      ensures Live(g, t) ==> g.limit <= d.limit && d.routingAllowed
    {
      var k :| k in run.grants && k.workspace == w && k.capability == CustomDomains && k.sourceType.Billing?
        && run.grants[k] == g;
      assert KeyOf(g) == k;
      if Live(g, t) { assert LiveBilling(run.grants, w, CustomDomains, t, k); }
    }
    if d.routingAllowed {
      var k :| LiveBilling(run.grants, w, CustomDomains, t, k) && run.grants[k].limit == d.limit;
      assert run.grants[k] in gs;
    }
  }
}
