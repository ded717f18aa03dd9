/**
 * What every reachable state of the billing tables looks like, workspace by workspace:
 * nothing in control, one subscription in control, or one in its grace with its target waiting.
 * The predicates speak of one table each, so that a step is judged table by table.
 */
module BillingInvariant {
  import opened Foundations
  import opened Calendar
  import opened BillingModel
  import opened BillingSpec
  import D = DomainEntitlement

  type Plans = map<nat, Plan>
  type Orders = map<nat, Order>
  type Subs = map<SubId, Subscription>
  type Grants = map<GrantKey, Grant>

  datatype Phase = Idle | Running(current: SubId) | Downgrading(current: SubId, target: SubId)

  /** The grant is out of force at t and at every later instant. */
  predicate DeadFrom(g: Grant, t: Micros) {
    || (g.revokedAt.Some? && g.revokedAt.value <= t)
    || (g.endsAt.Some? && g.endsAt.value <= t)
  }

  function KeyOf(g: Grant): GrantKey { GrantKey(g.workspace, g.capability, g.sourceType, g.sourceId) }

  predicate PlanOwned(k: SourceKey) { k.kind.Plan? && !k.key.OtherKey? }

  // ---------------------------------------------------------------- rows and references

  ghost predicate PlansOk(plans: Plans) {
    forall p, c :: p in plans && c in plans[p].entitlements ==> 1 <= plans[p].entitlements[c]
  }

  /** Every billing grant belongs to a subscription of its workspace. */
  ghost predicate GrantsOk(grants: Grants, subs: Subs) {
    forall k :: k in grants ==>
      && KeyOf(grants[k]) == k
      && (k.sourceType.Billing? ==>
            k.sourceId.SubRef? && k.sourceId.sub in subs && subs[k.sourceId.sub].workspace == k.workspace)
  }

  ghost predicate SourcesOk(sources: Sources) {
    forall k :: k in sources ==>
      && sources[k].workspace == k.workspace && sources[k].kind == k.kind && sources[k].key == k.key
      && (PlanOwned(k) ==> D.Valid(sources[k]))
  }

  /** Only a settled order has a subscription of its own, in the order's workspace. */
  ghost predicate OrdersOk(orders: Orders, subs: Subs) {
    && (forall o :: o in orders ==> orders[o].workspace != 0)
    && (forall o :: OrderSub(o) in subs ==>
          && o in orders
          && (orders[o].status.OrderPaid? || orders[o].status.OrderRefunded?)
          && subs[OrderSub(o)].workspace == orders[o].workspace)
  }

  ghost predicate WellFormed(db: Database) {
    && PlansOk(db.plans)
    && GrantsOk(db.grants, db.subs)
    && SourcesOk(db.sources)
    && OrdersOk(db.orders, db.subs)
  }

  // ---------------------------------------------------------------- phases of a workspace

  /** Subscriptions outside keep have been closed. */
  ghost predicate SubsClosed(subs: Subs, w: nat, keep: set<SubId>) {
    forall id :: id in subs && subs[id].workspace == w && id !in keep ==>
      subs[id].status.Canceled? || subs[id].status.Expired?
  }

  /** Billing grants outside keep are dead. */
  ghost predicate GrantsDead(grants: Grants, clock: Micros, w: nat, keep: set<SubId>) {
    forall k :: k in grants && k.workspace == w && k.sourceType.Billing? && !OwnedBy(k, w, keep) ==>
      DeadFrom(grants[k], clock)
  }

  /** The subscription has exactly its plan's grants, all with the same window and none revoked. */
  ghost predicate OwnsExactly(grants: Grants, w: nat, id: SubId, entitlements: map<Capability, nat>,
                              startsAt: Micros, endsAt: Option<Micros>) {
    forall c :: var k := OwnKey(w, c, id);
      && (k in grants <==> c in entitlements)
      && (k in grants ==> grants[k] == Grant(w, c, Billing, SubRef(id), entitlements[c], startsAt, endsAt, None))
  }

  ghost predicate SourceOff(sources: Sources, w: nat, key: D.Key) {
    PlanSourceKey(w, key) in sources ==> sources[PlanSourceKey(w, key)].status.Expired?
  }

  /** The domain source under key mirrors the plan's custom-domain grant. */
  ghost predicate Mirrors(sources: Sources, w: nat, key: D.Key, entitlements: map<Capability, nat>, startsAt: Micros,
                          endsAt: Option<Micros>, degradedAt: Option<Micros>, graceUntil: Option<Micros>) {
    if CustomDomains in entitlements then
      var k := PlanSourceKey(w, key);
      && entitlements[CustomDomains] <= MAX_UINT32
      && k in sources
      && var s := sources[k];
         && s.status.Active? && s.limit == entitlements[CustomDomains] && s.startsAt == startsAt
         && s.degradedAt == degradedAt && s.graceUntil == graceUntil
         && (degradedAt.None? ==> s.expiresAt == endsAt)
    else SourceOff(sources, w, key)
  }

  /** The subscription in control outside a downgrade. */
  ghost predicate RunningRow(plans: Plans, subs: Subs, w: nat, c: SubId) {
    && c in subs
    && var s := subs[c];
       && s.workspace == w && s.status.Active? && s.graceEndsAt.None? && s.startsAt != 0 && s.plan in plans
       && (s.termEndsAt.Some? ==> s.startsAt < s.termEndsAt.value)
  }

  /**
   * The subscription in its grace and the target that takes over at its end, under an id of an instant
   * stored as that end.
   */
  ghost predicate DowngradingRows(plans: Plans, subs: Subs, clock: Micros, w: nat, c: SubId, t: SubId) {
    && c in subs && t in subs
    && var s, n := subs[c], subs[t];
       && s.workspace == w && s.status.Grace? && s.startsAt != 0 && s.plan in plans
       && s.graceEndsAt.Some? && D.GRACE <= s.graceEndsAt.value
       && var e := s.graceEndsAt.value;
          && s.startsAt <= e - D.GRACE <= clock
          && s.termEndsAt == Some(e - D.GRACE)
          && t.TargetSub? && t.parent == c && t.effectiveAt.Stored() == e
          && n.workspace == w && n.status.Pending? && n.startsAt == e && n.plan in plans
          && n.graceEndsAt.None? && n.termEndsAt.Some? && e < n.termEndsAt.value
          && StrictDowngrade(s.plan, plans[s.plan], n.plan, plans[n.plan])
  }

  ghost predicate IdleShape(db: Database, clock: Micros, w: nat) {
    && SubsClosed(db.subs, w, {}) && GrantsDead(db.grants, clock, w, {})
    && SourceOff(db.sources, w, D.BillingKey) && SourceOff(db.sources, w, D.TargetKey)
  }

  ghost predicate RunningShape(db: Database, clock: Micros, w: nat, c: SubId) {
    && RunningRow(db.plans, db.subs, w, c) && db.subs[c].startsAt <= clock
    && var s := db.subs[c];
       var entitlements := db.plans[s.plan].entitlements;
       && OwnsExactly(db.grants, w, c, entitlements, s.startsAt, s.termEndsAt)
       && Mirrors(db.sources, w, D.BillingKey, entitlements, s.startsAt, s.termEndsAt, None, None)
       && SourceOff(db.sources, w, D.TargetKey)
       && SubsClosed(db.subs, w, {c}) && GrantsDead(db.grants, clock, w, {c})
  }

  ghost predicate DowngradingShape(db: Database, clock: Micros, w: nat, c: SubId, t: SubId) {
    && DowngradingRows(db.plans, db.subs, clock, w, c, t)
    && var s, n := db.subs[c], db.subs[t];
       var e := s.graceEndsAt.value;
       var before, after := db.plans[s.plan].entitlements, db.plans[n.plan].entitlements;
       && OwnsExactly(db.grants, w, c, before, s.startsAt, Some(e))
       && OwnsExactly(db.grants, w, t, after, e, n.termEndsAt)
       && Mirrors(db.sources, w, D.BillingKey, before, s.startsAt, None, Some(e - D.GRACE), Some(e))
       && Mirrors(db.sources, w, D.TargetKey, after, e, n.termEndsAt, None, None)
       && SubsClosed(db.subs, w, {c, t}) && GrantsDead(db.grants, clock, w, {c, t})
  }

  ghost predicate Shape(db: Database, clock: Micros, w: nat, ph: Phase) {
    match ph
    case Idle => IdleShape(db, clock, w)
    case Running(c) => RunningShape(db, clock, w, c)
    case Downgrading(c, t) => DowngradingShape(db, clock, w, c, t)
  }

  ghost predicate HasShape(db: Database, clock: Micros, w: nat) { exists ph :: Shape(db, clock, w, ph) }

  ghost predicate Inv(db: Database, clock: Micros) {
    WellFormed(db) && forall w: nat :: HasShape(db, clock, w)
  }

  lemma WellFormedInv(db: Database, clock: Micros)
    requires Inv(db, clock)
    ensures WellFormed(db)
  {
  }

  /** The subscription in control, as a set. */
  function Keep(ph: Phase): set<SubId> { if ph.Idle? then {} else {ph.current} }

  // ---------------------------------------------------------------- other workspaces

  ghost predicate SameSubs(subs: Subs, subs': Subs, w: nat) {
    && (forall id :: id in subs && subs[id].workspace == w ==> id in subs' && subs'[id] == subs[id])
    && (forall id :: id in subs' && subs'[id].workspace == w ==> id in subs && subs[id].workspace == w)
  }

  ghost predicate SameGrants(grants: Grants, grants': Grants, w: nat) {
    && (forall k :: k in grants && k.workspace == w ==> k in grants' && grants'[k] == grants[k])
    && (forall k :: k in grants' && k.workspace == w ==> k in grants)
  }

  ghost predicate SameSources(sources: Sources, sources': Sources, w: nat) {
    && (forall k :: k in sources && k.workspace == w ==> k in sources' && sources'[k] == sources[k])
    && (forall k :: k in sources' && k.workspace == w ==> k in sources)
  }

  ghost predicate SameRows(db: Database, db': Database, w: nat) {
    && db.plans == db'.plans
    && SameSubs(db.subs, db'.subs, w)
    && SameGrants(db.grants, db'.grants, w)
    && SameSources(db.sources, db'.sources, w)
  }

  ghost predicate OthersSame(db: Database, db': Database, w: nat) {
    forall v: nat :: v != w ==> SameRows(db, db', v)
  }

  lemma ShapeFrame(db: Database, db': Database, clock: Micros, clock': Micros, w: nat, ph: Phase)
    requires Shape(db, clock, w, ph) && SameRows(db, db', w) && clock <= clock'
    ensures Shape(db', clock', w, ph)
  {
  }

  /** A step on one workspace that keeps well-formedness and gives that workspace a shape keeps the invariant. */
  lemma InvStep(db: Database, db': Database, clock: Micros, clock': Micros, w: nat, ph: Phase)
    requires Inv(db, clock) && WellFormed(db') && OthersSame(db, db', w) && clock <= clock'
    requires Shape(db', clock', w, ph)
    ensures Inv(db', clock')
  {
    forall v: nat
      ensures HasShape(db', clock', v)
    {
      if v != w {
        assert HasShape(db, clock, v);
        var before :| Shape(db, clock, v, before);
        ShapeFrame(db, db', clock, clock', v, before);
      }
    }
  }

  // ---------------------------------------------------------------- the current subscription

  lemma BillableInShape(db: Database, clock: Micros, w: nat, ph: Phase)
    requires Shape(db, clock, w, ph)
    ensures BillableIds(db.subs, w) == Keep(ph)
    ensures PendingIds(db.subs, w) == if ph.Downgrading? then {ph.target} else {}
  {
  }

  /** The phase's target is due, and its id is not the one derived from the stored grace end. */
  ghost predicate Lost(subs: Subs, ph: Phase, now: Instant) {
    && ph.Downgrading? && ph.target in subs && ph.target.TargetSub?
    && !now.Before(subs[ph.target].startsAt) && !ph.target.effectiveAt.Whole()
  }

  /** Exactly what loading the current subscription finds; a target that is found is never refused. */
  lemma LoadCurrentInShape(db: Database, clock: Micros, w: nat, ph: Phase, now: Instant)
    requires WellFormed(db) && Shape(db, clock, w, ph)
    ensures ph.Idle? ==> LoadCurrent(db, w, now) == Failure(NotFound)
    ensures ph.Running? ==> LoadCurrent(db, w, now) == Success((db, ph.current))
    ensures ph.Downgrading? && now.Before(db.subs[ph.target].startsAt) ==>
      LoadCurrent(db, w, now) == Success((db, ph.current))
    ensures ph.Downgrading? && !now.Before(db.subs[ph.target].startsAt) && !Lost(db.subs, ph, now) ==>
      LoadCurrent(db, w, now).Success? && LoadCurrent(db, w, now).value.1 == ph.target
    ensures Lost(db.subs, ph, now) ==> LoadCurrent(db, w, now).Failure?
  {
    BillableInShape(db, clock, w, ph);
    assert DuePending(db.subs, w, now) <= PendingIds(db.subs, w);
    if !ph.Idle? {
      var id := Newest(db.subs, {ph.current});
      assert id == ph.current;
    }
  }
}
