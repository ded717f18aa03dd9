/** Row by row, what each accepted billing operation leaves (internal/billing/callbacks.go, downgrade*.go). */
module BillingWrites {
  import opened Foundations
  import opened Calendar
  import opened BillingModel
  import opened BillingSpec
  import opened BillingInvariant
  import opened BillingTransitions
  import opened BillingRuns
  import D = DomainEntitlement

  /** A term of the period that starts with a reading, both ends as stored: a calendar month or year, or no end. */
  ghost predicate TermOf(period: Period, start: Instant, end: Option<Micros>) {
    match period
    case OneTime => end.None?
    case Monthly =>
      var c := ToCivil(start.at);
      end == Some(start.Stored() + MonthLength(c.year, c.month) * 86_400_000_000)
    case Yearly =>
      var c := ToCivil(start.at);
      end == Some(start.Stored() + YearLength(if c.month <= 2 then c.year else c.year + 1) * 86_400_000_000)
  }

  lemma StoredTerm(period: Period, start: Instant)
    ensures TermOf(period, start, StoredTermEnd(period, start))
  {
    hide ToCivil, FromCivil, MonthLength, YearLength;
    MonthlyTerm(start.at);
    YearlyTerm(start.at);
    TermEndsLater(period, start);
  }

  // ---------------------------------------------------------------- payment

  /** What a payment makes of another subscription of its workspace. */
  ghost predicate Superseded(before: Subscription, after: Subscription, at: Micros) {
    match before.status
    case Pending =>
      && after.status.Canceled? && after.version == before.version + 1
      && after.cancelAt == (if before.cancelAt.Some? then before.cancelAt else Some(at))
      && after == before.(status := after.status, version := after.version, cancelAt := after.cancelAt)
    case Canceled => after == before
    case Expired => after == before
    case _ =>
      && after.status.Expired? && after.version == before.version + 1
      && after.termEndsAt == (if before.termEndsAt.Some? then before.termEndsAt else Some(at))
      && after == before.(status := after.status, version := after.version, termEndsAt := after.termEndsAt)
  }

  /** The tables of a payment, as the statements compute them. */
  lemma PaymentTables(db: Database, o: nat, now: Instant)
    requires o in db.orders && !db.orders[o].status.OrderPaid? && OrderSub(o) !in db.subs
    requires SettlePaid(db, o, now).Success?
    ensures var (db', order, at) := (SettlePaid(db, o, now).value.0, db.orders[o], now.Stored());
            && order.plan in db.plans && OrderSub(o) in db'.subs
            && var (plan, w, id) := (db.plans[order.plan], order.workspace, OrderSub(o));
               var (pending, end) := (PendingIds(db.subs, w), StoredTermEnd(plan.period, now));
               && db'.subs == ExpireOthers(CancelSubs(db.subs, pending, at), w, id, at)
                                [id := Subscription(w, order.plan, SubscriptionStatus.Active, at, end, None, None, 1)]
               && db'.grants == RevokeOthers(RevokeGrants(db.grants, w, pending, at), w, id, at)
                                + PlanGrants(w, id, plan.entitlements, at, end)
               && ProjectDomainEntitlement(ExpirePlanSource(db.sources, w, D.TargetKey), w,
                                           DomainLimit(db.plans, order.plan), db'.subs[id]) == Success(db'.sources)
               && db'.orders == MarkPaid(db, o, at).orders && db'.invoices == MarkPaid(db, o, at).invoices
               && SettlePaid(db, o, now).value.1 == Some(id)
  {
    hide ProjectDomainEntitlement, StoredTermEnd, PlanGrants, RevokeOthers, RevokeGrants, ExpirePlanSource, CancelSubs,
      SetOrder, PayInvoice, DomainLimit;
    assert OrderSub(o) !in ExpireOthers(CancelSubs(db.subs, PendingIds(db.subs, db.orders[o].workspace), now.Stored()),
                                        db.orders[o].workspace, OrderSub(o), now.Stored()) by {
      CancelKeeps(db.subs, PendingIds(db.subs, db.orders[o].workspace), now.Stored());
    }
    assert MarkPaid(db, o, now.Stored()).subs == db.subs && MarkPaid(db, o, now.Stored()).grants == db.grants;
  }

  lemma CancelKeeps(subs: Subs, ids: set<SubId>, now: Micros)
    ensures CancelSubs(subs, ids, now).Keys == subs.Keys
  {
  }

  /**
   * A payment makes its order paid and its invoice paid at its time, puts a new subscription on the order's plan
   * in control for one term from its time on, and closes whatever the workspace had: what waited is canceled,
   * what was in control expires.
   */
  lemma PaymentWrites(db: Database, o: nat, now: Instant)
    requires o in db.orders && !db.orders[o].status.OrderPaid? && OrderSub(o) !in db.subs
    requires SettlePaid(db, o, now).Success?
    ensures var (db', activated) := SettlePaid(db, o, now).value;
            var (order, at) := (db.orders[o], now.Stored());
            && activated == Some(OrderSub(o)) && order.plan in db.plans
            && db'.orders == db.orders[o := order.(status := OrderPaid)]
            && (o in db.invoices ==>
                  && o in db'.invoices
                  && var (before, after) := (db.invoices[o], db'.invoices[o]);
                     && after.status.InvoicePaid? && after.money == before.money && after.workspace == before.workspace
                     && after.paidAt == (if before.paidAt.Some? then before.paidAt else Some(at))
                     && after.refundedAt == before.refundedAt)
            && db'.subs.Keys == db.subs.Keys + {OrderSub(o)}
            && var own := db'.subs[OrderSub(o)];
               && own.workspace == order.workspace && own.plan == order.plan && own.status.Active?
               && own.startsAt == at && TermOf(db.plans[order.plan].period, now, own.termEndsAt)
               && own.graceEndsAt.None? && own.cancelAt.None? && own.version == 1
    ensures var (db', order) := (SettlePaid(db, o, now).value.0, db.orders[o]);
            forall id :: id in db.subs ==>
              if db.subs[id].workspace == order.workspace then Superseded(db.subs[id], db'.subs[id], now.Stored())
              else db'.subs[id] == db.subs[id]
  {
    hide SettlePaid, ProjectDomainEntitlement, StoredTermEnd, PlanGrants, RevokeOthers, RevokeGrants, ExpirePlanSource,
      TermOf;
    PaymentTables(db, o, now);
    StoredTerm(db.plans[db.orders[o].plan].period, now);
  }

  lemma PlanGrantRows(w: nat, id: SubId, entitlements: map<Capability, nat>, startsAt: Micros, endsAt: Option<Micros>)
    ensures var more := PlanGrants(w, id, entitlements, startsAt, endsAt);
            && (forall k :: k in more <==>
                  k.workspace == w && k.sourceType.Billing? && k.sourceId == SubRef(id) && k.capability in entitlements)
            && forall k :: k in more ==>
                 more[k] == Grant(w, k.capability, Billing, SubRef(id), entitlements[k.capability], startsAt, endsAt,
                   None)
  {
    forall k: GrantKey | k.workspace == w && k.sourceType.Billing? && k.sourceId == SubRef(id)
      && k.capability in entitlements
      ensures k in PlanGrants(w, id, entitlements, startsAt, endsAt)
    {
      assert k == OwnKey(w, k.capability, id);
    }
  }

  /**
   * The grants of a payment: one for each entitlement of the plan, with its limit, for the term; every other
   * unrevoked billing grant of the workspace is revoked, and all else stays.
   */
  lemma PaymentGrants(db: Database, o: nat, now: Instant)
    requires o in db.orders && !db.orders[o].status.OrderPaid? && OrderSub(o) !in db.subs
    requires SettlePaid(db, o, now).Success?
    requires forall k :: k in db.grants && k.sourceType.Billing? ==> k.sourceId.SubRef? && k.sourceId.sub in db.subs
    ensures var (db', order) := (SettlePaid(db, o, now).value.0, db.orders[o]);
            && order.plan in db.plans && OrderSub(o) in db'.subs
            && (forall c :: c in db.plans[order.plan].entitlements ==>
                  && var k := GrantKey(order.workspace, c, Billing, SubRef(OrderSub(o)));
                     k in db'.grants
                     && db'.grants[k] == Grant(order.workspace, c, Billing, SubRef(OrderSub(o)),
                                               db.plans[order.plan].entitlements[c], now.Stored(),
                                               db'.subs[OrderSub(o)].termEndsAt, None))
            && (forall k :: k in db'.grants && k !in db.grants ==>
                  k.workspace == order.workspace && k.sourceType.Billing? && k.sourceId == SubRef(OrderSub(o))
                  && k.capability in db.plans[order.plan].entitlements)
            && forall k :: k in db.grants ==>
                 k in db'.grants
                 && db'.grants[k] == if k.workspace == order.workspace && k.sourceType.Billing? && db.grants[k].revokedAt.None?
                                     then db.grants[k].(revokedAt := Some(now.Stored())) else db.grants[k]
  {
    hide SettlePaid, ProjectDomainEntitlement, StoredTermEnd, ExpirePlanSource, ExpireOthers, CancelSubs, MarkPaid;
    PaymentTables(db, o, now);
    PlanGrantRows(db.orders[o].workspace, OrderSub(o), db.plans[db.orders[o].plan].entitlements, now.Stored(),
                  StoredTermEnd(db.plans[db.orders[o].plan].period, now));
    hide PlanGrants;
  }

  /**
   * The domain sources of a payment: the plan's limit for the subscription's term, or the former source expired
   * where the plan has no custom domains; a waiting target's source expires.
   */
  lemma PaymentSources(db: Database, o: nat, now: Instant)
    requires o in db.orders && !db.orders[o].status.OrderPaid? && OrderSub(o) !in db.subs
    requires SettlePaid(db, o, now).Success?
    ensures var (db', order) := (SettlePaid(db, o, now).value.0, db.orders[o]);
            var (billing, target) := (SourceKey(order.workspace, D.Plan, D.BillingKey),
                                      SourceKey(order.workspace, D.Plan, D.TargetKey));
            && order.plan in db.plans && OrderSub(o) in db'.subs
            && (forall k :: k != billing && k != target ==>
                  (k in db.sources <==> k in db'.sources) && (k in db.sources ==> db'.sources[k] == db.sources[k]))
            && Expires(db.sources, db'.sources, target)
            && (if CustomDomains in db.plans[order.plan].entitlements then
                  && billing in db'.sources
                  && db'.sources[billing]
                     == D.Source(order.workspace, D.Plan, D.BillingKey, D.Active, db.plans[order.plan].entitlements[CustomDomains],
                                 db'.subs[OrderSub(o)].startsAt, db'.subs[OrderSub(o)].termEndsAt, None, None, 0, 0,
                                 D.BillingActive, 0)
                else Expires(db.sources, db'.sources, billing))
  {
    hide SettlePaid, StoredTermEnd, PlanGrants, RevokeOthers, RevokeGrants, ExpireOthers, CancelSubs, MarkPaid;
    PaymentTables(db, o, now);
  }

  /** A source that was there is expired now, its downgrade forgotten, with the reason that says so. */
  ghost predicate Expires(sources: Sources, sources': Sources, k: SourceKey) {
    && (k in sources <==> k in sources')
    && (k in sources ==>
          if sources[k].status.Expired? then sources'[k] == sources[k]
          else sources'[k] == sources[k].(status := D.Expired, degradedAt := None, graceUntil := None,
                                          reason := D.BillingExpired, category := 0))
  }

  // ---------------------------------------------------------------- refund

  /** The row is canceled now. */
  ghost predicate Ends(before: Subscription, after: Subscription, at: Micros) {
    && after.status.Canceled? && after.version == before.version + 1
    && after.cancelAt == (if before.cancelAt.Some? then before.cancelAt else Some(at))
    && after == before.(status := after.status, version := after.version, cancelAt := after.cancelAt)
  }

  /** The order's own subscription is in control. */
  predicate InControl(db: Database, o: nat)
    requires o in db.orders
  {
    && OrderSub(o) in db.subs && db.subs[OrderSub(o)].workspace == db.orders[o].workspace
    && var status := db.subs[OrderSub(o)].status; status.Active? || status.Grace? || status.Overdue?
  }

  /** The tables of a refund, as the statements compute them. */
  lemma RefundTables(db: Database, o: nat, now: Micros)
    requires o in db.orders && db.orders[o].status.OrderPaid?
    ensures SettleRefunded(db, o, now).Success?
    ensures var (db', w, own) := (SettleRefunded(db, o, now).value, db.orders[o].workspace, OrderSub(o));
            var pending := PendingIds(db.subs, w);
            && db'.orders == MarkRefunded(db, o, now).orders && db'.invoices == MarkRefunded(db, o, now).invoices
            && if InControl(db, o) then
                 && db'.subs == CancelOwn(CancelSubs(db.subs, pending, now), own, w, now)
                 && db'.grants == RevokeGrants(RevokeGrants(db.grants, w, pending, now), w, {own}, now)
                 && db'.sources == ExpirePlanSource(ExpirePlanSource(db.sources, w, D.TargetKey), w, D.BillingKey)
               else
                 && db'.subs == CancelOwn(db.subs, own, w, now) && db'.grants == RevokeGrants(db.grants, w, {own}, now)
                 && db'.sources == db.sources
  {
    hide CancelOwn, CancelSubs, RevokeGrants, ExpirePlanSource, SetOrder, RefundInvoice;
    assert ControlsCurrent(db.subs, o, db.orders[o].workspace) <==> InControl(db, o);
  }

  /**
   * A refund makes its order and invoice refunded at its time and cancels the order's own subscription; where that
   * one was in control it takes along what waits, and otherwise no other row.
   */
  lemma RefundWrites(db: Database, o: nat, now: Micros)
    requires o in db.orders && db.orders[o].status.OrderPaid?
    ensures SettleRefunded(db, o, now).Success?
    ensures var (db', order) := (SettleRefunded(db, o, now).value, db.orders[o]);
            && db'.orders == db.orders[o := order.(status := OrderRefunded)]
            && (o in db.invoices ==>
                  && o in db'.invoices
                  && var (before, after) := (db.invoices[o], db'.invoices[o]);
                     && after.status.InvoiceRefunded? && after.money == before.money
                     && after.workspace == before.workspace && after.paidAt == before.paidAt
                     && after.refundedAt == (if before.refundedAt.Some? then before.refundedAt else Some(now)))
    ensures var (db', w) := (SettleRefunded(db, o, now).value, db.orders[o].workspace);
            && db'.subs.Keys == db.subs.Keys
            && forall id :: id in db.subs ==>
                 if db.subs[id].workspace == w
                    && (id == OrderSub(o) || (InControl(db, o) && db.subs[id].status.Pending?))
                 then Ends(db.subs[id], db'.subs[id], now) else db'.subs[id] == db.subs[id]
  {
    hide SettleRefunded, RevokeGrants, ExpirePlanSource;
    RefundTables(db, o, now);
  }

  /**
   * It revokes the grants of exactly those subscriptions, and expires both plan sources exactly if they end
   * control.
   */
  lemma RefundAuthority(db: Database, o: nat, now: Micros)
    requires o in db.orders && db.orders[o].status.OrderPaid?
    ensures SettleRefunded(db, o, now).Success?
    ensures var (db', w) := (SettleRefunded(db, o, now).value, db.orders[o].workspace);
            && db'.grants.Keys == db.grants.Keys
            && forall k :: k in db.grants ==>
                 db'.grants[k] == if k.workspace == w && k.sourceType.Billing? && k.sourceId.SubRef?
                                     && (k.sourceId.sub == OrderSub(o)
                                         || (InControl(db, o) && k.sourceId.sub in db.subs
                                             && db.subs[k.sourceId.sub].workspace == w
                                             && db.subs[k.sourceId.sub].status.Pending?))
                                     && db.grants[k].revokedAt.None?
                                  then db.grants[k].(revokedAt := Some(now)) else db.grants[k]
    ensures var (db', w) := (SettleRefunded(db, o, now).value, db.orders[o].workspace);
            forall k ::
              if InControl(db, o) && (k == SourceKey(w, D.Plan, D.BillingKey) || k == SourceKey(w, D.Plan, D.TargetKey))
              then Expires(db.sources, db'.sources, k)
              else (k in db.sources <==> k in db'.sources) && (k in db.sources ==> db'.sources[k] == db.sources[k])
  {
    hide SettleRefunded, CancelOwn, CancelSubs, MarkRefunded;
    RefundTables(db, o, now);
  }

  // ---------------------------------------------------------------- a scheduled downgrade

  /**
   * A downgrade scheduled on the subscription in control: it gets seven days of grace from the request, and one
   * new row waits for their end, on the asked plan, for one calendar term counted from that end.
   */
  lemma ScheduleWrites(db: Database, c: SubId, input: ScheduleInput)
    requires c in db.subs && ScheduleFrom(db, c, input).Success?
    ensures var (db', schedule) := ScheduleFrom(db, c, input).value;
            var (at, t) := (input.now.Stored(), schedule.target);
            && schedule.created && schedule.current == c && schedule.graceStartsAt == input.now.at
            && schedule.effectiveAt == Instant(input.now.at + 7 * 86_400_000_000, input.now.nanos)
            && t == TargetSub(c, schedule.effectiveAt) && t !in db.subs && input.targetPlan in db.plans
            && db' == db.(subs := db'.subs, grants := db'.grants, sources := db'.sources,
                          audit := db.audit + [DowngradeScheduled(input.actor, c)])
            && db'.subs.Keys == db.subs.Keys + {t}
            && (forall id :: id in db.subs && id != c ==> db'.subs[id] == db.subs[id])
            && db'.subs[c] == db.subs[c].(status := SubscriptionStatus.Grace, termEndsAt := Some(at),
                                          graceEndsAt := Some(at + 7 * 86_400_000_000), cancelAt := None,
                                          version := db.subs[c].version + 1)
            && var n := db'.subs[t];
               && n.workspace == input.workspace && n.plan == input.targetPlan && n.status.Pending?
               && n.startsAt == at + 7 * 86_400_000_000
               && !db.plans[input.targetPlan].period.OneTime?
               && TermOf(db.plans[input.targetPlan].period, schedule.effectiveAt, n.termEndsAt)
               && n.graceEndsAt.None? && n.cancelAt.None? && n.version == 1
  {
    hide ScheduledGrants, ProjectScheduledDowngrade, StrictDowngrade, StoredTermEnd, TermOf;
    var start := input.now.Plus(D.GRACE);
    assert input.targetPlan in db.plans;
    StoredTerm(db.plans[input.targetPlan].period, start);
    TermEndsLater(db.plans[input.targetPlan].period, start);
  }

  /**
   * Its grants: the unrevoked ones of the subscription in control now end with its grace, the target has one for
   * each entitlement of its plan from then to its term end, and no other grant changes.
   */
  lemma ScheduleGrantsWritten(db: Database, c: SubId, input: ScheduleInput)
    requires c in db.subs && ScheduleFrom(db, c, input).Success?
    ensures var (db', schedule) := ScheduleFrom(db, c, input).value;
            var (w, t) := (input.workspace, schedule.target);
            && input.targetPlan in db.plans && t in db'.subs
            && (forall cap :: cap in db.plans[input.targetPlan].entitlements ==>
                  && var k := GrantKey(w, cap, Billing, SubRef(t));
                     k !in db.grants && k in db'.grants
                     && db'.grants[k] == Grant(w, cap, Billing, SubRef(t), db.plans[input.targetPlan].entitlements[cap],
                                               db'.subs[t].startsAt, db'.subs[t].termEndsAt, None))
            && (forall k :: k in db'.grants && k !in db.grants ==>
                  k.workspace == w && k.sourceType.Billing? && k.sourceId == SubRef(t)
                  && k.capability in db.plans[input.targetPlan].entitlements)
            && forall k :: k in db.grants ==>
                 k in db'.grants
                 && db'.grants[k] == if k.workspace == w && k.sourceType.Billing? && k.sourceId == SubRef(c)
                                        && db.grants[k].revokedAt.None?
                                     then db.grants[k].(endsAt := Some(input.now.Stored() + 7 * 86_400_000_000))
                                     else db.grants[k]
  {
    hide ProjectScheduledDowngrade, StrictDowngrade, StoredTermEnd, PlanGrants;
    var start := input.now.Plus(D.GRACE);
    assert input.targetPlan in db.plans && ScheduledTerm(db, input).Some?;
    PlanGrantRows(input.workspace, TargetSub(c, start), db.plans[input.targetPlan].entitlements,
                  input.now.Stored() + D.GRACE, ScheduledTerm(db, input));
  }

  /**
   * Its domain sources: the billing source is degraded at the request and its grace ends seven days later, and the
   * target source carries the target's limit and term; where a plan has no custom domains its source is expired.
   */
  lemma ScheduleSources(db: Database, c: SubId, input: ScheduleInput)
    requires PlansOk(db.plans) && c in db.subs && ScheduleFrom(db, c, input).Success?
    ensures var (db', schedule) := ScheduleFrom(db, c, input).value;
            var (w, at, t) := (input.workspace, input.now.Stored(), schedule.target);
            var (billing, target) := (SourceKey(w, D.Plan, D.BillingKey), SourceKey(w, D.Plan, D.TargetKey));
            && db.subs[c].plan in db.plans && input.targetPlan in db.plans && t in db'.subs
            && var (before, after) := (db.plans[db.subs[c].plan].entitlements, db.plans[input.targetPlan].entitlements);
               && (forall k :: k != billing && k != target ==>
                     (k in db.sources <==> k in db'.sources) && (k in db.sources ==> db'.sources[k] == db.sources[k]))
               && (if CustomDomains in before then
                     && billing in db.sources && billing in db'.sources && db.sources[billing].status.Active?
                     && (db.sources[billing].degradedAt.None? ==>
                           db'.sources[billing] == db.sources[billing].(degradedAt := Some(at),
                             graceUntil := Some(at + 7 * 86_400_000_000), reason := D.BillingDowngrade, category := 0))
                     && (db.sources[billing].degradedAt.Some? ==> db'.sources[billing] == db.sources[billing])
                   else (billing in db.sources <==> billing in db'.sources)
                        && (billing in db.sources ==> db'.sources[billing] == db.sources[billing]))
               && (if CustomDomains in before && CustomDomains in after then
                     && target in db'.sources
                     && db'.sources[target]
                        == D.Source(w, D.Plan, D.TargetKey, D.Active, after[CustomDomains], db'.subs[t].startsAt,
                                    db'.subs[t].termEndsAt, None, None, 0, 0, D.BillingTarget, 0)
                   else Expires(db.sources, db'.sources, target))
  {
    hide StrictDowngrade, StoredTermEnd, ScheduledGrants, GrantsFree, TermOf, D.Valid;
    assert input.targetPlan in db.plans && db.subs[c].plan in db.plans && ScheduledTerm(db, input).Some?;
    ProjectedSources(db.sources, input.workspace, db.plans[db.subs[c].plan], db.plans[input.targetPlan], input.now,
                     ScheduledTerm(db, input));
    hide ProjectScheduledDowngrade;
  }

  lemma ProjectedSources(sources: Sources, w: nat, before: Plan, after: Plan, now: Instant, end: Option<Micros>)
    requires forall c :: c in before.entitlements ==> 1 <= before.entitlements[c]
    requires forall c :: c in after.entitlements ==> 1 <= after.entitlements[c]
    requires ProjectScheduledDowngrade(sources, w, before, after, now, end).Success?
    ensures var sources' := ProjectScheduledDowngrade(sources, w, before, after, now, end).value;
            var (billing, target) := (SourceKey(w, D.Plan, D.BillingKey), SourceKey(w, D.Plan, D.TargetKey));
            && (forall k :: k != billing && k != target ==>
                  (k in sources <==> k in sources') && (k in sources ==> sources'[k] == sources[k]))
            && (if CustomDomains in before.entitlements then
                  && billing in sources && billing in sources' && sources[billing].status.Active?
                  && (sources[billing].degradedAt.None? ==>
                        sources'[billing] == sources[billing].(degradedAt := Some(now.Stored()),
                          graceUntil := Some(now.Stored() + 7 * 86_400_000_000), reason := D.BillingDowngrade,
                            category := 0))
                  && (sources[billing].degradedAt.Some? ==> sources'[billing] == sources[billing])
                else (billing in sources <==> billing in sources')
                     && (billing in sources ==> sources'[billing] == sources[billing]))
            && (if CustomDomains in before.entitlements && CustomDomains in after.entitlements then
                  && target in sources'
                  && sources'[target]
                     == D.Source(w, D.Plan, D.TargetKey, D.Active, after.entitlements[CustomDomains],
                                 now.Stored() + 7 * 86_400_000_000, end, None, None, 0, 0, D.BillingTarget, 0)
                else Expires(sources, sources', target))
  {
    hide D.Valid;
  }

  // ---------------------------------------------------------------- promotion

  /** A waiting row takes over as it stands. */
  ghost predicate TakesOver(before: Subscription, after: Subscription) {
    before.status.Pending? && after == before.(status := SubscriptionStatus.Active, version := before.version + 1)
  }

  /**
   * A load with something in control changes nothing before the end of a grace; from then on the row in its grace
   * expires and the one row waiting under its id takes over, and no other row, grant, order or record changes.
   */
  lemma LoadWrites(db: Database, w: nat, now: Instant)
    requires LoadCurrent(db, w, now).Success? && BillableIds(db.subs, w) != {}
    ensures var (db', id) := LoadCurrent(db, w, now).value;
            && db' == db.(subs := db'.subs, sources := db'.sources) && db'.subs.Keys == db.subs.Keys
            && if db' == db then
                 && id in db.subs && db.subs[id].workspace == w
                 && (db.subs[id].status.Grace? && db.subs[id].graceEndsAt.Some? ==>
                   now.at < db.subs[id].graceEndsAt.value)
               else
                 && id.TargetSub? && id in db.subs && id.parent in db.subs
                 && var (c, n) := (db.subs[id.parent], db.subs[id]);
                    && c.workspace == w && c.status.Grace? && c.graceEndsAt == Some(id.effectiveAt.at)
                    && id.effectiveAt.nanos == 0 && id.effectiveAt.at <= now.at
                    && n.workspace == w && n.startsAt <= now.at && TakesOver(n, db'.subs[id])
                    && db'.subs[id.parent] == c.(status := SubscriptionStatus.Expired, version := c.version + 1)
                    && forall o :: o in db.subs && o != id && o != id.parent ==> db'.subs[o] == db.subs[o]
  {
    hide PromoteDomainTarget, DomainLimit;
  }

  predicate Waits(subs: Subs, w: nat, now: Instant, id: SubId) {
    id in subs && subs[id].workspace == w && subs[id].status.Pending? && subs[id].startsAt <= now.Stored()
  }

  /**
   * A load with nothing in control promotes the waiting row that started last, of those due by the stored time,
   * and changes no other row.
   */
  lemma DueWrites(db: Database, w: nat, now: Instant)
    requires LoadCurrent(db, w, now).Success? && BillableIds(db.subs, w) == {}
    ensures var (db', id) := LoadCurrent(db, w, now).value;
            && db' == db.(subs := db'.subs, sources := db'.sources) && db'.subs.Keys == db.subs.Keys
            && id in db.subs && db.subs[id].workspace == w && db.subs[id].startsAt <= now.Stored()
            && TakesOver(db.subs[id], db'.subs[id])
            && (forall o :: o in db.subs && o != id ==> db'.subs[o] == db.subs[o])
            && forall o :: Waits(db.subs, w, now, o) && o != id ==>
                 db.subs[o].startsAt < db.subs[id].startsAt
                 || (db.subs[o].startsAt == db.subs[id].startsAt && IdBefore(o, id))
  {
    hide PromoteDomainTarget, DomainLimit;
    forall o | Waits(db.subs, w, now, o)
      ensures o in DuePending(db.subs, w, now)
    {
    }
  }

  /**
   * Whenever a waiting row takes over, the billing source takes its plan's limit and its window and the target
   * source expires, or both expire where its plan has no custom domains.
   */
  lemma LoadSources(db: Database, w: nat, now: Instant)
    requires PlansOk(db.plans) && LoadCurrent(db, w, now).Success? && LoadCurrent(db, w, now).value.0 != db
    ensures var (db', id) := LoadCurrent(db, w, now).value;
            var (billing, target) := (SourceKey(w, D.Plan, D.BillingKey), SourceKey(w, D.Plan, D.TargetKey));
            && id in db.subs && Expires(db.sources, db'.sources, target)
            && (forall k :: k != billing && k != target ==>
                  (k in db.sources <==> k in db'.sources) && (k in db.sources ==> db'.sources[k] == db.sources[k]))
            && var n := db.subs[id];
               if n.plan in db.plans && CustomDomains in db.plans[n.plan].entitlements then
                 && billing in db'.sources
                 && db'.sources[billing]
                    == D.Source(w, D.Plan, D.BillingKey, D.Active, db.plans[n.plan].entitlements[CustomDomains],
                                n.startsAt, n.termEndsAt, None, None, 0, 0, D.BillingEffective, 0)
               else Expires(db.sources, db'.sources, billing)
  {
    hide PromoteDomainTarget, LoadCurrent, Expires;
    LoadPromotes(db, w, now);
    var n := db.subs[LoadCurrent(db, w, now).value.1];
    PromotedSources(db.sources, DomainLimit(db.plans, n.plan), n);
  }

  lemma LoadPromotes(db: Database, w: nat, now: Instant)
    requires LoadCurrent(db, w, now).Success? && LoadCurrent(db, w, now).value.0 != db
    ensures var (db', id) := LoadCurrent(db, w, now).value;
            && id in db.subs && db.subs[id].workspace == w
            && PromoteDomainTarget(db.sources, DomainLimit(db.plans, db.subs[id].plan), db.subs[id])
              == Success(db'.sources)
  {
    hide PromoteDomainTarget, DomainLimit;
  }

  lemma PromotedSources(sources: Sources, limit: Option<nat>, n: Subscription)
    requires PromoteDomainTarget(sources, limit, n).Success? && (limit.Some? ==> limit.value != 0)
    ensures var sources' := PromoteDomainTarget(sources, limit, n).value;
            var (billing, target) := (SourceKey(n.workspace, D.Plan, D.BillingKey),
              SourceKey(n.workspace, D.Plan, D.TargetKey));
            && Expires(sources, sources', target)
            && (forall k :: k != billing && k != target ==>
                  (k in sources <==> k in sources') && (k in sources ==> sources'[k] == sources[k]))
            && if limit.Some? then
                 && billing in sources'
                 && sources'[billing] == D.Source(n.workspace, D.Plan, D.BillingKey, D.Active, limit.value, n.startsAt,
                                                  n.termEndsAt, None, None, 0, 0, D.BillingEffective, 0)
               else Expires(sources, sources', billing)
  {
    hide D.Valid;
  }
}
