/** How each billing transaction moves a workspace from one phase to the next, table by table. */
module BillingSteps {
  import opened Foundations
  import opened Calendar
  import opened BillingModel
  import opened BillingSpec
  import opened BillingInvariant
  import D = DomainEntitlement

  // ---------------------------------------------------------------- domain sources

  ghost predicate OtherSourcesSame(sources: Sources, sources': Sources, w: nat) {
    forall v: nat :: v != w ==> SameSources(sources, sources', v)
  }

  /** Expiring a plan source turns it off, keeps the other one's state and touches no other workspace. */
  lemma ExpireSource(sources: Sources, w: nat, key: D.Key)
    requires SourcesOk(sources)
    ensures var sources' := ExpirePlanSource(sources, w, key);
            && SourcesOk(sources') && SourceOff(sources', w, key)
            && OtherSourcesSame(sources, sources', w)
            && (forall other :: SourceOff(sources, w, other) ==> SourceOff(sources', w, other))
  {
  }

  lemma ExpireSourceKeepsOther(sources: Sources, w: nat, key: D.Key, other: D.Key, entitlements: map<Capability, nat>,
                               s: Micros, e: Option<Micros>, d: Option<Micros>, g: Option<Micros>)
    requires key != other && Mirrors(sources, w, other, entitlements, s, e, d, g)
    ensures Mirrors(ExpirePlanSource(sources, w, key), w, other, entitlements, s, e, d, g)
  {
  }

  lemma UpsertSource(sources: Sources, w: nat, key: D.Key, limit: nat, startsAt: Micros, expiresAt: Option<Micros>,
      reason: D.Reason)
    requires SourcesOk(sources)
    requires UpsertPlanSource(sources, w, key, limit, startsAt, expiresAt, reason).Success?
    ensures var sources' := UpsertPlanSource(sources, w, key, limit, startsAt, expiresAt, reason).value;
            && SourcesOk(sources') && OtherSourcesSame(sources, sources', w)
            && (forall other :: other != key && SourceOff(sources, w, other) ==> SourceOff(sources', w, other))
  {
  }

  /** Projecting an activated subscription makes the billing source mirror its plan. */
  lemma ProjectEntitlement(sources: Sources, w: nat, plans: Plans, plan: nat, sub: Subscription)
    requires SourcesOk(sources) && plan in plans && SourceOff(sources, w, D.TargetKey)
    requires ProjectDomainEntitlement(sources, w, DomainLimit(plans, plan), sub).Success?
    ensures var sources' := ProjectDomainEntitlement(sources, w, DomainLimit(plans, plan), sub).value;
            && SourcesOk(sources') && OtherSourcesSame(sources, sources', w)
            && SourceOff(sources', w, D.TargetKey)
            && Mirrors(sources', w, D.BillingKey, plans[plan].entitlements, sub.startsAt, sub.termEndsAt, None, None)
  {
    ExpireSource(sources, w, D.BillingKey);
    var limit := DomainLimit(plans, plan);
    if limit.Some? {
      UpsertSource(sources, w, D.BillingKey, limit.value, sub.startsAt, sub.termEndsAt, D.BillingActive);
    }
  }

  /** Promoting a target makes the billing source mirror it, is never refused, and empties the target source. */
  lemma PromoteTarget(sources: Sources, plans: Plans, target: Subscription)
    requires SourcesOk(sources) && target.plan in plans && PlansOk(plans)
    requires target.startsAt != 0 && target.termEndsAt.Some? && target.startsAt < target.termEndsAt.value
    requires CustomDomains in plans[target.plan].entitlements ==>
      target.workspace != 0 && plans[target.plan].entitlements[CustomDomains] <= MAX_UINT32
    ensures var r := PromoteDomainTarget(sources, DomainLimit(plans, target.plan), target);
            && r.Success? && SourcesOk(r.value) && OtherSourcesSame(sources, r.value, target.workspace)
            && SourceOff(r.value, target.workspace, D.TargetKey)
            && Mirrors(r.value, target.workspace, D.BillingKey, plans[target.plan].entitlements,
                       target.startsAt, target.termEndsAt, None, None)
  {
    var w := target.workspace;
    var limit := DomainLimit(plans, target.plan);
    if limit.None? {
      ExpireSource(sources, w, D.BillingKey);
      ExpireSource(ExpirePlanSource(sources, w, D.BillingKey), w, D.TargetKey);
    } else {
      UpsertSource(sources, w, D.BillingKey, limit.value, target.startsAt, target.termEndsAt, D.BillingEffective);
      var promoted := UpsertPlanSource(sources, w, D.BillingKey, limit.value, target.startsAt, target.termEndsAt,
                                       D.BillingEffective).value;
      ExpireSource(promoted, w, D.TargetKey);
      ExpireSourceKeepsOther(promoted, w, D.TargetKey, D.BillingKey, plans[target.plan].entitlements,
                             target.startsAt, target.termEndsAt, None, None);
    }
  }

  /** Degrading the billing source keeps its limit and start and gives it the seven-day grace. */
  lemma DegradeSource(sources: Sources, w: nat, entitlements: map<Capability, nat>, s: Micros, e: Option<Micros>,
      now: Instant)
    requires SourcesOk(sources) && CustomDomains in entitlements
    requires Mirrors(sources, w, D.BillingKey, entitlements, s, e, None, None) && !now.Before(s)
    ensures var r := ApplyNormalPlanDowngrade(sources, w, D.BillingKey, now);
            && r.Success? && SourcesOk(r.value) && OtherSourcesSame(sources, r.value, w)
            && Mirrors(r.value, w, D.BillingKey, entitlements, s, None, Some(now.Stored()),
              Some(now.Stored() + D.GRACE))
            && (SourceOff(sources, w, D.TargetKey) ==> SourceOff(r.value, w, D.TargetKey))
  {
  }

  /** The part of a schedule after the billing source has been degraded. */
  lemma ProjectScheduledTarget(sources: Sources, w: nat, target: map<Capability, nat>, e: Micros, termEnd: Option<Micros>,
                               current: map<Capability, nat>, s: Micros, d: Option<Micros>)
    requires SourcesOk(sources) && SourceOff(sources, w, D.TargetKey)
    requires Mirrors(sources, w, D.BillingKey, current, s, None, d, Some(e))
    requires CustomDomains in target ==>
      && target[CustomDomains] <= MAX_UINT32
      && UpsertPlanSource(sources, w, D.TargetKey, target[CustomDomains], e, termEnd, D.BillingTarget).Success?
    ensures var sources' :=
              if CustomDomains !in target then ExpirePlanSource(sources, w, D.TargetKey)
              else UpsertPlanSource(sources, w, D.TargetKey, target[CustomDomains], e, termEnd, D.BillingTarget).value;
            && SourcesOk(sources') && OtherSourcesSame(sources, sources', w)
            && Mirrors(sources', w, D.BillingKey, current, s, None, d, Some(e))
            && Mirrors(sources', w, D.TargetKey, target, e, termEnd, None, None)
  {
    if CustomDomains !in target {
      ExpireSource(sources, w, D.TargetKey);
      ExpireSourceKeepsOther(sources, w, D.TargetKey, D.BillingKey, current, s, None, d, Some(e));
    } else {
      UpsertSource(sources, w, D.TargetKey, target[CustomDomains], e, termEnd, D.BillingTarget);
    }
  }

  /** Projecting a schedule degrades the billing source and starts the target source at the grace end. */
  lemma ProjectSchedule(sources: Sources, w: nat, current: Plan, target: Plan, s: Micros,
                        e: Option<Micros>, now: Instant, termEnd: Option<Micros>)
    requires SourcesOk(sources) && !now.Before(s)
    requires CustomDomains in target.entitlements ==>
      CustomDomains in current.entitlements && 1 <= target.entitlements[CustomDomains]
    requires CustomDomains in current.entitlements ==> 1 <= current.entitlements[CustomDomains]
    requires Mirrors(sources, w, D.BillingKey, current.entitlements, s, e, None, None)
      && SourceOff(sources, w, D.TargetKey)
    requires ProjectScheduledDowngrade(sources, w, current, target, now, termEnd).Success?
    ensures var sources' := ProjectScheduledDowngrade(sources, w, current, target, now, termEnd).value;
            && SourcesOk(sources') && OtherSourcesSame(sources, sources', w)
            && Mirrors(sources', w, D.BillingKey, current.entitlements, s, None, Some(now.Stored()),
              Some(now.Stored() + D.GRACE))
            && Mirrors(sources', w, D.TargetKey, target.entitlements, now.Stored() + D.GRACE, termEnd, None, None)
  {
    if CustomDomains !in current.entitlements {
      ExpireSource(sources, w, D.TargetKey);
    } else {
      DegradeSource(sources, w, current.entitlements, s, e, now);
      var degraded := ApplyNormalPlanDowngrade(sources, w, D.BillingKey, now).value;
      ProjectScheduledTarget(degraded, w, target.entitlements, now.Stored() + D.GRACE, termEnd, current.entitlements, s,
                             Some(now.Stored()));
    }
  }

  // ---------------------------------------------------------------- grants

  ghost predicate OtherGrantsSame(grants: Grants, grants': Grants, w: nat) {
    forall v: nat :: v != w ==> SameGrants(grants, grants', v)
  }

  lemma RevokeGrantsFrame(grants: Grants, subs: Subs, w: nat, ids: set<SubId>, now: Micros)
    requires GrantsOk(grants, subs)
    ensures var grants' := RevokeGrants(grants, w, ids, now);
            GrantsOk(grants', subs) && OtherGrantsSame(grants, grants', w)
  {
  }

  /** A subscription whose grants are exactly its plan's has no revoked grant. */
  lemma OwnedUnrevoked(grants: Grants, subs: Subs, w: nat, id: SubId, entitlements: map<Capability, nat>, s: Micros,
      e: Option<Micros>)
    requires GrantsOk(grants, subs) && OwnsExactly(grants, w, id, entitlements, s, e)
    ensures forall k :: k in grants && OwnedBy(k, w, {id}) ==>
      && k.capability in entitlements
      && grants[k] == Grant(w, k.capability, Billing, SubRef(id), entitlements[k.capability], s, e, None)
  {
  }

  /** Revoking the grants of one subscription leaves those of another as they are. */
  lemma RevokeKeepsOwner(grants: Grants, w: nat, ids: set<SubId>, now: Micros, id: SubId,
                         entitlements: map<Capability, nat>, s: Micros, e: Option<Micros>)
    requires id !in ids && OwnsExactly(grants, w, id, entitlements, s, e)
    ensures OwnsExactly(RevokeGrants(grants, w, ids, now), w, id, entitlements, s, e)
  {
  }

  /** Unrevoked or dead grants are dead once revoked. */
  lemma RevokeKills(grants: Grants, clock: Micros, w: nat, keep: set<SubId>, ids: set<SubId>, now: Micros)
    requires GrantsDead(grants, clock, w, keep)
    requires forall k :: k in grants && OwnedBy(k, w, ids) ==> grants[k].revokedAt.None? || DeadFrom(grants[k], clock)
    ensures GrantsDead(RevokeGrants(grants, w, ids, now), Max(clock, now), w, keep - ids)
  {
  }

  /** A subscription without grants gets exactly its plan's; nothing else changes. */
  lemma NewPlanGrants(grants: Grants, clock: Micros, w: nat, keep: set<SubId>, id: SubId,
                      entitlements: map<Capability, nat>, s: Micros, e: Option<Micros>)
    requires forall c :: OwnKey(w, c, id) !in grants
    requires GrantsDead(grants, clock, w, keep)
    ensures var grants' := grants + PlanGrants(w, id, entitlements, s, e);
            && OwnsExactly(grants', w, id, entitlements, s, e)
            && GrantsDead(grants', clock, w, keep + {id})
            && OtherGrantsSame(grants, grants', w)
  {
  }

  lemma NewPlanGrantsKeep(grants: Grants, w: nat, id: SubId, entitlements: map<Capability, nat>, s: Micros, e: Option<Micros>,
                          other: SubId, entitlements': map<Capability, nat>, s': Micros, e': Option<Micros>)
    requires id != other && OwnsExactly(grants, w, other, entitlements', s', e')
    ensures OwnsExactly(grants + PlanGrants(w, id, entitlements, s, e), w, other, entitlements', s', e')
  {
  }

  lemma NoGrantsYet(grants: Grants, subs: Subs, w: nat, id: SubId)
    requires GrantsOk(grants, subs) && id !in subs
    ensures forall c :: OwnKey(w, c, id) !in grants
  {
  }

  /** An activation's grants replace every other billing grant of the workspace. */
  lemma ActivateGrants(grants: Grants, subs: Subs, clock: Micros, w: nat, keep: set<SubId>, id: SubId,
                       entitlements: map<Capability, nat>, now: Micros, end: Option<Micros>)
    requires GrantsOk(grants, subs) && GrantsDead(grants, clock, w, keep) && now <= clock
    requires id !in subs
    requires forall k :: k in grants && OwnedBy(k, w, keep) ==> grants[k].revokedAt.None?
    ensures var grants' := RevokeOthers(grants, w, id, now) + PlanGrants(w, id, entitlements, now, end);
            && OwnsExactly(grants', w, id, entitlements, now, end)
            && GrantsDead(grants', clock, w, {id})
            && OtherGrantsSame(grants, grants', w)
  {
  }

  lemma RevokeOthersOk(grants: Grants, subs: Subs, w: nat, id: SubId, now: Micros)
    requires GrantsOk(grants, subs)
    ensures GrantsOk(RevokeOthers(grants, w, id, now), subs)
  {
  }

  lemma AddPlanGrants(grants: Grants, subs: Subs, subs': Subs, w: nat, id: SubId, entitlements: map<Capability, nat>,
                      s: Micros, e: Option<Micros>)
    requires GrantsOk(grants, subs)
    requires forall i :: i in subs ==> i in subs' && subs'[i].workspace == subs[i].workspace
    requires id in subs' && subs'[id].workspace == w
    ensures GrantsOk(grants + PlanGrants(w, id, entitlements, s, e), subs')
  {
  }

  /** Scheduling ends the current grants with the grace and adds the target's from there on. */
  lemma ScheduleGrants(grants: Grants, subs: Subs, clock: Micros, w: nat, c: SubId, t: SubId,
                       before: map<Capability, nat>, after: map<Capability, nat>, s: Micros, e: Option<Micros>,
                       graceEnd: Micros, termEnd: Option<Micros>)
    requires GrantsOk(grants, subs) && t !in subs && c != t
    requires OwnsExactly(grants, w, c, before, s, e) && GrantsDead(grants, clock, w, {c})
    ensures var grants' := EndGrants(grants, w, c, graceEnd) + PlanGrants(w, t, after, graceEnd, termEnd);
            && OwnsExactly(grants', w, c, before, s, Some(graceEnd))
            && OwnsExactly(grants', w, t, after, graceEnd, termEnd)
            && GrantsDead(grants', clock, w, {c, t})
            && OtherGrantsSame(grants, grants', w)
  {
    var ended := EndGrants(grants, w, c, graceEnd);
    NoGrantsYet(grants, subs, w, t);
    assert OwnsExactly(ended, w, c, before, s, Some(graceEnd));
    assert GrantsDead(ended, clock, w, {c});
    assert OtherGrantsSame(grants, ended, w);
    NewPlanGrants(ended, clock, w, {c}, t, after, graceEnd, termEnd);
    NewPlanGrantsKeep(ended, w, t, after, graceEnd, termEnd, c, before, s, Some(graceEnd));
    assert {c} + {t} == {c, t};
  }
}
