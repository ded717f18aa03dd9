/**
 * Which grants count at an instant and which of them the resolver credits (internal/billing/entitlement.go,
 * model.go).
 */
module BillingCredits {
  import opened Foundations
  import opened Sorting
  import opened BillingModel
  import opened BillingEntitlement

  /** Each way a grant can be refused. */
  lemma InvalidExactly(g: Grant)
    ensures !ValidGrant(g) <==>
      || g.workspace == 0 || g.startsAt == 0 || (g.limit == 0 && !g.sourceType.HardDeny?)
      || (g.endsAt.Some? && g.endsAt.value <= g.startsAt)
      || (g.revokedAt.Some? && g.revokedAt.value < g.startsAt)
  {
  }

  /** The grant is the workspace's for the capability, has started, has not ended and has not been revoked yet. */
  predicate Counts(now: Micros, w: nat, c: Capability, g: Grant) {
    && g.workspace == w && g.capability == c && g.startsAt <= now
    && !(g.endsAt.Some? && g.endsAt.value <= now) && !(g.revokedAt.Some? && g.revokedAt.value <= now)
  }

  /** Manual before inherited before billing before baseline. */
  predicate Stronger(a: SourceType, b: SourceType) {
    match a
    case Manual => b.Inherited? || b.Billing? || b.Baseline?
    case Inherited => b.Billing? || b.Baseline?
    case Billing => b.Baseline?
    case Baseline => false
    case HardDeny => false
  }

  /**
   * Of the permitting grants that count, none has a larger limit, nor the same limit from a stronger kind
   * of source.
   */
  ghost predicate Credited(now: Micros, w: nat, c: Capability, gs: seq<Grant>, g: Grant) {
    && g in gs && Counts(now, w, c, g) && !g.sourceType.HardDeny?
    && forall h :: h in gs && Counts(now, w, c, h) && !h.sourceType.HardDeny? ==>
         && h.limit <= g.limit
         && (h.limit == g.limit ==> !Stronger(h.sourceType, g.sourceType))
         && (h.limit == g.limit && h.sourceType == g.sourceType ==> !SourceIdBefore(h.sourceId, g.sourceId))
  }

  lemma CountsMeans(now: Micros, w: nat, c: Capability, g: Grant)
    ensures Applies(now, w, c, g) <==> Counts(now, w, c, g)
  {
  }

  lemma BestIsCredited(now: Micros, w: nat, c: Capability, gs: seq<Grant>, g: Grant)
    requires Best(now, w, c, gs, g)
    ensures Credited(now, w, c, gs, g)
  {
    forall h | h in gs && Counts(now, w, c, h) && !h.sourceType.HardDeny?
      ensures h.limit <= g.limit
      ensures h.limit == g.limit ==> !Stronger(h.sourceType, g.sourceType)
      ensures h.limit == g.limit && h.sourceType == g.sourceType ==> !SourceIdBefore(h.sourceId, g.sourceId)
    {
      assert !GrantBefore(h, g);
    }
  }

  /** What an answer reports when it permits: the credited grant, and all that count, the credited one first. */
  lemma PermitReports(now: Micros, w: nat, c: Capability, gs: seq<Grant>)
    requires Resolve(now, w, c, gs).Success? && Resolve(now, w, c, gs).value.allowed
    ensures var r := Resolve(now, w, c, gs).value;
            && !r.hardDeny && r.activeGrants != []
            && (forall h :: h in r.activeGrants <==> h in gs && Counts(now, w, c, h) && !h.sourceType.HardDeny?)
            && var g := r.activeGrants[0];
               && Credited(now, w, c, gs, g)
               && r.limit == g.limit && r.sourceType == g.sourceType && r.sourceId == Some(g.sourceId)
  {
    var active := Kept(now, w, c, gs, false);
    KeptMembers(now, w, c, gs, true);
    KeptMembers(now, w, c, gs, false);
    GrantOrders();
    SortCorrect(GrantBefore, active);
    var ordered := Sort(GrantBefore, active);
    assert ordered[0] in ordered;
    forall h | h in gs && Applies(now, w, c, h) && !h.sourceType.HardDeny?
      ensures !GrantBefore(h, ordered[0])
    {
      assert h in active;
      var i :| 0 <= i < |ordered| && ordered[i] == h;
    }
    assert Best(now, w, c, gs, ordered[0]);
    BestIsCredited(now, w, c, gs, ordered[0]);
    hide GrantBefore, StrictWeakOrder;
  }

  /**
   * What it reports when it does not: the denial with the smallest source id if there is one, and otherwise
   * nothing.
   */
  lemma RefusalReports(now: Micros, w: nat, c: Capability, gs: seq<Grant>)
    requires Resolve(now, w, c, gs).Success? && !Resolve(now, w, c, gs).value.allowed
    ensures var r := Resolve(now, w, c, gs).value;
            && r.limit == 0
            && (if r.hardDeny then
                  && r.sourceType.HardDeny?
                  && exists g :: g in gs && Counts(now, w, c, g) && g.sourceType.HardDeny? && r.sourceId == Some(g.sourceId)
                       && forall h :: h in gs && Counts(now, w, c, h) && h.sourceType.HardDeny? ==>
                            !SourceIdBefore(h.sourceId, g.sourceId)
                else r.sourceType.Baseline? && r.sourceId.None?)
            && forall h :: h in r.activeGrants <==> h in gs && Counts(now, w, c, h) && !h.sourceType.HardDeny?
  {
    var denies := Kept(now, w, c, gs, true);
    KeptMembers(now, w, c, gs, true);
    KeptMembers(now, w, c, gs, false);
    GrantOrders();
    if denies != [] {
      SortCorrect(DenyBefore, denies);
      var sorted := Sort(DenyBefore, denies);
      var g := sorted[0];
      assert g in sorted;
      forall h | h in gs && Counts(now, w, c, h) && h.sourceType.HardDeny?
        ensures !SourceIdBefore(h.sourceId, g.sourceId)
      {
        assert h in denies;
        var i :| 0 <= i < |sorted| && sorted[i] == h;
        assert !DenyBefore(h, g);
      }
    }
  }
}
