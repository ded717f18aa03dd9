/** The billing entitlement resolver (internal/billing/entitlement.go). */
module BillingEntitlement {
  import opened Foundations
  import opened Sorting
  import opened BillingModel

  datatype Resolved = Resolved(
    allowed: bool,
    limit: nat,
    sourceType: SourceType,
    sourceId: Option<SourceId>,
    hardDeny: bool,
    activeGrants: seq<Grant>)

  function SourcePriority(t: SourceType): nat {
    match t
    case Manual => 4
    case Inherited => 3
    case Billing => 2
    case Baseline => 1
    case HardDeny => 0
  }

  /** Stands for the alphabetical order of source ids. */
  predicate SourceIdBefore(a: SourceId, b: SourceId) {
    match (a, b)
    case (SubRef(x), SubRef(y)) => IdBefore(x, y)
    case (SubRef(_), Named(_)) => true
    case (Named(_), SubRef(_)) => false
    case (Named(x), Named(y)) => x < y
  }

  predicate DenyBefore(a: Grant, b: Grant) { SourceIdBefore(a.sourceId, b.sourceId) }

  /** Larger limit, then stronger source type, then smaller source id. */
  predicate GrantBefore(a: Grant, b: Grant) {
    if a.limit != b.limit then a.limit > b.limit
    else if SourcePriority(a.sourceType) != SourcePriority(b.sourceType)
    then SourcePriority(a.sourceType) > SourcePriority(b.sourceType)
    else SourceIdBefore(a.sourceId, b.sourceId)
  }

  lemma SourceIdOrder()
    ensures forall a :: !SourceIdBefore(a, a)
    ensures forall a, b :: a == b || SourceIdBefore(a, b) || SourceIdBefore(b, a)
    ensures forall a, b, c :: SourceIdBefore(a, b) && SourceIdBefore(b, c) ==> SourceIdBefore(a, c)
    ensures forall a, b, c :: SourceIdBefore(a, c) ==> SourceIdBefore(a, b) || SourceIdBefore(b, c)
  {
    forall a, b
      ensures !SourceIdBefore(a, a)
      ensures a == b || SourceIdBefore(a, b) || SourceIdBefore(b, a)
    {
      if a.SubRef? { IdBeforeTotal(a.sub, a.sub); }
      if a.SubRef? && b.SubRef? { IdBeforeTotal(a.sub, b.sub); }
    }
    forall a, b, c | SourceIdBefore(a, b) && SourceIdBefore(b, c)
      ensures SourceIdBefore(a, c)
    {
      if a.SubRef? && c.SubRef? { IdBeforeTransitive(a.sub, b.sub, c.sub); }
    }
  }

  lemma GrantOrders()
    ensures StrictWeakOrder(DenyBefore) && StrictWeakOrder(GrantBefore)
  {
    SourceIdOrder();
  }

  /** The grants the resolver keeps: those in force for the workspace and capability, denials or not. */
  predicate Applies(now: Micros, workspace: nat, capability: Capability, g: Grant) {
    g.workspace == workspace && g.capability == capability && Live(g, now)
  }

  function Kept(now: Micros, w: nat, c: Capability, gs: seq<Grant>, deny: bool): seq<Grant> {
    if gs == [] then []
    else
      var before := Kept(now, w, c, gs[..|gs| - 1], deny);
      var g := gs[|gs| - 1];
      if Applies(now, w, c, g) && g.sourceType.HardDeny? == deny then before + [g] else before
  }

  function Resolve(now: Micros, w: nat, c: Capability, gs: seq<Grant>): Result<Resolved> {
    if exists g :: g in gs && !ValidGrant(g) then Failure(InvalidGrant)
    else
      var denies := Kept(now, w, c, gs, true);
      var active := Kept(now, w, c, gs, false);
      GrantOrders();
      SortCorrect(DenyBefore, denies);
      SortCorrect(GrantBefore, active);
      if denies != [] then
        Success(Resolved(false, 0, HardDeny, Some(Sort(DenyBefore, denies)[0].sourceId), true, active))
      else if active == [] then
        Success(Resolved(false, 0, Baseline, None, false, []))
      else
        var ordered := Sort(GrantBefore, active);
        Success(Resolved(true, ordered[0].limit, ordered[0].sourceType, Some(ordered[0].sourceId), false, ordered))
  }

  method ResolveEntitlement(now: Micros, workspace: nat, capability: Capability, grants: seq<Grant>)
    returns (r: Result<Resolved>)
    ensures r == Resolve(now, workspace, capability, grants)
  {
    var active, denies := [], [];
    for i := 0 to |grants|
      invariant forall j :: 0 <= j < i ==> ValidGrant(grants[j])
      invariant denies == Kept(now, workspace, capability, grants[..i], true)
      invariant active == Kept(now, workspace, capability, grants[..i], false)
    {
      assert grants[..i + 1][..i] == grants[..i];
      var grant := grants[i];
      if !ValidGrant(grant) { return Failure(InvalidGrant); }
      if grant.workspace != workspace || grant.capability != capability || now < grant.startsAt { continue; }
      if grant.revokedAt.Some? && grant.revokedAt.value <= now { continue; }
      if grant.endsAt.Some? && grant.endsAt.value <= now { continue; }
      if grant.sourceType.HardDeny? {
        denies := denies + [grant];
        continue;
      }
      active := active + [grant];
    }
    assert grants[..|grants|] == grants;
    assert forall g :: g in grants ==> ValidGrant(g);
    GrantOrders();
    SortCorrect(DenyBefore, denies);
    SortCorrect(GrantBefore, active);
    if |denies| > 0 {
      var sorted := Sort(DenyBefore, denies);
      return Success(Resolved(false, 0, HardDeny, Some(sorted[0].sourceId), true, active));
    }
    if |active| == 0 {
      return Success(Resolved(false, 0, Baseline, None, false, []));
    }
    var ordered := Sort(GrantBefore, active);
    var selected := ordered[0];
    return Success(Resolved(true, selected.limit, selected.sourceType, Some(selected.sourceId), false, ordered));
  }

  // ---------------------------------------------------------------- what a resolution means

  ghost predicate Denied(now: Micros, w: nat, c: Capability, gs: seq<Grant>) {
    exists g :: g in gs && Applies(now, w, c, g) && g.sourceType.HardDeny?
  }

  ghost predicate Granted(now: Micros, w: nat, c: Capability, gs: seq<Grant>) {
    exists g :: g in gs && Applies(now, w, c, g) && !g.sourceType.HardDeny?
  }

  /** No other applicable grant beats g; among equals on all three criteria g stands for any of them. */
  ghost predicate Best(now: Micros, w: nat, c: Capability, gs: seq<Grant>, g: Grant) {
    && g in gs && Applies(now, w, c, g) && !g.sourceType.HardDeny?
    && (forall h :: h in gs && Applies(now, w, c, h) && !h.sourceType.HardDeny? ==> !GrantBefore(h, g))
  }

  lemma {:induction false} KeptMembers(now: Micros, w: nat, c: Capability, gs: seq<Grant>, deny: bool)
    ensures forall g ::
      g in Kept(now, w, c, gs, deny) <==> (g in gs && Applies(now, w, c, g) && g.sourceType.HardDeny? == deny)
  {
    if gs != [] {
      KeptMembers(now, w, c, gs[..|gs| - 1], deny);
      assert gs == gs[..|gs| - 1] + [gs[|gs| - 1]];
    }
  }

  /** The resolver refines a maximum: a live denial wins, otherwise the best live grant is selected. */
  lemma ResolveMeaning(now: Micros, w: nat, c: Capability, gs: seq<Grant>)
    ensures Resolve(now, w, c, gs).Failure? <==> exists g :: g in gs && !ValidGrant(g)
    ensures Resolve(now, w, c, gs).Success? ==>
      var r := Resolve(now, w, c, gs).value;
      && (r.hardDeny <==> Denied(now, w, c, gs))
      && (r.allowed <==> Granted(now, w, c, gs) && !Denied(now, w, c, gs))
      && (!r.allowed ==> r.limit == 0)
      && (r.allowed ==> exists g :: Best(now, w, c, gs, g) && g.limit == r.limit
                                   && g.sourceType == r.sourceType && Some(g.sourceId) == r.sourceId)
      && (r.allowed ==> forall h :: h in gs && Applies(now, w, c, h) && !h.sourceType.HardDeny? ==> h.limit <= r.limit)
  {
    KeptMembers(now, w, c, gs, true);
    KeptMembers(now, w, c, gs, false);
    var denies, active := Kept(now, w, c, gs, true), Kept(now, w, c, gs, false);
    assert denies != [] ==> denies[0] in denies;
    assert active != [] ==> active[0] in active;
    GrantOrders();
    if active != [] && denies == [] {
      SortCorrect(GrantBefore, active);
      var ordered := Sort(GrantBefore, active);
      var g := ordered[0];
      assert g in ordered;
      forall h | h in gs && Applies(now, w, c, h) && !h.sourceType.HardDeny?
        ensures !GrantBefore(h, g)
      {
        assert h in active;
        var i :| 0 <= i < |ordered| && ordered[i] == h;
      }
      assert Best(now, w, c, gs, g);
    }
  }

  /** Two best grants agree on limit, source type and source id. */
  lemma BestUnique(now: Micros, w: nat, c: Capability, gs: seq<Grant>, g: Grant, h: Grant)
    requires Best(now, w, c, gs, g) && Best(now, w, c, gs, h)
    ensures g.limit == h.limit && g.sourceType == h.sourceType && g.sourceId == h.sourceId
  {
    SourceIdOrder();
  }

  /** The decision, including which source is credited, does not depend on the order of the rows. */
  lemma OrderIndependent(now: Micros, w: nat, c: Capability, gs: seq<Grant>, gs': seq<Grant>)
    requires forall g :: g in gs <==> g in gs'
    requires Resolve(now, w, c, gs).Success?
    ensures Resolve(now, w, c, gs').Success?
    ensures var a, b := Resolve(now, w, c, gs).value, Resolve(now, w, c, gs').value;
            && a.allowed == b.allowed && a.limit == b.limit && a.hardDeny == b.hardDeny
            && (a.allowed ==> a.sourceType == b.sourceType && a.sourceId == b.sourceId)
  {
    ResolveMeaning(now, w, c, gs);
    ResolveMeaning(now, w, c, gs');
    var a, b := Resolve(now, w, c, gs).value, Resolve(now, w, c, gs').value;
    if a.allowed {
      var g :| Best(now, w, c, gs, g) && g.limit == a.limit
               && g.sourceType == a.sourceType && Some(g.sourceId) == a.sourceId;
      var h :| Best(now, w, c, gs', h) && h.limit == b.limit
               && h.sourceType == b.sourceType && Some(h.sourceId) == b.sourceId;
      assert Best(now, w, c, gs, h);
      BestUnique(now, w, c, gs, g, h);
    }
  }

  /** One more grant that is not a denial never lowers the answer. */
  lemma MoreGrantsMoreAuthority(now: Micros, w: nat, c: Capability, gs: seq<Grant>, g: Grant)
    requires Resolve(now, w, c, gs).Success? && ValidGrant(g) && !g.sourceType.HardDeny?
    ensures Resolve(now, w, c, gs + [g]).Success?
    ensures var a, b := Resolve(now, w, c, gs).value, Resolve(now, w, c, gs + [g]).value;
            (a.allowed ==> b.allowed) && a.limit <= b.limit
  {
    ResolveMeaning(now, w, c, gs);
    ResolveMeaning(now, w, c, gs + [g]);
    var a := Resolve(now, w, c, gs).value;
    if a.allowed {
      var best :| Best(now, w, c, gs, best) && best.limit == a.limit;
      assert best in gs + [g];
    }
  }

  /** No grant starts, ends or is revoked after s and up to t. */
  ghost predicate QuietBetween(gs: seq<Grant>, s: Micros, t: Micros) {
    forall g :: g in gs ==>
      && !(s < g.startsAt <= t)
      && (g.endsAt.Some? ==> !(s < g.endsAt.value <= t))
      && (g.revokedAt.Some? ==> !(s < g.revokedAt.value <= t))
  }

  /** Between two consecutive boundaries the answer is constant. */
  lemma {:induction false} ConstantBetweenBoundaries(s: Micros, t: Micros, w: nat, c: Capability, gs: seq<Grant>)
    requires s <= t && QuietBetween(gs, s, t)
    ensures Kept(s, w, c, gs, true) == Kept(t, w, c, gs, true)
    ensures Kept(s, w, c, gs, false) == Kept(t, w, c, gs, false)
    ensures Resolve(s, w, c, gs) == Resolve(t, w, c, gs)
  {
    if gs != [] {
      var front := gs[..|gs| - 1];
      assert forall g :: g in front ==> g in gs;
      ConstantBetweenBoundaries(s, t, w, c, front);
      assert gs[|gs| - 1] in gs;
    }
  }
}
