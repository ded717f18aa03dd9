/**
 * Billing rows, grant validation and the plan-downgrade order
 * (internal/billing/model.go, records.go, downgrade_plan.go).
 */
module BillingModel {
  import opened Foundations
  import opened Calendar
  import opened Tallies

  /** An ISO code read as a number in base 26; CURRENCIES is the first value that is not one. */
  const CURRENCIES: nat := 17_576

  datatype Money = Money(currency: nat, amount: nat) {
    /** Money.Validate(false). */
    predicate Charged() { currency < CURRENCIES && amount != 0 }
  }

  datatype Provider = Alipay | WeChat | Epay | PayPal | Stripe | Crypto

  datatype Capability = CustomDomains | OtherCapability(n: nat)

  datatype PlanStatus = Draft | ActivePlan | Archived

  datatype Plan = Plan(status: PlanStatus, money: Money, period: Period, entitlements: map<Capability, nat>)

  datatype SubscriptionStatus = Pending | Active | Grace | Overdue | Canceled | Expired

  /**
   * Subscription ids are hashes of what they are derived from; equal ids have equal origins. A target's
   * id is derived from the instant as the request read it, to the nanosecond.
   */
  datatype SubId = OrderSub(order: nat) | TargetSub(parent: SubId, effectiveAt: Instant)

  /** A fixed total order standing for the alphabetical order of the hashed ids. */
  predicate IdBefore(a: SubId, b: SubId) {
    match (a, b)
    case (OrderSub(x), OrderSub(y)) => x < y
    case (OrderSub(_), TargetSub(_, _)) => true
    case (TargetSub(_, _), OrderSub(_)) => false
    case (TargetSub(p, e), TargetSub(q, f)) =>
      if p != q then IdBefore(p, q) else e.at < f.at || (e.at == f.at && e.nanos < f.nanos)
  }

  lemma {:induction false} IdBeforeTotal(a: SubId, b: SubId)
    ensures !IdBefore(a, a)
    ensures a == b || IdBefore(a, b) || IdBefore(b, a)
    ensures !(IdBefore(a, b) && IdBefore(b, a))
  {
    if a.TargetSub? { IdBeforeTotal(a.parent, a.parent); }
    if a.TargetSub? && b.TargetSub? { IdBeforeTotal(a.parent, b.parent); }
  }

  lemma {:induction false} IdBeforeTransitive(a: SubId, b: SubId, c: SubId)
    requires IdBefore(a, b) && IdBefore(b, c)
    ensures IdBefore(a, c)
  {
    if a.TargetSub? {
      if a.parent == b.parent || b.parent == c.parent {
        IdBeforeTotal(a.parent, c.parent);
      } else {
        IdBeforeTransitive(a.parent, b.parent, c.parent);
        IdBeforeTotal(a.parent, c.parent);
        IdBeforeTotal(a.parent, b.parent);
      }
    }
  }

  datatype Subscription = Subscription(
    workspace: nat,
    plan: nat,
    status: SubscriptionStatus,
    startsAt: Micros,
    termEndsAt: Option<Micros>,
    graceEndsAt: Option<Micros>,
    cancelAt: Option<Micros>,
    version: nat)

  datatype SourceType = HardDeny | Manual | Inherited | Billing | Baseline

  datatype SourceId = SubRef(sub: SubId) | Named(n: nat)

  datatype Grant = Grant(
    workspace: nat,
    capability: Capability,
    sourceType: SourceType,
    sourceId: SourceId,
    limit: nat,
    startsAt: Micros,
    endsAt: Option<Micros>,
    revokedAt: Option<Micros>)

  /** EntitlementGrant.Validate. */
  predicate ValidGrant(g: Grant) {
    && g.workspace != 0
    && g.startsAt != 0
    && (g.sourceType.HardDeny? || g.limit != 0)
    && (g.endsAt.Some? ==> g.startsAt < g.endsAt.value)
    && (g.revokedAt.Some? ==> g.startsAt <= g.revokedAt.value)
  }

  /** The grant is in force at an instant, valid or not. */
  predicate Live(g: Grant, now: Micros) {
    && g.startsAt <= now
    && (g.revokedAt.Some? ==> now < g.revokedAt.value)
    && (g.endsAt.Some? ==> now < g.endsAt.value)
  }

  // ---------------------------------------------------------------- plan downgrades

  /** strictPlanDowngrade on plan rows with their ids. */
  predicate StrictDowngrade(currentId: nat, current: Plan, targetId: nat, target: Plan) {
    && currentId != 0 && targetId != 0 && currentId != targetId
    && current.money.currency == target.money.currency
    && current.period == target.period
    && target.money.amount <= current.money.amount
    && (forall c :: c in target.entitlements ==>
          c in current.entitlements && target.entitlements[c] <= current.entitlements[c])
    && (|| target.money.amount < current.money.amount
        || (exists c :: c in target.entitlements && target.entitlements[c] < current.entitlements[c])
        || (exists c :: c in current.entitlements && c !in target.entitlements))
  }

  method StrictPlanDowngrade(currentId: nat, current: Plan, targetId: nat, target: Plan) returns (downgrade: bool)
    ensures downgrade == StrictDowngrade(currentId, current, targetId, target)
  {
    if currentId == 0 || targetId == 0 || currentId == targetId
       || current.money.currency != target.money.currency || current.period != target.period
       || target.money.amount > current.money.amount
    {
      return false;
    }
    var strict := target.money.amount < current.money.amount;
    var rest := target.entitlements.Keys;
    while rest != {}
      invariant rest <= target.entitlements.Keys
      invariant forall c :: c in target.entitlements && c !in rest ==>
        c in current.entitlements && target.entitlements[c] <= current.entitlements[c]
      invariant strict <==>
        || target.money.amount < current.money.amount
        || exists c :: c in target.entitlements && c !in rest && target.entitlements[c] < current.entitlements[c]
    {
      var capability :| capability in rest;
      if capability !in current.entitlements || target.entitlements[capability] > current.entitlements[capability] {
        return false;
      }
      if target.entitlements[capability] < current.entitlements[capability] { strict := true; }
      rest := rest - {capability};
    }
    ghost var lowered := strict;
    rest := current.entitlements.Keys;
    while rest != {}
      invariant rest <= current.entitlements.Keys
      invariant strict <==>
        lowered || exists c :: c in current.entitlements && c !in rest && c !in target.entitlements
    {
      var capability :| capability in rest;
      if capability !in target.entitlements { strict := true; }
      rest := rest - {capability};
    }
    return strict;
  }

  lemma DowngradeIrreflexive(id: nat, p: Plan)
    ensures !StrictDowngrade(id, p, id, p)
  {
  }

  /**
   * Transitivity needs the ids only where the first and last plan could coincide, and a plan never
   * downgrades to itself through another one.
   */
  lemma DowngradeTransitive(i: nat, a: Plan, j: nat, b: Plan, k: nat, c: Plan)
    requires StrictDowngrade(i, a, j, b) && StrictDowngrade(j, b, k, c)
    requires i == k ==> a == c
    ensures StrictDowngrade(i, a, k, c)
  {
  }

  /** A smaller plan has a smaller sum of limits, strictly so when something was lost. */
  lemma {:induction false} SumLimitsMonotone(small: map<Capability, nat>, big: map<Capability, nat>)
    requires forall c :: c in small ==> c in big && small[c] <= big[c]
    requires forall c :: c in big ==> 1 <= big[c]
    ensures SumValues(small) <= SumValues(big)
    ensures (exists c :: c in small && small[c] < big[c]) || (exists c :: c in big && c !in small)
            ==> SumValues(small) < SumValues(big)
    decreases |big|
  {
    if big != map[] {
      var c :| c in big;
      SumRemove(big, c);
      SumLimitsMonotone(small - {c}, big - {c});
      if c in small {
        SumRemove(small, c);
      } else {
        assert small - {c} == small;
      }
      if x :| x in small && small[x] < big[x] {
        if x != c { assert x in small - {c} && (small - {c})[x] < (big - {c})[x]; }
      } else if x :| x in big && x !in small {
        if x != c { assert x in big - {c} && x !in small - {c}; }
      }
    } else {
      assert small == map[];
    }
  }

  ghost function PlanWeight(p: Plan): nat { p.money.amount + SumValues(p.entitlements) }

  /**
   * A downgrade in one measure: nothing grows, currency and period stay, and the price plus the sum of the limits
   * is smaller.
   */
  lemma DowngradeExactly(i: nat, a: Plan, j: nat, b: Plan)
    requires forall c :: c in a.entitlements ==> 1 <= a.entitlements[c]
    ensures StrictDowngrade(i, a, j, b) <==>
      && i != 0 && j != 0 && i != j
      && b.money.currency == a.money.currency && b.money.amount <= a.money.amount && b.period == a.period
      && (forall c :: c in b.entitlements ==> c in a.entitlements && b.entitlements[c] <= a.entitlements[c])
      && b.money.amount + SumValues(b.entitlements) < a.money.amount + SumValues(a.entitlements)
  {
    if forall c :: c in b.entitlements ==> c in a.entitlements && b.entitlements[c] <= a.entitlements[c] {
      SumLimitsMonotone(b.entitlements, a.entitlements);
      if (forall c :: c in b.entitlements ==> b.entitlements[c] == a.entitlements[c])
        && (forall c :: c in a.entitlements ==> c in b.entitlements) {
        assert b.entitlements == a.entitlements;
      }
    }
  }

  /** Every downgrade lowers the plan's price plus the sum of its limits. */
  lemma DowngradeLowersWeight(i: nat, a: Plan, j: nat, b: Plan)
    requires StrictDowngrade(i, a, j, b)
    requires forall c :: c in a.entitlements ==> 1 <= a.entitlements[c]
    ensures PlanWeight(b) < PlanWeight(a)
  {
    SumLimitsMonotone(b.entitlements, a.entitlements);
  }
}
