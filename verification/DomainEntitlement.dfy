/**
 * Custom-domain entitlement sources and their time-based resolver (internal/domains/entitlement.go).
 * Identifiers and free text are numbers; 0 stands for a blank string or a missing id.
 */
module DomainEntitlement {
  import opened Foundations
  import opened Sorting

  /** The normal-downgrade grace: seven days. */
  const GRACE: nat := 7 * DAY

  datatype Kind = Plan | ManualApproval

  /** source_key: the two keys the billing package owns, or any other. */
  datatype Key = BillingKey | TargetKey | OtherKey(n: nat)

  datatype Status = Requested | Active | Suspended | Expired | Revoked

  datatype Reason =
    | Blank
    | NotEntitled
    | RequestPending
    | DowngradeGrace
    | ActivePlan
    | ActiveManual
    | BillingActive
    | BillingDowngrade
    | BillingTarget
    | BillingEffective
    | BillingExpired
    | Text(n: nat)

  datatype Source = Source(
    workspace: nat,
    kind: Kind,
    key: Key,
    status: Status,
    limit: nat,
    startsAt: Micros,
    expiresAt: Option<Micros>,
    degradedAt: Option<Micros>,
    graceUntil: Option<Micros>,
    grantedBy: nat,
    ticket: nat,
    reason: Reason,
    category: nat)

  datatype Resolved = Resolved(
    kind: Option<Kind>,
    status: Status,
    limit: nat,
    startsAt: Option<Micros>,
    expiresAt: Option<Micros>,
    grantedBy: nat,
    ticket: nat,
    reason: Reason,
    gracePeriod: bool,
    graceUntil: Option<Micros>,
    mutationAllowed: bool,
    routingAllowed: bool,
    validSources: seq<Source>)

  /** ValidateEntitlementSource. */
  predicate Valid(s: Source) {
    && s.workspace != 0
    && (s.status.Active? || s.status.Suspended? || s.status.Expired? || s.status.Revoked?)
    && s.limit != 0
    && s.startsAt != 0
    && (s.expiresAt.Some? ==> s.startsAt < s.expiresAt.value)
    && (s.degradedAt.None? <==> s.graceUntil.None?)
    && (s.degradedAt.Some? ==> s.kind.Plan? && s.graceUntil.value == s.degradedAt.value + GRACE)
    && (s.kind.ManualApproval? ==> s.expiresAt.Some? && s.grantedBy != 0 && s.ticket != 0 && s.reason != Blank)
    && (s.status.Suspended? || s.status.Revoked? ==> s.reason != Blank && s.category != 0)
  }

  predicate Ended(at: Option<Micros>, now: Micros) { at.Some? && at.value <= now }

  /** A security decision in force: it denies everything whatever else the workspace holds. */
  predicate SecurityHold(now: Micros, s: Source) {
    (s.status.Suspended? || s.status.Revoked?) && s.startsAt <= now && !Ended(s.expiresAt, now)
  }

  function SecurityPriority(status: Status): nat {
    if status.Revoked? then 2 else if status.Suspended? then 1 else 0
  }

  function StrongestHold(now: Micros, ss: seq<Source>): Option<Source> {
    if ss == [] then None
    else
      var best := StrongestHold(now, ss[..|ss| - 1]);
      var s := ss[|ss| - 1];
      if SecurityHold(now, s)
         && (best.None? || SecurityPriority(s.status) > SecurityPriority(best.value.status))
      then Some(s)
      else best
  }

  datatype Class = Ignored | Regular | Grace

  /** What an active source contributes at an instant. */
  function ClassOf(now: Micros, s: Source): Class {
    if !s.status.Active? || now < s.startsAt then Ignored
    else if s.degradedAt.Some? then
      if now < s.degradedAt.value then (if Ended(s.expiresAt, now) then Ignored else Regular)
      else if s.graceUntil.Some? && now < s.graceUntil.value then Grace
      else Ignored
    else if Ended(s.expiresAt, now) then Ignored
    else Regular
  }

  function OfClass(now: Micros, ss: seq<Source>, c: Class): seq<Source> {
    if ss == [] then []
    else
      var before := OfClass(now, ss[..|ss| - 1], c);
      if ClassOf(now, ss[|ss| - 1]) == c then before + [ss[|ss| - 1]] else before
  }

  /** Stands for the alphabetical order of source keys. */
  function KeyRank(k: Key): nat {
    match k
    case BillingKey => 0
    case TargetKey => 1
    case OtherKey(n) => n + 2
  }

  /** Higher limit first, then plans before approvals, then the smaller key. */
  predicate Preferred(a: Source, b: Source) {
    if a.limit != b.limit then a.limit > b.limit
    else if a.kind != b.kind then a.kind.Plan?
    else KeyRank(a.key) < KeyRank(b.key)
  }

  function Highest(ss: seq<Source>): (r: Source)
    requires ss != []
    ensures r in ss
    ensures forall s :: s in ss ==> s.limit <= r.limit
  {
    SortCorrect(Preferred, ss);
    assert forall s :: s in ss ==> exists i :: 0 <= i < |ss| && Sort(Preferred, ss)[i] == s;
    Sort(Preferred, ss)[0]
  }

  function FromSource(s: Source, status: Status, mutation: bool, routing: bool, grace: bool,
                      graceUntil: Option<Micros>, sources: seq<Source>): Resolved {
    var reason :=
      if s.reason != Blank then s.reason
      else if grace then DowngradeGrace
      else if s.kind.Plan? then ActivePlan
      else ActiveManual;
    Resolved(Some(s.kind), status, s.limit, Some(s.startsAt), s.expiresAt, s.grantedBy, s.ticket, reason,
             grace, graceUntil, mutation, routing, sources)
  }

  function NoAuthority(status: Status, ticket: nat, reason: Reason): Resolved {
    Resolved(None, status, 0, None, None, 0, ticket, reason, false, None, false, false, [])
  }

  function Resolve(now: Micros, ss: seq<Source>, request: Option<nat>): Result<Resolved> {
    if exists s :: s in ss && !Valid(s) then Failure(InvalidSource)
    else
      var hold := StrongestHold(now, ss);
      var regular := OfClass(now, ss, Regular);
      var grace := OfClass(now, ss, Grace);
      if hold.Some? then
        Success(FromSource(hold.value, hold.value.status, false, false, false, None, [hold.value]))
      else if regular != [] then
        Success(FromSource(Highest(regular), Active, true, true, false, None, regular))
      else if grace != [] then
        var s := Highest(grace);
        Success(FromSource(s, Active, false, true, true, s.graceUntil, grace))
      else if request.Some? && request.value != 0 then
        Success(NoAuthority(Requested, request.value, RequestPending))
      else
        Success(NoAuthority(Expired, 0, NotEntitled))
  }

  // ---------------------------------------------------------------- the loops of the source

  method StrongestCurrentSecuritySource(now: Micros, sources: seq<Source>) returns (selected: Option<Source>)
    ensures selected == StrongestHold(now, sources)
  {
    selected := None;
    for i := 0 to |sources|
      invariant selected == StrongestHold(now, sources[..i])
    {
      assert sources[..i + 1][..i] == sources[..i];
      var s := sources[i];
      if !s.status.Suspended? && !s.status.Revoked? { continue; }
      if now < s.startsAt { continue; }
      if s.expiresAt.Some? && s.expiresAt.value <= now { continue; }
      if selected.None? || SecurityPriority(s.status) > SecurityPriority(selected.value.status) {
        selected := Some(s);
      }
    }
    assert sources[..|sources|] == sources;
  }

  method ResolveEntitlement(now: Micros, sources: seq<Source>, request: Option<nat>) returns (r: Result<Resolved>)
    ensures r == Resolve(now, sources, request)
  {
    for i := 0 to |sources|
      invariant forall j :: 0 <= j < i ==> Valid(sources[j])
    {
      if !Valid(sources[i]) { return Failure(InvalidSource); }
    }
    assert forall s :: s in sources ==> Valid(s);
    var security := StrongestCurrentSecuritySource(now, sources);
    if security.Some? {
      var s := security.value;
      return Success(FromSource(s, s.status, false, false, false, None, [s]));
    }
    var regular, grace := [], [];
    for i := 0 to |sources|
      invariant regular == OfClass(now, sources[..i], Regular)
      invariant grace == OfClass(now, sources[..i], Grace)
    {
      assert sources[..i + 1][..i] == sources[..i];
      var s := sources[i];
      if !s.status.Active? || now < s.startsAt { continue; }
      if s.degradedAt.Some? {
        if now < s.degradedAt.value {
          if s.expiresAt.None? || now < s.expiresAt.value { regular := regular + [s]; }
          continue;
        }
        if now < s.graceUntil.value { grace := grace + [s]; }
        continue;
      }
      if s.expiresAt.Some? && s.expiresAt.value <= now { continue; }
      regular := regular + [s];
    }
    assert sources[..|sources|] == sources;
    if |regular| > 0 {
      var selected := Highest(regular);
      return Success(FromSource(selected, Active, true, true, false, None, regular));
    }
    if |grace| > 0 {
      var selected := Highest(grace);
      return Success(FromSource(selected, Active, false, true, true, selected.graceUntil, grace));
    }
    if request.Some? && request.value != 0 {
      return Success(NoAuthority(Requested, request.value, RequestPending));
    }
    return Success(NoAuthority(Expired, 0, NotEntitled));
  }

  // ---------------------------------------------------------------- what a resolution means

  ghost predicate Held(now: Micros, ss: seq<Source>) {
    exists s :: s in ss && SecurityHold(now, s)
  }

  ghost predicate Contributes(now: Micros, ss: seq<Source>, c: Class) {
    exists s :: s in ss && ClassOf(now, s) == c
  }

  ghost predicate AllValid(ss: seq<Source>) {
    forall s :: s in ss ==> Valid(s)
  }

  lemma {:induction false} OfClassMembers(now: Micros, ss: seq<Source>, c: Class)
    ensures forall s :: s in OfClass(now, ss, c) <==> s in ss && ClassOf(now, s) == c
  {
    if ss != [] {
      OfClassMembers(now, ss[..|ss| - 1], c);
      assert ss == ss[..|ss| - 1] + [ss[|ss| - 1]];
    }
  }

  lemma {:induction false} StrongestHoldMeaning(now: Micros, ss: seq<Source>)
    ensures StrongestHold(now, ss).Some? <==> Held(now, ss)
    ensures var h := StrongestHold(now, ss);
            h.Some? ==>
              && h.value in ss && SecurityHold(now, h.value)
              && (h.value.status.Revoked? <==> exists s :: s in ss && SecurityHold(now, s) && s.status.Revoked?)
  {
    if ss != [] {
      StrongestHoldMeaning(now, ss[..|ss| - 1]);
      assert ss == ss[..|ss| - 1] + [ss[|ss| - 1]];
      if Held(now, ss[..|ss| - 1]) {
        var s :| s in ss[..|ss| - 1] && SecurityHold(now, s);
        assert s in ss;
      }
      if SecurityHold(now, ss[|ss| - 1]) { assert ss[|ss| - 1] in ss; }
    }
  }

  /** The limit of a class is its largest one. */
  ghost predicate IsTopLimit(now: Micros, ss: seq<Source>, c: Class, limit: nat) {
    && (exists s :: s in ss && ClassOf(now, s) == c && s.limit == limit)
    && (forall s :: s in ss && ClassOf(now, s) == c ==> s.limit <= limit)
  }

  /**
   * Every answer the resolver can give, read off the set of sources alone: it fails exactly on an
   * invalid source, a security hold denies everything, and otherwise ordinary authority beats grace.
   */
  lemma ResolveMeaning(now: Micros, ss: seq<Source>, request: Option<nat>)
    ensures Resolve(now, ss, request).Failure? <==> !AllValid(ss)
    ensures AllValid(ss) ==>
      var r := Resolve(now, ss, request).value;
      && (r.mutationAllowed <==> !Held(now, ss) && Contributes(now, ss, Regular))
      && (r.routingAllowed <==> !Held(now, ss) && (Contributes(now, ss, Regular) || Contributes(now, ss, Grace)))
      && (r.gracePeriod <==> r.routingAllowed && !r.mutationAllowed)
      && (r.status.Active? <==> r.routingAllowed)
      && (r.status.Revoked? <==> exists s :: s in ss && SecurityHold(now, s) && s.status.Revoked?)
      && (r.status.Suspended? <==> Held(now, ss) && !r.status.Revoked?)
      && (r.status.Requested? <==> !Held(now, ss) && !r.routingAllowed && request.Some? && request.value != 0)
      && (r.mutationAllowed ==> IsTopLimit(now, ss, Regular, r.limit))
      && (r.gracePeriod ==> IsTopLimit(now, ss, Grace, r.limit))
      && (!r.routingAllowed && !Held(now, ss) ==> r.limit == 0)
      && (r.gracePeriod <==> r.graceUntil.Some?)
      && (r.graceUntil.Some? ==> now < r.graceUntil.value)
  {
    StrongestHoldMeaning(now, ss);
    OfClassMembers(now, ss, Regular);
    OfClassMembers(now, ss, Grace);
    var regular, grace := OfClass(now, ss, Regular), OfClass(now, ss, Grace);
    assert regular != [] ==> regular[0] in regular;
    assert grace != [] ==> grace[0] in grace;
    assert Contributes(now, ss, Regular) <==> regular != [];
    assert Contributes(now, ss, Grace) <==> grace != [];
  }

  /** The parts of a resolution that authorise something. */
  ghost predicate SameAuthority(a: Resolved, b: Resolved) {
    && a.status == b.status
    && a.mutationAllowed == b.mutationAllowed
    && a.routingAllowed == b.routingAllowed
    && a.gracePeriod == b.gracePeriod
    && (a.routingAllowed ==> a.limit == b.limit)
  }

  ghost predicate Offers(now: Micros, ss: seq<Source>, c: Class, limit: nat) {
    exists s :: s in ss && ClassOf(now, s) == c && s.limit == limit
  }

  /** Two collections that hold the same holds and offer the same limits in each class authorise the same. */
  lemma SameOffersSameAuthority(now: Micros, ss: seq<Source>, ss': seq<Source>, request: Option<nat>)
    requires AllValid(ss) <==> AllValid(ss')
    requires forall s :: SecurityHold(now, s) ==> (s in ss <==> s in ss')
    requires forall c, limit :: c != Ignored ==> (Offers(now, ss, c, limit) <==> Offers(now, ss', c, limit))
    ensures Resolve(now, ss, request).Success? <==> Resolve(now, ss', request).Success?
    ensures Resolve(now, ss, request).Success? ==>
      SameAuthority(Resolve(now, ss, request).value, Resolve(now, ss', request).value)
  {
    ResolveMeaning(now, ss, request);
    ResolveMeaning(now, ss', request);
    OffersMatch(now, ss, ss');
    OffersMatch(now, ss', ss);
  }

  lemma OffersMatch(now: Micros, ss: seq<Source>, ss': seq<Source>)
    requires forall c, limit :: c != Ignored ==> Offers(now, ss, c, limit) ==> Offers(now, ss', c, limit)
    ensures forall c :: c != Ignored && Contributes(now, ss, c) ==> Contributes(now, ss', c)
    ensures forall c, a, b :: c != Ignored && IsTopLimit(now, ss, c, a) && IsTopLimit(now, ss', c, b) ==> a <= b
  {
    forall s | s in ss && ClassOf(now, s) != Ignored
      ensures exists s' :: s' in ss' && ClassOf(now, s') == ClassOf(now, s) && s'.limit == s.limit
    {
      assert Offers(now, ss, ClassOf(now, s), s.limit);
    }
  }

  /** Authority does not depend on the order, or the repetition, of the sources. */
  lemma OrderIndependent(now: Micros, ss: seq<Source>, ss': seq<Source>, request: Option<nat>)
    requires forall s :: s in ss <==> s in ss'
    ensures Resolve(now, ss, request).Success? <==> Resolve(now, ss', request).Success?
    ensures Resolve(now, ss, request).Success? ==>
      SameAuthority(Resolve(now, ss, request).value, Resolve(now, ss', request).value)
  {
    SameOffersSameAuthority(now, ss, ss', request);
  }

  /** Changing authority implies routing authority; a security hold denies both. */
  lemma PermissionLadder(now: Micros, ss: seq<Source>, request: Option<nat>)
    requires Resolve(now, ss, request).Success?
    ensures var r := Resolve(now, ss, request).value;
            (r.mutationAllowed ==> r.routingAllowed)
            && (Held(now, ss) ==> !r.mutationAllowed && !r.routingAllowed)
  {
    ResolveMeaning(now, ss, request);
  }

  /** Where no hold is in force, one more valid source never takes a permission away or lowers its limit. */
  lemma MoreSourcesMoreAuthority(now: Micros, ss: seq<Source>, s: Source, request: Option<nat>)
    requires AllValid(ss) && Valid(s) && !Held(now, ss + [s])
    ensures Resolve(now, ss, request).Success? && Resolve(now, ss + [s], request).Success?
    ensures var a, b := Resolve(now, ss, request).value, Resolve(now, ss + [s], request).value;
            && (a.mutationAllowed ==> b.mutationAllowed && a.limit <= b.limit)
            && (a.routingAllowed ==> b.routingAllowed)
            && (a.gracePeriod && b.gracePeriod ==> a.limit <= b.limit)
  {
    ResolveMeaning(now, ss, request);
    ResolveMeaning(now, ss + [s], request);
    assert forall x :: x in ss ==> x in ss + [s];
    assert !Held(now, ss);
  }
}
