/**
 * The administrator's control over a workspace's custom-domain entitlement and the routing of its
 * domains (internal/admin/domain_entitlements_*.go and the domain mutations of internal/domains).
 */
module DomainGovernance {
  import opened Foundations
  import D = DomainEntitlement

  datatype Routing = PendingRouting | Enabled | SuspendedRouting | RevokedRouting | RemovedRouting

  datatype Ownership = OwnershipPending | OwnershipVerified | OwnershipFailed | OwnershipLost
  datatype Ingress = IngressPending | IngressValid | IngressInvalid
  datatype Https = HttpsPending | HttpsActive | HttpsError
  datatype Risk = RiskMissing | RiskAllow | RiskReview | RiskBlock | RiskMalformed | RiskStale

  datatype Axes = Axes(ownership: Ownership, ingress: Ingress, https: Https, risk: Risk) {
    predicate Ready() { ownership.OwnershipVerified? && ingress.IngressValid? && https.HttpsActive? && risk.RiskAllow? }
  }

  /** DomainSecurityCategory; only the first three can be asked for from outside. */
  datatype Category = Abuse | Fraud | General | OwnershipLoss {
    predicate External() { !OwnershipLoss? }
  }

  /** category is the security category the domain is held for. */
  datatype Domain = Domain(workspace: nat, hostname: nat, routing: Routing, axes: Axes, category: Option<Category>) {
    /** What activation, restoring and lifting a control refuse. */
    predicate Held() {
      category.Some? || axes.ownership.OwnershipLost? || routing.RevokedRouting? || routing.RemovedRouting?
    }
  }

  datatype ControlState = ControlSuspended | ControlRevoked

  datatype Control = Control(state: ControlState, reason: nat, effectiveAt: Micros)

  datatype RequestStatus = Requested | Approved | Denied

  datatype Request = Request(ticket: nat, status: RequestStatus)

  /** Requests are kept in the order they were submitted, sources in the order of their ids. */
  datatype World = World(
    workspaces: map<nat, bool>,                    // whether it is active or suspended
    sources: map<nat, seq<D.Source>>,
    requests: map<nat, seq<Request>>,
    controls: map<nat, Control>,
    domains: map<nat, Domain>,
    usage: map<nat, nat>)

  // ---------------------------------------------------------------- resolution with the overlay

  function Rows<T>(table: map<nat, seq<T>>, w: nat): seq<T> { if w in table then table[w] else [] }

  /** The ticket of the latest open request. */
  function LatestOpen(requests: seq<Request>): Option<nat> {
    if requests == [] then None
    else if requests[|requests| - 1].status.Requested? then Some(requests[|requests| - 1].ticket)
    else LatestOpen(requests[..|requests| - 1])
  }

  function Base(world: World, w: nat, now: Micros): Result<D.Resolved> {
    D.Resolve(now, Rows(world.sources, w), LatestOpen(Rows(world.requests, w)))
  }

  predicate InEffect(world: World, w: nat, now: Micros) { w in world.controls && world.controls[w].effectiveAt <= now }

  function StatusOf(state: ControlState): D.Status { if state.ControlSuspended? then D.Suspended else D.Revoked }

  /** ApplyAdminEntitlementControl. */
  function Overlay(world: World, w: nat, now: Micros, base: D.Resolved): Result<D.Resolved> {
    if w == 0 then Failure(InvalidSource)
    else if !InEffect(world, w, now) then Success(base)
    else if world.controls[w].reason == 0 then Failure(InvalidSource)
    else
      Success(base.(status := StatusOf(world.controls[w].state), reason := D.Text(world.controls[w].reason),
                    gracePeriod := false, graceUntil := None, mutationAllowed := false, routingAllowed := false))
  }

  function ResolveIn(world: World, w: nat, now: Micros): Result<D.Resolved> {
    var base :- Base(world, w, now);
    Overlay(world, w, now, base)
  }

  // ---------------------------------------------------------------- administrator decisions

  datatype Action =
    | Approve(ticket: nat, limit: nat, startsAt: Micros, expiresAt: Micros)
    | Deny(userCategory: nat)
    | Suspend(effectiveAt: Micros)
    | Revoke
    | Restore(evidence: nat)

  /** validateDomainEntitlementDecisionInput. */
  predicate ValidAction(action: Action, now: Micros) {
    match action
    case Approve(ticket, limit, startsAt, expiresAt) => limit != 0 && startsAt != 0 && startsAt < expiresAt
      && ticket != 0
    case Deny(category) => category != 0
    case Suspend(effectiveAt) => effectiveAt != 0 && effectiveAt <= now
    case Revoke => true
    case Restore(evidence) => evidence != 0
  }

  datatype Decision = Decision(workspace: nat, action: Action, actor: nat, reason: nat, id: nat, now: Micros)

  function SetStatus(requests: seq<Request>, i: nat, status: RequestStatus): seq<Request>
    requires i < |requests|
  {
    requests[i := requests[i].(status := status)]
  }

  /** The position of the open request with the ticket, or of the latest open one. */
  function OpenAt(requests: seq<Request>, ticket: Option<nat>): (i: Option<nat>)
    ensures i.Some? ==> i.value < |requests| && requests[i.value].status.Requested?
    ensures i.Some? && ticket.Some? ==> requests[i.value].ticket == ticket.value
    ensures i.None? ==> forall j :: 0 <= j < |requests| && requests[j].status.Requested? ==>
      ticket.Some? && requests[j].ticket != ticket.value
  {
    if requests == [] then None
    else
      var n := |requests| - 1;
      if requests[n].status.Requested? && (ticket.None? || requests[n].ticket == ticket.value) then Some(n)
      else OpenAt(requests[..n], ticket)
  }

  function ApproveRequest(world: World, d: Decision): (r: Result<World>)
    requires d.action.Approve?
    ensures r.Success? ==> r.value == world.(sources := r.value.sources, requests := r.value.requests)
    ensures r.Success? ==> forall w :: w != d.workspace ==>
      Rows(r.value.sources, w) == Rows(world.sources, w) && Rows(r.value.requests, w) == Rows(world.requests, w)
  {
    var requests := Rows(world.requests, d.workspace);
    var i := OpenAt(requests, Some(d.action.ticket));
    var source := D.Source(d.workspace, D.ManualApproval, D.OtherKey(d.id), D.Active, d.action.limit, d.action.startsAt,
                           Some(d.action.expiresAt), None, None, d.actor, d.action.ticket, D.Text(d.reason), 0);
    if i.None? then Failure(Conflict)
    else if exists s :: s in Rows(world.sources, d.workspace) && s.kind == source.kind && s.key == source.key
    then Failure(Conflict)
    else
      Success(world.(sources := world.sources[d.workspace := Rows(world.sources, d.workspace) + [source]],
                     requests := world.requests[d.workspace := SetStatus(requests, i.value, Approved)]))
  }

  function DenyRequest(world: World, w: nat): (r: Result<World>)
    ensures r.Success? ==> r.value == world.(requests := r.value.requests)
    ensures r.Success? ==> forall v :: v != w ==> Rows(r.value.requests, v) == Rows(world.requests, v)
  {
    var requests := Rows(world.requests, w);
    var i := OpenAt(requests, None);
    if i.None? then Failure(Conflict)
    else Success(world.(requests := world.requests[w := SetStatus(requests, i.value, Denied)]))
  }

  predicate Routable(d: Domain, w: nat) { d.workspace == w && (d.routing.PendingRouting? || d.routing.Enabled?) }

  function RoutableIds(domains: map<nat, Domain>, w: nat): set<nat> {
    set id | id in domains && Routable(domains[id], w)
  }

  function SuspendIds(domains: map<nat, Domain>, ids: set<nat>): map<nat, Domain> {
    map id | id in domains :: if id in ids then domains[id].(routing := SuspendedRouting) else domains[id]
  }

  /** setDomainEntitlementControlTx. */
  function SetControl(world: World, w: nat, control: Control): Result<(World, nat)> {
    if w in world.controls && world.controls[w].state.ControlRevoked?
      && control.state.ControlSuspended? then Failure(Conflict)
    else
      var ids := RoutableIds(world.domains, w);
      if |ids| > MAX_UINT32 then Failure(InvalidInput)
      else Success((world.(controls := world.controls[w := control], domains := SuspendIds(world.domains, ids)), |ids|))
  }

  predicate Unsafe(d: Domain, w: nat) { d.workspace == w && d.Held() }

  /** restoreDomainEntitlementControlTx: it only takes the overlay away. */
  function RestoreControl(world: World, w: nat): Result<World> {
    if w !in world.controls then Failure(Conflict)
    else if exists id :: id in world.domains && Unsafe(world.domains[id], w) then Failure(Conflict)
    else Success(world.(controls := world.controls - {w}))
  }

  function Act(world: World, d: Decision, before: D.Resolved): Result<(World, nat)> {
    match d.action
    case Approve(_, _, _, _) =>
      var approved :- ApproveRequest(world, d);
      Success((approved, 0))
    case Deny(_) =>
      var denied :- DenyRequest(world, d.workspace);
      Success((denied, 0))
    case Suspend(effectiveAt) =>
      if before.status.Suspended? || before.status.Revoked? || before.kind.None? then Failure(Conflict)
      else SetControl(world, d.workspace, Control(ControlSuspended, d.reason, effectiveAt))
    case Revoke =>
      if before.status.Revoked? || before.kind.None? then Failure(Conflict)
      else SetControl(world, d.workspace, Control(ControlRevoked, d.reason, d.now))
    case Restore(_) =>
      var restored :- RestoreControl(world, d.workspace);
      Success((restored, 0))
  }

  /** DecideDomainEntitlement, after authorization and replay detection: the new tables and the routes suspended. */
  function Decide(world: World, d: Decision): Result<(World, nat)> {
    if d.workspace == 0 || d.actor == 0 || d.reason == 0 || !ValidAction(d.action, d.now) then Failure(InvalidInput)
    else if d.workspace !in world.workspaces then Failure(NotFound)
    else if !world.workspaces[d.workspace] then Failure(Conflict)
    else
      var before :- ResolveIn(world, d.workspace, d.now);
      var done :- Act(world, d, before);
      var after :- ResolveIn(done.0, d.workspace, d.now);
      Success(done)
  }

  // ---------------------------------------------------------------- domain mutations

  function Allocated(usage: map<nat, nat>, w: nat): nat { if w in usage then usage[w] else 0 }

  const UNVERIFIED := Axes(OwnershipPending, IngressPending, HttpsPending, RiskMissing)

  /** CreateDomain; hostname is the normalised name, if the policy accepts it, and newId the next row id. */
  function CreateDomain(world: World, w: nat, hostname: Option<nat>, newId: nat, now: Micros): Result<World> {
    if w == 0 || now == 0 then Failure(InvalidInput)
    else
      var entitlement :- ResolveIn(world, w, now);
      if !entitlement.mutationAllowed then Failure(Conflict)
      else if hostname.None? then Failure(InvalidInput)
      else if Allocated(world.usage, w) >= entitlement.limit then Failure(Conflict)
      else if newId in world.domains || exists id :: id in world.domains && world.domains[id].hostname == hostname.value
      then Failure(Conflict)
      else
        Success(world.(domains := world.domains[newId := Domain(w, hostname.value, PendingRouting, UNVERIFIED, None)],
                       usage := world.usage[w := Allocated(world.usage, w) + 1]))
  }

  /** mutateRouting: ActivateDomain and RestoreDomain. */
  function MutateRouting(world: World, w: nat, id: nat, restore: bool, now: Micros): Result<World> {
    if w == 0 || id == 0 || now == 0 then Failure(InvalidInput)
    else if id !in world.domains || world.domains[id].workspace != w then Failure(NotFound)
    else
      var d := world.domains[id];
      var entitlement :- ResolveIn(world, w, now);
      if d.Held() || !entitlement.mutationAllowed || !d.axes.Ready() then Failure(Conflict)
      else if d.routing != (if restore then SuspendedRouting else PendingRouting) then Failure(InvalidInput)
      else Success(world.(domains := world.domains[id := d.(routing := Enabled)]))
  }

  /** RestoreDomainSecuritySuspension. */
  function SecurityRestore(world: World, w: nat, id: nat, category: Category, now: Micros): Result<World> {
    if w == 0 || id == 0 || now == 0 || !category.External() then Failure(InvalidInput)
    else if id !in world.domains || world.domains[id].workspace != w then Failure(NotFound)
    else
      var d := world.domains[id];
      if !d.routing.SuspendedRouting? || d.category != Some(category) then Failure(Conflict)
      else
        var entitlement :- ResolveIn(world, w, now);
        if !entitlement.routingAllowed || !d.axes.Ready() then Failure(Conflict)
        else Success(world.(domains := world.domains[id := d.(routing := Enabled, category := None)]))
  }

  /** ApplyDomainSecuritySuspension. */
  function SecuritySuspend(world: World, w: nat, id: nat, category: Category, now: Micros): Result<World> {
    if w == 0 || id == 0 || now == 0 || !category.External() then Failure(InvalidInput)
    else if id !in world.domains || world.domains[id].workspace != w then Failure(NotFound)
    else
      var d := world.domains[id];
      if d.routing.SuspendedRouting? && d.category == Some(category) then Success(world)
      else if (d.category.Some? && d.category != Some(category)) || d.routing.RemovedRouting?
        || d.routing.RevokedRouting?
      then Failure(Conflict)
      else Success(world.(domains := world.domains[id := d.(routing := SuspendedRouting, category := Some(category))]))
  }

  /** ApplyOwnershipLoss: a category the domain is held for already is kept. */
  function LoseOwnership(world: World, w: nat, id: nat, now: Micros): Result<World> {
    if w == 0 || id == 0 || now == 0 then Failure(InvalidInput)
    else if id !in world.domains || world.domains[id].workspace != w then Failure(NotFound)
    else
      var d := world.domains[id];
      if d.axes.ownership.OwnershipLost? && d.routing.SuspendedRouting? && d.category.Some? then Success(world)
      else if d.routing.RemovedRouting? || d.routing.RevokedRouting? then Failure(Conflict)
      else
        var category := if d.category.None? then Some(OwnershipLoss) else d.category;
        Success(world.(domains := world.domains[id := d.(axes := d.axes.(ownership := OwnershipLost),
                                                         routing := SuspendedRouting, category := category)]))
  }
}
