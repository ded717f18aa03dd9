/**
 * Which decisions and domain changes are accepted, by guards on the rows, and what they write
 * (internal/admin, internal/domains).
 */
module DomainAnswers {
  import opened Foundations
  import opened DomainGovernance
  import opened DomainOverlay
  import opened DomainDecisions
  import D = DomainEntitlement

  // ---------------------------------------------------------------- authorization

  /**
   * A decision is admitted with the permission, a reason, a key and a second factor verified at most ten
   * minutes ago.
   */
  lemma AdmittedExactly(s: Submission)
    ensures var mfa := s.authority.mfaVerifiedAt;
            && (HighRisk(s).None? <==>
                  && s.authority.permitted && s.decision.reason != 0 && s.authority.key != 0
                  && mfa.Some? && s.decision.now <= mfa.value + 10 * 60 * 1_000_000)
            && (HighRisk(s) == Some(Forbidden) <==> !s.authority.permitted)
            && (HighRisk(s) == Some(ReasonRequired) <==> s.authority.permitted && s.decision.reason == 0)
            && (HighRisk(s) == Some(MfaRequired) <==>
                  && s.authority.permitted && s.decision.reason != 0 && s.authority.key != 0
                  && (mfa.Some? ==> mfa.value + 10 * 60 * 1_000_000 < s.decision.now))
  {
  }

  // ---------------------------------------------------------------- decisions

  predicate IsOpen(world: World, w: nat, ticket: Option<nat>) {
    w in world.requests
    && exists r :: r in world.requests[w] && r.status.Requested? && (ticket.Some? ==> r.ticket == ticket.value)
  }

  /** A domain no restore of its workspace may pass over. */
  predicate Barred(d: Domain) {
    d.category.Some? || d.axes.ownership.OwnershipLost? || d.routing.RevokedRouting? || d.routing.RemovedRouting?
  }

  function Routing(world: World, w: nat): set<nat> {
    set id | id in world.domains && world.domains[id].workspace == w
             && (world.domains[id].routing.PendingRouting? || world.domains[id].routing.Enabled?)
  }

  /** The guards of each action, read off the rows and the resolution before it. */
  ghost predicate ActionFits(world: World, d: Decision)
    requires ResolveIn(world, d.workspace, d.now).Success?
  {
    var (w, before) := (d.workspace, ResolveIn(world, d.workspace, d.now).value);
    match d.action
    case Approve(ticket, limit, startsAt, expiresAt) =>
      && limit != 0 && startsAt != 0 && startsAt < expiresAt && ticket != 0 && IsOpen(world, w, Some(ticket))
      && !(w in world.sources && exists s ::
        s in world.sources[w] && s.kind.ManualApproval? && s.key == D.OtherKey(d.id))
    case Deny(category) => category != 0 && IsOpen(world, w, None)
    case Suspend(effectiveAt) =>
      && effectiveAt != 0 && effectiveAt <= d.now
      && before.kind.Some? && !before.status.Suspended? && !before.status.Revoked?
      && (w in world.controls ==> world.controls[w].state.ControlSuspended?) && |Routing(world, w)| <= 0xFFFF_FFFF
    case Revoke => before.kind.Some? && !before.status.Revoked? && |Routing(world, w)| <= 0xFFFF_FFFF
    case Restore(evidence) =>
      && evidence != 0 && w in world.controls
      && forall id :: id in world.domains && world.domains[id].workspace == w ==> !Barred(world.domains[id])
  }

  lemma OpenFound(requests: seq<Request>, ticket: Option<nat>)
    ensures OpenAt(requests, ticket).Some? <==>
      exists r :: r in requests && r.status.Requested? && (ticket.Some? ==> r.ticket == ticket.value)
  {
    if OpenAt(requests, ticket).Some? { assert requests[OpenAt(requests, ticket).value] in requests; }
  }

  lemma ActsExactly(world: World, d: Decision)
    requires ResolveIn(world, d.workspace, d.now).Success?
    ensures ValidAction(d.action, d.now) && Act(world, d, ResolveIn(world, d.workspace, d.now).value).Success?
      <==> ActionFits(world, d)
  {
    hide ResolveIn, OpenAt;
    var w := d.workspace;
    assert Routing(world, w) == RoutableIds(world.domains, w);
    match d.action
    case Approve(ticket, _, _, _) => OpenFound(Rows(world.requests, w), Some(ticket));
    case Deny(_) => OpenFound(Rows(world.requests, w), None);
    case Suspend(_) =>
    case Revoke =>
    case Restore(_) =>
  }

  /** Whatever was decided, valid sources stay valid and a control has a reason. */
  lemma ActedRows(world: World, d: Decision, before: D.Resolved)
    requires d.workspace != 0 && d.actor != 0 && d.reason != 0 && D.AllValid(Rows(world.sources, d.workspace))
    requires ValidAction(d.action, d.now) && Act(world, d, before).Success?
    ensures var world' := Act(world, d, before).value.0;
            && D.AllValid(Rows(world'.sources, d.workspace))
            && (d.workspace in world'.controls ==>
                  world'.controls[d.workspace].reason == d.reason
                  || (d.workspace in world.controls && world'.controls[d.workspace] == world.controls[d.workspace]))
  {
    hide OpenAt, SuspendIds, RoutableIds, SetStatus;
    match d.action
    case Approve(_, _, _, _) => ApprovedRows(world, d);
    case Deny(_) =>
    case Suspend(effectiveAt) => SetControlFrame(world, d.workspace, Control(ControlSuspended, d.reason, effectiveAt));
    case Revoke => SetControlFrame(world, d.workspace, Control(ControlRevoked, d.reason, d.now));
    case Restore(_) =>
  }

  lemma ApprovedRows(world: World, d: Decision)
    requires d.workspace != 0 && d.actor != 0 && d.reason != 0 && D.AllValid(Rows(world.sources, d.workspace))
    requires d.action.Approve? && ValidAction(d.action, d.now) && ApproveRequest(world, d).Success?
    ensures D.AllValid(Rows(ApproveRequest(world, d).value.sources, d.workspace))
  {
  }

  /** After an accepted action the workspace still resolves. */
  lemma StillResolves(world: World, d: Decision)
    requires d.workspace != 0 && d.actor != 0 && d.reason != 0 && ResolveIn(world, d.workspace, d.now).Success?
    requires ValidAction(d.action, d.now) && Act(world, d, ResolveIn(world, d.workspace, d.now).value).Success?
    ensures ResolveIn(Act(world, d, ResolveIn(world, d.workspace, d.now).value).value.0, d.workspace, d.now).Success?
  {
    hide ResolveIn, Act, ValidAction, D.AllValid, D.Held, D.Contributes, D.IsTopLimit, Base;
    var before := ResolveIn(world, d.workspace, d.now).value;
    var world' := Act(world, d, before).value.0;
    EffectiveAuthority(world, d.workspace, d.now);
    ActedRows(world, d, before);
    EffectiveAuthority(world', d.workspace, d.now);
    if d.workspace in world.controls && d.workspace in world'.controls
      && world'.controls[d.workspace] == world.controls[d.workspace] {
      assert InEffect(world', d.workspace, d.now) == InEffect(world, d.workspace, d.now);
    }
  }

  /** A decision is accepted exactly when these guards hold. */
  lemma DecidesExactly(world: World, d: Decision)
    ensures Decide(world, d).Success? <==>
      && d.workspace != 0 && d.actor != 0 && d.reason != 0
      && d.workspace in world.workspaces && world.workspaces[d.workspace]
      && ResolveIn(world, d.workspace, d.now).Success? && ActionFits(world, d)
  {
    hide ResolveIn, Act, ValidAction, ActionFits;
    if ResolveIn(world, d.workspace, d.now).Success? {
      ActsExactly(world, d);
      if d.workspace != 0 && d.actor != 0 && d.reason != 0 && ValidAction(d.action, d.now)
        && Act(world, d, ResolveIn(world, d.workspace, d.now).value).Success? { StillResolves(world, d); }
    }
  }

  /** The request a resolution shows is the latest open one, if there is one. */
  lemma {:induction false} LatestOpenShown(requests: seq<Request>)
    ensures LatestOpen(requests).None? <==> forall r :: r in requests ==> !r.status.Requested?
    ensures LatestOpen(requests).Some? ==>
      exists i :: 0 <= i < |requests| && requests[i].status.Requested? && LatestOpen(requests) == Some(requests[i].ticket)
                  && forall j :: i < j < |requests| ==> !requests[j].status.Requested?
  {
    if requests != [] {
      var n := |requests| - 1;
      LatestOpenShown(requests[..n]);
      assert requests == requests[..n] + [requests[n]];
      if !requests[n].status.Requested? && LatestOpen(requests[..n]).Some? {
        var i :| 0 <= i < n && requests[..n][i].status.Requested? && LatestOpen(requests[..n]) == Some(requests[..n][i].ticket)
                 && forall j :: i < j < n ==> !requests[..n][j].status.Requested?;
        assert forall j :: i < j < n ==> requests[j] == requests[..n][j];
        assert requests[i] == requests[..n][i];
      }
    }
  }

  /** A key belongs to one administrator and one kind of action: the same key for another kind is another key. */
  lemma KeysPerAction(a: Submission, b: Submission)
    ensures var (x, y) := (a.decision.action, b.decision.action);
            KeyOf(a) == KeyOf(b) <==>
              && a.decision.actor == b.decision.actor && a.authority.key == b.authority.key
              && (x.Approve? <==> y.Approve?) && (x.Deny? <==> y.Deny?) && (x.Suspend? <==> y.Suspend?)
              && (x.Revoke? <==> y.Revoke?) && (x.Restore? <==> y.Restore?)
  {
  }

  // ---------------------------------------------------------------- what decisions write

  /**
   * Exactly one request changed: an open one, with the given ticket if there was one, and no later one was
   * open too.
   */
  ghost predicate OneAnswered(before: seq<Request>, after: seq<Request>, ticket: Option<nat>, status: RequestStatus) {
    exists i :: 0 <= i < |before| == |after| && Answered(before, after, ticket, status, i)
  }

  ghost predicate Answered(before: seq<Request>, after: seq<Request>, ticket: Option<nat>, status: RequestStatus,
      i: nat)
    requires i < |before| == |after|
  {
    && before[i].status.Requested? && (ticket.Some? ==> before[i].ticket == ticket.value)
    && after[i].ticket == before[i].ticket && after[i].status == status
    && (forall j :: 0 <= j < |before| && j != i ==> after[j] == before[j])
    && (forall j :: i < j < |before| && before[j].status.Requested? ==>
      ticket.Some? && before[j].ticket != ticket.value)
  }

  lemma {:induction false} OpenIsLatest(requests: seq<Request>, ticket: Option<nat>)
    requires OpenAt(requests, ticket).Some?
    ensures forall j :: OpenAt(requests, ticket).value < j < |requests| && requests[j].status.Requested? ==>
      ticket.Some? && requests[j].ticket != ticket.value
  {
    var n := |requests| - 1;
    if OpenAt(requests, ticket).value < n {
      OpenIsLatest(requests[..n], ticket);
      assert forall j :: 0 <= j < n ==> requests[..n][j] == requests[j];
    }
  }

  lemma AnsweredOne(requests: seq<Request>, ticket: Option<nat>, status: RequestStatus)
    requires OpenAt(requests, ticket).Some?
    ensures OneAnswered(requests, SetStatus(requests, OpenAt(requests, ticket).value, status), ticket, status)
  {
    OpenIsLatest(requests, ticket);
    var i := OpenAt(requests, ticket).value;
    assert Answered(requests, SetStatus(requests, i, status), ticket, status, i);
  }

  /** An approval answers one open request and adds one manual source with exactly what was granted. */
  lemma ApprovalWrites(world: World, d: Decision)
    requires d.action.Approve? && ApproveRequest(world, d).Success?
    ensures var (w, world') := (d.workspace, ApproveRequest(world, d).value);
            && w in world'.sources && w in world'.requests
            && world' == world.(sources := world.sources[w := world'.sources[w]],
              requests := world.requests[w := world'.requests[w]])
            && OneAnswered(Rows(world.requests, w), world'.requests[w], Some(d.action.ticket), Approved)
            && |world'.sources[w]| == |Rows(world.sources, w)| + 1
            && (forall i :: 0 <= i < |Rows(world.sources, w)| ==> world'.sources[w][i] == Rows(world.sources, w)[i])
            && var s := world'.sources[w][|Rows(world.sources, w)|];
               && s.workspace == w && s.kind.ManualApproval? && s.status.Active? && s.limit == d.action.limit
               && s.startsAt == d.action.startsAt && s.expiresAt == Some(d.action.expiresAt)
               && s.degradedAt.None? && s.graceUntil.None? && s.category == 0
               && s.grantedBy == d.actor && s.ticket == d.action.ticket && s.reason == D.Text(d.reason)
  {
    hide OneAnswered, OpenAt, SetStatus;
    AnsweredOne(Rows(world.requests, d.workspace), Some(d.action.ticket), Approved);
  }

  /** A denial answers the latest open request and changes nothing else. */
  lemma DenialWrites(world: World, w: nat)
    requires DenyRequest(world, w).Success?
    ensures var world' := DenyRequest(world, w).value;
            && w in world'.requests && world' == world.(requests := world.requests[w := world'.requests[w]])
            && OneAnswered(Rows(world.requests, w), world'.requests[w], None, Denied)
  {
    hide OneAnswered, OpenAt, SetStatus;
    AnsweredOne(Rows(world.requests, w), None, Denied);
  }

  /**
   * A control is set with its reason and time, and takes every pending or enabled domain of its workspace out
   * of routing at once; their number is the answer.
   */
  lemma ControlWrites(world: World, w: nat, control: Control)
    requires SetControl(world, w, control).Success?
    ensures var (world', affected) := SetControl(world, w, control).value;
            && affected == |Routing(world, w)|
            && world' == world.(controls := world.controls[w := control], domains := world'.domains)
            && world'.domains.Keys == world.domains.Keys
            && forall id :: id in world.domains ==>
                 && world'.domains[id] == world.domains[id].(routing := world'.domains[id].routing)
                 && world'.domains[id].routing
                    == (if world.domains[id].workspace == w
                           && (world.domains[id].routing.PendingRouting? || world.domains[id].routing.Enabled?)
                        then SuspendedRouting else world.domains[id].routing)
  {
    assert Routing(world, w) == RoutableIds(world.domains, w);
  }

  /** The answer to a decision taken now: the authority after it, and how many domains it took out of routing. */
  lemma AnswerIsCurrent(desk: Desk, s: Submission)
    requires Submit(desk, s).Success? && KeyOf(s) !in desk.records
    ensures var (desk', answer, replayed) := Submit(desk, s).value;
            var d := s.decision;
            && !replayed && answer.id == d.id && answer.workspace == d.workspace
            && ResolveIn(desk'.world, d.workspace, d.now) == Success(answer.entitlement)
            && answer.affectedRoutes
               == (if d.action.Suspend? || d.action.Revoke? then |Routing(desk.world, d.workspace)| else 0)
  {
    hide ResolveIn, SuspendIds;
    assert Routing(desk.world, s.decision.workspace) == RoutableIds(desk.world.domains, s.decision.workspace);
  }

  // ---------------------------------------------------------------- security changes of one domain

  /** Only the domain's row changes, and of it only routing, category and axes. */
  ghost predicate OneDomain(world: World, world': World, id: nat) {
    && id in world.domains && id in world'.domains
    && world' == world.(domains := world.domains[id := world'.domains[id]])
    && world'.domains[id].workspace == world.domains[id].workspace
    && world'.domains[id].hostname == world.domains[id].hostname
  }

  /**
   * A security suspension is accepted for an external category on a domain that is not final and not held
   * for another one; it is suspended under that category and its axes stay.
   */
  lemma SuspendsExactly(world: World, w: nat, id: nat, category: Category, now: Micros)
    ensures var r := SecuritySuspend(world, w, id, category, now);
            && (r.Success? <==>
                  && w != 0 && id != 0 && now != 0 && !category.OwnershipLoss?
                  && id in world.domains && world.domains[id].workspace == w
                  && !world.domains[id].routing.RemovedRouting? && !world.domains[id].routing.RevokedRouting?
                  && (world.domains[id].category.Some? ==> world.domains[id].category.value == category))
            && (r.Success? ==>
                  && OneDomain(world, r.value, id) && r.value.domains[id].routing.SuspendedRouting?
                  && r.value.domains[id].category == Some(category)
                  && r.value.domains[id].axes == world.domains[id].axes)
  {
    if id in world.domains { assert world.domains == world.domains[id := world.domains[id]]; }
  }

  /** Lifting a hold routes the domain and clears the category; activating and restoring change the routing only. */
  lemma RoutingWrites(world: World, w: nat, id: nat, category: Category, restore: bool, now: Micros)
    ensures var r := SecurityRestore(world, w, id, category, now);
            r.Success? ==>
              && OneDomain(world, r.value, id) && r.value.domains[id].routing.Enabled?
              && r.value.domains[id].category.None? && r.value.domains[id].axes == world.domains[id].axes
    ensures var r := MutateRouting(world, w, id, restore, now);
            r.Success? ==>
              && OneDomain(world, r.value, id) && r.value.domains[id].routing.Enabled?
              && r.value.domains[id].category == world.domains[id].category
              && r.value.domains[id].axes == world.domains[id].axes
  {
    hide ResolveIn;
  }

  /**
   * A loss of ownership is recorded on every domain that is not final: ownership is lost, the other axes stay,
   * it is suspended, and held for the loss unless it is held already.
   */
  lemma LosesExactly(world: World, w: nat, id: nat, now: Micros)
    ensures var r := LoseOwnership(world, w, id, now);
            && (r.Success? <==>
                  && w != 0 && id != 0 && now != 0 && id in world.domains && world.domains[id].workspace == w
                  && !world.domains[id].routing.RemovedRouting? && !world.domains[id].routing.RevokedRouting?)
            && (r.Success? ==>
                  && OneDomain(world, r.value, id)
                  && var (d, d') := (world.domains[id], r.value.domains[id]);
                     && d'.routing.SuspendedRouting? && d'.axes == d.axes.(ownership := OwnershipLost)
                     && d'.category == (if d.category.Some? then d.category else Some(OwnershipLoss)))
  {
    if id in world.domains { assert world.domains == world.domains[id := world.domains[id]]; }
  }

  // ---------------------------------------------------------------- refusals

  /** Why a decision is refused, in the order the code looks: its input, the workspace, its sources, its state. */
  lemma RefusedDecisions(world: World, d: Decision)
    requires Decide(world, d).Failure?
    ensures var (e, w) := (Decide(world, d).error, d.workspace);
            var blank := w == 0 || d.actor == 0 || d.reason == 0 || !ValidAction(d.action, d.now);
            && (blank ==> e.InvalidInput?)
            && (!blank && w !in world.workspaces ==> e.NotFound?)
            && (!blank && w in world.workspaces && !world.workspaces[w] ==> e.Conflict?)
            && (!blank && w in world.workspaces && world.workspaces[w] && ResolveIn(world, w, d.now).Failure? ==>
                  e == ResolveIn(world, w, d.now).error)
            && (!blank && w in world.workspaces && world.workspaces[w] && ResolveIn(world, w, d.now).Success? ==>
                  e.Conflict? || (e.InvalidInput? && |Routing(world, w)| > 0xFFFF_FFFF))
  {
    hide ResolveIn, ValidAction, OpenAt, SuspendIds;
    assert Routing(world, d.workspace) == RoutableIds(world.domains, d.workspace);
    if ResolveIn(world, d.workspace, d.now).Success? && d.workspace != 0 && d.actor != 0 && d.reason != 0
      && ValidAction(d.action, d.now) && Act(world, d, ResolveIn(world, d.workspace, d.now).value).Success? {
      StillResolves(world, d);
    }
  }

  /** Why a change of one domain is refused: its input, a domain that is not the workspace's, its sources, its state. */
  lemma RefusedChanges(world: World, w: nat, id: nat, restore: bool, category: Category, now: Micros)
    ensures var known := id in world.domains && world.domains[id].workspace == w;
            var blank := w == 0 || id == 0 || now == 0;
            && var r := MutateRouting(world, w, id, restore, now);
               r.Failure? ==>
                 && (blank ==> r.error.InvalidInput?) && (!blank && !known ==> r.error.NotFound?)
                 && (!blank && known && ResolveIn(world, w, now).Failure? ==> r.error == ResolveIn(world, w, now).error)
                 && (!blank && known && ResolveIn(world, w, now).Success? ==>
                       if Barred(world.domains[id]) || !ResolveIn(world, w, now).value.mutationAllowed
                          || !world.domains[id].axes.Ready() then r.error.Conflict? else r.error.InvalidInput?)
    ensures var known := id in world.domains && world.domains[id].workspace == w;
            var blank := w == 0 || id == 0 || now == 0;
            && (SecuritySuspend(world, w, id, category, now).Failure? ==>
                  var e := SecuritySuspend(world, w, id, category, now).error;
                  if blank || category.OwnershipLoss? then e.InvalidInput? else if !known then e.NotFound?
                    else e.Conflict?)
            && (LoseOwnership(world, w, id, now).Failure? ==>
                  var e := LoseOwnership(world, w, id, now).error;
                  if blank then e.InvalidInput? else if !known then e.NotFound? else e.Conflict?)
  {
    hide ResolveIn;
  }

  /** Why a creation is refused. */
  lemma RefusedCreations(world: World, w: nat, hostname: Option<nat>, newId: nat, now: Micros)
    requires CreateDomain(world, w, hostname, newId, now).Failure?
    ensures var e := CreateDomain(world, w, hostname, newId, now).error;
            && (w == 0 || now == 0 ==> e.InvalidInput?)
            && (w != 0 && now != 0 && ResolveIn(world, w, now).Failure? ==> e == ResolveIn(world, w, now).error)
            && (w != 0 && now != 0 && ResolveIn(world, w, now).Success? ==>
                  if ResolveIn(world, w, now).value.mutationAllowed && hostname.None? then e.InvalidInput?
                    else e.Conflict?)
  {
    hide ResolveIn;
  }
}
