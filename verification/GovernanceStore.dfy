/** The statements behind the decisions and domain mutations, each tied to DomainGovernance. */
module GovernanceStore {
  import opened Foundations
  import opened DomainDecisions
  import opened DomainGovernance
  import D = DomainEntitlement

  lemma SuspendOneMore(domains: map<nat, Domain>, done: set<nat>, id: nat)
    requires id in domains && id !in done
    ensures SuspendIds(domains, done)[id := domains[id].(routing := SuspendedRouting)]
      == SuspendIds(domains, done + {id})
  {
  }

  lemma NoneSuspended(domains: map<nat, Domain>)
    ensures SuspendIds(domains, {}) == domains
  {
  }

  /** Request i was the latest open one, and is the only one to change. */
  ghost predicate LatestDenied(before: seq<Request>, after: seq<Request>, i: nat) {
    && i < |before| == |after| && before[i].status.Requested?
    && (forall j :: i < j < |before| ==> !before[j].status.Requested?)
    && after[i] == before[i].(status := Denied)
    && (forall j :: 0 <= j < |before| && j != i ==> after[j] == before[j])
  }

  lemma {:induction false} LatestOpenFound(requests: seq<Request>)
    ensures var i := OpenAt(requests, None);
            i.Some? ==> forall j :: i.value < j < |requests| ==> !requests[j].status.Requested?
  {
    if requests != [] {
      LatestOpenFound(requests[..|requests| - 1]);
      var (before, i) := (requests[..|requests| - 1], OpenAt(requests, None));
      assert forall j :: 0 <= j < |before| ==> before[j] == requests[j];
    }
  }

  /** The open transaction's tables. */
  class Tables {
    const workspaces: map<nat, bool>
    var sources: map<nat, seq<D.Source>>
    var requests: map<nat, seq<Request>>
    var controls: map<nat, Control>
    var domains: map<nat, Domain>
    var usage: map<nat, nat>

    constructor (world: World)
      ensures State() == world
    {
      workspaces, sources, requests := world.workspaces, world.sources, world.requests;
      controls, domains, usage := world.controls, world.domains, world.usage;
    }

    function State(): World
      reads this
    {
      World(workspaces, sources, requests, controls, domains, usage)
    }

    method Resolve(w: nat, now: Micros) returns (r: Result<D.Resolved>)
      ensures r == ResolveIn(State(), w, now)
    {
      var base := D.ResolveEntitlement(now, Rows(sources, w), LatestOpen(Rows(requests, w)));
      if base.Failure? { return Failure(base.error); }
      r := ApplyAdminEntitlementControl(w, now, base.value);
    }

    method ApplyAdminEntitlementControl(w: nat, now: Micros, base: D.Resolved) returns (r: Result<D.Resolved>)
      ensures r == Overlay(State(), w, now, base)
    {
      if w == 0 { return Failure(InvalidSource); }
      if w !in controls { return Success(base); }
      var control := controls[w];
      if now < control.effectiveAt { return Success(base); }
      if control.reason == 0 { return Failure(InvalidSource); }
      var controlled := base;
      controlled := controlled.(status := StatusOf(control.state));
      controlled := controlled.(reason := D.Text(control.reason));
      controlled := controlled.(gracePeriod := false, graceUntil := None);
      controlled := controlled.(mutationAllowed := false);
      controlled := controlled.(routingAllowed := false);
      return Success(controlled);
    }

    /** Sets the control row, then suspends every pending or enabled domain of the workspace. */
    method SetDomainEntitlementControlTx(w: nat, state: ControlState, reason: nat,
        effectiveAt: Micros) returns (r: Result<nat>)
      modifies this`controls, this`domains
      ensures var spec := SetControl(old(State()), w, Control(state, reason, effectiveAt));
              r == (if spec.Success? then Success(spec.value.1) else Failure(spec.error))
              && (r.Success? ==> State() == spec.value.0)
    {
      if w in controls && controls[w].state.ControlRevoked? && state.ControlSuspended? { return Failure(Conflict); }
      controls := controls[w := Control(state, reason, effectiveAt)];
      var affected := SuspendRouting(w);
      if affected > MAX_UINT32 { return Failure(InvalidInput); }
      return Success(affected);
    }

    /** UPDATE custom_domains SET routing_state='suspended', row by row in any order. */
    method SuspendRouting(w: nat) returns (affected: nat)
      modifies this`domains
      ensures domains == SuspendIds(old(domains), RoutableIds(old(domains), w))
      ensures affected == |RoutableIds(old(domains), w)|
    {
      hide SuspendIds, Routable;
      var ids := RoutableIds(domains, w);
      var rest := ids;
      affected := 0;
      NoneSuspended(domains);
      assert ids - rest == {};
      while rest != {}
        invariant rest <= ids && affected == |ids| - |rest|
        invariant domains.Keys == old(domains).Keys && forall id :: id in rest ==> domains[id] == old(domains)[id]
        invariant domains == SuspendIds(old(domains), ids - rest)
        decreases |rest|
      {
        var id :| id in rest;
        SuspendOneMore(old(domains), ids - rest, id);
        assert ids - (rest - {id}) == ids - rest + {id};
        domains := domains[id := domains[id].(routing := SuspendedRouting)];
        affected := affected + 1;
        rest := rest - {id};
      }
      assert ids - rest == ids;
    }

    /** Counts the domains a restore would be unsafe for, then takes the control away and nothing else. */
    method RestoreDomainEntitlementControlTx(w: nat) returns (r: Result<()>)
      modifies this`controls
      ensures var spec := RestoreControl(old(State()), w);
              r == (if spec.Success? then Success(()) else Failure(spec.error))
              && (r.Success? ==> State() == spec.value)
    {
      if w !in controls { return Failure(Conflict); }
      var unsafe := 0;
      var rest := domains.Keys;
      while rest != {}
        invariant rest <= domains.Keys
        invariant unsafe > 0 <==> exists id :: id in domains && id !in rest && Unsafe(domains[id], w)
        decreases |rest|
      {
        var id :| id in rest;
        if Unsafe(domains[id], w) { unsafe := unsafe + 1; }
        rest := rest - {id};
      }
      if unsafe != 0 { return Failure(Conflict); }
      controls := controls - {w};
      return Success(());
    }

    method ApproveDomainEntitlementTx(d: Decision) returns (r: Result<()>)
      requires d.action.Approve?
      modifies this`sources, this`requests
      ensures var spec := ApproveRequest(old(State()), d);
              r == (if spec.Success? then Success(()) else Failure(spec.error))
              && (r.Success? ==> State() == spec.value)
    {
      var w := d.workspace;
      var open := OpenAt(Rows(requests, w), Some(d.action.ticket));
      if open.None? { return Failure(Conflict); }
      var source := D.Source(w, D.ManualApproval, D.OtherKey(d.id), D.Active, d.action.limit, d.action.startsAt,
                             Some(d.action.expiresAt), None, None, d.actor, d.action.ticket, D.Text(d.reason), 0);
      var rows := Rows(sources, w);
      for i := 0 to |rows|
        invariant forall j :: 0 <= j < i ==> rows[j].kind != source.kind || rows[j].key != source.key
      {
        if rows[i].kind == source.kind && rows[i].key == source.key { return Failure(Conflict); }
      }
      sources := sources[w := rows + [source]];
      requests := requests[w := SetStatus(Rows(requests, w), open.value, Approved)];
      return Success(());
    }

    method DenyDomainEntitlementTx(w: nat) returns (r: Result<()>)
      modifies this`requests
      ensures var spec := DenyRequest(old(State()), w);
              r == (if spec.Success? then Success(()) else Failure(spec.error))
              && (r.Success? ==> State() == spec.value)
      ensures r.Success? <==>
        exists i :: 0 <= i < |Rows(old(requests), w)| && Rows(old(requests), w)[i].status.Requested?
      ensures r.Success? ==> exists i :: LatestDenied(Rows(old(requests), w), Rows(requests, w), i)
    {
      var open := OpenAt(Rows(requests, w), None);
      LatestOpenFound(Rows(requests, w));
      if open.None? { return Failure(Conflict); }
      ghost var before := Rows(requests, w);
      requests := requests[w := SetStatus(Rows(requests, w), open.value, Denied)];
      assert LatestDenied(before, Rows(requests, w), open.value);
      return Success(());
    }

    /** The action switch of DecideDomainEntitlement. */
    method ActTx(d: Decision, before: D.Resolved) returns (r: Result<nat>)
      modifies this`sources, this`requests, this`controls, this`domains
      ensures var spec := Act(old(State()), d, before);
              r == (if spec.Success? then Success(spec.value.1) else Failure(spec.error))
              && (r.Success? ==> State() == spec.value.0)
    {
      hide ApproveRequest, DenyRequest, SetControl, RestoreControl;
      match d.action {
        case Approve(_, _, _, _) =>
          var approved := ApproveDomainEntitlementTx(d);
          r := if approved.Success? then Success(0) else Failure(approved.error);
        case Deny(_) =>
          var denied := DenyDomainEntitlementTx(d.workspace);
          r := if denied.Success? then Success(0) else Failure(denied.error);
        case Suspend(effectiveAt) =>
          if before.status.Suspended? || before.status.Revoked? || before.kind.None? { return Failure(Conflict); }
          r := SetDomainEntitlementControlTx(d.workspace, ControlSuspended, d.reason, effectiveAt);
        case Revoke =>
          if before.status.Revoked? || before.kind.None? { return Failure(Conflict); }
          r := SetDomainEntitlementControlTx(d.workspace, ControlRevoked, d.reason, d.now);
        case Restore(_) =>
          var restored := RestoreDomainEntitlementControlTx(d.workspace);
          r := if restored.Success? then Success(0) else Failure(restored.error);
      }
    }

    method CreateDomainTx(w: nat, hostname: Option<nat>, newId: nat, now: Micros) returns (r: Result<()>)
      modifies this`domains, this`usage
      ensures var spec := CreateDomain(old(State()), w, hostname, newId, now);
              r == (if spec.Success? then Success(()) else Failure(spec.error))
              && State() == if spec.Success? then spec.value else old(State())
    {
      hide ResolveIn;
      if w == 0 || now == 0 { return Failure(InvalidInput); }
      var entitlement := Resolve(w, now);
      if entitlement.Failure? { return Failure(entitlement.error); }
      if !entitlement.value.mutationAllowed { return Failure(Conflict); }
      if hostname.None? { return Failure(InvalidInput); }
      var count := Allocated(usage, w);
      if count >= entitlement.value.limit { return Failure(Conflict); }
      if newId in domains || exists id :: id in domains && domains[id].hostname == hostname.value { return Failure(Conflict); }
      domains := domains[newId := Domain(w, hostname.value, PendingRouting, UNVERIFIED, None)];
      usage := usage[w := count + 1];
      return Success(());
    }

    method MutateRoutingTx(w: nat, id: nat, restore: bool, now: Micros) returns (r: Result<()>)
      modifies this`domains
      ensures var spec := MutateRouting(old(State()), w, id, restore, now);
              r == (if spec.Success? then Success(()) else Failure(spec.error))
              && State() == if spec.Success? then spec.value else old(State())
    {
      hide ResolveIn;
      if w == 0 || id == 0 || now == 0 { return Failure(InvalidInput); }
      if id !in domains || domains[id].workspace != w { return Failure(NotFound); }
      var d := domains[id];
      var entitlement := Resolve(w, now);
      if entitlement.Failure? { return Failure(entitlement.error); }
      if d.Held() { return Failure(Conflict); }
      if !entitlement.value.mutationAllowed { return Failure(Conflict); }
      if !d.axes.ownership.OwnershipVerified? { return Failure(Conflict); }
      if !d.axes.ingress.IngressValid? { return Failure(Conflict); }
      if !d.axes.https.HttpsActive? { return Failure(Conflict); }
      if !d.axes.risk.RiskAllow? { return Failure(Conflict); }
      if !restore && !d.routing.PendingRouting? { return Failure(InvalidInput); }
      if restore && !d.routing.SuspendedRouting? { return Failure(InvalidInput); }
      domains := domains[id := d.(routing := Enabled)];
      return Success(());
    }
  }

  /** Each decision runs in its own transaction; records are the idempotency records. */
  class Service {
    var world: World
    var records: map<RecordKey, Record>

    constructor (world: World)
      ensures State() == Desk(world, map[])
    {
      this.world, records := world, map[];
    }

    function State(): Desk
      reads this
    {
      Desk(world, records)
    }

    method RequireHighRisk(s: Submission) returns (e: Option<Error>)
      ensures e == HighRisk(s)
    {
      if !s.authority.permitted { return Some(Forbidden); }
      if s.decision.reason == 0 { return Some(ReasonRequired); }
      if s.authority.key == 0 { return Some(InvalidInput); }
      var verified := s.authority.mfaVerifiedAt;
      if verified.None? || s.decision.now > verified.value + MFA_FRESHNESS { return Some(MfaRequired); }
      return None;
    }

    method DecideDomainEntitlement(s: Submission) returns (r: Result<(Answer, bool)>)
      modifies this
      ensures var spec := Submit(old(State()), s);
              && r == (if spec.Success? then Success((spec.value.1, spec.value.2)) else Failure(spec.error))
              && State() == if spec.Success? then spec.value.0 else old(State())
    {
      hide ResolveIn, Act, ValidAction;
      var d := s.decision;
      var denied := RequireHighRisk(s);
      if denied.Some? { return Failure(denied.value); }
      if d.workspace == 0 || d.actor == 0 || !ValidAction(d.action, d.now) { return Failure(InvalidInput); }
      if KeyOf(s) in records {
        var known := records[KeyOf(s)];
        if known.workspace != d.workspace || known.action != d.action { return Failure(ReplayMismatch); }
        return Success((known.answer, true));
      }
      if d.workspace !in world.workspaces { return Failure(NotFound); }
      if !world.workspaces[d.workspace] { return Failure(Conflict); }
      var tx := new Tables(world);
      var before := tx.Resolve(d.workspace, d.now);
      if before.Failure? { return Failure(before.error); }
      var affected := tx.ActTx(d, before.value);
      if affected.Failure? { return Failure(affected.error); }
      var after := tx.Resolve(d.workspace, d.now);
      if after.Failure? { return Failure(after.error); }
      var answer := Answer(d.id, d.workspace, NameOf(d.action), after.value, affected.value);
      world, records := tx.State(), records[KeyOf(s) := Record(d.workspace, d.action, answer)];
      return Success((answer, false));
    }
  }
}
