/** That nothing routes unverified: a domain's life from its creation on (internal/domains). */
module DomainVerification {
  import opened Foundations
  import opened DomainGovernance
  import opened DomainOverlay
  import D = DomainEntitlement

  /** A verifier records ownership, ingress, HTTPS and risk of the domain as all in order. */
  predicate Verifies(step: Step, id: nat) {
    && step.Touching? && step.id == id && step.change.Observing?
    && var a := step.change.axes;
       a.ownership.OwnershipVerified? && a.ingress.IngressValid? && a.https.HttpsActive? && a.risk.RiskAllow?
  }

  /** An event of the run did so when the domain existed. */
  ghost predicate Verified(world: World, events: seq<Event>, id: nat) {
    exists i :: 0 <= i < |events| && VerifiedAt(world, events, id, i)
  }

  ghost predicate VerifiedAt(world: World, events: seq<Event>, id: nat, i: nat)
    requires i < |events|
  {
    Verifies(events[i].step, id) && id in Run(world, events[..i]).domains
  }

  lemma LaterVerified(world: World, events: seq<Event>, id: nat)
    requires events != []
    ensures var (n, before) := (|events| - 1, events[..|events| - 1]);
            Verified(world, events, id) <==>
              Verified(world, before, id) || (Verifies(events[n].step, id) && id in Run(world, before).domains)
  {
    hide Run, Verifies;
    var (n, before) := (|events| - 1, events[..|events| - 1]);
    assert events[..n] == before;
    if i :| 0 <= i < |events| && VerifiedAt(world, events, id, i) {
      if i < n { assert before[..i] == events[..i] && VerifiedAt(world, before, id, i); }
    }
    if i :| 0 <= i < n && VerifiedAt(world, before, id, i) {
      assert before[..i] == events[..i] && VerifiedAt(world, events, id, i);
    }
    if Verifies(events[n].step, id) && id in Run(world, before).domains { assert VerifiedAt(world, events, id, n); }
  }

  /** On some axis the domain is not in order. */
  predicate Unready(d: Domain) {
    || !d.axes.ownership.OwnershipVerified? || !d.axes.ingress.IngressValid?
    || !d.axes.https.HttpsActive? || !d.axes.risk.RiskAllow?
  }

  lemma TouchedUnready(world: World, w: nat, id: nat, change: Change, now: Micros)
    requires id in world.domains && Unready(world.domains[id]) && !world.domains[id].routing.Enabled?
    requires change.Observing? ==> Unready(world.domains[id].(axes := change.axes))
    ensures var d := Touch(world, w, id, change, now).domains[id]; Unready(d) && !d.routing.Enabled?
  {
    hide ResolveIn;
  }

  lemma DecidedUnready(world: World, world': World, d: Decision, id: nat)
    requires Decided(world, world', d)
    requires id in world.domains ==> Unready(world.domains[id]) && !world.domains[id].routing.Enabled?
    ensures id in world'.domains ==> Unready(world'.domains[id]) && !world'.domains[id].routing.Enabled?
  {
    hide Rows, RoutableIds;
  }

  lemma StepUnready(world: World, e: Event, id: nat)
    requires id in world.domains ==> Unready(world.domains[id]) && !world.domains[id].routing.Enabled?
    requires Verifies(e.step, id) ==> id !in world.domains
    ensures var domains' := Next(world, e).domains;
            id in domains' ==> Unready(domains'[id]) && !domains'[id].routing.Enabled?
  {
    hide ResolveIn, Decide, Touch, Decided;
    match e.step
    case Deciding(d) =>
      if Decide(world, d.(now := e.now)).Success? {
        DecideFrame(world, d.(now := e.now));
        DecidedUnready(world, Next(world, e), d.(now := e.now), id);
      }
    case Creating(_, _, _) =>
    case Touching(w, i, change) =>
      if i == id && id in world.domains { TouchedUnready(world, w, id, change, e.now); }
    case EditingSources(_, _) =>
    case Requesting(_, _) =>
  }

  lemma {:induction false} UnverifiedNeverRoutes(world: World, events: seq<Event>, id: nat)
    requires id !in world.domains && !Verified(world, events, id)
    ensures var domains' := Run(world, events).domains;
            id in domains' ==> Unready(domains'[id]) && !domains'[id].routing.Enabled?
  {
    hide Next, Verified, Verifies, Unready;
    if events != [] {
      LaterVerified(world, events, id);
      UnverifiedNeverRoutes(world, events[..|events| - 1], id);
      StepUnready(Run(world, events[..|events| - 1]), events[|events| - 1], id);
    }
  }

  /**
   * Over any run, a domain that did not exist at its start routes only if a verifier found its ownership,
   * ingress, HTTPS and risk all in order at once after it was created.
   */
  lemma RoutedOnlyVerified(world: World, events: seq<Event>, id: nat)
    requires id !in world.domains
    ensures var domains' := Run(world, events).domains;
            id in domains' && domains'[id].routing.Enabled? ==> Verified(world, events, id)
  {
    if !Verified(world, events, id) { UnverifiedNeverRoutes(world, events, id); }
  }

  /**
   * What a creation leaves: one new domain under the submitted name, pending on every axis and without a
   * category, which nobody can activate or restore before a verifier has seen it.
   */
  lemma CreatedUnverified(world: World, w: nat, hostname: Option<nat>, newId: nat, now: Micros)
    requires CreateDomain(world, w, hostname, newId, now).Success?
    ensures var world' := CreateDomain(world, w, hostname, newId, now).value;
            && newId !in world.domains && newId in world'.domains
            && (forall id :: id in world.domains ==> id in world'.domains && world'.domains[id] == world.domains[id])
            && world'.domains.Keys == world.domains.Keys + {newId}
            && var d := world'.domains[newId];
               && d.workspace == w && Some(d.hostname) == hostname && d.routing.PendingRouting? && d.category.None?
               && d.axes.ownership.OwnershipPending? && d.axes.ingress.IngressPending?
               && d.axes.https.HttpsPending? && d.axes.risk.RiskMissing?
               && forall v, restore, t :: MutateRouting(world', v, newId, restore, t).Failure?
  {
    hide ResolveIn;
  }

  /** A creation is accepted exactly with mutation authority, below its limit and under a name nobody has. */
  lemma CreatesExactly(world: World, w: nat, hostname: Option<nat>, newId: nat, now: Micros)
    requires newId !in world.domains
    ensures CreateDomain(world, w, hostname, newId, now).Success? <==>
      && w != 0 && now != 0 && hostname.Some?
      && ResolveIn(world, w, now).Success? && ResolveIn(world, w, now).value.mutationAllowed
      && (if w in world.usage then world.usage[w] else 0) < ResolveIn(world, w, now).value.limit
      && forall id :: id in world.domains ==> world.domains[id].hostname != hostname.value
  {
    hide ResolveIn;
  }

  // ---------------------------------------------------------------- names

  ghost predicate UniqueNames(domains: map<nat, Domain>) {
    forall a, b :: a in domains && b in domains && domains[a].hostname == domains[b].hostname ==> a == b
  }

  lemma NextUniqueNames(world: World, e: Event)
    requires UniqueNames(world.domains)
    ensures UniqueNames(Next(world, e).domains)
  {
    hide ResolveIn, Touch, Decide;
    match e.step
    case Deciding(d) =>
      if Decide(world, d.(now := e.now)).Success? {
        DecideFrame(world, d.(now := e.now));
        DecidedNames(world, Next(world, e), d.(now := e.now));
      }
    case Creating(_, _, _) =>
    case Touching(w, id, change) =>
      if id in world.domains { TouchKeepsNames(world, w, id, change, e.now); }
    case EditingSources(_, _) =>
    case Requesting(_, _) =>
  }

  lemma TouchKeepsNames(world: World, w: nat, id: nat, change: Change, now: Micros)
    requires id in world.domains
    ensures var domains' := Touch(world, w, id, change, now).domains;
            && domains'.Keys == world.domains.Keys
            && forall i :: i in world.domains ==> domains'[i].hostname == world.domains[i].hostname
  {
    TouchRow(world, w, id, change, now);
    TouchedRow(world, w, id, change, now);
    hide Touch;
  }

  lemma DecidedNames(world: World, world': World, d: Decision)
    requires Decided(world, world', d) && UniqueNames(world.domains)
    ensures UniqueNames(world'.domains)
  {
    hide Rows, RoutableIds;
  }

  /** Over any run no two domains have the same name. */
  lemma {:induction false} NamesStayUnique(world: World, events: seq<Event>)
    requires UniqueNames(world.domains)
    ensures UniqueNames(Run(world, events).domains)
  {
    hide Next, UniqueNames;
    if events != [] {
      NamesStayUnique(world, events[..|events| - 1]);
      NextUniqueNames(Run(world, events[..|events| - 1]), events[|events| - 1]);
    }
  }
}
