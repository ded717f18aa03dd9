/** What an administrator control guarantees over whole runs of decisions and domain mutations. */
module DomainOverlay {
  import opened Foundations
  import opened DomainGovernance
  import D = DomainEntitlement

  datatype Change =
    | Mutating(restore: bool)
    | SecurityRestoring(category: Category)
    | SecuritySuspending(category: Category)
    | LosingOwnership
    | Observing(axes: Axes)                                 // a verifier records what it saw

  datatype Step =
    | Deciding(decision: Decision)
    | Creating(workspace: nat, hostname: Option<nat>, newId: nat)
    | Touching(workspace: nat, id: nat, change: Change)
    | EditingSources(workspace: nat, sources: seq<D.Source>)  // billing and approvals come and go
    | Requesting(workspace: nat, ticket: nat)

  datatype Event = Event(now: Micros, step: Step)

  function OrSame(world: World, r: Result<World>): World { if r.Success? then r.value else world }

  function Observe(world: World, w: nat, id: nat, axes: Axes): Result<World> {
    if id !in world.domains || world.domains[id].workspace != w then Failure(NotFound)
    else Success(world.(domains := world.domains[id := world.domains[id].(axes := axes)]))
  }

  /** A change to one domain row. */
  function Touch(world: World, w: nat, id: nat, change: Change, now: Micros): (r: World)
    ensures r == world
      || (id in world.domains && id in r.domains && world.domains[id].workspace == w
          && r == world.(domains := world.domains[id := r.domains[id]]))
  {
    match change
    case Mutating(restore) => OrSame(world, MutateRouting(world, w, id, restore, now))
    case SecurityRestoring(category) => OrSame(world, SecurityRestore(world, w, id, category, now))
    case SecuritySuspending(category) => OrSame(world, SecuritySuspend(world, w, id, category, now))
    case LosingOwnership => OrSame(world, LoseOwnership(world, w, id, now))
    case Observing(axes) => OrSame(world, Observe(world, w, id, axes))
  }

  function Next(world: World, e: Event): World {
    match e.step
    case Deciding(d) =>
      var r := Decide(world, d.(now := e.now));
      if r.Success? then r.value.0 else world
    case Creating(w, hostname, newId) => OrSame(world, CreateDomain(world, w, hostname, newId, e.now))
    case Touching(w, id, change) => Touch(world, w, id, change, e.now)
    case EditingSources(w, sources) => world.(sources := world.sources[w := sources])
    case Requesting(w, ticket) => world.(requests := world.requests[w := Rows(world.requests, w)
      + [Request(ticket, Requested)]])
  }

  function Run(world: World, events: seq<Event>): World {
    if events == [] then world else Next(Run(world, events[..|events| - 1]), events[|events| - 1])
  }

  /** The latest time a run has seen; readings of the clock need not come in order. */
  function ClockAfter(clock: Micros, events: seq<Event>): Micros {
    if events == [] then clock else Max(ClockAfter(clock, events[..|events| - 1]), events[|events| - 1].now)
  }

  /** A decision touches only what its action is about. */
  ghost predicate Decided(world: World, world': World, d: Decision) {
    var w := d.workspace;
    && world'.usage == world.usage && world'.workspaces == world.workspaces
    && (forall v :: v != w ==> Rows(world'.sources, v) == Rows(world.sources, v))
    && (forall v :: v != w ==> Rows(world'.requests, v) == Rows(world.requests, v))
    && match d.action
       case Approve(_, _, _, _) => world'.domains == world.domains && world'.controls == world.controls
       case Deny(_) =>
         world'.domains == world.domains && world'.controls == world.controls && world'.sources == world.sources
       case Restore(_) =>
         world' == world.(controls := world.controls - {w})
       case Suspend(effectiveAt) =>
         && effectiveAt <= d.now
         && world' == world.(controls := world.controls[w := Control(ControlSuspended, d.reason, effectiveAt)],
                             domains := SuspendIds(world.domains, RoutableIds(world.domains, w)))
         && (w in world.controls ==> !world.controls[w].state.ControlRevoked?)
       case Revoke =>
         world' == world.(controls := world.controls[w := Control(ControlRevoked, d.reason, d.now)],
                          domains := SuspendIds(world.domains, RoutableIds(world.domains, w)))
  }

  lemma ActFrame(world: World, d: Decision, before: D.Resolved)
    requires Act(world, d, before).Success? && ValidAction(d.action, d.now)
    ensures Decided(world, Act(world, d, before).value.0, d)
  {
    hide SuspendIds, RoutableIds, ApproveRequest, DenyRequest, RestoreControl, SetControl;
    var w := d.workspace;
    match d.action
    case Approve(_, _, _, _) =>
    case Deny(_) =>
    case Suspend(effectiveAt) => SetControlFrame(world, w, Control(ControlSuspended, d.reason, effectiveAt));
    case Revoke => SetControlFrame(world, w, Control(ControlRevoked, d.reason, d.now));
    case Restore(_) => assert RestoreControl(world, w).value == world.(controls := world.controls - {w}) by { RestoreFrame(world, w); }
  }

  lemma RestoreFrame(world: World, w: nat)
    requires RestoreControl(world, w).Success?
    ensures RestoreControl(world, w).value == world.(controls := world.controls - {w})
  {
  }

  lemma SetControlFrame(world: World, w: nat, control: Control)
    requires SetControl(world, w, control).Success?
    ensures SetControl(world, w, control).value.0
      == world.(controls := world.controls[w := control],
        domains := SuspendIds(world.domains, RoutableIds(world.domains, w)))
    ensures control.state.ControlSuspended? && w in world.controls ==> !world.controls[w].state.ControlRevoked?
  {
  }

  lemma DecideFrame(world: World, d: Decision)
    requires Decide(world, d).Success?
    ensures Decided(world, Decide(world, d).value.0, d)
  {
    hide ResolveIn, Act, Decided;
    ActFrame(world, d, ResolveIn(world, d.workspace, d.now).value);
  }

  /** The conditions under which the event may turn this domain's routing on. */
  ghost predicate MayEnable(world: World, w: nat, id: nat, change: Change, now: Micros)
    requires id in world.domains
  {
    var d := world.domains[id];
    var r := ResolveIn(world, w, now);
    && w != 0 && id != 0 && now != 0 && d.workspace == w
    && d.axes.Ready() && !InEffect(world, w, now) && r.Success?
    && match change
       case Mutating(restore) =>
         d.routing == (if restore then SuspendedRouting else PendingRouting) && d.category.None?
           && r.value.mutationAllowed
       case SecurityRestoring(category) =>
         d.routing.SuspendedRouting? && d.category == Some(category) && category.External() && r.value.routingAllowed
       case _ => false
  }

  /** What a change may do to its row. */
  lemma TouchRow(world: World, w: nat, id: nat, change: Change, now: Micros)
    requires id in world.domains
    ensures var (d, d') := (world.domains[id], Touch(world, w, id, change, now).domains[id]);
            && d'.workspace == d.workspace && d'.hostname == d.hostname
            && (d'.routing == d.routing || d'.routing.SuspendedRouting? || d'.routing.Enabled?)
            && (d.routing.RevokedRouting? || d.routing.RemovedRouting? ==> d'.routing == d.routing)
            && (d'.routing.Enabled? && !d.routing.Enabled? <==> MayEnable(world, w, id, change, now))
  {
    hide ResolveIn, MayEnable, InEffect;
    match change
    case Mutating(restore) => MutatingRow(world, w, id, restore, now);
    case SecurityRestoring(category) => SecurityRestoringRow(world, w, id, category, now);
    case SecuritySuspending(_) => OthersNeverEnable(world, w, id, change, now);
    case LosingOwnership => OthersNeverEnable(world, w, id, change, now);
    case Observing(_) => OthersNeverEnable(world, w, id, change, now);
  }

  lemma OthersNeverEnable(world: World, w: nat, id: nat, change: Change, now: Micros)
    requires id in world.domains && !change.Mutating? && !change.SecurityRestoring?
    ensures !MayEnable(world, w, id, change, now)
  {
  }

  /** A row keeps its identity, a final state is final, and under a control nothing starts to route. */
  predicate RowChange(d: Domain, d': Domain, controlled: bool) {
    && d'.workspace == d.workspace && d'.hostname == d.hostname
    && (d.routing.RevokedRouting? || d.routing.RemovedRouting? ==> d'.routing == d.routing)
    && (Routable(d', d.workspace) && !Routable(d, d.workspace) ==> !controlled)
  }

  lemma TouchKeeps(world: World, w: nat, id: nat, change: Change, now: Micros)
    requires id in world.domains && world.domains[id].workspace == w
    ensures RowChange(world.domains[id], Touch(world, w, id, change, now).domains[id], InEffect(world, w, now))
  {
    TouchRow(world, w, id, change, now);
    hide Touch, ResolveIn;
  }

  lemma MutatingRow(world: World, w: nat, id: nat, restore: bool, now: Micros)
    requires id in world.domains
    ensures MutateRouting(world, w, id, restore, now).Success? <==> MayEnable(world, w, id, Mutating(restore), now)
  {
    hide D.Resolve;
  }

  lemma SecurityRestoringRow(world: World, w: nat, id: nat, category: Category, now: Micros)
    requires id in world.domains
    ensures SecurityRestore(world, w, id, category, now).Success? <==>
      MayEnable(world, w, id, SecurityRestoring(category), now)
  {
    hide D.Resolve;
  }

  /** Every way an event can change the tables. */
  lemma NextFrame(world: World, e: Event)
    ensures var world' := Next(world, e);
            || world' == world
            || (match e.step
                case Deciding(d) => Decided(world, world', d.(now := e.now))
                case Creating(w, hostname, newId) =>
                  && hostname.Some? && newId !in world.domains && !InEffect(world, w, e.now)
                  && ResolveIn(world, w, e.now).Success? && ResolveIn(world, w, e.now).value.mutationAllowed
                  && Allocated(world.usage, w) < ResolveIn(world, w, e.now).value.limit
                  && world' == world.(domains := world.domains[newId := Domain(w, hostname.value, PendingRouting, UNVERIFIED, None)],
                                      usage := world.usage[w := Allocated(world.usage, w) + 1])
                case Touching(w, id, change) =>
                  && id in world.domains && id in world'.domains && world.domains[id].workspace == w
                  && world' == world.(domains := world.domains[id := world'.domains[id]])
                  && RowChange(world.domains[id], world'.domains[id], InEffect(world, w, e.now))
                case EditingSources(w, sources) => world' == world.(sources := world.sources[w := sources])
                case Requesting(w, ticket) =>
                  world' == world.(requests := world.requests[w := Rows(world.requests, w)
                    + [Request(ticket, Requested)]]))
  {
    hide D.Resolve, Decide, Touch, Decided, RowChange;
    match e.step
    case Deciding(d) =>
      if Decide(world, d.(now := e.now)).Success? { DecideFrame(world, d.(now := e.now)); }
    case Creating(w, hostname, newId) =>
    case Touching(w, id, change) =>
      if id in world.domains && world.domains[id].workspace == w { TouchKeeps(world, w, id, change, e.now); }
    case EditingSources(_, _) =>
    case Requesting(_, _) =>
  }

  lemma RowStays(world: World, e: Event, id: nat)
    requires id in world.domains
    ensures id in Next(world, e).domains
    ensures RowChange(world.domains[id], Next(world, e).domains[id],
      InEffect(world, world.domains[id].workspace, e.now))
  {
    hide Next, ResolveIn, Rows, Allocated, InEffect;
    NextFrame(world, e);
    if e.step.Deciding? && Next(world, e) != world {
      hide RowChange, Decided;
      DecidedRow(world, Next(world, e), e.step.decision.(now := e.now), id);
    }
  }

  lemma DecidedRow(world: World, world': World, d: Decision, id: nat)
    requires id in world.domains && Decided(world, world', d)
    ensures id in world'.domains && RowChange(world.domains[id], world'.domains[id], true)
  {
    hide Rows;
  }

  lemma RowAppears(world: World, e: Event, id: nat)
    requires id in Next(world, e).domains && id !in world.domains
    ensures e.step.Creating? && id == e.step.newId && !InEffect(world, e.step.workspace, e.now)
    ensures Next(world, e).domains[id].workspace == e.step.workspace
      && Next(world, e).domains[id].routing.PendingRouting?
  {
    hide Next, ResolveIn, Rows, Allocated, RowChange;
    NextFrame(world, e);
  }

  // ---------------------------------------------------------------- the overlay itself

  /**
   * A workspace's authority at an instant, read off its rows: a source must permit it, no security hold may be
   * current and no control in effect; it cannot be resolved exactly when a source is invalid or the control in
   * effect has no reason. Nothing else of the base resolution changes, and nothing at all without a control.
   */
  lemma EffectiveAuthority(world: World, w: nat, now: Micros)
    requires w != 0
    ensures ResolveIn(world, w, now).Success? <==>
      D.AllValid(Rows(world.sources, w)) && (InEffect(world, w, now) ==> world.controls[w].reason != 0)
    ensures ResolveIn(world, w, now).Success? ==>
      var (r, ss) := (ResolveIn(world, w, now).value, Rows(world.sources, w));
      && (r.mutationAllowed <==> !InEffect(world, w, now) && !D.Held(now, ss) && D.Contributes(now, ss, D.Regular))
      && (r.routingAllowed <==> !InEffect(world, w, now) && !D.Held(now, ss)
                                && (D.Contributes(now, ss, D.Regular) || D.Contributes(now, ss, D.Grace)))
      && (r.gracePeriod <==> r.routingAllowed && !r.mutationAllowed)
      && (InEffect(world, w, now) ==> r.status == StatusOf(world.controls[w].state))
      && (!D.Held(now, ss) && D.Contributes(now, ss, D.Regular) ==> D.IsTopLimit(now, ss, D.Regular, r.limit))
    ensures ResolveIn(world, w, now).Success? ==>
      && Base(world, w, now).Success?
      && var (base, r) := (Base(world, w, now).value, ResolveIn(world, w, now).value);
         && r.kind == base.kind && r.limit == base.limit && r.validSources == base.validSources
         && r.startsAt == base.startsAt && r.expiresAt == base.expiresAt
         && if InEffect(world, w, now) then !r.gracePeriod && r.graceUntil.None? else r == base
  {
    hide D.Resolve;
    D.ResolveMeaning(now, Rows(world.sources, w), LatestOpen(Rows(world.requests, w)));
  }

  /** Suspending, revoking and restoring never rewrite what the base resolver reads. */
  lemma ControlKeepsBase(world: World, d: Decision, w: nat, t: Micros)
    requires Decide(world, d).Success? && (d.action.Suspend? || d.action.Revoke? || d.action.Restore?)
    ensures Base(Decide(world, d).value.0, w, t) == Base(world, w, t)
  {
  }

  /**
   * However many controls and restores come in between, as long as nobody else edits sources or
   * requests of the workspace, removing the control gives back exactly the base resolution of before,
   * at every instant.
   */
  lemma {:induction false} RestoreRevealsBase(world: World, events: seq<Event>, w: nat, t: Micros)
    requires w != 0 && w !in Run(world, events).controls
    requires forall i :: 0 <= i < |events| ==> LeavesRows(events[i].step, w)
    ensures ResolveIn(Run(world, events), w, t) == Base(world, w, t)
  {
    RunKeepsRows(world, events, w);
    hide D.Resolve, Run;
  }

  predicate LeavesRows(step: Step, w: nat) {
    match step
    case Deciding(d) => d.workspace == w ==> !d.action.Approve? && !d.action.Deny?
    case EditingSources(v, _) => v != w
    case Requesting(v, _) => v != w
    case _ => true
  }

  lemma NextKeepsRows(world: World, e: Event, w: nat)
    requires LeavesRows(e.step, w)
    ensures Rows(Next(world, e).sources, w) == Rows(world.sources, w)
    ensures Rows(Next(world, e).requests, w) == Rows(world.requests, w)
  {
    hide Next, ResolveIn, RowChange, Decided, InEffect, Allocated;
    NextFrame(world, e);
    if e.step.Deciding? && Next(world, e) != world {
      DecidedKeepsRows(world, Next(world, e), e.step.decision.(now := e.now), w);
    }
  }

  lemma DecidedKeepsRows(world: World, world': World, d: Decision, w: nat)
    requires Decided(world, world', d) && (d.workspace == w ==> !d.action.Approve? && !d.action.Deny?)
    ensures Rows(world'.sources, w) == Rows(world.sources, w) && Rows(world'.requests, w) == Rows(world.requests, w)
  {
  }

  lemma {:induction false} RunKeepsRows(world: World, events: seq<Event>, w: nat)
    requires forall i :: 0 <= i < |events| ==> LeavesRows(events[i].step, w)
    ensures Rows(Run(world, events).sources, w) == Rows(world.sources, w)
    ensures Rows(Run(world, events).requests, w) == Rows(world.requests, w)
  {
    hide Next;
    if events != [] {
      RunKeepsRows(world, events[..|events| - 1], w);
      NextKeepsRows(Run(world, events[..|events| - 1]), events[|events| - 1], w);
    }
  }

  // ---------------------------------------------------------------- safety while controlled

  ghost predicate Quiet(domains: map<nat, Domain>, w: nat) {
    forall id :: id in domains ==> !Routable(domains[id], w)
  }

  /** Every control is in effect and its workspace routes nothing. */
  ghost predicate Controlled(world: World, clock: Micros) {
    forall w :: w in world.controls ==> InEffect(world, w, clock) && Quiet(world.domains, w)
  }

  /** The guards of CreateDomain. */
  ghost predicate MayCreate(world: World, w: nat, hostname: Option<nat>, newId: nat, now: Micros) {
    && w != 0 && now != 0 && hostname.Some?
    && ResolveIn(world, w, now).Success? && ResolveIn(world, w, now).value.mutationAllowed
    && Allocated(world.usage, w) < ResolveIn(world, w, now).value.limit
    && newId !in world.domains && forall id :: id in world.domains ==> world.domains[id].hostname != hostname.value
  }

  /**
   * A control is set, and a step of its workspace passes its guards all the same: it read the clock before the
   * control took effect and comes after the decision.
   */
  ghost predicate Outdated(world: World, e: Event) {
    match e.step
    case Creating(w, hostname, newId) => w in world.controls && MayCreate(world, w, hostname, newId, e.now)
    case Touching(w, id, change) => w in world.controls && id in world.domains && MayEnable(world, w, id, change, e.now)
    case _ => false
  }

  lemma CreatingControlled(world: World, clock: Micros, e: Event)
    requires Controlled(world, clock) && e.step.Creating?
    ensures Controlled(Next(world, e), Max(clock, e.now)) <==> !Outdated(world, e)
  {
    hide ResolveIn;
    var (w, world') := (e.step.workspace, Next(world, e));
    assert world' != world <==> MayCreate(world, w, e.step.hostname, e.step.newId, e.now);
    if world' != world {
      assert Routable(world'.domains[e.step.newId], w);
      assert forall v, id :: id in world.domains ==> (Routable(world'.domains[id], v) <==>
        Routable(world.domains[id], v));
    }
  }

  lemma TouchingControlled(world: World, clock: Micros, e: Event)
    requires Controlled(world, clock) && e.step.Touching?
    ensures Controlled(Next(world, e), Max(clock, e.now)) <==> !Outdated(world, e)
  {
    hide ResolveIn, MayEnable;
    var (w, id, world') := (e.step.workspace, e.step.id, Next(world, e));
    if id in world.domains {
      TouchRow(world, w, id, e.step.change, e.now);
      TouchedRow(world, w, id, e.step.change, e.now);
      hide Touch;
      var (d, d') := (world.domains[id], world'.domains[id]);
      if Outdated(world, e) { assert Routable(d', w) && !Routable(d, w); }
    }
  }

  lemma TouchedRow(world: World, w: nat, id: nat, change: Change, now: Micros)
    ensures var world' := Touch(world, w, id, change, now);
            && world'.controls == world.controls && world'.domains.Keys == world.domains.Keys
            && forall i :: i in world.domains && i != id ==> world'.domains[i] == world.domains[i]
    ensures id in world.domains && MayEnable(world, w, id, change, now) ==> world.domains[id].workspace == w
    ensures Touch(world, w, id, change, now) != world ==> id in world.domains && world.domains[id].workspace == w
  {
    hide ResolveIn;
  }

  lemma DecidedControlled(world: World, clock: Micros, e: Event)
    requires Controlled(world, clock) && e.step.Deciding?
    ensures Controlled(Next(world, e), Max(clock, e.now))
  {
    hide Decide, Rows, Routable, RowChange, Decided, SuspendIds, RoutableIds;
    var (world', d) := (Next(world, e), e.step.decision.(now := e.now));
    if Decide(world, d).Success? {
      DecideFrame(world, d);
      DecidedControls(world, world', d);
      forall w | w in world'.controls
        ensures InEffect(world', w, Max(clock, e.now)) && Quiet(world'.domains, w)
      {
        if w == d.workspace { DecidedQuiet(world, world', d); } else { DecidedStaysQuiet(world, world', d, w); }
      }
    }
  }

  lemma DecidedControls(world: World, world': World, d: Decision)
    requires Decided(world, world', d)
    ensures forall w :: w in world'.controls && w != d.workspace ==>
      w in world.controls && world'.controls[w] == world.controls[w]
    ensures d.workspace in world'.controls ==>
      (d.workspace in world.controls && world'.controls == world.controls)
        || world'.controls[d.workspace].effectiveAt <= d.now
  {
  }

  /** The workspace whose control is set is quiet at once. */
  lemma DecidedQuiet(world: World, world': World, d: Decision)
    requires Decided(world, world', d) && d.workspace in world'.controls
    requires d.workspace in world.controls ==> Quiet(world.domains, d.workspace)
    ensures Quiet(world'.domains, d.workspace)
  {
  }

  lemma DecidedStaysQuiet(world: World, world': World, d: Decision, w: nat)
    requires Decided(world, world', d) && Quiet(world.domains, w)
    ensures Quiet(world'.domains, w)
  {
    hide Rows, RoutableIds;
  }

  /** One step keeps every control effective exactly when it is not outdated. */
  lemma NextControlled(world: World, clock: Micros, e: Event)
    requires Controlled(world, clock)
    ensures Controlled(Next(world, e), Max(clock, e.now)) <==> !Outdated(world, e)
  {
    hide Decide, CreateDomain, Touch, MayCreate, MayEnable;
    match e.step
    case Deciding(_) => DecidedControlled(world, clock, e);
    case Creating(_, _, _) => CreatingControlled(world, clock, e);
    case Touching(_, _, _) => TouchingControlled(world, clock, e);
    case EditingSources(_, _) =>
    case Requesting(_, _) =>
  }

  /** No step of the run is outdated. */
  ghost predicate Timely(world: World, events: seq<Event>) {
    forall i :: 0 <= i < |events| ==> !Outdated(Run(world, events[..i]), events[i])
  }

  /**
   * Each control is in force over a workspace that routes nothing, in every state of a run, if and only if no
   * step of the run is outdated. Clock readings may come in any order.
   */
  lemma {:induction false} ControlsHold(world: World, clock: Micros, events: seq<Event>)
    requires Controlled(world, clock)
    ensures (forall i :: 0 <= i <= |events| ==> Controlled(Run(world, events[..i]), ClockAfter(clock, events[..i])))
      <==> Timely(world, events)
  {
    hide Next, Controlled, Outdated;
    if events == [] {
      assert events[..0] == events;
    } else {
      var (n, before) := (|events| - 1, events[..|events| - 1]);
      assert forall i :: 0 <= i <= n ==> events[..i] == before[..i];
      assert events[..n + 1] == events;
      ControlsHold(world, clock, before);
      if Controlled(Run(world, before), ClockAfter(clock, before)) {
        NextControlled(Run(world, before), ClockAfter(clock, before), events[n]);
      }
      assert before[..n] == before;
      assert Timely(world, events) <==> Timely(world, before) && !Outdated(Run(world, before), events[n]);
    }
  }

  /** Only a reading from before the control took effect is outdated. */
  lemma OutdatedIsEarly(world: World, e: Event)
    requires Outdated(world, e)
    ensures e.step.workspace in world.controls && e.now < world.controls[e.step.workspace].effectiveAt
  {
    hide D.Resolve;
  }

  /** Where every step reads the clock after all steps before it, none is outdated. */
  lemma {:induction false} OrderedIsTimely(world: World, clock: Micros, events: seq<Event>)
    requires Controlled(world, clock)
    requires forall i :: 0 <= i < |events| ==> ClockAfter(clock, events[..i]) <= events[i].now
    ensures Timely(world, events) && Controlled(Run(world, events), ClockAfter(clock, events))
  {
    hide Next, Outdated;
    if events != [] {
      var (n, before) := (|events| - 1, events[..|events| - 1]);
      assert forall i :: 0 <= i <= n ==> events[..i] == before[..i];
      assert before[..n] == before;
      OrderedIsTimely(world, clock, before);
      if Outdated(Run(world, before), events[n]) {
        OutdatedIsEarly(Run(world, before), events[n]);
        assert false;
      }
      NextControlled(Run(world, before), ClockAfter(clock, before), events[n]);
    }
  }

  const APPROVAL := D.Source(1, D.ManualApproval, D.OtherKey(1), D.Active, 3, 1, Some(100), None, None, 1, 1,
    D.Text(1), 0)

  const START := World(map[1 := true], map[], map[], map[], map[], map[])

  lemma ApprovalPermits(world: World, now: Micros)
    requires world.sources == map[1 := [APPROVAL]] && world.requests == map[] && !InEffect(world, 1, now)
      && 1 <= now < 100
    ensures ResolveIn(world, 1, now).Success?
    ensures var r := ResolveIn(world, 1, now).value;
            r.mutationAllowed && r.limit == 3 && r.kind.Some? && r.status.Active?
  {
    var ss := [APPROVAL];
    assert D.Valid(APPROVAL) && D.ClassOf(now, APPROVAL) == D.Regular && !D.SecurityHold(now, APPROVAL);
    assert ss[..0] == [];
    assert D.StrongestHold(now, ss) == None && D.OfClass(now, ss, D.Regular) == ss;
    assert D.Highest(ss) in ss;
  }

  /**
   * Such a step exists: a creation that read the clock at 15 and comes after a revocation taken at 20 leaves
   * a pending domain under a control in effect.
   */
  lemma LateCreation()
    ensures var events := [Event(10, EditingSources(1, [APPROVAL])), Event(20, Deciding(Decision(1, Revoke, 1, 1, 2, 20))),
                           Event(15, Creating(1, Some(4), 5))];
            && Controlled(START, 0) && Outdated(Run(START, events[..2]), events[2])
            && InEffect(Run(START, events), 1, 20) && !Quiet(Run(START, events).domains, 1)
  {
    hide ResolveIn, Run;
    var (e1, e2, e3) := (Event(10, EditingSources(1, [APPROVAL])), Event(20, Deciding(Decision(1, Revoke, 1, 1, 2, 20))),
                         Event(15, Creating(1, Some(4), 5)));
    ThreeSteps(START, e1, e2, e3);
    var w1 := Next(START, e1);
    ApprovalPermits(w1, 20);
    var w2 := w1.(controls := map[1 := Control(ControlRevoked, 1, 20)]);
    assert ResolveIn(w2, 1, 20).Success? by { RevokedResolves(w1, w2); }
    assert Next(w1, e2) == w2 by {
      assert RoutableIds(w1.domains, 1) == {} && SuspendIds(w1.domains, {}) == w1.domains;
    }
    ApprovalPermits(w2, 15);
    assert Routable(Next(w2, e3).domains[5], 1);
    assert [e1, e2, e3][..2] == [e1, e2];
  }

  lemma RevokedResolves(world: World, world': World)
    requires ResolveIn(world, 1, 20).Success? && world' == world.(controls := map[1 := Control(ControlRevoked, 1, 20)])
    ensures ResolveIn(world', 1, 20).Success?
  {
  }

  function DomainsOf(domains: map<nat, Domain>, w: nat): set<nat> {
    set id | id in domains && domains[id].workspace == w
  }

  lemma NextCreatesNone(world: World, e: Event, w: nat)
    requires w in world.controls && !Outdated(world, e)
    ensures DomainsOf(Next(world, e).domains, w) == DomainsOf(world.domains, w)
  {
    hide Next, ResolveIn, Routable;
    forall id | id in world.domains || id in Next(world, e).domains
      ensures id in DomainsOf(world.domains, w) <==> id in DomainsOf(Next(world, e).domains, w)
    {
      if id in world.domains { RowStays(world, e, id); } else { RowAppears(world, e, id); CreatedIsGuarded(world, e); }
    }
  }

  lemma CreatedIsGuarded(world: World, e: Event)
    requires e.step.Creating? && Next(world, e) != world
    ensures MayCreate(world, e.step.workspace, e.step.hostname, e.step.newId, e.now)
  {
    hide ResolveIn;
  }

  /**
   * While the control lasts and no step is outdated, the workspace gets no new domain and none of its
   * domains routes.
   */
  lemma {:induction false} NothingWhileControlled(world: World, clock: Micros, events: seq<Event>, w: nat)
    requires Controlled(world, clock) && Timely(world, events)
    requires forall i :: 0 <= i <= |events| ==> w in Run(world, events[..i]).controls
    ensures DomainsOf(Run(world, events).domains, w) == DomainsOf(world.domains, w)
    ensures Quiet(Run(world, events).domains, w)
  {
    hide Next, DomainsOf, InEffect, Outdated;
    ControlsHold(world, clock, events);
    assert events[..|events|] == events;
    if events != [] {
      var n := |events| - 1;
      assert forall i :: 0 <= i <= n ==> events[..n][..i] == events[..i];
      NothingWhileControlled(world, clock, events[..n], w);
      NextCreatesNone(Run(world, events[..n]), events[n], w);
    }
  }

  // ---------------------------------------------------------------- how routing comes back

  lemma NeverEnables(world: World, e: Event, id: nat)
    requires e.step.Touching? ==> e.step.id !in world.domains
    ensures var domains' := Next(world, e).domains;
            id in domains' && domains'[id].routing.Enabled? ==>
              id in world.domains && world.domains[id].routing.Enabled?
  {
    hide Next, ResolveIn, RowChange, Rows, Allocated, InEffect;
    NextFrame(world, e);
  }

  /**
   * Routing is turned on exactly by activating a pending domain or restoring a suspended one, with
   * every axis ready, no hold of another kind, the base entitlement granting it, and no control in effect.
   */
  lemma EnabledExactlyWhenReady(world: World, e: Event, id: nat)
    ensures var domains' := Next(world, e).domains;
            (id in domains' && domains'[id].routing.Enabled?
              && !(id in world.domains && world.domains[id].routing.Enabled?))
            <==> (id in world.domains && e.step.Touching? && e.step.id == id
                  && MayEnable(world, e.step.workspace, id, e.step.change, e.now))
  {
    hide Touch, MayEnable, Decide, CreateDomain;
    if e.step.Touching? && e.step.id in world.domains {
      TouchRow(world, e.step.workspace, e.step.id, e.step.change, e.now);
    } else {
      NeverEnables(world, e, id);
    }
  }

  /** A revoked or removed domain stays so, and a domain never changes its workspace or name. */
  lemma {:induction false} TerminalRouting(world: World, events: seq<Event>, id: nat)
    requires id in world.domains
    ensures var domains' := Run(world, events).domains;
            && id in domains'
            && domains'[id].workspace == world.domains[id].workspace
              && domains'[id].hostname == world.domains[id].hostname
            && (world.domains[id].routing.RevokedRouting? || world.domains[id].routing.RemovedRouting? ==>
                  domains'[id].routing == world.domains[id].routing)
  {
    if events != [] {
      TerminalRouting(world, events[..|events| - 1], id);
      NextKeepsDomain(Run(world, events[..|events| - 1]), events[|events| - 1], id);
      hide Next;
    }
  }

  lemma NextKeepsDomain(world: World, e: Event, id: nat)
    requires id in world.domains
    ensures var domains' := Next(world, e).domains;
            && id in domains'
            && domains'[id].workspace == world.domains[id].workspace
              && domains'[id].hostname == world.domains[id].hostname
            && (world.domains[id].routing.RevokedRouting? || world.domains[id].routing.RemovedRouting? ==>
                  domains'[id].routing == world.domains[id].routing)
  {
    hide Next, ResolveIn, InEffect;
    RowStays(world, e, id);
  }

  // ---------------------------------------------------------------- ownership loss

  /** The domain was suspended for the loss of its ownership. */
  predicate LostOwnership(domains: map<nat, Domain>, id: nat) {
    id in domains && domains[id].category == Some(OwnershipLoss) && domains[id].routing.SuspendedRouting?
  }

  lemma TouchKeepsLoss(world: World, w: nat, id: nat, change: Change, now: Micros)
    requires LostOwnership(world.domains, id)
    ensures LostOwnership(Touch(world, w, id, change, now).domains, id)
  {
    hide ResolveIn;
  }

  lemma NextKeepsLoss(world: World, e: Event, id: nat)
    requires LostOwnership(world.domains, id)
    ensures LostOwnership(Next(world, e).domains, id)
  {
    hide ResolveIn, Decide, CreateDomain, Touch, Rows;
    if e.step.Touching? && e.step.id == id {
      TouchKeepsLoss(world, e.step.workspace, id, e.step.change, e.now);
    } else {
      LossElsewhere(world, e, id);
    }
  }

  lemma LossElsewhere(world: World, e: Event, id: nat)
    requires LostOwnership(world.domains, id) && (e.step.Touching? ==> e.step.id != id)
    ensures LostOwnership(Next(world, e).domains, id)
  {
    hide Next, ResolveIn, RowChange, Rows, Allocated, InEffect;
    NextFrame(world, e);
  }

  /**
   * A domain suspended for the loss of its ownership is never routed again: whatever verifiers see later and
   * whoever restores what, it keeps the category and stays suspended in every later state of every run.
   */
  lemma {:induction false} OwnershipLossIsFinal(world: World, events: seq<Event>, id: nat)
    requires LostOwnership(world.domains, id)
    ensures LostOwnership(Run(world, events).domains, id)
  {
    if events != [] {
      hide Next;
      OwnershipLossIsFinal(world, events[..|events| - 1], id);
      NextKeepsLoss(Run(world, events[..|events| - 1]), events[|events| - 1], id);
    }
  }

  /** Losing the ownership of a live domain gets it there exactly where it was not held for another reason before. */
  lemma LossHolds(world: World, w: nat, id: nat, now: Micros)
    requires LoseOwnership(world, w, id, now).Success?
    ensures id in world.domains
    ensures LostOwnership(LoseOwnership(world, w, id, now).value.domains, id) <==>
      world.domains[id].category.None? || world.domains[id].category == Some(OwnershipLoss)
  {
  }

  /**
   * A loss under another category is not final: once the axes are ready again and the resolution permits
   * routing, a restore of that category routes the domain.
   */
  lemma LossUnderAnotherHold(world: World, w: nat, id: nat, ready: Axes, lost: Micros, now: Micros)
    requires id in world.domains && world.domains[id].category.Some? && world.domains[id].category.value.External()
    requires LoseOwnership(world, w, id, lost).Success? && ready.Ready() && now != 0
    requires ResolveIn(world, w, now).Success? && ResolveIn(world, w, now).value.routingAllowed
    ensures var category := world.domains[id].category.value;
            var events := [Event(lost, Touching(w, id, LosingOwnership)), Event(now, Touching(w, id, Observing(ready))),
                           Event(now, Touching(w, id, SecurityRestoring(category)))];
            id in Run(world, events).domains && Run(world, events).domains[id].routing.Enabled?
  {
    hide ResolveIn, Run, Touch, Decide, CreateDomain;
    var category := world.domains[id].category.value;
    var (e1, e2, e3) := (Event(lost, Touching(w, id, LosingOwnership)), Event(now, Touching(w, id, Observing(ready))),
                         Event(now, Touching(w, id, SecurityRestoring(category))));
    var (w1, w2) := (Next(world, e1), Next(Next(world, e1), e2));
    ThreeSteps(world, e1, e2, e3);
    LossStep(world, w, id, lost);
    ObservingStep(w1, w, id, ready, now);
    hide Next, InEffect, Base;
    SameSourcesResolve(world, w1, w, now);
    SameSourcesResolve(w1, w2, w, now);
    RestoringStep(w2, w, id, category, now);
  }

  lemma LossStep(world: World, w: nat, id: nat, now: Micros)
    requires id in world.domains && world.domains[id].category.Some? && LoseOwnership(world, w, id, now).Success?
    ensures w != 0 && id != 0
    ensures var w1 := Next(world, Event(now, Touching(w, id, LosingOwnership)));
            && w1 == world.(domains := w1.domains) && id in w1.domains && w1.domains[id].workspace == w
            && w1.domains[id].category == world.domains[id].category && w1.domains[id].routing.SuspendedRouting?
  {
  }

  lemma ObservingStep(world: World, w: nat, id: nat, axes: Axes, now: Micros)
    requires id in world.domains && world.domains[id].workspace == w
    ensures Next(world, Event(now, Touching(w, id, Observing(axes))))
         == world.(domains := world.domains[id := world.domains[id].(axes := axes)])
  {
  }

  lemma RestoringStep(world: World, w: nat, id: nat, category: Category, now: Micros)
    requires w != 0 && id != 0 && now != 0 && id in world.domains && world.domains[id].workspace == w
      && category.External()
    requires world.domains[id].routing.SuspendedRouting? && world.domains[id].category == Some(category)
    requires world.domains[id].axes.Ready() && ResolveIn(world, w, now).Success?
      && ResolveIn(world, w, now).value.routingAllowed
    ensures var next := Next(world, Event(now, Touching(w, id, SecurityRestoring(category))));
            id in next.domains && next.domains[id].routing.Enabled?
  {
    hide ResolveIn;
  }

  lemma ThreeSteps(world: World, e1: Event, e2: Event, e3: Event)
    ensures Run(world, [e1, e2]) == Next(Next(world, e1), e2)
    ensures Run(world, [e1, e2, e3]) == Next(Next(Next(world, e1), e2), e3)
  {
    hide Next;
    assert Run(world, [e1]) == Next(world, e1) by { assert [e1][..0] == []; }
    assert [e1, e2, e3][..2] == [e1, e2] && [e1, e2][..1] == [e1];
  }

  /** The resolution does not read the domains. */
  lemma SameSourcesResolve(world: World, world': World, w: nat, now: Micros)
    requires world' == world.(domains := world'.domains)
    ensures ResolveIn(world', w, now) == ResolveIn(world, w, now)
  {
    hide D.Resolve;
  }

  // ---------------------------------------------------------------- controls only tighten

  /** A revocation is never softened to a suspension: only a restore takes it away. */
  lemma RevocationStays(world: World, e: Event, w: nat)
    requires w in world.controls && world.controls[w].state.ControlRevoked?
    ensures var controls' := Next(world, e).controls;
            || (w in controls' && controls'[w].state.ControlRevoked?)
            || (w !in controls' && e.step.Deciding? && e.step.decision.workspace == w
              && e.step.decision.action.Restore?)
  {
    hide Next, ResolveIn;
    NextFrame(world, e);
  }

  // ---------------------------------------------------------------- the usage counter

  ghost predicate Counted(world: World) {
    forall w :: Allocated(world.usage, w) == |DomainsOf(world.domains, w)|
  }

  /** Only a creation changes whose domains there are, and only a creation is counted. */
  lemma OthersKeepUsage(world: World, e: Event, w: nat)
    requires !e.step.Creating?
    ensures Next(world, e).usage == world.usage
    ensures DomainsOf(Next(world, e).domains, w) == DomainsOf(world.domains, w)
  {
    hide Next, ResolveIn, Rows, RowChange, DomainsOf;
    NextFrame(world, e);
    SameDomainsOf(world, e, w);
  }

  lemma SameDomainsOf(world: World, e: Event, w: nat)
    requires !e.step.Creating?
    ensures DomainsOf(Next(world, e).domains, w) == DomainsOf(world.domains, w)
  {
    hide Next, ResolveIn, Routable;
    forall id | id in world.domains || id in Next(world, e).domains
      ensures id in DomainsOf(world.domains, w) <==> id in DomainsOf(Next(world, e).domains, w)
    {
      if id in world.domains { RowStays(world, e, id); } else { RowAppears(world, e, id); }
    }
  }

  lemma CreationCounts(world: World, e: Event, w: nat)
    requires e.step.Creating? && Next(world, e) != world
    requires Allocated(world.usage, w) == |DomainsOf(world.domains, w)|
    ensures Allocated(Next(world, e).usage, w) == |DomainsOf(Next(world, e).domains, w)|
    ensures Allocated(Next(world, e).usage, w) == Allocated(world.usage, w) + if w == e.step.workspace then 1 else 0
    ensures w == e.step.workspace ==>
      && ResolveIn(world, w, e.now).Success? && ResolveIn(world, w, e.now).value.mutationAllowed
      && Allocated(world.usage, w) < ResolveIn(world, w, e.now).value.limit
  {
    hide Next, ResolveIn, RowChange, Decided, DomainsOf;
    NextFrame(world, e);
    CreatedDomainsOf(world.domains, e.step.newId, Next(world, e).domains[e.step.newId], w);
  }

  lemma CreatedDomainsOf(domains: map<nat, Domain>, id: nat, d: Domain, w: nat)
    requires id !in domains
    ensures |DomainsOf(domains[id := d], w)| == |DomainsOf(domains, w)| + if w == d.workspace then 1 else 0
  {
    assert DomainsOf(domains[id := d], w) == DomainsOf(domains, w) + if w == d.workspace then {id} else {};
  }

  /**
   * The counter of a workspace is the number of its domains, and a creation never takes it past the limit
   * of that instant.
   */
  lemma NextCounts(world: World, e: Event, w: nat)
    requires Counted(world)
    ensures Counted(Next(world, e))
    ensures Allocated(Next(world, e).usage, w) != Allocated(world.usage, w) ==>
      && ResolveIn(world, w, e.now).Success? && ResolveIn(world, w, e.now).value.mutationAllowed
      && Allocated(Next(world, e).usage, w) == Allocated(world.usage, w) + 1 <= ResolveIn(world, w, e.now).value.limit
  {
    hide Next, ResolveIn, DomainsOf;
    forall v: nat
      ensures Allocated(Next(world, e).usage, v) == |DomainsOf(Next(world, e).domains, v)|
    {
      if !e.step.Creating? { OthersKeepUsage(world, e, v); }
      else if Next(world, e) != world { CreationCounts(world, e, v); }
    }
    if !e.step.Creating? { OthersKeepUsage(world, e, w); }
    else if Next(world, e) != world { CreationCounts(world, e, w); }
  }
}
