/**
 * The webhook delivery worker as interleaved steps: leases that may expire under a running worker,
 * outcomes recorded under a status guard, and manual retries (internal/admin/webhooks.go).
 */
module WebhookWorker {
  import opened Foundations

  const MAX_ATTEMPTS: nat := 5
  const MINUTE: nat := 60_000_000

  datatype Status = Retrying | Delivered | Failed

  datatype Delivery = Delivery(webhook: nat, event: nat, status: Status, attempts: nat, nextAt: Micros)

  /** What a worker remembers between two of its steps; now is the time it was started with. */
  datatype Worker =
    | Resting
    | Picked(delivery: nat, now: Micros)
    | Leased(delivery: nat, now: Micros, token: nat)
    | Sending(delivery: nat, now: Micros, token: nat, attempts: nat)
    | Leaving(delivery: nat, token: nat)

  datatype World = World(
    webhooks: map<nat, bool>,                      // whether the webhook is active
    deliveries: map<nat, Delivery>,
    leases: map<nat, nat>,                         // the token stored under a delivery's lease key
    workers: map<nat, Worker>,
    nextToken: nat)

  datatype Outcome = Accepted | Rejected(permanent: bool)

  datatype Step =
    | Queueing(id: nat, webhook: nat, event: nat, now: Micros)
    | Enabling(webhook: nat, active: bool)
    | Picking(worker: nat, delivery: nat, now: Micros)
    | Leasing(worker: nat)
    | Loading(worker: nat)
    | Marking(worker: nat, outcome: Outcome)
    | Releasing(worker: nat)
    | Crashing(worker: nat)
    | Expiring(delivery: nat)
    | Retry(delivery: nat, now: Micros)

  function RetryDelay(attempts: nat): nat {
    if attempts == 1 then MINUTE else if attempts == 2 then 5 * MINUTE else if attempts == 3 then 15 * MINUTE
      else 60 * MINUTE
  }

  predicate Active(w: World, webhook: nat) { webhook in w.webhooks && w.webhooks[webhook] }

  /** nextDueDelivery's condition. */
  predicate Due(w: World, id: nat, now: Micros) {
    id in w.deliveries && w.deliveries[id].status.Retrying? && w.deliveries[id].nextAt <= now
      && Active(w, w.deliveries[id].webhook)
  }

  function WorkerOf(w: World, n: nat): Worker { if n in w.workers then w.workers[n] else Resting }

  /** QueueDelivery: one delivery per webhook and event. */
  function Queue(w: World, id: nat, webhook: nat, event: nat, now: Micros): World {
    if !Active(w, webhook) || id in w.deliveries
       || exists d :: d in w.deliveries && w.deliveries[d].webhook == webhook && w.deliveries[d].event == event
    then w
    else w.(deliveries := w.deliveries[id := Delivery(webhook, event, Retrying, 0, now)])
  }

  /**
   * markDeliverySuccess and markDeliveryFailure on the row as loaded: attempts comes from there, not from
   * the table.
   */
  function Marked(d: Delivery, attempts: nat, outcome: Outcome, now: Micros): Delivery {
    match outcome
    case Accepted => d.(status := Delivered, attempts := attempts + 1)
    case Rejected(permanent) =>
      if permanent || attempts + 1 >= MAX_ATTEMPTS then d.(status := Failed, attempts := attempts + 1, nextAt := now)
      else d.(attempts := attempts + 1, nextAt := now + RetryDelay(attempts + 1))
  }

  function Mark(w: World, id: nat, attempts: nat, outcome: Outcome, now: Micros): World {
    if id !in w.deliveries || !w.deliveries[id].status.Retrying? then w
    else w.(deliveries := w.deliveries[id := Marked(w.deliveries[id], attempts, outcome, now)])
  }

  /** RetryDelivery. */
  function RetryFailed(w: World, id: nat, now: Micros): World {
    if id !in w.deliveries || !Active(w, w.deliveries[id].webhook) || !w.deliveries[id].status.Failed? then w
    else w.(deliveries := w.deliveries[id := w.deliveries[id].(status := Retrying, attempts := 0, nextAt := now)])
  }

  /** The compare-and-delete script. */
  function ReleaseLease(leases: map<nat, nat>, id: nat, token: nat): map<nat, nat> {
    if id in leases && leases[id] == token then leases - {id} else leases
  }

  function Next(w: World, step: Step): World {
    match step
    case Queueing(id, webhook, event, now) => Queue(w, id, webhook, event, now)
    case Enabling(webhook, active) => w.(webhooks := w.webhooks[webhook := active])
    case Picking(n, id, now) =>
      if !WorkerOf(w, n).Resting? || !Due(w, id, now) then w else w.(workers := w.workers[n := Picked(id, now)])
    case Leasing(n) =>
      var k := WorkerOf(w, n);
      if !k.Picked? then w
      else if k.delivery in w.leases then w.(workers := w.workers[n := Resting])
      else
        w.(leases := w.leases[k.delivery := w.nextToken], nextToken := w.nextToken + 1,
           workers := w.workers[n := Leased(k.delivery, k.now, w.nextToken)])
    case Loading(n) =>
      var k := WorkerOf(w, n);
      if !k.Leased? then w
      else if !Due(w, k.delivery, k.now) then w.(workers := w.workers[n := Leaving(k.delivery, k.token)])
      else w.(workers := w.workers[n := Sending(k.delivery, k.now, k.token, w.deliveries[k.delivery].attempts)])
    case Marking(n, outcome) =>
      var k := WorkerOf(w, n);
      if !k.Sending? then w
      else Mark(w, k.delivery, k.attempts, outcome, k.now).(workers := w.workers[n := Leaving(k.delivery, k.token)])
    case Releasing(n) =>
      var k := WorkerOf(w, n);
      if !k.Leaving? then w
      else w.(leases := ReleaseLease(w.leases, k.delivery, k.token), workers := w.workers[n := Resting])
    case Crashing(n) => w.(workers := w.workers[n := Resting])
    case Expiring(id) => w.(leases := w.leases - {id})
    case Retry(id, now) => RetryFailed(w, id, now)
  }

  function Run(w: World, steps: seq<Step>): World {
    if steps == [] then w else Next(Run(w, steps[..|steps| - 1]), steps[|steps| - 1])
  }

  const EMPTY := World(map[], map[], map[], map[], 0)

  // ---------------------------------------------------------------- the statements

  /** A worker's steps one after the other, with nobody else in between. */
  function Once(w: World, n: nat, id: nat, now: Micros, outcome: Outcome): World {
    Next(Next(Next(Next(Next(w, Picking(n, id, now)), Leasing(n)), Loading(n)), Marking(n, outcome)), Releasing(n))
  }

  /** Earlier next attempt first, then the smaller id. */
  predicate Before(w: World, a: nat, b: nat)
    requires a in w.deliveries && b in w.deliveries
  {
    w.deliveries[a].nextAt < w.deliveries[b].nextAt || (w.deliveries[a].nextAt == w.deliveries[b].nextAt && a <= b)
  }

  /** At most the status, count and next attempt of one delivery differ. */
  ghost predicate Kept(w: World, w': World, id: nat) {
    && id in w.deliveries && w'.webhooks == w.webhooks && w'.deliveries.Keys == w.deliveries.Keys
    && (forall d :: d in w.deliveries && d != id ==> w'.deliveries[d] == w.deliveries[d])
    && w'.deliveries[id].webhook == w.deliveries[id].webhook && w'.deliveries[id].event == w.deliveries[id].event
  }

  class Authority {
    var world: World

    constructor ()
      ensures world == EMPTY
    {
      world := EMPTY;
    }

    method NextDueDelivery(now: Micros) returns (found: Option<nat>)
      ensures found.None? <==> forall id :: !Due(world, id, now)
      ensures found.Some? ==> Due(world, found.value, now) && forall id :: Due(world, id, now) ==>
        Before(world, found.value, id)
    {
      found := None;
      var rest := world.deliveries.Keys;
      while rest != {}
        invariant rest <= world.deliveries.Keys
        invariant found.None? <==> forall id :: id in world.deliveries && id !in rest ==> !Due(world, id, now)
        invariant found.Some? ==> Due(world, found.value, now)
        invariant found.Some? ==> forall id :: id in world.deliveries && id !in rest && Due(world, id, now) ==>
          Before(world, found.value, id)
        decreases |rest|
      {
        var id :| id in rest;
        rest := rest - {id};
        if Due(world, id, now) && (found.None? || Before(world, id, found.value)) { found := Some(id); }
      }
    }

    method MarkDelivery(id: nat, attempts: nat, outcome: Outcome, now: Micros) returns (ok: bool)
      modifies this
      ensures world == Mark(old(world), id, attempts, outcome, now)
      ensures ok <==> id in old(world).deliveries && old(world).deliveries[id].status.Retrying?
      ensures !ok ==> world == old(world)
      ensures ok ==> Kept(old(world), world, id)
      ensures ok ==> world.deliveries[id].attempts == attempts + 1
      ensures ok ==> (world.deliveries[id].status.Delivered? <==> outcome.Accepted?)
      ensures ok ==> (world.deliveries[id].status.Failed? <==>
        outcome.Rejected? && (outcome.permanent || attempts >= 4))
    {
      if id !in world.deliveries || !world.deliveries[id].status.Retrying? { return false; }
      var made := attempts + 1;
      var d := world.deliveries[id].(attempts := made);
      match outcome {
        case Accepted => d := d.(status := Delivered);
        case Rejected(permanent) =>
          d := d.(nextAt := now + RetryDelay(made));
          if permanent || made >= MAX_ATTEMPTS { d := d.(status := Failed, nextAt := now); }
      }
      world := world.(deliveries := world.deliveries[id := d]);
      return true;
    }

    method RetryDelivery(id: nat, now: Micros) returns (ok: bool)
      modifies this
      ensures world == RetryFailed(old(world), id, now)
      ensures ok <==> id in old(world).deliveries && old(world).deliveries[id].status.Failed?
                      && Active(old(world), old(world).deliveries[id].webhook)
      ensures !ok ==> world == old(world)
      ensures ok ==> id in world.deliveries && world.deliveries[id].attempts == 0 && Due(world, id, now)
      ensures ok ==> world.deliveries[id].nextAt == now
      ensures world.deliveries.Keys == old(world).deliveries.Keys
      ensures forall d :: d in world.deliveries && d != id ==> world.deliveries[d] == old(world).deliveries[d]
    {
      if id !in world.deliveries || !Active(world, world.deliveries[id].webhook) { return false; }
      var d := world.deliveries[id];
      if !d.status.Failed? { return false; }
      world := world.(deliveries := world.deliveries[id := d.(status := Retrying, attempts := 0, nextAt := now)]);
      return true;
    }

    method ReleaseDelivery(n: nat, id: nat, token: nat)
      modifies this
      ensures world == old(world).(leases := ReleaseLease(old(world).leases, id, token),
        workers := old(world).workers[n := Resting])
      ensures forall d :: d in world.leases <==> d in old(world).leases && (d != id || old(world).leases[d] != token)
      ensures forall d :: d in world.leases ==> world.leases[d] == old(world).leases[d]
    {
      if id in world.leases && world.leases[id] == token { world := world.(leases := world.leases - {id}); }
      world := world.(workers := world.workers[n := Resting]);
    }

    /** RunDeliveryOnce by one worker; outcome is what the endpoint will answer if it is asked. */
    method RunDeliveryOnce(n: nat, now: Micros, outcome: Outcome) returns (picked: Option<nat>)
      requires WorkerOf(world, n).Resting?
      modifies this
      ensures picked.None? <==> forall id :: !Due(old(world), id, now)
      ensures picked.None? ==> world == old(world)
      ensures picked.Some? ==>
        && Due(old(world), picked.value, now)
          && (forall id :: Due(old(world), id, now) ==> Before(old(world), picked.value, id))
        && world == Once(old(world), n, picked.value, now, outcome)
      ensures picked.Some? && picked.value in old(world).leases ==>
        world.deliveries == old(world).deliveries && world.leases == old(world).leases
      ensures picked.Some? && picked.value !in old(world).leases ==>
        && Kept(old(world), world, picked.value) && world.leases == old(world).leases
        && var (d, d') := (old(world).deliveries[picked.value], world.deliveries[picked.value]);
           && d'.attempts == d.attempts + 1 && (d'.status.Delivered? <==> outcome.Accepted?)
           && (d'.status.Failed? <==> outcome.Rejected? && (outcome.permanent || d.attempts >= 4))
    {
      picked := NextDueDelivery(now);
      if picked.None? { return; }
      var id := picked.value;
      world := world.(workers := world.workers[n := Picked(id, now)]);
      if id in world.leases {
        world := world.(workers := world.workers[n := Resting]);
        return;
      }
      var token := world.nextToken;
      world := world.(leases := world.leases[id := token], nextToken := token + 1,
        workers := world.workers[n := Leased(id, now, token)]);
      var attempts := world.deliveries[id].attempts;
      world := world.(workers := world.workers[n := Sending(id, now, token, attempts)]);
      var ok := MarkDelivery(id, attempts, outcome, now);
      world := world.(workers := world.workers[n := Leaving(id, token)]);
      ReleaseDelivery(n, id, token);
    }
  }

  // ---------------------------------------------------------------- tokens, attempts, finality

  predicate Holds(k: Worker, token: nat) { (k.Leased? || k.Sending? || k.Leaving?) && k.token == token }

  ghost predicate Inv(w: World) {
    && (forall id :: id in w.leases ==> w.leases[id] < w.nextToken)
    && (forall n :: n in w.workers ==> forall t: nat :: Holds(w.workers[n], t) ==> t < w.nextToken)
    && (forall m, n, t :: m in w.workers && n in w.workers && Holds(w.workers[m], t) && Holds(w.workers[n], t) ==>
      m == n)
    && (forall n, id :: n in w.workers && id in w.leases && Holds(w.workers[n], w.leases[id]) ==>
      w.workers[n].delivery == id)
    && (forall id :: id in w.deliveries ==> Bounded(w.deliveries[id]))
    && (forall n :: n in w.workers && w.workers[n].Sending? ==> w.workers[n].attempts < MAX_ATTEMPTS)
  }

  predicate Bounded(d: Delivery) { d.attempts <= MAX_ATTEMPTS && (d.status.Retrying? ==> d.attempts < MAX_ATTEMPTS) }

  lemma {:induction false} WorkerStepKeepsInv(w: World, n: nat, k: Worker)
    requires Inv(w)
    requires forall t: nat :: Holds(k, t) ==>
      n in w.workers && Holds(w.workers[n], t) && k.delivery == w.workers[n].delivery
    requires k.Sending? ==> k.attempts < MAX_ATTEMPTS
    ensures Inv(w.(workers := w.workers[n := k]))
  {
  }

  lemma {:induction false} LeaseKeepsInv(w: World, n: nat, id: nat, now: Micros)
    requires Inv(w) && id !in w.leases
    ensures Inv(w.(leases := w.leases[id := w.nextToken], nextToken := w.nextToken + 1,
                   workers := w.workers[n := Leased(id, now, w.nextToken)]))
  {
  }

  lemma {:induction false} RowKeepsInv(w: World, id: nat, d: Delivery)
    requires Inv(w) && Bounded(d)
    ensures Inv(w.(deliveries := w.deliveries[id := d]))
  {
  }

  lemma {:induction false} NextKeepsInv(w: World, step: Step)
    requires Inv(w)
    ensures Inv(Next(w, step))
  {
    hide Inv;
    match step
    case Queueing(id, webhook, event, now) => RowKeepsInv(w, id, Delivery(webhook, event, Retrying, 0, now));
    case Enabling(_, _) => LeasesShrinkInv(w, Next(w, step));
    case Picking(n, id, now) => WorkerStepKeepsInv(w, n, Picked(id, now));
    case Leasing(n) =>
      var k := WorkerOf(w, n);
      if k.Picked? {
        WorkerStepKeepsInv(w, n, Resting);
        if k.delivery !in w.leases { LeaseKeepsInv(w, n, k.delivery, k.now); }
      }
    case Loading(n) =>
      var k := WorkerOf(w, n);
      if k.Leased? {
        if Due(w, k.delivery, k.now) { BoundedRow(w, k.delivery); }
        WorkerStepKeepsInv(w, n, WorkerOf(Next(w, step), n));
      }
    case Marking(n, outcome) =>
      var k := WorkerOf(w, n);
      if k.Sending? {
        SendingBounded(w, n);
        var left := w.(workers := w.workers[n := Leaving(k.delivery, k.token)]);
        WorkerStepKeepsInv(w, n, Leaving(k.delivery, k.token));
        if k.delivery in w.deliveries { RowKeepsInv(left, k.delivery, Next(w, step).deliveries[k.delivery]) by { BoundedRow(w, k.delivery); } }
      }
    case Releasing(n) =>
      var k := WorkerOf(w, n);
      if k.Leaving? {
        WorkerStepKeepsInv(w, n, Resting);
        LeasesShrinkInv(w.(workers := w.workers[n := Resting]), Next(w, step));
      }
    case Crashing(n) => WorkerStepKeepsInv(w, n, Resting);
    case Expiring(_) => LeasesShrinkInv(w, Next(w, step));
    case Retry(id, now) =>
      if id in w.deliveries { RowKeepsInv(w, id, w.deliveries[id].(status := Retrying, attempts := 0, nextAt := now)); }
  }

  lemma {:induction false} BoundedRow(w: World, id: nat)
    requires Inv(w) && id in w.deliveries
    ensures Bounded(w.deliveries[id])
  {
  }

  lemma {:induction false} SendingBounded(w: World, n: nat)
    requires Inv(w) && WorkerOf(w, n).Sending?
    ensures WorkerOf(w, n).attempts < MAX_ATTEMPTS
  {
  }

  lemma {:induction false} LeasesShrinkInv(w: World, w': World)
    requires Inv(w) && w' == w.(webhooks := w'.webhooks, leases := w'.leases)
    requires forall id :: id in w'.leases ==> id in w.leases && w'.leases[id] == w.leases[id]
    ensures Inv(w')
  {
  }

  /**
   * In every interleaving, with crashes and with leases expiring under running workers: attempts never
   * exceed five, a delivery still retrying has made at most four, and no token is held twice.
   */
  lemma {:induction false} RunKeepsInv(steps: seq<Step>)
    ensures Inv(Run(EMPTY, steps))
  {
    if steps != [] {
      RunKeepsInv(steps[..|steps| - 1]);
      hide Inv, Next;
      NextKeepsInv(Run(EMPTY, steps[..|steps| - 1]), steps[|steps| - 1]);
    }
  }

  /** A release takes away at most the lease the worker itself took: another worker's lease stays. */
  lemma {:induction false} ReleaseKeepsOthers(steps: seq<Step>, m: nat, n: nat, id: nat)
    requires var w := Run(EMPTY, steps);
             m != n && n in w.workers && id in w.leases && Holds(w.workers[n], w.leases[id])
    ensures var (w, w') := (Run(EMPTY, steps), Next(Run(EMPTY, steps), Releasing(m)));
            id in w'.leases && w'.leases[id] == w.leases[id]
  {
    RunKeepsInv(steps);
    hide Run;
  }

  /** Delivered is final. */
  lemma {:induction false} DeliveredIsFinal(w: World, steps: seq<Step>, id: nat)
    requires id in w.deliveries && w.deliveries[id].status.Delivered?
    ensures var w' := Run(w, steps); id in w'.deliveries && w'.deliveries[id] == w.deliveries[id]
  {
    if steps != [] { DeliveredIsFinal(w, steps[..|steps| - 1], id); }
  }

  // ---------------------------------------------------------------- counting outcomes

  /** The step records an outcome of the delivery. */
  predicate Records(w: World, step: Step, id: nat) {
    && step.Marking? && WorkerOf(w, step.worker).Sending? && WorkerOf(w, step.worker).delivery == id
    && id in w.deliveries && w.deliveries[id].status.Retrying?
  }

  predicate Resets(w: World, step: Step, id: nat) {
    || (step.Retry? && step.delivery == id && id in w.deliveries && w.deliveries[id].status.Failed?
        && Active(w, w.deliveries[id].webhook))
    || (step.Queueing? && step.id == id && id !in w.deliveries)
  }

  /** Outcomes recorded for the delivery since it was queued or last retried by hand. */
  function Outcomes(w: World, steps: seq<Step>, id: nat): nat {
    if steps == [] then 0
    else
      var (before, step) := (Run(w, steps[..|steps| - 1]), steps[|steps| - 1]);
      if Resets(before, step, id) then 0
      else Outcomes(w, steps[..|steps| - 1], id) + if Records(before, step, id) then 1 else 0
  }

  /** A lease expires only when no running worker relies on it. */
  predicate Fair(w: World, step: Step) {
    step.Expiring? && step.delivery in w.leases ==> forall n :: n in w.workers ==>
      !Holds(w.workers[n], w.leases[step.delivery])
  }

  /** Every worker past its lease still has it, and a worker about to record saw the current count. */
  ghost predicate Exclusive(w: World) {
    forall n :: n in w.workers && (w.workers[n].Leased? || w.workers[n].Sending?) ==>
      var k := w.workers[n];
      && k.delivery in w.leases && w.leases[k.delivery] == k.token
      && (k.Sending? ==> k.delivery in w.deliveries && w.deliveries[k.delivery].status.Retrying?
                         && w.deliveries[k.delivery].attempts == k.attempts)
  }

  lemma {:induction false} MarkingKeepsExclusive(w: World, n: nat, outcome: Outcome)
    requires Inv(w) && Exclusive(w)
    ensures Exclusive(Next(w, Marking(n, outcome)))
  {
    hide Bounded, RetryDelay;
    var w' := Next(w, Marking(n, outcome));
    forall m | m in w'.workers && m != n && w.workers[m].Sending? && WorkerOf(w, n).Sending?
      ensures w.workers[m].delivery != w.workers[n].delivery
    {
      assert Holds(w.workers[m], w.workers[m].token) && Holds(w.workers[n], w.workers[n].token);
    }
  }

  lemma {:induction false} ReleasingKeepsExclusive(w: World, n: nat)
    requires Inv(w) && Exclusive(w)
    ensures Exclusive(Next(w, Releasing(n)))
  {
    hide Bounded;
    forall m | m in w.workers && m != n && (w.workers[m].Leased? || w.workers[m].Sending?) && WorkerOf(w, n).Leaving?
      ensures w.workers[m].token != w.workers[n].token
    {
      assert Holds(w.workers[m], w.workers[m].token) && Holds(w.workers[n], w.workers[n].token);
    }
  }

  lemma {:induction false} NextKeepsExclusive(w: World, step: Step)
    requires Inv(w) && Exclusive(w) && Fair(w, step)
    ensures Exclusive(Next(w, step))
  {
    if step.Marking? {
      MarkingKeepsExclusive(w, step.worker, step.outcome);
    } else if step.Releasing? {
      ReleasingKeepsExclusive(w, step.worker);
    } else {
      hide Inv, Bounded, RetryDelay, Mark, ReleaseLease;
      forall m | m in w.workers && (w.workers[m].Leased? || w.workers[m].Sending?)
        ensures Holds(w.workers[m], w.workers[m].token)
      {
      }
    }
  }

  /** Where leases do not overlap, each recorded outcome raises the count by one. */
  lemma {:induction false} NextCounts(w: World, step: Step, id: nat, count: nat)
    requires Inv(w) && Exclusive(w)
    requires id in w.deliveries ==> w.deliveries[id].attempts == count
    ensures var w' := Next(w, step);
            id in w'.deliveries ==>
              w'.deliveries[id].attempts == if Resets(w, step, id) then 0
                else count + if Records(w, step, id) then 1 else 0
  {
    hide Inv, RetryDelay;
  }

  /** When leases do not overlap at most five outcomes are recorded between manual retries: attempts counts them. */
  lemma {:induction false} FiveOutcomes(steps: seq<Step>, id: nat)
    requires forall i :: 0 <= i < |steps| ==> Fair(Run(EMPTY, steps[..i]), steps[i])
    ensures Exclusive(Run(EMPTY, steps))
    ensures id in Run(EMPTY, steps).deliveries ==>
      Run(EMPTY, steps).deliveries[id].attempts == Outcomes(EMPTY, steps, id) <= MAX_ATTEMPTS
  {
    RunKeepsInv(steps);
    if steps != [] {
      var before := steps[..|steps| - 1];
      assert forall i :: 0 <= i < |before| ==> before[..i] == steps[..i] && before[i] == steps[i];
      FiveOutcomes(before, id);
      RunKeepsInv(before);
      hide Exclusive, Next, Fair, Resets, Records;
      var w := Run(EMPTY, before);
      NextKeepsExclusive(w, steps[|steps| - 1]);
      KeptOrQueued(w, steps[|steps| - 1], id);
      NextCounts(w, steps[|steps| - 1], id, Outcomes(EMPTY, before, id));
    }
  }

  /** The step records an outcome on a count that is no longer the one the worker loaded. */
  predicate Stale(w: World, step: Step, id: nat) {
    Records(w, step, id) && WorkerOf(w, step.worker).attempts != w.deliveries[id].attempts
  }

  /** attempts is the number of outcomes recorded. */
  predicate Counts(steps: seq<Step>, id: nat) {
    var w := Run(EMPTY, steps);
    id in w.deliveries ==> w.deliveries[id].attempts == Outcomes(EMPTY, steps, id)
  }

  lemma {:induction false} StepCounts(w: World, step: Step, id: nat, count: nat)
    requires id in w.deliveries ==> w.deliveries[id].attempts == count
    ensures id in w.deliveries ==> id in Next(w, step).deliveries
    ensures var w' := Next(w, step);
            id in w'.deliveries ==>
              (w'.deliveries[id].attempts == (if Resets(w, step, id) then 0 else count + if Records(w, step, id) then 1 else 0)
               <==> !Stale(w, step, id))
  {
    hide RetryDelay;
  }

  /**
   * Exactly when a count goes wrong: attempts has been the number of recorded outcomes all along if and only
   * if no worker recorded on a count that had changed since it loaded the row. Leases that never overlap are
   * one way to keep to that.
   */
  lemma {:induction false} CountsExactly(steps: seq<Step>, id: nat)
    ensures (forall i :: 0 <= i <= |steps| ==> Counts(steps[..i], id)) <==>
      (forall i :: 0 <= i < |steps| ==> !Stale(Run(EMPTY, steps[..i]), steps[i], id))
  {
    hide Run, Stale, Counts;
    if steps == [] {
      assert steps[..0] == [] && Counts([], id) by { NothingCounted(id); }
    } else {
      var (n, before) := (|steps| - 1, steps[..|steps| - 1]);
      CountsExactly(before, id);
      assert steps[..|steps|] == steps;
      assert forall i :: 0 <= i <= n ==> before[..i] == steps[..i];
      assert forall i :: 0 <= i < n ==> before[i] == steps[i];
      assert before[..n] == before;
      if Counts(before, id) { LastCounts(steps, id); }
    }
  }

  lemma {:induction false} NothingCounted(id: nat)
    ensures Counts([], id)
  {
  }

  lemma {:induction false} LastCounts(steps: seq<Step>, id: nat)
    requires steps != [] && Counts(steps[..|steps| - 1], id)
    ensures Counts(steps, id) <==> !Stale(Run(EMPTY, steps[..|steps| - 1]), steps[|steps| - 1], id)
  {
    hide Next, Resets;
    var (before, step) := (steps[..|steps| - 1], steps[|steps| - 1]);
    StepCounts(Run(EMPTY, before), step, id, Outcomes(EMPTY, before, id));
    KeptOrQueued(Run(EMPTY, before), step, id);
  }

  lemma {:induction false} KeptOrQueued(w: World, step: Step, id: nat)
    ensures id in Next(w, step).deliveries ==> id in w.deliveries || Resets(w, step, id)
  {
  }

  const OVERLAP := [
    Enabling(1, true), Queueing(7, 1, 1, 0), Picking(0, 7, 0), Leasing(0), Loading(0), Expiring(7),
    Picking(1, 7, 0), Leasing(1), Loading(1), Marking(1, Rejected(false)), Marking(0, Rejected(false))]

  /** The states that run goes through. */
  function OverlapState(i: nat): World
    requires i <= 11
  {
    var once := Delivery(1, 1, Retrying, 1, MINUTE);
    var (first, second) := (Sending(7, 0, 0, 0), Sending(7, 0, 1, 0));
    var deliveries := if i < 2 then map[] else if i < 10 then map[7 := Delivery(1, 1, Retrying, 0, 0)]
      else map[7 := once];
    var leases := if i < 4 || 5 < i < 8 then map[] else if i < 6 then map[7 := 0] else map[7 := 1];
    var workers: map<nat, Worker> :=
      if i < 3 then map[]
      else if i == 3 then map[0 := Picked(7, 0)]
      else if i == 4 then map[0 := Leased(7, 0, 0)]
      else if i < 7 then map[0 := first]
      else if i == 7 then map[0 := first, 1 := Picked(7, 0)]
      else if i == 8 then map[0 := first, 1 := Leased(7, 0, 1)]
      else if i == 9 then map[0 := first, 1 := second]
      else if i == 10 then map[0 := first, 1 := Leaving(7, 1)]
      else map[0 := Leaving(7, 0), 1 := Leaving(7, 1)];
    World(if i == 0 then map[] else map[1 := true], deliveries, leases, workers, if i < 4 then 0
      else if i < 8 then 1 else 2)
  }

  lemma {:induction false} OverlapStep(i: nat)
    requires i < 11
    ensures Next(OverlapState(i), OVERLAP[i]) == OverlapState(i + 1)
    ensures Resets(OverlapState(i), OVERLAP[i], 7) <==> i == 1
    ensures Records(OverlapState(i), OVERLAP[i], 7) <==> i >= 9
  {
    if i < 6 { FirstWorker(i); } else { SecondWorker(i); }
    hide Next, OverlapState, Resets, Records;
  }

  lemma {:induction false} FirstWorker(i: nat)
    requires i < 6
    ensures Next(OverlapState(i), OVERLAP[i]) == OverlapState(i + 1)
    ensures Resets(OverlapState(i), OVERLAP[i], 7) <==> i == 1
    ensures !Records(OverlapState(i), OVERLAP[i], 7)
  {
  }

  lemma {:induction false} SecondWorker(i: nat)
    requires 6 <= i < 11
    ensures Next(OverlapState(i), OVERLAP[i]) == OverlapState(i + 1)
    ensures !Resets(OverlapState(i), OVERLAP[i], 7)
    ensures Records(OverlapState(i), OVERLAP[i], 7) <==> i >= 9
  {
  }

  lemma {:induction false} OverlapRun(i: nat)
    requires i <= 11
    ensures Run(EMPTY, OVERLAP[..i]) == OverlapState(i)
    ensures Outcomes(EMPTY, OVERLAP[..i], 7) == if i < 10 then 0 else i - 9
  {
    if i > 0 {
      OverlapRun(i - 1);
      OverlapStep(i - 1);
      assert OVERLAP[..i][..i - 1] == OVERLAP[..i - 1];
      hide Next, OverlapState, Resets, Records;
    }
  }

  /**
   * The condition matters: when a lease expires under a slow worker a second one delivers from the same
   * count, and one of the two recorded failures goes uncounted.
   */
  lemma {:induction false} OverlapLosesACount()
    ensures !Fair(Run(EMPTY, OVERLAP[..5]), OVERLAP[5])
    ensures Outcomes(EMPTY, OVERLAP, 7) == 2 && 7 in Run(EMPTY, OVERLAP).deliveries
    ensures Run(EMPTY, OVERLAP).deliveries[7].attempts == 1
  {
    OverlapRun(5);
    OverlapRun(11);
    assert OVERLAP[..11] == OVERLAP;
    hide Run, Outcomes;
    assert Holds(OverlapState(5).workers[0], 0);
  }
}
