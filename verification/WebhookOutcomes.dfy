/**
 * What the recorded outcomes make of a delivery, over whole runs of interleaved workers
 * (internal/admin/webhooks.go).
 */
module WebhookOutcomes {
  import opened Foundations
  import opened WebhookWorker

  /** An outcome and the time its worker was started with. */
  datatype Last = Last(outcome: Outcome, at: Micros)

  /** The last outcome recorded for the delivery since it was queued or last retried by hand. */
  function LastOutcome(steps: seq<Step>, id: nat): Option<Last> {
    if steps == [] then None
    else
      var (before, step) := (Run(EMPTY, steps[..|steps| - 1]), steps[|steps| - 1]);
      if Resets(before, step, id) then None
      else if Records(before, step, id) then Some(Last(step.outcome, WorkerOf(before, step.worker).now))
      else LastOutcome(steps[..|steps| - 1], id)
  }

  /** The row that n recorded outcomes leave, of which last is the last one. */
  ghost predicate Follows(d: Delivery, n: nat, last: Option<Last>) {
    && n == d.attempts <= 5 && (last.None? <==> n == 0)
    && (d.status.Delivered? <==> last.Some? && last.value.outcome.Accepted?)
    && (d.status.Failed? <==>
          last.Some? && last.value.outcome.Rejected? && (last.value.outcome.permanent || n == 5))
    && (d.status.Failed? ==> d.nextAt == last.value.at)
    && (d.status.Retrying? && n == 1 ==> d.nextAt == last.value.at + 60_000_000)
    && (d.status.Retrying? && n == 2 ==> d.nextAt == last.value.at + 300_000_000)
    && (d.status.Retrying? && n == 3 ==> d.nextAt == last.value.at + 900_000_000)
    && (d.status.Retrying? && n == 4 ==> d.nextAt == last.value.at + 3_600_000_000)
  }

  lemma StepFollows(w: World, step: Step, id: nat, n: nat, last: Option<Last>)
    requires id in w.deliveries ==> Follows(w.deliveries[id], n, last)
    requires !Stale(w, step, id)
    ensures id in w.deliveries || Resets(w, step, id) || id !in Next(w, step).deliveries
    ensures var w' := Next(w, step);
            id in w'.deliveries ==>
              if Resets(w, step, id) then Follows(w'.deliveries[id], 0, None)
              else if Records(w, step, id) then
                Follows(w'.deliveries[id], n + 1, Some(Last(step.outcome, WorkerOf(w, step.worker).now)))
              else id in w.deliveries && Follows(w'.deliveries[id], n, last)
  {
  }

  /**
   * Over any run in which no outcome was recorded on a changed count, the recorded outcomes determine the row:
   * delivered exactly after an accepted one, failed exactly after a permanent rejection or a fifth outcome
   * that was not accepted, and otherwise due again one, five, fifteen or sixty minutes after the last attempt.
   */
  lemma {:induction false} StatusFollowsOutcomes(steps: seq<Step>, id: nat)
    requires forall i :: 0 <= i < |steps| ==> !Stale(Run(EMPTY, steps[..i]), steps[i], id)
    ensures var w := Run(EMPTY, steps);
            id in w.deliveries ==> Follows(w.deliveries[id], Outcomes(EMPTY, steps, id), LastOutcome(steps, id))
  {
    hide Next, Follows, Resets, Records, Stale;
    if steps != [] {
      var (n, before) := (|steps| - 1, steps[..|steps| - 1]);
      assert forall i :: 0 <= i < n ==> before[..i] == steps[..i] && before[i] == steps[i];
      StatusFollowsOutcomes(before, id);
      assert steps[..n] == before;
      StepFollows(Run(EMPTY, before), steps[n], id, Outcomes(EMPTY, before, id), LastOutcome(before, id));
      KeptOrQueued(Run(EMPTY, before), steps[n], id);
    }
  }

  /** The step records that the endpoint accepted the delivery. */
  predicate Accepts(w: World, step: Step, id: nat) { Records(w, step, id) && step.outcome.Accepted? }

  lemma StepDelivers(w: World, step: Step, id: nat)
    ensures var w' := Next(w, step);
            id in w'.deliveries && w'.deliveries[id].status.Delivered?
            <==> (id in w.deliveries && w.deliveries[id].status.Delivered?) || Accepts(w, step, id)
  {
  }

  ghost predicate WasAccepted(steps: seq<Step>, id: nat) {
    exists i :: 0 <= i < |steps| && Accepts(Run(EMPTY, steps[..i]), steps[i], id)
  }

  lemma LastAccepted(steps: seq<Step>, id: nat)
    requires steps != []
    ensures var (n, before) := (|steps| - 1, steps[..|steps| - 1]);
            WasAccepted(steps, id) <==> WasAccepted(before, id) || Accepts(Run(EMPTY, before), steps[n], id)
  {
    hide Accepts, Run;
    var (n, before) := (|steps| - 1, steps[..|steps| - 1]);
    assert steps[..n] == before;
    if i :| 0 <= i < |steps| && Accepts(Run(EMPTY, steps[..i]), steps[i], id) {
      if i < n { assert before[..i] == steps[..i] && before[i] == steps[i]; }
    }
    if i :| 0 <= i < n && Accepts(Run(EMPTY, before[..i]), before[i], id) {
      assert before[..i] == steps[..i] && before[i] == steps[i];
    }
  }

  /** Over any run at all a delivery is delivered if and only if an accepted outcome was recorded for it. */
  lemma {:induction false} DeliveredExactly(steps: seq<Step>, id: nat)
    ensures var w := Run(EMPTY, steps);
            id in w.deliveries && w.deliveries[id].status.Delivered? <==> WasAccepted(steps, id)
  {
    hide Next, Accepts, WasAccepted;
    if steps != [] {
      DeliveredExactly(steps[..|steps| - 1], id);
      LastAccepted(steps, id);
      StepDelivers(Run(EMPTY, steps[..|steps| - 1]), steps[|steps| - 1], id);
    } else {
      NothingAccepted(id);
    }
  }

  lemma NothingAccepted(id: nat)
    ensures !WasAccepted([], id)
  {
  }

  /** Whatever the table holds by then, the step fails the delivery by the count its worker loaded. */
  lemma FailsExactly(w: World, step: Step, id: nat)
    requires id in w.deliveries && !w.deliveries[id].status.Failed?
    ensures var w' := Next(w, step);
            id in w'.deliveries && (w'.deliveries[id].status.Failed? <==>
              Records(w, step, id) && step.outcome.Rejected?
              && (step.outcome.permanent || WorkerOf(w, step.worker).attempts >= 4))
  {
  }

  /** An event is queued once for a webhook, and only for an active one; the delivery is then due at once. */
  lemma QueuedExactly(w: World, id: nat, webhook: nat, event: nat, now: Micros)
    requires id !in w.deliveries
    ensures var w' := Next(w, Queueing(id, webhook, event, now));
            && (id in w'.deliveries <==>
                  webhook in w.webhooks && w.webhooks[webhook]
                  && forall d :: d in w.deliveries ==>
                       w.deliveries[d].webhook != webhook || w.deliveries[d].event != event)
            && (id in w'.deliveries ==>
                  && w'.deliveries[id].webhook == webhook && w'.deliveries[id].event == event
                  && w'.deliveries[id].status.Retrying? && w'.deliveries[id].attempts == 0
                  && w'.deliveries[id].nextAt == now)
            && forall d :: d in w.deliveries ==> d in w'.deliveries && w'.deliveries[d] == w.deliveries[d]
  {
  }

  ghost predicate OnePerEvent(ds: map<nat, Delivery>) {
    forall a, b :: a in ds && b in ds && ds[a].webhook == ds[b].webhook && ds[a].event == ds[b].event ==> a == b
  }

  lemma NextOnePerEvent(w: World, step: Step)
    requires OnePerEvent(w.deliveries)
    ensures OnePerEvent(Next(w, step).deliveries)
  {
    hide RetryDelay;
  }

  /** Over any run there is one delivery for a webhook and an event. */
  lemma {:induction false} OneDeliveryPerEvent(steps: seq<Step>)
    ensures OnePerEvent(Run(EMPTY, steps).deliveries)
  {
    if steps != [] {
      hide Next, OnePerEvent;
      OneDeliveryPerEvent(steps[..|steps| - 1]);
      NextOnePerEvent(Run(EMPTY, steps[..|steps| - 1]), steps[|steps| - 1]);
    } else {
      assert OnePerEvent(EMPTY.deliveries);
    }
  }

  /**
   * The steps up to a request: a worker takes the lease exactly where nobody has it, and asks the endpoint
   * exactly where, with the lease, the delivery is still to be made, due and its webhook active.
   */
  lemma AsksExactly(w: World, n: nat)
    ensures WorkerOf(w, n).Picked? ==>
      (WorkerOf(Next(w, Leasing(n)), n).Leased? <==> WorkerOf(w, n).delivery !in w.leases)
    ensures var k := WorkerOf(w, n);
            k.Leased? ==>
              (WorkerOf(Next(w, Loading(n)), n).Sending? <==>
                 && k.delivery in w.deliveries
                 && var d := w.deliveries[k.delivery];
                    d.status.Retrying? && d.nextAt <= k.now && d.webhook in w.webhooks && w.webhooks[d.webhook])
    ensures var (k, k') := (WorkerOf(w, n), WorkerOf(Next(w, Loading(n)), n));
            k.Leased? && k'.Sending? ==>
              k'.delivery == k.delivery && k'.now == k.now && k'.token == k.token
              && k'.attempts == w.deliveries[k.delivery].attempts
  {
  }

  /**
   * How leases end: a worker that leaves gives up its own if it still has it, one that crashes leaves it behind and
   * starts over, and an expiry takes it from whoever has it; none of these touches a delivery.
   */
  lemma LeasesEnd(w: World, n: nat, id: nat)
    ensures var (k, w') := (WorkerOf(w, n), Next(w, Releasing(n)));
            k.Leaving? ==>
              && WorkerOf(w', n).Resting? && w'.deliveries == w.deliveries
              && (forall d :: d in w'.leases <==> d in w.leases && !(d == k.delivery && w.leases[d] == k.token))
    ensures var w' := Next(w, Crashing(n));
            WorkerOf(w', n).Resting? && w'.leases == w.leases && w'.deliveries == w.deliveries
    ensures var w' := Next(w, Expiring(id));
            id !in w'.leases && (forall d :: d != id ==> (d in w'.leases <==> d in w.leases))
            && w'.deliveries == w.deliveries && w'.workers == w.workers
  {
  }
}
