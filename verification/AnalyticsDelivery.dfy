/** That nothing accepted is lost on the way to the log (internal/analytics/store.go, reconcile.go). */
module AnalyticsDelivery {
  import opened Foundations
  import opened Tallies
  import opened Analytics
  import opened AnalyticsStore

  // ---------------------------------------------------------------- acceptance

  /**
   * An event is accepted exactly when its fields are filled in and neither of its keys is taken; then it is
   * pending.
   */
  lemma AcceptsExactly(p: Pipeline, c: Click)
    requires OutboxOk(p.outbox)
    ensures var id := ClickId(c.workspace, c.link, c.sequence);
            && (InsertOutbox(p, c).Success? <==>
                  && c.workspace != 0 && c.link != 0 && c.sequence != 0 && c.occurredAt.at != 0
                  && id !in p.outbox
                  && forall o :: o in p.outbox ==>
                       p.outbox[o].click.link != c.link || p.outbox[o].click.sequence != c.sequence)
            && (InsertOutbox(p, c).Success? ==>
                  var p' := InsertOutbox(p, c).value;
                  && p'.outbox.Keys == p.outbox.Keys + {id}
                    && (forall o :: o in p.outbox ==> p'.outbox[o] == p.outbox[o])
                  && p'.outbox[id].click == c && p'.outbox[id].publishedAt.None? && p'.outbox[id].streamId.None?
                  && p'.outbox[id].attempts == 0 && !p'.outbox[id].failed
                  && p' == p.(accepted := p.accepted + [id], outbox := p'.outbox))
  {
  }

  /** A delivery answers that it counted the click exactly when the log did not know it. */
  lemma PersistAnswers(p: Pipeline, clicks: set<Click>, i: nat, streamId: nat, at: Micros)
    requires Inv(p, clicks) && i < |p.stream|
    ensures var r := Persist(p, p.stream[i], streamId, at);
            && (r.Success? <==> streamId != 0 && at != 0)
            && (r.Success? ==> (r.value.1 <==> p.stream[i] !in clicks))
  {
    hide Tally, Bump, Clash;
    LoggedOnce(p, clicks, p.stream[i]);
  }

  // ---------------------------------------------------------------- the order of the outbox

  /** The outbox in the order of creation lists each of its rows once. */
  ghost predicate InOrder(p: Pipeline) {
    && (forall i, j :: 0 <= i < j < |p.accepted| ==> p.accepted[i] != p.accepted[j])
    && (forall id :: id in p.accepted <==> id in p.outbox)
  }

  /** A row on record as published has its click on the stream. */
  ghost predicate OnStream(p: Pipeline) {
    forall id :: id in p.outbox && p.outbox[id].publishedAt.Some? ==> p.outbox[id].click in p.stream
  }

  lemma NextInOrder(p: Pipeline, step: Step)
    requires OutboxOk(p.outbox) && InOrder(p)
    ensures InOrder(Next(p, step))
  {
    hide Tally, Bump;
    if step.Accepting? && InsertOutbox(p, step.click).Success? {
      var p' := InsertOutbox(p, step.click).value;
      assert IdOf(step.click) !in p.accepted;
      assert p'.accepted == p.accepted + [IdOf(step.click)];
    }
  }

  lemma NextOnStream(p: Pipeline, step: Step)
    requires OnStream(p)
    ensures OnStream(Next(p, step))
  {
    hide Tally, Bump;
  }

  /** Over any run the outbox is in order, and an event is on record as published only if it reached the stream. */
  lemma {:induction false} PublishedReachStream(steps: seq<Step>)
    ensures InOrder(Run(EMPTY, steps)) && OnStream(Run(EMPTY, steps))
  {
    hide Next, OnStream, InOrder, OutboxOk;
    if steps == [] {
      assert InOrder(EMPTY) && OnStream(EMPTY) by { NothingPublished(); }
    } else {
      var before := steps[..|steps| - 1];
      PublishedReachStream(before);
      DeliveredExactlyOnce(before);
      assert OutboxOk(Run(EMPTY, before).outbox);
      NextInOrder(Run(EMPTY, before), steps[|steps| - 1]);
      NextOnStream(Run(EMPTY, before), steps[|steps| - 1]);
    }
  }

  lemma NothingPublished()
    ensures InOrder(EMPTY) && OnStream(EMPTY)
  {
  }

  /** Recovery keeps to that, whatever fails. */
  lemma {:induction false} RecoveryReachesStream(p: Pipeline, ids: seq<EventId>, outcomes: seq<PublishOutcome>)
    requires OnStream(p) && InOrder(p) && |outcomes| >= |ids| && forall id :: id in ids ==> id in p.outbox
    ensures OnStream(Recover(p, ids, outcomes)) && InOrder(Recover(p, ids, outcomes))
  {
    hide RecoverOne, OnStream, InOrder, Recover;
    if ids == [] {
      NothingRecovered(p, outcomes);
    } else {
      var n := |ids| - 1;
      RecoverLast(p, ids, outcomes);
      RecoveryReachesStream(p, ids[..n], outcomes[..n]);
      RecoveredReachStream(p, ids[..n], outcomes[..n]);
      RecoveryStep(Recover(p, ids[..n], outcomes[..n]), ids[n], outcomes[n]);
    }
  }

  lemma RecoveryStep(p: Pipeline, id: EventId, outcome: PublishOutcome)
    requires OnStream(p) && InOrder(p) && id in p.outbox
    ensures OnStream(RecoverOne(p, id, outcome)) && InOrder(RecoverOne(p, id, outcome))
  {
    hide RecoverOne;
    RecoverOneRow(p, id, outcome);
  }

  // ---------------------------------------------------------------- the pending events

  predicate Waiting(p: Pipeline, id: EventId) { id in p.outbox && p.outbox[id].publishedAt.None? }

  /** ids lists the waiting events among the first n accepted ones in order, each once. */
  ghost predicate ListsWaiting(p: Pipeline, ids: seq<EventId>, n: nat)
    requires n <= |p.accepted|
  {
    && (forall id :: id in ids <==> id in p.accepted[..n] && Waiting(p, id))
    && (forall a, b :: 0 <= a < b < |ids| ==> Earlier(p, ids[a], ids[b]))
  }

  ghost predicate Earlier(p: Pipeline, a: EventId, b: EventId) {
    exists j, k :: 0 <= j < k < |p.accepted| && p.accepted[j] == a && p.accepted[k] == b
  }

  lemma {:induction false} UnpublishedLists(p: Pipeline, n: nat)
    requires InOrder(p) && n <= |p.accepted|
    ensures ListsWaiting(p, Unpublished(p, p.accepted[..n]), n)
  {
    hide InOrder, Earlier;
    if n > 0 {
      UnpublishedLists(p, n - 1);
      var (all, before, id) := (p.accepted[..n], p.accepted[..n - 1], p.accepted[n - 1]);
      assert all[..n - 1] == before && all == before + [id];
      var rest := Unpublished(p, before);
      forall a | 0 <= a < |rest|
        ensures Earlier(p, rest[a], id)
      {
        assert rest[a] in before;
        var j :| 0 <= j < n - 1 && before[j] == rest[a];
        ComesFirst(p, j, n - 1);
      }
    }
  }

  lemma ComesFirst(p: Pipeline, j: nat, k: nat)
    requires j < k < |p.accepted|
    ensures Earlier(p, p.accepted[j], p.accepted[k])
  {
  }

  lemma EarlierOnce(p: Pipeline, a: EventId, b: EventId)
    requires InOrder(p)
    ensures !(Earlier(p, a, b) && Earlier(p, b, a))
  {
  }

  /**
   * The pending events are exactly the oldest unpublished ones, up to the limit: all of them waiting, in the
   * order of their creation, none twice, and a waiting one is left out only where the limit is reached and
   * every listed one is older.
   */
  lemma PendingExactly(p: Pipeline, limit: nat)
    requires InOrder(p)
    ensures var ids := PendingOutbox(p, limit);
            && |ids| <= limit && (forall id :: id in ids ==> Waiting(p, id))
            && (forall a, b :: 0 <= a < b < |ids| ==> Earlier(p, ids[a], ids[b]) && ids[a] != ids[b])
            && forall id :: Waiting(p, id) && id !in ids ==>
                 |ids| == limit && forall a :: 0 <= a < |ids| ==> Earlier(p, ids[a], id)
  {
    hide Earlier, Unpublished;
    var n := |p.accepted|;
    UnpublishedLists(p, n);
    assert p.accepted[..n] == p.accepted;
    var (all, ids) := (Unpublished(p, p.accepted), PendingOutbox(p, limit));
    forall a, b | 0 <= a < b < |ids|
      ensures ids[a] != ids[b]
    {
      EarlierOnce(p, ids[a], ids[b]);
    }
    forall id | Waiting(p, id) && id !in ids
      ensures |ids| == limit && forall a :: 0 <= a < |ids| ==> Earlier(p, ids[a], id)
    {
      assert id in all;
      var k :| 0 <= k < |all| && all[k] == id;
    }
  }

  /**
   * Where every publication and mark went through, a recovery leaves pending exactly what did not fit its
   * limit, and every event it took off is on the stream.
   */
  lemma RecoveryDrains(p: Pipeline, limit: nat, outcomes: seq<PublishOutcome>)
    requires InOrder(p) && OnStream(p)
    requires |outcomes| == |PendingOutbox(p, limit)| && forall o :: o in outcomes ==> Done(o)
    ensures var (ids, r) := (PendingOutbox(p, limit), Recover(p, PendingOutbox(p, limit), outcomes));
            && (forall id :: Waiting(r, id) <==> Waiting(p, id) && id !in ids)
            && (forall id :: id in ids ==> id in r.outbox && r.outbox[id].click in r.stream)
  {
    hide PendingOutbox, Recover, Earlier, InOrder;
    PendingExactly(p, limit);
    var ids := PendingOutbox(p, limit);
    RecoveredReachStream(p, ids, outcomes);
    RecoveredRows(p, ids, outcomes);
    RecoveryReachesStream(p, ids, outcomes);
    forall id | id in ids
      ensures id in Recover(p, ids, outcomes).outbox && Recover(p, ids, outcomes).outbox[id].publishedAt.Some?
    {
      var i :| 0 <= i < |ids| && ids[i] == id;
      assert Done(outcomes[i]);
    }
  }

  // ---------------------------------------------------------------- the aggregate row by row

  /** The click belongs to the row: same workspace, link and dimensions, and its instant in the row's hour. */
  predicate InRow(c: Click, g: Group) {
    && c.workspace == g.workspace && c.link == g.link && c.dims == g.dims
    && g.hour * 3_600_000_000 <= c.occurredAt.at && c.occurredAt.at < (g.hour + 1) * 3_600_000_000
  }

  lemma RowMembers(clicks: set<Click>, g: Group)
    ensures Members(clicks, GroupOf, g) == set c | c in clicks && InRow(c, g)
    ensures g !in Groups(clicks, GroupOf) ==> Members(clicks, GroupOf, g) == {}
  {
  }

  /** In every reachable state each row of the aggregate counts the delivered clicks that belong to it. */
  lemma AggregateMeaning(steps: seq<Step>, g: Group)
    ensures var p := Run(EMPTY, steps);
            (if g in p.aggregates then p.aggregates[g] else 0) == |set c | c in Delivered(EMPTY, steps) && InRow(c, g)|
  {
    hide Run, Delivered;
    DeliveredExactlyOnce(steps);
    RowMembers(Delivered(EMPTY, steps), g);
  }
}
