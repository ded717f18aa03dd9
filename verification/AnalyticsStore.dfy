/** The click pipeline statement by statement (internal/analytics/store.go, reconcile.go). */
module AnalyticsStore {
  import opened Foundations
  import opened Tallies
  import opened Analytics

  datatype PublishOutcome = PublishError | Published(streamId: nat, at: Micros, marked: bool)

  /** What recovering one pending event does: publish, then mark if the mark reaches the database. */
  ghost function RecoverOne(p: Pipeline, id: EventId, outcome: PublishOutcome): (r: Pipeline)
    ensures r.outbox.Keys == p.outbox.Keys
    ensures r == p.(outbox := r.outbox, stream := r.stream)
  {
    match outcome
    case PublishError => Next(p, Failing(id))
    case Published(streamId, at, marked) =>
      if marked then Next(Next(p, Publishing(id)), Marking(id, streamId, at)) else Next(p, Publishing(id))
  }

  ghost function Recover(p: Pipeline, ids: seq<EventId>, outcomes: seq<PublishOutcome>): Pipeline
    requires |outcomes| >= |ids|
  {
    if ids == [] then p
    else
      var n := |ids| - 1;
      RecoverOne(Recover(p, ids[..n], outcomes[..n]), ids[n], outcomes[n])
  }

  datatype Recovery = Recovery(pending: nat, published: nat, failed: nat)

  lemma {:induction false} UnpublishedInOutbox(p: Pipeline, ids: seq<EventId>)
    ensures forall id :: id in Unpublished(p, ids) ==> id in ids && id in p.outbox && p.outbox[id].publishedAt.None?
  {
    if ids != [] { UnpublishedInOutbox(p, ids[..|ids| - 1]); }
  }

  /** The clicks of the events the stream took, in order. */
  function Taken(p: Pipeline, ids: seq<EventId>, outcomes: seq<PublishOutcome>): seq<Click>
    requires |outcomes| >= |ids| && forall id :: id in ids ==> id in p.outbox
  {
    if ids == [] then []
    else
      var n := |ids| - 1;
      Taken(p, ids[..n], outcomes[..n]) + if outcomes[n].Published? then [p.outbox[ids[n]].click] else []
  }

  /** The stream took the event and the database took the mark. */
  predicate Done(outcome: PublishOutcome) {
    outcome.Published? && outcome.marked && outcome.streamId != 0 && outcome.at != 0
  }

  function CountDone(outcomes: seq<PublishOutcome>): nat {
    if outcomes == [] then 0
    else CountDone(outcomes[..|outcomes| - 1]) + if Done(outcomes[|outcomes| - 1]) then 1 else 0
  }

  /** What one outcome makes of a row. */
  ghost predicate RowFollows(before: OutboxRow, after: OutboxRow, outcome: PublishOutcome) {
    && after.click == before.click
    && after.attempts == before.attempts + (if outcome.PublishError? || Done(outcome) then 1 else 0)
    && (after.failed <==> outcome.PublishError? || (before.failed && !Done(outcome)))
    && (before.publishedAt.Some? ==> after.publishedAt == before.publishedAt)
    && (before.streamId.Some? ==> after.streamId == before.streamId)
    && (before.publishedAt.None? ==> after.publishedAt == if Done(outcome) then Some(outcome.at) else None)
    && (before.streamId.None? ==> after.streamId == if Done(outcome) then Some(outcome.streamId) else None)
  }

  lemma RecoverOneRow(p: Pipeline, id: EventId, outcome: PublishOutcome)
    requires id in p.outbox
    ensures var r := RecoverOne(p, id, outcome);
            && r.stream == p.stream + (if outcome.Published? then [p.outbox[id].click] else [])
            && RowFollows(p.outbox[id], r.outbox[id], outcome)
            && forall o :: o in p.outbox && o != id ==> r.outbox[o] == p.outbox[o]
  {
  }

  /** Recovery puts on the stream exactly the clicks of the events it published, in order, and never changes a click. */
  lemma {:induction false} RecoveredReachStream(p: Pipeline, ids: seq<EventId>, outcomes: seq<PublishOutcome>)
    requires |outcomes| >= |ids| && forall id :: id in ids ==> id in p.outbox
    ensures var r := Recover(p, ids, outcomes);
            && r.stream == p.stream + Taken(p, ids, outcomes) && r.outbox.Keys == p.outbox.Keys
            && (forall id :: id in p.outbox ==> r.outbox[id].click == p.outbox[id].click)
            && (forall id :: id in p.outbox && id !in ids ==> r.outbox[id] == p.outbox[id])
  {
    hide RecoverOne, RowFollows, Taken, Recover;
    if ids != [] {
      var n := |ids| - 1;
      RecoverLast(p, ids, outcomes);
      RecoveredReachStream(p, ids[..n], outcomes[..n]);
      var q := Recover(p, ids[..n], outcomes[..n]);
      RecoverOneRow(q, ids[n], outcomes[n]);
      LastTaken(p, ids, outcomes);
      assert ids == ids[..n] + [ids[n]];
    } else {
      NothingRecovered(p, outcomes);
    }
  }

  lemma NothingRecovered(p: Pipeline, outcomes: seq<PublishOutcome>)
    ensures Taken(p, [], outcomes) == [] && Recover(p, [], outcomes) == p
  {
  }

  lemma RecoverLast(p: Pipeline, ids: seq<EventId>, outcomes: seq<PublishOutcome>)
    requires |outcomes| >= |ids| > 0
    ensures var n := |ids| - 1;
            Recover(p, ids, outcomes) == RecoverOne(Recover(p, ids[..n], outcomes[..n]), ids[n], outcomes[n])
  {
  }

  lemma LastTaken(p: Pipeline, ids: seq<EventId>, outcomes: seq<PublishOutcome>)
    requires |outcomes| >= |ids| > 0 && forall id :: id in ids ==> id in p.outbox
    ensures var n := |ids| - 1;
            Taken(p, ids, outcomes)
            == Taken(p, ids[..n], outcomes[..n]) + if outcomes[n].Published? then [p.outbox[ids[n]].click] else []
  {
  }

  /** So every event that was published is on the stream. */
  lemma {:induction false} PublishedAreTaken(p: Pipeline, ids: seq<EventId>, outcomes: seq<PublishOutcome>, i: nat)
    requires |outcomes| >= |ids| && forall id :: id in ids ==> id in p.outbox
    requires i < |ids| && outcomes[i].Published?
    ensures p.outbox[ids[i]].click in Taken(p, ids, outcomes)
  {
    if i < |ids| - 1 { PublishedAreTaken(p, ids[..|ids| - 1], outcomes[..|ids| - 1], i); }
  }

  /** Where no event is listed twice, as in a list of pending ones, each row follows its own outcome. */
  lemma {:induction false} RecoveredRows(p: Pipeline, ids: seq<EventId>, outcomes: seq<PublishOutcome>)
    requires |outcomes| >= |ids| && forall id :: id in ids ==> id in p.outbox
    requires forall i, j :: 0 <= i < j < |ids| ==> ids[i] != ids[j]
    ensures var r := Recover(p, ids, outcomes);
            forall i :: 0 <= i < |ids| ==>
              ids[i] in r.outbox && RowFollows(p.outbox[ids[i]], r.outbox[ids[i]], outcomes[i])
  {
    hide RecoverOne, RowFollows, Taken, Recover;
    if ids != [] {
      var n := |ids| - 1;
      RecoverLast(p, ids, outcomes);
      RecoveredRows(p, ids[..n], outcomes[..n]);
      RecoveredReachStream(p, ids[..n], outcomes[..n]);
      var q := Recover(p, ids[..n], outcomes[..n]);
      assert ids[n] !in ids[..n] && q.outbox[ids[n]] == p.outbox[ids[n]];
      RecoverOneRow(q, ids[n], outcomes[n]);
      forall i | 0 <= i < n
        ensures ids[i] in q.outbox && RowFollows(p.outbox[ids[i]], q.outbox[ids[i]], outcomes[i]) && ids[i] != ids[n]
      {
        assert ids[..n][i] == ids[i] && outcomes[..n][i] == outcomes[i];
      }
    }
  }

  class Store {
    var accepted: seq<EventId>
    var outbox: map<EventId, OutboxRow>
    var stream: seq<Click>
    var events: set<Click>
    var aggregates: map<Group, nat>
    var runs: set<nat>

    constructor ()
      ensures State() == EMPTY
    {
      accepted, outbox, stream, events, aggregates, runs := [], map[], [], {}, map[], {};
    }

    function State(): Pipeline
      reads this
    {
      Pipeline(accepted, outbox, stream, events, aggregates, runs)
    }

    method InsertOutboxTx(c: Click) returns (r: Result<()>)
      modifies this`accepted, this`outbox
      ensures var spec := InsertOutbox(old(State()), c);
              && r == (if spec.Success? then Success(()) else Failure(spec.error))
              && State() == if spec.Success? then spec.value else old(State())
    {
      if !c.Valid() { return Failure(InvalidInput); }
      if exists id :: id in outbox && Clash(outbox[id].click, c) { return Failure(Conflict); }
      accepted := accepted + [IdOf(c)];
      outbox := outbox[IdOf(c) := OutboxRow(c, None, None, 0, false)];
      return Success(());
    }

    method MarkOutboxPublished(id: EventId, streamId: nat, at: Micros) returns (r: Result<()>)
      modifies this`outbox
      ensures var spec := MarkPublished(old(State()), id, streamId, at);
              && r == (if spec.Success? then Success(()) else Failure(spec.error))
              && State() == if spec.Success? then spec.value else old(State())
    {
      if streamId == 0 || at == 0 { return Failure(InvalidInput); }
      if id in outbox {
        var row := outbox[id];
        outbox := outbox[id := row.(publishedAt := Coalesce(row.publishedAt, at), streamId := Coalesce(row.streamId, streamId),
                                    attempts := row.attempts + 1, failed := false)];
      }
      return Success(());
    }

    /** INSERT IGNORE into the log; only a row that was inserted is counted. */
    method PersistConsumedEvent(c: Click, streamId: nat, at: Micros) returns (r: Result<bool>)
      modifies this`events, this`aggregates
      ensures var spec := Persist(old(State()), c, streamId, at);
              && r == (if spec.Success? then Success(spec.value.1) else Failure(spec.error))
              && State() == if spec.Success? then spec.value.0 else old(State())
    {
      if !c.Valid() || streamId == 0 || at == 0 { return Failure(InvalidInput); }
      var inserted := 0;
      if !exists e :: e in events && Clash(e, c) {
        events := events + {c.Logged()};
        inserted := 1;
      }
      if inserted == 0 { return Success(false); }
      var bucket := GroupOf(c);
      if bucket in aggregates { aggregates := aggregates[bucket := aggregates[bucket] + 1]; }
      else { aggregates := aggregates[bucket := 1]; }
      return Success(true);
    }

    /** COALESCE(SUM(clicks), 0). */
    method SumClicks() returns (total: nat)
      ensures total == SumValues(aggregates)
    {
      total := 0;
      var rest := aggregates;
      while rest != map[]
        invariant total + SumValues(rest) == SumValues(aggregates)
        decreases |rest|
      {
        var g :| g in rest;
        SumRemove(rest, g);
        total := total + rest[g];
        rest := rest - {g};
      }
    }

    method ReconcileAggregates(runId: nat, repair: bool) returns (r: Result<Reconciliation>)
      modifies this`aggregates, this`runs
      ensures var spec := Reconcile(old(State()), runId, repair);
              && r == (if spec.Success? then Success(spec.value.1) else Failure(spec.error))
              && State() == if spec.Success? then spec.value.0 else old(State())
    {
      if runId == 0 { return Failure(InvalidInput); }
      if runId in runs { return Failure(Conflict); }
      var sourceTotal := |events|;
      var before := SumClicks();
      var mismatch := sourceTotal != before;
      var repaired := false;
      if repair && mismatch {
        aggregates := map[];
        aggregates := Tally(events, GroupOf);
        repaired := true;
      }
      var after := SumClicks();
      runs := runs + {runId};
      return Success(Reconciliation(sourceTotal, before, after, mismatch, repaired));
    }

    method AuthoritativeTotals() returns (outboxAccepted: nat, consumed: nat, clicks: nat)
      ensures outboxAccepted == |outbox| && consumed == |events| && clicks == SumValues(aggregates)
    {
      outboxAccepted, consumed := |outbox|, |events|;
      clicks := SumClicks();
    }

    method RecoverEvent(id: EventId, outcome: PublishOutcome) returns (ok: bool)
      requires id in outbox
      modifies this`outbox, this`stream
      ensures State() == RecoverOne(old(State()), id, outcome)
      ensures ok <==> Done(outcome)
    {
      match outcome {
        case PublishError =>
          outbox := outbox[id := outbox[id].(attempts := outbox[id].attempts + 1, failed := true)];
          ok := false;
        case Published(streamId, at, marked) =>
          stream := stream + [outbox[id].click];
          ok := marked;
          if marked {
            var mark := MarkOutboxPublished(id, streamId, at);
            ok := mark.Success?;
          }
      }
    }

    /** Publishes the events one by one; outcomes are what the stream and the database answered. */
    method RecoverEvents(ids: seq<EventId>, outcomes: seq<PublishOutcome>) returns (result: Recovery)
      requires |outcomes| == |ids| && forall i :: 0 <= i < |ids| ==> ids[i] in outbox
      modifies this`outbox, this`stream
      ensures State() == Recover(old(State()), ids, outcomes)
      ensures result.pending == |ids| == result.published + result.failed && result.published == CountDone(outcomes)
    {
      hide RecoverOne;
      result := Recovery(|ids|, 0, 0);
      for i := 0 to |ids|
        invariant State() == Recover(old(State()), ids[..i], outcomes[..i])
        invariant outbox.Keys == old(outbox).Keys
        invariant result.pending == |ids| && result.published + result.failed == i
        invariant result.published == CountDone(outcomes[..i])
      {
        assert ids[..i + 1][..i] == ids[..i] && outcomes[..i + 1][..i] == outcomes[..i];
        var ok := RecoverEvent(ids[i], outcomes[i]);
        result := if ok then result.(published := result.published + 1) else result.(failed := result.failed + 1);
      }
      assert ids[..|ids|] == ids && outcomes[..|ids|] == outcomes;
    }

    method RecoverUnpublishedOutbox(limit: nat, outcomes: seq<PublishOutcome>) returns (r: Result<Recovery>)
      requires |outcomes| >= limit
      modifies this`outbox, this`stream
      ensures limit == 0 || limit > 1000 ==> r == Failure(InvalidInput) && State() == old(State())
      ensures 0 < limit <= 1000 ==>
        var ids := PendingOutbox(old(State()), limit);
        && |ids| <= limit && (forall id :: id in ids ==> id in old(outbox))
        && State() == Recover(old(State()), ids, outcomes[..|ids|])
        && r.Success? && r.value.pending == |ids| && r.value.published == CountDone(outcomes[..|ids|])
        && r.value.published + r.value.failed == |ids|
        && stream == old(stream) + Taken(old(State()), ids, outcomes[..|ids|])
    {
      if limit == 0 || limit > 1000 { return Failure(InvalidInput); }
      hide Recover;
      var ids := PendingOutbox(State(), limit);
      UnpublishedInOutbox(State(), accepted);
      assert forall id :: id in ids ==> id in Unpublished(State(), accepted);
      RecoveredReachStream(State(), ids, outcomes[..|ids|]);
      var result := RecoverEvents(ids, outcomes[..|ids|]);
      return Success(result);
    }
  }

  /** Recovery takes steps of the pipeline: every guarantee about runs holds across it, and it counts nothing. */
  lemma {:induction false} RecoveryKeepsInv(p: Pipeline, clicks: set<Click>, ids: seq<EventId>,
      outcomes: seq<PublishOutcome>)
    requires Inv(p, clicks) && |outcomes| >= |ids|
    ensures Inv(Recover(p, ids, outcomes), clicks) && Recover(p, ids, outcomes).events == p.events
  {
    if ids != [] {
      hide Inv, Next;
      assert clicks + {} == clicks;
      var n := |ids| - 1;
      RecoveryKeepsInv(p, clicks, ids[..n], outcomes[..n]);
      var q := Recover(p, ids[..n], outcomes[..n]);
      match outcomes[n]
      case PublishError => NextKeepsInv(q, clicks, Failing(ids[n]));
      case Published(streamId, at, _) =>
        NextKeepsInv(q, clicks, Publishing(ids[n]));
        NextKeepsInv(Next(q, Publishing(ids[n])), clicks, Marking(ids[n], streamId, at));
    }
  }
}
