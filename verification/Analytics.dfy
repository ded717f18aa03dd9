/** The click pipeline: outbox, at-least-once stream, event log and hourly aggregate (internal/analytics). */
module Analytics {
  import opened Foundations
  import opened Tallies

  const HOUR: nat := 3_600_000_000

  datatype Dims = Dims(country: nat, device: nat, language: nat, source: nat, campaign: nat)

  datatype Click = Click(workspace: nat, link: nat, sequence: nat, occurredAt: Instant, dims: Dims) {
    /** ValidateEvent; the id is not stored, because it is derived from the other fields. */
    predicate Valid() { workspace != 0 && link != 0 && sequence != 0 && !occurredAt.Zero() }

    /** The row of analytics_events. */
    function Logged(): Click { this.(occurredAt := ReadBack(occurredAt.Stored())) }

    /** The click fell into the last half microsecond of an hour. */
    predicate Drifts() { occurredAt.nanos >= 500 && (occurredAt.at + 1) % HOUR == 0 }
  }

  /** event_id hashes these three fields; equal ids have equal fields. */
  datatype EventId = ClickId(workspace: nat, link: nat, sequence: nat)

  function IdOf(c: Click): EventId { ClickId(c.workspace, c.link, c.sequence) }

  /** A row of analytics_hourly_aggregates. */
  datatype Group = Group(workspace: nat, link: nat, hour: nat, dims: Dims)

  function GroupOf(c: Click): Group { Group(c.workspace, c.link, c.occurredAt.at / HOUR, c.dims) }

  function LoggedAll(clicks: set<Click>): set<Click> { set c | c in clicks :: c.Logged() }

  datatype OutboxRow = OutboxRow(click: Click, publishedAt: Option<Micros>, streamId: Option<nat>, attempts: nat,
    failed: bool)

  datatype Pipeline = Pipeline(
    accepted: seq<EventId>,                        // outbox ids in the order they were created
    outbox: map<EventId, OutboxRow>,
    stream: seq<Click>,
    events: set<Click>,
    aggregates: map<Group, nat>,
    runs: set<nat>)

  /** One of the two unique keys of the outbox and of the event log is taken. */
  predicate Clash(a: Click, b: Click) { IdOf(a) == IdOf(b) || (a.link == b.link && a.sequence == b.sequence) }

  /** InsertOutboxTx. */
  function InsertOutbox(p: Pipeline, c: Click): Result<Pipeline> {
    if !c.Valid() then Failure(InvalidInput)
    else if exists id :: id in p.outbox && Clash(p.outbox[id].click, c) then Failure(Conflict)
    else Success(p.(accepted := p.accepted + [IdOf(c)], outbox := p.outbox[IdOf(c) := OutboxRow(c, None, None, 0, false)]))
  }

  /** MarkOutboxPublished: the first publication is the one on record. */
  function MarkPublished(p: Pipeline, id: EventId, streamId: nat, at: Micros): Result<Pipeline> {
    if streamId == 0 || at == 0 then Failure(InvalidInput)
    else if id !in p.outbox then Success(p)
    else
      var row := p.outbox[id];
      Success(p.(outbox := p.outbox[id := row.(publishedAt := Coalesce(row.publishedAt, at),
                                               streamId := Coalesce(row.streamId, streamId),
                                               attempts := row.attempts + 1, failed := false)]))
  }

  /** RecordOutboxPublishFailure. */
  function MarkFailure(p: Pipeline, id: EventId): Pipeline {
    if id !in p.outbox then p
    else p.(outbox := p.outbox[id := p.outbox[id].(attempts := p.outbox[id].attempts + 1, failed := true)])
  }

  /**
   * PersistConsumedEvent: the log ignores a known event, and only a new one is counted, under the hour of the
   * instant the event carries.
   */
  function Persist(p: Pipeline, c: Click, streamId: nat, at: Micros): Result<(Pipeline, bool)> {
    if !c.Valid() || streamId == 0 || at == 0 then Failure(InvalidInput)
    else if exists e :: e in p.events && Clash(e, c) then Success((p, false))
    else Success((p.(events := p.events + {c.Logged()}, aggregates := Bump(p.aggregates, GroupOf(c))), true))
  }

  function Unpublished(p: Pipeline, ids: seq<EventId>): seq<EventId> {
    if ids == [] then []
    else
      var rest := Unpublished(p, ids[..|ids| - 1]);
      var id := ids[|ids| - 1];
      if id in p.outbox && p.outbox[id].publishedAt.None? then rest + [id] else rest
  }

  /** The ids of PendingOutbox. */
  function PendingOutbox(p: Pipeline, limit: nat): seq<EventId> {
    var pending := Unpublished(p, p.accepted);
    pending[..if limit < |pending| then limit else |pending|]
  }

  datatype Reconciliation = Reconciliation(sourceTotal: nat, before: nat, after: nat, mismatch: bool, repaired: bool)

  /** ReconcileAggregates compares totals only, and rebuilds the table when they differ. */
  ghost function Reconcile(p: Pipeline, runId: nat, repair: bool): Result<(Pipeline, Reconciliation)> {
    var before := SumValues(p.aggregates);
    var mismatch := |p.events| != before;
    var rebuilt := if repair && mismatch then Tally(p.events, GroupOf) else p.aggregates;
    if runId == 0 then Failure(InvalidInput)
    else if runId in p.runs then Failure(Conflict)
    else
      Success((p.(aggregates := rebuilt, runs := p.runs + {runId}),
               Reconciliation(|p.events|, before, SumValues(rebuilt), mismatch, repair && mismatch)))
  }

  // ---------------------------------------------------------------- runs

  datatype Step =
    | Accepting(click: Click)
    | Publishing(id: EventId)                                  // XADD; the process may die before marking
    | Marking(id: EventId, streamId: nat, at: Micros)          // streamId is what an XADD of the click returned
    | Failing(id: EventId)
    | Delivering(index: nat, streamId: nat, at: Micros)        // any entry, any number of times
    | Reconciling(runId: nat, repair: bool)

  ghost function Next(p: Pipeline, step: Step): Pipeline {
    match step
    case Accepting(c) => var r := InsertOutbox(p, c); if r.Success? then r.value else p
    case Publishing(id) => if id in p.outbox then p.(stream := p.stream + [p.outbox[id].click]) else p
    case Marking(id, streamId, at) =>
      if id in p.outbox && p.outbox[id].click !in p.stream then p
      else var r := MarkPublished(p, id, streamId, at); if r.Success? then r.value else p
    case Failing(id) => MarkFailure(p, id)
    case Delivering(i, streamId, at) =>
      if i >= |p.stream| then p
      else var r := Persist(p, p.stream[i], streamId, at); if r.Success? then r.value.0 else p
    case Reconciling(runId, repair) => var r := Reconcile(p, runId, repair); if r.Success? then r.value.0 else p
  }

  ghost function Run(p: Pipeline, steps: seq<Step>): Pipeline {
    if steps == [] then p else Next(Run(p, steps[..|steps| - 1]), steps[|steps| - 1])
  }

  const EMPTY := Pipeline([], map[], [], {}, map[], {})

  /** The click a step delivers, if any. */
  function DeliveredBy(p: Pipeline, step: Step): set<Click> {
    if step.Delivering? && step.index < |p.stream| && step.streamId != 0 && step.at != 0 then {p.stream[step.index]} else {}
  }

  /** The clicks a run has delivered at least once. */
  ghost function Delivered(p: Pipeline, steps: seq<Step>): set<Click> {
    if steps == [] then {}
    else Delivered(p, steps[..|steps| - 1]) + DeliveredBy(Run(p, steps[..|steps| - 1]), steps[|steps| - 1])
  }

  ghost predicate OutboxOk(outbox: map<EventId, OutboxRow>) {
    && (forall id :: id in outbox ==> IdOf(outbox[id].click) == id && outbox[id].click.Valid())
    && (forall a, b :: a in outbox && b in outbox && Clash(outbox[a].click, outbox[b].click) ==> a == b)
  }

  /** clicks are those delivered so far: the log holds each once, and the aggregate counts each once. */
  ghost predicate Inv(p: Pipeline, clicks: set<Click>) {
    && OutboxOk(p.outbox)
    && (forall i :: 0 <= i < |p.stream| ==>
      IdOf(p.stream[i]) in p.outbox && p.outbox[IdOf(p.stream[i])].click == p.stream[i])
    && (forall c :: c in clicks ==> IdOf(c) in p.outbox && p.outbox[IdOf(c)].click == c)
    && p.events == LoggedAll(clicks)
    && p.aggregates == Tally(clicks, GroupOf)
  }

  lemma LoggedOnce(p: Pipeline, clicks: set<Click>, c: Click)
    requires Inv(p, clicks) && IdOf(c) in p.outbox && p.outbox[IdOf(c)].click == c
    ensures c in clicks <==> exists e :: e in p.events && Clash(e, c)
  {
    hide Tally;
    if c in clicks { assert c.Logged() in p.events && Clash(c.Logged(), c); }
    if e :| e in p.events && Clash(e, c) {
      var known :| known in clicks && known.Logged() == e;
      assert Clash(p.outbox[IdOf(known)].click, p.outbox[IdOf(c)].click);
    }
  }

  /** A delivery of a valid entry counts the click unless it is known. */
  lemma DeliveryCounts(p: Pipeline, clicks: set<Click>, i: nat, streamId: nat, at: Micros)
    requires Inv(p, clicks) && i < |p.stream| && streamId != 0 && at != 0
    ensures var c := p.stream[i];
            Next(p, Delivering(i, streamId, at))
            == if c in clicks then p
               else p.(events := p.events + {c.Logged()}, aggregates := Bump(p.aggregates, GroupOf(c)))
  {
    hide Tally, Bump, Clash;
    LoggedOnce(p, clicks, p.stream[i]);
  }

  lemma DeliveryKeepsInv(p: Pipeline, clicks: set<Click>, i: nat, streamId: nat, at: Micros)
    requires Inv(p, clicks)
    ensures var step := Delivering(i, streamId, at);
            Inv(Next(p, step), clicks + DeliveredBy(p, step))
  {
    hide Next, OutboxOk, Tally, Bump, GroupOf;
    if i < |p.stream| && streamId != 0 && at != 0 {
      var c := p.stream[i];
      DeliveryCounts(p, clicks, i, streamId, at);
      assert LoggedAll(clicks + {c}) == LoggedAll(clicks) + {c.Logged()};
      if c in clicks { assert clicks + {c} == clicks; } else { TallyOneMore(clicks, c, GroupOf); }
    } else {
      assert clicks + {} == clicks && Next(p, Delivering(i, streamId, at)) == p by { DeliveryRefused(p, i, streamId, at); }
    }
  }

  lemma DeliveryRefused(p: Pipeline, i: nat, streamId: nat, at: Micros)
    requires i >= |p.stream| || streamId == 0 || at == 0
    ensures Next(p, Delivering(i, streamId, at)) == p
  {
  }

  lemma AcceptKeepsInv(p: Pipeline, clicks: set<Click>, c: Click)
    requires Inv(p, clicks)
    ensures Inv(Next(p, Accepting(c)), clicks)
  {
    hide Tally;
  }

  lemma MarkKeepsInv(p: Pipeline, clicks: set<Click>, step: Step)
    requires Inv(p, clicks) && (step.Marking? || step.Failing? || step.Publishing?)
    ensures Inv(Next(p, step), clicks)
  {
    hide Tally, Clash;
  }

  lemma {:induction false} LoggedCard(clicks: set<Click>)
    requires forall a, b :: a in clicks && b in clicks && IdOf(a) == IdOf(b) ==> a == b
    ensures |LoggedAll(clicks)| == |clicks|
    decreases |clicks|
  {
    if clicks != {} {
      var c :| c in clicks;
      LoggedCard(clicks - {c});
      assert c.Logged() !in LoggedAll(clicks - {c}) by {
        assert forall a :: a in clicks - {c} ==> IdOf(a.Logged()) == IdOf(a) != IdOf(c) == IdOf(c.Logged());
      }
      assert LoggedAll(clicks) == LoggedAll(clicks - {c}) + {c.Logged()};
    }
  }

  /** The totals agree wherever the invariant holds. */
  lemma TotalsOf(p: Pipeline, clicks: set<Click>)
    requires Inv(p, clicks)
    ensures |p.events| == |clicks| == SumValues(p.aggregates)
  {
    LoggedCard(clicks);
    TallySum(clicks, GroupOf);
  }

  lemma ReconcileKeepsInv(p: Pipeline, clicks: set<Click>, runId: nat, repair: bool)
    requires Inv(p, clicks)
    ensures Inv(Next(p, Reconciling(runId, repair)), clicks)
  {
    TotalsOf(p, clicks);
    hide Tally, OutboxOk;
  }

  lemma NextKeepsInv(p: Pipeline, clicks: set<Click>, step: Step)
    requires Inv(p, clicks)
    ensures Inv(Next(p, step), clicks + DeliveredBy(p, step))
  {
    hide Next, Inv;
    assert clicks + {} == clicks;
    match step
    case Accepting(c) => AcceptKeepsInv(p, clicks, c);
    case Publishing(_) => MarkKeepsInv(p, clicks, step);
    case Marking(_, _, _) => MarkKeepsInv(p, clicks, step);
    case Failing(_) => MarkKeepsInv(p, clicks, step);
    case Delivering(i, streamId, at) => DeliveryKeepsInv(p, clicks, i, streamId, at);
    case Reconciling(runId, repair) => ReconcileKeepsInv(p, clicks, runId, repair);
  }

  /**
   * Exactly once: after any interleaving of accepting, publishing, dying before marking, redelivering and
   * reconciling, the log holds each delivered click once and nothing else, and the aggregate counts each once
   * under its hour. Which steps delivered a click, in what order and how often leaves no trace.
   */
  lemma {:induction false} DeliveredExactlyOnce(steps: seq<Step>)
    ensures Inv(Run(EMPTY, steps), Delivered(EMPTY, steps))
    ensures Run(EMPTY, steps).events == LoggedAll(Delivered(EMPTY, steps))
    ensures Run(EMPTY, steps).aggregates == Tally(Delivered(EMPTY, steps), GroupOf)
  {
    if steps == [] {
      EmptyTally(GroupOf);
    } else {
      var (before, step) := (steps[..|steps| - 1], steps[|steps| - 1]);
      DeliveredExactlyOnce(before);
      NextKeepsInv(Run(EMPTY, before), Delivered(EMPTY, before), step);
      hide Next, Tally;
    }
  }

  // ---------------------------------------------------------------- the hour of a click

  lemma HourOfRow(c: Click)
    ensures GroupOf(c.Logged()) == GroupOf(c).(hour := GroupOf(c).hour + if c.Drifts() then 1 else 0)
  {
  }

  lemma {:induction false} NoDrift(clicks: set<Click>)
    requires forall c :: c in clicks ==> !c.Drifts()
    requires forall a, b :: a in clicks && b in clicks && IdOf(a) == IdOf(b) ==> a == b
    ensures Tally(LoggedAll(clicks), GroupOf) == Tally(clicks, GroupOf)
    decreases |clicks|
  {
    if clicks == {} {
      assert LoggedAll(clicks) == {};
    } else {
      var c :| c in clicks;
      var (rest, row) := (clicks - {c}, c.Logged());
      NoDrift(rest);
      assert row !in LoggedAll(rest) by {
        assert forall a :: a in rest ==> IdOf(a.Logged()) == IdOf(a) != IdOf(c) == IdOf(row);
      }
      assert LoggedAll(clicks) == LoggedAll(rest) + {row} && clicks == rest + {c};
      TallyOneMore(LoggedAll(rest), row, GroupOf);
      TallyOneMore(rest, c, GroupOf);
      HourOfRow(c);
    }
  }

  /** The clicks counted up to an hour. */
  function Until(clicks: set<Click>, hour: nat): set<Click> { set c | c in clicks && GroupOf(c).hour <= hour }

  lemma UntilSum(clicks: set<Click>, hour: nat)
    ensures var keep := set g | g in Tally(clicks, GroupOf) && g.hour <= hour;
            SumValues(Restrict(Tally(clicks, GroupOf), keep)) == |Until(clicks, hour)|
  {
    var keep := set g | g in Tally(clicks, GroupOf) && g.hour <= hour;
    forall c: Click
      ensures c in Until(clicks, hour) <==> c in clicks && GroupOf(c) in keep
    {
      assert c in clicks ==> GroupOf(c) in Groups(clicks, GroupOf);
    }
    TallySelect(clicks, GroupOf, keep, Until(clicks, hour));
    TallySum(Until(clicks, hour), GroupOf);
  }

  /** A drifting click leaves fewer rows than clicks up to its hour. */
  lemma DriftShows(clicks: set<Click>, c: Click)
    requires c in clicks && c.Drifts()
    requires forall a, b :: a in clicks && b in clicks && IdOf(a) == IdOf(b) ==> a == b
    ensures Tally(LoggedAll(clicks), GroupOf) != Tally(clicks, GroupOf)
  {
    var hour := GroupOf(c).hour;
    UntilSum(clicks, hour);
    UntilSum(LoggedAll(clicks), hour);
    hide Tally, Restrict;
    var early := Until(clicks, hour) - {c};
    forall row | row in Until(LoggedAll(clicks), hour)
      ensures row in LoggedAll(early)
    {
      var a :| a in clicks && a.Logged() == row;
      HourOfRow(a);
    }
    LoggedCard(early);
    CardSubset(Until(LoggedAll(clicks), hour), LoggedAll(early));
  }

  /**
   * Incremental equals batch: in every reachable state the aggregate is the group-by of the log, which a
   * repair would rebuild, if and only if no delivered click fell into the last half microsecond of an hour.
   * The log keeps such a click under the next hour.
   */
  lemma IncrementalEqualsBatch(steps: seq<Step>)
    ensures var p := Run(EMPTY, steps);
            p.aggregates == Tally(p.events, GroupOf) <==> forall c :: c in Delivered(EMPTY, steps) ==> !c.Drifts()
  {
    DeliveredExactlyOnce(steps);
    hide Run, Delivered, Tally;
    var clicks := Delivered(EMPTY, steps);
    if c :| c in clicks && c.Drifts() { DriftShows(clicks, c); } else { NoDrift(clicks); }
  }

  lemma {:induction false} InjectionCard(clicks: set<Click>, ids: set<EventId>)
    requires forall c :: c in clicks ==> IdOf(c) in ids
    requires forall a, b :: a in clicks && b in clicks && IdOf(a) == IdOf(b) ==> a == b
    ensures |clicks| <= |ids|
    decreases |clicks|
  {
    if clicks != {} {
      var c :| c in clicks;
      InjectionCard(clicks - {c}, ids - {IdOf(c)});
    }
  }

  /** The three authoritative totals: consumed equals counted, and neither exceeds what was accepted. */
  lemma TotalsAgree(steps: seq<Step>)
    ensures var p := Run(EMPTY, steps);
            |p.events| == |Delivered(EMPTY, steps)| == SumValues(p.aggregates) <= |p.outbox|
  {
    DeliveredExactlyOnce(steps);
    var p := Run(EMPTY, steps);
    TotalsOf(p, Delivered(EMPTY, steps));
    hide Run, Delivered, Tally;
    InjectionCard(Delivered(EMPTY, steps), p.outbox.Keys);
  }

  /** Once every accepted event has reached the stream and every entry has been delivered, nothing is missing. */
  lemma DrainedIsComplete(steps: seq<Step>)
    requires var p := Run(EMPTY, steps);
             && (forall id :: id in p.outbox ==> p.outbox[id].click in p.stream)
             && (forall c :: c in p.stream ==> c in Delivered(EMPTY, steps))
    ensures var p := Run(EMPTY, steps);
            && (forall id :: id in p.outbox <==> exists c :: c in p.events && IdOf(c) == id)
            && |p.events| == |p.outbox| == SumValues(p.aggregates)
  {
    TotalsAgree(steps);
    DeliveredExactlyOnce(steps);
    var p := Run(EMPTY, steps);
    hide Run, Delivered, Tally;
    forall id | id in p.outbox
      ensures p.outbox[id].click.Logged() in p.events && IdOf(p.outbox[id].click.Logged()) == id
    {
    }
    SurjectionCard(p.events, p.outbox.Keys);
  }

  lemma {:induction false} SurjectionCard(events: set<Click>, ids: set<EventId>)
    requires forall id :: id in ids ==> exists c :: c in events && IdOf(c) == id
    ensures |ids| <= |events|
    decreases |ids|
  {
    if ids != {} {
      var id :| id in ids;
      var c :| c in events && IdOf(c) == id;
      forall other | other in ids - {id}
        ensures exists d :: d in events - {c} && IdOf(d) == other
      {
        var d :| d in events && IdOf(d) == other;
        assert d in events - {c};
      }
      SurjectionCard(events - {c}, ids - {id});
    }
  }

  // ---------------------------------------------------------------- repair and publication

  /**
   * Repair, whatever the table held: afterwards it is the group-by exactly when the totals differed or
   * it already was one. A wrong table with the right total is left as it is.
   */
  lemma RepairExact(p: Pipeline, runId: nat)
    requires Reconcile(p, runId, true).Success?
    ensures var (p', r) := Reconcile(p, runId, true).value;
            && (p'.aggregates == Tally(p.events, GroupOf) <==>
                  SumValues(p.aggregates) != |p.events| || p.aggregates == Tally(p.events, GroupOf))
            && r.after == |p.events| && (r.repaired <==> r.before != r.sourceTotal)
            && p'.events == p.events && p'.outbox == p.outbox
  {
    TallySum(p.events, GroupOf);
  }

  /** What a reconciliation reports and leaves, whatever the tables held. */
  lemma ReconcileReports(p: Pipeline, runId: nat, repair: bool)
    ensures Reconcile(p, runId, repair).Success? <==> runId != 0 && runId !in p.runs
    ensures Reconcile(p, runId, repair).Success? ==>
      var (p', r) := Reconcile(p, runId, repair).value;
      && r.sourceTotal == |p.events| && r.before == SumValues(p.aggregates) && r.after == SumValues(p'.aggregates)
      && (r.mismatch <==> |p.events| != SumValues(p.aggregates)) && (r.repaired <==> r.mismatch && repair)
      && (!r.repaired ==> p'.aggregates == p.aggregates) && (r.repaired ==> r.after == r.sourceTotal)
      && p' == p.(aggregates := p'.aggregates, runs := p.runs + {runId})
  {
    TallySum(p.events, GroupOf);
  }

  /** In every reachable state the totals agree, so a repair writes nothing. */
  lemma RepairNeverWrites(steps: seq<Step>, runId: nat, repair: bool)
    requires Reconcile(Run(EMPTY, steps), runId, repair).Success?
    ensures var (p', r) := Reconcile(Run(EMPTY, steps), runId, repair).value;
            p'.aggregates == Run(EMPTY, steps).aggregates && !r.mismatch && !r.repaired
  {
    TotalsAgree(steps);
    hide Run, Delivered, Tally;
  }

  /**
   * A pipeline reaches the case it leaves alone: one click at the end of the first hour, accepted, published,
   * delivered and repaired, stays counted under hour 0 though the log has it in hour 1.
   */
  lemma RepairMissesMovedCount()
    ensures var c := Click(1, 1, 1, Instant(HOUR - 1, 500), Dims(0, 0, 0, 0, 0));
            var p := Run(EMPTY, [Accepting(c), Publishing(IdOf(c)), Delivering(0, 1, 1), Reconciling(1, true)]);
            && p.runs == {1} && p.events == {c.Logged()} && p.aggregates.Keys == {GroupOf(c)}
            && Tally(p.events, GroupOf).Keys == {GroupOf(c).(hour := 1)}
  {
    hide Inv, Delivered, Tally, Reconcile, OneClickSteps;
    var c := Click(1, 1, 1, Instant(HOUR - 1, 500), Dims(0, 0, 0, 0, 0));
    OneClick(c);
    DeliveredExactlyOnce(OneClickSteps(c));
    RepairStep(c);
    RepairNeverWrites(OneClickSteps(c), 1, true);
    HourOfRow(c);
    TallyOfOne(c);
    TallyOfOne(c.Logged());
    assert LoggedAll({c}) == {c.Logged()};
  }

  function OneClickSteps(c: Click): seq<Step> { [Accepting(c), Publishing(IdOf(c)), Delivering(0, 1, 1)] }

  lemma TallyOfOne(c: Click)
    ensures Tally({c}, GroupOf).Keys == {GroupOf(c)}
  {
    assert Groups({c}, GroupOf) == {GroupOf(c)};
  }

  lemma RepairStep(c: Click)
    requires Run(EMPTY, OneClickSteps(c)).runs == {}
    ensures var p := Run(EMPTY, OneClickSteps(c));
            && Reconcile(p, 1, true).Success?
            && Run(EMPTY, [Accepting(c), Publishing(IdOf(c)), Delivering(0, 1, 1), Reconciling(1, true)])
               == Reconcile(p, 1, true).value.0
            && Reconcile(p, 1, true).value.0 == p.(aggregates := Reconcile(p, 1, true).value.0.aggregates, runs := {1})
  {
    hide Tally;
    var steps := [Accepting(c), Publishing(IdOf(c)), Delivering(0, 1, 1), Reconciling(1, true)];
    assert steps[..3] == OneClickSteps(c);
  }

  lemma OneClick(c: Click)
    requires c.Valid()
    ensures Delivered(EMPTY, OneClickSteps(c)) == {c} && Run(EMPTY, OneClickSteps(c)).runs == {}
  {
    hide Reconcile;
    var (s1, s2, s3) := (Accepting(c), Publishing(IdOf(c)), Delivering(0, 1, 1));
    assert [s1, s2, s3][..2] == [s1, s2] && [s1, s2][..1] == [s1] && [s1][..0] == [];
    var p1 := Next(EMPTY, s1);
    assert Run(EMPTY, [s1]) == p1 && p1.outbox == map[IdOf(c) := OutboxRow(c, None, None, 0, false)];
    var p2 := Next(p1, s2);
    assert Run(EMPTY, [s1, s2]) == p2 && p2.stream == [c];
    assert Delivered(EMPTY, [s1]) == {} && Delivered(EMPTY, [s1, s2]) == {};
  }

  lemma NextKeepsOutbox(p: Pipeline, step: Step)
    requires OutboxOk(p.outbox)
    ensures OutboxOk(Next(p, step).outbox)
  {
  }

  lemma NextKeepsPublication(p: Pipeline, step: Step, id: EventId)
    requires OutboxOk(p.outbox) && id in p.outbox && p.outbox[id].publishedAt.Some?
    ensures var q := Next(p, step);
            id in q.outbox && q.outbox[id].click == p.outbox[id].click
              && q.outbox[id].publishedAt == p.outbox[id].publishedAt
  {
  }

  /** The first publication of an event stays on record. */
  lemma {:induction false} PublicationIsWrittenOnce(p: Pipeline, steps: seq<Step>, id: EventId)
    requires OutboxOk(p.outbox) && id in p.outbox && p.outbox[id].publishedAt.Some?
    ensures OutboxOk(Run(p, steps).outbox)
    ensures var q := Run(p, steps);
            id in q.outbox && q.outbox[id].click == p.outbox[id].click
              && q.outbox[id].publishedAt == p.outbox[id].publishedAt
  {
    hide OutboxOk, Next;
    if steps != [] {
      PublicationIsWrittenOnce(p, steps[..|steps| - 1], id);
      NextKeepsOutbox(Run(p, steps[..|steps| - 1]), steps[|steps| - 1]);
      NextKeepsPublication(Run(p, steps[..|steps| - 1]), steps[|steps| - 1], id);
    }
  }
}
