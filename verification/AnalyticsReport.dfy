/** Reports over the click log: counters, ordered lists and conservation (internal/analytics/query.go). */
module AnalyticsReport {
  import opened Foundations
  import opened Sorting
  import opened Tallies
  import opened Analytics

  /** Filters are 0 where the query has none. */
  datatype Query = Query(workspace: nat, link: Option<nat>, filter: Dims, from: Micros, to: Micros, now: Micros)

  datatype DatasetStatus = Complete | Partial | Stale

  datatype DatasetState = DatasetState(status: DatasetStatus, retentionDays: nat)

  datatype ReportState = SuccessState | StaleState | PartialState | RetentionLimited | EmptyState

  datatype Count = Count(key: nat, clicks: nat)

  datatype Report = Report(
    state: ReportState, effectiveFrom: int, retentionLimited: bool, total: nat, conversions: nat,
    buckets: seq<Count>, countries: seq<Count>, devices: seq<Count>, languages: seq<Count>,
    sources: seq<Count>, campaigns: seq<Count>)

  datatype Conversion = Conversion(workspace: nat, id: nat, campaign: nat, link: nat, occurredAt: Micros)

  const MAX_WINDOW: nat := 3660 * DAY

  /** normalizeQuery. */
  predicate ValidQuery(q: Query) {
    q.workspace != 0 && q.from != 0 && q.to != 0 && q.from < q.to && q.to - q.from <= MAX_WINDOW
  }

  function Cutoff(q: Query, retentionDays: nat): int { q.now - retentionDays * DAY }

  /** The window after the retention clamp: never before the request or the cutoff, never past the end. */
  function EffectiveFrom(q: Query, retentionDays: nat): (r: int)
    requires ValidQuery(q)
    ensures q.from <= r <= q.to
    ensures r < q.to ==> r >= Cutoff(q, retentionDays)
    ensures Cutoff(q, retentionDays) <= q.from ==> r == q.from
    ensures q.from <= Cutoff(q, retentionDays) <= q.to ==> r == Cutoff(q, retentionDays)
  {
    var from := if q.from < Cutoff(q, retentionDays) then Cutoff(q, retentionDays) else q.from;
    if from < q.to then from else q.to
  }

  predicate Passes(filter: nat, value: nat) { filter == 0 || filter == value }

  predicate Selected(q: Query, from: int, c: Click) {
    && c.workspace == q.workspace && from <= c.occurredAt.at < q.to
    && (q.link.Some? ==> c.link == q.link.value)
    && Passes(q.filter.country, c.dims.country) && Passes(q.filter.device, c.dims.device)
    && Passes(q.filter.language, c.dims.language) && Passes(q.filter.source, c.dims.source)
    && Passes(q.filter.campaign, c.dims.campaign)
  }

  function SelectedClicks(events: set<Click>, q: Query, from: int): set<Click> {
    set c | c in events && Selected(q, from, c)
  }

  /** Conversions know no dimension but the campaign. */
  function SelectedConversions(conversions: set<Conversion>, q: Query, from: int): set<Conversion> {
    set c | c in conversions && c.workspace == q.workspace && from <= c.occurredAt < q.to
            && (q.link.Some? ==> c.link == q.link.value) && Passes(q.filter.campaign, c.campaign)
  }

  predicate ByKey(a: Count, b: Count) { a.key < b.key }

  predicate ByClicks(a: Count, b: Count) { if a.clicks == b.clicks then a.key < b.key else a.clicks > b.clicks }

  lemma CountOrders()
    ensures StrictWeakOrder(ByKey) && StrictWeakOrder(ByClicks)
  {
  }

  /** The list holds every group of the table once, in the given order. */
  ghost predicate Lists(list: seq<Count>, table: map<nat, nat>, less: (Count, Count) -> bool) {
    && Sorted(less, list)
    && |list| == |table|
    && (forall c :: c in list <==> c.key in table && table[c.key] == c.clicks)
  }

  function SumClicks(list: seq<Count>): nat {
    if list == [] then 0 else SumClicks(list[..|list| - 1]) + list[|list| - 1].clicks
  }

  // ---------------------------------------------------------------- building the lists

  /** bucketList and dimensionList: the groups of a table, sorted. */
  method ListOf(table: map<nat, nat>, less: (Count, Count) -> bool) returns (list: seq<Count>)
    requires StrictWeakOrder(less)
    ensures Lists(list, table, less)
  {
    list := [];
    var rest := table.Keys;
    while rest != {}
      invariant rest <= table.Keys && |list| + |rest| == |table.Keys|
      invariant forall c: Count :: c in list <==> c.key in table && c.key !in rest && table[c.key] == c.clicks
      decreases |rest|
    {
      var key :| key in rest;
      list := list + [Count(key, table[key])];
      rest := rest - {key};
    }
    SortCorrect(less, list);
    list := Sort(less, list);
  }

  function BucketOf(key: Micros -> nat): Click -> nat { (c: Click) => key(c.occurredAt.at) }
  function CountryOf(c: Click): nat { c.dims.country }
  function DeviceOf(c: Click): nat { c.dims.device }
  function LanguageOf(c: Click): nat { c.dims.language }
  function SourceOf(c: Click): nat { c.dims.source }
  function CampaignOf(c: Click): nat { c.dims.campaign }

  datatype Counters = Counters(
    buckets: map<nat, nat>, countries: map<nat, nat>, devices: map<nat, nat>, languages: map<nat, nat>,
    sources: map<nat, nat>, campaigns: map<nat, nat>)

  function Counted(clicks: set<Click>, key: Micros -> nat): Counters {
    Counters(Tally(clicks, BucketOf(key)), Tally(clicks, CountryOf), Tally(clicks, DeviceOf), Tally(clicks, LanguageOf),
             Tally(clicks, SourceOf), Tally(clicks, CampaignOf))
  }

  lemma CountOneMore(clicks: set<Click>, c: Click, key: Micros -> nat)
    requires c !in clicks
    ensures var n := Counted(clicks, key);
            Counted(clicks + {c}, key)
            == Counters(Bump(n.buckets, key(c.occurredAt.at)), Bump(n.countries, c.dims.country), Bump(n.devices, c.dims.device),
                        Bump(n.languages, c.dims.language), Bump(n.sources, c.dims.source),
                          Bump(n.campaigns, c.dims.campaign))
  {
    TallyOneMore(clicks, c, BucketOf(key));
    TallyOneMore(clicks, c, CountryOf);
    TallyOneMore(clicks, c, DeviceOf);
    TallyOneMore(clicks, c, LanguageOf);
    TallyOneMore(clicks, c, SourceOf);
    TallyOneMore(clicks, c, CampaignOf);
    hide Tally, Bump;
  }

  lemma NothingCounted(key: Micros -> nat)
    ensures Counted({}, key) == Counters(map[], map[], map[], map[], map[], map[])
  {
  }

  /** One pass over the clicks bumps a bucket and five dimension counters each. */
  method CountClicks(clicks: set<Click>, key: Micros -> nat) returns (n: Counters)
    ensures n == Counted(clicks, key)
  {
    n := Counters(map[], map[], map[], map[], map[], map[]);
    var rest := clicks;
    hide Counted, Bump;
    assert clicks - rest == {};
    NothingCounted(key);
    while rest != {}
      invariant rest <= clicks && n == Counted(clicks - rest, key)
      decreases |rest|
    {
      var c :| c in rest;
      CountOneMore(clicks - rest, c, key);
      assert clicks - (rest - {c}) == clicks - rest + {c};
      n := Counters(Bump(n.buckets, key(c.occurredAt.at)), Bump(n.countries, c.dims.country), Bump(n.devices, c.dims.device),
                    Bump(n.languages, c.dims.language), Bump(n.sources, c.dims.source),
                      Bump(n.campaigns, c.dims.campaign));
      rest := rest - {c};
    }
    assert clicks - rest == clicks;
  }

  /** QueryReport; links maps the links that are not deleted to their workspaces. */
  method QueryReport(events: set<Click>, conversions: set<Conversion>, links: map<nat, nat>, q: Query, state: DatasetState,
                     bucketKey: Micros -> nat) returns (r: Result<Report>)
    ensures r == Failure(InvalidInput) <==>
      q.workspace == 0 || q.from == 0 || q.to <= q.from || q.to - q.from > 3660 * 86_400_000_000 || q.link == Some(0)
    ensures r == Failure(NotFound) <==>
      && r != Failure(InvalidInput)
      && q.link.Some? && (q.link.value in links ==> links[q.link.value] != q.workspace)
    ensures r.Success? <==> r != Failure(InvalidInput) && r != Failure(NotFound)
    ensures r.Success? ==>
      var report := r.value;
      var selected := SelectedClicks(events, q, report.effectiveFrom);
      && report.effectiveFrom == EffectiveFrom(q, state.retentionDays)
      && (report.retentionLimited <==> q.from < Cutoff(q, state.retentionDays))
      && report.total == |selected| && report.conversions == |SelectedConversions(conversions, q, report.effectiveFrom)|
      && Lists(report.buckets, Tally(selected, BucketOf(bucketKey)), ByKey)
      && Lists(report.countries, Tally(selected, CountryOf), ByClicks)
      && Lists(report.devices, Tally(selected, DeviceOf), ByClicks)
      && Lists(report.languages, Tally(selected, LanguageOf), ByClicks)
      && Lists(report.sources, Tally(selected, SourceOf), ByClicks)
      && Lists(report.campaigns, Tally(selected, CampaignOf), ByClicks)
      && (report.state.StaleState? <==> state.status.Stale?)
      && (report.state.PartialState? <==> state.status.Partial?)
      && (report.state.RetentionLimited? <==> state.status.Complete? && report.retentionLimited)
      && (report.state.EmptyState? <==> state.status.Complete? && !report.retentionLimited && report.total == 0)
  {
    if !ValidQuery(q) { return Failure(InvalidInput); }
    if q.link.Some? {
      if q.link.value == 0 { return Failure(InvalidInput); }
      if q.link.value !in links || links[q.link.value] != q.workspace { return Failure(NotFound); }
    }
    var cutoff := Cutoff(q, state.retentionDays);
    var limited := q.from < cutoff;
    var from := EffectiveFrom(q, state.retentionDays);
    hide Cutoff, EffectiveFrom, Tally, Lists, Selected;
    var clicks := SelectedClicks(events, q, from);
    var n := CountClicks(clicks, bucketKey);
    CountOrders();
    var converted := |SelectedConversions(conversions, q, from)|;
    hide SelectedClicks, SelectedConversions, StrictWeakOrder;
    var buckets := ListOf(n.buckets, ByKey);
    var countries := ListOf(n.countries, ByClicks);
    var devices := ListOf(n.devices, ByClicks);
    var languages := ListOf(n.languages, ByClicks);
    var sources := ListOf(n.sources, ByClicks);
    var campaigns := ListOf(n.campaigns, ByClicks);
    var reportState :=
      match state.status
      case Stale => StaleState
      case Partial => PartialState
      case Complete => if limited then RetentionLimited else if |clicks| == 0 then EmptyState else SuccessState;
    return Success(Report(reportState, from, limited, |clicks|, converted, buckets, countries, devices, languages,
                          sources, campaigns));
  }

  // ---------------------------------------------------------------- conservation

  lemma {:induction false} DistinctSum(list: seq<Count>, table: map<nat, nat>)
    requires forall c: Count :: c in list ==> c.key in table && table[c.key] == c.clicks
    requires forall k :: k in table ==> Count(k, table[k]) in list
    requires |list| == |table|
    ensures SumClicks(list) == SumValues(table)
    decreases |list|
  {
    if list == [] {
    } else {
      var (front, last) := (list[..|list| - 1], list[|list| - 1]);
      assert list == front + [last];
      if last in front {
        ListCoversTooMuch(front, table);
        assert false;
      }
      SumRemove(table, last.key);
      var rest := table - {last.key};
      forall c: Count | c in front
        ensures c.key in rest && rest[c.key] == c.clicks
      {
        assert c in list;
        assert c.key == last.key ==> c == last;
      }
      forall k | k in rest
        ensures Count(k, rest[k]) in front
      {
        assert Count(k, table[k]) in list;
      }
      DistinctSum(front, rest);
    }
  }

  /** A list cannot hold more different keys than it is long. */
  lemma {:induction false} ListCoversTooMuch(list: seq<Count>, table: map<nat, nat>)
    requires forall k :: k in table ==> Count(k, table[k]) in list
    ensures |table| <= |list|
    decreases |list|
  {
    if list == [] {
      assert forall k :: k !in table;
      assert table == map[];
    } else {
      var (front, last) := (list[..|list| - 1], list[|list| - 1]);
      var rest := table - {last.key};
      forall k | k in rest
        ensures Count(k, rest[k]) in front
      {
        assert Count(k, table[k]) in list && Count(k, table[k]) != last;
      }
      ListCoversTooMuch(front, rest);
      assert table.Keys <= rest.Keys + {last.key};
      CardSubset(table.Keys, rest.Keys + {last.key});
    }
  }

  /** Every list of a report adds up to its total: no click is lost or counted twice by any grouping. */
  lemma ListConserves(list: seq<Count>, selected: set<Click>, f: Click -> nat, less: (Count, Count) -> bool)
    requires Lists(list, Tally(selected, f), less)
    ensures SumClicks(list) == |selected|
  {
    TallySum(selected, f);
    hide Tally;
    DistinctSum(list, Tally(selected, f));
  }

  /** The aggregate rows of a workspace in a window of whole hours. */
  function InWindow(aggregates: map<Group, nat>, workspace: nat, firstHour: nat, endHour: nat): map<Group, nat> {
    Restrict(aggregates, set g | g in aggregates && g.workspace == workspace && firstHour <= g.hour < endHour)
  }

  /** The aggregate rows of a range of hours add up to its clicks. */
  lemma HoursSum(events: set<Click>, aggregates: map<Group, nat>, w: nat, first: nat, end: nat, clicks: set<Click>)
    requires aggregates == Tally(events, GroupOf)
    requires clicks == set c | c in events && c.workspace == w && first <= GroupOf(c).hour < end
    ensures SumValues(InWindow(aggregates, w, first, end)) == |clicks|
  {
    var keep := set g | g in aggregates && g.workspace == w && first <= g.hour < end;
    forall c: Click
      ensures c in clicks <==> c in events && GroupOf(c) in keep
    {
      assert c in events ==> GroupOf(c) in Groups(events, GroupOf);
    }
    hide Tally;
    TallySelect(events, GroupOf, keep, clicks);
    TallySum(clicks, GroupOf);
  }

  lemma HourOf(t: nat, bound: nat)
    ensures t < bound ==> t / HOUR < (bound + HOUR - 1) / HOUR
    ensures t / HOUR < bound / HOUR ==> t < bound
    ensures bound <= t ==> bound / HOUR <= t / HOUR
    ensures (bound + HOUR - 1) / HOUR <= t / HOUR ==> bound <= t
  {
  }

  lemma ClickBounds(q: Query, from: nat, c: Click)
    requires q.link.None? && q.filter == Dims(0, 0, 0, 0, 0)
    ensures c.workspace == q.workspace && (from + HOUR - 1) / HOUR <= GroupOf(c).hour < q.to / HOUR ==>
      Selected(q, from, c)
    ensures Selected(q, from, c) ==>
      c.workspace == q.workspace && from / HOUR <= GroupOf(c).hour < (q.to + HOUR - 1) / HOUR
  {
    HourOf(c.occurredAt.at, from);
    HourOf(c.occurredAt.at, q.to);
  }

  /**
   * For every unfiltered query, after the retention clamp, the report's total lies between the sum of the
   * aggregate rows of the hours inside its window and that of the hours it touches. The aggregate is the
   * group-by of the log, as it is where no click drifted.
   */
  lemma ReportBounds(events: set<Click>, aggregates: map<Group, nat>, q: Query, retentionDays: nat)
    requires aggregates == Tally(events, GroupOf) && ValidQuery(q)
    requires q.link.None? && q.filter == Dims(0, 0, 0, 0, 0)
    ensures var from := EffectiveFrom(q, retentionDays);
            SumValues(InWindow(aggregates, q.workspace, (from + HOUR - 1) / HOUR, q.to / HOUR))
            <= |SelectedClicks(events, q, from)|
            <= SumValues(InWindow(aggregates, q.workspace, from / HOUR, (q.to + HOUR - 1) / HOUR))
  {
    hide Cutoff, Tally, EffectiveFrom, Selected, InWindow;
    var from: nat := EffectiveFrom(q, retentionDays);
    var (w, total) := (q.workspace, SelectedClicks(events, q, from));
    var inside := set c | c in events && c.workspace == w && (from + HOUR - 1) / HOUR <= GroupOf(c).hour < q.to / HOUR;
    var touched := set c | c in events && c.workspace == w && from / HOUR <= GroupOf(c).hour < (q.to + HOUR - 1) / HOUR;
    HoursSum(events, aggregates, w, (from + HOUR - 1) / HOUR, q.to / HOUR, inside);
    HoursSum(events, aggregates, w, from / HOUR, (q.to + HOUR - 1) / HOUR, touched);
    forall c: Click
      ensures c in inside ==> c in total
      ensures c in total ==> c in touched
    {
      ClickBounds(q, from, c);
    }
    CardSubset(inside, total);
    CardSubset(total, touched);
  }

  /** Where the window left by the clamp starts and ends on whole hours, the total is the sum of its rows. */
  lemma ReportMatchesAggregate(events: set<Click>, aggregates: map<Group, nat>, q: Query, retentionDays: nat,
      first: nat, end: nat)
    requires aggregates == Tally(events, GroupOf) && ValidQuery(q)
    requires q.link.None? && q.filter == Dims(0, 0, 0, 0, 0)
    requires EffectiveFrom(q, retentionDays) == first * HOUR && q.to == end * HOUR
    ensures |SelectedClicks(events, q, first * HOUR)| == SumValues(InWindow(aggregates, q.workspace, first, end))
  {
    hide Tally, SelectedClicks, InWindow, EffectiveFrom;
    ReportBounds(events, aggregates, q, retentionDays);
    assert (first * HOUR + HOUR - 1) / HOUR == first && (end * HOUR + HOUR - 1) / HOUR == end;
    assert first * HOUR / HOUR == first && end * HOUR / HOUR == end;
  }
}
