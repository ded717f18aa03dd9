/** How the reports of related queries fit together (internal/analytics/query.go). */
module AnalyticsDrilldown {
  import opened Foundations
  import opened Tallies
  import opened Analytics
  import opened AnalyticsReport

  const NO_FILTER := Dims(0, 0, 0, 0, 0)

  function CountOf(table: map<nat, nat>, k: nat): nat { if k in table then table[k] else 0 }

  lemma GroupSize<T>(rows: set<T>, f: T -> nat, k: nat)
    ensures CountOf(Tally(rows, f), k) == |Members(rows, f, k)|
  {
    if k !in Groups(rows, f) { assert Members(rows, f, k) == {}; }
  }

  /** What a report without filter and link is about: the workspace's logged clicks from its start up to its end. */
  lemma UnfilteredClicks(events: set<Click>, q: Query, from: int)
    requires q.filter == NO_FILTER && q.link.None?
    ensures forall c :: c in SelectedClicks(events, q, from) <==>
      c in events && c.workspace == q.workspace && from <= c.occurredAt.at && c.occurredAt.at < q.to
  {
  }

  function LinkOf(c: Click): nat { c.link }

  lemma FilteredClicks(events: set<Click>, q: Query, from: int, v: nat)
    requires v != 0
    ensures var (all, f) := (SelectedClicks(events, q, from), q.filter);
            && (f.country == 0 ==>
                  SelectedClicks(events, q.(filter := f.(country := v)), from) == Members(all, CountryOf, v))
            && (f.device == 0 ==>
                  SelectedClicks(events, q.(filter := f.(device := v)), from) == Members(all, DeviceOf, v))
            && (f.language == 0 ==>
                  SelectedClicks(events, q.(filter := f.(language := v)), from) == Members(all, LanguageOf, v))
    ensures var (all, f) := (SelectedClicks(events, q, from), q.filter);
            && (f.source == 0 ==>
                  SelectedClicks(events, q.(filter := f.(source := v)), from) == Members(all, SourceOf, v))
            && (f.campaign == 0 ==>
                  SelectedClicks(events, q.(filter := f.(campaign := v)), from) == Members(all, CampaignOf, v))
            && (q.link.None? ==> SelectedClicks(events, q.(link := Some(v)), from) == Members(all, LinkOf, v))
  {
  }

  /** Filtering by a value of a dimension gives the total the unfiltered report lists for that value. */
  lemma FilterIsGroup(events: set<Click>, q: Query, from: int, v: nat)
    requires v != 0
    ensures var (all, f) := (SelectedClicks(events, q, from), q.filter);
            && (f.country == 0 ==>
                  |SelectedClicks(events, q.(filter := f.(country := v)), from)| == CountOf(Tally(all, CountryOf), v))
            && (f.device == 0 ==>
                  |SelectedClicks(events, q.(filter := f.(device := v)), from)| == CountOf(Tally(all, DeviceOf), v))
            && (f.language == 0 ==>
                  |SelectedClicks(events, q.(filter := f.(language := v)), from)| == CountOf(Tally(all, LanguageOf), v))
            && (f.source == 0 ==>
                  |SelectedClicks(events, q.(filter := f.(source := v)), from)| == CountOf(Tally(all, SourceOf), v))
            && (f.campaign == 0 ==>
                  |SelectedClicks(events, q.(filter := f.(campaign := v)), from)| == CountOf(Tally(all, CampaignOf), v))
            && (q.link.None? ==>
                  |SelectedClicks(events, q.(link := Some(v)), from)| == CountOf(Tally(all, LinkOf), v))
  {
    hide Tally, Members, SelectedClicks;
    var all := SelectedClicks(events, q, from);
    FilteredClicks(events, q, from, v);
    GroupSize(all, CountryOf, v);
    GroupSize(all, DeviceOf, v);
    GroupSize(all, LanguageOf, v);
    GroupSize(all, SourceOf, v);
    GroupSize(all, CampaignOf, v);
    GroupSize(all, LinkOf, v);
  }

  /** Two windows that meet add up: no click is in both, and none falls between them. */
  lemma WindowsAdd(events: set<Click>, conversions: set<Conversion>, q: Query, from: int, mid: nat)
    requires from <= mid <= q.to
    ensures |SelectedClicks(events, q, from)|
         == |SelectedClicks(events, q.(to := mid), from)| + |SelectedClicks(events, q, mid)|
    ensures |SelectedConversions(conversions, q, from)|
         == |SelectedConversions(conversions, q.(to := mid), from)| + |SelectedConversions(conversions, q, mid)|
  {
    var (a, b) := (SelectedClicks(events, q.(to := mid), from), SelectedClicks(events, q, mid));
    assert SelectedClicks(events, q, from) == a + b && a !! b;
    var (c, d) := (SelectedConversions(conversions, q.(to := mid), from), SelectedConversions(conversions, q, mid));
    assert SelectedConversions(conversions, q, from) == c + d && c !! d;
  }

  function CampaignIn(c: Conversion): nat { c.campaign }
  function LinkIn(c: Conversion): nat { c.link }

  /**
   * A report counts all conversions of its workspace and window, those of a campaign or a link where it asks
   * for one, and the same ones whatever it asks of the other dimensions.
   */
  lemma ConversionsCounted(conversions: set<Conversion>, q: Query, from: int, v: nat)
    requires v != 0
    ensures q.filter.campaign == 0 && q.link.None? ==>
      forall c :: c in SelectedConversions(conversions, q, from) <==>
        c in conversions && c.workspace == q.workspace && from <= c.occurredAt && c.occurredAt < q.to
    ensures SelectedConversions(conversions, q.(filter := NO_FILTER.(campaign := q.filter.campaign)), from)
         == SelectedConversions(conversions, q, from)
    ensures q.filter.campaign == 0 ==>
      |SelectedConversions(conversions, q.(filter := q.filter.(campaign := v)), from)|
      == CountOf(Tally(SelectedConversions(conversions, q, from), CampaignIn), v)
    ensures q.link.None? ==>
      |SelectedConversions(conversions, q.(link := Some(v)), from)|
      == CountOf(Tally(SelectedConversions(conversions, q, from), LinkIn), v)
  {
    var all := SelectedConversions(conversions, q, from);
    GroupSize(all, CampaignIn, v);
    GroupSize(all, LinkIn, v);
    hide Tally;
    if q.filter.campaign == 0 {
      assert SelectedConversions(conversions, q.(filter := q.filter.(campaign := v)), from)
        == Members(all, CampaignIn, v);
    }
    if q.link.None? {
      assert SelectedConversions(conversions, q.(link := Some(v)), from) == Members(all, LinkIn, v);
    }
  }

  /** Retention is counted in days of 24 hours back from now. */
  lemma RetentionInDays(q: Query, days: nat)
    requires ValidQuery(q)
    ensures var cutoff := q.now - days * 86_400_000_000;
            && EffectiveFrom(q, days) == (if cutoff <= q.from then q.from else if cutoff <= q.to then cutoff else q.to)
            && (q.from < Cutoff(q, days) <==> q.from < cutoff)
  {
  }

  /** Buckets come in the order of their keys; a dimension's values by falling clicks, then by key. */
  lemma ListsInOrder(list: seq<Count>, table: map<nat, nat>, i: nat, j: nat)
    requires i < j < |list|
    ensures Lists(list, table, ByKey) ==> list[i].key <= list[j].key
    ensures Lists(list, table, ByClicks) ==>
      list[i].clicks > list[j].clicks || (list[i].clicks == list[j].clicks && list[i].key <= list[j].key)
  {
    if Lists(list, table, ByKey) { assert !ByKey(list[j], list[i]); }
    if Lists(list, table, ByClicks) { assert !ByClicks(list[j], list[i]); }
  }
}
