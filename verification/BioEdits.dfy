/** What accepted writes leave of a bio page, and which writes are accepted (internal/bio/store.go). */
module BioEdits {
  import opened Foundations
  import opened BioPages
  import opened BioStore
  import opened BioRuns

  ghost predicate OtherPagesSame(site: Site, site': Site, page: nat) {
    && site'.pages.Keys == site.pages.Keys + {page}
    && (forall p :: p in site.pages && p != page ==> site'.pages[p] == site.pages[p])
    && (forall c :: c in site.children && site.children[c].page != page ==>
          c in site'.children && site'.children[c] == site.children[c])
    && (forall c :: c in site'.children && site'.children[c].page != page ==> c in site.children)
  }

  /** The page a write may change: live, the workspace's, and at the version the writer saw. */
  predicate Writable(site: Site, w: nat, page: nat, version: nat) {
    && w != 0 && page != 0 && version != 0 && page in site.pages
    && site.pages[page].workspace == w && !site.pages[page].deleted && site.pages[page].version == version
  }

  /** Which updates are accepted. */
  lemma UpdatesExactly(site: Site, w: nat, page: nat, version: nat, edit: Edit)
    ensures Update(site, w, page, version, edit).Success? <==>
      && Writable(site, w, page, version)
      && (edit.title.Some? || edit.bio.Some? || edit.links.Some?)
      && (edit.title.Some? ==> edit.title.value.Some?) && (edit.bio.Some? ==> edit.bio.value.Some?)
      && (edit.links.Some? ==>
            && NormalizeChildren(edit.links.value, false).Success?
            && forall r :: r in edit.links.value && r.id != 0 ==>
                 r.id in site.children && site.children[r.id].page == page)
  {
    hide Acceptable;
    if edit.links.Some? && NormalizeChildren(edit.links.value, false).Success? {
      ListedAreOwned(site.children, page, edit.links.value);
    }
  }

  lemma ListedAreOwned(children: map<nat, Child>, page: nat, input: seq<Raw>)
    requires NormalizeChildren(input, false).Success?
    ensures Owns(children, page, NormalizeChildren(input, false).value) <==>
      forall r :: r in input && r.id != 0 ==> r.id in children && children[r.id].page == page
  {
    hide NormalizeChildren;
    var items := NormalizeChildren(input, false).value;
    ItemsAtPositions(input, false);
    if Owns(children, page, items) {
      forall r | r in input && r.id != 0
        ensures r.id in children && children[r.id].page == page
      {
        var k :| 0 <= k < |input| && input[k] == r;
        assert IsItem(items[r.position], r);
      }
    } else {
      var i :| 0 <= i < |items| && items[i].id != 0 && !(items[i].id in children && children[items[i].id].page == page);
      assert HasPosition(input, i);
      var k :| 0 <= k < |input| && input[k].position == i;
      assert IsItem(items[i], input[k]);
    }
  }

  /** An update writes what it was given, keeps what it was not, and nothing but its page changes. */
  lemma UpdateMeaning(site: Site, w: nat, page: nat, version: nat, edit: Edit, quota: nat)
    requires SiteOk(site, quota) && Update(site, w, page, version, edit).Success?
    ensures var site' := Update(site, w, page, version, edit).value;
            && page in site.pages && page in site'.pages && OtherPagesSame(site, site', page)
            && site'.counters == site.counters && site'.nextPage == site.nextPage
            && var (before, after) := (site.pages[page], site'.pages[page]);
               && after.version == version + 1 && after.workspace == w && !after.deleted
               && after.title == (if edit.title.Some? then edit.title.value.value else before.title)
               && after.bio == (if edit.bio.Some? then edit.bio.value.value else before.bio)
               && (edit.links.None? ==> site'.children == site.children)
               && (edit.links.Some? ==> ListIs(site.children, site'.children, page, edit.links.value))
  {
    hide NormalizeChildren, Placed, NoGapsIn, CountersOk, ListIs, UniquePositions, Lists;
    if edit.links.Some? {
      UpdateLists(site, page, edit.links.value, quota);
    }
  }

  lemma UpdateLists(site: Site, page: nat, input: seq<Raw>, quota: nat)
    requires SiteOk(site, quota) && NormalizeChildren(input, false).Success?
    requires Owns(site.children, page, NormalizeChildren(input, false).value)
    ensures var children' := Placed(site.children, page, NormalizeChildren(input, false).value, site.nextChild);
            && ListIs(site.children, children', page, input)
            && (forall c :: c in site.children && site.children[c].page != page ==>
                  c in children' && children'[c] == site.children[c])
            && (forall c :: c in children' && children'[c].page != page ==> c in site.children)
  {
    hide NormalizeChildren, Placed, NoGapsIn, CountersOk, ListIs, UniquePositions, Lists, RowIds, RowFor;
    var items := NormalizeChildren(input, false).value;
    NormalizeMeaning(input, false);
    NormalizedLists(input, false);
    PlaceableWhen(site.children, site.pages, page, items, site.nextChild);
    PlacedMeaning(site.children, page, items, site.nextChild);
    PlacedIsList(site.children, page, input, items, site.nextChild);
  }

  /**
   * The page's rows are the submitted list: one row at each position, with the submitted text and destination,
   * under the submitted id if there was one and a new one otherwise.
   */
  ghost predicate ListIs(children: map<nat, Child>, children': map<nat, Child>, page: nat, input: seq<Raw>) {
    && (forall k :: 0 <= k < |input| ==> Shown(children, children', page, input[k]))
    && (forall c :: c in children' && children'[c].page == page ==>
          Submitted(children, children'[c], c, page, input))
  }

  ghost predicate Shown(children: map<nat, Child>, children': map<nat, Child>, page: nat, raw: Raw) {
    exists c :: c in children' && ShowsAs(children, children'[c], c, page, raw)
  }

  ghost predicate Submitted(children: map<nat, Child>, row: Child, id: nat, page: nat, input: seq<Raw>) {
    exists k :: 0 <= k < |input| && ShowsAs(children, row, id, page, input[k])
  }

  /** The row shows the submitted child; its status is a former decision on the same destination, or review. */
  ghost predicate ShowsAs(children: map<nat, Child>, row: Child, id: nat, page: nat, raw: Raw) {
    && row.page == page && row.position == raw.position && Some(row.text) == raw.text
    && raw.target == Some(Target(row.url, row.fingerprint))
    && (if raw.id != 0 then id == raw.id else id !in children)
    && (if id in children && children[id].fingerprint == row.fingerprint
        then row.risk == children[id].risk && row.checkedAt == children[id].checkedAt
        else row.risk.Review? && row.checkedAt.None?)
  }

  /** The item is the one submitted child at its position. */
  ghost predicate Lists(items: seq<Item>, input: seq<Raw>) {
    && |items| == |input|
    && (forall k :: 0 <= k < |input| ==> input[k].position < |items| && IsItem(items[input[k].position], input[k]))
    && (forall p: nat | p < |input| :: HasPosition(input, p))
  }

  lemma NormalizedLists(input: seq<Raw>, creating: bool)
    requires NormalizeChildren(input, creating).Success?
    ensures Lists(NormalizeChildren(input, creating).value, input)
  {
    hide NormalizeChildren;
    ItemsAtPositions(input, creating);
  }

  lemma RowShows(children: map<nat, Child>, page: nat, items: seq<Item>, nextChild: nat, i: nat, raw: Raw)
    requires Placeable(children, page, items, nextChild) && i < |items| && IsItem(items[i], raw)
    ensures var (id, after) := (RowIds(items, nextChild)[i], Placed(children, page, items, nextChild));
            id in after && ShowsAs(children, after[id], id, page, raw)
  {
    hide Placed, RowIds, NewRows, RowFor;
    InPlaceItems(children, page, items, nextChild);
    PlacedMeaning(children, page, items, nextChild);
    RowIdFacts(children, page, items, nextChild);
    ApprovalCarried(children, page, items, nextChild, i);
  }

  lemma RowIsSubmitted(children: map<nat, Child>, page: nat, input: seq<Raw>, items: seq<Item>, nextChild: nat, c: nat)
    requires Placeable(children, page, items, nextChild) && Lists(items, input)
    requires var after := Placed(children, page, items, nextChild); c in after && after[c].page == page
    ensures Submitted(children, Placed(children, page, items, nextChild)[c], c, page, input)
  {
    hide Placed, Placeable, RowIds, NewRows, RowFor, ShowsAs;
    PlacedMeaning(children, page, items, nextChild);
    var (ids, after) := (RowIds(items, nextChild), Placed(children, page, items, nextChild));
    assert c in after && after[c].page == page;
    assert c in ids;
    var i :| 0 <= i < |ids| && ids[i] == c;
    assert HasPosition(input, i);
    var k :| 0 <= k < |input| && input[k].position == i;
    RowShows(children, page, items, nextChild, i, input[k]);
  }

  lemma PlacedIsList(children: map<nat, Child>, page: nat, input: seq<Raw>, items: seq<Item>, nextChild: nat)
    requires Placeable(children, page, items, nextChild) && Lists(items, input)
    ensures ListIs(children, Placed(children, page, items, nextChild), page, input)
  {
    hide Placed, Placeable, RowIds, NewRows, RowFor, ShowsAs, IsItem, Submitted, HasPosition;
    var after := Placed(children, page, items, nextChild);
    forall k | 0 <= k < |input|
      ensures Shown(children, after, page, input[k])
    {
      RowShows(children, page, items, nextChild, input[k].position, input[k]);
    }
    forall c | c in after && after[c].page == page
      ensures Submitted(children, after[c], c, page, input)
    {
      RowIsSubmitted(children, page, input, items, nextChild, c);
    }
  }

  lemma InPlaceItems(children: map<nat, Child>, page: nat, items: seq<Item>, nextChild: nat)
    requires Placeable(children, page, items, nextChild)
    ensures forall i :: 0 <= i < |items| ==> items[i].position == i
    ensures forall i :: 0 <= i < |items| && items[i].id != 0 ==> items[i].id in children
  {
  }

  // ---------------------------------------------------------------- creating and deleting

  /** A page is created exactly below the quota, with a title and biography their normalisers took and a clean list. */
  lemma CreatesExactly(site: Site, w: nat, title: Option<nat>, bio: Option<nat>, input: seq<Raw>, quota: nat)
    requires SiteOk(site, quota)
    ensures Create(site, w, title, bio, input, quota).Success? <==>
      && w != 0 && title.Some? && bio.Some? && NormalizeChildren(input, true).Success?
      && |ActivePages(site.pages, w)| < quota
  {
    hide NormalizeChildren, Placed, ActivePages, ChildrenOk, NoGapsIn;
  }

  /** A new page shows what was submitted, every row of it under review, and is counted. */
  lemma CreateMeaning(site: Site, w: nat, title: Option<nat>, bio: Option<nat>, input: seq<Raw>, quota: nat)
    requires SiteOk(site, quota) && Create(site, w, title, bio, input, quota).Success?
    ensures var (site', page) := (Create(site, w, title, bio, input, quota).value, site.nextPage);
            && page !in site.pages && page in site'.pages && OtherPagesSame(site, site', page)
            && site'.pages[page].workspace == w && site'.pages[page].version == 1 && !site'.pages[page].deleted
            && Some(site'.pages[page].title) == title && Some(site'.pages[page].bio) == bio
            && ListIs(site.children, site'.children, page, input)
            && Counter(site'.counters, w) == Counter(site.counters, w) + 1
            && forall v :: v != w ==> Counter(site'.counters, v) == Counter(site.counters, v)
  {
    hide NormalizeChildren, Placed, NoGapsIn, ListIs, UniquePositions, Lists;
    CreateLists(site, input, quota);
  }

  lemma CreateLists(site: Site, input: seq<Raw>, quota: nat)
    requires SiteOk(site, quota) && NormalizeChildren(input, true).Success?
    ensures var (page, items) := (site.nextPage, NormalizeChildren(input, true).value);
            var children' := Placed(site.children, page, items, site.nextChild);
            && ListIs(site.children, children', page, input)
            && (forall c :: c in site.children && site.children[c].page != page ==>
                  c in children' && children'[c] == site.children[c])
            && (forall c :: c in children' && children'[c].page != page ==> c in site.children)
            && page !in site.pages
  {
    hide NormalizeChildren, Placed, NoGapsIn, ListIs, UniquePositions, Lists, RowIds, RowFor;
    var (page, items) := (site.nextPage, NormalizeChildren(input, true).value);
    NormalizeMeaning(input, true);
    NormalizedLists(input, true);
    AllNew(site.children, page, items);
    PlaceableWhen(site.children, site.pages, page, items, site.nextChild);
    PlacedMeaning(site.children, page, items, site.nextChild);
    PlacedIsList(site.children, page, input, items, site.nextChild);
  }

  /** A page is deleted exactly where it can be written; its content stays, and its workspace has one page less. */
  lemma DeletesExactly(site: Site, w: nat, page: nat, version: nat, quota: nat)
    requires SiteOk(site, quota)
    ensures Delete(site, w, page, version).Success? <==> Writable(site, w, page, version)
    ensures Delete(site, w, page, version).Success? ==>
      var site' := Delete(site, w, page, version).value;
      && page in site'.pages && OtherPagesSame(site, site', page) && site'.children == site.children
      && site'.pages[page] == Page(w, version + 1, true, site.pages[page].title, site.pages[page].bio)
      && Counter(site'.counters, w) + 1 == Counter(site.counters, w)
      && forall v :: v != w ==> Counter(site'.counters, v) == Counter(site.counters, v)
  {
    hide NoGapsIn, UniquePositions, ChildrenOk;
    if Delete(site, w, page, version).Success? { assert page in ActivePages(site.pages, w); }
  }

  // ---------------------------------------------------------------- versions

  lemma StepMovesPage(site: Site, step: Step, quota: nat, page: nat)
    requires SiteOk(site, quota) && page in site.pages
    ensures var pages' := Next(site, step, quota).pages;
            && page in pages' && site.pages[page].version <= pages'[page].version
            && (pages'[page].version == site.pages[page].version ==> pages'[page] == site.pages[page])
            && (site.pages[page].deleted ==> pages'[page] == site.pages[page])
            && pages'[page].workspace == site.pages[page].workspace
  {
    hide NormalizeChildren, Placed, NoGapsIn, UniquePositions, Owns;
  }

  /** Over any run a page keeps its workspace, a deleted one stays as it is, and every change shows in its version. */
  lemma {:induction false} RunMovesPage(site: Site, steps: seq<Step>, quota: nat, page: nat)
    requires SiteOk(site, quota) && page in site.pages
    ensures var pages' := Run(site, steps, quota).pages;
            && page in pages' && site.pages[page].version <= pages'[page].version
            && (pages'[page].version == site.pages[page].version ==> pages'[page] == site.pages[page])
            && (site.pages[page].deleted ==> pages'[page] == site.pages[page])
            && pages'[page].workspace == site.pages[page].workspace
  {
    hide Next, SiteOk;
    if steps != [] {
      var before := steps[..|steps| - 1];
      RunMovesPage(site, before, quota, page);
      RunKeepsSite(site, before, quota);
      StepMovesPage(Run(site, before, quota), steps[|steps| - 1], quota, page);
    }
  }

  /** The page a step writes and the version it expects there, if it is a write to a page. */
  function Expects(step: Step): Option<(nat, nat)> {
    match step
    case Updating(_, page, version, _) => Some((page, version))
    case Deleting(_, page, version) => Some((page, version))
    case _ => None
  }

  /**
   * No update is lost: once a write went through, no write that expects the same version of the page ever
   * does again, whatever happens in between.
   */
  lemma SecondWriterRefused(site: Site, first: Step, steps: seq<Step>, again: Step, quota: nat)
    requires SiteOk(site, quota) && Expects(first).Some? && Expects(again) == Expects(first)
    requires Next(site, first, quota) != site
    ensures var later := Run(Next(site, first, quota), steps, quota);
            Next(later, again, quota) == later
  {
    var (page, version) := Expects(first).value;
    WriteRaisesVersion(site, first, quota);
    NextKeepsSite(site, first, quota);
    hide Next, SiteOk;
    var once := Next(site, first, quota);
    RunMovesPage(once, steps, quota, page);
    RunKeepsSite(once, steps, quota);
    if Next(Run(once, steps, quota), again, quota) != Run(once, steps, quota) {
      WriteRaisesVersion(Run(once, steps, quota), again, quota);
    }
  }

  lemma WriteRaisesVersion(site: Site, step: Step, quota: nat)
    requires SiteOk(site, quota) && Expects(step).Some? && Next(site, step, quota) != site
    ensures var (page, version) := Expects(step).value;
            var pages' := Next(site, step, quota).pages;
            page in site.pages && site.pages[page].version == version
            && page in pages' && pages'[page].version == version + 1
  {
    hide NormalizeChildren, Placed, NoGapsIn, UniquePositions, Owns;
  }

  // ---------------------------------------------------------------- risk decisions

  /** A decision, whichever it is, is stored exactly where the child still has the destination it is about. */
  lemma SyncsExactly(site: Site, child: nat, fingerprint: nat, risk: Risk, at: Option<Micros>)
    ensures var r := SyncChildRisk(site, child, fingerprint, risk, at);
            && (r.Success? <==> child != 0 && fingerprint != 0)
            && (r.Success? ==>
                  && r.value == site.(children := r.value.children) && r.value.children.Keys == site.children.Keys
                  && (forall c :: c in site.children && c != child ==> r.value.children[c] == site.children[c])
                  && (child in site.children ==>
                        var (before, after) := (site.children[child], r.value.children[child]);
                        if before.fingerprint == fingerprint
                        then after.risk == risk && after.checkedAt == at
                          && after == before.(risk := risk, checkedAt := at)
                        else after == before))
  {
  }

  // ---------------------------------------------------------------- refusals

  /** Why a write to a page is refused: its input, a page that is not the workspace's, or its state and version. */
  lemma RefusedWrites(site: Site, w: nat, page: nat, version: nat, edit: Edit)
    ensures Delete(site, w, page, version).Failure? ==>
      var e := Delete(site, w, page, version).error;
      if w == 0 || page == 0 || version == 0 then e.InvalidInput?
      else if page !in site.pages || site.pages[page].workspace != w then e.NotFound?
      else e.Conflict?
    ensures Update(site, w, page, version, edit).Failure? ==>
      var e := Update(site, w, page, version, edit).error;
      if w == 0 || page == 0 || version == 0 || edit.Empty() || edit.title == Some(None) || edit.bio == Some(None)
         || (edit.links.Some? && NormalizeChildren(edit.links.value, false).Failure?) then e.InvalidInput?
      else if page !in site.pages || site.pages[page].workspace != w then e.NotFound?
      else if site.pages[page].deleted || site.pages[page].version != version then e.Conflict?
      else e.InvalidInput?
  {
    hide Acceptable, Owns;
  }
}
