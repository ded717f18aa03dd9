/** The bio store's operations and what every run of them keeps. */
module BioRuns {
  import opened Foundations
  import opened Sorting
  import opened BioPages
  import opened BioStore

  // ---------------------------------------------------------------- the store

  /** The loop of normalizeChildren, then its sort and its check that position i is at index i. */
  method NormalizeChildrenList(input: seq<Raw>, creating: bool) returns (r: Result<seq<Item>>)
    ensures r == NormalizeChildren(input, creating)
  {
    hide Sort, ItemOf;
    if |input| > MAX_CHILDREN { return Failure(InvalidInput); }
    var seenIds, seenPositions: set<nat> := {}, {};
    var result: seq<Item> := [];
    assert input[..0] == [];
    for i := 0 to |input|
      invariant forall k :: 0 <= k < i ==> Accepted(input[k]) && (creating ==> input[k].id == 0)
      invariant Distinct(input[..i])
      invariant forall x :: x in seenIds <==> exists k :: 0 <= k < i && input[k].id == x && x != 0
      invariant forall x :: x in seenPositions <==> exists k :: 0 <= k < i && input[k].position == x
      invariant |result| == i && forall k :: 0 <= k < i ==> result[k] == ItemOf(input[k])
    {
      var item := input[i];
      if creating && item.id != 0 { return Failure(InvalidInput); }
      if item.id != 0 {
        if item.id in seenIds {
          var k :| 0 <= k < i && input[k].id == item.id;
          return Failure(InvalidInput);
        }
        seenIds := seenIds + {item.id};
      }
      if item.position in seenPositions {
        var k :| 0 <= k < i && input[k].position == item.position;
        return Failure(InvalidInput);
      }
      seenPositions := seenPositions + {item.position};
      if item.text.None? { return Failure(InvalidInput); }
      if item.target.None? { return Failure(InvalidInput); }
      result := result + [ItemOf(item)];
      assert forall k :: 0 <= k < i ==> input[..i + 1][k] == input[..i][k];
    }
    assert input[..|input|] == input;
    assert forall x :: x in input ==> Accepted(x) && (creating ==> x.id == 0);
    assert result == ItemsOf(input);
    var sorted := Sort(ByPosition, result);
    for i := 0 to |sorted|
      invariant forall k :: 0 <= k < i ==> sorted[k].position == k
    {
      if sorted[i].position != i { return Failure(InvalidInput); }
    }
    return Success(sorted);
  }

  ghost predicate ChildrenOk(children: map<nat, Child>, pages: map<nat, Page>, nextChild: nat) {
    && nextChild > 0 && UniquePositions(children)
    && (forall id :: id in children ==>
      0 < id < nextChild && children[id].position < MAX_CHILDREN && children[id].page in pages)
  }

  /** A page's positions are 0, 1, ... without a gap. */
  ghost predicate NoGapsIn(children: map<nat, Child>) {
    forall id, p: nat :: id in children && p < children[id].position ==> At(children, children[id].page, p)
  }

  ghost predicate At(children: map<nat, Child>, page: nat, p: nat) {
    exists o :: o in children && children[o].page == page && children[o].position == p
  }

  function ActivePages(pages: map<nat, Page>, w: nat): set<nat> {
    set p | p in pages && pages[p].workspace == w && !pages[p].deleted
  }

  ghost predicate CountersOk(pages: map<nat, Page>, counters: map<nat, nat>, nextPage: nat, quota: nat) {
    && nextPage > 0 && (forall p :: p in pages ==> 0 < p < nextPage)
    && (forall w :: Counter(counters, w) == |ActivePages(pages, w)| <= quota)
  }

  ghost predicate SiteOk(site: Site, quota: nat) {
    && ChildrenOk(site.children, site.pages, site.nextChild) && NoGapsIn(site.children)
    && CountersOk(site.pages, site.counters, site.nextPage, quota)
  }

  class Store {
    const quota: nat
    var site: Site

    constructor (quota: nat)
      ensures this.quota == (if quota == 0 then 25 else quota)
      ensures site == Site(map[], map[], map[], 1, 1) && SiteOk(site, this.quota)
    {
      this.quota := if quota == 0 then 25 else quota;
      site := Site(map[], map[], map[], 1, 1);
      new;
      assert forall w :: ActivePages(site.pages, w) == {};
    }

    method Create(w: nat, title: Option<nat>, bio: Option<nat>, input: seq<Raw>) returns (r: Result<()>)
      requires SiteOk(site, quota)
      modifies this
      ensures var spec := BioPages.Create(old(site), w, title, bio, input, quota);
              && r == (if spec.Success? then Success(()) else Failure(spec.error))
              && site == if spec.Success? then spec.value else old(site)
    {
      if w == 0 || title.None? || bio.None? { return Failure(InvalidInput); }
      var items := NormalizeChildrenList(input, true);
      if items.Failure? { return Failure(items.error); }
      NormalizeMeaning(input, true);
      var used := Counter(site.counters, w);
      if used >= quota { return Failure(Conflict); }
      var page := site.nextPage;
      var tx := new ChildTable(site.children, site.nextChild);
      hide Placed, NormalizeChildren;
      var placed := tx.ReplaceChildren(page, items.value);
      var row := Page(w, 1, false, title.value, bio.value);
      site := Site(site.pages[page := row], tx.children, site.counters[w := used + 1], page + 1, tx.nextChild);
      return Success(());
    }

    method Update(w: nat, page: nat, version: nat, edit: Edit) returns (r: Result<()>)
      requires SiteOk(site, quota)
      modifies this
      ensures var spec := BioPages.Update(old(site), w, page, version, edit);
              && r == (if spec.Success? then Success(()) else Failure(spec.error))
              && site == if spec.Success? then spec.value else old(site)
    {
      hide Placed, NormalizeChildren, Owns, NoGapsIn, CountersOk, UniquePositions, InPlace;
      if edit.title.None? && edit.bio.None? && edit.links.None? { return Failure(InvalidInput); }
      if edit.title.Some? && edit.title.value.None? { return Failure(InvalidInput); }
      if edit.bio.Some? && edit.bio.value.None? { return Failure(InvalidInput); }
      var items: seq<Item> := [];
      if edit.links.Some? {
        var normalized := NormalizeChildrenList(edit.links.value, false);
        if normalized.Failure? { return Failure(normalized.error); }
        NormalizeMeaning(edit.links.value, false);
        items := normalized.value;
      }
      if w == 0 || page == 0 || version == 0 { return Failure(InvalidInput); }
      if page !in site.pages || site.pages[page].workspace != w { return Failure(NotFound); }
      var current := site.pages[page];
      if current.deleted { return Failure(Conflict); }
      if current.version != version { return Failure(Conflict); }
      var tx := new ChildTable(site.children, site.nextChild);
      if edit.links.Some? {
        var replaced := tx.ReplaceChildren(page, items);
        if replaced.Failure? { return Failure(replaced.error); }
      }
      var title := if edit.title.Some? then edit.title.value.value else current.title;
      var text := if edit.bio.Some? then edit.bio.value.value else current.bio;
      var row := current.(title := title, bio := text, version := current.version + 1);
      site := site.(pages := site.pages[page := row], children := tx.children, nextChild := tx.nextChild);
      return Success(());
    }

    method Delete(w: nat, page: nat, version: nat) returns (r: Result<()>)
      modifies this
      ensures var spec := BioPages.Delete(old(site), w, page, version);
              && r == (if spec.Success? then Success(()) else Failure(spec.error))
              && site == if spec.Success? then spec.value else old(site)
    {
      if w == 0 || page == 0 || version == 0 { return Failure(InvalidInput); }
      if page !in site.pages || site.pages[page].workspace != w { return Failure(NotFound); }
      var current := site.pages[page];
      if current.deleted || current.version != version { return Failure(Conflict); }
      site := site.(pages := site.pages[page := current.(deleted := true, version := version + 1)]);
      if w in site.counters {
        var count := site.counters[w];
        site := site.(counters := site.counters[w := if count > 0 then count - 1 else 0]);
      }
      return Success(());
    }

    method SyncChildRisk(child: nat, fingerprint: nat, risk: Risk, at: Option<Micros>) returns (r: Result<()>)
      modifies this
      ensures var spec := BioPages.SyncChildRisk(old(site), child, fingerprint, risk, at);
              && r == (if spec.Success? then Success(()) else Failure(spec.error))
              && site == if spec.Success? then spec.value else old(site)
    {
      if child == 0 || fingerprint == 0 { return Failure(InvalidInput); }
      if child in site.children && site.children[child].fingerprint == fingerprint {
        site := site.(children := site.children[child := site.children[child].(risk := risk, checkedAt := at)]);
      }
      return Success(());
    }
  }

  // ---------------------------------------------------------------- runs

  datatype Step =
    | Creating(workspace: nat, title: Option<nat>, bio: Option<nat>, input: seq<Raw>)
    | Updating(workspace: nat, page: nat, version: nat, edit: Edit)
    | Deleting(workspace: nat, page: nat, version: nat)
    | Syncing(child: nat, fingerprint: nat, risk: Risk, at: Option<Micros>)

  function OrSame(site: Site, r: Result<Site>): Site { if r.Success? then r.value else site }

  function Next(site: Site, step: Step, quota: nat): Site {
    match step
    case Creating(w, title, bio, input) => OrSame(site, Create(site, w, title, bio, input, quota))
    case Updating(w, page, version, edit) => OrSame(site, Update(site, w, page, version, edit))
    case Deleting(w, page, version) => OrSame(site, Delete(site, w, page, version))
    case Syncing(child, fingerprint, risk, at) => OrSame(site, SyncChildRisk(site, child, fingerprint, risk, at))
  }

  function Run(site: Site, steps: seq<Step>, quota: nat): Site {
    if steps == [] then site else Next(Run(site, steps[..|steps| - 1], quota), steps[|steps| - 1], quota)
  }

  /** One page's rows were replaced by a list; every other row is as before. */
  ghost predicate Relisted(children: map<nat, Child>, after: map<nat, Child>, page: nat, ids: seq<nat>) {
    && (forall i :: 0 <= i < |ids| ==> ids[i] in after && after[ids[i]].page == page && after[ids[i]].position == i)
    && (forall id :: id in after && after[id].page == page ==>
          after[id].position < |ids| && ids[after[id].position] == id)
    && (forall id :: id in after && after[id].page != page ==> id in children && after[id] == children[id])
    && (forall id :: id in children && children[id].page != page ==> id in after && after[id] == children[id])
  }

  lemma {:induction false} ListedRow(after: map<nat, Child>, page: nat, ids: seq<nat>, id: nat)
    requires forall i :: 0 <= i < |ids| ==> ids[i] in after && after[ids[i]].position == i
    requires id in ids
    ensures id in after && after[id].position < |ids| && ids[after[id].position] == id
  {
  }

  lemma {:induction false} PlacedRelists(children: map<nat, Child>, page: nat, items: seq<Item>, nextChild: nat)
    requires Placeable(children, page, items, nextChild)
    ensures Relisted(children, Placed(children, page, items, nextChild), page, RowIds(items, nextChild))
    ensures forall id :: id in RowIds(items, nextChild) ==> 0 < id < nextChild + NewRows(items)
  {
    hide Placed, RowIds, Placeable, NewRows, DistinctIds, RowFor;
    var (ids, after) := (RowIds(items, nextChild), Placed(children, page, items, nextChild));
    PlacedMeaning(children, page, items, nextChild);
    RowIdFacts(children, page, items, nextChild);
    forall id | id in after && after[id].page == page
      ensures after[id].position < |ids| && ids[after[id].position] == id
    {
      ListedRow(after, page, ids, id);
    }
    forall i | 0 <= i < |ids|
      ensures ids[i] in after && after[ids[i]].page == page && after[ids[i]].position == i
    {
      assert ids[i] in ids;
    }
  }

  lemma {:induction false} RelistedNoGaps(children: map<nat, Child>, after: map<nat, Child>, page: nat, ids: seq<nat>)
    requires Relisted(children, after, page, ids) && NoGapsIn(children)
    ensures NoGapsIn(after)
  {
    forall id, p: nat | id in after && p < after[id].position
      ensures At(after, after[id].page, p)
    {
      if after[id].page == page {
        assert ids[p] in after;
      } else {
        assert At(children, children[id].page, p);
        var o :| o in children && children[o].page == children[id].page && children[o].position == p;
        assert o in after && after[o] == children[o];
      }
    }
  }

  lemma {:induction false} RelistedUnique(children: map<nat, Child>, after: map<nat, Child>, page: nat, ids: seq<nat>)
    requires Relisted(children, after, page, ids) && UniquePositions(children)
    ensures UniquePositions(after)
  {
  }

  lemma {:induction false} PlaceableWhen(children: map<nat, Child>, pages: map<nat, Page>, page: nat,
      items: seq<Item>, nextChild: nat)
    requires ChildrenOk(children, pages, nextChild) && InPlace(items) && Owns(children, page, items)
    requires forall i, j :: 0 <= i < j < |items| && items[i].id != 0 ==> items[i].id != items[j].id
    ensures Placeable(children, page, items, nextChild)
  {
  }

  /** Placing a normalised list keeps every page's positions unique and without gaps. */
  lemma {:induction false} PlacedOk(children: map<nat, Child>, pages: map<nat, Page>, page: nat, items: seq<Item>,
      nextChild: nat)
    requires ChildrenOk(children, pages, nextChild) && NoGapsIn(children) && page in pages
    requires InPlace(items) && |items| <= MAX_CHILDREN && Owns(children, page, items)
    requires forall i, j :: 0 <= i < j < |items| && items[i].id != 0 ==> items[i].id != items[j].id
    ensures ChildrenOk(Placed(children, page, items, nextChild), pages, nextChild + NewRows(items))
    ensures NoGapsIn(Placed(children, page, items, nextChild))
  {
    hide Placed, RowIds, Placeable, Owns, InPlace, NoGapsIn, UniquePositions, NewRows;
    var (ids, after) := (RowIds(items, nextChild), Placed(children, page, items, nextChild));
    PlaceableWhen(children, pages, page, items, nextChild);
    PlacedRelists(children, page, items, nextChild);
    RelistedNoGaps(children, after, page, ids);
    RelistedUnique(children, after, page, ids);
    forall id | id in after && after[id].page == page
      ensures id in ids
    {
      assert ids[after[id].position] == id;
    }
  }

  lemma {:induction false} PagesGrow(children: map<nat, Child>, pages: map<nat, Page>, page: nat, row: Page,
      nextChild: nat)
    requires ChildrenOk(children, pages, nextChild)
    ensures ChildrenOk(children, pages[page := row], nextChild)
  {
  }

  lemma {:induction false} CountersAfter(pages: map<nat, Page>, pages': map<nat, Page>, counters: map<nat, nat>, counters': map<nat, nat>,
                                       nextPage: nat, nextPage': nat, quota: nat, w: nat, added: set<nat>)
    requires CountersOk(pages, counters, nextPage, quota) && nextPage <= nextPage' && |added| <= 1
    requires forall p :: p in pages' ==> 0 < p < nextPage'
    requires added !! ActivePages(pages, w)
    requires forall v: nat :: ActivePages(pages', v) == ActivePages(pages, v) + if v == w then added else {}
    requires forall v: nat :: Counter(counters', v) == Counter(counters, v) + if v == w then |added| else 0
    requires Counter(counters, w) + |added| <= quota
    ensures CountersOk(pages', counters', nextPage', quota)
  {
  }

  lemma {:induction false} AllNew(children: map<nat, Child>, page: nat, items: seq<Item>)
    requires forall i :: 0 <= i < |items| ==> items[i].id == 0
    ensures Owns(children, page, items)
    ensures forall i, j :: 0 <= i < j < |items| && items[i].id != 0 ==> items[i].id != items[j].id
  {
  }

  lemma {:induction false} PageAdded(pages: map<nat, Page>, page: nat, row: Page, v: nat)
    requires page !in pages && !row.deleted
    ensures ActivePages(pages[page := row], v) == ActivePages(pages, v) + if v == row.workspace then {page} else {}
    ensures page !in ActivePages(pages, v)
  {
  }

  lemma {:induction false} CreateKeepsSite(site: Site, w: nat, title: Option<nat>, bio: Option<nat>, input: seq<Raw>,
      quota: nat)
    requires SiteOk(site, quota) && Create(site, w, title, bio, input, quota).Success?
    ensures SiteOk(Create(site, w, title, bio, input, quota).value, quota)
  {
    hide Placed, NormalizeChildren, NoGapsIn, InPlace, Owns, ActivePages, UniquePositions;
    var items := NormalizeChildren(input, true).value;
    var page := site.nextPage;
    var row := Page(w, 1, false, title.value, bio.value);
    var pages := site.pages[page := row];
    NormalizeMeaning(input, true);
    AllNew(site.children, page, items);
    PagesGrow(site.children, site.pages, page, row, site.nextChild);
    forall v: nat
      ensures ActivePages(pages, v) == ActivePages(site.pages, v) + if v == w then {page} else {}
      ensures page !in ActivePages(site.pages, v)
    {
      PageAdded(site.pages, page, row, v);
    }
    CountersAfter(site.pages, pages, site.counters, site.counters[w := Counter(site.counters, w) + 1], page,
      page + 1, quota, w, {page});
    hide CountersOk, ChildrenOk;
    PlacedOk(site.children, pages, page, items, site.nextChild);
  }

  lemma {:induction false} PageBumped(pages: map<nat, Page>, page: nat, row: Page, v: nat)
    requires page in pages && row.workspace == pages[page].workspace && row.deleted == pages[page].deleted
    ensures ActivePages(pages[page := row], v) == ActivePages(pages, v)
  {
  }

  lemma {:induction false} UpdateKeepsSite(site: Site, w: nat, page: nat, version: nat, edit: Edit, quota: nat)
    requires SiteOk(site, quota) && Update(site, w, page, version, edit).Success?
    ensures SiteOk(Update(site, w, page, version, edit).value, quota)
  {
    hide Placed, NormalizeChildren, NoGapsIn, InPlace, Owns, ActivePages, UniquePositions;
    var (row, links) := (Edited(site.pages[page], edit), edit.links);
    var pages := site.pages[page := row];
    forall v: nat
      ensures ActivePages(pages, v) == ActivePages(site.pages, v)
    {
      PageBumped(site.pages, page, row, v);
    }
    CountersAfter(site.pages, pages, site.counters, site.counters, site.nextPage, site.nextPage, quota, w, {});
    PagesGrow(site.children, site.pages, page, row, site.nextChild);
    hide ChildrenOk, CountersOk;
    if links.Some? {
      NormalizeMeaning(links.value, false);
      PlacedOk(site.children, pages, page, NormalizeChildren(links.value, false).value, site.nextChild);
    }
  }

  lemma {:induction false} DeleteKeepsSite(site: Site, w: nat, page: nat, version: nat, quota: nat)
    requires SiteOk(site, quota) && Delete(site, w, page, version).Success?
    ensures SiteOk(Delete(site, w, page, version).value, quota)
    ensures Counter(site.counters, w) > 0
  {
    hide UniquePositions, NoGapsIn;
    var row := site.pages[page].(deleted := true, version := version + 1);
    var pages := site.pages[page := row];
    PagesGrow(site.children, site.pages, page, row, site.nextChild);
    assert page in ActivePages(site.pages, w);
    forall v: nat
      ensures ActivePages(pages, v) == ActivePages(site.pages, v) - if v == w then {page} else {}
    {
    }
  }

  lemma {:induction false} NextKeepsSite(site: Site, step: Step, quota: nat)
    requires SiteOk(site, quota)
    ensures SiteOk(Next(site, step, quota), quota)
  {
    hide Create, Update, Delete;
    match step
    case Creating(w, title, bio, input) =>
      if Create(site, w, title, bio, input, quota).Success? { CreateKeepsSite(site, w, title, bio, input, quota); }
    case Updating(w, page, version, edit) =>
      if Update(site, w, page, version, edit).Success? { UpdateKeepsSite(site, w, page, version, edit, quota); }
    case Deleting(w, page, version) => if Delete(site, w, page, version).Success? { DeleteKeepsSite(site, w, page, version, quota); }
    case Syncing(child, fingerprint, risk, at) => SyncKeepsSite(site, child, fingerprint, risk, at, quota);
  }

  lemma {:induction false} SyncKeepsSite(site: Site, child: nat, fingerprint: nat, risk: Risk, at: Option<Micros>,
      quota: nat)
    requires SiteOk(site, quota)
    ensures SiteOk(OrSame(site, SyncChildRisk(site, child, fingerprint, risk, at)), quota)
  {
    hide CountersOk;
    var children' := OrSame(site, SyncChildRisk(site, child, fingerprint, risk, at)).children;
    forall id, p: nat | id in children' && p < children'[id].position
      ensures At(children', children'[id].page, p)
    {
      assert At(site.children, site.children[id].page, p);
      var o :| o in site.children && site.children[o].page == site.children[id].page && site.children[o].position == p;
      assert o in children' && children'[o].page == children'[id].page && children'[o].position == p;
    }
  }

  /**
   * In every state of every run each page's children sit at positions 0, 1, ... once each, the counter
   * of a workspace is the number of its undeleted pages, and that never exceeds the quota.
   */
  lemma {:induction false} RunKeepsSite(site: Site, steps: seq<Step>, quota: nat)
    requires SiteOk(site, quota)
    ensures SiteOk(Run(site, steps, quota), quota)
  {
    hide SiteOk, Next;
    if steps != [] {
      RunKeepsSite(site, steps[..|steps| - 1], quota);
      NextKeepsSite(Run(site, steps[..|steps| - 1], quota), steps[|steps| - 1], quota);
    }
  }

  // ---------------------------------------------------------------- approvals

  datatype Ruling = Ruling(child: nat, fingerprint: nat, risk: Risk)

  function RuledBy(step: Step): set<Ruling> {
    if step.Syncing? then {Ruling(step.child, step.fingerprint, step.risk)} else {}
  }

  /** The risk decisions of a run. */
  function Rulings(steps: seq<Step>): set<Ruling> {
    if steps == [] then {} else Rulings(steps[..|steps| - 1]) + RuledBy(steps[|steps| - 1])
  }

  ghost predicate RuledOnly(children: map<nat, Child>, rulings: set<Ruling>) {
    forall id :: id in children && !children[id].risk.Review? ==>
      Ruling(id, children[id].fingerprint, children[id].risk) in rulings
  }

  lemma {:induction false} PlacedRulings(children: map<nat, Child>, page: nat, items: seq<Item>, nextChild: nat,
      rulings: set<Ruling>)
    requires Placeable(children, page, items, nextChild) && RuledOnly(children, rulings)
    ensures RuledOnly(Placed(children, page, items, nextChild), rulings)
  {
    var after := Placed(children, page, items, nextChild);
    PlacedMeaning(children, page, items, nextChild);
    forall id | id in after && !after[id].risk.Review?
      ensures Ruling(id, after[id].fingerprint, after[id].risk) in rulings
    {
      if after[id].page == page {
        var i :| 0 <= i < |items| && RowIds(items, nextChild)[i] == id;
        ApprovalCarried(children, page, items, nextChild, i);
      }
    }
  }

  lemma {:induction false} NextRulings(site: Site, step: Step, quota: nat, rulings: set<Ruling>)
    requires SiteOk(site, quota) && RuledOnly(site.children, rulings)
    ensures RuledOnly(Next(site, step, quota).children, rulings + RuledBy(step))
  {
    hide Placed, NormalizeChildren, Placeable;
    match step
    case Creating(w, title, bio, input) =>
      if Create(site, w, title, bio, input, quota).Success? {
        NormalizeMeaning(input, true);
        PlaceableWhen(site.children, site.pages, site.nextPage, NormalizeChildren(input, true).value, site.nextChild);
        PlacedRulings(site.children, site.nextPage, NormalizeChildren(input, true).value, site.nextChild, rulings);
      }
    case Updating(w, page, version, edit) =>
      var links := edit.links;
      if Update(site, w, page, version, edit).Success? && links.Some? {
        NormalizeMeaning(links.value, false);
        PlaceableWhen(site.children, site.pages, page, NormalizeChildren(links.value, false).value, site.nextChild);
        PlacedRulings(site.children, page, NormalizeChildren(links.value, false).value, site.nextChild, rulings);
      }
    case Deleting(_, _, _) =>
    case Syncing(_, _, _, _) =>
  }

  /**
   * Over any run a child that is allowed, or blocked, shows a destination that was itself allowed, or blocked,
   * for that very child: editing the destination, reordering, or a late decision about an old one never lets
   * another through.
   */
  lemma {:induction false} AllowedMeansApproved(steps: seq<Step>, quota: nat)
    ensures var empty := Site(map[], map[], map[], 1, 1);
            RuledOnly(Run(empty, steps, quota).children, Rulings(steps))
  {
    var empty := Site(map[], map[], map[], 1, 1);
    assert forall w :: ActivePages(empty.pages, w) == {};
    if steps != [] {
      hide SiteOk, Next, RuledOnly;
      var before := steps[..|steps| - 1];
      AllowedMeansApproved(before, quota);
      EmptySite(quota);
      RunKeepsSite(empty, before, quota);
      NextRulings(Run(empty, before, quota), steps[|steps| - 1], quota, Rulings(before));
    }
  }

  lemma {:induction false} EmptySite(quota: nat)
    ensures SiteOk(Site(map[], map[], map[], 1, 1), quota)
  {
  }
}
