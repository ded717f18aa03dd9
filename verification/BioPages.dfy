/** Bio pages and their ordered child links: what each operation leaves (internal/bio/store.go). */
module BioPages {
  import opened Foundations
  import opened Sorting

  const MAX_CHILDREN: nat := 100
  const SHIFT: nat := 1_000_000

  datatype Risk = Review | Allowed | Blocked

  datatype Child = Child(page: nat, position: nat, text: nat, url: nat, fingerprint: nat, risk: Risk,
    checkedAt: Option<Micros>)

  /** A child as submitted: text and target are what the normalisers returned, if they accepted it. */
  datatype Raw = Raw(id: nat, position: nat, text: Option<nat>, target: Option<Target>)

  datatype Target = Target(url: nat, fingerprint: nat)

  /** A normalised child; id 0 asks for a new row. */
  datatype Item = Item(id: nat, position: nat, text: nat, url: nat, fingerprint: nat)

  datatype Page = Page(workspace: nat, version: nat, deleted: bool, title: nat, bio: nat)

  /** What an update asks for: a part it leaves out is None, and a text its normaliser refuses is Some(None). */
  datatype Edit = Edit(title: Option<Option<nat>>, bio: Option<Option<nat>>, links: Option<seq<Raw>>) {
    predicate Empty() { title.None? && bio.None? && links.None? }

    predicate Refused() { title == Some(None) || bio == Some(None) }
  }

  datatype Site = Site(
    pages: map<nat, Page>,
    children: map<nat, Child>,
    counters: map<nat, nat>,
    nextPage: nat,
    nextChild: nat)

  // ---------------------------------------------------------------- normalizing a child list

  predicate Accepted(r: Raw) { r.text.Some? && r.target.Some? }

  function ItemOf(r: Raw): Item
    requires Accepted(r)
  {
    Item(r.id, r.position, r.text.value, r.target.value.url, r.target.value.fingerprint)
  }

  function ItemsOf(input: seq<Raw>): (r: seq<Item>)
    requires forall x :: x in input ==> Accepted(x)
    ensures |r| == |input| && forall i :: 0 <= i < |input| ==> r[i] == ItemOf(input[i])
  {
    if input == [] then [] else ItemsOf(input[..|input| - 1]) + [ItemOf(input[|input| - 1])]
  }

  predicate ByPosition(a: Item, b: Item) { a.position < b.position }

  /** Ids repeat only where they are 0; positions never do. */
  predicate Distinct(input: seq<Raw>) {
    forall i, j :: 0 <= i < j < |input| ==>
      input[i].position != input[j].position && (input[i].id != 0 ==> input[i].id != input[j].id)
  }

  predicate InPlace(items: seq<Item>) { forall i :: 0 <= i < |items| ==> items[i].position == i }

  predicate Acceptable(input: seq<Raw>, creating: bool) {
    && |input| <= MAX_CHILDREN
    && (forall r :: r in input ==> Accepted(r) && (creating ==> r.id == 0))
    && Distinct(input)
    && InPlace(Sort(ByPosition, ItemsOf(input)))
  }

  /** normalizeChildren. */
  function NormalizeChildren(input: seq<Raw>, creating: bool): Result<seq<Item>> {
    if Acceptable(input, creating) then Success(Sort(ByPosition, ItemsOf(input))) else Failure(InvalidInput)
  }

  lemma {:induction false} PositionOrder()
    ensures StrictWeakOrder(ByPosition)
  {
  }

  /** The item is the submitted child as the normalisers returned it. */
  predicate IsItem(item: Item, raw: Raw) {
    && item.id == raw.id && item.position == raw.position && Some(item.text) == raw.text
    && raw.target.Some? && item.url == raw.target.value.url && item.fingerprint == raw.target.value.fingerprint
  }

  /** The items of an accepted list are the submitted ones, each at its own position, with distinct ids. */
  lemma {:induction false} NormalizeMeaning(input: seq<Raw>, creating: bool)
    requires NormalizeChildren(input, creating).Success?
    ensures var items := NormalizeChildren(input, creating).value;
            && |items| == |input| <= MAX_CHILDREN && InPlace(items)
            && multiset(items) == multiset(ItemsOf(input))
            && (forall i, j :: 0 <= i < j < |items| && items[i].id != 0 ==> items[i].id != items[j].id)
            && (creating ==> forall i :: 0 <= i < |items| ==> items[i].id == 0)
  {
    PositionOrder();
    var items := Sort(ByPosition, ItemsOf(input));
    SortCorrect(ByPosition, ItemsOf(input));
    forall i | 0 <= i < |items|
      ensures exists k :: 0 <= k < |input| && items[i] == ItemOf(input[k])
    {
      assert items[i] in ItemsOf(input);
    }
    forall i, j | 0 <= i < j < |items| && items[i].id != 0
      ensures items[i].id != items[j].id
    {
      var k :| 0 <= k < |input| && items[i] == ItemOf(input[k]);
      var l :| 0 <= l < |input| && items[j] == ItemOf(input[l]);
      assert k != l;
    }
  }

  predicate HasPosition(input: seq<Raw>, p: nat) { exists k :: 0 <= k < |input| && input[k].position == p }

  lemma {:induction false} StrictlySorted(input: seq<Raw>)
    requires (forall r :: r in input ==> Accepted(r)) && Distinct(input)
    ensures var items := Sort(ByPosition, ItemsOf(input));
            && |items| == |input| && (forall x :: x in items <==> x in ItemsOf(input))
            && forall a, b :: 0 <= a < b < |items| ==> items[a].position < items[b].position
  {
    PositionOrder();
    var raw := ItemsOf(input);
    var items := Sort(ByPosition, raw);
    SortCorrect(ByPosition, raw);
    forall a, b | 0 <= a < b < |items|
      ensures items[a].position < items[b].position
    {
      assert !ByPosition(items[b], items[a]);
      if items[a].position == items[b].position {
        assert items[a] in raw && items[b] in raw;
        var k :| 0 <= k < |raw| && raw[k] == items[a];
        var l :| 0 <= l < |raw| && raw[l] == items[b];
        assert k == l;
        TwiceInOnce(items, raw, a, b, k);
      }
    }
  }

  /** An element that occurs twice in a permutation occurs twice in the original. */
  lemma {:induction false} TwiceInOnce(items: seq<Item>, raw: seq<Item>, a: nat, b: nat, k: nat)
    requires multiset(items) == multiset(raw) && a < b < |items| && items[a] == items[b] && k < |raw|
      && raw[k] == items[a]
    ensures exists l :: 0 <= l < |raw| && l != k && raw[l] == raw[k]
  {
    assert items == items[..a] + [items[a]] + items[a + 1..b] + [items[b]] + items[b + 1..];
    assert multiset(items)[items[a]] >= 2;
    assert raw == raw[..k] + [raw[k]] + raw[k + 1..];
    assert raw[k] in raw[..k] || raw[k] in raw[k + 1..];
    if raw[k] in raw[..k] {
      var l :| 0 <= l < k && raw[..k][l] == raw[k];
    } else {
      var l :| 0 <= l < |raw[k + 1..]| && raw[k + 1..][l] == raw[k];
      assert raw[k + 1 + l] == raw[k];
    }
  }

  /** Strictly increasing positions that leave out none below the count are 0, 1, ... */
  lemma {:induction false} NoGaps(input: seq<Raw>, items: seq<Item>, i: nat)
    requires (forall r :: r in input ==> Accepted(r)) && |items| == |input| && i <= |items|
    requires forall x :: x in items <==> x in ItemsOf(input)
    requires forall a, b :: 0 <= a < b < |items| ==> items[a].position < items[b].position
    requires forall p: nat | p < |input| :: HasPosition(input, p)
    ensures forall j :: 0 <= j < i ==> items[j].position == j
  {
    if i > 0 {
      NoGaps(input, items, i - 1);
      assert HasPosition(input, i - 1);
      var k :| 0 <= k < |input| && input[k].position == i - 1;
      assert ItemsOf(input)[k] in items;
      var j :| 0 <= j < |items| && items[j] == ItemsOf(input)[k];
      assert i >= 2 ==> items[i - 2].position == i - 2;
    }
  }

  /** A list is accepted exactly when it is short, clean, and its positions are 0, 1, ... in some order. */
  lemma {:induction false} AcceptedExactly(input: seq<Raw>, creating: bool)
    ensures NormalizeChildren(input, creating).Success? <==>
      && |input| <= 100
      && (forall r :: r in input ==> r.text.Some? && r.target.Some? && (creating ==> r.id == 0))
      && (forall i, j :: 0 <= i < j < |input| ==>
            input[i].position != input[j].position && (input[i].id != 0 ==> input[i].id != input[j].id))
      && (forall p: nat | p < |input| :: HasPosition(input, p))
  {
    if (forall r :: r in input ==> Accepted(r)) && Distinct(input) {
      var items := Sort(ByPosition, ItemsOf(input));
      StrictlySorted(input);
      if InPlace(items) {
        forall p: nat | p < |input|
          ensures HasPosition(input, p)
        {
          assert items[p] in ItemsOf(input);
        }
      } else if forall p: nat | p < |input| :: HasPosition(input, p) {
        NoGaps(input, items, |items|);
      }
    }
  }

  /** Each submitted child of an accepted list is the item at its position, and each position has one. */
  lemma {:induction false} ItemsAtPositions(input: seq<Raw>, creating: bool)
    requires NormalizeChildren(input, creating).Success?
    ensures var items := NormalizeChildren(input, creating).value;
            && |items| == |input|
            && (forall k :: 0 <= k < |input| ==>
              input[k].position < |items| && IsItem(items[input[k].position], input[k]))
            && (forall p: nat | p < |input| :: HasPosition(input, p))
  {
    AcceptedExactly(input, creating);
    NormalizeMeaning(input, creating);
    StrictlySorted(input);
    hide Sort, Distinct, StrictWeakOrder;
    var items := NormalizeChildren(input, creating).value;
    forall k | 0 <= k < |input|
      ensures input[k].position < |items| && IsItem(items[input[k].position], input[k])
    {
      assert ItemsOf(input)[k] in items;
      var i :| 0 <= i < |items| && items[i] == ItemOf(input[k]);
    }
  }

  // ---------------------------------------------------------------- the new child rows

  /** An approval survives exactly an unchanged destination. */
  function RowFor(children: map<nat, Child>, page: nat, item: Item): Child {
    if item.id in children && item.id != 0 && children[item.id].fingerprint == item.fingerprint
    then Child(page, item.position, item.text, item.url, item.fingerprint, children[item.id].risk,
      children[item.id].checkedAt)
    else Child(page, item.position, item.text, item.url, item.fingerprint, Review, None)
  }

  function NewRows(items: seq<Item>): nat {
    if items == [] then 0 else NewRows(items[..|items| - 1]) + if items[|items| - 1].id == 0 then 1 else 0
  }

  /** The row ids of the items: an item's own, or the next free one. */
  function RowIds(items: seq<Item>, nextChild: nat): (r: seq<nat>)
    ensures |r| == |items|
  {
    if items == [] then []
    else
      var n := |items| - 1;
      RowIds(items[..n], nextChild) + [if items[n].id != 0 then items[n].id else nextChild + NewRows(items[..n])]
  }

  function RowsFor(children: map<nat, Child>, page: nat, items: seq<Item>): (r: seq<Child>)
    ensures |r| == |items|
    ensures forall i :: 0 <= i < |items| ==> r[i] == RowFor(children, page, items[i])
  {
    if items == [] then []
    else RowsFor(children, page, items[..|items| - 1]) + [RowFor(children, page, items[|items| - 1])]
  }

  function Others(children: map<nat, Child>, page: nat): map<nat, Child> {
    map id | id in children && children[id].page != page :: children[id]
  }

  function PutAll(base: map<nat, Child>, ids: seq<nat>, rows: seq<Child>): map<nat, Child>
    requires |ids| == |rows|
  {
    if ids == [] then base
    else
      var n := |ids| - 1;
      PutAll(base, ids[..n], rows[..n])[ids[n] := rows[n]]
  }

  /** The children table after a page's list became items. */
  function Placed(children: map<nat, Child>, page: nat, items: seq<Item>, nextChild: nat): map<nat, Child> {
    PutAll(Others(children, page), RowIds(items, nextChild), RowsFor(children, page, items))
  }

  predicate Owns(children: map<nat, Child>, page: nat, items: seq<Item>) {
    forall i :: 0 <= i < |items| && items[i].id != 0 ==> items[i].id in children && children[items[i].id].page == page
  }

  // ---------------------------------------------------------------- operations

  function Counter(counters: map<nat, nat>, w: nat): nat { if w in counters then counters[w] else 0 }

  /** Create; title and biography as their normalisers returned them, if they accepted them. */
  function Create(site: Site, w: nat, title: Option<nat>, bio: Option<nat>, input: seq<Raw>, quota: nat): Result<Site> {
    if w == 0 || title.None? || bio.None? then Failure(InvalidInput)
    else
      var items :- NormalizeChildren(input, true);
      if Counter(site.counters, w) >= quota then Failure(Conflict)
      else
        Success(Site(site.pages[site.nextPage := Page(w, 1, false, title.value, bio.value)],
                     Placed(site.children, site.nextPage, items, site.nextChild),
                     site.counters[w := Counter(site.counters, w) + 1],
                     site.nextPage + 1, site.nextChild + NewRows(items)))
  }

  /** Which page a write is for, or why it is refused. */
  function Locked(site: Site, w: nat, page: nat, version: nat): Result<Page> {
    if w == 0 || page == 0 || version == 0 then Failure(InvalidInput)
    else if page !in site.pages || site.pages[page].workspace != w then Failure(NotFound)
    else if site.pages[page].deleted || site.pages[page].version != version then Failure(Conflict)
    else Success(site.pages[page])
  }

  /** The page row after an accepted edit. */
  function Edited(page: Page, edit: Edit): Page
    requires !edit.Refused()
  {
    page.(version := page.version + 1,
          title := if edit.title.Some? then edit.title.value.value else page.title,
          bio := if edit.bio.Some? then edit.bio.value.value else page.bio)
  }

  function Update(site: Site, w: nat, page: nat, version: nat, edit: Edit): Result<Site> {
    if edit.Empty() || edit.Refused() then Failure(InvalidInput)
    else
      var items :- if edit.links.None? then Success([]) else NormalizeChildren(edit.links.value, false);
      var current :- Locked(site, w, page, version);
      var bumped := site.pages[page := Edited(current, edit)];
      if edit.links.None? then Success(site.(pages := bumped))
      else if !Owns(site.children, page, items) then Failure(InvalidInput)
      else
        Success(site.(pages := bumped, children := Placed(site.children, page, items, site.nextChild),
                      nextChild := site.nextChild + NewRows(items)))
  }

  function Delete(site: Site, w: nat, page: nat, version: nat): Result<Site> {
    var current :- Locked(site, w, page, version);
    var count := Counter(site.counters, w);
    Success(site.(pages := site.pages[page := current.(deleted := true, version := version + 1)],
                  counters := if w in site.counters then site.counters[w := if count > 0 then count - 1 else 0]
                    else site.counters))
  }

  /** SyncChildRisk: a decision for a destination the child no longer has is ignored. */
  function SyncChildRisk(site: Site, child: nat, fingerprint: nat, risk: Risk, at: Option<Micros>): Result<Site> {
    if child == 0 || fingerprint == 0 then Failure(InvalidInput)
    else if child !in site.children || site.children[child].fingerprint != fingerprint then Success(site)
    else Success(site.(children := site.children[child := site.children[child].(risk := risk, checkedAt := at)]))
  }
}
