/** The statements of the bio store, and what holds of every site they can produce. */
module BioStore {
  import opened Foundations
  import opened Sorting
  import opened BioPages

  // ---------------------------------------------------------------- what a placed list is

  /**
   * Rows and ids are as the operations need them: old ids are below the next one, listed ids are the page's
   * and distinct.
   */
  ghost predicate Placeable(children: map<nat, Child>, page: nat, items: seq<Item>, nextChild: nat) {
    && nextChild > 0 && (forall id :: id in children ==> 0 < id < nextChild)
    && InPlace(items) && Owns(children, page, items)
    && (forall i, j :: 0 <= i < j < |items| && items[i].id != 0 ==> items[i].id != items[j].id)
  }

  ghost predicate DistinctIds(ids: seq<nat>) { forall i, j :: 0 <= i < j < |ids| ==> ids[i] != ids[j] }

  lemma {:induction false} PutAllMeaning(base: map<nat, Child>, ids: seq<nat>, rows: seq<Child>)
    requires |ids| == |rows| && DistinctIds(ids)
    ensures var after := PutAll(base, ids, rows);
            && (forall i :: 0 <= i < |ids| ==> ids[i] in after && after[ids[i]] == rows[i])
            && (forall id :: id in after <==> id in base || id in ids)
            && (forall id :: id in base && id !in ids ==> after[id] == base[id])
  {
    if ids != [] {
      var n := |ids| - 1;
      PutAllMeaning(base, ids[..n], rows[..n]);
      assert ids == ids[..n] + [ids[n]];
    }
  }

  /** New rows get fresh, increasing ids; kept rows their own. */
  lemma {:induction false} RowIdFacts(children: map<nat, Child>, page: nat, items: seq<Item>, nextChild: nat)
    requires Placeable(children, page, items, nextChild)
    ensures var ids := RowIds(items, nextChild);
            && DistinctIds(ids)
            && (forall i :: 0 <= i < |ids| ==> 0 < ids[i] < nextChild + NewRows(items))
            && (forall i :: 0 <= i < |ids| && items[i].id == 0 ==> nextChild <= ids[i] && ids[i] !in children)
            && (forall i :: 0 <= i < |ids| && items[i].id != 0 ==> ids[i] == items[i].id)
  {
    if items != [] {
      var n := |items| - 1;
      assert Placeable(children, page, items[..n], nextChild);
      RowIdFacts(children, page, items[..n], nextChild);
    }
  }

  /**
   * The final list: item i is the page's one row at position i, under its own id when it had one and a
   * fresh id otherwise, the page has no other row, and no other page's row changed.
   */
  lemma {:induction false} PlacedMeaning(children: map<nat, Child>, page: nat, items: seq<Item>, nextChild: nat)
    requires Placeable(children, page, items, nextChild)
    ensures var (ids, after) := (RowIds(items, nextChild), Placed(children, page, items, nextChild));
            && (forall i :: 0 <= i < |items| ==>
                  && ids[i] in after && after[ids[i]] == RowFor(children, page, items[i])
                  && after[ids[i]].page == page && after[ids[i]].position == i
                  && after[ids[i]].text == items[i].text && after[ids[i]].url == items[i].url
                  && after[ids[i]].fingerprint == items[i].fingerprint)
            && (forall id :: id in after && after[id].page == page <==> id in ids)
            && (forall id :: id in after && after[id].page != page ==> id in children && after[id] == children[id])
            && (forall id :: id in children && children[id].page != page ==> id in after && after[id] == children[id])
  {
    hide PutAll, RowIds, RowsFor, NewRows, DistinctIds;
    RowIdFacts(children, page, items, nextChild);
    PutAllMeaning(Others(children, page), RowIds(items, nextChild), RowsFor(children, page, items));
  }

  /** An approval is carried over exactly when the row is kept and its destination did not change. */
  lemma {:induction false} ApprovalCarried(children: map<nat, Child>, page: nat, items: seq<Item>, nextChild: nat,
      i: nat)
    requires Placeable(children, page, items, nextChild) && i < |items|
    ensures var (id, after) := (RowIds(items, nextChild)[i], Placed(children, page, items, nextChild));
            && id in after
            && (after[id].risk != Review || after[id].checkedAt.Some? ==>
                  id == items[i].id && id in children && children[id].fingerprint == after[id].fingerprint
                  && after[id].risk == children[id].risk && after[id].checkedAt == children[id].checkedAt)
            && (items[i].id != 0 && children[items[i].id].fingerprint == items[i].fingerprint ==>
                  after[id].risk == children[items[i].id].risk
                    && after[id].checkedAt == children[items[i].id].checkedAt)
  {
    PlacedMeaning(children, page, items, nextChild);
    RowIdFacts(children, page, items, nextChild);
    hide Placed, RowIds;
  }

  // ---------------------------------------------------------------- every intermediate row state

  /** uq_bio_child_position. */
  ghost predicate UniquePositions(children: map<nat, Child>) {
    forall a, b :: a in children && b in children && a != b && children[a].page == children[b].page ==>
      children[a].position != children[b].position
  }

  /** No other row of the page sits at the position. */
  ghost predicate FreeFor(children: map<nat, Child>, id: nat, page: nat, position: nat) {
    forall o :: o in children && o != id && children[o].page == page ==> children[o].position != position
  }

  function PageRows(children: map<nat, Child>, page: nat): set<nat> {
    set id | id in children && children[id].page == page
  }

  function ShiftRows(children: map<nat, Child>, ids: set<nat>): map<nat, Child> {
    map id | id in children :: if id in ids then children[id].(position := children[id].position + SHIFT)
      else children[id]
  }

  function Shifted(children: map<nat, Child>, page: nat): map<nat, Child> {
    ShiftRows(children, PageRows(children, page))
  }

  lemma {:induction false} ShiftNone(children: map<nat, Child>)
    ensures ShiftRows(children, {}) == children
  {
  }

  lemma {:induction false} ShiftOneMore(children: map<nat, Child>, done: set<nat>, id: nat)
    requires id in children && id !in done
    ensures ShiftRows(children, done)[id := children[id].(position := children[id].position + SHIFT)]
      == ShiftRows(children, done + {id})
    ensures id in ShiftRows(children, done) && ShiftRows(children, done)[id] == children[id]
  {
  }

  /**
   * A row moved out of the way meets no other: unshifted rows are below the shift, shifted ones keep their
   * distances.
   */
  lemma {:induction false} ShiftIsFree(children: map<nat, Child>, done: set<nat>, id: nat)
    requires UniquePositions(children) && id in children && id !in done
    requires forall o :: o in children && children[o].page == children[id].page ==> children[o].position < SHIFT
    ensures FreeFor(ShiftRows(children, done), id, children[id].page, children[id].position + SHIFT)
  {
  }

  /** Partway through the list, with the other old rows shifted away, the next position is free. */
  lemma {:induction false} NextIsFree(children: map<nat, Child>, page: nat, items: seq<Item>, nextChild: nat, i: nat)
    requires Placeable(children, page, items, nextChild) && |items| <= MAX_CHILDREN && i < |items|
    ensures var (ids, rows) := (RowIds(items, nextChild), RowsFor(children, page, items));
            FreeFor(PutAll(Shifted(children, page), ids[..i], rows[..i]), ids[i], page, i)
  {
    hide PutAll, RowIds, RowsFor, NewRows;
    var (ids, rows) := (RowIds(items, nextChild), RowsFor(children, page, items));
    RowIdFacts(children, page, items, nextChild);
    PutAllMeaning(Shifted(children, page), ids[..i], rows[..i]);
    var now := PutAll(Shifted(children, page), ids[..i], rows[..i]);
    forall o | o in now && o != ids[i] && now[o].page == page
      ensures now[o].position != i
    {
      if o in ids[..i] { var j :| 0 <= j < i && ids[j] == o; assert now[ids[..i][j]] == rows[..i][j]; }
    }
  }

  lemma {:induction false} ShiftedFacts(children: map<nat, Child>, page: nat)
    ensures var shifted := Shifted(children, page);
            && shifted.Keys == children.Keys
            && (forall id :: id in children ==> shifted[id].page == children[id].page)
            && (forall id :: id in children && children[id].page != page ==> shifted[id] == children[id])
  {
  }

  /** Two tables that got the same rows agree once the rows only one of them had are deleted. */
  lemma {:induction false} PutAllDrop(a: map<nat, Child>, b: map<nat, Child>, ids: seq<nat>, rows: seq<Child>,
      dropped: set<nat>)
    requires |ids| == |rows| && DistinctIds(ids)
    requires forall id :: id in ids ==> id !in dropped
    requires forall id :: id in a && id !in dropped && id !in ids ==> id in b && a[id] == b[id]
    requires forall id :: id in b ==> id in a && id !in dropped && (id !in ids ==> a[id] == b[id])
    ensures PutAll(a, ids, rows) - dropped == PutAll(b, ids, rows)
  {
    PutAllMeaning(a, ids, rows);
    PutAllMeaning(b, ids, rows);
    hide PutAll;
    forall id | id in ids
      ensures PutAll(a, ids, rows)[id] == PutAll(b, ids, rows)[id]
    {
      var j :| 0 <= j < |ids| && ids[j] == id;
    }
  }

  /** Deleting the old rows that were not kept leaves exactly the placed list. */
  lemma {:induction false} DropLeavesPlaced(children: map<nat, Child>, page: nat, items: seq<Item>, nextChild: nat)
    requires Placeable(children, page, items, nextChild)
    ensures PutAll(Shifted(children, page), RowIds(items, nextChild), RowsFor(children, page, items))
              - (PageRows(children, page) - KeptIds(items))
         == Placed(children, page, items, nextChild)
  {
    var (ids, rows) := (RowIds(items, nextChild), RowsFor(children, page, items));
    var dropped := PageRows(children, page) - KeptIds(items);
    RowIdFacts(children, page, items, nextChild);
    hide PutAll, RowIds, RowsFor, Shifted, KeptIds, Placeable;
    ShiftedFacts(children, page);
    SameIds(children, page, items, ids, dropped);
    PutAllDrop(Shifted(children, page), Others(children, page), ids, rows, dropped);
  }

  /** The rows left after the deletion are the listed ones and those of other pages. */
  lemma {:induction false} SameIds(children: map<nat, Child>, page: nat, items: seq<Item>, ids: seq<nat>,
      dropped: set<nat>)
    requires |ids| == |items| && dropped == PageRows(children, page) - KeptIds(items)
    requires forall i :: 0 <= i < |ids| && items[i].id == 0 ==> ids[i] !in children
    requires forall i :: 0 <= i < |ids| && items[i].id != 0 ==> ids[i] == items[i].id
    ensures forall id :: id in ids ==> id !in dropped
    ensures forall id :: id in PageRows(children, page) && id !in dropped ==> id in ids
  {
    KeptMeaning(items);
    hide KeptIds;
    forall id | id in PageRows(children, page) && id !in dropped
      ensures id in ids
    {
      var j :| 0 <= j < |items| && items[j].id == id && id != 0;
      assert ids[j] == id;
    }
  }

  /** The ids of the rows that are kept. */
  function KeptIds(items: seq<Item>): set<nat> {
    if items == [] then {}
    else KeptIds(items[..|items| - 1]) + if items[|items| - 1].id != 0 then {items[|items| - 1].id} else {}
  }

  lemma {:induction false} KeptMeaning(items: seq<Item>)
    ensures forall id :: id in KeptIds(items) <==> id != 0 && exists j :: 0 <= j < |items| && items[j].id == id
  {
    if items != [] {
      var n := |items| - 1;
      KeptMeaning(items[..n]);
      forall id | id != 0 && exists j :: 0 <= j < |items| && items[j].id == id
        ensures id in KeptIds(items)
      {
        var j :| 0 <= j < |items| && items[j].id == id;
        assert j < n ==> items[..n][j].id == id;
      }
      forall id | id in KeptIds(items)
        ensures id != 0 && exists j :: 0 <= j < |items| && items[j].id == id
      {
        if id in KeptIds(items[..n]) { var j :| 0 <= j < n && items[..n][j].id == id; assert items[j].id == id; }
      }
    }
  }

  lemma {:induction false} ItemIsOwned(children: map<nat, Child>, page: nat, items: seq<Item>, nextChild: nat, i: nat)
    requires Placeable(children, page, items, nextChild) && i < |items|
    ensures items[i].position == i && (items[i].id != 0 ==> items[i].id in children)
  {
  }

  /** The child rows of an open transaction. */
  class ChildTable {
    var children: map<nat, Child>
    var nextChild: nat

    constructor (children: map<nat, Child>, nextChild: nat)
      ensures this.children == children && this.nextChild == nextChild
    {
      this.children, this.nextChild := children, nextChild;
    }

    /** Every INSERT and UPDATE of a row passes here: the unique key holds before and after. */
    method Write(id: nat, row: Child)
      requires UniquePositions(children) && FreeFor(children, id, row.page, row.position)
      modifies this`children
      ensures children == old(children)[id := row] && UniquePositions(children)
    {
      children := children[id := row];
    }

    /** Moves one more row out of the way. */
    method ShiftRow(ghost was: map<nat, Child>, ghost done: set<nat>, id: nat)
      requires UniquePositions(was) && id in was && id !in done
      requires forall o :: o in was && was[o].page == was[id].page ==> was[o].position < SHIFT
      requires children == ShiftRows(was, done) && UniquePositions(children)
      modifies this`children
      ensures children == ShiftRows(was, done + {id}) && UniquePositions(children)
    {
      ShiftOneMore(was, done, id);
      ShiftIsFree(was, done, id);
      hide ShiftRows, UniquePositions, FreeFor;
      var row := children[id].(position := children[id].position + SHIFT);
      Write(id, row);
    }

    /** position = position + 1000000, row by row in whatever order the database takes them. */
    method ShiftPositions(page: nat)
      requires UniquePositions(children)
      requires forall id :: id in children && children[id].page == page ==> children[id].position < SHIFT
      modifies this`children
      ensures children == Shifted(old(children), page) && UniquePositions(children)
    {
      hide ShiftRows, UniquePositions;
      ghost var was := children;
      var ids := PageRows(children, page);
      var rest := ids;
      ghost var done: set<nat> := {};
      ShiftNone(was);
      while rest != {}
        invariant rest <= ids && done == ids - rest
        invariant children == ShiftRows(was, done) && UniquePositions(children)
        decreases |rest|
      {
        var id :| id in rest;
        ShiftRow(was, done, id);
        rest := rest - {id};
        done := done + {id};
      }
      assert done == ids;
    }

    /** One item of the new list: an insert, or an update that keeps the approval of an unchanged destination. */
    method PlaceItem(current: map<nat, Child>, page: nat, item: Item)
      requires UniquePositions(children)
        && FreeFor(children, if item.id == 0 then nextChild else item.id, page, item.position)
      requires item.id != 0 ==> item.id in current
      modifies this
      ensures children == old(children)[(if item.id == 0 then old(nextChild)
        else item.id) := RowFor(current, page, item)]
      ensures nextChild == old(nextChild) + if item.id == 0 then 1 else 0
      ensures UniquePositions(children)
    {
      if item.id == 0 {
        Write(nextChild, Child(page, item.position, item.text, item.url, item.fingerprint, Review, None));
        nextChild := nextChild + 1;
        return;
      }
      var previous := current[item.id];
      var risk, checkedAt := previous.risk, previous.checkedAt;
      if previous.fingerprint != item.fingerprint { risk, checkedAt := Review, None; }
      Write(item.id, Child(page, item.position, item.text, item.url, item.fingerprint, risk, checkedAt));
    }

    /** Writes the items one after the other over the shifted rows. */
    method PlaceItems(current: map<nat, Child>, page: nat, items: seq<Item>) returns (kept: set<nat>)
      requires Placeable(current, page, items, nextChild) && |items| <= MAX_CHILDREN
      requires children == Shifted(current, page) && UniquePositions(children)
      modifies this
      ensures children == PutAll(Shifted(current, page), RowIds(items, old(nextChild)), RowsFor(current, page, items))
      ensures UniquePositions(children) && nextChild == old(nextChild) + NewRows(items)
      ensures kept == KeptIds(items)
    {
      hide RowFor, Shifted, UniquePositions, FreeFor, PutAll, RowIds, RowsFor, Placeable;
      ghost var first := nextChild;
      ghost var ids, rows := RowIds(items, first), RowsFor(current, page, items);
      kept := {};
      assert PutAll(Shifted(current, page), ids[..0], rows[..0]) == Shifted(current, page) by {
        PutNone(Shifted(current, page), ids[..0], rows[..0]);
      }
      for i := 0 to |items|
        invariant children == PutAll(Shifted(current, page), ids[..i], rows[..i]) && UniquePositions(children)
        invariant nextChild == first + NewRows(items[..i])
        invariant kept == KeptIds(items[..i])
      {
        ItemIsOwned(current, page, items, first, i);
        NextIsFree(current, page, items, first, i);
        RowIdAt(items, first, i);
        PutOneMore(Shifted(current, page), ids, rows, i);
        assert items[..i + 1][..i] == items[..i];
        PlaceItem(current, page, items[i]);
        if items[i].id != 0 { kept := kept + {items[i].id}; }
      }
      assert items[..|items|] == items && ids[..|items|] == ids && rows[..|items|] == rows;
    }

    /** The in-place diff of Update. */
    method ReplaceChildren(page: nat, items: seq<Item>) returns (r: Result<()>)
      requires UniquePositions(children) && InPlace(items) && |items| <= MAX_CHILDREN && nextChild > 0
      requires forall id :: id in children ==> 0 < id < nextChild && children[id].position < MAX_CHILDREN
      requires forall i, j :: 0 <= i < j < |items| && items[i].id != 0 ==> items[i].id != items[j].id
      modifies this
      ensures r.Success? <==> Owns(old(children), page, items)
      ensures r.Failure? ==> r.error == InvalidInput && children == old(children) && nextChild == old(nextChild)
      ensures r.Success? ==>
        && children == Placed(old(children), page, items, old(nextChild))
          && nextChild == old(nextChild) + NewRows(items)
        && UniquePositions(children)
    {
      for i := 0 to |items|
        invariant forall j :: 0 <= j < i && items[j].id != 0 ==>
          items[j].id in children && children[items[j].id].page == page
      {
        if items[i].id != 0 && (items[i].id !in children || children[items[i].id].page != page) { return Failure(InvalidInput); }
      }
      var current := children;
      ghost var first := nextChild;
      hide Placed, RowIds, RowsFor, PutAll, NewRows, Shifted;
      ShiftPositions(page);
      var kept := PlaceItems(current, page, items);
      DropLeavesPlaced(current, page, items, first);
      DeleteRows(PageRows(current, page) - kept);
      return Success(());
    }

    /** Deletes the rows in whatever order the map yields them. */
    method DeleteRows(ids: set<nat>)
      requires UniquePositions(children)
      modifies this`children
      ensures children == old(children) - ids && UniquePositions(children)
    {
      var rest := ids;
      assert old(children) - (ids - rest) == children;
      while rest != {}
        invariant rest <= ids && children == old(children) - (ids - rest) && UniquePositions(children)
        decreases |rest|
      {
        var id :| id in rest;
        ghost var gone := ids - rest;
        children := children - {id};
        rest := rest - {id};
        assert ids - rest == gone + {id};
      }
      assert ids - rest == ids;
    }
  }

  lemma {:induction false} RowIdAt(items: seq<Item>, nextChild: nat, i: nat)
    requires i < |items|
    ensures RowIds(items, nextChild)[i] == if items[i].id != 0 then items[i].id else nextChild + NewRows(items[..i])
  {
    var n := |items| - 1;
    if i < n {
      RowIdAt(items[..n], nextChild, i);
      assert items[..n][..i] == items[..i];
    }
  }

  lemma {:induction false} PutNone(base: map<nat, Child>, ids: seq<nat>, rows: seq<Child>)
    requires ids == [] && rows == []
    ensures PutAll(base, ids, rows) == base
  {
  }

  lemma {:induction false} PutOneMore(base: map<nat, Child>, ids: seq<nat>, rows: seq<Child>, i: nat)
    requires |ids| == |rows| && i < |ids|
    ensures PutAll(base, ids[..i + 1], rows[..i + 1]) == PutAll(base, ids[..i], rows[..i])[ids[i] := rows[i]]
  {
    assert ids[..i + 1][..i] == ids[..i] && rows[..i + 1][..i] == rows[..i];
  }
}
