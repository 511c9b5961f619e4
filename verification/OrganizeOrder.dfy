/** Where the rows of the collection forest end up: the drawn order after a move, and the
    names' order after a cleanup, told from the rows alone. */
module OrganizeOrder {
  import opened Core
  import opened Organize

  // ----- The shown order ------------------------------------------------------

  /** Row i is drawn before row j: by sort order, then by name, then as they came. */
  predicate ShownBefore(items: seq<ForestItem>, nameRank: Id -> int, i: nat, j: nat)
    requires i < |items| && j < |items|
  {
    var a, b := items[i], items[j];
    || a.sortOrder < b.sortOrder
    || (a.sortOrder == b.sortOrder && (|| nameRank(a.id) < nameRank(b.id)
                                       || (nameRank(a.id) == nameRank(b.id) && i < j)))
  }

  /** A row of the target group that is not moved. */
  predicate Stays(items: seq<ForestItem>, moved: set<Id>, parent: Option<Id>, i: nat)
  {
    i < |items| && items[i].id !in moved && items[i].parentId == parent
  }

  predicate Moves(items: seq<ForestItem>, moved: set<Id>, i: nat)
  {
    i < |items| && items[i].id in moved
  }

  // ----- What sorting makes of positions --------------------------------------

  ghost predicate Comes(items: seq<ForestItem>, x: ForestItem, y: ForestItem)
  {
    exists i, j :: 0 <= i < j < |items| && items[i] == x && items[j] == y
  }

  /** Smaller, or equal and earlier. */
  ghost predicate Precedes(order: Order, items: seq<ForestItem>, x: ForestItem, y: ForestItem)
  {
    Compare(order, x, y) < 0 || (Compare(order, x, y) == 0 && Comes(items, x, y))
  }

  ghost predicate InOrder(order: Order, items: seq<ForestItem>, sorted: seq<ForestItem>)
  {
    forall a, b :: 0 <= a < b < |sorted| ==> Precedes(order, items, sorted[a], sorted[b])
  }

  lemma PrecedesLater(order: Order, items: seq<ForestItem>, last: ForestItem, x: ForestItem, y: ForestItem)
    requires Precedes(order, items, x, y)
    ensures Precedes(order, items + [last], x, y)
  {
    if Comes(items, x, y) {
      var i, j :| 0 <= i < j < |items| && items[i] == x && items[j] == y;
      assert (items + [last])[i] == x && (items + [last])[j] == y;
    }
  }

  lemma ComesLast(items: seq<ForestItem>, last: ForestItem, x: ForestItem)
    requires x in items
    ensures Comes(items + [last], x, last)
  {
    var i :| 0 <= i < |items| && items[i] == x;
    assert (items + [last])[i] == x && (items + [last])[|items|] == last;
  }

  /** Everything in front of an element that moved back goes before it. */
  lemma BeforeMovedBack(order: Order, items: seq<ForestItem>, sorted: seq<ForestItem>, x: ForestItem, y: ForestItem)
    requires InOrder(order, items, sorted) && sorted != [] && Compare(order, Last(sorted), x) > 0
    requires y in Insert(order, Init(sorted), x)
    ensures Precedes(order, items + [x], y, Last(sorted))
  {
    InsertElements(order, Init(sorted), x);
    assert y in multiset(Insert(order, Init(sorted), x));
    CompareSwaps(order, Last(sorted), x);
    if y != x {
      var c :| 0 <= c < |Init(sorted)| && Init(sorted)[c] == y;
      assert Precedes(order, items, sorted[c], sorted[|sorted| - 1]);
      PrecedesLater(order, items, x, y, Last(sorted));
    }
  }

  lemma {:induction false} InsertInOrder(order: Order, items: seq<ForestItem>, sorted: seq<ForestItem>, x: ForestItem)
    requires InOrder(order, items, sorted) && forall y :: y in sorted ==> y in items
    ensures InOrder(order, items + [x], Insert(order, sorted, x))
  {
    var result := Insert(order, sorted, x);
    if sorted != [] && Compare(order, Last(sorted), x) > 0 {
      var front := Insert(order, Init(sorted), x);
      InsertInOrder(order, items, Init(sorted), x);
      forall a | 0 <= a < |front|
        ensures Precedes(order, items + [x], front[a], Last(sorted))
      {
        BeforeMovedBack(order, items, sorted, x, front[a]);
      }
      assert result == front + [Last(sorted)];
    } else {
      assert result == sorted + [x];
      forall a, b | 0 <= a < b < |result|
        ensures Precedes(order, items + [x], result[a], result[b])
      {
        if b < |sorted| {
          PrecedesLater(order, items, x, sorted[a], sorted[b]);
        } else {
          NotAfterLast(order, items, sorted, x, a);
        }
      }
    }
  }

  lemma NotAfterLast(order: Order, items: seq<ForestItem>, sorted: seq<ForestItem>, x: ForestItem, a: nat)
    requires InOrder(order, items, sorted) && (forall y :: y in sorted ==> y in items) && a < |sorted|
    requires Compare(order, Last(sorted), x) <= 0
    ensures Precedes(order, items + [x], sorted[a], x)
  {
    ComesLast(items, x, sorted[a]);
    if a < |sorted| - 1 {
      assert Precedes(order, items, sorted[a], sorted[|sorted| - 1]);
      CompareTransitive(order, sorted[a], Last(sorted), x);
    }
  }

  /** Sorting puts smaller rows first and equal ones in the order they came. */
  lemma {:induction false} SortInOrder(order: Order, items: seq<ForestItem>)
    ensures InOrder(order, items, Sort(order, items))
  {
    if items != [] {
      SortInOrder(order, Init(items));
      SortKeepsItems(order, Init(items));
      InsertInOrder(order, Init(items), Sort(order, Init(items)), Last(items));
      assert items == Init(items) + [Last(items)];
    }
  }

  /** The rows of `part` come in the order they have in `items`. */
  ghost predicate PartOf(items: seq<ForestItem>, part: seq<ForestItem>)
  {
    forall a, b :: 0 <= a < b < |part| ==> Comes(items, part[a], part[b])
  }

  lemma PartGrows(items: seq<ForestItem>, part: seq<ForestItem>, x: ForestItem)
    requires PartOf(items, part) && forall y :: y in part ==> y in items
    ensures PartOf(items + [x], part) && PartOf(items + [x], part + [x])
  {
    forall a, b | 0 <= a < b < |part + [x]|
      ensures Comes(items + [x], (part + [x])[a], (part + [x])[b])
    {
      if b < |part| {
        assert (part + [x])[a] == part[a] && (part + [x])[b] == part[b] && Comes(items, part[a], part[b]);
        var i, j :| 0 <= i < j < |items| && items[i] == part[a] && items[j] == part[b];
        assert (items + [x])[i] == part[a] && (items + [x])[j] == part[b];
      } else {
        ComesLast(items, x, part[a]);
      }
    }
    assert forall a, b :: 0 <= a < b < |part| ==> (part + [x])[a] == part[a] && (part + [x])[b] == part[b];
  }

  lemma {:induction false} PartsKeepOrder(items: seq<ForestItem>, moved: set<Id>, parent: Option<Id>)
    ensures PartOf(items, Movers(items, moved)) && PartOf(items, Siblings(items, moved, parent))
  {
    if items != [] {
      var front, last := Init(items), Last(items);
      PartsKeepOrder(front, moved, parent);
      MoversMeaning(front, moved, parent);
      PartGrows(front, Movers(front, moved), last);
      PartGrows(front, Siblings(front, moved, parent), last);
      assert items == front + [last];
    }
  }

  /** In the sorted part, places follow the shown order of the rows. */
  lemma PlacesFollow(items: seq<ForestItem>, nameRank: Id -> int, part: seq<ForestItem>, i: nat, j: nat, a: nat, b: nat)
    requires DistinctItems(items) && PartOf(items, part) && i < |items| && j < |items| && i != j
    requires a < |Sort(Shown(nameRank), part)| && b < |Sort(Shown(nameRank), part)|
    requires Sort(Shown(nameRank), part)[a] == items[i] && Sort(Shown(nameRank), part)[b] == items[j]
    ensures a < b <==> ShownBefore(items, nameRank, i, j)
  {
    SortInOrder(Shown(nameRank), part);
    if a < b {
      ShownFirst(items, nameRank, part, i, j);
    } else if b < a {
      ShownFirst(items, nameRank, part, j, i);
    }
  }

  lemma ShownFirst(items: seq<ForestItem>, nameRank: Id -> int, part: seq<ForestItem>, i: nat, j: nat)
    requires DistinctItems(items) && PartOf(items, part) && i < |items| && j < |items|
    requires Precedes(Shown(nameRank), part, items[i], items[j])
    ensures ShownBefore(items, nameRank, i, j) && (i != j ==> !ShownBefore(items, nameRank, j, i))
  {
    if Comes(part, items[i], items[j]) {
      var a, b :| 0 <= a < b < |part| && part[a] == items[i] && part[b] == items[j];
      assert Comes(items, part[a], part[b]);
      var m, n :| 0 <= m < n < |items| && items[m] == items[i] && items[n] == items[j];
      assert m == i && n == j;
    }
  }

  // ----- The rows after a move ------------------------------------------------

  lemma StayingIsSorted(items: seq<ForestItem>, nameRank: Id -> int, moved: set<Id>, parent: Option<Id>, i: nat)
    returns (a: nat)
    requires DistinctItems(items) && Stays(items, moved, parent, i)
    ensures var siblings := Sort(Shown(nameRank), Siblings(items, moved, parent));
            a < |siblings| && siblings[a] == items[i]
  {
    var siblings := Sort(Shown(nameRank), Siblings(items, moved, parent));
    ShownFacts(items, nameRank, moved, parent);
    assert items[i] in siblings;
    a :| 0 <= a < |siblings| && siblings[a] == items[i];
  }

  lemma MoverIsSorted(items: seq<ForestItem>, nameRank: Id -> int, moved: set<Id>, i: nat) returns (b: nat)
    requires DistinctItems(items) && Moves(items, moved, i)
    ensures var movers := Sort(Shown(nameRank), Movers(items, moved));
            b < |movers| == |Movers(items, moved)| && movers[b] == items[i]
  {
    var movers := Sort(Shown(nameRank), Movers(items, moved));
    ShownFacts(items, nameRank, moved, None);
    SortKeepsItems(Shown(nameRank), Movers(items, moved));
    assert items[i] in movers;
    b :| 0 <= b < |movers| && movers[b] == items[i];
  }

  /** Where siblings and movers are in the joined group. */
  lemma SiblingPlace(siblings: seq<ForestItem>, adopted: seq<ForestItem>, at: nat, a: nat)
    requires at <= |siblings| && a < |siblings|
    ensures var group, k := siblings[..at] + adopted + siblings[at..], if a < at then a else a + |adopted|;
            k < |group| && group[k] == siblings[a]
  {
  }

  lemma MoverPlace(siblings: seq<ForestItem>, adopted: seq<ForestItem>, at: nat, b: nat)
    requires at <= |siblings| && b < |adopted|
    ensures var group := siblings[..at] + adopted + siblings[at..];
            at + b < |group| && group[at + b] == adopted[b]
  {
  }

  /** A row's number is the place of its id in the group. */
  lemma NumberIsPlace(items: seq<ForestItem>, nameRank: Id -> int, moved: set<Id>, parent: Option<Id>,
                      before: Option<Id>, i: nat, k: nat)
    requires DistinctItems(items) && (Stays(items, moved, parent, i) || Moves(items, moved, i))
    requires var group := TargetGroup(items, nameRank, moved, parent, before);
             k < |group| && group[k].id == items[i].id
    ensures MoveCollections(items, nameRank, moved, parent, before)[i].sortOrder == k
  {
    var group := TargetGroup(items, nameRank, moved, parent, before);
    var row := MoveCollections(items, nameRank, moved, parent, before)[i];
    GroupIsDistinct(items, nameRank, moved, parent, before);
    RowInGroup(items, nameRank, moved, parent, before, i);
    SamePlace(group, row.sortOrder, k);
  }

  lemma GroupIsDistinct(items: seq<ForestItem>, nameRank: Id -> int, moved: set<Id>, parent: Option<Id>,
                        before: Option<Id>)
    requires DistinctItems(items)
    ensures DistinctItems(TargetGroup(items, nameRank, moved, parent, before))
  {
    GroupMembers(items, nameRank, moved, parent, before);
  }

  lemma RowInGroup(items: seq<ForestItem>, nameRank: Id -> int, moved: set<Id>, parent: Option<Id>,
                   before: Option<Id>, i: nat)
    requires DistinctItems(items) && (Stays(items, moved, parent, i) || Moves(items, moved, i))
    ensures var group := TargetGroup(items, nameRank, moved, parent, before);
            var number := MoveCollections(items, nameRank, moved, parent, before)[i].sortOrder;
            0 <= number < |group| && group[number].id == items[i].id
  {
    PlacedRow(items, nameRank, moved, parent, before, i);
  }

  lemma SamePlace(group: seq<ForestItem>, j: nat, k: nat)
    requires DistinctItems(group) && j < |group| && k < |group| && group[j].id == group[k].id
    ensures j == k
  {
  }

  /** Where a row that stays is placed. */
  lemma PlaceOfStaying(items: seq<ForestItem>, nameRank: Id -> int, moved: set<Id>, parent: Option<Id>,
                       before: Option<Id>, i: nat) returns (a: nat)
    requires DistinctItems(items) && Stays(items, moved, parent, i)
    ensures var siblings := Sort(Shown(nameRank), Siblings(items, moved, parent));
            var at, movers := Slot(siblings, before), |Sort(Shown(nameRank), Movers(items, moved))|;
            && a < |siblings| && siblings[a] == items[i]
            && MoveCollections(items, nameRank, moved, parent, before)[i].sortOrder == if a < at then a else a + movers
  {
    var siblings := Sort(Shown(nameRank), Siblings(items, moved, parent));
    var movers := Sort(Shown(nameRank), Movers(items, moved));
    var at := Slot(siblings, before);
    a := StayingIsSorted(items, nameRank, moved, parent, i);
    SiblingPlace(siblings, Adopted(movers, parent), at, a);
    NumberIsPlace(items, nameRank, moved, parent, before, i, if a < at then a else a + |movers|);
  }

  lemma PlaceOfMover(items: seq<ForestItem>, nameRank: Id -> int, moved: set<Id>, parent: Option<Id>,
                     before: Option<Id>, i: nat) returns (b: nat)
    requires DistinctItems(items) && Moves(items, moved, i)
    ensures var movers := Sort(Shown(nameRank), Movers(items, moved));
            var at := Slot(Sort(Shown(nameRank), Siblings(items, moved, parent)), before);
            && b < |movers| && movers[b] == items[i]
            && MoveCollections(items, nameRank, moved, parent, before)[i].sortOrder == at + b
  {
    var siblings := Sort(Shown(nameRank), Siblings(items, moved, parent));
    var movers := Sort(Shown(nameRank), Movers(items, moved));
    b := MoverIsSorted(items, nameRank, moved, i);
    MoverPlace(siblings, Adopted(movers, parent), Slot(siblings, before), b);
    NumberIsPlace(items, nameRank, moved, parent, before, i, Slot(siblings, before) + b);
  }

  /** Rows that stay keep their shown order among themselves, and so do the movers. */
  lemma MoveKeepsShownOrder(items: seq<ForestItem>, nameRank: Id -> int, moved: set<Id>, parent: Option<Id>,
                            before: Option<Id>, i: nat, j: nat)
    requires DistinctItems(items) && i != j
    requires (Stays(items, moved, parent, i) && Stays(items, moved, parent, j))
          || (Moves(items, moved, i) && Moves(items, moved, j))
    ensures var result := MoveCollections(items, nameRank, moved, parent, before);
            result[i].sortOrder < result[j].sortOrder <==> ShownBefore(items, nameRank, i, j)
  {
    PartsKeepOrder(items, moved, parent);
    if Stays(items, moved, parent, i) {
      var a := PlaceOfStaying(items, nameRank, moved, parent, before, i);
      var b := PlaceOfStaying(items, nameRank, moved, parent, before, j);
      PlacesFollow(items, nameRank, Siblings(items, moved, parent), i, j, a, b);
    } else {
      var a := PlaceOfMover(items, nameRank, moved, parent, before, i);
      var b := PlaceOfMover(items, nameRank, moved, parent, before, j);
      PlacesFollow(items, nameRank, Movers(items, moved), i, j, a, b);
    }
  }

  /** The target's place in the sorted siblings is where it stays, or behind all of them. */
  lemma SlotOf(siblings: seq<ForestItem>, before: Option<Id>, a: nat, c: nat)
    requires DistinctItems(siblings) && a < |siblings| && c < |siblings| && before == Some(siblings[c].id)
    ensures a < Slot(siblings, before) <==> a < c
  {
    var at := Slot(siblings, before);
    assert at <= c;
    assert siblings[at].id == siblings[c].id;
  }

  lemma StayingBeforeSlot(items: seq<ForestItem>, nameRank: Id -> int, moved: set<Id>, parent: Option<Id>,
                          before: Option<Id>, i: nat, a: nat, z: nat)
    requires DistinctItems(items) && Stays(items, moved, parent, i)
    requires Stays(items, moved, parent, z) && before == Some(items[z].id)
    requires var siblings := Sort(Shown(nameRank), Siblings(items, moved, parent));
             a < |siblings| && siblings[a] == items[i]
    ensures a < Slot(Sort(Shown(nameRank), Siblings(items, moved, parent)), before) <==>
              ShownBefore(items, nameRank, i, z)
  {
    var siblings := Sort(Shown(nameRank), Siblings(items, moved, parent));
    ShownFacts(items, nameRank, moved, parent);
    assert items[z] in siblings;
    var c :| 0 <= c < |siblings| && siblings[c] == items[z];
    SlotOf(siblings, before, a, c);
    if i == z {
      assert siblings[a].id == siblings[c].id;
    } else {
      PartsKeepOrder(items, moved, parent);
      PlacesFollow(items, nameRank, Siblings(items, moved, parent), i, z, a, c);
    }
  }

  lemma SlotIsATarget(items: seq<ForestItem>, nameRank: Id -> int, moved: set<Id>, parent: Option<Id>,
                      before: Option<Id>) returns (z: nat)
    requires var siblings := Sort(Shown(nameRank), Siblings(items, moved, parent));
             DistinctItems(items) && Slot(siblings, before) < |siblings|
    ensures Stays(items, moved, parent, z) && before == Some(items[z].id)
  {
    var siblings := Sort(Shown(nameRank), Siblings(items, moved, parent));
    ShownFacts(items, nameRank, moved, parent);
    assert siblings[Slot(siblings, before)] in siblings;
    z :| 0 <= z < |items| && items[z] == siblings[Slot(siblings, before)];
  }

  /** The movers land right before the row that was named, or at the end when none of the rows
      that stay was: a staying row comes before them exactly if it was drawn before that row. */
  lemma MoversLandBefore(items: seq<ForestItem>, nameRank: Id -> int, moved: set<Id>, parent: Option<Id>,
                         before: Option<Id>, i: nat, j: nat)
    requires DistinctItems(items) && Stays(items, moved, parent, i) && Moves(items, moved, j)
    ensures var result := MoveCollections(items, nameRank, moved, parent, before);
            result[i].sortOrder < result[j].sortOrder <==>
              forall z: nat :: Stays(items, moved, parent, z) && before == Some(items[z].id) ==>
                ShownBefore(items, nameRank, i, z)
  {
    var a := PlaceOfStaying(items, nameRank, moved, parent, before, i);
    var b := PlaceOfMover(items, nameRank, moved, parent, before, j);
    forall z: nat | Stays(items, moved, parent, z) && before == Some(items[z].id)
      ensures a < Slot(Sort(Shown(nameRank), Siblings(items, moved, parent)), before) <==>
                ShownBefore(items, nameRank, i, z)
    {
      StayingBeforeSlot(items, nameRank, moved, parent, before, i, a, z);
    }
    if a >= Slot(Sort(Shown(nameRank), Siblings(items, moved, parent)), before) {
      var z := SlotIsATarget(items, nameRank, moved, parent, before);
    }
  }

  /** The positions whose rows make up the target group. */
  function GroupPositions(items: seq<ForestItem>, moved: set<Id>, parent: Option<Id>): set<nat>
  {
    set i: nat | i < |items| && (Stays(items, moved, parent, i) || Moves(items, moved, i))
  }

  /** The target group is numbered within its size, no number twice, and every other row is as
      it was: the numbers are exactly 0 to n-1. */
  lemma MoveNumbersGroup(items: seq<ForestItem>, nameRank: Id -> int, moved: set<Id>, parent: Option<Id>,
                         before: Option<Id>, i: nat, j: nat)
    requires DistinctItems(items) && i < |items| && j < |items|
    ensures var result := MoveCollections(items, nameRank, moved, parent, before);
            var group := GroupPositions(items, moved, parent);
            && result[i] == (if i !in group then items[i] else ForestItem(items[i].id, parent, result[i].sortOrder))
            && (i in group ==> 0 <= result[i].sortOrder < |group|)
            && (i in group && j in group && i != j ==> result[i].sortOrder != result[j].sortOrder)
  {
    PlacedRow(items, nameRank, moved, parent, before, i);
    PlacedRow(items, nameRank, moved, parent, before, j);
    GroupSize(items, nameRank, moved, parent, before);
  }

  function ItemIds(rows: seq<ForestItem>): (ids: seq<Id>)
    ensures |ids| == |rows|
  {
    seq(|rows|, k requires 0 <= k < |rows| => rows[k].id)
  }

  lemma RowHasPosition(items: seq<ForestItem>, nameRank: Id -> int, moved: set<Id>, parent: Option<Id>,
                       before: Option<Id>, k: nat) returns (i: nat)
    requires DistinctItems(items) && k < |TargetGroup(items, nameRank, moved, parent, before)|
    ensures i in GroupPositions(items, moved, parent)
    ensures items[i].id == TargetGroup(items, nameRank, moved, parent, before)[k].id
  {
    var rows := TargetGroup(items, nameRank, moved, parent, before);
    GroupMembers(items, nameRank, moved, parent, before);
    var y := rows[k];
    assert y in rows;
    var x :| x in items && x.id == y.id && (x.id in moved || x.parentId == parent);
    i :| 0 <= i < |items| && items[i] == x;
  }

  lemma PositionHasRow(items: seq<ForestItem>, nameRank: Id -> int, moved: set<Id>, parent: Option<Id>,
                       before: Option<Id>, i: nat)
    requires DistinctItems(items) && i in GroupPositions(items, moved, parent)
    ensures items[i].id in Elems(ItemIds(TargetGroup(items, nameRank, moved, parent, before)))
  {
    var rows := TargetGroup(items, nameRank, moved, parent, before);
    PlacedRow(items, nameRank, moved, parent, before, i);
    var k := MoveCollections(items, nameRank, moved, parent, before)[i].sortOrder;
    assert ItemIds(rows)[k] == items[i].id;
  }

  lemma GroupSize(items: seq<ForestItem>, nameRank: Id -> int, moved: set<Id>, parent: Option<Id>,
                  before: Option<Id>)
    requires DistinctItems(items)
    ensures |TargetGroup(items, nameRank, moved, parent, before)| == |GroupPositions(items, moved, parent)|
  {
    var rows := TargetGroup(items, nameRank, moved, parent, before);
    var group := GroupPositions(items, moved, parent);
    var idAt := (i: nat) => if i < |items| then items[i].id else Id("");
    var ids := Elems(ItemIds(rows));
    GroupMembers(items, nameRank, moved, parent, before);
    DistinctSize(ItemIds(rows));
    forall x | x in ids
      ensures x in set i | i in group :: idAt(i)
    {
      var k :| 0 <= k < |rows| && ItemIds(rows)[k] == x;
      var i := RowHasPosition(items, nameRank, moved, parent, before, k);
      assert idAt(i) == x;
    }
    forall i | i in group
      ensures idAt(i) in ids
    {
      PositionHasRow(items, nameRank, moved, parent, before, i);
    }
    ImageSize(group, idAt, ids);
  }

  /** A set and its image under a function that keeps its elements apart are as large. */
  lemma {:induction false} ImageSize(s: set<nat>, f: nat -> Id, image: set<Id>)
    requires image == set x | x in s :: f(x)
    requires forall x, y :: x in s && y in s && f(x) == f(y) ==> x == y
    ensures |image| == |s|
  {
    if s != {} {
      var x :| x in s;
      var rest := set y | y in s - {x} :: f(y);
      ImageSize(s - {x}, f, rest);
      assert image == rest + {f(x)} && f(x) !in rest;
    }
  }

  // ----- The rows after a cleanup ---------------------------------------------

  /** Row i is named before row j, in the chosen direction; equal names follow their ids. */
  predicate NamedBefore(nameRank: Id -> int, idRank: Id -> int, descending: bool, a: Id, b: Id)
  {
    || (if descending then nameRank(b) < nameRank(a) else nameRank(a) < nameRank(b))
    || (nameRank(a) == nameRank(b) && idRank(a) < idRank(b))
  }

  /** After a cleanup two siblings are numbered as they are named, and every number is below the
      size of its group. */
  lemma CleanupFollowsNames(items: seq<ForestItem>, nameRank: Id -> int, idRank: Id -> int, descending: bool,
                            i: nat, j: nat)
    requires DistinctItems(items) && StrictOrder(ByName(nameRank, idRank, descending))
    requires i < |items| && j < |items| && i != j && items[i].parentId == items[j].parentId
    ensures var result := NameSorted(items, ByName(nameRank, idRank, descending));
            && (result[i].sortOrder < result[j].sortOrder <==>
                NamedBefore(nameRank, idRank, descending, items[i].id, items[j].id))
            && 0 <= result[i].sortOrder < |set y | y in items && y.parentId == items[i].parentId :: y.id|
  {
    var order := ByName(nameRank, idRank, descending);
    var all := Elems(items);
    if Compare(order, items[i], items[j]) < 0 {
      SmallerGrows(items, order, i, j);
    } else {
      CompareSwaps(order, items[i], items[j]);
      assert items[i].id != items[j].id;
      SmallerGrows(items, order, j, i);
    }
    var group := set y | y in items && y.parentId == items[i].parentId :: y.id;
    assert items[i].id in group;
    SmallerOmits(items, order, i);
    ProperSubsetSize(Smaller(all, order, items[i]), group, items[i].id);
  }

  lemma SmallerOmits(items: seq<ForestItem>, order: Order, i: nat)
    requires DistinctItems(items) && i < |items|
    ensures items[i].id !in Smaller(Elems(items), order, items[i])
  {
    forall y | y in Elems(items) && y.id == items[i].id
      ensures Compare(order, y, items[i]) == 0
    {
      var k :| 0 <= k < |items| && items[k] == y;
    }
  }

  lemma SmallerGrows(items: seq<ForestItem>, order: Order, i: nat, j: nat)
    requires DistinctItems(items) && i < |items| && j < |items| && items[i].parentId == items[j].parentId
    requires Compare(order, items[i], items[j]) < 0
    ensures |Smaller(Elems(items), order, items[i])| < |Smaller(Elems(items), order, items[j])|
  {
    var all := Elems(items);
    forall y | y in all && y.parentId == items[i].parentId && Compare(order, y, items[i]) < 0
      ensures y.id in Smaller(all, order, items[j])
    {
      CompareTransitive(order, y, items[i], items[j]);
    }
    SmallerOmits(items, order, i);
    assert items[i] in all && items[i].id in Smaller(all, order, items[j]);
    ProperSubsetSize(Smaller(all, order, items[i]), Smaller(all, order, items[j]), items[i].id);
  }

  lemma ProperSubsetSize(a: set<Id>, b: set<Id>, x: Id)
    requires a <= b && x in b && x !in a
    ensures |a| < |b|
  {
    SubsetSize(a + {x}, b);
  }
}
