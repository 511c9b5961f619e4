/** Arranging the collection forest (`catalogOrganize.ts`): a move renumbers one sibling
    group; name cleanup renumbers every group. */
module Organize {
  import opened Core
  import opened Forest
  import opened Counts
  import opened Reparent

  datatype ForestItem = ForestItem(id: Id, parentId: Option<Id>, sortOrder: int)

  /** The comparators. `nameRank` is the place of an id's name in collation order (equal
      names share a place), `idRank` the place of the id itself. */
  datatype Order =
    | Shown(nameRank: Id -> int)
    | ByName(nameRank: Id -> int, idRank: Id -> int, descending: bool)

  function Compare(order: Order, a: ForestItem, b: ForestItem): int
  {
    match order
    case Shown(nameRank) =>
      if a.sortOrder != b.sortOrder then a.sortOrder - b.sortOrder else nameRank(a.id) - nameRank(b.id)
    case ByName(nameRank, idRank, descending) =>
      var names := if descending then nameRank(b.id) - nameRank(a.id) else nameRank(a.id) - nameRank(b.id);
      if names != 0 then names else idRank(a.id) - idRank(b.id)
  }

  // ----- Stable sort ----------------------------------------------------------

  /** A later equal element goes behind the earlier ones. */
  function Insert(order: Order, sorted: seq<ForestItem>, x: ForestItem): seq<ForestItem>
  {
    if sorted == [] then [x]
    else if Compare(order, Last(sorted), x) <= 0 then sorted + [x]
    else Insert(order, Init(sorted), x) + [Last(sorted)]
  }

  /** `Array.prototype.sort`, which is stable. */
  function Sort(order: Order, items: seq<ForestItem>): seq<ForestItem>
  {
    if items == [] then [] else Insert(order, Sort(order, Init(items)), Last(items))
  }

  ghost predicate Sorted(order: Order, items: seq<ForestItem>)
  {
    forall i, j :: 0 <= i < j < |items| ==> Compare(order, items[i], items[j]) <= 0
  }

  /** The elements that compare equal to z, in order. */
  function Ties(order: Order, items: seq<ForestItem>, z: ForestItem): seq<ForestItem>
  {
    if items == [] then []
    else if Compare(order, Last(items), z) == 0 then Ties(order, Init(items), z) + [Last(items)]
    else Ties(order, Init(items), z)
  }

  lemma CompareTransitive(order: Order, a: ForestItem, b: ForestItem, c: ForestItem)
    requires Compare(order, a, b) <= 0 && Compare(order, b, c) <= 0
    ensures Compare(order, a, c) <= 0
    ensures Compare(order, a, b) < 0 || Compare(order, b, c) < 0 ==> Compare(order, a, c) < 0
  {
  }

  lemma CompareSwaps(order: Order, a: ForestItem, b: ForestItem)
    ensures Compare(order, a, b) == -Compare(order, b, a)
  {
  }

  lemma {:induction false} InsertElements(order: Order, sorted: seq<ForestItem>, x: ForestItem)
    ensures multiset(Insert(order, sorted, x)) == multiset(sorted) + multiset{x}
  {
    if sorted != [] {
      assert sorted == Init(sorted) + [Last(sorted)];
      InsertElements(order, Init(sorted), x);
    }
  }

  lemma SortedExtend(order: Order, front: seq<ForestItem>, last: ForestItem)
    requires Sorted(order, front) && forall y :: y in front ==> Compare(order, y, last) <= 0
    ensures Sorted(order, front + [last])
  {
    var all := front + [last];
    forall i, j | 0 <= i < j < |all|
      ensures Compare(order, all[i], all[j]) <= 0
    {
      if j == |front| {
        assert all[i] in front;
      }
    }
  }

  lemma {:induction false} InsertSorted(order: Order, sorted: seq<ForestItem>, x: ForestItem)
    requires Sorted(order, sorted)
    ensures Sorted(order, Insert(order, sorted, x))
  {
    if sorted != [] {
      var last := Last(sorted);
      if Compare(order, last, x) <= 0 {
        forall y | y in sorted
          ensures Compare(order, y, x) <= 0
        {
          var i :| 0 <= i < |sorted| && sorted[i] == y;
          if i < |sorted| - 1 {
            CompareTransitive(order, y, last, x);
          }
        }
        SortedExtend(order, sorted, x);
      } else {
        InsertSorted(order, Init(sorted), x);
        var front := Insert(order, Init(sorted), x);
        InsertElements(order, Init(sorted), x);
        CompareSwaps(order, last, x);
        forall y | y in front
          ensures Compare(order, y, last) <= 0
        {
          assert y in multiset(front);
          assert y == x || y in Init(sorted);
        }
        SortedExtend(order, front, last);
      }
    }
  }

  lemma {:induction false} InsertStable(order: Order, sorted: seq<ForestItem>, x: ForestItem, z: ForestItem)
    requires Sorted(order, sorted)
    ensures Ties(order, Insert(order, sorted, x), z) == Ties(order, sorted + [x], z)
  {
    assert Init(sorted + [x]) == sorted;
    if sorted != [] && Compare(order, Last(sorted), x) > 0 {
      InsertStable(order, Init(sorted), x, z);
      assert Init(Init(sorted) + [x]) == Init(sorted);
      assert Init(Insert(order, Init(sorted), x) + [Last(sorted)]) == Insert(order, Init(sorted), x);
    }
  }

  /** Sorted, a permutation, and stable: equal elements keep the order they came in. */
  lemma SortIsStable(order: Order, items: seq<ForestItem>, z: ForestItem)
    ensures Sorted(order, Sort(order, items))
    ensures multiset(Sort(order, items)) == multiset(items)
    ensures Ties(order, Sort(order, items), z) == Ties(order, items, z)
  {
    SortSorts(order, items);
    SortPermutes(order, items);
    SortKeepsTies(order, items, z);
  }

  lemma {:induction false} SortSorts(order: Order, items: seq<ForestItem>)
    ensures Sorted(order, Sort(order, items))
  {
    if items != [] {
      SortSorts(order, Init(items));
      InsertSorted(order, Sort(order, Init(items)), Last(items));
    }
  }

  lemma {:induction false} SortPermutes(order: Order, items: seq<ForestItem>)
    ensures multiset(Sort(order, items)) == multiset(items)
  {
    if items != [] {
      SortPermutes(order, Init(items));
      InsertElements(order, Sort(order, Init(items)), Last(items));
      assert items == Init(items) + [Last(items)];
    }
  }

  lemma {:induction false} SortKeepsTies(order: Order, items: seq<ForestItem>, z: ForestItem)
    ensures Ties(order, Sort(order, items), z) == Ties(order, items, z)
  {
    if items != [] {
      var front := Sort(order, Init(items));
      SortKeepsTies(order, Init(items), z);
      SortSorts(order, Init(items));
      InsertStable(order, front, Last(items), z);
      TiesAppend(order, front, Init(items), Last(items), z);
      assert items == Init(items) + [Last(items)];
    }
  }

  lemma TiesAppend(order: Order, a: seq<ForestItem>, b: seq<ForestItem>, x: ForestItem, z: ForestItem)
    requires Ties(order, a, z) == Ties(order, b, z)
    ensures Ties(order, a + [x], z) == Ties(order, b + [x], z)
  {
    assert Init(a + [x]) == a && Init(b + [x]) == b;
  }

  // ----- Moving ---------------------------------------------------------------

  function Movers(items: seq<ForestItem>, moved: set<Id>): seq<ForestItem>
  {
    if items == [] then []
    else if Last(items).id in moved then Movers(Init(items), moved) + [Last(items)]
    else Movers(Init(items), moved)
  }

  function Siblings(items: seq<ForestItem>, moved: set<Id>, parent: Option<Id>): seq<ForestItem>
  {
    if items == [] then []
    else if Last(items).parentId == parent && Last(items).id !in moved then
      Siblings(Init(items), moved, parent) + [Last(items)]
    else Siblings(Init(items), moved, parent)
  }

  /** `findIndex`, or the end when the target is missing. */
  function Slot(siblings: seq<ForestItem>, before: Option<Id>): (at: nat)
    ensures at <= |siblings|
    ensures before.None? ==> at == |siblings|
    ensures before.Some? && at < |siblings| ==> siblings[at].id == before.value
    ensures before.Some? ==> forall i :: 0 <= i < at ==> siblings[i].id != before.value
  {
    if before.None? || siblings == [] then |siblings|
    else if siblings[0].id == before.value then 0
    else
      var rest := Slot(siblings[1..], before);
      assert forall i :: 1 <= i < 1 + rest ==> siblings[i] == siblings[1..][i - 1];
      1 + rest
  }

  function Adopted(movers: seq<ForestItem>, parent: Option<Id>): (adopted: seq<ForestItem>)
    ensures |adopted| == |movers|
  {
    seq(|movers|, i requires 0 <= i < |movers| => movers[i].(parentId := parent))
  }

  /** The target group: siblings before the slot, the movers, siblings behind it. */
  function TargetGroup(items: seq<ForestItem>, nameRank: Id -> int, moved: set<Id>, parent: Option<Id>,
                       before: Option<Id>): seq<ForestItem>
  {
    var movers := Sort(Shown(nameRank), Movers(items, moved));
    var siblings := Sort(Shown(nameRank), Siblings(items, moved, parent));
    var at := Slot(siblings, before);
    siblings[..at] + Adopted(movers, parent) + siblings[at..]
  }

  /** `new Map(group.map((item, index) => [item.id, { ...item, sort_order: index }]))` */
  function Numbered(group: seq<ForestItem>): (placed: map<Id, ForestItem>)
  {
    if group == [] then map[]
    else Numbered(Init(group))[Last(group).id := Last(group).(sortOrder := |group| - 1)]
  }

  function MoveCollections(items: seq<ForestItem>, nameRank: Id -> int, moved: set<Id>, parent: Option<Id>,
                           before: Option<Id>)
    : (result: seq<ForestItem>)
    ensures |result| == |items|
  {
    var placed := Numbered(TargetGroup(items, nameRank, moved, parent, before));
    seq(|items|, i requires 0 <= i < |items| => if items[i].id in placed then placed[items[i].id] else items[i])
  }

  ghost predicate DistinctItems(items: seq<ForestItem>)
  {
    forall i, j :: 0 <= i < j < |items| ==> items[i].id != items[j].id
  }

  lemma {:induction false} NumberedMeaning(group: seq<ForestItem>)
    requires DistinctItems(group)
    ensures Numbered(group).Keys == set x | x in group :: x.id
    ensures forall k :: 0 <= k < |group| ==>
              group[k].id in Numbered(group) && Numbered(group)[group[k].id] == group[k].(sortOrder := k)
  {
    if group != [] {
      NumberedMeaning(Init(group));
      assert group == Init(group) + [Last(group)];
    }
  }

  lemma {:induction false} MoversMeaning(items: seq<ForestItem>, moved: set<Id>, parent: Option<Id>)
    ensures forall x :: x in Movers(items, moved) <==> x in items && x.id in moved
    ensures forall x :: x in Siblings(items, moved, parent) <==> x in items && x.id !in moved && x.parentId == parent
    ensures DistinctItems(items) ==>
              DistinctItems(Movers(items, moved)) && DistinctItems(Siblings(items, moved, parent))
  {
    if items != [] {
      MoversMeaning(Init(items), moved, parent);
      assert items == Init(items) + [Last(items)];
    }
  }

  lemma SortKeepsItems(order: Order, items: seq<ForestItem>)
    ensures forall x :: x in Sort(order, items) <==> x in items
    ensures |Sort(order, items)| == |items|
    ensures DistinctItems(items) ==> DistinctItems(Sort(order, items))
  {
    var sorted := Sort(order, items);
    if items != [] {
      SortIsStable(order, items, items[0]);
    }
    assert multiset(sorted) == multiset(items);
    forall x
      ensures x in sorted <==> x in items
    {
      assert x in sorted <==> x in multiset(sorted);
      assert x in items <==> x in multiset(items);
    }
    assert |sorted| == |multiset(sorted)| == |items|;
    if DistinctItems(items) {
      DistinctFromMultiset(sorted, items);
    }
  }

  lemma DistinctFromMultiset(a: seq<ForestItem>, b: seq<ForestItem>)
    requires multiset(a) == multiset(b) && DistinctItems(b)
    ensures DistinctItems(a)
  {
    forall i, j | 0 <= i < j < |a|
      ensures a[i].id != a[j].id
    {
      if a[i].id == a[j].id {
        assert a[i] in multiset(a) && a[j] in multiset(a);
        assert a[i] in b && a[j] in b;
        assert a[i] == a[j];
        assert a == a[..i] + [a[i]] + a[i + 1..j] + [a[j]] + a[j + 1..];
        assert multiset(a)[a[i]] >= 2;
        OnceOnly(b, a[i]);
        assert false;
      }
    }
  }

  lemma {:induction false} OnceOnly(b: seq<ForestItem>, x: ForestItem)
    requires DistinctItems(b)
    ensures multiset(b)[x] <= 1
  {
    if b != [] {
      OnceOnly(Init(b), x);
      assert b == Init(b) + [Last(b)];
      if Last(b) == x {
        assert x !in Init(b);
      }
    }
  }

  lemma AdoptedFacts(movers: seq<ForestItem>, parent: Option<Id>)
    requires DistinctItems(movers)
    ensures DistinctItems(Adopted(movers, parent))
    ensures forall x :: x in Adopted(movers, parent) <==>
            x.parentId == parent && exists y :: y in movers && x == y.(parentId := parent)
  {
    var adopted := Adopted(movers, parent);
    forall y | y in movers
      ensures y.(parentId := parent) in adopted
    {
      var i :| 0 <= i < |movers| && movers[i] == y;
      assert adopted[i] == y.(parentId := parent);
    }
  }

  lemma DistinctJoin(a: seq<ForestItem>, b: seq<ForestItem>)
    requires DistinctItems(a) && DistinctItems(b)
    requires forall x, y :: x in a && y in b ==> x.id != y.id
    ensures DistinctItems(a + b)
  {
    forall i, j | 0 <= i < j < |a + b|
      ensures (a + b)[i].id != (a + b)[j].id
    {
      if i < |a| <= j {
        assert a[i] in a && b[j - |a|] in b;
      }
    }
  }

  lemma ShownFacts(items: seq<ForestItem>, nameRank: Id -> int, moved: set<Id>, parent: Option<Id>)
    requires DistinctItems(items)
    ensures var movers := Sort(Shown(nameRank), Movers(items, moved));
            DistinctItems(movers) && forall x :: x in movers <==> x in items && x.id in moved
    ensures var siblings := Sort(Shown(nameRank), Siblings(items, moved, parent));
            DistinctItems(siblings) && forall x :: x in siblings <==>
                x in items && x.id !in moved && x.parentId == parent
  {
    MoversMeaning(items, moved, parent);
    SortKeepsItems(Shown(nameRank), Movers(items, moved));
    SortKeepsItems(Shown(nameRank), Siblings(items, moved, parent));
  }

  /** Siblings around the adopted movers, each row once. */
  lemma JoinedGroup(siblings: seq<ForestItem>, at: nat, adopted: seq<ForestItem>)
    requires at <= |siblings| && DistinctItems(siblings) && DistinctItems(adopted)
    requires forall x, y :: x in siblings && y in adopted ==> x.id != y.id
    ensures DistinctItems(siblings[..at] + adopted + siblings[at..])
    ensures forall x :: x in siblings[..at] + adopted + siblings[at..] <==> x in siblings || x in adopted
  {
    assert siblings == siblings[..at] + siblings[at..];
    DistinctJoin(siblings[..at], adopted);
    DistinctJoin(siblings[..at] + adopted, siblings[at..]);
  }

  /** Who is in the target group: the siblings that stay and the movers, each once. */
  lemma GroupMembers(items: seq<ForestItem>, nameRank: Id -> int, moved: set<Id>, parent: Option<Id>,
                     before: Option<Id>)
    requires DistinctItems(items)
    ensures var group := TargetGroup(items, nameRank, moved, parent, before);
            && DistinctItems(group)
            && forall x :: x in group <==>
                 || (x in items && x.id !in moved && x.parentId == parent)
                 || (x.parentId == parent && exists y :: y in items && y.id in moved && x == y.(parentId := parent))
  {
    var order := Shown(nameRank);
    var movers := Sort(order, Movers(items, moved));
    var siblings := Sort(order, Siblings(items, moved, parent));
    ShownFacts(items, nameRank, moved, parent);
    AdoptedFacts(movers, parent);
    JoinedGroup(siblings, Slot(siblings, before), Adopted(movers, parent));
  }

  /** The group row that takes an item's place, if the move gives it one. */
  lemma PlacedRow(items: seq<ForestItem>, nameRank: Id -> int, moved: set<Id>, parent: Option<Id>, before: Option<Id>,
                  i: nat)
    requires DistinctItems(items) && i < |items|
    ensures var group := TargetGroup(items, nameRank, moved, parent, before);
            var row := MoveCollections(items, nameRank, moved, parent, before)[i];
            && row.id == items[i].id
            && row.parentId == (if items[i].id in moved then parent else items[i].parentId)
            && if items[i].id in moved || items[i].parentId == parent then
                 0 <= row.sortOrder < |group| && row == group[row.sortOrder].(sortOrder := row.sortOrder)
               else row == items[i]
  {
    var group := TargetGroup(items, nameRank, moved, parent, before);
    GroupMembers(items, nameRank, moved, parent, before);
    NumberedMeaning(group);
    var x := items[i];
    if x.id in moved || x.parentId == parent {
      var y := if x.id in moved then x.(parentId := parent) else x;
      assert x in items && y in group;
      var k :| 0 <= k < |group| && group[k] == y;
      assert Numbered(group)[y.id] == y.(sortOrder := k);
    } else {
      forall y | y in group
        ensures y.id != x.id
      {
        if y in items {
          var j :| 0 <= j < |items| && items[j] == y;
        } else {
          var z :| z in items && z.id in moved && y == z.(parentId := parent);
        }
      }
    }
  }

  /** The target group after a move reads siblings-before, movers, siblings-after with sort
      orders exactly 0..n-1: the rows under the target parent are the numbered group. */
  lemma MoveNumbersTargetGroup(items: seq<ForestItem>, nameRank: Id -> int, moved: set<Id>, parent: Option<Id>,
                               before: Option<Id>)
    requires DistinctItems(items)
    ensures var group := TargetGroup(items, nameRank, moved, parent, before);
            var result := MoveCollections(items, nameRank, moved, parent, before);
            (set row | row in result && row.parentId == parent) ==
            (set k | 0 <= k < |group| :: group[k].(sortOrder := k))
  {
    var group := TargetGroup(items, nameRank, moved, parent, before);
    var result := MoveCollections(items, nameRank, moved, parent, before);
    GroupMembers(items, nameRank, moved, parent, before);
    forall row | row in result && row.parentId == parent
      ensures row in set k | 0 <= k < |group| :: group[k].(sortOrder := k)
    {
      var i :| 0 <= i < |result| && result[i] == row;
      PlacedRow(items, nameRank, moved, parent, before, i);
      var k := row.sortOrder;
      assert row == group[k].(sortOrder := k);
    }
    forall k | 0 <= k < |group|
      ensures group[k].(sortOrder := k) in result && group[k].parentId == parent
    {
      GroupRowPlaced(items, nameRank, moved, parent, before, k);
    }
  }

  lemma GroupRowPlaced(items: seq<ForestItem>, nameRank: Id -> int, moved: set<Id>, parent: Option<Id>,
                       before: Option<Id>, k: nat)
    requires DistinctItems(items) && k < |TargetGroup(items, nameRank, moved, parent, before)|
    ensures var y := TargetGroup(items, nameRank, moved, parent, before)[k];
            y.parentId == parent && y.(sortOrder := k) in MoveCollections(items, nameRank, moved, parent, before)
  {
    var group := TargetGroup(items, nameRank, moved, parent, before);
    GroupMembers(items, nameRank, moved, parent, before);
    NumberedMeaning(group);
    var y := group[k];
    assert y in group;
    var x :| x in items && x.id == y.id;
    var i :| 0 <= i < |items| && items[i] == x;
    assert MoveCollections(items, nameRank, moved, parent, before)[i] == y.(sortOrder := k);
  }

  // ----- The move as a change of the tree --------------------------------------

  function RowsOf(items: seq<ForestItem>): (rows: seq<Row>)
    ensures |rows| == |items|
  {
    seq(|items|, i requires 0 <= i < |items| => Row(items[i].id, items[i].parentId))
  }

  lemma {:induction false} ParentsKeys(rows: seq<Row>, x: Id)
    ensures x in ParentsOf(rows) <==> exists i :: 0 <= i < |rows| && rows[i].id == x
  {
    if rows != [] {
      ParentsKeys(Init(rows), x);
      if i :| 0 <= i < |rows| && rows[i].id == x {
        if i < |rows| - 1 {
          assert Init(rows)[i].id == x;
        }
      }
      if x in ParentsOf(Init(rows)) {
        var i :| 0 <= i < |Init(rows)| && Init(rows)[i].id == x;
        assert rows[i].id == x;
      }
    }
  }

  lemma MoveReparents(items: seq<ForestItem>, nameRank: Id -> int, moved: set<Id>, parent: Option<Id>,
                      before: Option<Id>)
    requires DistinctItems(items)
    ensures ParentsOf(RowsOf(MoveCollections(items, nameRank, moved, parent, before))) ==
            Reparented(ParentsOf(RowsOf(items)), moved, parent)
  {
    var result := MoveCollections(items, nameRank, moved, parent, before);
    var was, now := ParentsOf(RowsOf(items)), ParentsOf(RowsOf(result));
    forall i | 0 <= i < |items|
      ensures result[i].id == items[i].id
    {
      PlacedRow(items, nameRank, moved, parent, before, i);
    }
    forall x
      ensures x in now <==> x in was
      ensures x in was ==> now[x] == if x in moved then parent else was[x]
    {
      ParentsKeys(RowsOf(items), x);
      ParentsKeys(RowsOf(result), x);
      if x in was {
        var i :| 0 <= i < |items| && RowsOf(items)[i].id == x;
        assert RowsOf(result)[i].id == x;
        PlacedRow(items, nameRank, moved, parent, before, i);
        ParentOfRow(RowsOf(items), i);
        ParentOfRow(RowsOf(result), i);
      }
      if x in now {
        var i :| 0 <= i < |items| && RowsOf(result)[i].id == x;
        assert RowsOf(items)[i].id == x;
      }
    }
  }

  /** A move that moves something leaves a forest exactly when the new parent is neither a
      mover nor below one. */
  lemma MoveKeepsForestIff(items: seq<ForestItem>, nameRank: Id -> int, moved: set<Id>, parent: Option<Id>,
                           before: Option<Id>)
    requires DistinctItems(items) && Acyclic(ParentsOf(RowsOf(items)))
    requires exists x :: x in items && x.id in moved
    ensures Acyclic(ParentsOf(RowsOf(MoveCollections(items, nameRank, moved, parent, before)))) <==>
            parent.None? ||
            forall x :: x in items && x.id in moved ==> !Above(ParentsOf(RowsOf(items)), parent.value, x.id)
  {
    var parents := ParentsOf(RowsOf(items));
    var movers := set m | m in moved && m in parents;
    MoveReparents(items, nameRank, moved, parent, before);
    assert Reparented(parents, moved, parent) == Reparented(parents, movers, parent);
    forall x | x in items
      ensures x.id in parents
    {
      var i :| 0 <= i < |items| && items[i] == x;
      assert RowsOf(items)[i].id == x.id;
      ParentsKeys(RowsOf(items), x.id);
    }
    forall m | m in movers
      ensures exists x :: x in items && x.id == m
    {
      ParentsKeys(RowsOf(items), m);
      var i :| 0 <= i < |items| && RowsOf(items)[i].id == m;
      assert items[i] in items;
    }
    var x :| x in items && x.id in moved;
    assert x.id in movers;
    MoveStaysAcyclicIff(parents, movers, parent);
  }

  // ----- Name cleanup ---------------------------------------------------------

  /** The ids of the same group that come first. */
  ghost function Smaller(items: set<ForestItem>, order: Order, x: ForestItem): set<Id>
  {
    set y | y in items && y.parentId == x.parentId && Compare(order, y, x) < 0 :: y.id
  }

  /** The reference: every item's sort order is the number of group members before it. */
  ghost function NameSorted(items: seq<ForestItem>, order: Order): (result: seq<ForestItem>)
    ensures |result| == |items|
  {
    seq(|items|, i requires 0 <= i < |items| => items[i].(sortOrder := |Smaller(Elems(items), order, items[i])|))
  }

  /** Distinct ids never compare equal. */
  ghost predicate StrictOrder(order: Order)
  {
    order.ByName? && forall a: Id, b: Id :: a != b ==> order.idRank(a) != order.idRank(b)
  }

  function GroupOf(items: seq<ForestItem>, parent: Option<Id>): seq<ForestItem>
  {
    Siblings(items, {}, parent)
  }

  lemma ComparesByPlace(sorted: seq<ForestItem>, order: Order, j: nat, k: nat)
    requires Sorted(order, sorted) && DistinctItems(sorted) && StrictOrder(order) && j < |sorted| && k < |sorted|
    ensures Compare(order, sorted[j], sorted[k]) < 0 <==> j < k
  {
    CompareSwaps(order, sorted[j], sorted[k]);
    if j < k {
      assert sorted[j].id != sorted[k].id;
      assert Compare(order, sorted[j], sorted[k]) <= 0;
    } else if k < j {
      assert Compare(order, sorted[k], sorted[j]) <= 0;
    }
  }

  /** In a strictly sorted list the index of an element counts the smaller ones. */
  lemma IndexCountsSmaller(sorted: seq<ForestItem>, order: Order, k: nat)
    requires Sorted(order, sorted) && DistinctItems(sorted) && StrictOrder(order) && k < |sorted|
    ensures |set y | y in sorted && Compare(order, y, sorted[k]) < 0 :: y.id| == k
  {
    var smaller := set y | y in sorted && Compare(order, y, sorted[k]) < 0 :: y.id;
    var front := seq(k, i requires 0 <= i < k => sorted[i].id);
    DistinctSize(front);
    assert Elems(front) == smaller by {
      forall i | 0 <= i < k
        ensures sorted[i].id in smaller
      {
        ComparesByPlace(sorted, order, i, k);
        assert sorted[i] in sorted;
      }
      forall y | y in sorted && Compare(order, y, sorted[k]) < 0
        ensures y.id in Elems(front)
      {
        var i :| 0 <= i < |sorted| && sorted[i] == y;
        ComparesByPlace(sorted, order, i, k);
        assert front[i] == y.id;
      }
    }
  }

  lemma SortedGroup(items: seq<ForestItem>, order: Order, parent: Option<Id>)
    requires DistinctItems(items)
    ensures var sorted := Sort(order, GroupOf(items, parent));
            && Sorted(order, sorted) && DistinctItems(sorted)
            && forall x :: x in sorted <==> x in items && x.parentId == parent
  {
    MoversMeaning(items, {}, parent);
    SortKeepsItems(order, GroupOf(items, parent));
    if GroupOf(items, parent) != [] {
      SortIsStable(order, GroupOf(items, parent), GroupOf(items, parent)[0]);
    }
  }

  lemma SortedIndexCounts(items: seq<ForestItem>, order: Order, parent: Option<Id>, k: nat)
    requires DistinctItems(items) && StrictOrder(order)
    requires k < |Sort(order, GroupOf(items, parent))|
    ensures var x := Sort(order, GroupOf(items, parent))[k];
            x in items && x.parentId == parent && |Smaller(Elems(items), order, x)| == k
  {
    var sorted := Sort(order, GroupOf(items, parent));
    SortedGroup(items, order, parent);
    IndexCountsSmaller(sorted, order, k);
    var x := sorted[k];
    assert x in sorted;
    assert Smaller(Elems(items), order, x) == set y | y in sorted && Compare(order, y, x) < 0 :: y.id;
  }

  lemma {:induction false} GroupGrows(items: seq<ForestItem>, x: ForestItem, parent: Option<Id>)
    ensures GroupOf(items + [x], parent) ==
            if x.parentId == parent then GroupOf(items, parent) + [x] else GroupOf(items, parent)
  {
    assert Init(items + [x]) == items;
  }

  /** `sortCollectionsByName`: groups by parent, sorts each, numbers it. Whatever the input
      order, every item ends with its rank in its group. */
  method SortCollectionsByName(items: seq<ForestItem>, order: Order) returns (result: seq<ForestItem>)
    requires DistinctItems(items) && StrictOrder(order)
    ensures result == NameSorted(items, order)
  {
    var groups := GroupByParent(items);
    var placed: map<Id, ForestItem> := map[];
    var rest := groups.Keys;
    while rest != {}
      invariant rest <= groups.Keys
      invariant forall x :: x in items && x.parentId in groups.Keys - rest ==>
                  x.id in placed && placed[x.id] == x.(sortOrder := |Smaller(Elems(items), order, x)|)
      decreases rest
    {
      var p :| p in rest;
      placed := PlaceGroup(items, order, p, Sort(order, groups[p]), placed);
      rest := rest - {p};
    }
    forall j | 0 <= j < |items|
      ensures items[j].id in placed && placed[items[j].id] == NameSorted(items, order)[j]
    {
      assert items[j] in items && items[j].parentId in groups;
    }
    result := seq(|items|, j requires 0 <= j < |items| => placed[items[j].id]);
  }

  /** The groups of a list: each parent's items, in the order they came. */
  ghost predicate Grouped(items: seq<ForestItem>, groups: map<Option<Id>, seq<ForestItem>>)
  {
    && (forall x :: x in items ==> x.parentId in groups)
    && forall p :: GroupOf(items, p) == if p in groups then groups[p] else []
  }

  lemma GroupedAppend(items: seq<ForestItem>, groups: map<Option<Id>, seq<ForestItem>>, x: ForestItem)
    requires Grouped(items, groups)
    ensures var p := x.parentId;
            Grouped(items + [x], groups[p := (if p in groups then groups[p] else []) + [x]])
  {
    var p := x.parentId;
    var next := groups[p := (if p in groups then groups[p] else []) + [x]];
    forall q
      ensures GroupOf(items + [x], q) == if q in next then next[q] else []
    {
      GroupGrows(items, x, q);
    }
  }

  /** The first loop: each parent's items, in the order they came. */
  method GroupByParent(items: seq<ForestItem>) returns (groups: map<Option<Id>, seq<ForestItem>>)
    ensures Grouped(items, groups)
  {
    groups := map[];
    var i := 0;
    while i < |items|
      invariant 0 <= i <= |items|
      invariant Grouped(items[..i], groups)
    {
      var p := items[i].parentId;
      assert items[..i + 1] == items[..i] + [items[i]];
      GroupedAppend(items[..i], groups, items[i]);
      groups := groups[p := (if p in groups then groups[p] else []) + [items[i]]];
      i := i + 1;
    }
    assert items[..i] == items;
  }

  method PlaceGroup(ghost items: seq<ForestItem>, ghost order: Order, ghost parent: Option<Id>,
                    sorted: seq<ForestItem>, start: map<Id, ForestItem>) returns (placed: map<Id, ForestItem>)
    requires DistinctItems(items) && StrictOrder(order) && sorted == Sort(order, GroupOf(items, parent))
    ensures forall x :: x in items && x.parentId == parent ==>
              x.id in placed && placed[x.id] == x.(sortOrder := |Smaller(Elems(items), order, x)|)
    ensures forall x :: x in items && x.parentId != parent && x.id in start ==>
            x.id in placed && placed[x.id] == start[x.id]
  {
    SortedGroup(items, order, parent);
    placed := start;
    var k := 0;
    while k < |sorted|
      invariant 0 <= k <= |sorted|
      invariant forall j :: 0 <= j < k ==>
                  sorted[j].id in placed && placed[sorted[j].id] ==
                      sorted[j].(sortOrder := |Smaller(Elems(items), order, sorted[j])|)
      invariant forall x :: x in items && x.parentId != parent && x.id in start ==>
                x.id in placed && placed[x.id] == start[x.id]
    {
      SortedIndexCounts(items, order, parent, k);
      assert sorted[k] in sorted;
      placed := placed[sorted[k].id := sorted[k].(sortOrder := k)];
      forall x | x in items && x.parentId != parent
        ensures x.id != sorted[k].id
      {
        DifferentIds(items, x, sorted[k]);
      }
      k := k + 1;
    }
  }

  lemma DifferentIds(items: seq<ForestItem>, x: ForestItem, y: ForestItem)
    requires DistinctItems(items) && x in items && y in items && x != y
    ensures x.id != y.id
  {
    var i :| 0 <= i < |items| && items[i] == x;
    var j :| 0 <= j < |items| && items[j] == y;
  }

  /** The rank depends on who is in the group, not on the order they were listed in. */
  lemma NameSortIgnoresInputOrder(items: seq<ForestItem>, other: seq<ForestItem>, order: Order)
    requires Elems(items) == Elems(other)
    ensures Elems(NameSorted(items, order)) == Elems(NameSorted(other, order))
  {
    NameSortedElems(items, order);
    NameSortedElems(other, order);
  }

  lemma NameSortedElems(items: seq<ForestItem>, order: Order)
    ensures Elems(NameSorted(items, order)) ==
            set x | x in Elems(items) :: x.(sortOrder := |Smaller(Elems(items), order, x)|)
  {
    var result := NameSorted(items, order);
    forall x | x in items
      ensures x.(sortOrder := |Smaller(Elems(items), order, x)|) in result
    {
      var i :| 0 <= i < |items| && items[i] == x;
      assert result[i] == x.(sortOrder := |Smaller(Elems(items), order, x)|);
    }
  }

  lemma CompareIgnoresSortOrder(order: Order, a: ForestItem, b: ForestItem, m: int, n: int)
    requires order.ByName?
    ensures Compare(order, a.(sortOrder := m), b.(sortOrder := n)) == Compare(order, a, b)
  {
  }

  lemma SmallerAfterCleanup(items: seq<ForestItem>, order: Order, i: nat)
    requires order.ByName? && i < |items|
    ensures Smaller(Elems(NameSorted(items, order)), order, NameSorted(items, order)[i]) ==
            Smaller(Elems(items), order, items[i])
  {
    var once := NameSorted(items, order);
    var before, after := Smaller(Elems(items), order, items[i]), Smaller(Elems(once), order, once[i]);
    forall j | 0 <= j < |items|
      ensures Compare(order, once[j], once[i]) == Compare(order, items[j], items[i])
    {
      CompareIgnoresSortOrder(order, items[j], items[i], once[j].sortOrder, once[i].sortOrder);
    }
    forall y | y in Elems(once) && y.parentId == once[i].parentId && Compare(order, y, once[i]) < 0
      ensures y.id in before
    {
      var j :| 0 <= j < |once| && once[j] == y;
      assert items[j] in Elems(items);
    }
    forall y | y in Elems(items) && y.parentId == items[i].parentId && Compare(order, y, items[i]) < 0
      ensures y.id in after
    {
      var j :| 0 <= j < |items| && items[j] == y;
      assert once[j] in Elems(once);
    }
  }

  /** Cleaning up twice is cleaning up once. */
  lemma NameSortIsIdempotent(items: seq<ForestItem>, order: Order)
    requires order.ByName?
    ensures NameSorted(NameSorted(items, order), order) == NameSorted(items, order)
  {
    forall i | 0 <= i < |items|
      ensures NameSorted(NameSorted(items, order), order)[i] == NameSorted(items, order)[i]
    {
      SmallerAfterCleanup(items, order, i);
    }
  }
}
