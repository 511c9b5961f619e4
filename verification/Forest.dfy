/** The collection tree as the client holds it: a parent map that may name missing
    parents and may even be cyclic. `counts.ts` asks which collections count a
    bundle; `catalogOrganize.ts` asks which rows lie below one. */
module Forest {
  import opened Core

  type ParentMap = map<Id, Option<Id>>

  /** The two fields of a `CollectionRead` row (or tag row) the walks use. */
  datatype Row = Row(id: Id, parentId: Option<Id>)

  /** The `Map` built from the rows: a later row with the same id replaces an earlier one. */
  function ParentsOf(rows: seq<Row>): (parents: ParentMap)
  {
    if rows == [] then map[] else ParentsOf(Init(rows))[Last(rows).id := Last(rows).parentId]
  }

  /** `parents.get(x) ?? null` */
  function Parent(parents: ParentMap, x: Id): Option<Id>
  {
    if x in parents then parents[x] else None
  }

  /** The n-th step of the walk up from x. */
  function Up(parents: ParentMap, x: Id, n: nat): Option<Id>
  {
    if n == 0 then Some(x)
    else
      match Up(parents, x, n - 1)
      case None => None
      case Some(y) => Parent(parents, y)
  }

  /** y is x itself or an ancestor of x. */
  ghost predicate Above(parents: ParentMap, x: Id, y: Id)
  {
    exists n: nat :: Up(parents, x, n) == Some(y)
  }

  ghost predicate AboveSome(parents: ParentMap, memberships: set<Id>, y: Id)
  {
    exists x :: x in memberships && Above(parents, x, y)
  }

  /** Every id the walk from these memberships could ever meet. */
  ghost function Universe(parents: ParentMap, memberships: set<Id>): set<Id>
  {
    memberships + set x | x in parents && parents[x].Some? :: parents[x].value
  }

  /** The collections that count a bundle: each membership with all its ancestors. */
  ghost function Counting(parents: ParentMap, memberships: set<Id>): (r: set<Id>)
  {
    set y | y in Universe(parents, memberships) && AboveSome(parents, memberships, y)
  }

  ghost predicate ParentClosed(parents: ParentMap, s: set<Id>)
  {
    forall x :: x in s && Parent(parents, x).Some? ==> Parent(parents, x).value in s
  }

  ghost predicate Acyclic(parents: ParentMap)
  {
    forall x, n: nat :: n >= 1 ==> Up(parents, x, n) != Some(x)
  }

  // ----- Walking up -------------------------------------------------------

  lemma {:induction false} UpAdds(parents: ParentMap, x: Id, a: nat, b: nat)
    requires Up(parents, x, a).Some?
    ensures Up(parents, x, a + b) == Up(parents, Up(parents, x, a).value, b)
  {
    if b > 0 {
      UpAdds(parents, x, a, b - 1);
    }
  }

  lemma {:induction false} UpReaches(parents: ParentMap, x: Id, n: nat, m: nat)
    requires m <= n && Up(parents, x, n).Some?
    ensures Up(parents, x, m).Some?
  {
    if m < n {
      UpReaches(parents, x, n - 1, m);
    }
  }

  lemma AboveTransitive(parents: ParentMap, x: Id, y: Id, z: Id)
    requires Above(parents, x, y) && Above(parents, y, z)
    ensures Above(parents, x, z)
  {
    var a: nat :| Up(parents, x, a) == Some(y);
    var b: nat :| Up(parents, y, b) == Some(z);
    UpAdds(parents, x, a, b);
  }

  lemma AboveSelf(parents: ParentMap, x: Id)
    ensures Above(parents, x, x)
  {
    assert Up(parents, x, 0) == Some(x);
  }

  lemma AboveParent(parents: ParentMap, x: Id, y: Id)
    requires Above(parents, x, y) && Parent(parents, y).Some?
    ensures Above(parents, x, Parent(parents, y).value)
  {
    var n: nat :| Up(parents, x, n) == Some(y);
    assert Up(parents, x, n + 1) == Parent(parents, y);
  }

  lemma {:induction false} UpStaysInUniverse(parents: ParentMap, x: Id, memberships: set<Id>, n: nat)
    requires x in memberships && Up(parents, x, n).Some?
    ensures Up(parents, x, n).value in Universe(parents, memberships)
  {
    if n > 0 {
      UpReaches(parents, x, n, n - 1);
    }
  }

  /** Membership in the counting set, without the finite bound. */
  lemma InCounting(parents: ParentMap, memberships: set<Id>, y: Id)
    ensures y in Counting(parents, memberships) <==> AboveSome(parents, memberships, y)
  {
    if AboveSome(parents, memberships, y) {
      var x :| x in memberships && Above(parents, x, y);
      var n: nat :| Up(parents, x, n) == Some(y);
      UpStaysInUniverse(parents, x, memberships, n);
    }
  }

  lemma {:induction false} ClosedContainsWalk(parents: ParentMap, s: set<Id>, x: Id, n: nat)
    requires ParentClosed(parents, s) && x in s && Up(parents, x, n).Some?
    ensures Up(parents, x, n).value in s
  {
    if n > 0 {
      UpReaches(parents, x, n, n - 1);
      ClosedContainsWalk(parents, s, x, n - 1);
    }
  }

  /** The counting set is the least parent-closed set holding the memberships, on
      every parent map: cyclic and dangling ones included. */
  lemma CountingIsLeastClosed(parents: ParentMap, memberships: set<Id>)
    ensures memberships <= Counting(parents, memberships)
    ensures ParentClosed(parents, Counting(parents, memberships))
    ensures forall s :: memberships <= s && ParentClosed(parents, s) ==> Counting(parents, memberships) <= s
  {
    forall x | x in memberships
      ensures x in Counting(parents, memberships)
    {
      AboveSelf(parents, x);
      InCounting(parents, memberships, x);
    }
    forall y | y in Counting(parents, memberships) && Parent(parents, y).Some?
      ensures Parent(parents, y).value in Counting(parents, memberships)
    {
      var x :| x in memberships && Above(parents, x, y);
      AboveParent(parents, x, y);
      InCounting(parents, memberships, Parent(parents, y).value);
    }
    forall s | memberships <= s && ParentClosed(parents, s)
      ensures Counting(parents, memberships) <= s
    {
      forall y | y in Counting(parents, memberships)
        ensures y in s
      {
        var x :| x in memberships && Above(parents, x, y);
        var n: nat :| Up(parents, x, n) == Some(y);
        ClosedContainsWalk(parents, s, x, n);
      }
    }
  }

  /** `countingCollectionIds`: the walk stops at the first collection it already
      counted, so it ends even on a cycle. */
  method CountingCollectionIds(rows: seq<Row>, memberships: seq<Id>) returns (covered: set<Id>)
    ensures covered == Counting(ParentsOf(rows), Elems(memberships))
  {
    var parents := ParentsOf(rows);
    ghost var target := Counting(parents, Elems(memberships));
    CountingIsLeastClosed(parents, Elems(memberships));
    covered := {};
    var i := 0;
    while i < |memberships|
      invariant 0 <= i <= |memberships|
      invariant covered <= target
      invariant ParentClosed(parents, covered)
      invariant forall j :: 0 <= j < i ==> memberships[j] in covered
    {
      var current := Some(memberships[i]);
      while current.Some? && current.value !in covered
        invariant covered <= target
        invariant current.Some? ==> current.value in target
        invariant forall x :: x in covered && Parent(parents, x).Some? ==>
                    Parent(parents, x).value in covered || Parent(parents, x) == current
        invariant forall j :: 0 <= j < i ==> memberships[j] in covered
        invariant memberships[i] in covered || current == Some(memberships[i])
        decreases target - covered
      {
        covered := covered + {current.value};
        current := Parent(parents, current.value);
      }
      i := i + 1;
    }
  }

  // ----- Walking down -----------------------------------------------------

  /** A row lies directly below `member`. `if (tag.parent_id)` skips an empty parent id. */
  predicate IsChild(rows: seq<Row>, member: Id, child: Id)
  {
    exists i :: 0 <= i < |rows| && rows[i].id == child && rows[i].parentId == Some(member) && member.text != ""
  }

  ghost predicate ChildClosed(rows: seq<Row>, s: set<Id>)
  {
    forall m, c :: m in s && IsChild(rows, m, c) ==> c in s
  }

  /** `children.get(member) ?? []`, in row order. */
  function ChildrenOf(rows: seq<Row>, member: Id): (children: seq<Id>)
  {
    if rows == [] then []
    else
      var earlier := ChildrenOf(Init(rows), member);
      if Last(rows).parentId == Some(member) && member.text != "" then earlier + [Last(rows).id] else earlier
  }

  lemma {:induction false} ChildrenAreChildren(rows: seq<Row>, member: Id, c: Id)
    ensures c in ChildrenOf(rows, member) <==> IsChild(rows, member, c)
  {
    if rows != [] {
      ChildrenAreChildren(Init(rows), member, c);
      if IsChild(Init(rows), member, c) {
        var i :| 0 <= i < |Init(rows)| && Init(rows)[i].id == c && Init(rows)[i].parentId == Some(member);
        assert rows[i] == Init(rows)[i];
      }
      if IsChild(rows, member, c) {
        var i :| 0 <= i < |rows| && rows[i].id == c && rows[i].parentId == Some(member);
        if i < |rows| - 1 {
          assert Init(rows)[i] == rows[i];
        }
      }
    }
  }

  function RowIds(rows: seq<Row>): set<Id>
  {
    set r | r in rows :: r.id
  }

  /** `tagDeleteImpact`: the set grows while it is being iterated, so every added
      member is itself visited. The result is the least set holding `id` that is
      closed under taking children. */
  method DescendingIds(rows: seq<Row>, id: Id) returns (subtree: set<Id>)
    ensures id in subtree && ChildClosed(rows, subtree)
    ensures forall s :: id in s && ChildClosed(rows, s) ==> subtree <= s
  {
    var order := [id];
    var visited := 0;
    ghost var bound := RowIds(rows) + {id};
    while visited < |order|
      invariant 0 <= visited <= |order|
      invariant |order| > 0 && order[0] == id && Distinct(order) && Elems(order) <= bound
      invariant forall j, c :: 0 <= j < visited && IsChild(rows, order[j], c) ==> c in order
      invariant forall s :: id in s && ChildClosed(rows, s) ==> Elems(order) <= s
      decreases |bound| - visited
    {
      var member := order[visited];
      var children := ChildrenOf(rows, member);
      forall c
        ensures c in children <==> IsChild(rows, member, c)
      {
        ChildrenAreChildren(rows, member, c);
      }
      var k := 0;
      while k < |children|
        invariant 0 <= k <= |children|
        invariant visited < |order| && order[visited] == member && order[0] == id
        invariant Distinct(order) && Elems(order) <= bound
        invariant forall j, c :: 0 <= j < visited && IsChild(rows, order[j], c) ==> c in order
        invariant forall j :: 0 <= j < k ==> children[j] in order
        invariant forall s :: id in s && ChildClosed(rows, s) ==> Elems(order) <= s
      {
        assert IsChild(rows, member, children[k]);
        if children[k] !in order {
          assert member in order;
          order := order + [children[k]];
        }
        k := k + 1;
      }
      DistinctSize(order);
      SubsetSize(Elems(order), bound);
      visited := visited + 1;
    }
    subtree := Elems(order);
    assert order[0] in subtree;
  }

  lemma {:induction false} ParentOfRow(rows: seq<Row>, i: nat)
    requires i < |rows| && forall j, k :: 0 <= j < k < |rows| ==> rows[j].id != rows[k].id
    ensures Parent(ParentsOf(rows), rows[i].id) == rows[i].parentId
  {
    if i < |rows| - 1 {
      ParentOfRow(Init(rows), i);
    }
  }

  lemma {:induction false} ParentComesFromRow(rows: seq<Row>, x: Id)
    requires Parent(ParentsOf(rows), x).Some?
    ensures exists i :: 0 <= i < |rows| && rows[i].id == x && rows[i].parentId == Parent(ParentsOf(rows), x)
  {
    if rows != [] && Last(rows).id != x {
      ParentComesFromRow(Init(rows), x);
      var i :| 0 <= i < |Init(rows)| && Init(rows)[i].id == x && Init(rows)[i].parentId == Parent(ParentsOf(rows), x);
      assert rows[i] == Init(rows)[i];
    }
  }

  ghost predicate DistinctRows(rows: seq<Row>)
  {
    && (forall i, j :: 0 <= i < j < |rows| ==> rows[i].id != rows[j].id)
    && forall i :: 0 <= i < |rows| ==> rows[i].parentId != Some(Id(""))
  }

  lemma {:induction false} ClimbLandsInside(rows: seq<Row>, s: set<Id>, x: Id, id: Id, n: nat)
    requires DistinctRows(rows) && id in s && ChildClosed(rows, s)
    requires Up(ParentsOf(rows), x, n) == Some(id)
    ensures x in s
    decreases n
  {
    var parents := ParentsOf(rows);
    if n > 0 {
      UpReaches(parents, x, n, 1);
      assert Up(parents, x, 1) == Parent(parents, x) by {
        assert Up(parents, x, 0) == Some(x);
      }
      UpAdds(parents, x, 1, n - 1);
      var y := Parent(parents, x).value;
      ClimbLandsInside(rows, s, y, id, n - 1);
      ParentComesFromRow(rows, x);
      assert IsChild(rows, y, x);
    }
  }

  /** Up and down agree: x lies in the subtree grown from `id` exactly when `id`
      counts a bundle held only by x. The requirement is the database's: distinct,
      non-empty ids. */
  lemma DescentIsDualToClimb(rows: seq<Row>, id: Id, subtree: set<Id>, x: Id)
    requires DistinctRows(rows)
    requires id in subtree && ChildClosed(rows, subtree)
    requires forall s :: id in s && ChildClosed(rows, s) ==> subtree <= s
    ensures x in subtree <==> id in Counting(ParentsOf(rows), {x})
  {
    var parents := ParentsOf(rows);
    InCounting(parents, {x}, id);
    if Above(parents, x, id) {
      var n: nat :| Up(parents, x, n) == Some(id);
      ClimbLandsInside(rows, subtree, x, id, n);
    }
    var below := set y | y in RowIds(rows) + {id} && Above(parents, y, id);
    AboveSelf(parents, id);
    forall m, c | m in below && IsChild(rows, m, c)
      ensures c in below
    {
      var i :| 0 <= i < |rows| && rows[i].id == c && rows[i].parentId == Some(m);
      ParentOfRow(rows, i);
      assert Up(parents, c, 0) == Some(c);
      assert Up(parents, c, 1) == Some(m);
      AboveTransitive(parents, c, m, id);
    }
    assert ChildClosed(rows, below);
  }
}
