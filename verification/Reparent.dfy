/** What moving collections does to the tree itself: when it stays a forest, and which
    subtree counts it can change. */
module Reparent {
  import opened Core
  import opened Forest
  import opened Counts
  import opened Recount

  /** The parent map after every mover's parent becomes `parent`. */
  function Reparented(parents: ParentMap, movers: set<Id>, parent: Option<Id>): ParentMap
  {
    map x | x in parents :: if x in movers then parent else parents[x]
  }

  /** Climbing meets a mover, or climbs alike in both maps. */
  lemma {:induction false} ClimbUntilMover(a: ParentMap, b: ParentMap, movers: set<Id>, x: Id, n: nat)
    requires forall y :: y !in movers ==> Parent(a, y) == Parent(b, y)
    requires Up(a, x, n).Some?
    ensures || Up(b, x, n) == Up(a, x, n)
            || exists j: nat :: j < n && Up(a, x, j).Some? && Up(a, x, j).value in movers && Up(b, x, j) == Up(a, x, j)
  {
    if n > 0 {
      UpReaches(a, x, n, n - 1);
      ClimbUntilMover(a, b, movers, x, n - 1);
      if Up(b, x, n - 1) == Up(a, x, n - 1) {
        if Up(a, x, n - 1).value in movers {
        } else {
          assert Up(b, x, n) == Up(a, x, n);
        }
      } else {
        var j: nat :| j < n - 1 && Up(a, x, j).Some? && Up(a, x, j).value in movers && Up(b, x, j) == Up(a, x, j);
        assert j < n;
      }
    }
  }

  /** Above some mover or reached alike: the first mover on the way is reached in both maps. */
  lemma FirstMoverReached(a: ParentMap, b: ParentMap, movers: set<Id>, x: Id, m: Id) returns (first: Id)
    requires forall y :: y !in movers ==> Parent(a, y) == Parent(b, y)
    requires Above(a, x, m) && m in movers
    ensures first in movers && Above(a, x, first) && Above(b, x, first)
  {
    var n: nat :| Up(a, x, n) == Some(m);
    ClimbUntilMover(a, b, movers, x, n);
    if Up(b, x, n) == Up(a, x, n) {
      first := m;
    } else {
      var j: nat :| j < n && Up(a, x, j).Some? && Up(a, x, j).value in movers && Up(b, x, j) == Up(a, x, j);
      first := Up(a, x, j).value;
    }
  }

  lemma UpOne(parents: ParentMap, x: Id)
    ensures Up(parents, x, 1) == Parent(parents, x)
  {
    assert Up(parents, x, 0) == Some(x);
  }

  /** A cycle through an edge: x's parent lies below x. */
  lemma CycleIff(parents: ParentMap, x: Id, y: Id)
    requires Parent(parents, x) == Some(y) && Above(parents, y, x)
    ensures !Acyclic(parents)
  {
    var n: nat :| Up(parents, y, n) == Some(x);
    UpOne(parents, x);
    UpAdds(parents, x, 1, n);
    assert Up(parents, x, 1 + n) == Some(x);
  }

  lemma CycleHasMover(old_: ParentMap, new_: ParentMap, movers: set<Id>, x: Id, n: nat) returns (m: Id)
    requires forall y :: y !in movers ==> Parent(new_, y) == Parent(old_, y)
    requires Acyclic(old_) && n >= 1 && Up(new_, x, n) == Some(x)
    ensures m in movers && Parent(new_, m).Some? && Above(new_, Parent(new_, m).value, m)
  {
    ClimbUntilMover(new_, old_, movers, x, n);
    assert Up(old_, x, n) != Some(x);
    var j: nat :| j < n && Up(new_, x, j).Some? && Up(new_, x, j).value in movers && Up(old_, x, j) == Up(new_, x, j);
    m := Up(new_, x, j).value;
    UpReaches(new_, x, n, j + 1);
    assert Up(new_, x, j + 1) == Parent(new_, m);
    var p := Parent(new_, m).value;
    UpAdds(new_, x, j + 1, n - (j + 1));
    assert Above(new_, p, x);
    assert Above(new_, x, m);
    AboveTransitive(new_, p, x, m);
  }

  /** Moving at least one collection keeps the tree acyclic exactly when the new parent
      is not a mover and lies below none. */
  lemma MoveStaysAcyclicIff(parents: ParentMap, movers: set<Id>, parent: Option<Id>)
    requires Acyclic(parents) && movers != {} && movers <= parents.Keys
    ensures Acyclic(Reparented(parents, movers, parent)) <==>
            parent.None? || forall m :: m in movers ==> !Above(parents, parent.value, m)
  {
    var next := Reparented(parents, movers, parent);
    if parent.Some? {
      if m :| m in movers && Above(parents, parent.value, m) {
        var first := FirstMoverReached(parents, next, movers, parent.value, m);
        CycleIff(next, first, parent.value);
      }
    }
    if !Acyclic(next) {
      var x, n: nat :| n >= 1 && Up(next, x, n) == Some(x);
      var m := CycleHasMover(parents, next, movers, x, n);
      assert Parent(next, m) == parent;
      var first := FirstMoverReached(next, parents, movers, parent.value, m);
    }
  }

  /** The collections a move can touch: a mover's old parent, the new parent, and
      everything above either. */
  ghost predicate Touched(parents: ParentMap, movers: set<Id>, parent: Option<Id>, c: Id)
  {
    || (parent.Some? && Above(parents, parent.value, c))
    || exists m :: m in movers && Parent(parents, m).Some? && Above(parents, Parent(parents, m).value, c)
  }

  lemma {:induction false} UntouchedClimb(parents: ParentMap, movers: set<Id>, parent: Option<Id>, c: Id, x: Id, n: nat)
    requires movers <= parents.Keys && !Touched(parents, movers, parent, c)
    requires Up(Reparented(parents, movers, parent), x, n) == Some(c)
    ensures Above(parents, x, c)
    decreases n
  {
    var next := Reparented(parents, movers, parent);
    ClimbUntilMover(next, parents, movers, x, n);
    if Up(parents, x, n) != Some(c) {
      var j: nat :| j < n && Up(next, x, j).Some? && Up(next, x, j).value in movers &&
          Up(parents, x, j) == Up(next, x, j);
      UpReaches(next, x, n, j + 1);
      assert Up(next, x, j + 1) == parent;
      UpAdds(next, x, j + 1, n - (j + 1));
      UntouchedClimb(parents, movers, parent, c, parent.value, n - (j + 1));
    }
  }

  /** An untouched collection is above exactly the same collections as before. */
  lemma UntouchedAbove(parents: ParentMap, movers: set<Id>, parent: Option<Id>, c: Id, x: Id)
    requires movers <= parents.Keys && !Touched(parents, movers, parent, c)
    ensures Above(parents, x, c) <==> Above(Reparented(parents, movers, parent), x, c)
  {
    var next := Reparented(parents, movers, parent);
    if Above(next, x, c) {
      var n: nat :| Up(next, x, n) == Some(c);
      UntouchedClimb(parents, movers, parent, c, x, n);
    }
    if Above(parents, x, c) {
      var n: nat :| Up(parents, x, n) == Some(c);
      ClimbUntilMover(parents, next, movers, x, n);
      if Up(next, x, n) != Some(c) {
        var j: nat :| j < n && Up(parents, x, j).Some? && Up(parents, x, j).value in movers &&
            Up(next, x, j) == Up(parents, x, j);
        var m := Up(parents, x, j).value;
        UpReaches(parents, x, n, j + 1);
        assert Up(parents, x, j + 1) == Parent(parents, m);
        UpAdds(parents, x, j + 1, n - (j + 1));
      }
    }
  }

  /** Only ancestors-or-self of a mover's old or new parent can change their subtree
      count, in any library and on any parent map. */
  lemma OnlyTouchedCountsChange(parents: ParentMap, movers: set<Id>, parent: Option<Id>, holdings: Holdings, c: Id)
    requires movers <= parents.Keys && !Touched(parents, movers, parent, c)
    ensures Tally(holdings, Subtree(Reparented(parents, movers, parent), c)) == Tally(holdings, Subtree(parents, c))
  {
    var next := Reparented(parents, movers, parent);
    forall b | b in holdings
      ensures Fits(Subtree(next, c), holdings[b]) <==> Fits(Subtree(parents, c), holdings[b])
    {
      InCounting(parents, holdings[b], c);
      InCounting(next, holdings[b], c);
      forall x | x in holdings[b]
        ensures Above(parents, x, c) <==> Above(next, x, c)
      {
        UntouchedAbove(parents, movers, parent, c, x);
      }
    }
    assert Fitting(holdings, Subtree(next, c)) == Fitting(holdings, Subtree(parents, c));
  }
}
