/** When repeating a membership change leaves the list alone, not only the set. */
module Repeats {
  import opened Core
  import opened Counts
  import opened Rollback

  /** Everything that is also on the remove list stands at the end. */
  ghost predicate TailRemoved(list: seq<Id>, removed: set<Id>)
  {
    forall i, j :: 0 <= i < j < |list| && list[i] in removed ==> list[j] in removed
  }

  /** The condition on the request: behind an id that is both added and removed, the add
      list names nothing new that stays. */
  predicate NothingNewBehind(current: seq<Id>, add: seq<Id>, removed: set<Id>)
  {
    forall i, j :: 0 <= i < j < |add| && add[i] in removed && add[j] !in removed ==>
      add[j] in current || add[j] in add[..i]
  }

  lemma {:induction false} WithoutAll(list: seq<Id>, removed: set<Id>)
    requires Elems(list) <= removed
    ensures Without(list, removed) == []
  {
    if list != [] {
      ElemsInit(list);
      assert Last(list) in Elems(list);
      WithoutAll(Init(list), removed);
    }
  }

  /** A list with the removed ids at its end is its two halves. */
  lemma {:induction false} Halves(list: seq<Id>, removed: set<Id>, stays: set<Id>)
    requires TailRemoved(list, removed) && removed !! stays && Elems(list) <= removed + stays
    ensures list == Without(list, removed) + Without(list, stays)
  {
    if list != [] {
      var front, last := Init(list), Last(list);
      ElemsInit(list);
      assert last in Elems(list);
      assert list == front + [last];
      Halves(front, removed, stays);
      if last !in removed {
        forall x | x in Elems(front)
          ensures x in stays
        {
          var i :| 0 <= i < |front| && front[i] == x;
          assert list[i] == x && list[|list| - 1] == last;
        }
        WithoutAll(front, stays);
      }
    }
  }

  /** What a change appends to a list without removed ids. */
  lemma {:induction false} AppendsInOrder(kept: seq<Id>, add: seq<Id>, removed: set<Id>)
    requires Elems(kept) !! removed
    requires forall x :: x in add ==> x in kept || x in removed
    ensures TailRemoved(WithAdded(kept, add), removed)
  {
    if add == [] {
      assert forall x :: x in kept ==> x in Elems(kept);
    } else {
      assert add == Init(add) + [Last(add)];
      AppendsInOrder(kept, Init(add), removed);
      WithAddedElems(kept, Init(add));
      assert Last(add) in kept ==> Last(add) in Elems(WithAdded(kept, Init(add)));
    }
  }

  /** Twice, the list is the ids that stay, then the ones both removed and added. */
  lemma TwiceIsSorted(current: seq<Id>, add: seq<Id>, remove: seq<Id>)
    ensures var once := NextMembershipOf(current, add, remove);
            var twice := NextMembershipOf(once, add, remove);
            && TailRemoved(twice, Elems(remove))
            && Without(twice, Elems(remove)) == Without(once, Elems(remove))
  {
    var r := Elems(remove);
    var once := NextMembershipOf(current, add, remove);
    var kept1 := Without(once, r);
    WithoutElems(once, r);
    NextMembershipAsSet(current, add, remove);
    forall x | x in add
      ensures x in kept1 || x in r
    {
      assert x in Elems(add) && (x in kept1 <==> x in Elems(kept1));
    }
    AppendsInOrder(kept1, add, r);
    WithoutTwice(once, r);
    WithoutWithAdded(kept1, add, r);
    WithoutElems(add, r);
    forall x | x in Elems(Without(add, r))
      ensures x in Elems(kept1)
    {
      assert x in Elems(add) - r;
    }
    WithAddedAbsorbs(kept1, Without(add, r));
  }

  /** The removed half does not depend on what was kept. */
  lemma SameRemovedHalf(a: seq<Id>, b: seq<Id>, add: seq<Id>, stays: set<Id>)
    requires Elems(a) <= stays && Elems(b) <= stays
    ensures Without(WithAdded(a, add), stays) == Without(WithAdded(b, add), stays)
  {
    WithoutWithAdded(a, add, stays);
    WithoutWithAdded(b, add, stays);
    WithoutAll(a, stays);
    WithoutAll(b, stays);
  }

  lemma FixedIffSorted(current: seq<Id>, add: seq<Id>, remove: seq<Id>)
    ensures var once := NextMembershipOf(current, add, remove);
            NextMembershipOf(once, add, remove) == once <==> TailRemoved(once, Elems(remove))
  {
    var r := Elems(remove);
    var once := NextMembershipOf(current, add, remove);
    var twice := NextMembershipOf(once, add, remove);
    TwiceIsSorted(current, add, remove);
    if TailRemoved(once, r) {
      var stays := (Elems(current) + Elems(add)) - r;
      NextMembershipAsSet(current, add, remove);
      NextMembershipAsSet(once, add, remove);
      WithoutElems(current, r);
      WithoutElems(once, r);
      SameRemovedHalf(Without(current, r), Without(once, r), add, stays);
      Halves(once, r, stays);
      Halves(twice, r, stays);
    }
  }

  lemma {:induction false} SortedIffNothingNewBehind(kept: seq<Id>, add: seq<Id>, removed: set<Id>)
    requires forall x :: x in kept ==> x !in removed
    ensures TailRemoved(WithAdded(kept, add), removed) <==> NothingNewBehind(kept, add, removed)
  {
    if add != [] {
      var front, x := Init(add), Last(add);
      var earlier := WithAdded(kept, front);
      assert add == front + [x];
      SortedIffNothingNewBehind(kept, front, removed);
      EarlierHolds(kept, front);
      FrontCondition(kept, front, x, removed);
      if x !in earlier {
        SortedAppend(earlier, x, removed);
      }
    }
  }

  lemma EarlierHolds(kept: seq<Id>, add: seq<Id>)
    ensures forall x :: x in WithAdded(kept, add) <==> x in kept || x in add
  {
    WithAddedElems(kept, add);
    forall x
      ensures x in WithAdded(kept, add) <==> x in kept || x in add
    {
      assert x in WithAdded(kept, add) <==> x in Elems(WithAdded(kept, add));
    }
  }

  lemma SortedAppend(list: seq<Id>, x: Id, removed: set<Id>)
    ensures TailRemoved(list + [x], removed) <==>
              TailRemoved(list, removed) && (x in removed || forall y :: y in list ==> y !in removed)
  {
    var all := list + [x];
    if TailRemoved(all, removed) {
      forall i, j | 0 <= i < j < |list| && list[i] in removed
        ensures list[j] in removed
      {
        assert all[i] == list[i] && all[j] == list[j];
      }
      if x !in removed {
        forall y | y in list
          ensures y !in removed
        {
          var i :| 0 <= i < |list| && list[i] == y;
          assert all[i] == y && all[|list|] == x;
        }
      }
    }
  }

  /** One more id on the add list: what it does to the condition. */
  lemma FrontCondition(kept: seq<Id>, front: seq<Id>, x: Id, removed: set<Id>)
    ensures NothingNewBehind(kept, front + [x], removed) <==>
              && NothingNewBehind(kept, front, removed)
              && (x in removed || x in kept || x in front || forall y :: y in front ==> y !in removed)
  {
    var all := front + [x];
    assert forall i :: 0 <= i <= |front| ==> all[..i] == front[..i];
    if NothingNewBehind(kept, all, removed) {
      forall i, j | 0 <= i < j < |front| && front[i] in removed && front[j] !in removed
        ensures front[j] in kept || front[j] in front[..i]
      {
        assert all[i] == front[i] && all[j] == front[j];
      }
      if x !in removed && x !in kept && x !in front {
        forall y | y in front
          ensures y !in removed
        {
          var i :| 0 <= i < |front| && front[i] == y;
          assert all[i] == y && all[|front|] == x;
          assert x in front[..i] ==> x in front;
        }
      }
    }
    if NothingNewBehind(kept, front, removed) && (x in removed || x in kept || x in front || forall y :: y in front ==>
                                                  y !in removed) {
      forall i, j | 0 <= i < j < |all| && all[i] in removed && all[j] !in removed
        ensures all[j] in kept || all[j] in all[..i]
      {
        if j == |front| && x !in kept {
          assert front[i] in front;
          var k :| 0 <= k < |front| && front[k] == x;
          if k < i {
            assert front[..i][k] == x;
          }
        }
      }
    }
  }

  /** The exact condition: repeating a change leaves the list as it is if and only if the add
      list names nothing new that stays behind an id that is also removed. */
  lemma RepeatLeavesListAloneIff(current: seq<Id>, add: seq<Id>, remove: seq<Id>)
    ensures var once := NextMembershipOf(current, add, remove);
            NextMembershipOf(once, add, remove) == once <==> NothingNewBehind(current, add, Elems(remove))
  {
    var r := Elems(remove);
    var kept := Without(current, r);
    FixedIffSorted(current, add, remove);
    WithoutElems(current, r);
    forall x
      ensures x in kept <==> x in current && x !in r
    {
      assert (x in kept <==> x in Elems(kept)) && (x in current <==> x in Elems(current));
    }
    SortedIffNothingNewBehind(kept, add, r);
    assert NothingNewBehind(kept, add, r) <==> NothingNewBehind(current, add, r);
  }
}
