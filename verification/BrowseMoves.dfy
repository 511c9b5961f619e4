/** Where a dragged block lands, told pair by pair: which of two rows comes first after the
    move, and after the server's answer has settled. */
module BrowseMoves {
  import opened Core
  import opened Counts
  import opened CacheModel
  import opened Listings
  import opened BrowseOrder
  import opened BrowsePages

  /** x comes before y. */
  ghost predicate First(order: seq<Id>, x: Id, y: Id)
  {
    exists i, j :: 0 <= i < j < |order| && order[i] == x && order[j] == y
  }

  lemma FirstIsStrict(order: seq<Id>, x: Id, y: Id)
    requires Distinct(order)
    ensures !(First(order, x, y) && First(order, y, x)) && !First(order, x, x)
    ensures x in order && y in order && x != y ==> First(order, x, y) || First(order, y, x)
  {
  }

  lemma FirstInParts(a: seq<Id>, b: seq<Id>, x: Id, y: Id)
    ensures First(a + b, x, y) <==> First(a, x, y) || First(b, x, y) || (x in a && y in b)
  {
    var all := a + b;
    if First(all, x, y) {
      var i, j :| 0 <= i < j < |all| && all[i] == x && all[j] == y;
      if j < |a| {
        assert a[i] == x && a[j] == y;
      } else if i >= |a| {
        assert b[i - |a|] == x && b[j - |a|] == y;
      } else {
        assert a[i] == x && b[j - |a|] == y;
      }
    }
    if First(a, x, y) {
      var i, j :| 0 <= i < j < |a| && a[i] == x && a[j] == y;
      assert all[i] == x && all[j] == y;
    }
    if First(b, x, y) {
      var i, j :| 0 <= i < j < |b| && b[i] == x && b[j] == y;
      assert all[|a| + i] == x && all[|a| + j] == y;
    }
    if x in a && y in b {
      var i :| 0 <= i < |a| && a[i] == x;
      var j :| 0 <= j < |b| && b[j] == y;
      assert all[i] == x && all[|a| + j] == y;
    }
  }

  lemma FirstAtEnd(front: seq<Id>, last: Id, x: Id, y: Id)
    ensures First(front + [last], x, y) <==> First(front, x, y) || (x in front && y == last)
  {
    FirstInParts(front, [last], x, y);
  }

  /** Keeping or dropping ids leaves the others in their order. */
  lemma {:induction false} FilterKeepsFirst(order: seq<Id>, chosen: set<Id>, x: Id, y: Id)
    ensures First(Only(order, chosen), x, y) <==> First(order, x, y) && x in chosen && y in chosen
    ensures First(Without(order, chosen), x, y) <==> First(order, x, y) && x !in chosen && y !in chosen
  {
    if order != [] {
      var front, last := Init(order), Last(order);
      FilterKeepsFirst(front, chosen, x, y);
      assert order == front + [last];
      FirstAtEnd(front, last, x, y);
      FirstAtEnd(Only(front, chosen), last, x, y);
      FirstAtEnd(Without(front, chosen), last, x, y);
      OnlyElems(front, chosen);
      WithoutElems(front, chosen);
      assert x in front <==> x in Elems(front);
      assert x in Only(front, chosen) <==> x in Elems(Only(front, chosen));
      assert x in Without(front, chosen) <==> x in Elems(Without(front, chosen));
    }
  }

  /** Everything before the target, and nothing else, is in front of its place. */
  lemma InFront(rest: seq<Id>, t: Id, x: Id)
    requires Distinct(rest) && x in rest
    ensures x in rest[..Position(rest, t)] <==> (t in rest ==> First(rest, x, t))
  {
    var at := Position(rest, t);
    if x in rest[..at] && t in rest {
      var i :| 0 <= i < at && rest[i] == x;
      assert rest[at] == t;
    }
    if t in rest && First(rest, x, t) {
      var i, j :| 0 <= i < j < |rest| && rest[i] == x && rest[j] == t;
      assert j == at;
      assert rest[..at][i] == x;
    }
    if t !in rest {
      assert rest[..at] == rest;
    }
  }

  lemma FilterHolds(order: seq<Id>, chosen: set<Id>, x: Id)
    ensures x in Only(order, chosen) <==> x in order && x in chosen
    ensures x in Without(order, chosen) <==> x in order && x !in chosen
  {
    OnlyElems(order, chosen);
    WithoutElems(order, chosen);
    assert x in order <==> x in Elems(order);
    assert x in Only(order, chosen) <==> x in Elems(Only(order, chosen));
    assert x in Without(order, chosen) <==> x in Elems(Without(order, chosen));
  }

  /** The move does something: a row is dragged, and not onto one that is dragged too. */
  predicate Drags(order: seq<Id>, moved: set<Id>, before: Option<Id>)
  {
    && (exists x :: x in order && x in moved)
    && (before.Some? ==> !(before.value in order && before.value in moved))
  }

  lemma SomeDragged(order: seq<Id>, moved: set<Id>)
    ensures Only(order, moved) != [] <==> exists x :: x in order && x in moved
  {
    if Only(order, moved) != [] {
      FilterHolds(order, moved, Only(order, moved)[0]);
      assert Only(order, moved)[0] in Only(order, moved);
    }
    if x :| x in order && x in moved {
      FilterHolds(order, moved, x);
    }
  }

  lemma ServerDrags(order: seq<Id>, moved: set<Id>, before: Option<Id>)
    ensures ServerMove(order, moved, before) ==
            if Drags(order, moved, before) then Placed(order, moved, before) else order
  {
    SomeDragged(order, moved);
    if before.Some? {
      FilterHolds(order, moved, before.value);
    }
  }

  /** A row that stays comes before the target, or there is no target to come before. */
  ghost predicate StandsBefore(order: seq<Id>, moved: set<Id>, before: Option<Id>, x: Id)
  {
    before.Some? && before.value in order && before.value !in moved ==> First(order, x, before.value)
  }

  /** Where the block goes among the rows that stay. */
  function Gap(rest: seq<Id>, before: Option<Id>): (at: nat)
    ensures at <= |rest|
  {
    if before.None? then |rest| else Position(rest, before.value)
  }

  lemma StandsInFront(order: seq<Id>, moved: set<Id>, before: Option<Id>, x: Id)
    requires Distinct(order) && x in order && x !in moved
    ensures var rest := Without(order, moved);
            x in rest[..Gap(rest, before)] <==> StandsBefore(order, moved, before, x)
  {
    var rest := Without(order, moved);
    FilterHolds(order, moved, x);
    if before.Some? {
      OnlyDistinct(order, moved);
      FilterHolds(order, moved, before.value);
      InFront(rest, before.value, x);
      FilterKeepsFirst(order, moved, x, before.value);
    } else {
      assert rest[..|rest|] == rest;
    }
  }

  lemma DistinctSplit(rest: seq<Id>, at: nat, x: Id)
    requires Distinct(rest) && at <= |rest| && x in rest
    ensures x in rest[..at] <==> x !in rest[at..]
  {
    assert rest == rest[..at] + rest[at..];
  }

  /** Which part of the placed order holds an id. */
  lemma PartOfPlaced(order: seq<Id>, moved: set<Id>, before: Option<Id>, x: Id)
    requires Distinct(order) && x in order
    ensures var rest := Without(order, moved);
            var at := Gap(rest, before);
            && (x in Only(order, moved) <==> x in moved)
            && (x in rest[..at] <==> x !in moved && StandsBefore(order, moved, before, x))
            && (x in rest[at..] <==> x !in moved && !StandsBefore(order, moved, before, x))
  {
    var rest := Without(order, moved);
    var at := Gap(rest, before);
    FilterHolds(order, moved, x);
    assert rest == rest[..at] + rest[at..];
    if x !in moved {
      OnlyDistinct(order, moved);
      StandsInFront(order, moved, before, x);
      DistinctSplit(rest, at, x);
    }
  }

  lemma PlacedPair(order: seq<Id>, moved: set<Id>, before: Option<Id>, x: Id, y: Id)
    requires Distinct(order) && x in order && y in order && x != y
    ensures First(Placed(order, moved, before), x, y) <==>
              if x in moved <==> y in moved then First(order, x, y)
              else if y in moved then StandsBefore(order, moved, before, x)
              else !StandsBefore(order, moved, before, y)
  {
    var rest, block := Without(order, moved), Only(order, moved);
    var at := Gap(rest, before);
    var head, tail := rest[..at], rest[at..];
    assert rest == head + tail;
    FirstInParts(head, tail, x, y);
    FirstInParts(head, block, x, y);
    FirstInParts(head + block, tail, x, y);
    FilterKeepsFirst(order, moved, x, y);
    PartOfPlaced(order, moved, before, x);
    PartOfPlaced(order, moved, before, y);
    NotFirstOutside(head, x, y);
    NotFirstOutside(tail, x, y);
    NotFirstOutside(block, x, y);
    assert Placed(order, moved, before) == head + block + tail;
    assert x in head + block <==> x in head || x in block;
  }

  /** A drag of nothing, or onto a dragged row, changes nothing; any other takes the dragged
      rows, in their order, right before the target, or to the end when there is no such row
      among those that stay, and keeps the rest in its order. */
  lemma MovedBlockLands(order: seq<Id>, moved: set<Id>, before: Option<Id>, x: Id, y: Id)
    requires Distinct(order) && x in order && y in order && x != y
    ensures var result := ServerMove(order, moved, before);
            && Elems(result) == Elems(order) && Distinct(result)
            && (First(result, x, y) <==>
                  if !Drags(order, moved, before) || (x in moved <==> y in moved) then First(order, x, y)
                  else if y in moved then StandsBefore(order, moved, before, x)
                  else !StandsBefore(order, moved, before, y))
  {
    ServerDrags(order, moved, before);
    PlacedElems(order, moved, before);
    PlacedDistinct(order, moved, before);
    PlacedPair(order, moved, before, x, y);
  }

  /** The guess is made by the same rule, over the rows that are loaded. */
  lemma GuessedBlockLands(order: seq<Id>, moved: set<Id>, before: Option<Id>, x: Id, y: Id)
    requires Distinct(order) && x in order && y in order && x != y
    ensures var result := ClientMove(order, moved, before);
            && Elems(result) == Elems(order) && Distinct(result)
            && (First(result, x, y) <==>
                  if (before.Some? && before.value in moved) || (x in moved <==> y in moved) then First(order, x, y)
                  else if y in moved then StandsBefore(order, moved, before, x)
                  else !StandsBefore(order, moved, before, y))
  {
    SomeDragged(order, moved);
    PlacedElems(order, moved, before);
    PlacedDistinct(order, moved, before);
    PlacedPair(order, moved, before, x, y);
  }

  /** The answer settles a listing: the rows it names come first, in its order, and those it does
      not name keep theirs behind them. */
  lemma SettledPair(order: seq<Id>, answer: seq<Id>, x: Id, y: Id)
    requires x in order && y in order
    ensures First(Settled(order, answer), x, y) <==>
              if x in answer && y in answer then First(answer, x, y)
              else if x !in answer && y !in answer then First(order, x, y)
              else x in answer
    ensures Elems(Settled(order, answer)) == Elems(order)
  {
    var named, others := Only(answer, Elems(order)), Without(order, Elems(answer));
    FirstInParts(named, others, x, y);
    FilterKeepsFirst(answer, Elems(order), x, y);
    FilterKeepsFirst(order, Elems(answer), x, y);
    FilterHolds(answer, Elems(order), x);
    FilterHolds(order, Elems(answer), y);
    NotFirstOutside(answer, x, y);
    OnlyElems(answer, Elems(order));
    WithoutElems(order, Elems(answer));
    ElemsAppend(named, others);
  }

  lemma NotFirstOutside(order: seq<Id>, x: Id, y: Id)
    ensures First(order, x, y) ==> x in order && y in order
  {
  }

  // ----- Which listings a reorder touches --------------------------------------

  /** A reorder of a collection touches the listings of just that collection's own bundles, on
      manual sort; one of the global order, every other listing on manual sort. */
  lemma AffectedByFields(query: BrowseQuery, scope: Option<Id>)
    ensures Affected(Browse(query), scope) <==>
              && query.sort == "manual"
              && if scope.Some? then query.collectionId == scope && query.includeDescendants != Some(true)
                 else query.collectionId == None || query.includeDescendants == Some(true)
  {
  }
}
