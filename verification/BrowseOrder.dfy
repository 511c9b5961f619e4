/** A manual drag-reorder: the guess made over the loaded rows, the move the server makes
    over the whole scope, and the settle that applies its answer. */
module BrowseOrder {
  import opened Core
  import opened Counts
  import opened CacheModel
  import opened Listings

  // ----- Orders of ids --------------------------------------------------------

  /** Keep the chosen ids, in order. */
  function Only(order: seq<Id>, chosen: set<Id>): (kept: seq<Id>)
  {
    if order == [] then []
    else if Last(order) in chosen then Only(Init(order), chosen) + [Last(order)]
    else Only(Init(order), chosen)
  }

  /** The first place of x, or the end when it is absent. */
  function Position(order: seq<Id>, x: Id): (at: nat)
    ensures at <= |order|
    ensures at < |order| ==> order[at] == x
    ensures x !in order[..at]
    ensures x in order <==> at < |order|
  {
    if order == [] then 0
    else if order[0] == x then 0
    else
      var rest := Position(order[1..], x);
      assert order == [order[0]] + order[1..];
      assert order[..1 + rest] == [order[0]] + order[1..][..rest];
      1 + rest
  }

  /** The block of moving ids in front of `before`, or at the end. */
  function Placed(order: seq<Id>, moving: set<Id>, before: Option<Id>): seq<Id>
  {
    var rest := Without(order, moving);
    var at := if before.None? then |rest| else Position(rest, before.value);
    rest[..at] + Only(order, moving) + rest[at..]
  }

  /** `moveInBrowsePages`, read on ids. */
  function ClientMove(order: seq<Id>, moved: set<Id>, before: Option<Id>): seq<Id>
  {
    if Only(order, moved) == [] || (before.Some? && before.value in moved) then order
    else Placed(order, moved, before)
  }

  /** `reorder_bundles`, over the whole scope. */
  function ServerMove(order: seq<Id>, moved: set<Id>, before: Option<Id>): seq<Id>
  {
    if Only(order, moved) == [] || (before.Some? && before.value in Only(order, moved)) then order
    else Placed(order, moved, before)
  }

  /** `applyBrowseOrder`, read on ids: what the server named, then the rest in place. */
  function Settled(order: seq<Id>, answer: seq<Id>): seq<Id>
  {
    Only(answer, Elems(order)) + Without(order, Elems(answer))
  }

  lemma {:induction false} OnlyElems(order: seq<Id>, chosen: set<Id>)
    ensures Elems(Only(order, chosen)) == Elems(order) * chosen
  {
    if order != [] {
      OnlyElems(Init(order), chosen);
      ElemsInit(order);
      ElemsAppend(Only(Init(order), chosen), [Last(order)]);
    }
  }

  lemma {:induction false} OnlyAppend(a: seq<Id>, b: seq<Id>, chosen: set<Id>)
    ensures Only(a + b, chosen) == Only(a, chosen) + Only(b, chosen)
  {
    if b == [] {
      assert a + b == a;
    } else {
      assert Init(a + b) == a + Init(b);
      OnlyAppend(a, Init(b), chosen);
    }
  }

  lemma {:induction false} OnlyWithout(order: seq<Id>, chosen: set<Id>, gone: set<Id>)
    ensures Only(Without(order, gone), chosen) == Without(Only(order, chosen), gone)
    ensures Only(Only(order, gone), chosen) == Only(Only(order, chosen), gone)
  {
    if order != [] {
      OnlyWithout(Init(order), chosen, gone);
      var x := Last(order);
      if x in chosen {
        assert Init(Only(order, chosen)) == Only(Init(order), chosen);
      }
      if x in gone {
        assert Init(Only(order, gone)) == Only(Init(order), gone);
      } else {
        assert Init(Without(order, gone)) == Without(Init(order), gone);
      }
    }
  }

  lemma {:induction false} OnlyNothing(order: seq<Id>, chosen: set<Id>)
    ensures Only(order, chosen) == [] <==> Elems(order) * chosen == {}
    ensures Only(order, chosen) == [] ==> Without(order, chosen) == order
    ensures Elems(order) <= chosen ==> Only(order, chosen) == order
    ensures Elems(order) <= chosen ==> Without(order, chosen) == []
  {
    OnlyElems(order, chosen);
    EmptyElems(Only(order, chosen));
    if Elems(order) * chosen == {} {
      forall x | x in order
        ensures x !in chosen
      {
        assert x in Elems(order) * chosen <==> x in Elems(order) && x in chosen;
      }
      OnlyMissing(order, chosen);
    }
    if Elems(order) <= chosen {
      OnlyEverything(order, chosen);
    }
  }

  lemma EmptyElems(order: seq<Id>)
    ensures order == [] <==> Elems(order) == {}
  {
    if order != [] {
      assert order[0] in Elems(order);
    }
  }

  lemma {:induction false} OnlyMissing(order: seq<Id>, chosen: set<Id>)
    requires forall x :: x in order ==> x !in chosen
    ensures Without(order, chosen) == order
  {
    if order != [] {
      assert Last(order) in order && forall x :: x in Init(order) ==> x in order;
      OnlyMissing(Init(order), chosen);
      assert order == Init(order) + [Last(order)];
    }
  }

  lemma {:induction false} OnlyEverything(order: seq<Id>, chosen: set<Id>)
    requires Elems(order) <= chosen
    ensures Only(order, chosen) == order && Without(order, chosen) == []
  {
    if order != [] {
      ElemsInit(order);
      OnlyEverything(Init(order), chosen);
      assert Last(order) in Elems(order);
      assert order == Init(order) + [Last(order)];
    }
  }

  lemma PositionAfter(left: seq<Id>, right: seq<Id>, x: Id)
    requires x !in left && right != [] && right[0] == x
    ensures Position(left + right, x) == |left|
  {
    var all := left + right;
    assert all[|left|] == x;
    assert all[..|left|] == left;
  }

  /** What a chosen id splits an order into: the target heads the right part. */
  lemma SplitAtChosen(order: seq<Id>, chosen: set<Id>, x: Id)
    requires x in chosen && x in order
    ensures var at := Position(order, x);
            && Only(order, chosen) == Only(order[..at], chosen) + Only(order[at..], chosen)
            && x !in Only(order[..at], chosen)
            && Only(order[at..], chosen) != [] && Only(order[at..], chosen)[0] == x
  {
    var at := Position(order, x);
    assert order == order[..at] + order[at..];
    OnlyAppend(order[..at], order[at..], chosen);
    OnlyHead(order[at..], chosen);
    OnlyElems(order[..at], chosen);
    assert x !in Elems(Only(order[..at], chosen));
  }

  lemma OnlyHead(order: seq<Id>, chosen: set<Id>)
    requires order != [] && order[0] in chosen
    ensures Only(order, chosen) != [] && Only(order, chosen)[0] == order[0]
  {
    var x := order[0];
    assert order == [x] + order[1..];
    OnlyAppend([x], order[1..], chosen);
    assert Init([x]) == [] && Only([x], chosen) == [x];
  }

  /** Cutting at a loaded id commutes with restricting to the loaded ids. */
  lemma OnlyAroundPosition(order: seq<Id>, chosen: set<Id>, x: Id)
    requires x in chosen && x in order
    ensures var at, small := Position(order, x), Only(order, chosen);
            && Only(order[..at], chosen) == small[..Position(small, x)]
            && Only(order[at..], chosen) == small[Position(small, x)..]
  {
    var at := Position(order, x);
    SplitAtChosen(order, chosen, x);
    PositionAfter(Only(order[..at], chosen), Only(order[at..], chosen), x);
  }

  // ----- Restricting to loaded rows commutes with the move --------------------

  lemma PlacedCommutes(full: seq<Id>, loaded: set<Id>, moved: set<Id>, before: Option<Id>)
    requires before.Some? ==> before.value in full && before.value in loaded && before.value !in moved
    ensures Only(Placed(full, moved, before), loaded) == Placed(Only(full, loaded), moved, before)
  {
    var rest, block := Without(full, moved), Only(full, moved);
    var at := if before.None? then |rest| else Position(rest, before.value);
    OnlyAppend(rest[..at] + block, rest[at..], loaded);
    OnlyAppend(rest[..at], block, loaded);
    OnlyWithout(full, loaded, moved);
    var small := Only(rest, loaded);
    if before.None? {
      assert rest[..at] == rest && rest[at..] == [];
      assert small[..|small|] == small && small[|small|..] == [];
    } else {
      WithoutElems(full, moved);
      assert before.value in Elems(full);
      assert before.value in Elems(rest);
      OnlyAroundPosition(rest, loaded, before.value);
    }
  }

  /** The guess over any loaded part of the scope is the server's result, restricted to
      that part, whenever the drop target is the end or a loaded row. */
  lemma GuessIsRestriction(full: seq<Id>, loaded: set<Id>, moved: set<Id>, before: Option<Id>)
    requires before.Some? ==> before.value in full && before.value in loaded
    ensures ClientMove(Only(full, loaded), moved, before) == Only(ServerMove(full, moved, before), loaded)
  {
    OnlyWithout(full, loaded, moved);
    OnlyElems(full, moved);
    var small := Only(full, loaded);
    if before.Some? && before.value in moved {
      assert before.value in Elems(Only(full, moved));
    } else if Only(full, moved) == [] {
      assert Only([], loaded) == [];
    } else {
      assert before.Some? ==> before.value !in Elems(Only(full, moved));
      PlacedCommutes(full, loaded, moved, before);
      if Only(small, moved) == [] {
        OnlyNothing(small, moved);
        assert Placed(small, moved, before) == small;
      }
    }
  }

  /** Every moved row already stands at the end. */
  ghost predicate TailMoved(order: seq<Id>, moved: set<Id>)
  {
    forall i, j :: 0 <= i < j < |order| && order[i] in moved ==> order[j] in moved
  }

  /** When the guess is right, in terms of the move and the loaded rows. A target in the scope
      is fine when it is loaded or moving; otherwise no moved row may be loaded, or no
      loaded bystander may lie at or behind it. A target outside the scope means the end to
      the server; the client agrees unless the target is one of the moved ids, and then only
      if the moved rows already stand at the end. */
  ghost predicate GuessIsRight(full: seq<Id>, loaded: set<Id>, moved: set<Id>, before: Option<Id>)
  {
    if before.None? then true
    else if before.value in full then
      || before.value in loaded || before.value in moved
      || Elems(full) * moved * loaded == {}
      || Elems(Without(full, moved)[Position(Without(full, moved), before.value)..]) * loaded == {}
    else before.value !in moved || TailMoved(Only(full, loaded), moved)
  }

  /** The exact reach of the guess, for every target. */
  lemma GuessIsRestrictionIff(full: seq<Id>, loaded: set<Id>, moved: set<Id>, before: Option<Id>)
    ensures ClientMove(Only(full, loaded), moved, before) == Only(ServerMove(full, moved, before), loaded)
            <==> GuessIsRight(full, loaded, moved, before)
  {
    OnlyElems(full, moved);
    if before.None? || (before.value in full && before.value in loaded) {
      GuessIsRestriction(full, loaded, moved, before);
    } else if before.value !in full {
      OutOfScopeTarget(full, loaded, moved, before.value);
    } else if before.value in moved {
      assert before.value in Elems(full);
      assert before.value in Elems(Only(full, moved));
    } else {
      UnloadedTarget(full, loaded, moved, before.value);
    }
  }

  lemma {:induction false} SplitIffTailMoved(order: seq<Id>, moved: set<Id>)
    ensures Without(order, moved) + Only(order, moved) == order <==> TailMoved(order, moved)
  {
    var rest, block := Without(order, moved), Only(order, moved);
    if rest + block == order {
      WithoutElems(order, moved);
      OnlyElems(order, moved);
      assert forall k :: 0 <= k < |rest| ==> rest[k] in Elems(rest);
      assert forall k :: 0 <= k < |block| ==> block[k] in Elems(block);
      forall i, j | 0 <= i < j < |order| && order[i] in moved
        ensures order[j] in moved
      {
        assert order[j] == block[j - |rest|];
      }
    }
    if TailMoved(order, moved) {
      TailMovedSplits(order, moved);
    }
  }

  lemma {:induction false} TailMovedSplits(order: seq<Id>, moved: set<Id>)
    requires TailMoved(order, moved)
    ensures Without(order, moved) + Only(order, moved) == order
  {
    if order != [] {
      var front, last := Init(order), Last(order);
      assert order == front + [last];
      if last in moved {
        TailMovedSplits(front, moved);
      } else {
        forall x | x in order
          ensures x !in moved
        {
          var i :| 0 <= i < |order| && order[i] == x;
        }
        OnlyMissing(order, moved);
        OnlyNothing(order, moved);
        assert Elems(order) * moved == {};
      }
    }
  }

  lemma OutOfScopeTarget(full: seq<Id>, loaded: set<Id>, moved: set<Id>, target: Id)
    requires target !in full
    ensures ClientMove(Only(full, loaded), moved, Some(target)) == Only(ServerMove(full, moved, Some(target)), loaded)
            <==> target !in moved || TailMoved(Only(full, loaded), moved)
  {
    var small := Only(full, loaded);
    OnlyElems(full, moved);
    OnlyElems(full, loaded);
    assert target !in Elems(full) && target !in Elems(Only(full, moved)) && target !in Elems(small);
    PlacedAtEnd(full, moved, target);
    PlacedAtEnd(small, moved, target);
    OnlyAppend(Without(full, moved), Only(full, moved), loaded);
    OnlyWithout(full, loaded, moved);
    SplitIffTailMoved(small, moved);
    OnlyNothing(full, moved);
    OnlyNothing(small, moved);
  }

  lemma PlacedAtEnd(order: seq<Id>, moved: set<Id>, target: Id)
    requires target !in order
    ensures Placed(order, moved, Some(target)) == Without(order, moved) + Only(order, moved)
  {
    var rest := Without(order, moved);
    WithoutElems(order, moved);
    assert target !in Elems(order) && target !in Elems(rest);
    assert rest[..|rest|] == rest && rest[|rest|..] == [];
  }

  /** Two rows, both loaded; dropping the first before a moved id of another scope. The client
      leaves the order alone and the server moves the row to the end. */
  lemma OutOfScopeGuessIsWrong() returns (full: seq<Id>, moved: set<Id>, before: Option<Id>)
    ensures Distinct(full) && before.Some? && before.value in moved && before.value !in full
    ensures ClientMove(full, moved, before) != ServerMove(full, moved, before)
  {
    var a, b, x := Id("a"), Id("b"), Id("x");
    full, moved, before := [a, b], {a, x}, Some(x);
    PlacedAtEnd(full, moved, x);
    assert Init(full) == [a] && Init([a]) == [];
    assert Only([], moved) == [] && Only([a], moved) == [a] && Only(full, moved) == [a];
    assert Without([], moved) == [] && Without([a], moved) == [] && Without(full, moved) == [b];
    assert ([b] + [a])[0] == b;
  }

  /** Three rows, the middle one not loaded: dropping the first before it is guessed at the end
      of the loaded rows, where the server keeps it first. */
  lemma UnloadedGuessIsWrong() returns (full: seq<Id>, loaded: set<Id>, moved: set<Id>, before: Option<Id>)
    ensures Distinct(full) && before.Some? && before.value in full
    ensures ClientMove(Only(full, loaded), moved, before) != Only(ServerMove(full, moved, before), loaded)
  {
    var a, b, c := Id("a"), Id("b"), Id("c");
    full, loaded, moved, before := [a, b, c], {a, c}, {a}, Some(b);
    assert Init(full) == [a, b] && Init([a, b]) == [a] && Init([a]) == [];
    assert Without([], moved) == [] && Without([a], moved) == [] && Without([a, b], moved) == [b] &&
           Without(full, moved) == [b, c];
    assert Position([b, c], b) == 0 && [b, c][0..] == [b, c];
    assert c in Elems([b, c]) * loaded && a in Elems(full) * moved * loaded;
    GuessIsRestrictionIff(full, loaded, moved, before);
  }

  lemma SwapVisible(a: seq<Id>, b: seq<Id>, c: seq<Id>)
    requires Elems(b) !! Elems(c)
    ensures a + b + c == a + c + b <==> b == [] || c == []
  {
    if b == [] || c == [] {
      assert a + b + c == a + c + b;
    } else {
      assert b[0] in Elems(b) && c[0] in Elems(c);
      assert (a + b + c)[|a|] == b[0] && (a + c + b)[|a|] == c[0];
    }
  }

  /** The loaded rows of the scope around an unloaded target: before it, the block, behind it. */
  lemma UnloadedShapes(full: seq<Id>, loaded: set<Id>, moved: set<Id>, target: Id)
    requires target in full && target !in loaded && target !in moved && Only(full, moved) != []
    ensures var rest, block := Without(full, moved), Only(full, moved);
            var at := Position(rest, target);
            var a, b, c := Only(rest[..at], loaded), Only(rest[at..], loaded), Only(block, loaded);
            && Only(ServerMove(full, moved, Some(target)), loaded) == a + c + b
            && Without(Only(full, loaded), moved) == a + b
            && Only(Only(full, loaded), moved) == c
  {
    var rest, block := Without(full, moved), Only(full, moved);
    OnlyElems(full, moved);
    assert target !in Elems(block);
    assert ServerMove(full, moved, Some(target)) == Placed(full, moved, Some(target));
    ThreeParts(rest, block, Position(rest, target), loaded);
    OnlyWithout(full, loaded, moved);
  }

  lemma ThreeParts(rest: seq<Id>, block: seq<Id>, at: nat, loaded: set<Id>)
    requires at <= |rest|
    ensures Only(rest, loaded) == Only(rest[..at], loaded) + Only(rest[at..], loaded)
    ensures Only(rest[..at] + block + rest[at..], loaded) ==
            Only(rest[..at], loaded) + Only(block, loaded) + Only(rest[at..], loaded)
  {
    assert rest == rest[..at] + rest[at..];
    OnlyAppend(rest[..at], rest[at..], loaded);
    OnlyAppend(rest[..at] + block, rest[at..], loaded);
    OnlyAppend(rest[..at], block, loaded);
  }

  lemma UnloadedGuess(small: seq<Id>, moved: set<Id>, target: Id)
    requires target !in small && target !in moved
    ensures ClientMove(small, moved, Some(target)) == Without(small, moved) + Only(small, moved)
            || Only(small, moved) == []
    ensures Only(small, moved) == [] ==> ClientMove(small, moved, Some(target)) == Without(small, moved)
  {
    var rest := Without(small, moved);
    WithoutElems(small, moved);
    assert target !in Elems(rest);
    assert rest[..|rest|] == rest && rest[|rest|..] == [];
    OnlyNothing(small, moved);
  }

  lemma BlockEmpty(full: seq<Id>, loaded: set<Id>, moved: set<Id>)
    ensures Only(Only(full, moved), loaded) == [] <==> Elems(full) * moved * loaded == {}
    ensures Only(Only(full, loaded), moved) == Only(Only(full, moved), loaded)
  {
    OnlyNothing(Only(full, moved), loaded);
    OnlyElems(full, moved);
    OnlyWithout(full, loaded, moved);
  }

  lemma BlocksApart(full: seq<Id>, loaded: set<Id>, moved: set<Id>, at: nat)
    requires at <= |Without(full, moved)|
    ensures Elems(Only(Without(full, moved)[at..], loaded)) !! Elems(Only(Only(full, moved), loaded))
  {
    BystandersAreNotMoved(full, moved, at);
    OnlyElems(Without(full, moved)[at..], loaded);
    OnlyElems(Only(full, moved), loaded);
  }

  lemma UnloadedTarget(full: seq<Id>, loaded: set<Id>, moved: set<Id>, target: Id)
    requires target in full && target !in loaded && target !in moved
    ensures ClientMove(Only(full, loaded), moved, Some(target)) == Only(ServerMove(full, moved, Some(target)), loaded)
            <==>
            || Elems(full) * moved * loaded == {}
            || Elems(Without(full, moved)[Position(Without(full, moved), target)..]) * loaded == {}
  {
    var rest, block := Without(full, moved), Only(full, moved);
    var small := Only(full, loaded);
    var at := Position(rest, target);
    var a, b, c := Only(rest[..at], loaded), Only(rest[at..], loaded), Only(block, loaded);
    OnlyNothing(rest[at..], loaded);
    BlockEmpty(full, loaded, moved);
    if block == [] {
      assert Only([], loaded) == [];
    } else {
      UnloadedShapes(full, loaded, moved, target);
      assert target !in small by {
        OnlyElems(full, loaded);
        assert target !in Elems(small);
      }
      UnloadedGuess(small, moved, target);
      BlocksApart(full, loaded, moved, at);
      SwapVisible(a, b, c);
      assert c == [] ==> a + c + b == a + b;
    }
  }

  lemma BystandersAreNotMoved(full: seq<Id>, moved: set<Id>, at: nat)
    requires at <= |Without(full, moved)|
    ensures Elems(Without(full, moved)[at..]) !! Elems(Only(full, moved))
  {
    var rest := Without(full, moved);
    assert rest == rest[..at] + rest[at..];
    ElemsAppend(rest[..at], rest[at..]);
    WithoutElems(full, moved);
    OnlyElems(full, moved);
  }

  // ----- Settling -------------------------------------------------------------

  lemma PlacedElems(order: seq<Id>, moved: set<Id>, before: Option<Id>)
    ensures Elems(Placed(order, moved, before)) == Elems(order)
  {
    var rest, block := Without(order, moved), Only(order, moved);
    var at := if before.None? then |rest| else Position(rest, before.value);
    assert rest == rest[..at] + rest[at..];
    ElemsAppend(rest[..at], rest[at..]);
    ElemsAppend(rest[..at], block);
    ElemsAppend(rest[..at] + block, rest[at..]);
    WithoutElems(order, moved);
    OnlyElems(order, moved);
    assert Placed(order, moved, before) == rest[..at] + block + rest[at..];
    assert Elems(Placed(order, moved, before)) == Elems(rest) + Elems(block);
    assert (Elems(order) - moved) + (Elems(order) * moved) == Elems(order);
  }

  lemma {:induction false} OnlySame(order: seq<Id>, a: set<Id>, b: set<Id>)
    requires forall x :: x in order ==> (x in a <==> x in b)
    ensures Only(order, a) == Only(order, b)
  {
    if order != [] {
      assert Last(order) in order;
      assert forall x :: x in Init(order) ==> x in order;
      OnlySame(Init(order), a, b);
    }
  }

  /** Whatever the guess was, the settled rows are the server's order restricted to what
      is loaded; and where the guess was that restriction, settling moves nothing. */
  lemma SettleAgreesWithServer(full: seq<Id>, loaded: set<Id>, moved: set<Id>, before: Option<Id>)
    ensures var answer := ServerMove(full, moved, before);
            var guess := ClientMove(Only(full, loaded), moved, before);
            && Settled(guess, answer) == Only(answer, loaded)
            && (guess == Only(answer, loaded) ==> Settled(guess, answer) == guess)
  {
    var small := Only(full, loaded);
    var answer := ServerMove(full, moved, before);
    var guess := ClientMove(small, moved, before);
    PlacedElems(full, moved, before);
    PlacedElems(small, moved, before);
    OnlyElems(full, loaded);
    assert Elems(answer) == Elems(full) && Elems(guess) == Elems(full) * loaded;
    OnlyNothing(guess, Elems(answer));
    assert forall x :: x in answer ==> x in Elems(answer);
    OnlySame(answer, Elems(guess), loaded);
  }
}
