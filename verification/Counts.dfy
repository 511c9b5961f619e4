/** Sidebar count arithmetic (`counts.ts`): what one batch of membership changes
    does to every count, each loop proved against a sum over the changes. */
module Counts {
  import opened Core
  import opened Forest

  datatype MembershipChange = MembershipChange(before: seq<Id>, after: seq<Id>)

  /** The three ways a count decides whether a bundle belongs to it. */
  datatype Rule =
    | Subtree(parents: ParentMap, id: Id)
    | Direct(id: Id)
    | InNothing

  /** Whether a bundle with these memberships is counted under the rule. */
  ghost predicate Fits(rule: Rule, memberships: set<Id>)
  {
    match rule
    case Subtree(parents, id) => id in Counting(parents, memberships)
    case Direct(id) => id in memberships
    case InNothing => memberships == {}
  }

  function One(b: bool): int
  {
    if b then 1 else 0
  }

  /** What one change does to a count under the rule. */
  ghost function Gain(rule: Rule, change: MembershipChange): int
  {
    One(Fits(rule, Elems(change.after))) - One(Fits(rule, Elems(change.before)))
  }

  ghost function Delta(rule: Rule, changes: seq<MembershipChange>): int
  {
    if changes == [] then 0 else Delta(rule, Init(changes)) + Gain(rule, Last(changes))
  }

  /** `counts[id] ?? 0` */
  function At(counts: map<Id, int>, id: Id): int
  {
    if id in counts then counts[id] else 0
  }

  /** The rule of a cached listing: its own bundles, or its whole subtree's. */
  function ListingRule(parents: ParentMap, scope: Id, includeDescendants: bool): Rule
  {
    if includeDescendants then Subtree(parents, scope) else Direct(scope)
  }

  method ListingHoldsBundle(rows: seq<Row>, scope: Id, includeDescendants: bool, memberships: seq<Id>)
    returns (held: bool)
    ensures held <==> Fits(ListingRule(ParentsOf(rows), scope, includeDescendants), Elems(memberships))
  {
    if !includeDescendants {
      return scope in memberships;
    }
    var counting := CountingCollectionIds(rows, memberships);
    held := scope in counting;
  }

  /** The two `bump` loops: +1 for every id only in `now`, -1 for every id only in `was`. */
  method BumpDifference(deltas: map<Id, int>, was: set<Id>, now: set<Id>) returns (bumped: map<Id, int>)
    ensures forall id :: At(bumped, id) == At(deltas, id) + One(id in now) - One(id in was)
  {
    bumped := deltas;
    var rest := now;
    while rest != {}
      invariant rest <= now
      invariant forall id :: At(bumped, id) == At(deltas, id) + One(id in now - rest && id !in was)
      decreases rest
    {
      var id :| id in rest;
      if id !in was {
        bumped := bumped[id := At(bumped, id) + 1];
      }
      rest := rest - {id};
    }
    rest := was;
    while rest != {}
      invariant rest <= was
      invariant forall id :: At(bumped, id) ==
                             At(deltas, id) + One(id in now && id !in was) - One(id in was - rest && id !in now)
      decreases rest
    {
      var id :| id in rest;
      if id !in now {
        bumped := bumped[id := At(bumped, id) - 1];
      }
      rest := rest - {id};
    }
  }

  /** Every collection's subtree count moves by the sum of the bundles that start or
      stop being counted in it, whatever the parent map. */
  method CollectionCountDeltas(rows: seq<Row>, changes: seq<MembershipChange>) returns (deltas: map<Id, int>)
    ensures forall id :: At(deltas, id) == Delta(Subtree(ParentsOf(rows), id), changes)
  {
    ghost var parents := ParentsOf(rows);
    deltas := map[];
    var i := 0;
    while i < |changes|
      invariant 0 <= i <= |changes|
      invariant forall id :: At(deltas, id) == Delta(Subtree(parents, id), changes[..i])
    {
      var was := CountingCollectionIds(rows, changes[i].before);
      var now := CountingCollectionIds(rows, changes[i].after);
      deltas := BumpDifference(deltas, was, now);
      assert Init(changes[..i + 1]) == changes[..i];
      i := i + 1;
    }
    assert changes[..i] == changes;
  }

  method DirectMembershipDeltas(changes: seq<MembershipChange>) returns (deltas: map<Id, int>)
    ensures forall id :: At(deltas, id) == Delta(Direct(id), changes)
  {
    deltas := map[];
    var i := 0;
    while i < |changes|
      invariant 0 <= i <= |changes|
      invariant forall id :: At(deltas, id) == Delta(Direct(id), changes[..i])
    {
      deltas := BumpDifference(deltas, Elems(changes[i].before), Elems(changes[i].after));
      assert Init(changes[..i + 1]) == changes[..i];
      i := i + 1;
    }
    assert changes[..i] == changes;
  }

  lemma EmptyAsSet(s: seq<Id>)
    ensures Elems(s) == {} <==> |s| == 0
  {
    if |s| > 0 {
      assert s[0] in Elems(s);
    }
  }

  method EmptyMembershipDelta(changes: seq<MembershipChange>) returns (delta: int)
    ensures delta == Delta(InNothing, changes)
  {
    delta := 0;
    var i := 0;
    while i < |changes|
      invariant 0 <= i <= |changes|
      invariant delta == Delta(InNothing, changes[..i])
    {
      var change := changes[i];
      EmptyAsSet(change.before);
      EmptyAsSet(change.after);
      if |change.before| == 0 && |change.after| > 0 {
        delta := delta - 1;
      } else if |change.before| > 0 && |change.after| == 0 {
        delta := delta + 1;
      }
      assert Init(changes[..i + 1]) == changes[..i];
      i := i + 1;
    }
    assert changes[..i] == changes;
  }

  /** A counts map after the deltas: an id with no change keeps its entry (or its
      absence), any other gets the clamped sum. */
  ghost predicate Applied(counts: map<Id, int>, delta: Id -> int, next: map<Id, int>)
  {
    forall id ::
      if delta(id) == 0 then
        (id in next <==> id in counts) && (id in counts ==> next[id] == counts[id])
      else
        id in next && next[id] == Max(0, At(counts, id) + delta(id))
  }

  method ApplyCountDeltas(counts: map<Id, int>, deltas: map<Id, int>) returns (next: map<Id, int>)
    ensures Applied(counts, id => At(deltas, id), next)
  {
    next := counts;
    var rest := deltas.Keys;
    while rest != {}
      invariant rest <= deltas.Keys
      invariant forall id :: id in rest || At(deltas, id) == 0 ==>
                  (id in next <==> id in counts) && (id in counts ==> next[id] == counts[id])
      invariant forall id :: id in deltas.Keys - rest && deltas[id] != 0 ==>
                  id in next && next[id] == Max(0, At(counts, id) + deltas[id])
      decreases rest
    {
      var id :| id in rest;
      if deltas[id] != 0 {
        next := next[id := Max(0, At(next, id) + deltas[id])];
      }
      rest := rest - {id};
    }
  }

  // ----- The membership a bundle ends up with ---------------------------------

  /** `current.filter(...)` */
  function Without(current: seq<Id>, removed: set<Id>): (kept: seq<Id>)
  {
    if current == [] then []
    else if Last(current) in removed then Without(Init(current), removed)
    else Without(Init(current), removed) + [Last(current)]
  }

  /** Append each id that is not there yet. */
  function WithAdded(next: seq<Id>, add: seq<Id>): (grown: seq<Id>)
  {
    if add == [] then next
    else
      var earlier := WithAdded(next, Init(add));
      if Last(add) in earlier then earlier else earlier + [Last(add)]
  }

  function NextMembershipOf(current: seq<Id>, add: seq<Id>, remove: seq<Id>): (next: seq<Id>)
  {
    WithAdded(Without(current, Elems(remove)), add)
  }

  method NextMembership(current: seq<Id>, add: seq<Id>, remove: seq<Id>) returns (next: seq<Id>)
    ensures next == NextMembershipOf(current, add, remove)
  {
    var removed := Elems(remove);
    next := [];
    var i := 0;
    while i < |current|
      invariant 0 <= i <= |current|
      invariant next == Without(current[..i], removed)
    {
      if current[i] !in removed {
        next := next + [current[i]];
      }
      assert Init(current[..i + 1]) == current[..i];
      i := i + 1;
    }
    assert current[..i] == current;
    ghost var kept := next;
    var j := 0;
    while j < |add|
      invariant 0 <= j <= |add|
      invariant next == WithAdded(kept, add[..j])
    {
      if add[j] !in next {
        next := next + [add[j]];
      }
      assert Init(add[..j + 1]) == add[..j];
      j := j + 1;
    }
    assert add[..j] == add;
  }

  lemma {:induction false} WithoutElems(current: seq<Id>, removed: set<Id>)
    ensures Elems(Without(current, removed)) == Elems(current) - removed
  {
    if current == [] {
    } else {
      var kept := Without(Init(current), removed);
      WithoutElems(Init(current), removed);
      ElemsInit(current);
      ElemsAppend(kept, [Last(current)]);
    }
  }

  lemma {:induction false} WithAddedElems(next: seq<Id>, add: seq<Id>)
    ensures Elems(WithAdded(next, add)) == Elems(next) + Elems(add)
  {
    if add == [] {
    } else {
      WithAddedElems(next, Init(add));
      ElemsInit(add);
      ElemsAppend(WithAdded(next, Init(add)), [Last(add)]);
    }
  }

  /** Removals first, so an id on both lists ends up present: as a set, exactly the
      server's answer. */
  lemma NextMembershipAsSet(current: seq<Id>, add: seq<Id>, remove: seq<Id>)
    ensures Elems(NextMembershipOf(current, add, remove)) == (Elems(current) - Elems(remove)) + Elems(add)
  {
    WithoutElems(current, Elems(remove));
    WithAddedElems(Without(current, Elems(remove)), add);
  }

  /** Listing the same bundle twice in a batch adds nothing: the second step's
      membership is the first one's, as a set. */
  lemma NextMembershipIdempotentAsSet(current: seq<Id>, add: seq<Id>, remove: seq<Id>)
    ensures var once := NextMembershipOf(current, add, remove);
            Elems(NextMembershipOf(once, add, remove)) == Elems(once)
  {
    NextMembershipAsSet(current, add, remove);
    NextMembershipAsSet(NextMembershipOf(current, add, remove), add, remove);
  }

  /** As a list it is not idempotent: an id both removed and added moves to the tail. */
  lemma NextMembershipNotIdempotentAsList()
    ensures exists current, add, remove ::
              var once := NextMembershipOf(current, add, remove);
              NextMembershipOf(once, add, remove) != once
  {
    var a, c := Id("a"), Id("c");
    var add, remove := [a, c], [a];
    assert Init(add) == [a] && Init([a]) == [] && Init([c]) == [] && Init([c, a]) == [c];
    assert Without([], {a}) == [];
    assert WithAdded([], [a]) == [a];
    var once := NextMembershipOf([], add, remove);
    assert once == [a, c];
    assert Without([a], {a}) == [];
    assert Without(once, {a}) == [c];
    assert WithAdded([c], []) == [c] && WithAdded([c], [a]) == [c, a];
    assert WithAdded([c], add) == [c, a];
    assert Elems(remove) == {a};
    assert NextMembershipOf(once, add, remove) == [c, a];
  }
}
