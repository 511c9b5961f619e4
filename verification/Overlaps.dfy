/** Two batches in flight: the first is refused after the second has written. Which figures and
    listings its snapshots make wrong. */
module Overlaps {
  import opened Core
  import opened Forest
  import opened Counts
  import opened Recount
  import opened CacheModel
  import opened Agreement
  import opened Runs
  import opened Rollback

  // ----- What a key should hold -----------------------------------------------

  /** A cached figure, or a listing that membership alone decides. */
  predicate FigureOrListing(key: Key)
  {
    key == CollectionCounts || key.CollectionStats? || key == TagCounts || key == ViewCounts || Workable(key)
  }

  /** The value is what the server would answer, in full. */
  ghost predicate Right(library: Library, key: Key, value: Value)
  {
    Truthful(library, key, value) && Whole(library, key, value)
  }

  ghost predicate SameTally(a: Holdings, b: Holdings, rule: Rule)
  {
    Tally(a, rule) == Tally(b, rule)
  }

  /** Two states of one library's memberships give this key the same answer. */
  ghost predicate SameAnswer(a: Library, b: Library, key: Key)
  {
    if key == CollectionCounts then
      forall id ::
        && SameTally(a.collections, b.collections, Subtree(a.parents, id))
        && SameTally(a.collections, b.collections, Direct(id))
    else if key.CollectionStats? then
      && SameTally(a.collections, b.collections, Subtree(a.parents, key.collection))
      && SameTally(a.collections, b.collections, Direct(key.collection))
    else if key == TagCounts then forall id :: SameTally(a.tags, b.tags, Direct(id))
    else if key == ViewCounts then
      && SameTally(a.collections, b.collections, InNothing)
      && SameTally(a.tags, b.tags, InNothing)
    else
      Workable(key) ==>
        Fitting(a.collections, RuleOf(a.parents, key)) == Fitting(b.collections, RuleOf(a.parents, key))
  }

  lemma SameExact(counts: map<Id, int>, a: Holdings, b: Holdings, rules: Id -> Rule)
    requires Exact(counts, a, rules)
    ensures Exact(counts, b, rules) <==> forall id :: SameTally(a, b, rules(id))
  {
    if Exact(counts, b, rules) {
      forall id
        ensures SameTally(a, b, rules(id))
      {
        assert At(counts, id) == Tally(a, rules(id)) == Tally(b, rules(id));
      }
    } else {
      var id :| At(counts, id) != Tally(b, rules(id));
      assert At(counts, id) == Tally(a, rules(id)) && !SameTally(a, b, rules(id));
    }
  }

  lemma SubtreesElsewhere(counts: map<Id, int>, a: Holdings, b: Holdings, parents: ParentMap)
    requires Exact(counts, a, id => Subtree(parents, id))
    ensures Exact(counts, b, id => Subtree(parents, id)) <==> forall id :: SameTally(a, b, Subtree(parents, id))
  {
    var rules := (id: Id) => Subtree(parents, id);
    SameExact(counts, a, b, rules);
    assert forall id :: rules(id) == Subtree(parents, id);
    assert Exact(counts, a, rules) && (Exact(counts, b, rules) <==> Exact(counts, b, id => Subtree(parents, id)));
  }

  lemma DirectsElsewhere(counts: map<Id, int>, a: Holdings, b: Holdings)
    requires Exact(counts, a, id => Direct(id))
    ensures Exact(counts, b, id => Direct(id)) <==> forall id :: SameTally(a, b, Direct(id))
  {
    var rules := (id: Id) => Direct(id);
    SameExact(counts, a, b, rules);
    assert forall id :: rules(id) == Direct(id);
    assert Exact(counts, a, rules) && (Exact(counts, b, rules) <==> Exact(counts, b, id => Direct(id)));
  }

  /** A right value is right for another state exactly when the answer is the same. */
  lemma RightElsewhereIff(a: Library, b: Library, key: Key, value: Value)
    requires a.parents == b.parents && FigureOrListing(key) && Right(a, key, value)
    ensures Right(b, key, value) <==> SameAnswer(a, b, key)
  {
    if key == CollectionCounts {
      CountsElsewhere(a, b, value);
    } else if key == TagCounts {
      DirectsElsewhere(value.counts, a.tags, b.tags);
    }
  }

  lemma CountsElsewhere(a: Library, b: Library, value: Value)
    requires a.parents == b.parents && CountsExact(value, a.parents, a.collections)
    ensures CountsExact(value, b.parents, b.collections) <==> SameAnswer(a, b, CollectionCounts)
  {
    SubtreesElsewhere(value.subtree, a.collections, b.collections, a.parents);
    DirectsElsewhere(value.direct, a.collections, b.collections);
  }

  lemma AgreeingIsRight(cache: Cache, library: Library, suspect: set<Key>, key: Key)
    requires Agrees(cache, library, suspect) && key in cache && FigureOrListing(key) && key !in suspect
    ensures Right(library, key, cache[key])
  {
    if Workable(key) {
      assert ListingFaithful(cache, library, key);
    }
  }

  // ----- A refusal over another batch -----------------------------------------

  /** The first batch is refused after the second has written, whatever the two name. A figure or
      listing is right afterwards if and only if it holds the right answer of the state its
      value comes from: the state before both when the refused batch had logged it, the state
      after both when it had not. */
  lemma LateRefusalIsRightIff(keys: seq<Key>, refused: BatchUpdate, first: Stages, named: set<Key>,
                              accepted: BatchUpdate, second: Stages, unproven: set<Key>, log: seq<Snapshot>,
                              library: Library, suspect: set<Key>, key: Key)
    requires Agrees(first.start, library, suspect) && Known(first.start, refused) && Known(first.end, accepted)
    requires BatchStages(keys, refused, first, named) && BatchStages(keys, accepted, second, unproven)
    requires second.start == first.end && Undo(first.end, log) == first.start
    requires key in first.start && FigureOrListing(key) && key !in suspect + named + unproven
    ensures var held, settled := Undo(second.end, log), AfterBatch(library, accepted);
            var source := if key in Oldest(log) then library else AfterBatch(AfterBatch(library, refused), accepted);
            key in held && (Right(settled, key, held[key]) <==> SameAnswer(source, settled, key))
  {
    var both := AfterBatch(AfterBatch(library, refused), accepted);
    BatchKeepsAgreement(keys, refused, first, named, library, suspect);
    BatchKeepsAgreement(keys, accepted, second, unproven, AfterBatch(library, refused), suspect + named);
    UndoIsOldest(second.end, log);
    UndoIsOldest(first.end, log);
    if key in Oldest(log) {
      AgreeingIsRight(first.start, library, suspect, key);
      RightElsewhereIff(library, AfterBatch(library, accepted), key, first.start[key]);
    } else {
      AgreeingIsRight(second.end, both, suspect + named + unproven, key);
      RightElsewhereIff(both, AfterBatch(library, accepted), key, second.end[key]);
    }
  }

  // ----- Batches of different bundles -----------------------------------------

  /** The two batches name no bundle in common. */
  ghost predicate Apart(a: BatchUpdate, b: BatchUpdate)
  {
    Elems(a.bundleIds) !! Elems(b.bundleIds)
  }

  lemma SplitTally(holdings: Holdings, rule: Rule, part: set<Id>)
    ensures Tally(holdings, rule) == |Fitting(holdings, rule) * part| + |Fitting(holdings, rule) - part|
  {
    assert Fitting(holdings, rule) == (Fitting(holdings, rule) * part) + (Fitting(holdings, rule) - part);
  }

  /** Refiling some bundles moves only their place in the fitting set. */
  lemma FittingApart(holdings: Holdings, p: set<Id>, addP: set<Id>, removeP: set<Id>, q: set<Id>, addQ: set<Id>,
                     removeQ: set<Id>, rule: Rule)
    requires p !! q
    ensures var first := Batched(holdings, p, addP, removeP);
            var both, second := Batched(first, q, addQ, removeQ), Batched(holdings, q, addQ, removeQ);
            && Fitting(first, rule) - p == Fitting(holdings, rule) - p
            && Fitting(both, rule) * p == Fitting(first, rule) * p
            && Fitting(second, rule) * p == Fitting(holdings, rule) * p
            && Fitting(both, rule) - p == Fitting(second, rule) - p
  {
  }

  lemma TallyApart(holdings: Holdings, p: set<Id>, addP: set<Id>, removeP: set<Id>, q: set<Id>, addQ: set<Id>,
                   removeQ: set<Id>, rule: Rule)
    requires p !! q && SameTally(holdings, Batched(holdings, p, addP, removeP), rule)
    ensures SameTally(Batched(Batched(holdings, p, addP, removeP), q, addQ, removeQ),
                      Batched(holdings, q, addQ, removeQ), rule)
  {
    var first := Batched(holdings, p, addP, removeP);
    FittingApart(holdings, p, addP, removeP, q, addQ, removeQ, rule);
    SplitTally(holdings, rule, p);
    SplitTally(first, rule, p);
    SplitTally(Batched(first, q, addQ, removeQ), rule, p);
    SplitTally(Batched(holdings, q, addQ, removeQ), rule, p);
  }

  lemma SetsApart(holdings: Holdings, p: set<Id>, addP: set<Id>, removeP: set<Id>, q: set<Id>, addQ: set<Id>,
                  removeQ: set<Id>, rule: Rule)
    requires p !! q && Fitting(holdings, rule) == Fitting(Batched(holdings, p, addP, removeP), rule)
    ensures Fitting(Batched(Batched(holdings, p, addP, removeP), q, addQ, removeQ), rule) ==
            Fitting(Batched(holdings, q, addQ, removeQ), rule)
  {
    FittingApart(holdings, p, addP, removeP, q, addQ, removeQ, rule);
    var both := Fitting(Batched(Batched(holdings, p, addP, removeP), q, addQ, removeQ), rule);
    var second := Fitting(Batched(holdings, q, addQ, removeQ), rule);
    assert both == (both * p) + (both - p) && second == (second * p) + (second - p);
  }

  lemma CollectionsApart(library: Library, refused: BatchUpdate, accepted: BatchUpdate, rule: Rule)
    requires Apart(refused, accepted) && SameTally(library.collections, AfterBatch(library, refused).collections, rule)
    ensures SameTally(AfterBatch(AfterBatch(library, refused), accepted).collections,
                      AfterBatch(library, accepted).collections, rule)
  {
    TallyApart(library.collections, Elems(refused.bundleIds), Elems(refused.addCollections),
               Elems(refused.removeCollections),
               Elems(accepted.bundleIds), Elems(accepted.addCollections), Elems(accepted.removeCollections), rule);
  }

  lemma TagsApart(library: Library, refused: BatchUpdate, accepted: BatchUpdate, rule: Rule)
    requires Apart(refused, accepted) && SameTally(library.tags, AfterBatch(library, refused).tags, rule)
    ensures SameTally(AfterBatch(AfterBatch(library, refused), accepted).tags, AfterBatch(library, accepted).tags, rule)
  {
    TallyApart(library.tags, Elems(refused.bundleIds), Elems(refused.addTags), Elems(refused.removeTags),
               Elems(accepted.bundleIds), Elems(accepted.addTags), Elems(accepted.removeTags), rule);
  }

  /** What the refused batch does not move, it does not move after the other one either. */
  lemma AnswersApart(library: Library, refused: BatchUpdate, accepted: BatchUpdate, key: Key)
    requires Apart(refused, accepted) && SameAnswer(library, AfterBatch(library, refused), key)
    ensures SameAnswer(AfterBatch(AfterBatch(library, refused), accepted), AfterBatch(library, accepted), key)
  {
    var parents := library.parents;
    if key == CollectionCounts {
      forall id
        ensures SameTally(AfterBatch(AfterBatch(library, refused), accepted).collections,
                          AfterBatch(library, accepted).collections, Subtree(parents, id))
        ensures SameTally(AfterBatch(AfterBatch(library, refused), accepted).collections,
                          AfterBatch(library, accepted).collections, Direct(id))
      {
        CollectionsApart(library, refused, accepted, Subtree(parents, id));
        CollectionsApart(library, refused, accepted, Direct(id));
      }
    } else if key.CollectionStats? {
      CollectionsApart(library, refused, accepted, Subtree(parents, key.collection));
      CollectionsApart(library, refused, accepted, Direct(key.collection));
    } else if key == TagCounts {
      forall id
        ensures SameTally(AfterBatch(AfterBatch(library, refused), accepted).tags, AfterBatch(library, accepted).tags,
                          Direct(id))
      {
        TagsApart(library, refused, accepted, Direct(id));
      }
    } else if key == ViewCounts {
      CollectionsApart(library, refused, accepted, InNothing);
      TagsApart(library, refused, accepted, InNothing);
    } else if Workable(key) {
      SetsApart(library.collections, Elems(refused.bundleIds), Elems(refused.addCollections),
                Elems(refused.removeCollections),
                Elems(accepted.bundleIds), Elems(accepted.addCollections), Elems(accepted.removeCollections),
                    RuleOf(parents, key));
    }
  }

  /** When the two batches name different bundles, a figure or listing is wrong after the refusal
      if and only if the refused batch had logged it and the accepted one moves it. */
  lemma LateRefusalOfOthersIsWrongIff(keys: seq<Key>, refused: BatchUpdate, first: Stages, named: set<Key>,
                                      accepted: BatchUpdate, second: Stages, unproven: set<Key>, log: seq<Snapshot>,
                                      library: Library, suspect: set<Key>, key: Key)
    requires Agrees(first.start, library, suspect) && Known(first.start, refused) && Known(first.end, accepted)
    requires BatchStages(keys, refused, first, named) && BatchStages(keys, accepted, second, unproven)
    requires second.start == first.end && Undo(first.end, log) == first.start
    requires key in first.start && FigureOrListing(key) && key !in suspect + named + unproven
    requires Apart(refused, accepted)
    ensures var held, settled := Undo(second.end, log), AfterBatch(library, accepted);
            key in held && (!Right(settled, key, held[key]) <==>
                            key in Oldest(log) && !SameAnswer(library, settled, key))
  {
    LateRefusalIsRightIff(keys, refused, first, named, accepted, second, unproven, log, library, suspect, key);
    if key !in Oldest(log) {
      BatchKeepsAgreement(keys, refused, first, named, library, suspect);
      UndoIsOldest(first.end, log);
      AgreeingIsRight(first.start, library, suspect, key);
      AgreeingIsRight(first.end, AfterBatch(library, refused), suspect + named, key);
      RightElsewhereIff(library, AfterBatch(library, refused), key, first.start[key]);
      AnswersApart(library, refused, accepted, key);
    }
  }

  // ----- Two such batches -----------------------------------------------------

  /** The batch that tags one bundle. */
  function Tagging(b: Id, t: Id): BatchUpdate
  {
    BatchUpdate([b], [], [], [t], [])
  }

  /** Its stages, on a cache where the bundle has no tag yet. */
  function TaggingStages(cache: Cache, b: Id, t: Id, counts: map<Id, int>): Stages
  {
    var tagged := cache[BundleTags(b) := Membership(Some([t]))];
    Stages(cache, cache, cache, cache, tagged, tagged[TagCounts := OneCount(counts[t := At(counts, t) + 1])])
  }

  lemma OneTagged(b: Id, t: Id)
    ensures NextMembershipOf([], [t], []) == [t]
    ensures forall id :: Delta(Direct(id), [MembershipChange([], [t])]) == if id == t then 1 else 0
  {
    var none: seq<Id> := [];
    assert Without(none, Elems(none)) == none;
    assert Init([t]) == none && Last([t]) == t && WithAdded(none, none) == none;
    assert WithAdded(none, [t]) == none + [t] == [t];
    var changes := [MembershipChange([], [t])];
    assert Init(changes) == [] && Last(changes) == MembershipChange([], [t]);
    assert forall id :: Delta(Direct(id), []) == 0;
  }

  lemma TaggedOver(cache: Cache, b: Id, t: Id)
    requires Entry(cache, TagAxis, b) == Some([])
    ensures AxisProjected(cache, TagAxis, Tagging(b, t)) ==
            Projected(cache[BundleTags(b) := Membership(Some([t]))], Some([MembershipChange([], [t])]))
  {
    OneTagged(b, t);
    var none: seq<MembershipChange> := [];
    assert Init([b]) == [] && MembershipsOver(cache, TagAxis, [], [t], []) == Projected(cache, Some(none));
    assert none + [MembershipChange([], [t])] == [MembershipChange([], [t])];
    assert MembershipsOver(cache, TagAxis, [b], [t], []).changes == Some(none + [MembershipChange([], [t])]);
  }

  lemma TaggingCounts(tagged: Cache, t: Id, counts: map<Id, int>)
    requires TagCounts in tagged && tagged[TagCounts] == OneCount(counts) && At(counts, t) >= 0
    requires forall k :: k in tagged ==> k == TagCounts || k.BundleTags?
    ensures TagCountsMoved(tagged, [MembershipChange([], [t])],
                           tagged[TagCounts := OneCount(counts[t := At(counts, t) + 1])])
  {
    var changes := [MembershipChange([], [t])];
    OneTagged(Id(""), t);
    assert Applied(counts, id => Delta(Direct(id), changes), counts[t := At(counts, t) + 1]);
  }

  lemma TaggingIsBatch(cache: Cache, b: Id, t: Id, counts: map<Id, int>)
    requires Entry(cache, TagAxis, b) == Some([]) && TagCounts in cache && cache[TagCounts] == OneCount(counts)
    requires At(counts, t) >= 0 && forall k :: k in cache ==> k == TagCounts || k.BundleTags?
    ensures BatchStages([], Tagging(b, t), TaggingStages(cache, b, t, counts), {})
  {
    var st := TaggingStages(cache, b, t, counts);
    TaggedOver(cache, b, t);
    TaggingCounts(st.tagged, t, counts);
    assert ListingsProjected([], st.counted, [b], Some([]), st.listed, {});
    assert {} == {} + (set k | k in st.end && DependsOn(TagAxis, k));
  }

  ghost predicate Untagged(cache: Cache, a: Id, b: Id)
  {
    && a != b && (forall k :: k in cache ==> k == TagCounts || k.BundleTags?)
    && Entry(cache, TagAxis, a) == Entry(cache, TagAxis, b) == Some([])
    && TagCounts in cache && cache[TagCounts] == OneCount(map[])
  }

  function FirstTagging(cache: Cache, a: Id, t: Id): Stages
  {
    TaggingStages(cache, a, t, map[])
  }

  function SecondTagging(cache: Cache, a: Id, b: Id, t: Id): Stages
  {
    TaggingStages(FirstTagging(cache, a, t).end, b, t, map[t := 1])
  }

  function TaggingLog(cache: Cache, a: Id): seq<Snapshot>
    requires TagCounts in cache && BundleTags(a) in cache
  {
    [Snapshot(TagCounts, cache[TagCounts]), Snapshot(BundleTags(a), cache[BundleTags(a)])]
  }

  lemma TaggingBatches(cache: Cache, a: Id, b: Id, t: Id)
    requires Untagged(cache, a, b)
    ensures Known(cache, Tagging(a, t)) && Known(FirstTagging(cache, a, t).end, Tagging(b, t))
    ensures BatchStages([], Tagging(a, t), FirstTagging(cache, a, t), {})
    ensures BatchStages([], Tagging(b, t), SecondTagging(cache, a, b, t), {})
  {
    assert map[][t := At(map[], t) + 1] == map[t := 1];
    TaggingIsBatch(cache, a, t, map[]);
    TaggingIsBatch(FirstTagging(cache, a, t).end, b, t, map[t := 1]);
  }

  lemma TaggingUndone(cache: Cache, a: Id, b: Id, t: Id)
    requires Untagged(cache, a, b)
    ensures Undo(FirstTagging(cache, a, t).end, TaggingLog(cache, a)) == cache
    ensures TagCounts in Oldest(TaggingLog(cache, a))
  {
    var log := TaggingLog(cache, a);
    LogOfTwo(FirstTagging(cache, a, t).end, log[0], log[1]);
  }

  /** Of two taggings of untagged bundles, the first refused when the second has been shown, the
      tag's figure falls back to none, though one bundle carries it. */
  lemma LateRefusalOfTagging(cache: Cache, library: Library, a: Id, b: Id, t: Id)
    requires Untagged(cache, a, b) && Agrees(cache, library, {})
    ensures var held := Undo(SecondTagging(cache, a, b, t).end, TaggingLog(cache, a));
            TagCounts in held && !Right(AfterBatch(library, Tagging(b, t)), TagCounts, held[TagCounts])
  {
    TaggingBatches(cache, a, b, t);
    TaggingUndone(cache, a, b, t);
    OneCarries(cache, library, b, t);
    LateRefusalOfOthersIsWrongIff([], Tagging(a, t), FirstTagging(cache, a, t), {}, Tagging(b, t),
                                  SecondTagging(cache, a, b, t), {},
                                  TaggingLog(cache, a), library, {}, TagCounts);
  }

  lemma LogOfTwo(cache: Cache, older: Snapshot, newer: Snapshot)
    ensures Undo(cache, [older, newer]) == cache[newer.key := newer.value][older.key := older.value]
    ensures Oldest([older, newer]) == map[newer.key := newer.value] + map[older.key := older.value]
  {
    assert Init([older, newer]) == [older] && Init([older]) == [];
    assert Oldest([]) == map[] && Oldest([older]) == map[older.key := older.value];
    var once := cache[newer.key := newer.value];
    assert Undo(cache, [older, newer]) == Undo(once, [older]) == Undo(once[older.key := older.value], []);
  }

  /** Nobody carried the tag, and now one bundle does. */
  lemma OneCarries(cache: Cache, library: Library, b: Id, t: Id)
    requires Agrees(cache, library, {}) && Entry(cache, TagAxis, b) == Some([])
    requires TagCounts in cache && cache[TagCounts] == OneCount(map[])
    ensures !SameAnswer(library, AfterBatch(library, Tagging(b, t)), TagCounts)
  {
    var next := AfterBatch(library, Tagging(b, t)).tags;
    assert At(map[], t) == Tally(library.tags, Direct(t));
    assert b in library.tags && b in Elems([b]) && t in Elems([t]);
    assert b in Fitting(next, Direct(t));
    assert !SameTally(library.tags, next, Direct(t));
  }

  /** There is such a cache: two bundles and a tag nobody carries. */
  lemma LateRefusalGoesWrong() returns (cache: Cache, library: Library, a: Id, b: Id, t: Id)
    ensures Untagged(cache, a, b) && Agrees(cache, library, {})
    ensures BatchStages([], Tagging(a, t), FirstTagging(cache, a, t), {})
    ensures BatchStages([], Tagging(b, t), SecondTagging(cache, a, b, t), {})
    ensures Undo(FirstTagging(cache, a, t).end, TaggingLog(cache, a)) == cache
    ensures var held := Undo(SecondTagging(cache, a, b, t).end, TaggingLog(cache, a));
            TagCounts in held && !Right(AfterBatch(library, Tagging(b, t)), TagCounts, held[TagCounts])
  {
    a, b, t := Id("a"), Id("b"), Id("t");
    var none: Value := Membership(Some([]));
    cache := map[TagCounts := OneCount(map[]), BundleTags(a) := none, BundleTags(b) := none];
    library := Library(map[], map[a := {}, b := {}], map[]);
    NobodyTagged(cache, library, a, b);
    TaggingBatches(cache, a, b, t);
    TaggingUndone(cache, a, b, t);
    LateRefusalOfTagging(cache, library, a, b, t);
  }

  lemma NobodyTagged(cache: Cache, library: Library, a: Id, b: Id)
    requires a != b && library == Library(map[], map[a := {}, b := {}], map[])
    requires cache == map[TagCounts := OneCount(map[]), BundleTags(a) := Membership(Some([])),
                          BundleTags(b) := Membership(Some([]))]
    ensures Agrees(cache, library, {})
  {
    forall id
      ensures Tally(library.tags, Direct(id)) == 0
    {
      assert Fitting(library.tags, Direct(id)) == {};
    }
    assert Elems<Id>([]) == {};
  }
}
