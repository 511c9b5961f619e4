/** However stale the cache, no projection shows a negative figure. */
module Figures {
  import opened Core
  import opened Forest
  import opened Counts
  import opened CacheModel
  import opened Agreement

  predicate NaturalCounts(counts: map<Id, int>)
  {
    forall id :: id in counts ==> counts[id] >= 0
  }

  /** No figure in this value is below zero. */
  predicate Natural(value: Value)
  {
    match value
    case Membership(_) => true
    case Tree(_) => true
    case TwoCounts(subtree, direct) => NaturalCounts(subtree) && NaturalCounts(direct)
    case Stats(total, direct) => total >= 0 && direct >= 0
    case OneCount(counts) => NaturalCounts(counts)
    case Views(uncategorized, untagged) => uncategorized >= 0 && untagged >= 0
    case Listing(pages) => forall i :: 0 <= i < |pages| ==> pages[i].total >= 0
  }

  ghost predicate AllNatural(cache: Cache)
  {
    forall k :: k in cache ==> Natural(cache[k])
  }

  /** Each count moves by its delta, or stops at zero when it would pass it; one that does not
      move is left out if it was. */
  lemma CountMoves(counts: map<Id, int>, delta: Id -> int, next: map<Id, int>, id: Id)
    requires Applied(counts, delta, next)
    ensures At(next, id) == if delta(id) != 0 && At(counts, id) + delta(id) < 0 then 0 else At(counts, id) + delta(id)
    ensures id in next <==> id in counts || delta(id) != 0
  {
  }

  lemma AppliedNatural(counts: map<Id, int>, delta: Id -> int, next: map<Id, int>)
    requires NaturalCounts(counts) && Applied(counts, delta, next)
    ensures NaturalCounts(next)
  {
  }

  lemma CollectionFigureNatural(parents: ParentMap, changes: seq<MembershipChange>, key: Key, before: Value,
                                after: Value)
    requires Natural(before) && CollectionFigureMoved(parents, changes, key, before, after)
    ensures Natural(after)
  {
    if key == CollectionCounts {
      AppliedNatural(before.subtree, id => Delta(Subtree(parents, id), changes), after.subtree);
      AppliedNatural(before.direct, id => Delta(Direct(id), changes), after.direct);
    }
  }

  lemma TagFigureNatural(changes: seq<MembershipChange>, key: Key, before: Value, after: Value)
    requires Natural(before) && TagFigureMoved(changes, key, before, after)
    ensures Natural(after)
  {
    if key == TagCounts {
      AppliedNatural(before.counts, id => Delta(Direct(id), changes), after.counts);
    }
  }

  lemma CollectionCountsNatural(before: Cache, changes: seq<MembershipChange>, after: Cache)
    requires AllNatural(before) && CollectionCountsMoved(before, changes, after)
    ensures AllNatural(after)
  {
    if changes != [] && TreeRows(before).Some? {
      forall k | k in after
        ensures Natural(after[k])
      {
        CollectionFigureNatural(ParentsOf(TreeRows(before).value), changes, k, before[k], after[k]);
      }
    }
  }

  lemma TagCountsNatural(before: Cache, changes: seq<MembershipChange>, after: Cache)
    requires AllNatural(before) && TagCountsMoved(before, changes, after)
    ensures AllNatural(after)
  {
    if changes != [] {
      forall k | k in after
        ensures Natural(after[k])
      {
        TagFigureNatural(changes, k, before[k], after[k]);
      }
    }
  }

  lemma ListingsNatural(keys: seq<Key>, before: Cache, bundles: seq<Id>, changes: Option<seq<MembershipChange>>,
                        after: Cache, unproven: set<Key>)
    requires AllNatural(before) && ListingsProjected(keys, before, bundles, changes, after, unproven)
    ensures AllNatural(after)
  {
    if changes.Some? && changes.value != [] && TreeRows(before).Some? {
      var found := FirstRows(CachedRows(keys, before), Elems(bundles));
      forall k | k in after
        ensures Natural(after[k])
      {
        var parents := ParentsOf(TreeRows(before).value);
        assert after[k] == ProjectedValue(parents, bundles, changes.value, found, k, before[k]);
      }
    }
  }

  lemma {:induction false} MembershipsNatural(cache: Cache, axis: Axis, bundles: seq<Id>, add: seq<Id>,
                                              remove: seq<Id>)
    requires AllNatural(cache)
    ensures AllNatural(MembershipsOver(cache, axis, bundles, add, remove).cache)
  {
    if bundles != [] {
      MembershipsNatural(cache, axis, Init(bundles), add, remove);
    }
  }

  /** A batch over any cache, true or stale, leaves no figure and no total below zero, and
      neither does taking it back. */
  lemma BatchShowsNoNegative(keys: seq<Key>, payload: BatchUpdate, st: Stages, unproven: set<Key>)
    requires BatchStages(keys, payload, st, unproven) && AllNatural(st.start)
    ensures AllNatural(st.end) && AllNatural(Unlogged(st.start, payload))
  {
    MembershipsNatural(st.start, CollectionAxis, payload.bundleIds, payload.addCollections, payload.removeCollections);
    var collections := AxisProjected(st.start, CollectionAxis, payload);
    if collections.changes.Some? {
      CollectionCountsNatural(st.filed, collections.changes.value, st.counted);
    }
    var named :| ListingsProjected(keys, st.counted, payload.bundleIds, collections.changes, st.listed, named);
    ListingsNatural(keys, st.counted, payload.bundleIds, collections.changes, st.listed, named);
    MembershipsNatural(st.listed, TagAxis, payload.bundleIds, payload.addTags, payload.removeTags);
    var tags := AxisProjected(st.listed, TagAxis, payload);
    if tags.changes.Some? {
      TagCountsNatural(st.tagged, tags.changes.value, st.end);
    }
    var first := if collections.changes.None? then collections.cache else st.start;
    MembershipsNatural(first, TagAxis, payload.bundleIds, payload.addTags, payload.removeTags);
  }
}
