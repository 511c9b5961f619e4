/** The query cache itself, and the loops of `hooks.ts` that write it entry by entry. */
module QueryClient {
  import opened Core
  import opened Forest
  import opened Counts
  import opened CacheModel
  import opened BrowsePages

  class QueryClient {
    /** Every cached query's key, in the order the cache lists them. */
    var keys: seq<Key>
    /** The queries that hold data. */
    var data: Cache

    ghost predicate Valid()
      reads this
    {
      Distinct(keys) && data.Keys <= Elems(keys) && WellTyped(data)
    }

    constructor ()
      ensures Valid() && data == map[] && keys == []
    {
      keys := [];
      data := map[];
    }

    /** `setQueryData` for a key that holds data. */
    method Set(key: Key, value: Value)
      requires Valid() && key in data && Typed(key, value)
      modifies this`data
      ensures Valid() && data == old(data)[key := value]
    {
      data := data[key := value];
    }

    method RestoreSnapshots(snapshots: seq<Snapshot>)
      requires Valid() && forall s :: s in snapshots ==> s.key in data && Typed(s.key, s.value)
      modifies this`data
      ensures Valid() && data == Undo(old(data), snapshots)
    {
      var i := |snapshots|;
      assert snapshots[..i] == snapshots;
      while i > 0
        invariant 0 <= i <= |snapshots|
        invariant Valid() && data.Keys == old(data).Keys
        invariant Undo(data, snapshots[..i]) == Undo(old(data), snapshots)
      {
        assert Init(snapshots[..i]) == snapshots[..i - 1];
        i := i - 1;
        assert snapshots[i] in snapshots;
        Set(snapshots[i].key, snapshots[i].value);
      }
    }

    /** `projectMemberships` */
    method ProjectMemberships(axis: Axis, bundles: seq<Id>, add: seq<Id>, remove: seq<Id>)
      returns (changes: Option<seq<MembershipChange>>, snapshots: seq<Snapshot>)
      requires Valid()
      modifies this`data
      ensures Valid() && data.Keys == old(data).Keys
      ensures Projected(data, changes) == ProjectedMemberships(old(data), axis, bundles, add, remove)
      ensures changes.Some? ==> Undo(data, snapshots) == old(data)
      ensures forall s :: s in snapshots ==> s.key in data && Typed(s.key, s.value)
      ensures axis == CollectionAxis ==> forall s :: s in snapshots ==> !s.key.BundleTags?
    {
      if |add| == 0 && |remove| == 0 {
        return Some([]), [];
      }
      var list: seq<MembershipChange> := [];
      snapshots := [];
      var i := 0;
      while i < |bundles|
        invariant 0 <= i <= |bundles|
        invariant Valid() && data.Keys == old(data).Keys
        invariant Projected(data, Some(list)) == MembershipsOver(old(data), axis, bundles[..i], add, remove)
        invariant Undo(data, snapshots) == old(data)
        invariant forall s :: s in snapshots ==> s.key in data && Typed(s.key, s.value)
        invariant axis == CollectionAxis ==> forall s :: s in snapshots ==> !s.key.BundleTags?
      {
        var key := EntryKey(axis, bundles[i]);
        assert Init(bundles[..i + 1]) == bundles[..i];
        if key !in data || data[key].ids.None? {
          assert MembershipsOver(old(data), axis, bundles[..i + 1], add, remove) == Projected(data, None);
          UnknownStaysUnknown(old(data), axis, bundles, add, remove, i + 1);
          return None, snapshots;
        }
        var before := data[key].ids.value;
        var after := NextMembership(before, add, remove);
        list := list + [MembershipChange(before, after)];
        UndoOneMore(data, snapshots, key, Membership(Some(after)));
        snapshots := snapshots + [Snapshot(key, data[key])];
        Set(key, Membership(Some(after)));
        i := i + 1;
      }
      assert bundles[..i] == bundles;
      changes := Some(list);
    }

    /** `applyViewCountDelta`, for either membership view. */
    method ApplyViewCountDelta(axis: Axis, delta: int) returns (snapshots: seq<Snapshot>)
      requires Valid()
      modifies this`data
      ensures Valid() && data.Keys == old(data).Keys
      ensures ViewCounts !in data ==> data == old(data)
      ensures ViewCounts in data ==>
                data == old(data)[ViewCounts :=
                  if axis == CollectionAxis then UncategorizedMoved(old(data)[ViewCounts], delta)
                  else UntaggedMoved(old(data)[ViewCounts], delta)]
      ensures Undo(data, snapshots) == old(data)
      ensures forall s :: s in snapshots ==> s.key == ViewCounts && s.key in data && Typed(s.key, s.value)
    {
      if ViewCounts !in data || delta == 0 {
        return [];
      }
      var views := data[ViewCounts];
      var moved := if axis == CollectionAxis then views.(uncategorized := Max(0, views.uncategorized + delta))
                   else views.(untagged := Max(0, views.untagged + delta));
      UndoOneMore(data, [], ViewCounts, moved);
      snapshots := [Snapshot(ViewCounts, views)];
      assert [] + snapshots == snapshots;
      Set(ViewCounts, moved);
    }

    /** `applyCollectionCounts` */
    method ApplyCollectionCounts(changes: seq<MembershipChange>) returns (snapshots: seq<Snapshot>)
      requires Valid()
      modifies this`data
      ensures Valid() && data.Keys == old(data).Keys
      ensures CollectionCountsMoved(old(data), changes, data)
      ensures Undo(data, snapshots) == old(data)
      ensures forall s :: s in snapshots ==> s.key in data && Typed(s.key, s.value)
      ensures forall s :: s in snapshots ==> !s.key.BundleTags? && !s.key.BundleCollections?
    {
      snapshots := [];
      if |changes| == 0 || CollectionTree !in data {
        return;
      }
      var rows := data[CollectionTree].rows;
      ghost var parents := ParentsOf(rows);
      var subtree := CollectionCountDeltas(rows, changes);
      var direct := DirectMembershipDeltas(changes);
      var empty := EmptyMembershipDelta(changes);
      var countsLog := MoveTwoCounts(parents, changes, subtree, direct);
      ghost var counted := data;
      var statsLog := MoveStats(parents, changes, subtree, direct);
      ghost var inspected := data;
      UndoAppend(data, countsLog, statsLog);
      var viewLog := ApplyViewCountDelta(CollectionAxis, empty);
      UndoAppend(data, countsLog + statsLog, viewLog);
      snapshots := countsLog + statsLog + viewLog;
      MovedInTurn(parents, changes, old(data), counted, inspected, data);
    }

    /** `applyTagCounts`, the tag map. */
    method MoveOneCount(changes: seq<MembershipChange>) returns (snapshots: seq<Snapshot>)
      requires Valid()
      modifies this`data
      ensures Valid() && data.Keys == old(data).Keys
      ensures forall k :: k in data ==>
                if k == TagCounts then TagFigureMoved(changes, k, old(data)[k], data[k]) else data[k] == old(data)[k]
      ensures Undo(data, snapshots) == old(data)
      ensures forall s :: s in snapshots ==> s.key == TagCounts && s.key in data && Typed(s.key, s.value)
    {
      if TagCounts !in data {
        return [];
      }
      var counts := data[TagCounts];
      var direct := DirectMembershipDeltas(changes);
      var next := ApplyCountDeltas(counts.counts, direct);
      UndoOneMore(data, [], TagCounts, OneCount(next));
      snapshots := [Snapshot(TagCounts, counts)];
      assert [] + snapshots == snapshots;
      Set(TagCounts, OneCount(next));
    }

    /** The sidebar's two maps. */
    method MoveTwoCounts(ghost parents: ParentMap, ghost changes: seq<MembershipChange>,
                         subtree: map<Id, int>, direct: map<Id, int>) returns (snapshots: seq<Snapshot>)
      requires Valid()
      requires forall id :: At(subtree, id) == Delta(Subtree(parents, id), changes)
      requires forall id :: At(direct, id) == Delta(Direct(id), changes)
      modifies this`data
      ensures Valid() && data.Keys == old(data).Keys
      ensures forall k :: k in data ==>
                if k == CollectionCounts then CollectionFigureMoved(parents, changes, k, old(data)[k], data[k])
                else data[k] == old(data)[k]
      ensures Undo(data, snapshots) == old(data)
      ensures forall s :: s in snapshots ==> s.key == CollectionCounts && s.key in data && Typed(s.key, s.value)
    {
      if CollectionCounts !in data {
        return [];
      }
      var counts := data[CollectionCounts];
      var nextSubtree := ApplyCountDeltas(counts.subtree, subtree);
      var nextDirect := ApplyCountDeltas(counts.direct, direct);
      TwoCountsMove(parents, changes, counts, subtree, direct, nextSubtree, nextDirect);
      UndoOneMore(data, [], CollectionCounts, TwoCounts(nextSubtree, nextDirect));
      snapshots := [Snapshot(CollectionCounts, counts)];
      assert [] + snapshots == snapshots;
      Set(CollectionCounts, TwoCounts(nextSubtree, nextDirect));
    }

    /** The loop over every open collection inspector's figures. */
    method MoveStats(ghost parents: ParentMap, ghost changes: seq<MembershipChange>,
                     subtree: map<Id, int>, direct: map<Id, int>) returns (snapshots: seq<Snapshot>)
      requires Valid()
      requires forall id :: At(subtree, id) == Delta(Subtree(parents, id), changes)
      requires forall id :: At(direct, id) == Delta(Direct(id), changes)
      modifies this`data
      ensures Valid() && data.Keys == old(data).Keys
      ensures forall k :: k in data ==>
                if k.CollectionStats? then CollectionFigureMoved(parents, changes, k, old(data)[k], data[k])
                else data[k] == old(data)[k]
      ensures Undo(data, snapshots) == old(data)
      ensures StatsLogged(snapshots, data)
    {
      snapshots := [];
      var i := 0;
      while i < |keys|
        invariant 0 <= i <= |keys| && Valid()
        invariant StatsSoFar(parents, changes, old(data), data, Elems(keys[..i]))
        invariant Undo(data, snapshots) == old(data) && StatsLogged(snapshots, data)
      {
        var key := keys[i];
        ghost var was := data;
        assert keys[..i + 1] == keys[..i] + [key];
        ElemsAppend(keys[..i], [key]);
        if key.CollectionStats? && key in data {
          var log := MoveOneStats(parents, changes, key, subtree, direct);
          UndoAppend(data, snapshots, log);
          snapshots := snapshots + log;
        }
        assert key !in keys[..i];
        StatsOneMore(parents, changes, old(data), was, Elems(keys[..i]), key, data);
        i := i + 1;
      }
      assert keys[..i] == keys;
    }

    method MoveOneStats(ghost parents: ParentMap, ghost changes: seq<MembershipChange>, key: Key,
                        subtree: map<Id, int>, direct: map<Id, int>) returns (snapshots: seq<Snapshot>)
      requires Valid() && key in data && key.CollectionStats?
      requires At(subtree, key.collection) == Delta(Subtree(parents, key.collection), changes)
      requires At(direct, key.collection) == Delta(Direct(key.collection), changes)
      modifies this`data
      ensures Valid() && key in data && data == old(data)[key := data[key]]
      ensures CollectionFigureMoved(parents, changes, key, old(data)[key], data[key])
      ensures Undo(data, snapshots) == old(data)
      ensures forall s :: s in snapshots ==> s.key == key && Typed(key, s.value)
    {
      var stats := data[key];
      var total, own := At(subtree, key.collection), At(direct, key.collection);
      if total == 0 && own == 0 {
        assert data == data[key := stats];
        return [];
      }
      var moved := Stats(Max(0, stats.totalBundles + total), Max(0, stats.directBundles + own));
      UndoOneMore(data, [], key, moved);
      snapshots := [Snapshot(key, stats)];
      assert [] + snapshots == snapshots;
      Set(key, moved);
    }

    /** `applyTagCounts` */
    method ApplyTagCounts(changes: seq<MembershipChange>) returns (snapshots: seq<Snapshot>)
      requires Valid()
      modifies this`data
      ensures Valid() && data.Keys == old(data).Keys
      ensures TagCountsMoved(old(data), changes, data)
      ensures Undo(data, snapshots) == old(data)
      ensures forall s :: s in snapshots ==>
                (s.key == TagCounts || s.key == ViewCounts) && s.key in data && Typed(s.key, s.value)
    {
      snapshots := [];
      if |changes| == 0 {
        return;
      }
      var empty := EmptyMembershipDelta(changes);
      var countsLog := MoveOneCount(changes);
      ghost var counted := data;
      var viewLog := ApplyViewCountDelta(TagAxis, empty);
      UndoAppend(data, countsLog, viewLog);
      snapshots := countsLog + viewLog;
      TagsMovedInTurn(changes, old(data), counted, data);
    }

    /** `cachedSummaries`: the first row found for each wanted bundle, over every listing. */
    method CachedSummaries(bundles: seq<Id>) returns (found: map<Id, Summary>)
      requires Valid()
      ensures found == FirstRows(CachedRows(keys, data), Elems(bundles))
    {
      var wanted := Elems(bundles);
      found := map[];
      var i := 0;
      while i < |keys|
        invariant 0 <= i <= |keys|
        invariant found == FirstRows(CachedRows(keys[..i], data), wanted)
      {
        var key := keys[i];
        assert Init(keys[..i + 1]) == keys[..i];
        if key.Browse? && key in data {
          found := AddRowsOfPages(found, CachedRows(keys[..i], data), data[key].pages, wanted);
        }
        i := i + 1;
      }
      assert keys[..i] == keys;
    }

    method AddRowsOfPages(start: map<Id, Summary>, ghost seen: seq<Summary>, pages: seq<Page>, wanted: set<Id>)
      returns (found: map<Id, Summary>)
      requires start == FirstRows(seen, wanted)
      ensures found == FirstRows(seen + Flat(pages), wanted)
    {
      found := start;
      assert seen + Flat([]) == seen;
      var p := 0;
      while p < |pages|
        invariant 0 <= p <= |pages|
        invariant found == FirstRows(seen + Flat(pages[..p]), wanted)
      {
        var items := pages[p].items;
        ghost var before := seen + Flat(pages[..p]);
        assert before + items[..0] == before;
        var j := 0;
        while j < |items|
          invariant 0 <= j <= |items|
          invariant found == FirstRows(before + items[..j], wanted)
        {
          assert Init(before + items[..j + 1]) == before + items[..j];
          if items[j].id in wanted && items[j].id !in found {
            found := found[items[j].id := items[j]];
          }
          j := j + 1;
        }
        assert Init(pages[..p + 1]) == pages[..p];
        assert before + items[..j] == seen + Flat(pages[..p + 1]);
        p := p + 1;
      }
      assert pages[..p] == pages;
    }

    /** `membershipDependentListings` */
    method MembershipDependentListings(axis: Axis) returns (dependent: seq<Key>)
      requires Valid()
      ensures Elems(dependent) == set k | k in data && DependsOn(axis, k)
    {
      dependent := [];
      var i := 0;
      while i < |keys|
        invariant 0 <= i <= |keys|
        invariant Elems(dependent) == set k | k in data && DependsOn(axis, k) && k in Elems(keys[..i])
      {
        var key := keys[i];
        assert keys[..i + 1] == keys[..i] + [key];
        ElemsAppend(keys[..i], [key]);
        if key in data && key.Browse? {
          var scoped := axis == CollectionAxis && ScopeOf(key.query).Some?;
          if scoped || key.query.view == MembershipView(axis) {
            ElemsAppend(dependent, [key]);
            dependent := dependent + [key];
          }
        }
        i := i + 1;
      }
      assert keys[..i] == keys;
    }

    /** `projectCollectionListings` */
    method ProjectCollectionListings(bundles: seq<Id>, changes: Option<seq<MembershipChange>>)
      returns (snapshots: seq<Snapshot>, unproven: seq<Key>)
      requires Valid()
      modifies this`data
      ensures Valid() && data.Keys == old(data).Keys
      ensures ListingsProjected(keys, old(data), bundles, changes, data, Elems(unproven))
      ensures Undo(data, snapshots) == old(data)
      ensures forall s :: s in snapshots ==> s.key.Browse? && s.key in data && Typed(s.key, s.value)
    {
      snapshots, unproven := [], [];
      if changes.Some? && |changes.value| == 0 {
        assert Elems(unproven) == {};
        return;
      }
      if changes.None? || CollectionTree !in data {
        unproven := MembershipDependentListings(CollectionAxis);
        return;
      }
      var found := CachedSummaries(bundles);
      snapshots, unproven := ProjectEachListing(data[CollectionTree].rows, bundles, changes.value, found);
    }

    method ProjectEachListing(rows: seq<Row>, bundles: seq<Id>, changes: seq<MembershipChange>, found: map<Id, Summary>)
      returns (snapshots: seq<Snapshot>, unproven: seq<Key>)
      requires Valid()
      modifies this`data
      ensures Valid() && data.Keys == old(data).Keys
      ensures forall k :: k in data ==> data[k] == ProjectedValue(ParentsOf(rows), bundles, changes, found, k,
                                                                  old(data)[k])
      ensures forall k :: k in unproven <==> k in data && Unprovable(ParentsOf(rows), bundles, changes, found, k)
      ensures Undo(data, snapshots) == old(data)
      ensures forall s :: s in snapshots ==> s.key.Browse? && s.key in data && Typed(s.key, s.value)
    {
      snapshots, unproven := [], [];
      ghost var parents := ParentsOf(rows);
      ghost var done: set<Key> := {};
      var i := 0;
      while i < |keys|
        invariant 0 <= i <= |keys|
        invariant Valid() && data.Keys == old(data).Keys
        invariant done == Elems(keys[..i])
        invariant forall k :: k in data && k in done ==>
                    data[k] == ProjectedValue(parents, bundles, changes, found, k, old(data)[k])
        invariant forall k :: k in data && k !in done ==> data[k] == old(data)[k]
        invariant forall k :: k in unproven <==>
                  k in data && k in done && Unprovable(parents, bundles, changes, found, k)
        invariant Undo(data, snapshots) == old(data)
        invariant forall s :: s in snapshots ==> s.key.Browse? && s.key in data && Typed(s.key, s.value)
      {
        var key := keys[i];
        assert keys[..i + 1] == keys[..i] + [key];
        ElemsAppend(keys[..i], [key]);
        assert key !in done;
        if key.Browse? && key in data {
          var log, named := ProjectOneListing(key, rows, bundles, changes, found);
          UndoAppend(data, snapshots, log);
          snapshots := snapshots + log;
          unproven := unproven + named;
        }
        done := done + {key};
        i := i + 1;
      }
      assert keys[..i] == keys;
    }

    method ProjectOneListing(key: Key, rows: seq<Row>, bundles: seq<Id>, changes: seq<MembershipChange>,
                             found: map<Id, Summary>)
      returns (snapshots: seq<Snapshot>, unproven: seq<Key>)
      requires Valid() && key in data && key.Browse?
      modifies this`data
      ensures Valid()
      ensures data == old(data)[key := ProjectedValue(ParentsOf(rows), bundles, changes, found, key, old(data)[key])]
      ensures forall k :: k in unproven <==> k == key && Unprovable(ParentsOf(rows), bundles, changes, found, key)
      ensures Undo(data, snapshots) == old(data)
      ensures forall s :: s in snapshots ==> s.key == key && Typed(s.key, s.value)
    {
      snapshots, unproven := [], [];
      var pages := data[key].pages;
      var scope := ScopeOf(key.query);
      if scope.None? {
        if key.query.view == MembershipView(CollectionAxis) {
          unproven := [key];
        }
        return;
      }
      if Judged(key.query) {
        unproven := [key];
        return;
      }
      var leaving, arriving, undrawn := ListingChanges(rows, scope.value, ShowsDescendants(key.query), bundles,
                                                       changes, found);
      unproven := seq(|undrawn|, _ => key);
      if undrawn != [] {
        assert unproven[0] == key;
      }
      if leaving == {} && arriving == [] {
        return;
      }
      snapshots := RewriteOneListing(key, leaving, arriving);
    }

    method RewriteOneListing(key: Key, leaving: set<Id>, arriving: seq<Summary>) returns (snapshots: seq<Snapshot>)
      requires Valid() && key in data && key.Browse?
      modifies this`data
      ensures Valid()
      ensures data == old(data)[key := Listing(RewrittenPages(old(data)[key].pages, leaving, arriving))]
      ensures Undo(data, snapshots) == old(data)
      ensures snapshots == [Snapshot(key, old(data)[key])] && Typed(key, old(data)[key])
    {
      var rewritten := RewritePages(data[key].pages, leaving, arriving);
      UndoOneMore(data, [], key, Listing(rewritten));
      snapshots := [Snapshot(key, data[key])];
      assert [] + snapshots == snapshots;
      Set(key, Listing(rewritten));
    }

    /** Collection memberships, and the counts they feed. An unknown membership leaves the
        writes before it without a log. */
    method ProjectFiling(payload: BatchUpdate)
      returns (changes: Option<seq<MembershipChange>>, snapshots: seq<Snapshot>, ghost filed: Cache)
      requires Valid()
      modifies this`data
      ensures Valid() && data.Keys == old(data).Keys
      ensures Projected(filed, changes) == AxisProjected(old(data), CollectionAxis, payload)
      ensures if changes.None? then data == filed else CollectionCountsMoved(filed, changes.value, data)
      ensures forall s :: s in snapshots ==> s.key in data && Typed(s.key, s.value) && !s.key.BundleTags?
      ensures Undo(data, snapshots) == if changes.None? then filed else old(data)
    {
      var log;
      changes, log := ProjectMemberships(CollectionAxis, payload.bundleIds, payload.addCollections,
                                         payload.removeCollections);
      filed := data;
      snapshots := [];
      if changes.Some? {
        var countLog := ApplyCollectionCounts(changes.value);
        UndoAppend(data, log, countLog);
        snapshots := log + countLog;
      }
    }

    /** The same for tags. */
    method ProjectTagging(payload: BatchUpdate)
      returns (ghost changes: Option<seq<MembershipChange>>, snapshots: seq<Snapshot>, ghost tagged: Cache)
      requires Valid()
      modifies this`data
      ensures Valid() && data.Keys == old(data).Keys
      ensures Projected(tagged, changes) == AxisProjected(old(data), TagAxis, payload)
      ensures if changes.None? then data == tagged else TagCountsMoved(tagged, changes.value, data)
      ensures forall s :: s in snapshots ==> s.key in data && Typed(s.key, s.value)
      ensures Undo(data, snapshots) == if changes.None? then tagged else old(data)
    {
      var tags, log := ProjectMemberships(TagAxis, payload.bundleIds, payload.addTags, payload.removeTags);
      tagged := data;
      snapshots := [];
      if tags.Some? {
        var countLog := ApplyTagCounts(tags.value);
        UndoAppend(data, log, countLog);
        snapshots := log + countLog;
      }
      changes := tags;
    }

    /** The writes of `useBatchUpdate`'s `onMutate`, in order: collection memberships and
        the counts they feed, listings, then tag memberships and counts. */
    method ProjectBatch(payload: BatchUpdate) returns (snapshots: seq<Snapshot>, unproven: seq<Key>, ghost st: Stages)
      requires Valid()
      modifies this`data
      ensures Valid() && data.Keys == old(data).Keys
      ensures st.start == old(data) && st.end == data
      ensures BatchStages(keys, payload, st, Elems(unproven))
      ensures forall s :: s in snapshots ==> s.key in data && Typed(s.key, s.value)
      ensures Undo(data, snapshots) == Unlogged(old(data), payload)
    {
      ghost var start := data;
      var collections, filingLog, filed := ProjectFiling(payload);
      ghost var counted := data;
      var listingLog, named := ProjectCollectionListings(payload.bundleIds, collections);
      UndoAppend(data, filingLog, listingLog);
      snapshots := filingLog + listingLog;
      ghost var listed := data;
      UndoneBeforeTags(listed, snapshots, payload);
      var tags, tagLog, tagged := ProjectTagging(payload);
      UndoAppend(data, snapshots, tagLog);
      snapshots := snapshots + tagLog;
      unproven := NameTagListings(payload, named);
      st := Stages(start, filed, counted, listed, tagged, data);
    }

    /** Any tag change leaves Untagged unproven. */
    method NameTagListings(payload: BatchUpdate, named: seq<Key>) returns (unproven: seq<Key>)
      requires Valid()
      ensures Elems(unproven) == Elems(named) + if payload.addTags == [] && payload.removeTags == [] then {}
                                                else set k | k in data && DependsOn(TagAxis, k)
    {
      unproven := named;
      if |payload.addTags| > 0 || |payload.removeTags| > 0 {
        var dependent := MembershipDependentListings(TagAxis);
        ElemsAppend(unproven, dependent);
        unproven := unproven + dependent;
      }
    }

    /** A batch the server refuses: project, then restore what was logged. */
    method RefusedBatch(payload: BatchUpdate)
      requires Valid()
      modifies this`data
      ensures Valid() && data == Unlogged(old(data), payload)
    {
      var snapshots, unproven, st := ProjectBatch(payload);
      RestoreSnapshots(snapshots);
    }

    /** `useReorderBundles`, `onMutate`: the guess on every listing of the moved scope, and
        on no other. */
    method GuessReorder(scope: Option<Id>, movedIds: seq<Id>, before: Option<Id>) returns (snapshots: seq<Snapshot>)
      requires Valid()
      modifies this`data
      ensures Valid() && data.Keys == old(data).Keys
      ensures forall k :: k in data ==>
                data[k] == if Affected(k, scope) then Listing(MoveInPages(old(data)[k].pages, Elems(movedIds), before))
                    else old(data)[k]
      ensures forall s :: s in snapshots ==> s.key in data && Typed(s.key, s.value)
      ensures Undo(data, snapshots) == old(data)
    {
      snapshots := [];
      var i := 0;
      while i < |keys|
        invariant 0 <= i <= |keys| && Valid()
        invariant GuessedSoFar(old(data), data, Elems(keys[..i]), scope, Elems(movedIds), before)
        invariant forall s :: s in snapshots ==> s.key in data && Typed(s.key, s.value)
        invariant Undo(data, snapshots) == old(data)
      {
        var key := keys[i];
        ghost var was := data;
        assert keys[..i + 1] == keys[..i] + [key];
        ElemsAppend(keys[..i], [key]);
        var log := GuessIfAffected(key, scope, movedIds, before);
        UndoAppend(data, snapshots, log);
        snapshots := snapshots + log;
        assert key !in keys[..i];
        GuessedOneMore(old(data), was, Elems(keys[..i]), scope, Elems(movedIds), before, key, data);
        i := i + 1;
      }
      assert keys[..i] == keys;
    }

    method GuessIfAffected(key: Key, scope: Option<Id>, movedIds: seq<Id>, before: Option<Id>)
      returns (snapshots: seq<Snapshot>)
      requires Valid()
      modifies this`data
      ensures Valid() && data.Keys == old(data).Keys
      ensures if key in old(data) && Affected(key, scope) then
                old(data)[key].Listing? &&
                data == old(data)[key := Listing(MoveInPages(old(data)[key].pages, Elems(movedIds), before))]
              else data == old(data)
      ensures forall s :: s in snapshots ==> s.key in data && Typed(s.key, s.value)
      ensures Undo(data, snapshots) == old(data)
    {
      snapshots := [];
      if key in data && Affected(key, scope) {
        snapshots := GuessOneListing(key, movedIds, before);
      }
    }

    method GuessOneListing(key: Key, movedIds: seq<Id>, before: Option<Id>) returns (snapshots: seq<Snapshot>)
      requires Valid() && key in data && key.Browse?
      modifies this`data
      ensures Valid()
      ensures data == old(data)[key := Listing(MoveInPages(old(data)[key].pages, Elems(movedIds), before))]
      ensures snapshots == [Snapshot(key, old(data)[key])]
      ensures Undo(data, snapshots) == old(data)
    {
      var pages := MoveInBrowsePages(data[key].pages, movedIds, before);
      UndoOneMore(data, [], key, Listing(pages));
      snapshots := [Snapshot(key, data[key])];
      assert [] + snapshots == snapshots;
      Set(key, Listing(pages));
    }

    /** `useReorderBundles`, `onSuccess`: the server's order on the same listings. */
    method SettleReorder(scope: Option<Id>, orderedIds: seq<Id>)
      requires Valid()
      modifies this`data
      ensures Valid() && data.Keys == old(data).Keys
      ensures forall k :: k in data ==>
                data[k] == if Affected(k, scope) then Listing(OrderPages(old(data)[k].pages, orderedIds))
                    else old(data)[k]
    {
      var i := 0;
      while i < |keys|
        invariant 0 <= i <= |keys| && Valid()
        invariant SettledSoFar(old(data), data, Elems(keys[..i]), scope, orderedIds)
      {
        var key := keys[i];
        ghost var was := data;
        assert keys[..i + 1] == keys[..i] + [key];
        ElemsAppend(keys[..i], [key]);
        SettleIfAffected(key, scope, orderedIds);
        assert key !in keys[..i];
        SettledOneMore(old(data), was, Elems(keys[..i]), scope, orderedIds, key, data);
        i := i + 1;
      }
      assert keys[..i] == keys;
    }

    method SettleIfAffected(key: Key, scope: Option<Id>, orderedIds: seq<Id>)
      requires Valid()
      modifies this`data
      ensures Valid()
      ensures if key in old(data) && Affected(key, scope) then
                old(data)[key].Listing? &&
                data == old(data)[key := Listing(OrderPages(old(data)[key].pages, orderedIds))]
              else data == old(data)
    {
      if key in data && Affected(key, scope) {
        var pages := ApplyBrowseOrder(data[key].pages, orderedIds);
        Set(key, Listing(pages));
      }
    }
  }

  /** The inspectors' figures once these keys have been visited. */
  ghost predicate StatsSoFar(parents: ParentMap, changes: seq<MembershipChange>, was: Cache, now: Cache,
                             visited: set<Key>)
  {
    && now.Keys == was.Keys
    && forall k :: k in was ==>
         if k in visited && k.CollectionStats? then CollectionFigureMoved(parents, changes, k, was[k], now[k])
         else now[k] == was[k]
  }

  lemma StatsOneMore(parents: ParentMap, changes: seq<MembershipChange>, was: Cache, now: Cache, visited: set<Key>,
                     key: Key, next: Cache)
    requires StatsSoFar(parents, changes, was, now, visited) && key !in visited
    requires if key.CollectionStats? && key in now then
               key in next && next == now[key := next[key]] &&
                   CollectionFigureMoved(parents, changes, key, now[key], next[key])
             else next == now
    ensures StatsSoFar(parents, changes, was, next, visited + {key})
  {
  }

  ghost predicate StatsLogged(snapshots: seq<Snapshot>, cache: Cache)
  {
    forall s :: s in snapshots ==> s.key.CollectionStats? && s.key in cache && Typed(s.key, s.value)
  }

  /** The reordered listings once these keys have been visited. */
  ghost predicate GuessedSoFar(was: Cache, now: Cache, visited: set<Key>, scope: Option<Id>, moved: set<Id>,
                               before: Option<Id>)
  {
    && now.Keys == was.Keys
    && forall k :: k in was ==>
         if k in visited && Affected(k, scope)
           then was[k].Listing? && now[k] == Listing(MoveInPages(was[k].pages, moved, before))
         else now[k] == was[k]
  }

  /** The settled listings once these keys have been visited. */
  ghost predicate SettledSoFar(was: Cache, now: Cache, visited: set<Key>, scope: Option<Id>, answer: seq<Id>)
  {
    && now.Keys == was.Keys
    && forall k :: k in was ==>
         if k in visited && Affected(k, scope)
           then was[k].Listing? && now[k] == Listing(OrderPages(was[k].pages, answer))
         else now[k] == was[k]
  }

  lemma SettledOneMore(was: Cache, now: Cache, visited: set<Key>, scope: Option<Id>, answer: seq<Id>, key: Key,
                       next: Cache)
    requires SettledSoFar(was, now, visited, scope, answer) && key !in visited
    requires if key in now && Affected(key, scope) then
               now[key].Listing? && next == now[key := Listing(OrderPages(now[key].pages, answer))]
             else next == now
    ensures SettledSoFar(was, next, visited + {key}, scope, answer)
  {
  }

  /** What is logged before the tags are projected can be undone before or after them. */
  lemma UndoneBeforeTags(listed: Cache, snapshots: seq<Snapshot>, payload: BatchUpdate)
    requires forall s :: s in snapshots ==> !s.key.BundleTags?
    ensures var p := AxisProjected(listed, TagAxis, payload);
            AxisProjected(Undo(listed, snapshots), TagAxis, payload) == Projected(Undo(p.cache, snapshots), p.changes)
  {
    UndoCommutesWithMemberships(listed, snapshots, TagAxis, payload.bundleIds, payload.addTags, payload.removeTags);
  }

  lemma GuessedOneMore(was: Cache, now: Cache, visited: set<Key>, scope: Option<Id>, moved: set<Id>,
                       before: Option<Id>, key: Key, next: Cache)
    requires GuessedSoFar(was, now, visited, scope, moved, before) && key !in visited
    requires if key in now && Affected(key, scope) then
               now[key].Listing? && next == now[key := Listing(MoveInPages(now[key].pages, moved, before))]
             else next == now
    ensures GuessedSoFar(was, next, visited + {key}, scope, moved, before)
  {
  }

  /** The sidebar's two maps, each moved by its deltas. */
  lemma TwoCountsMove(parents: ParentMap, changes: seq<MembershipChange>, before: Value, subtree: map<Id, int>,
                      direct: map<Id, int>, nextSubtree: map<Id, int>, nextDirect: map<Id, int>)
    requires before.TwoCounts?
    requires forall id :: At(subtree, id) == Delta(Subtree(parents, id), changes)
    requires forall id :: At(direct, id) == Delta(Direct(id), changes)
    requires Applied(before.subtree, id => At(subtree, id), nextSubtree)
    requires Applied(before.direct, id => At(direct, id), nextDirect)
    ensures CollectionFigureMoved(parents, changes, CollectionCounts, before, TwoCounts(nextSubtree, nextDirect))
  {
  }

  /** The two maps, the inspectors and the view count, one after another, are every
      collection figure. */
  lemma MovedInTurn(parents: ParentMap, changes: seq<MembershipChange>, start: Cache, counted: Cache, inspected: Cache,
                    end: Cache)
    requires changes != [] && TreeRows(start).Some? && parents == ParentsOf(TreeRows(start).value)
    requires WellTyped(start)
    requires start.Keys == counted.Keys == inspected.Keys == end.Keys
    requires forall k :: k in start ==>
               if k == CollectionCounts then CollectionFigureMoved(parents, changes, k, start[k], counted[k])
               else counted[k] == start[k]
    requires forall k :: k in start ==>
               if k.CollectionStats? then CollectionFigureMoved(parents, changes, k, counted[k], inspected[k])
               else inspected[k] == counted[k]
    requires ViewCounts !in start ==> end == inspected
    requires ViewCounts in start ==>
               inspected[ViewCounts].Views? &&
               end == inspected[ViewCounts := UncategorizedMoved(inspected[ViewCounts], Delta(InNothing, changes))]
    ensures CollectionCountsMoved(start, changes, end)
  {
    forall k | k in start
      ensures CollectionFigureMoved(parents, changes, k, start[k], end[k])
    {
      if k == CollectionCounts {
        assert end[k] == counted[k];
      } else {
        assert counted[k] == start[k];
      }
    }
  }

  lemma TagsMovedInTurn(changes: seq<MembershipChange>, start: Cache, counted: Cache, end: Cache)
    requires changes != [] && WellTyped(start) && start.Keys == counted.Keys == end.Keys
    requires forall k :: k in start ==>
               if k == TagCounts then TagFigureMoved(changes, k, start[k], counted[k]) else counted[k] == start[k]
    requires ViewCounts !in start ==> end == counted
    requires ViewCounts in start ==>
               counted[ViewCounts].Views? &&
               end == counted[ViewCounts := UntaggedMoved(counted[ViewCounts], Delta(InNothing, changes))]
    ensures TagCountsMoved(start, changes, end)
  {
    forall k | k in start
      ensures TagFigureMoved(changes, k, start[k], end[k])
    {
      if k == TagCounts {
        assert end[k] == counted[k];
      } else {
        assert counted[k] == start[k];
      }
    }
  }

  /** One listing's share of a batch: who leaves, who arrives with a row to draw, and
      who arrives without one. */
  method ListingChanges(rows: seq<Row>, scope: Id, includeDescendants: bool, bundles: seq<Id>,
                        changes: seq<MembershipChange>, found: map<Id, Summary>)
    returns (leaving: set<Id>, arriving: seq<Summary>, undrawn: seq<Id>)
    ensures var rule := ListingRule(ParentsOf(rows), scope, includeDescendants);
            && leaving == LeavingIds(rule, bundles, changes)
            && arriving == ArrivingRows(rule, bundles, changes, found)
            && (undrawn != [] <==> Undrawable(rule, bundles, changes, found))
  {
    ghost var rule := ListingRule(ParentsOf(rows), scope, includeDescendants);
    leaving, arriving, undrawn := {}, [], [];
    var i := 0;
    while i < |bundles|
      invariant 0 <= i <= |bundles|
      invariant leaving == set j | 0 <= j < i && j < |changes| && Leaves(rule, changes[j]) :: bundles[j]
      invariant arriving == ArrivingRows(rule, bundles[..i], changes, found)
      invariant undrawn != [] <==>
                exists j :: 0 <= j < i && j < |changes| && Arrives(rule, changes[j]) && bundles[j] !in found
    {
      assert Init(bundles[..i + 1]) == bundles[..i];
      if i < |changes| {
        var before := ListingHoldsBundle(rows, scope, includeDescendants, changes[i].before);
        var after := ListingHoldsBundle(rows, scope, includeDescendants, changes[i].after);
        if before && !after {
          leaving := leaving + {bundles[i]};
        }
        if !before && after {
          if bundles[i] in found {
            arriving := arriving + [found[bundles[i]]];
          } else {
            undrawn := undrawn + [bundles[i]];
          }
        }
      }
      i := i + 1;
    }
    assert bundles[..i] == bundles;
  }

  lemma {:induction false} KeepAndGone(items: seq<Summary>, leaving: set<Id>)
    ensures |items| - |Keep(items, leaving)| == Gone(items, leaving)
  {
    if items != [] {
      KeepAndGone(Init(items), leaving);
    }
  }

  /** The page rebuild inside `projectCollectionListings`. */
  method RewritePages(pages: seq<Page>, leaving: set<Id>, arriving: seq<Summary>) returns (rewritten: seq<Page>)
    ensures rewritten == RewrittenPages(pages, leaving, arriving)
  {
    var newcomers := Keep(arriving, Elems(IdsOf(Flat(pages))));
    var departed := 0;
    var pruned: seq<Page> := [];
    var i := 0;
    while i < |pages|
      invariant 0 <= i <= |pages| && departed == Departed(pages[..i], leaving)
      invariant PrunedSoFar(pages, pruned, i, leaving, newcomers)
    {
      var kept := Keep(pages[i].items, leaving);
      KeepAndGone(pages[i].items, leaving);
      assert Init(pages[..i + 1]) == pages[..i];
      departed := departed + |pages[i].items| - |kept|;
      pruned := pruned + [pages[i].(items := if i == 0 then newcomers + kept else kept)];
      i := i + 1;
    }
    assert pages[..i] == pages;
    var delta := |newcomers| - departed;
    rewritten := seq(|pruned|, j requires 0 <= j < |pruned| => pruned[j].(total := Max(0, pruned[j].total + delta)));
    PrunedAll(pages, pruned, leaving, arriving, rewritten);
  }

  ghost predicate PrunedSoFar(pages: seq<Page>, pruned: seq<Page>, n: nat, leaving: set<Id>, newcomers: seq<Summary>)
  {
    n <= |pages| && |pruned| == n && forall j :: 0 <= j < n ==> pruned[j] == PrunedPage(pages[j], j, leaving, newcomers)
  }

  lemma PrunedAll(pages: seq<Page>, pruned: seq<Page>, leaving: set<Id>, arriving: seq<Summary>, rewritten: seq<Page>)
    requires var newcomers := Keep(arriving, Elems(IdsOf(Flat(pages))));
             && PrunedSoFar(pages, pruned, |pages|, leaving, newcomers)
             && |rewritten| == |pruned|
             && forall j :: 0 <= j < |pruned| ==>
                  rewritten[j] == pruned[j].(total := Max(0, pruned[j].total + |newcomers| - Departed(pages, leaving)))
    ensures rewritten == RewrittenPages(pages, leaving, arriving)
  {
  }
}
