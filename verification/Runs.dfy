/** Agreement over whole runs of batches, refusals and refetches. */
module Runs {
  import opened Core
  import opened Forest
  import opened Counts
  import opened Recount
  import opened CacheModel
  import opened Agreement
  import opened Listings

  // ----- One batch ------------------------------------------------------------

  /** Nothing to write on this axis, or every bundle's membership is cached. */
  predicate KnownOn(cache: Cache, axis: Axis, payload: BatchUpdate)
  {
    || (Adds(payload, axis) == [] && Removes(payload, axis) == [])
    || forall b :: b in payload.bundleIds ==> Entry(cache, axis, b).Some?
  }

  ghost predicate NoCollectionFigures(cache: Cache)
  {
    forall k :: k in cache ==> k != CollectionCounts && !k.CollectionStats? && k != ViewCounts
  }

  /** A batch that moves collections finds the tree its figures need, or no such figure. */
  ghost predicate KnownTree(cache: Cache, payload: BatchUpdate)
  {
    || TreeRows(cache).Some? || NoCollectionFigures(cache)
    || payload.bundleIds == [] || (payload.addCollections == [] && payload.removeCollections == [])
  }

  ghost predicate Known(cache: Cache, payload: BatchUpdate)
  {
    KnownOn(cache, CollectionAxis, payload) && KnownOn(cache, TagAxis, payload) && KnownTree(cache, payload)
  }

  /** The cached tree, if there is one, is the library's. */
  ghost predicate TreeAgrees(cache: Cache, library: Library)
  {
    TreeRows(cache).Some? ==> ParentsOf(TreeRows(cache).value) == library.parents
  }

  /** The cache is right about memberships, the tree and every figure, and every
      workable listing outside `suspect` shows exactly its bundles. */
  ghost predicate Agrees(cache: Cache, library: Library, suspect: set<Key>)
  {
    && WellTyped(cache)
    && TreeAgrees(cache, library)
    && MembershipsAgree(cache, CollectionAxis, library.collections)
    && MembershipsAgree(cache, TagAxis, library.tags)
    && CollectionFiguresExact(cache, library.parents, library.collections)
    && TagFiguresExact(cache, library.tags)
    && ListingsFaithful(cache, library, suspect)
  }

  /** One axis of a known batch: the changes it reports and the entries it leaves. */
  lemma AxisReports(cache: Cache, axis: Axis, payload: BatchUpdate, holdings: Holdings)
    requires WellTyped(cache) && MembershipsAgree(cache, axis, holdings) && KnownOn(cache, axis, payload)
    ensures var p := AxisProjected(cache, axis, payload);
            var add, remove := Elems(Adds(payload, axis)), Elems(Removes(payload, axis));
            var next := Batched(holdings, Elems(payload.bundleIds), add, remove);
            && p.changes.Some?
            && (p.changes.value == [] ==> next == holdings)
            && (p.changes.value != [] ==> Reports(holdings, payload.bundleIds, add, remove, p.changes.value))
            && MembershipsAgree(p.cache, axis, next)
            && WellTyped(p.cache) && p.cache.Keys == cache.Keys
            && (forall k :: k in cache && (forall b :: k != EntryKey(axis, b)) ==> p.cache[k] == cache[k])
            && (forall b :: Entry(cache, axis, b).Some? ==> Entry(p.cache, axis, b).Some?)
  {
    var adds, removes := Adds(payload, axis), Removes(payload, axis);
    if adds == [] && removes == [] {
      BatchedByNothing(holdings, Elems(payload.bundleIds));
      assert Elems(adds) == {} && Elems(removes) == {};
    } else {
      KnownProjects(cache, axis, payload.bundleIds, adds, removes);
      MembershipsOverReports(cache, axis, payload.bundleIds, adds, removes, holdings);
      MembershipsOverFrame(cache, axis, payload.bundleIds, adds, removes);
      if payload.bundleIds == [] {
        assert Batched(holdings, Elems(payload.bundleIds), Elems(adds), Elems(removes)) == holdings;
      }
    }
  }

  lemma CountedFrame(before: Cache, changes: seq<MembershipChange>, after: Cache)
    requires WellTyped(before) && CollectionCountsMoved(before, changes, after)
    ensures WellTyped(after) && after.Keys == before.Keys
    ensures forall k :: k in before && k != CollectionCounts && !k.CollectionStats? && k != ViewCounts ==>
            after[k] == before[k]
    ensures ViewCounts in before ==> after[ViewCounts].untagged == before[ViewCounts].untagged
  {
    if changes != [] && TreeRows(before).Some? {
      var parents := ParentsOf(TreeRows(before).value);
      forall k | k in before
        ensures Typed(k, after[k])
      {
        assert CollectionFigureMoved(parents, changes, k, before[k], after[k]);
      }
    }
  }

  lemma ListedFrame(keys: seq<Key>, before: Cache, bundles: seq<Id>, changes: Option<seq<MembershipChange>>,
                    after: Cache, unproven: set<Key>)
    requires WellTyped(before) && ListingsProjected(keys, before, bundles, changes, after, unproven)
    ensures WellTyped(after) && after.Keys == before.Keys
    ensures forall k :: k in before && !k.Browse? ==> after[k] == before[k]
  {
  }

  lemma TaggedFrame(before: Cache, changes: seq<MembershipChange>, after: Cache)
    requires WellTyped(before) && TagCountsMoved(before, changes, after)
    ensures WellTyped(after) && after.Keys == before.Keys
    ensures forall k :: k in before && k != TagCounts && k != ViewCounts ==> after[k] == before[k]
    ensures ViewCounts in before ==> after[ViewCounts].uncategorized == before[ViewCounts].uncategorized
  {
    if changes != [] {
      forall k | k in before
        ensures Typed(k, after[k])
      {
        assert TagFigureMoved(changes, k, before[k], after[k]);
      }
    }
  }

  lemma EntriesUnchanged(before: Cache, after: Cache, axis: Axis, holdings: Holdings)
    requires MembershipsAgree(before, axis, holdings) && after.Keys == before.Keys
    requires forall b :: EntryKey(axis, b) in before ==> after[EntryKey(axis, b)] == before[EntryKey(axis, b)]
    ensures MembershipsAgree(after, axis, holdings)
  {
    forall b | Entry(after, axis, b).Some?
      ensures b in holdings && Elems(Entry(after, axis, b).value) == holdings[b]
    {
      assert Entry(before, axis, b) == Entry(after, axis, b);
    }
  }

  /** Everything but the listings, collection axis: through `counted`. */
  lemma CollectionStages(payload: BatchUpdate, start: Cache, counted: Cache, library: Library, suspect: set<Key>)
    requires Agrees(start, library, suspect) && KnownOn(start, CollectionAxis, payload) && KnownTree(start, payload)
    requires var p := AxisProjected(start, CollectionAxis, payload);
             p.changes.Some? && CollectionCountsMoved(p.cache, p.changes.value, counted)
    ensures var next := AfterBatch(library, payload);
            && WellTyped(counted) && counted.Keys == start.Keys
            && MembershipsAgree(counted, CollectionAxis, next.collections)
            && MembershipsAgree(counted, TagAxis, library.tags)
            && CollectionFiguresExact(counted, library.parents, next.collections)
            && TagFiguresExact(counted, library.tags)
            && (forall k :: k in start && (k.Browse? || k.BundleTags? || k == CollectionTree) ==>
                counted[k] == start[k])
  {
    var p := AxisProjected(start, CollectionAxis, payload);
    var add, remove := Elems(payload.addCollections), Elems(payload.removeCollections);
    AxisReports(start, CollectionAxis, payload, library.collections);
    CountedStage(start, p.cache, p.changes.value, counted, library, payload.bundleIds, add, remove);
  }

  /** The counting stage, once filing has reported its changes. */
  lemma CountedStage(start: Cache, filed: Cache, changes: seq<MembershipChange>, counted: Cache, library: Library,
                     ids: seq<Id>, add: set<Id>, remove: set<Id>)
    requires WellTyped(filed) && filed.Keys == start.Keys && TreeAgrees(start, library)
    requires forall k :: k in start && (forall b :: k != EntryKey(CollectionAxis, b)) ==> filed[k] == start[k]
    requires TreeRows(start).Some? || NoCollectionFigures(start) || changes == []
    requires changes == [] ==> Batched(library.collections, Elems(ids), add, remove) == library.collections
    requires changes != [] ==> Reports(library.collections, ids, add, remove, changes)
    requires MembershipsAgree(filed, CollectionAxis, Batched(library.collections, Elems(ids), add, remove))
    requires MembershipsAgree(start, TagAxis, library.tags)
    requires CollectionFiguresExact(start, library.parents, library.collections) && TagFiguresExact(start, library.tags)
    requires CollectionCountsMoved(filed, changes, counted)
    ensures WellTyped(counted) && counted.Keys == start.Keys
    ensures MembershipsAgree(counted, CollectionAxis, Batched(library.collections, Elems(ids), add, remove))
    ensures MembershipsAgree(counted, TagAxis, library.tags)
    ensures CollectionFiguresExact(counted, library.parents, Batched(library.collections, Elems(ids), add, remove))
    ensures TagFiguresExact(counted, library.tags)
    ensures forall k :: k in start && (k.Browse? || k.BundleTags? || k == CollectionTree) ==> counted[k] == start[k]
  {
    FiledFigures(start, filed, library);
    CountedFrame(filed, changes, counted);
    CountedFigures(filed, counted, library, ids, add, remove, changes);
    CountedEntries(start, filed, changes, counted, Batched(library.collections, Elems(ids), add, remove), library.tags);
    TagFiguresCarryOver(filed, counted, library.tags);
  }

  /** Filing writes memberships only: figures and tree are as before. */
  lemma FiledFigures(start: Cache, filed: Cache, library: Library)
    requires filed.Keys == start.Keys
    requires forall k :: k in start && (forall b :: k != EntryKey(CollectionAxis, b)) ==> filed[k] == start[k]
    requires TreeAgrees(start, library) && CollectionFiguresExact(start, library.parents, library.collections)
    requires TagFiguresExact(start, library.tags)
    ensures TreeRows(filed) == TreeRows(start) && TreeAgrees(filed, library)
    ensures CollectionFiguresExact(filed, library.parents, library.collections) && TagFiguresExact(filed, library.tags)
    ensures NoCollectionFigures(start) ==> NoCollectionFigures(filed)
  {
    FiguresCarryOver(start, filed, library.parents, library.collections);
    TagFiguresCarryOver(start, filed, library.tags);
  }

  lemma TagFiguresCarryOver(before: Cache, after: Cache, holdings: Holdings)
    requires TagFiguresExact(before, holdings) && after.Keys == before.Keys
    requires TagCounts in before ==> after[TagCounts] == before[TagCounts]
    requires ViewCounts in before ==>
               after[ViewCounts].Views? && after[ViewCounts].untagged == before[ViewCounts].untagged
    ensures TagFiguresExact(after, holdings)
  {
  }

  lemma CountedFigures(filed: Cache, counted: Cache, library: Library, ids: seq<Id>, add: set<Id>, remove: set<Id>,
                       changes: seq<MembershipChange>)
    requires CollectionFiguresExact(filed, library.parents, library.collections)
    requires changes == [] ==> Batched(library.collections, Elems(ids), add, remove) == library.collections
    requires changes != [] ==> Reports(library.collections, ids, add, remove, changes)
    requires TreeAgrees(filed, library) && (TreeRows(filed).Some? || NoCollectionFigures(filed) || changes == [])
    requires CollectionCountsMoved(filed, changes, counted)
    ensures CollectionFiguresExact(counted, library.parents, Batched(library.collections, Elems(ids), add, remove))
  {
    if changes != [] && TreeRows(filed).Some? {
      CollectionFiguresStayExact(filed, counted, library.parents, library.collections, ids, add, remove, changes);
    }
  }

  /** Counting moves no membership. */
  lemma CountedEntries(start: Cache, filed: Cache, changes: seq<MembershipChange>, counted: Cache,
                       collections: Holdings, tags: Holdings)
    requires WellTyped(filed) && CollectionCountsMoved(filed, changes, counted) && filed.Keys == start.Keys
    requires MembershipsAgree(filed, CollectionAxis, collections) && MembershipsAgree(start, TagAxis, tags)
    requires forall k :: k in start && k.BundleTags? ==> filed[k] == start[k]
    ensures MembershipsAgree(counted, CollectionAxis, collections) && MembershipsAgree(counted, TagAxis, tags)
  {
    CountedFrame(filed, changes, counted);
    EntriesUnchanged(filed, counted, CollectionAxis, collections);
    EntriesUnchanged(start, counted, TagAxis, tags);
  }

  /** The tag axis's counting, once filing has reported its changes. */
  lemma TaggedStage(listed: Cache, tagged: Cache, changes: seq<MembershipChange>, end: Cache, tags: Holdings,
                    collections: Holdings, parents: ParentMap, ids: seq<Id>, add: set<Id>, remove: set<Id>)
    requires WellTyped(tagged) && tagged.Keys == listed.Keys
    requires forall k :: k in listed && (forall b :: k != EntryKey(TagAxis, b)) ==> tagged[k] == listed[k]
    requires changes == [] ==> Batched(tags, Elems(ids), add, remove) == tags
    requires changes != [] ==> Reports(tags, ids, add, remove, changes)
    requires MembershipsAgree(tagged, TagAxis, Batched(tags, Elems(ids), add, remove))
    requires MembershipsAgree(listed, CollectionAxis, collections)
    requires TagFiguresExact(listed, tags) && CollectionFiguresExact(listed, parents, collections)
    requires TagCountsMoved(tagged, changes, end)
    ensures WellTyped(end) && end.Keys == listed.Keys
    ensures MembershipsAgree(end, CollectionAxis, collections)
    ensures MembershipsAgree(end, TagAxis, Batched(tags, Elems(ids), add, remove))
    ensures CollectionFiguresExact(end, parents, collections)
    ensures TagFiguresExact(end, Batched(tags, Elems(ids), add, remove))
    ensures forall k :: k in listed && (k.Browse? || k.BundleCollections? || k == CollectionTree) ==>
            end[k] == listed[k]
  {
    TagFiguresCarryOver(listed, tagged, tags);
    TaggedFrame(tagged, changes, end);
    if changes != [] {
      TagFiguresStayExact(tagged, end, tags, ids, add, remove, changes);
    }
    EntriesUnchanged(tagged, end, TagAxis, Batched(tags, Elems(ids), add, remove));
    EntriesUnchanged(listed, end, CollectionAxis, collections);
    FiguresCarryOver(listed, end, parents, collections);
  }

  lemma FiguresCarryOver(before: Cache, after: Cache, parents: ParentMap, holdings: Holdings)
    requires CollectionFiguresExact(before, parents, holdings) && after.Keys == before.Keys
    requires CollectionCounts in before ==> after[CollectionCounts] == before[CollectionCounts]
    requires forall id :: CollectionStats(id) in before ==> after[CollectionStats(id)] == before[CollectionStats(id)]
    requires ViewCounts in before ==>
               after[ViewCounts].Views? && after[ViewCounts].uncategorized == before[ViewCounts].uncategorized
    ensures CollectionFiguresExact(after, parents, holdings)
  {
  }

  ghost predicate ListingsFaithful(cache: Cache, library: Library, suspect: set<Key>)
  {
    forall k :: k in cache && Workable(k) && k !in suspect ==> ListingFaithful(cache, library, k)
  }

  /** The listing stage: every workable listing it does not name is true again. */
  lemma ListedStage(keys: seq<Key>, payload: BatchUpdate, counted: Cache, listed: Cache, named: set<Key>,
                    changes: seq<MembershipChange>, library: Library, suspect: set<Key>)
    requires WellTyped(counted) && ListingsFaithful(counted, library, suspect)
    requires TreeAgrees(counted, library)
    requires changes == [] ==> AfterBatch(library, payload).collections == library.collections
    requires changes != [] ==>
               Reports(library.collections, payload.bundleIds, Elems(payload.addCollections),
                       Elems(payload.removeCollections), changes)
    requires ListingsProjected(keys, counted, payload.bundleIds, Some(changes), listed, named)
    ensures ListingsFaithful(listed, AfterBatch(library, payload), suspect + named)
  {
    var add, remove := Elems(payload.addCollections), Elems(payload.removeCollections);
    forall k | k in listed && Workable(k) && k !in suspect + named
      ensures ListingFaithful(listed, AfterBatch(library, payload), k)
    {
      assert k in counted && ListingFaithful(counted, library, k);
      ListingsStayHonest(keys, counted, listed, payload.bundleIds, add, remove, Some(changes), named, library, k);
    }
  }

  /** The listing stage changes listings only. */
  lemma ListedCarries(keys: seq<Key>, bundles: seq<Id>, counted: Cache, listed: Cache, named: set<Key>,
                      changes: Option<seq<MembershipChange>>, next: Library, tags: Holdings)
    requires WellTyped(counted) && ListingsProjected(keys, counted, bundles, changes, listed, named)
    requires MembershipsAgree(counted, CollectionAxis, next.collections) && MembershipsAgree(counted, TagAxis, tags)
    requires CollectionFiguresExact(counted, next.parents, next.collections) && TagFiguresExact(counted, tags)
    ensures WellTyped(listed) && listed.Keys == counted.Keys
    ensures MembershipsAgree(listed, CollectionAxis, next.collections) && MembershipsAgree(listed, TagAxis, tags)
    ensures CollectionFiguresExact(listed, next.parents, next.collections) && TagFiguresExact(listed, tags)
    ensures TreeRows(listed) == TreeRows(counted)
    ensures forall k :: k in counted && k.BundleTags? ==> listed[k] == counted[k]
  {
    ListedFrame(keys, counted, bundles, changes, listed, named);
    FiguresCarryOver(counted, listed, next.parents, next.collections);
    EntriesUnchanged(counted, listed, CollectionAxis, next.collections);
    EntriesUnchanged(counted, listed, TagAxis, tags);
  }

  lemma ListingsCarryOver(before: Cache, after: Cache, library: Library, suspect: set<Key>)
    requires ListingsFaithful(before, library, suspect) && after.Keys == before.Keys
    requires forall k :: k in before && k.Browse? ==> after[k] == before[k]
    ensures ListingsFaithful(after, library, suspect)
  {
    forall k | k in after && Workable(k) && k !in suspect
      ensures ListingFaithful(after, library, k)
    {
      assert ListingFaithful(before, library, k);
    }
  }

  /** A known batch up to the tag memberships. */
  lemma FirstStages(keys: seq<Key>, payload: BatchUpdate, st: Stages, named: set<Key>, library: Library,
                    suspect: set<Key>)
    requires Agrees(st.start, library, suspect) && Known(st.start, payload)
    requires var p := AxisProjected(st.start, CollectionAxis, payload);
             && (if p.changes.None? then st.counted == p.cache
                 else CollectionCountsMoved(p.cache, p.changes.value, st.counted))
             && ListingsProjected(keys, st.counted, payload.bundleIds, p.changes, st.listed, named)
    ensures var next := AfterBatch(library, payload);
            && WellTyped(st.listed) && st.listed.Keys == st.start.Keys
            && MembershipsAgree(st.listed, CollectionAxis, next.collections)
            && MembershipsAgree(st.listed, TagAxis, library.tags)
            && CollectionFiguresExact(st.listed, library.parents, next.collections)
            && TagFiguresExact(st.listed, library.tags)
            && TreeRows(st.listed) == TreeRows(st.start)
            && ListingsFaithful(st.listed, next, suspect + named)
            && KnownOn(st.listed, TagAxis, payload)
  {
    var next := AfterBatch(library, payload);
    var p := AxisProjected(st.start, CollectionAxis, payload);
    assert p.changes.Some? by {
      AxisReports(st.start, CollectionAxis, payload, library.collections);
    }
    CollectionStages(payload, st.start, st.counted, library, suspect);
    ListedCarries(keys, payload.bundleIds, st.counted, st.listed, named, p.changes, next, library.tags);
    KnownCarriesOver(st.start, st.listed, payload);
    ListingsCarryOver(st.start, st.counted, library, suspect);
    assert ListingsFaithful(st.listed, next, suspect + named) by {
      AxisReports(st.start, CollectionAxis, payload, library.collections);
      ListedStage(keys, payload, st.counted, st.listed, named, p.changes.value, library, suspect);
    }
  }

  /** The stages one by one. */
  lemma StagesApart(keys: seq<Key>, payload: BatchUpdate, st: Stages, unproven: set<Key>) returns (named: set<Key>)
    requires BatchStages(keys, payload, st, unproven)
    ensures var p := AxisProjected(st.start, CollectionAxis, payload);
            && (if p.changes.None? then st.counted == p.cache
                else CollectionCountsMoved(p.cache, p.changes.value, st.counted))
            && ListingsProjected(keys, st.counted, payload.bundleIds, p.changes, st.listed, named)
    ensures named <= unproven
    ensures var p := AxisProjected(st.listed, TagAxis, payload);
            if p.changes.None? then st.end == p.cache else TagCountsMoved(p.cache, p.changes.value, st.end)
  {
    var p := AxisProjected(st.start, CollectionAxis, payload);
    named :| ListingsProjected(keys, st.counted, payload.bundleIds, p.changes, st.listed, named) && named <= unproven;
  }

  /** The tag axis, after the listing stage. */
  lemma LastStages(payload: BatchUpdate, listed: Cache, end: Cache, library: Library)
    requires WellTyped(listed) && KnownOn(listed, TagAxis, payload)
    requires var next := AfterBatch(library, payload);
             && MembershipsAgree(listed, TagAxis, library.tags)
             && MembershipsAgree(listed, CollectionAxis, next.collections)
             && TagFiguresExact(listed, library.tags) && CollectionFiguresExact(listed, library.parents,
                   next.collections)
    requires var p := AxisProjected(listed, TagAxis, payload);
             if p.changes.None? then end == p.cache else TagCountsMoved(p.cache, p.changes.value, end)
    ensures var next := AfterBatch(library, payload);
            && WellTyped(end) && end.Keys == listed.Keys
            && MembershipsAgree(end, CollectionAxis, next.collections) && MembershipsAgree(end, TagAxis, next.tags)
            && CollectionFiguresExact(end, library.parents, next.collections) && TagFiguresExact(end, next.tags)
            && forall k :: k in listed && (k.Browse? || k.BundleCollections? || k == CollectionTree) ==>
                end[k] == listed[k]
  {
    AxisReports(listed, TagAxis, payload, library.tags);
    var p := AxisProjected(listed, TagAxis, payload);
    TaggedStage(listed, p.cache, p.changes.value, end, library.tags, AfterBatch(library, payload).collections,
                library.parents,
                payload.bundleIds, Elems(payload.addTags), Elems(payload.removeTags));
  }

  lemma SameListingsFaithful(listed: Cache, end: Cache, library: Library, suspect: set<Key>)
    requires ListingsFaithful(listed, library, suspect) && end.Keys == listed.Keys
    requires forall k :: k in listed && k.Browse? ==> end[k] == listed[k]
    ensures ListingsFaithful(end, library, suspect)
  {
    forall k | k in end && Workable(k) && k !in suspect
      ensures ListingFaithful(end, library, k)
    {
      assert ListingFaithful(listed, library, k);
    }
  }

  /** After a batch with known memberships every figure is the recount after the batch,
      and every listing that was true is true again or named as unproven. */
  lemma BatchKeepsAgreement(keys: seq<Key>, payload: BatchUpdate, st: Stages, unproven: set<Key>, library: Library,
                            suspect: set<Key>)
    requires Agrees(st.start, library, suspect) && Known(st.start, payload)
    requires BatchStages(keys, payload, st, unproven)
    ensures Agrees(st.end, AfterBatch(library, payload), suspect + unproven)
    ensures st.end.Keys == st.start.Keys
  {
    var next := AfterBatch(library, payload);
    var named := StagesApart(keys, payload, st, unproven);
    FirstStages(keys, payload, st, named, library, suspect);
    LastStages(payload, st.listed, st.end, library);
    AgreesAtEnd(st.listed, st.end, next, suspect + named, suspect + unproven);
  }

  lemma AgreesAtEnd(listed: Cache, end: Cache, library: Library, suspect: set<Key>, more: set<Key>)
    requires ListingsFaithful(listed, library, suspect) && TreeAgrees(listed, library) && suspect <= more
    requires WellTyped(end) && end.Keys == listed.Keys
    requires forall k :: k in listed && (k.Browse? || k == CollectionTree) ==> end[k] == listed[k]
    requires MembershipsAgree(end, CollectionAxis, library.collections) && MembershipsAgree(end, TagAxis, library.tags)
    requires CollectionFiguresExact(end, library.parents, library.collections) && TagFiguresExact(end, library.tags)
    ensures Agrees(end, library, more)
  {
    SameListingsFaithful(listed, end, library, suspect);
  }

  lemma KnownCarriesOver(before: Cache, after: Cache, payload: BatchUpdate)
    requires KnownOn(before, TagAxis, payload) && after.Keys == before.Keys
    requires forall k :: k in before && k.BundleTags? ==> after[k] == before[k]
    ensures KnownOn(after, TagAxis, payload)
  {
    forall b | b in payload.bundleIds && Entry(before, TagAxis, b).Some?
      ensures Entry(after, TagAxis, b).Some?
    {
    }
  }

  // ----- Partly loaded listings -----------------------------------------------

  /** Every workable listing outside `suspect` is true as far as it is loaded. */
  ghost predicate ListingsPartlyTrue(cache: Cache, library: Library, suspect: set<Key>)
  {
    forall k :: k in cache && Workable(k) && k !in suspect ==> ListingPartlyTrue(cache, library, k)
  }

  /** The listings a batch takes unloaded rows out of. */
  ghost function Overrun(cache: Cache, library: Library, payload: BatchUpdate): set<Key>
  {
    set k | k in cache && Workable(k) && cache[k].Listing? &&
      !DeparturesLoaded(cache[k].pages, library.collections, RuleOf(library.parents, k), Elems(payload.bundleIds),
                        Elems(payload.addCollections), Elems(payload.removeCollections))
  }

  /** The listing stage on one listing. */
  lemma ListedPartly(keys: seq<Key>, payload: BatchUpdate, counted: Cache, listed: Cache, named: set<Key>,
                     changes: seq<MembershipChange>, library: Library, key: Key)
    requires key in counted && Workable(key) && ListingPartlyTrue(counted, library, key) && key !in named
    requires TreeAgrees(counted, library)
    requires changes == [] ==> AfterBatch(library, payload).collections == library.collections
    requires changes != [] ==>
               Reports(library.collections, payload.bundleIds, Elems(payload.addCollections),
                       Elems(payload.removeCollections), changes)
    requires ListingsProjected(keys, counted, payload.bundleIds, Some(changes), listed, named)
    ensures key in listed
    ensures changes != [] ==>
              (ListingPartlyTrue(listed, AfterBatch(library, payload), key) <==>
               key !in Overrun(counted, library, payload))
    ensures changes == [] ==> ListingPartlyTrue(listed, AfterBatch(library, payload), key)
  {
    if changes != [] {
      var found := FirstRows(CachedRows(keys, counted), Elems(payload.bundleIds));
      FirstRowsCarryIds(CachedRows(keys, counted), Elems(payload.bundleIds));
      assert !Unprovable(library.parents, payload.bundleIds, changes, found, key);
      TotalsTrueIffDeparturesLoaded(counted[key].pages, library.collections, RuleOf(library.parents, key),
                                    payload.bundleIds,
                                    Elems(payload.addCollections), Elems(payload.removeCollections), changes, found);
    }
  }

  /** A batch the projection moves no collection for takes no row out of any listing. */
  lemma NothingOverrun(cache: Cache, library: Library, payload: BatchUpdate)
    requires AfterBatch(library, payload).collections == library.collections
    ensures Overrun(cache, library, payload) == {}
  {
    forall b | b in payload.bundleIds && b in library.collections
      ensures Refiled(library.collections[b], Elems(payload.addCollections), Elems(payload.removeCollections)) ==
              library.collections[b]
    {
      assert AfterBatch(library, payload).collections[b] == library.collections[b];
    }
  }

  /** After a batch with known memberships, a listing that was true as far as it was loaded and
      is not named is so again if and only if the batch took no unloaded row out of it. */
  lemma BatchKeepsPartlyTrueIff(keys: seq<Key>, payload: BatchUpdate, st: Stages, unproven: set<Key>, library: Library,
                                suspect: set<Key>,
                                key: Key)
    requires Agrees(st.start, library, suspect) && Known(st.start, payload)
    requires BatchStages(keys, payload, st, unproven)
    requires key in st.start && Workable(key) && ListingPartlyTrue(st.start, library, key) && key !in unproven
    ensures key in st.end
    ensures ListingPartlyTrue(st.end, AfterBatch(library, payload), key) <==>
            key !in Overrun(st.start, library, payload)
  {
    var named := StagesApart(keys, payload, st, unproven);
    ListedPartlyIff(keys, payload, st, named, library, suspect, key);
    FirstStages(keys, payload, st, named, library, suspect);
    LastStages(payload, st.listed, st.end, library);
  }

  lemma ListedPartlyIff(keys: seq<Key>, payload: BatchUpdate, st: Stages, named: set<Key>, library: Library,
                        suspect: set<Key>, key: Key)
    requires Agrees(st.start, library, suspect) && Known(st.start, payload)
    requires key in st.start && Workable(key) && ListingPartlyTrue(st.start, library, key) && key !in named
    requires var p := AxisProjected(st.start, CollectionAxis, payload);
             && (if p.changes.None? then st.counted == p.cache
                 else CollectionCountsMoved(p.cache, p.changes.value, st.counted))
             && ListingsProjected(keys, st.counted, payload.bundleIds, p.changes, st.listed, named)
    ensures key in st.listed
    ensures ListingPartlyTrue(st.listed, AfterBatch(library, payload), key) <==>
            key !in Overrun(st.start, library, payload)
  {
    var p := AxisProjected(st.start, CollectionAxis, payload);
    AxisReports(st.start, CollectionAxis, payload, library.collections);
    CountedListings(payload, st.start, st.counted, library, suspect);
    PartlyFromStart(keys, payload, st.start, st.counted, st.listed, named, p.changes.value, library, key);
  }

  /** The listing stage on one listing, seen from the start of the batch. */
  lemma PartlyFromStart(keys: seq<Key>, payload: BatchUpdate, start: Cache, counted: Cache, listed: Cache,
                        named: set<Key>,
                        changes: seq<MembershipChange>, library: Library, key: Key)
    requires key in start && Workable(key) && ListingPartlyTrue(start, library, key) && key !in named &&
             TreeAgrees(start, library)
    requires counted.Keys == start.Keys
    requires forall k :: k in start && (k.Browse? || k == CollectionTree) ==> counted[k] == start[k]
    requires changes == [] ==> AfterBatch(library, payload).collections == library.collections
    requires changes != [] ==>
               Reports(library.collections, payload.bundleIds, Elems(payload.addCollections),
                       Elems(payload.removeCollections), changes)
    requires ListingsProjected(keys, counted, payload.bundleIds, Some(changes), listed, named)
    ensures key in listed
    ensures ListingPartlyTrue(listed, AfterBatch(library, payload), key) <==> key !in Overrun(start, library, payload)
  {
    SameListingsOverrun(start, counted, library, payload, key);
    ListedPartly(keys, payload, counted, listed, named, changes, library, key);
    if changes == [] {
      NothingOverrun(start, library, payload);
    }
  }

  lemma CountedListings(payload: BatchUpdate, start: Cache, counted: Cache, library: Library, suspect: set<Key>)
    requires Agrees(start, library, suspect) && KnownOn(start, CollectionAxis, payload) && KnownTree(start, payload)
    requires var p := AxisProjected(start, CollectionAxis, payload);
             p.changes.Some? && CollectionCountsMoved(p.cache, p.changes.value, counted)
    ensures counted.Keys == start.Keys
    ensures forall k :: k in start && (k.Browse? || k == CollectionTree) ==> counted[k] == start[k]
  {
    CollectionStages(payload, start, counted, library, suspect);
  }

  lemma SameListingsOverrun(before: Cache, after: Cache, library: Library, payload: BatchUpdate, key: Key)
    requires after.Keys == before.Keys && forall k :: k in before && k.Browse? ==> after[k] == before[k]
    ensures key in Overrun(after, library, payload) <==> key in Overrun(before, library, payload)
  {
  }

  // ----- Whole runs -----------------------------------------------------------

  /** What can happen to the cache: a batch the server accepts, a batch it refuses (its
      snapshots restored), an answer from the server, or a query nobody watches being dropped. */
  datatype Event =
    | Accepted(payload: BatchUpdate)
    | Refused(payload: BatchUpdate)
    | Refetched(key: Key, value: Value)
    | Dropped(key: Key)

  /** `suspect` are the listings nothing is claimed of; `partial` those loaded only in part. */
  datatype World = World(cache: Cache, library: Library, suspect: set<Key>, partial: set<Key>)

  /** What the server answers for a key, from the library as it is. */
  ghost predicate Truthful(library: Library, key: Key, value: Value)
  {
    match key
    case BundleCollections(b) =>
      value.Membership? && value.ids.Some? && b in library.collections &&
          Elems(value.ids.value) == library.collections[b]
    case BundleTags(b) =>
      value.Membership? && value.ids.Some? && b in library.tags && Elems(value.ids.value) == library.tags[b]
    case CollectionTree => value.Tree? && ParentsOf(value.rows) == library.parents
    case CollectionCounts => CountsExact(value, library.parents, library.collections)
    case CollectionStats(id) => StatsExact(value, library.parents, library.collections, id)
    case TagCounts => value.OneCount? && Exact(value.counts, library.tags, id => Direct(id))
    case ViewCounts => UncategorizedExact(value, library.collections) &&
        value.untagged == Tally(library.tags, InNothing)
    case Browse(_) =>
      value.Listing? && (Workable(key) ==> PartlyShows(value.pages,
                                                       Fitting(library.collections, RuleOf(library.parents, key))))
  }

  /** The answer holds every row of its listing. */
  ghost predicate Whole(library: Library, key: Key, value: Value)
  {
    Workable(key) && value.Listing? ==> Faithful(value.pages, library.collections, RuleOf(library.parents, key))
  }

  ghost predicate Step(keys: seq<Key>, w: World, event: Event, next: World)
  {
    match event
    case Accepted(payload) =>
      exists st: Stages, unproven: set<Key> ::
        && st.start == w.cache && BatchStages(keys, payload, st, unproven)
        && next == World(st.end, AfterBatch(w.library, payload),
                         w.suspect + unproven + (w.partial * Overrun(w.cache, w.library, payload)), w.partial)
    case Refused(payload) => next == w.(cache := Unlogged(w.cache, payload))
    case Refetched(key, value) =>
      && Truthful(w.library, key, value)
      && next == w.(cache := w.cache[key := value], suspect := w.suspect - {key},
                    partial := if Whole(w.library, key, value) then w.partial - {key} else w.partial + {key})
    case Dropped(key) =>
      next == w.(cache := w.cache - {key}, suspect := w.suspect - {key}, partial := w.partial - {key})
  }

  ghost predicate Run(keys: seq<Key>, worlds: seq<World>, events: seq<Event>)
  {
    && |worlds| == |events| + 1
    && forall i :: 0 <= i < |events| ==> Step(keys, worlds[i], events[i], worlds[i + 1])
  }

  ghost predicate EventKnown(cache: Cache, event: Event)
  {
    event.Accepted? || event.Refused? ==> Known(cache, event.payload)
  }

  lemma KnownLeavesNothingUnlogged(cache: Cache, payload: BatchUpdate)
    requires Known(cache, payload)
    ensures Unlogged(cache, payload) == cache
  {
    if !(payload.addCollections == [] && payload.removeCollections == []) {
      KnownProjects(cache, CollectionAxis, payload.bundleIds, payload.addCollections, payload.removeCollections);
    }
    if !(payload.addTags == [] && payload.removeTags == []) {
      KnownProjects(cache, TagAxis, payload.bundleIds, payload.addTags, payload.removeTags);
    }
  }

  /** What a run keeps: everything agrees outside `suspect` and `partial`, and what is only
      loaded in part is true as far as it goes. */
  ghost predicate Honest(w: World)
  {
    Agrees(w.cache, w.library, w.suspect + w.partial) && ListingsPartlyTrue(w.cache, w.library, w.suspect)
  }

  lemma RefetchKeepsListings(w: World, key: Key, value: Value)
    requires Honest(w) && Truthful(w.library, key, value)
    ensures var partial := if Whole(w.library, key, value) then w.partial - {key} else w.partial + {key};
            ListingsFaithful(w.cache[key := value], w.library, (w.suspect - {key}) + partial)
    ensures ListingsPartlyTrue(w.cache[key := value], w.library, w.suspect - {key})
  {
    var cache := w.cache[key := value];
    forall k | k in cache && Workable(k) && k !in w.suspect - {key}
      ensures ListingPartlyTrue(cache, w.library, k)
      ensures k !in w.partial && k != key ==> ListingFaithful(cache, w.library, k)
    {
      if k != key {
        assert ListingPartlyTrue(w.cache, w.library, k);
        if k !in w.partial {
          assert ListingFaithful(w.cache, w.library, k);
        }
      }
    }
  }

  lemma RefetchKeepsAgreement(w: World, key: Key, value: Value)
    requires Honest(w) && Truthful(w.library, key, value)
    ensures Honest(w.(cache := w.cache[key := value], suspect := w.suspect - {key},
                      partial := if Whole(w.library, key, value) then w.partial - {key} else w.partial + {key}))
  {
    var cache := w.cache[key := value];
    RefetchKeepsListings(w, key, value);
    forall axis, b | Entry(cache, axis, b).Some?
      ensures b in HoldingsOf(w.library, axis) && Elems(Entry(cache, axis, b).value) == HoldingsOf(w.library, axis)[b]
    {
      if EntryKey(axis, b) != key {
        assert Entry(cache, axis, b) == Entry(w.cache, axis, b);
      }
    }
    FiguresAfterRefetch(w, key, value);
  }

  lemma FiguresAfterRefetch(w: World, key: Key, value: Value)
    requires CollectionFiguresExact(w.cache, w.library.parents, w.library.collections)
    requires TagFiguresExact(w.cache, w.library.tags)
    requires Truthful(w.library, key, value)
    ensures CollectionFiguresExact(w.cache[key := value], w.library.parents, w.library.collections)
    ensures TagFiguresExact(w.cache[key := value], w.library.tags)
  {
  }

  lemma DropKeepsAgreement(w: World, key: Key)
    requires Honest(w)
    ensures Honest(w.(cache := w.cache - {key}, suspect := w.suspect - {key}, partial := w.partial - {key}))
  {
    var cache := w.cache - {key};
    forall k | k in cache && Workable(k) && k !in w.suspect - {key}
      ensures ListingPartlyTrue(cache, w.library, k)
      ensures k !in w.partial - {key} ==> ListingFaithful(cache, w.library, k)
    {
      assert ListingPartlyTrue(w.cache, w.library, k);
      assert k !in w.partial ==> ListingFaithful(w.cache, w.library, k);
    }
    forall axis, b | Entry(cache, axis, b).Some?
      ensures Entry(cache, axis, b) == Entry(w.cache, axis, b)
    {
    }
  }

  lemma AcceptedKeepsAgreement(keys: seq<Key>, w: World, payload: BatchUpdate, st: Stages, unproven: set<Key>)
    requires Honest(w) && Known(w.cache, payload) && st.start == w.cache && BatchStages(keys, payload, st, unproven)
    ensures Honest(World(st.end, AfterBatch(w.library, payload),
                         w.suspect + unproven + (w.partial * Overrun(w.cache, w.library, payload)), w.partial))
  {
    var next := AfterBatch(w.library, payload);
    var suspect := w.suspect + unproven + (w.partial * Overrun(w.cache, w.library, payload));
    BatchKeepsAgreement(keys, payload, st, unproven, w.library, w.suspect + w.partial);
    forall k | k in st.end && Workable(k) && k !in suspect
      ensures ListingPartlyTrue(st.end, next, k)
    {
      if k in w.partial {
        assert ListingPartlyTrue(w.cache, w.library, k);
        BatchKeepsPartlyTrueIff(keys, payload, st, unproven, w.library, w.suspect + w.partial, k);
      } else {
        assert ListingFaithful(st.end, next, k);
      }
    }
    SuspectMore(st.end, next, w.suspect + w.partial + unproven, suspect + w.partial);
  }

  lemma SuspectMore(cache: Cache, library: Library, less: set<Key>, more: set<Key>)
    requires Agrees(cache, library, less) && less <= more
    ensures Agrees(cache, library, more)
  {
  }

  lemma StepKeepsAgreement(keys: seq<Key>, w: World, event: Event, next: World)
    requires Honest(w) && EventKnown(w.cache, event) && Step(keys, w, event, next)
    ensures Honest(next)
  {
    match event
    case Accepted(payload) => AcceptedStep(keys, w, payload, next);
    case Refused(payload) => KnownLeavesNothingUnlogged(w.cache, payload);
    case Refetched(key, value) => RefetchKeepsAgreement(w, key, value);
    case Dropped(key) => DropKeepsAgreement(w, key);
  }

  lemma AcceptedStep(keys: seq<Key>, w: World, payload: BatchUpdate, next: World)
    requires Honest(w) && Known(w.cache, payload) && Step(keys, w, Accepted(payload), next)
    ensures Honest(next)
  {
    var st: Stages, unproven: set<Key> :|
      && st.start == w.cache && BatchStages(keys, payload, st, unproven)
      && next == World(st.end, AfterBatch(w.library, payload),
                       w.suspect + unproven + (w.partial * Overrun(w.cache, w.library, payload)), w.partial);
    AcceptedKeepsAgreement(keys, w, payload, st, unproven);
  }

  /** Over any run in which each batch, when it is made, names only bundles whose memberships are
      cached by then, every cached figure stays the recount of the library; every listing
      outside `suspect` and `partial` stays exactly what the library puts in it; and one loaded
      in part stays true as far as it is loaded, until a batch takes an unloaded row out of it. */
  lemma {:induction false} RunKeepsAgreement(keys: seq<Key>, worlds: seq<World>, events: seq<Event>)
    requires Run(keys, worlds, events) && Honest(worlds[0])
    requires forall i :: 0 <= i < |events| ==> EventKnown(worlds[i].cache, events[i])
    ensures forall w :: w in worlds ==> Honest(w)
    decreases |events|
  {
    if events != [] {
      var later := events[1..];
      StepKeepsAgreement(keys, worlds[0], events[0], worlds[1]);
      forall i | 0 <= i < |later|
        ensures EventKnown(worlds[1..][i].cache, later[i])
      {
        assert later[i] == events[i + 1] && worlds[1..][i] == worlds[i + 1];
      }
      RunKeepsAgreement(keys, worlds[1..], later);
      forall w | w in worlds
        ensures Honest(w)
      {
        var i :| 0 <= i < |worlds| && worlds[i] == w;
        if i > 0 {
          assert worlds[1..][i - 1] == w;
        }
      }
    }
  }

  /** A page opens with an empty cache, so every run of a page starts honest. */
  lemma RunFromEmptyCacheKeepsAgreement(keys: seq<Key>, worlds: seq<World>, events: seq<Event>)
    requires Run(keys, worlds, events) && worlds[0] == World(map[], worlds[0].library, {}, {})
    requires forall i :: 0 <= i < |events| ==> EventKnown(worlds[i].cache, events[i])
    ensures forall w :: w in worlds ==> Honest(w)
  {
    RunKeepsAgreement(keys, worlds, events);
  }

  /** A count and the list beside it never contradict each other: the totals of a listing,
      however much of it is loaded, are the figure the sidebar shows for it; and when it is
      loaded in full, so is the number of rows drawn. */
  lemma CountMatchesListing(w: World, key: Key)
    requires Honest(w) && key in w.cache && Workable(key) && key !in w.suspect && CollectionCounts in w.cache
    ensures var scope := ScopeOf(key.query).value;
            var counts := w.cache[CollectionCounts];
            var figure := At(if ShowsDescendants(key.query) then counts.subtree else counts.direct, scope);
            && (forall p :: p in w.cache[key].pages ==> p.total == figure)
            && (key !in w.partial ==> |Flat(w.cache[key].pages)| == figure)
  {
    assert ListingPartlyTrue(w.cache, w.library, key);
    if key !in w.partial {
      assert ListingFaithful(w.cache, w.library, key);
      DistinctSize(IdsOf(Flat(w.cache[key].pages)));
    }
  }
}
