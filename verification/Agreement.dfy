/** What the optimistic writes are for: the cache keeps agreeing with the library the
    server will have, figure by figure and row by row. */
module Agreement {
  import opened Core
  import opened Forest
  import opened Counts
  import opened Recount
  import opened CacheModel

  /** The truth the cache predicts: who holds what, and the collection tree. */
  datatype Library = Library(collections: Holdings, tags: Holdings, parents: ParentMap)

  function HoldingsOf(library: Library, axis: Axis): Holdings
  {
    if axis == CollectionAxis then library.collections else library.tags
  }

  /** The library after the server applies a batch. */
  function AfterBatch(library: Library, payload: BatchUpdate): Library
  {
    var ids := Elems(payload.bundleIds);
    library.(collections := Batched(library.collections, ids, Elems(payload.addCollections),
                                    Elems(payload.removeCollections)),
             tags := Batched(library.tags, ids, Elems(payload.addTags), Elems(payload.removeTags)))
  }

  ghost predicate MembershipsAgree(cache: Cache, axis: Axis, holdings: Holdings)
  {
    forall b :: Entry(cache, axis, b).Some? ==>
      b in holdings && Elems(Entry(cache, axis, b).value) == holdings[b]
  }

  ghost predicate CountsExact(value: Value, parents: ParentMap, holdings: Holdings)
  {
    && value.TwoCounts?
    && Exact(value.subtree, holdings, id => Subtree(parents, id))
    && Exact(value.direct, holdings, id => Direct(id))
  }

  ghost predicate StatsExact(value: Value, parents: ParentMap, holdings: Holdings, id: Id)
  {
    value == Stats(Tally(holdings, Subtree(parents, id)), Tally(holdings, Direct(id)))
  }

  ghost predicate UncategorizedExact(value: Value, holdings: Holdings)
  {
    value.Views? && value.uncategorized == Tally(holdings, InNothing)
  }

  ghost predicate CollectionFiguresExact(cache: Cache, parents: ParentMap, holdings: Holdings)
  {
    && (CollectionCounts in cache ==> CountsExact(cache[CollectionCounts], parents, holdings))
    && (forall id :: CollectionStats(id) in cache ==> StatsExact(cache[CollectionStats(id)], parents, holdings, id))
    && (ViewCounts in cache ==> UncategorizedExact(cache[ViewCounts], holdings))
  }

  ghost predicate TagFiguresExact(cache: Cache, holdings: Holdings)
  {
    && (TagCounts in cache ==>
          cache[TagCounts].OneCount? && Exact(cache[TagCounts].counts, holdings, id => Direct(id)))
    && (ViewCounts in cache ==>
          cache[ViewCounts].Views? && cache[ViewCounts].untagged == Tally(holdings, InNothing))
  }

  /** Fully loaded and true: at least one page, exactly these bundles, each once, and
      every page's total their number. */
  ghost predicate Shows(pages: seq<Page>, bundles: set<Id>)
  {
    && |pages| > 0
    && Distinct(IdsOf(Flat(pages)))
    && Elems(IdsOf(Flat(pages))) == bundles
    && forall p :: p in pages ==> p.total == |bundles|
  }

  /** True as far as it is loaded: some of these bundles, each once, and totals that count
      all of them. */
  ghost predicate PartlyShows(pages: seq<Page>, bundles: set<Id>)
  {
    && |pages| > 0
    && Distinct(IdsOf(Flat(pages)))
    && Elems(IdsOf(Flat(pages))) <= bundles
    && forall p :: p in pages ==> p.total == |bundles|
  }

  ghost predicate Faithful(pages: seq<Page>, holdings: Holdings, rule: Rule)
  {
    Shows(pages, Fitting(holdings, rule))
  }

  ghost predicate ListingFaithful(cache: Cache, library: Library, key: Key)
    requires key in cache && Workable(key)
  {
    cache[key].Listing? && Faithful(cache[key].pages, library.collections, RuleOf(library.parents, key))
  }

  ghost predicate ListingPartlyTrue(cache: Cache, library: Library, key: Key)
    requires key in cache && Workable(key)
  {
    cache[key].Listing? && PartlyShows(cache[key].pages, Fitting(library.collections, RuleOf(library.parents, key)))
  }

  // ----- Memberships ----------------------------------------------------------

  lemma AgreeAfterWrite(cache: Cache, axis: Axis, holdings: Holdings, b: Id, after: seq<Id>)
    requires MembershipsAgree(cache, axis, holdings) && b in holdings
    ensures MembershipsAgree(cache[EntryKey(axis, b) := Membership(Some(after))], axis, holdings[b := Elems(after)])
  {
    var next := cache[EntryKey(axis, b) := Membership(Some(after))];
    forall c | Entry(next, axis, c).Some?
      ensures c in holdings[b := Elems(after)] && Elems(Entry(next, axis, c).value) == holdings[b := Elems(after)][c]
    {
      if c != b {
        assert Entry(next, axis, c) == Entry(cache, axis, c);
      }
    }
  }

  lemma {:induction false} MembershipsOverReports(cache: Cache, axis: Axis, bundles: seq<Id>, add: seq<Id>,
                                                  remove: seq<Id>, holdings: Holdings)
    requires MembershipsAgree(cache, axis, holdings)
    requires MembershipsOver(cache, axis, bundles, add, remove).changes.Some?
    ensures var p := MembershipsOver(cache, axis, bundles, add, remove);
            && Reports(holdings, bundles, Elems(add), Elems(remove), p.changes.value)
            && MembershipsAgree(p.cache, axis, Batched(holdings, Elems(bundles), Elems(add), Elems(remove)))
  {
    if bundles == [] {
      assert Batched(holdings, Elems(bundles), Elems(add), Elems(remove)) == holdings;
    } else {
      var front, bundle := Init(bundles), Last(bundles);
      MembershipsOverReports(cache, axis, front, add, remove, holdings);
      var p := MembershipsOver(cache, axis, front, add, remove);
      var earlier := Batched(holdings, Elems(front), Elems(add), Elems(remove));
      var before := Entry(p.cache, axis, bundle).value;
      var after := NextMembershipOf(before, add, remove);
      assert bundle in earlier && Elems(before) == earlier[bundle];
      NextMembershipAsSet(before, add, remove);
      BatchedStep(holdings, bundles, Elems(add), Elems(remove));
      AgreeAfterWrite(p.cache, axis, earlier, bundle, after);
      ExtendReports(holdings, bundles, Elems(add), Elems(remove), p.changes.value, MembershipChange(before, after));
    }
  }

  lemma ExtendReports(holdings: Holdings, ids: seq<Id>, add: set<Id>, remove: set<Id>,
                      changes: seq<MembershipChange>, change: MembershipChange)
    requires ids != [] && Reports(holdings, Init(ids), add, remove, changes)
    requires Last(ids) in holdings
    requires Elems(change.before) == Batched(holdings, Elems(Init(ids)), add, remove)[Last(ids)]
    requires Elems(change.after) == Refiled(Elems(change.before), add, remove)
    ensures Reports(holdings, ids, add, remove, changes + [change])
  {
    forall i | 0 <= i < |Init(ids)|
      ensures Init(ids)[..i] == ids[..i] && Init(ids)[i] == ids[i]
    {
    }
    assert ids[..|ids| - 1] == Init(ids);
  }

  /** Projecting memberships touches only that axis's entries. */
  lemma {:induction false} MembershipsOverFrame(cache: Cache, axis: Axis, bundles: seq<Id>, add: seq<Id>,
                                                remove: seq<Id>)
    ensures var p := MembershipsOver(cache, axis, bundles, add, remove);
            && p.cache.Keys == cache.Keys
            && forall k :: k in cache && (forall b :: k != EntryKey(axis, b)) ==> p.cache[k] == cache[k]
    ensures WellTyped(cache) ==> WellTyped(MembershipsOver(cache, axis, bundles, add, remove).cache)
  {
    if bundles != [] {
      MembershipsOverFrame(cache, axis, Init(bundles), add, remove);
      var p := MembershipsOver(cache, axis, Init(bundles), add, remove);
      if p.changes.Some? && Entry(p.cache, axis, Last(bundles)).Some? {
        var key := EntryKey(axis, Last(bundles));
        var after := NextMembershipOf(Entry(p.cache, axis, Last(bundles)).value, add, remove);
        assert key in p.cache;
        if WellTyped(cache) {
          assert WellTyped(p.cache[key := Membership(Some(after))]);
        }
      }
    }
  }

  lemma {:induction false} KnownProjects(cache: Cache, axis: Axis, bundles: seq<Id>, add: seq<Id>, remove: seq<Id>)
    requires forall b :: b in bundles ==> Entry(cache, axis, b).Some?
    ensures MembershipsOver(cache, axis, bundles, add, remove).changes.Some?
    ensures forall b :: Entry(cache, axis, b).Some? ==>
              Entry(MembershipsOver(cache, axis, bundles, add, remove).cache, axis, b).Some?
  {
    if bundles != [] {
      assert forall b :: b in Init(bundles) ==> b in bundles;
      KnownProjects(cache, axis, Init(bundles), add, remove);
      assert Last(bundles) in bundles;
    }
  }

  lemma BatchedByNothing(holdings: Holdings, ids: set<Id>)
    ensures Batched(holdings, ids, {}, {}) == holdings
  {
    forall b | b in holdings
      ensures Refiled(holdings[b], {}, {}) == holdings[b]
    {
    }
  }

  // ----- Counts ---------------------------------------------------------------

  lemma CountsStayExact(before: Value, after: Value, parents: ParentMap, holdings: Holdings,
                        ids: seq<Id>, add: set<Id>, remove: set<Id>, changes: seq<MembershipChange>)
    requires Reports(holdings, ids, add, remove, changes) && CountsExact(before, parents, holdings)
    requires CollectionFigureMoved(parents, changes, CollectionCounts, before, after)
    ensures CountsExact(after, parents, Batched(holdings, Elems(ids), add, remove))
  {
    SubtreeCountsStayExact(before, after, parents, holdings, ids, add, remove, changes);
    DirectCountsStayExact(before, after, parents, holdings, ids, add, remove, changes);
  }

  lemma SubtreeCountsStayExact(before: Value, after: Value, parents: ParentMap, holdings: Holdings,
                               ids: seq<Id>, add: set<Id>, remove: set<Id>, changes: seq<MembershipChange>)
    requires Reports(holdings, ids, add, remove, changes) && CountsExact(before, parents, holdings)
    requires CollectionFigureMoved(parents, changes, CollectionCounts, before, after)
    ensures Exact(after.subtree, Batched(holdings, Elems(ids), add, remove), id => Subtree(parents, id))
  {
    AppliedStaysExact(before.subtree, after.subtree, id => Subtree(parents, id), holdings, ids, add, remove, changes);
  }

  lemma DirectCountsStayExact(before: Value, after: Value, parents: ParentMap, holdings: Holdings,
                              ids: seq<Id>, add: set<Id>, remove: set<Id>, changes: seq<MembershipChange>)
    requires Reports(holdings, ids, add, remove, changes) && CountsExact(before, parents, holdings)
    requires CollectionFigureMoved(parents, changes, CollectionCounts, before, after)
    ensures Exact(after.direct, Batched(holdings, Elems(ids), add, remove), id => Direct(id))
  {
    AppliedStaysExact(before.direct, after.direct, id => Direct(id), holdings, ids, add, remove, changes);
  }

  lemma StatsStayExact(id: Id, before: Value, after: Value, parents: ParentMap, holdings: Holdings,
                       ids: seq<Id>, add: set<Id>, remove: set<Id>, changes: seq<MembershipChange>)
    requires Reports(holdings, ids, add, remove, changes) && StatsExact(before, parents, holdings, id)
    requires CollectionFigureMoved(parents, changes, CollectionStats(id), before, after)
    ensures StatsExact(after, parents, Batched(holdings, Elems(ids), add, remove), id)
  {
    DeltaIsRecount(holdings, ids, add, remove, changes, Subtree(parents, id));
    DeltaIsRecount(holdings, ids, add, remove, changes, Direct(id));
  }

  lemma UncategorizedStaysExact(before: Value, after: Value, parents: ParentMap, holdings: Holdings,
                                ids: seq<Id>, add: set<Id>, remove: set<Id>, changes: seq<MembershipChange>)
    requires Reports(holdings, ids, add, remove, changes) && UncategorizedExact(before, holdings)
    requires CollectionFigureMoved(parents, changes, ViewCounts, before, after)
    ensures UncategorizedExact(after, Batched(holdings, Elems(ids), add, remove))
  {
    DeltaIsRecount(holdings, ids, add, remove, changes, InNothing);
  }

  lemma FigureStaysExact(key: Key, before: Value, after: Value, parents: ParentMap, holdings: Holdings,
                         ids: seq<Id>, add: set<Id>, remove: set<Id>, changes: seq<MembershipChange>)
    requires Reports(holdings, ids, add, remove, changes)
    requires CollectionFigureMoved(parents, changes, key, before, after)
    ensures var next := Batched(holdings, Elems(ids), add, remove);
            && (key == CollectionCounts && CountsExact(before, parents, holdings) ==> CountsExact(after, parents, next))
            && (key.CollectionStats? && StatsExact(before, parents, holdings, key.collection) ==>
                  StatsExact(after, parents, next, key.collection))
            && (key == ViewCounts && UncategorizedExact(before, holdings) ==> UncategorizedExact(after, next))
  {
    if key == CollectionCounts {
      if CountsExact(before, parents, holdings) {
        CountsStayExact(before, after, parents, holdings, ids, add, remove, changes);
      }
    } else if key.CollectionStats? {
      if StatsExact(before, parents, holdings, key.collection) {
        StatsStayExact(key.collection, before, after, parents, holdings, ids, add, remove, changes);
      }
    } else if key == ViewCounts {
      if UncategorizedExact(before, holdings) {
        UncategorizedStaysExact(before, after, parents, holdings, ids, add, remove, changes);
      }
    }
  }

  lemma CollectionFiguresStayExact(before: Cache, after: Cache, parents: ParentMap, holdings: Holdings,
                                   ids: seq<Id>, add: set<Id>, remove: set<Id>, changes: seq<MembershipChange>)
    requires CollectionFiguresExact(before, parents, holdings)
    requires TreeRows(before).Some? && ParentsOf(TreeRows(before).value) == parents
    requires Reports(holdings, ids, add, remove, changes)
    requires CollectionCountsMoved(before, changes, after)
    ensures CollectionFiguresExact(after, parents, Batched(holdings, Elems(ids), add, remove))
  {
    if changes == [] {
      assert Batched(holdings, Elems(ids), add, remove) == holdings;
    } else {
      forall k | k in before
        ensures var next := Batched(holdings, Elems(ids), add, remove);
                && (k == CollectionCounts ==> CountsExact(after[k], parents, next))
                && (k.CollectionStats? ==> StatsExact(after[k], parents, next, k.collection))
                && (k == ViewCounts ==> UncategorizedExact(after[k], next))
      {
        FigureStaysExact(k, before[k], after[k], parents, holdings, ids, add, remove, changes);
      }
    }
  }

  lemma TagFiguresStayExact(before: Cache, after: Cache, holdings: Holdings, ids: seq<Id>, add: set<Id>,
                            remove: set<Id>,
                            changes: seq<MembershipChange>)
    requires TagFiguresExact(before, holdings)
    requires Reports(holdings, ids, add, remove, changes)
    requires TagCountsMoved(before, changes, after)
    ensures TagFiguresExact(after, Batched(holdings, Elems(ids), add, remove))
  {
    if changes == [] {
      assert Batched(holdings, Elems(ids), add, remove) == holdings;
      return;
    }
    if TagCounts in before {
      TagCountsStayExact(before[TagCounts], after[TagCounts], holdings, ids, add, remove, changes);
    }
    if ViewCounts in before {
      UntaggedStaysExact(before[ViewCounts], after[ViewCounts], holdings, ids, add, remove, changes);
    }
  }

  lemma TagCountsStayExact(before: Value, after: Value, holdings: Holdings, ids: seq<Id>, add: set<Id>, remove: set<Id>,
                           changes: seq<MembershipChange>)
    requires Reports(holdings, ids, add, remove, changes) && TagFigureMoved(changes, TagCounts, before, after)
    requires before.OneCount? && Exact(before.counts, holdings, id => Direct(id))
    ensures after.OneCount? && Exact(after.counts, Batched(holdings, Elems(ids), add, remove), id => Direct(id))
  {
    AppliedStaysExact(before.counts, after.counts, id => Direct(id), holdings, ids, add, remove, changes);
  }

  lemma UntaggedStaysExact(before: Value, after: Value, holdings: Holdings, ids: seq<Id>, add: set<Id>, remove: set<Id>,
                           changes: seq<MembershipChange>)
    requires Reports(holdings, ids, add, remove, changes) && TagFigureMoved(changes, ViewCounts, before, after)
    requires before.Views? && before.untagged == Tally(holdings, InNothing)
    ensures after.Views? && after.untagged == Tally(Batched(holdings, Elems(ids), add, remove), InNothing)
  {
    DeltaIsRecount(holdings, ids, add, remove, changes, InNothing);
  }
}
