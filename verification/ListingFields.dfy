/** What becomes of a cached listing, told from the fields of its query: which listings a batch
    works out, which it leaves to the server, and which it does not touch. */
module ListingFields {
  import opened Core
  import opened Forest
  import opened Counts
  import opened Recount
  import opened CacheModel
  import opened Agreement
  import opened Listings
  import opened BrowseMoves

  // ----- The fields -----------------------------------------------------------

  predicate Scoped(query: BrowseQuery)
  {
    query.collectionId.Some? && |query.collectionId.value.text| > 0
  }

  /** A filter is set, or the search holds a character that can be seen. */
  predicate LeftToTheServer(query: BrowseQuery)
  {
    || query.filter != None
    || (query.search.Some? && exists i :: 0 <= i < |query.search.value| && '!' <= query.search.value[i] <= '~')
  }

  predicate Spacing(c: char)
  {
    c == ' ' || c == '\t' || c == '\n' || c == '\r'
  }

  /** No filter, and no search or one of spaces only. */
  predicate Plain(query: BrowseQuery)
  {
    && query.filter == None
    && (query.search.Some? ==> forall i :: 0 <= i < |query.search.value| ==> Spacing(query.search.value[i]))
  }

  lemma FieldsSay(query: BrowseQuery)
    ensures ScopeOf(query) == if Scoped(query) then query.collectionId else None
    ensures LeftToTheServer(query) ==> Judged(query)
    ensures Plain(query) ==> !Judged(query)
  {
    if query.search.Some? {
      var text := query.search.value;
      if i :| 0 <= i < |text| && '!' <= text[i] <= '~' {
        assert !WhiteSpace(text[i]);
      }
    }
  }

  /** The bundles a scoped listing is about: those filed in its collection or, when it shows its
      descendants' contents, in any collection below it. */
  ghost function InScope(parents: ParentMap, holdings: Holdings, query: BrowseQuery): set<Id>
    requires Scoped(query)
  {
    var scope := query.collectionId.value;
    if query.includeDescendants == Some(true) then
      set b | b in holdings && exists x :: x in holdings[b] && Above(parents, x, scope)
    else set b | b in holdings && scope in holdings[b]
  }

  lemma FittingIsInScope(parents: ParentMap, holdings: Holdings, query: BrowseQuery)
    requires Scoped(query) && Workable(Browse(query))
    ensures Fitting(holdings, RuleOf(parents, Browse(query))) == InScope(parents, holdings, query)
  {
    var scope := query.collectionId.value;
    forall b | b in holdings
      ensures scope in Counting(parents, holdings[b]) <==> exists x :: x in holdings[b] && Above(parents, x, scope)
    {
      InCounting(parents, holdings[b], scope);
    }
  }

  // ----- Cached rows ----------------------------------------------------------

  /** Some cached listing holds this row. */
  ghost predicate RowCached(keys: seq<Key>, cache: Cache, row: Summary)
  {
    exists k, p :: k in keys && k.Browse? && k in cache && cache[k].Listing? && p in cache[k].pages && row in p.items
  }

  lemma {:induction false} FlatHolds(pages: seq<Page>, row: Summary)
    ensures row in Flat(pages) <==> exists p :: p in pages && row in p.items
  {
    if pages != [] {
      FlatHolds(Init(pages), row);
      assert pages == Init(pages) + [Last(pages)];
    }
  }

  lemma {:induction false} CachedRowsHold(keys: seq<Key>, cache: Cache, row: Summary)
    ensures row in CachedRows(keys, cache) <==> RowCached(keys, cache, row)
  {
    if keys != [] {
      var front, k := Init(keys), Last(keys);
      CachedRowsHold(front, cache, row);
      assert keys == front + [k];
      if k.Browse? && k in cache && cache[k].Listing? {
        FlatHolds(cache[k].pages, row);
      }
    }
  }

  /** A wanted bundle is found exactly when some row carries it, and then in the first of those
      rows. */
  lemma {:induction false} FirstRowIsFound(rows: seq<Summary>, wanted: set<Id>, b: Id)
    ensures b in FirstRows(rows, wanted) <==> b in wanted && exists i :: 0 <= i < |rows| && rows[i].id == b
    ensures forall i :: 0 <= i < |rows| && rows[i].id == b && b in wanted &&
                        (forall j :: 0 <= j < i ==> rows[j].id != b) ==>
              FirstRows(rows, wanted)[b] == rows[i]
  {
    if rows != [] {
      FirstRowIsFound(Init(rows), wanted, b);
      assert rows == Init(rows) + [Last(rows)];
    }
  }

  /** What the projection can draw: a cached row of the bundle, if there is one. */
  lemma FoundIsCached(keys: seq<Key>, cache: Cache, wanted: set<Id>, b: Id)
    ensures var found := FirstRows(CachedRows(keys, cache), wanted);
            && (b in found <==> b in wanted && exists row :: RowCached(keys, cache, row) && row.id == b)
            && (b in found ==> found[b].id == b && RowCached(keys, cache, found[b]))
  {
    var rows := CachedRows(keys, cache);
    FirstRowIsFound(rows, wanted, b);
    if b in wanted {
      if row :| RowCached(keys, cache, row) && row.id == b {
        CachedRowsHold(keys, cache, row);
      }
      if i :| 0 <= i < |rows| && rows[i].id == b {
        CachedRowsHold(keys, cache, rows[i]);
        var first := FirstOf(rows, b, i);
        CachedRowsHold(keys, cache, rows[first]);
      }
    }
  }

  lemma {:induction false} FirstOf(rows: seq<Summary>, b: Id, i: nat) returns (first: nat)
    requires i < |rows| && rows[i].id == b
    ensures first <= i && rows[first].id == b && forall j :: 0 <= j < first ==> rows[j].id != b
    decreases i
  {
    if j :| 0 <= j < i && rows[j].id == b {
      first := FirstOf(rows, b, j);
    } else {
      first := i;
    }
  }

  // ----- What a batch does ----------------------------------------------------

  /** A known batch of changes reaches a cached listing. */
  ghost predicate Reaches(keys: seq<Key>, before: Cache, after: Cache, bundles: seq<Id>, add: set<Id>, remove: set<Id>,
                          changes: seq<MembershipChange>, unproven: set<Key>, library: Library, query: BrowseQuery)
  {
    && ListingsProjected(keys, before, bundles, Some(changes), after, unproven) && changes != []
    && Reports(library.collections, bundles, add, remove, changes)
    && TreeRows(before).Some? && ParentsOf(TreeRows(before).value) == library.parents
    && Browse(query) in before && before[Browse(query)].Listing?
  }

  /** A filtered or searched listing of a collection keeps its pages and is named. */
  lemma SearchedListingIsNamed(keys: seq<Key>, before: Cache, after: Cache, bundles: seq<Id>, add: set<Id>,
                               remove: set<Id>, changes: seq<MembershipChange>, unproven: set<Key>, library: Library,
                               query: BrowseQuery)
    requires Reaches(keys, before, after, bundles, add, remove, changes, unproven, library, query)
    requires Scoped(query) && LeftToTheServer(query)
    ensures Browse(query) in unproven && Browse(query) in after && after[Browse(query)] == before[Browse(query)]
  {
    FieldsSay(query);
  }

  /** A listing of no collection keeps its pages, and is named exactly if it is Uncategorized. */
  lemma UnscopedListingIsLeftAlone(keys: seq<Key>, before: Cache, after: Cache, bundles: seq<Id>, add: set<Id>,
                                   remove: set<Id>, changes: seq<MembershipChange>, unproven: set<Key>,
                                   library: Library, query: BrowseQuery)
    requires Reaches(keys, before, after, bundles, add, remove, changes, unproven, library, query)
    requires !Scoped(query)
    ensures Browse(query) in unproven <==> query.view == "uncategorized"
    ensures Browse(query) in after && after[Browse(query)] == before[Browse(query)]
  {
    FieldsSay(query);
  }

  /** A bundle that the batch brings into the listing. */
  ghost predicate ComesIn(library: Library, bundles: seq<Id>, add: set<Id>, remove: set<Id>, query: BrowseQuery, b: Id)
    requires Scoped(query)
  {
    && b in bundles && b !in InScope(library.parents, library.collections, query)
    && b in InScope(library.parents, Batched(library.collections, Elems(bundles), add, remove), query)
  }

  /** An unfiltered listing of a collection is worked out: it is named exactly when a bundle
      comes in that no cached row can draw; otherwise, if it showed exactly its collection's
      bundles, it still does. */
  lemma PlainListingIsWorkedOut(keys: seq<Key>, before: Cache, after: Cache, bundles: seq<Id>, add: set<Id>,
                                remove: set<Id>, changes: seq<MembershipChange>, unproven: set<Key>, library: Library,
                                query: BrowseQuery)
    requires Reaches(keys, before, after, bundles, add, remove, changes, unproven, library, query)
    requires Scoped(query) && Plain(query)
    ensures var key, next := Browse(query), Batched(library.collections, Elems(bundles), add, remove);
            && (key in unproven <==> exists b :: ComesIn(library, bundles, add, remove, query, b) &&
                                       forall row :: RowCached(keys, before, row) ==> row.id != b)
            && key in after && after[key].Listing?
            && (key !in unproven && Shows(before[key].pages, InScope(library.parents, library.collections, query)) ==>
                  Shows(after[key].pages, InScope(library.parents, next, query)))
  {
    var key, rule := Browse(query), RuleOf(library.parents, Browse(query));
    var next := Batched(library.collections, Elems(bundles), add, remove);
    var found := FirstRows(CachedRows(keys, before), Elems(bundles));
    FieldsSay(query);
    FittingIsInScope(library.parents, library.collections, query);
    FittingIsInScope(library.parents, next, query);
    FirstRowsCarryIds(CachedRows(keys, before), Elems(bundles));
    NamedIffUndrawable(keys, before, bundles, add, remove, changes, library, query, rule);
    if key !in unproven && Shows(before[key].pages, InScope(library.parents, library.collections, query)) {
      ProjectedStaysFaithful(before[key].pages, library.collections, rule, bundles, add, remove, changes, found);
    }
  }

  lemma {:induction false} KeptRowsAreRows(items: seq<Summary>, gone: set<Id>, row: Summary)
    ensures row in Keep(items, gone) <==> row in items && row.id !in gone
  {
    if items != [] {
      KeptRowsAreRows(Init(items), gone, row);
      assert items == Init(items) + [Last(items)];
    }
  }

  lemma {:induction false} ArrivingAreFound(rule: Rule, bundles: seq<Id>, changes: seq<MembershipChange>,
                                            found: map<Id, Summary>, row: Summary)
    requires row in ArrivingRows(rule, bundles, changes, found)
    ensures exists i :: 0 <= i < |bundles| && i < |changes| && Arrives(rule, changes[i]) && bundles[i] in found &&
              found[bundles[i]] == row
  {
    var front, i := Init(bundles), |bundles| - 1;
    if row in ArrivingRows(rule, front, changes, found) {
      ArrivingAreFound(rule, front, changes, found, row);
      var j :| 0 <= j < |front| && j < |changes| && Arrives(rule, changes[j]) && front[j] in found &&
               found[front[j]] == row;
      assert bundles[j] == front[j];
    } else {
      assert Arrives(rule, changes[i]) && found[bundles[i]] == row;
    }
  }

  /** The rewritten rows of any listing, true or stale. */
  lemma RewrittenHolds(pages: seq<Page>, leaving: set<Id>, arriving: seq<Summary>, row: Summary)
    requires pages != []
    ensures row in Flat(RewrittenPages(pages, leaving, arriving)) <==>
              || (row in Flat(pages) && row.id !in leaving)
              || (row in arriving && row.id !in Elems(IdsOf(Flat(pages))))
  {
    var newcomers := Keep(arriving, Elems(IdsOf(Flat(pages))));
    FlatOfPruned(pages, RewrittenPages(pages, leaving, arriving), leaving, newcomers);
    KeptRowsAreRows(Flat(pages), leaving, row);
    KeptRowsAreRows(arriving, Elems(IdsOf(Flat(pages))), row);
  }

  /** Its totals move by as much as its rows, or stop at zero. */
  lemma TotalsMoveWithRows(pages: seq<Page>, leaving: set<Id>, arriving: seq<Summary>, i: nat)
    requires i < |pages|
    ensures var after := RewrittenPages(pages, leaving, arriving);
            var total := pages[i].total + |Flat(after)| - |Flat(pages)|;
            after[i].total == if total < 0 then 0 else total
  {
    var newcomers := Keep(arriving, Elems(IdsOf(Flat(pages))));
    FlatOfPruned(pages, RewrittenPages(pages, leaving, arriving), leaving, newcomers);
    DepartedIsGone(pages, leaving);
    KeptLength(Flat(pages), leaving);
  }

  /** And no bundle is in it twice that was not. */
  lemma RewrittenIsDistinct(pages: seq<Page>, leaving: set<Id>, arriving: seq<Summary>)
    requires pages != [] && Distinct(IdsOf(Flat(pages))) && Distinct(IdsOf(arriving))
    ensures Distinct(IdsOf(Flat(RewrittenPages(pages, leaving, arriving))))
  {
    var newcomers := Keep(arriving, Elems(IdsOf(Flat(pages))));
    FlatOfPruned(pages, RewrittenPages(pages, leaving, arriving), leaving, newcomers);
    KeepDistinct(arriving, Elems(IdsOf(Flat(pages))));
    KeepElems(arriving, Elems(IdsOf(Flat(pages))));
    KeepDistinct(Flat(pages), leaving);
    KeepElems(Flat(pages), leaving);
    IdsAppend(newcomers, Keep(Flat(pages), leaving));
    DistinctConcat(IdsOf(newcomers), IdsOf(Keep(Flat(pages), leaving)));
  }

  /** A bundle that the batch takes out of the listing. */
  ghost predicate GoesOut(library: Library, bundles: seq<Id>, add: set<Id>, remove: set<Id>, query: BrowseQuery, b: Id)
    requires Scoped(query)
  {
    && b in bundles && b in InScope(library.parents, library.collections, query)
    && b !in InScope(library.parents, Batched(library.collections, Elems(bundles), add, remove), query)
  }

  lemma LeavesIsGoesOut(library: Library, bundles: seq<Id>, add: set<Id>, remove: set<Id>,
                        changes: seq<MembershipChange>, query: BrowseQuery, rule: Rule, b: Id)
    requires Scoped(query) && Workable(Browse(query)) && rule == RuleOf(library.parents, Browse(query))
    requires Reports(library.collections, bundles, add, remove, changes)
    ensures b in LeavingIds(rule, bundles, changes) <==> GoesOut(library, bundles, add, remove, query, b)
  {
    FittingIsInScope(library.parents, library.collections, query);
    FittingIsInScope(library.parents, Batched(library.collections, Elems(bundles), add, remove), query);
    if b in bundles {
      NamedAreHeld(library.collections, bundles, add, remove, changes, b);
      LeavingMeaning(library.collections, bundles, add, remove, changes, rule, b);
    }
  }

  /** Of any unfiltered listing of a collection, true or stale: a row stays unless its bundle goes
      out, and every other row it then shows is a cached row of a bundle that came in and was not
      shown. */
  lemma PlainRowsAreKnown(keys: seq<Key>, before: Cache, after: Cache, bundles: seq<Id>, add: set<Id>, remove: set<Id>,
                          changes: seq<MembershipChange>, unproven: set<Key>, library: Library, query: BrowseQuery,
                          row: Summary)
    requires Reaches(keys, before, after, bundles, add, remove, changes, unproven, library, query)
    requires Scoped(query) && Plain(query)
    requires Browse(query) in after && after[Browse(query)].Listing?
    ensures var was, now := Flat(before[Browse(query)].pages), Flat(after[Browse(query)].pages);
            && (row in was && !GoesOut(library, bundles, add, remove, query, row.id) ==> row in now)
            && (row in now ==> || (row in was && !GoesOut(library, bundles, add, remove, query, row.id))
                               || (&& RowCached(keys, before, row) && row.id !in Elems(IdsOf(was))
                                   && ComesIn(library, bundles, add, remove, query, row.id)))
  {
    var key, rule := Browse(query), RuleOf(library.parents, Browse(query));
    var found := FirstRows(CachedRows(keys, before), Elems(bundles));
    var pages, leaving := before[key].pages, LeavingIds(rule, bundles, changes);
    var arriving := ArrivingRows(rule, bundles, changes, found);
    FieldsSay(query);
    LeavesIsGoesOut(library, bundles, add, remove, changes, query, rule, row.id);
    if pages != [] && !(leaving == {} && arriving == []) {
      RewrittenHolds(pages, leaving, arriving, row);
      if row in arriving {
        ArrivingComesIn(keys, before, bundles, add, remove, changes, library, query, rule, row);
      }
    }
  }

  lemma ArrivingComesIn(keys: seq<Key>, before: Cache, bundles: seq<Id>, add: set<Id>, remove: set<Id>,
                        changes: seq<MembershipChange>, library: Library, query: BrowseQuery, rule: Rule,
                        row: Summary)
    requires Scoped(query) && Workable(Browse(query)) && rule == RuleOf(library.parents, Browse(query))
    requires Reports(library.collections, bundles, add, remove, changes)
    requires row in ArrivingRows(rule, bundles, changes, FirstRows(CachedRows(keys, before), Elems(bundles)))
    ensures RowCached(keys, before, row) && ComesIn(library, bundles, add, remove, query, row.id)
  {
    var found := FirstRows(CachedRows(keys, before), Elems(bundles));
    ArrivingAreFound(rule, bundles, changes, found, row);
    var i :| 0 <= i < |bundles| && i < |changes| && Arrives(rule, changes[i]) && bundles[i] in found &&
             found[bundles[i]] == row;
    FoundIsCached(keys, before, Elems(bundles), bundles[i]);
    ArrivesIffEnters(library.collections, bundles, add, remove, changes, rule, i);
    EntersIsComesIn(library, bundles, add, remove, changes, query, rule, bundles[i]);
  }

  /** And it shows no bundle twice that it did not, and its totals move with its rows. */
  lemma PlainTotalsMoveWithRows(keys: seq<Key>, before: Cache, after: Cache, bundles: seq<Id>, add: set<Id>,
                                remove: set<Id>, changes: seq<MembershipChange>, unproven: set<Key>, library: Library,
                                query: BrowseQuery, i: nat)
    requires Reaches(keys, before, after, bundles, add, remove, changes, unproven, library, query)
    requires Scoped(query) && Plain(query) && i < |before[Browse(query)].pages|
    requires Browse(query) in after && after[Browse(query)].Listing? && before[Browse(query)].pages[i].total >= 0
    ensures var was, now := before[Browse(query)].pages, after[Browse(query)].pages;
            && |now| == |was|
            && (Distinct(IdsOf(Flat(was))) ==> Distinct(IdsOf(Flat(now))))
            && var total := was[i].total + |Flat(now)| - |Flat(was)|;
               now[i].total == if total < 0 then 0 else total
  {
    var key, rule := Browse(query), RuleOf(library.parents, Browse(query));
    var found := FirstRows(CachedRows(keys, before), Elems(bundles));
    var pages, leaving := before[key].pages, LeavingIds(rule, bundles, changes);
    var arriving := ArrivingRows(rule, bundles, changes, found);
    FieldsSay(query);
    assert after[key] == ProjectedValue(library.parents, bundles, changes, found, key, before[key]);
    if !(leaving == {} && arriving == []) {
      TotalsMoveWithRows(pages, leaving, arriving, i);
      FirstRowsCarryIds(CachedRows(keys, before), Elems(bundles));
      ArrivingMeaning(library.collections, bundles, add, remove, changes, found, rule);
      if Distinct(IdsOf(Flat(pages))) {
        RewrittenIsDistinct(pages, leaving, arriving);
      }
    }
  }

  lemma EntersIsComesIn(library: Library, bundles: seq<Id>, add: set<Id>, remove: set<Id>,
                        changes: seq<MembershipChange>, query: BrowseQuery, rule: Rule, b: Id)
    requires Scoped(query) && Workable(Browse(query)) && rule == RuleOf(library.parents, Browse(query))
    requires Reports(library.collections, bundles, add, remove, changes)
    ensures ComesIn(library, bundles, add, remove, query, b) <==>
              b in bundles && Enters(library.collections, add, remove, rule, b)
  {
    FittingIsInScope(library.parents, library.collections, query);
    FittingIsInScope(library.parents, Batched(library.collections, Elems(bundles), add, remove), query);
    if b in bundles {
      NamedAreHeld(library.collections, bundles, add, remove, changes, b);
    }
  }

  lemma NamedIffUndrawable(keys: seq<Key>, before: Cache, bundles: seq<Id>, add: set<Id>, remove: set<Id>,
                           changes: seq<MembershipChange>, library: Library, query: BrowseQuery, rule: Rule)
    requires Scoped(query) && Workable(Browse(query)) && rule == RuleOf(library.parents, Browse(query))
    requires Reports(library.collections, bundles, add, remove, changes)
    ensures Undrawable(rule, bundles, changes, FirstRows(CachedRows(keys, before), Elems(bundles))) <==>
              exists b :: ComesIn(library, bundles, add, remove, query, b) &&
                forall row :: RowCached(keys, before, row) ==> row.id != b
  {
    var found := FirstRows(CachedRows(keys, before), Elems(bundles));
    if Undrawable(rule, bundles, changes, found) {
      var i :| 0 <= i < |bundles| && i < |changes| && Arrives(rule, changes[i]) && bundles[i] !in found;
      ArrivesIffEnters(library.collections, bundles, add, remove, changes, rule, i);
      EntersIsComesIn(library, bundles, add, remove, changes, query, rule, bundles[i]);
      FoundIsCached(keys, before, Elems(bundles), bundles[i]);
      assert ComesIn(library, bundles, add, remove, query, bundles[i]);
    }
    if b :| ComesIn(library, bundles, add, remove, query, b) &&
            forall row :: RowCached(keys, before, row) ==> row.id != b {
      EntersIsComesIn(library, bundles, add, remove, changes, query, rule, b);
      FoundIsCached(keys, before, Elems(bundles), b);
      if !Undrawable(rule, bundles, changes, found) {
        UndrawableMeaning(library.collections, bundles, add, remove, changes, found, rule, b);
      }
    }
  }

  /** When the memberships or the tree are unknown, nothing is rewritten and every listing of a
      collection is named, and Uncategorized. */
  lemma UnknownChangesNameEveryScope(keys: seq<Key>, before: Cache, after: Cache, bundles: seq<Id>,
                                     changes: Option<seq<MembershipChange>>, unproven: set<Key>, query: BrowseQuery)
    requires ListingsProjected(keys, before, bundles, changes, after, unproven) && Browse(query) in before
    requires changes.None? || (changes.value != [] && CollectionTree !in before)
    ensures after == before
    ensures Browse(query) in unproven <==> Scoped(query) || query.view == "uncategorized"
  {
    FieldsSay(query);
  }

  /** A batch that changes tags names Untagged, and one that does not names no more than its
      collections do. */
  lemma TagsNameUntagged(keys: seq<Key>, payload: BatchUpdate, st: Stages, unproven: set<Key>, query: BrowseQuery)
    requires BatchStages(keys, payload, st, unproven) && Browse(query) in st.start
    ensures (payload.addTags != [] || payload.removeTags != []) && query.view == "untagged" ==>
              Browse(query) in unproven
    ensures payload.addCollections == [] && payload.removeCollections == [] ==>
              (Browse(query) in unproven <==>
                (payload.addTags != [] || payload.removeTags != []) && query.view == "untagged")
  {
    BatchKeepsKeys(keys, payload, st, unproven, Browse(query));
    if payload.addCollections == [] && payload.removeCollections == [] {
      assert AxisProjected(st.start, CollectionAxis, payload) == Projected(st.start, Some([]));
    }
  }

  lemma BatchKeepsKeys(keys: seq<Key>, payload: BatchUpdate, st: Stages, unproven: set<Key>, key: Key)
    requires BatchStages(keys, payload, st, unproven) && key in st.start
    ensures key in st.end
  {
    MembershipsOverFrame(st.start, CollectionAxis, payload.bundleIds, payload.addCollections,
                         payload.removeCollections);
    MembershipsOverFrame(st.listed, TagAxis, payload.bundleIds, payload.addTags, payload.removeTags);
  }

  // ----- The order of the rows ------------------------------------------------

  /** The batch names x for the first time before it names y. */
  ghost predicate NamedFirst(bundles: seq<Id>, x: Id, y: Id)
  {
    exists i, j :: 0 <= i < j < |bundles| && bundles[i] == x && x !in bundles[..i] && bundles[j] == y &&
      y !in bundles[..j]
  }

  lemma NamedFirstAtEnd(front: seq<Id>, last: Id, x: Id, y: Id)
    ensures NamedFirst(front + [last], x, y) <==>
              NamedFirst(front, x, y) || (x in front && x != last && y == last && last !in front)
  {
    var all := front + [last];
    forall i | 0 <= i <= |front|
      ensures all[..i] == front[..i]
    {
    }
    if NamedFirst(all, x, y) {
      var i, j :| 0 <= i < j < |all| && all[i] == x && x !in all[..i] && all[j] == y && y !in all[..j];
      if j < |front| {
        assert front[i] == x && front[j] == y && front[..i] == all[..i] && front[..j] == all[..j];
      } else {
        assert all[..j] == front && front[i] == x;
      }
    }
    if NamedFirst(front, x, y) {
      var i, j :| 0 <= i < j < |front| && front[i] == x && x !in front[..i] && front[j] == y && y !in front[..j];
      assert all[i] == x && all[j] == y && all[..i] == front[..i] && all[..j] == front[..j];
    }
    if x in front && x != last && y == last && last !in front {
      var i := FirstOccurrence(front, x);
      assert all[i] == x && all[..i] == front[..i] && all[|front|] == y && all[..|front|] == front;
    }
  }

  /** The arriving rows stand in the order in which the batch first names their bundles. */
  lemma {:induction false} ArrivingInOrder(rule: Rule, ids: seq<Id>, changes: seq<MembershipChange>,
                                           found: map<Id, Summary>, entering: set<Id>, n: nat, x: Id, y: Id)
    requires ArriveOnce(rule, ids, changes, entering) && RowsCarryTheirIds(found) && n <= |ids|
    ensures First(IdsOf(ArrivingRows(rule, ids[..n], changes, found)), x, y) <==>
              NamedFirst(ids[..n], x, y) && x in entering && y in entering && x in found && y in found
  {
    if n == 0 {
      assert ids[..n] == [];
    } else {
      ArrivingInOrder(rule, ids, changes, found, entering, n - 1, x, y);
      ArrivingDrawn(rule, ids, changes, found, entering, n - 1);
      ArrivingNext(rule, ids, changes, found, n - 1);
      OneMoreArrives(rule, ids, changes, found, entering, n - 1, x, y);
    }
  }

  lemma OneMoreArrives(rule: Rule, ids: seq<Id>, changes: seq<MembershipChange>, found: map<Id, Summary>,
                       entering: set<Id>, n: nat, x: Id, y: Id)
    requires n < |ids| && |changes| == |ids| && RowsCarryTheirIds(found)
    requires Arrives(rule, changes[n]) <==> ids[n] in entering && ids[n] !in ids[..n]
    requires Drawn(ArrivingRows(rule, ids[..n], changes, found), ids[..n], found, entering)
    requires var earlier := ArrivingRows(rule, ids[..n], changes, found);
             ArrivingRows(rule, ids[..n + 1], changes, found) ==
             if Arrives(rule, changes[n]) && ids[n] in found then earlier + [found[ids[n]]] else earlier
    requires First(IdsOf(ArrivingRows(rule, ids[..n], changes, found)), x, y) <==>
               NamedFirst(ids[..n], x, y) && x in entering && y in entering && x in found && y in found
    ensures First(IdsOf(ArrivingRows(rule, ids[..n + 1], changes, found)), x, y) <==>
              NamedFirst(ids[..n + 1], x, y) && x in entering && y in entering && x in found && y in found
  {
    var earlier, b := ArrivingRows(rule, ids[..n], changes, found), ids[n];
    assert ids[..n + 1] == ids[..n] + [b];
    NamedFirstAtEnd(ids[..n], b, x, y);
    assert x in IdsOf(earlier) <==> x in Elems(IdsOf(earlier));
    if Arrives(rule, changes[n]) && b in found {
      IdsAppend(earlier, [found[b]]);
      assert IdsOf([found[b]]) == [b];
      FirstAtEnd(IdsOf(earlier), b, x, y);
    }
  }

  lemma {:induction false} KeptIds(items: seq<Summary>, gone: set<Id>)
    ensures IdsOf(Keep(items, gone)) == Without(IdsOf(items), gone)
  {
    if items != [] {
      KeptIds(Init(items), gone);
      assert IdsOf(items) == IdsOf(Init(items)) + [Last(items).id];
      assert Init(IdsOf(items)) == IdsOf(Init(items));
      if Last(items).id !in gone {
        IdsAppend(Keep(Init(items), gone), [Last(items)]);
        assert IdsOf([Last(items)]) == [Last(items).id];
      }
    }
  }

  /** In a listing that was true and is worked out, the bundles that came in lead, in the order
      the batch names them, and the rows that stay follow in theirs. */
  lemma PlainRowsInOrder(keys: seq<Key>, before: Cache, after: Cache, bundles: seq<Id>, add: set<Id>, remove: set<Id>,
                         changes: seq<MembershipChange>, unproven: set<Key>, library: Library, query: BrowseQuery,
                         x: Id, y: Id)
    requires Reaches(keys, before, after, bundles, add, remove, changes, unproven, library, query)
    requires Scoped(query) && Plain(query) && Browse(query) !in unproven
    requires Shows(before[Browse(query)].pages, InScope(library.parents, library.collections, query))
    requires var next := InScope(library.parents, Batched(library.collections, Elems(bundles), add, remove), query);
             x in next && y in next && x != y
    ensures var was := InScope(library.parents, library.collections, query);
            Browse(query) in after && after[Browse(query)].Listing? &&
            (First(IdsOf(Flat(after[Browse(query)].pages)), x, y) <==>
               if x in was && y in was then First(IdsOf(Flat(before[Browse(query)].pages)), x, y)
               else if x !in was && y !in was then NamedFirst(bundles, x, y)
               else x !in was)
  {
    var key, rule := Browse(query), RuleOf(library.parents, Browse(query));
    var found := FirstRows(CachedRows(keys, before), Elems(bundles));
    var was := InScope(library.parents, library.collections, query);
    FieldsSay(query);
    FittingIsInScope(library.parents, library.collections, query);
    FittingIsInScope(library.parents, Batched(library.collections, Elems(bundles), add, remove), query);
    FirstRowsCarryIds(CachedRows(keys, before), Elems(bundles));
    assert after[key] == ProjectedValue(library.parents, bundles, changes, found, key, before[key]);
    ListingInOrder(before[key].pages, library.collections, rule, bundles, add, remove, changes, found, x, y);
  }

  lemma ListingInOrder(pages: seq<Page>, holdings: Holdings, rule: Rule, ids: seq<Id>, add: set<Id>, remove: set<Id>,
                       changes: seq<MembershipChange>, found: map<Id, Summary>, x: Id, y: Id)
    requires Reports(holdings, ids, add, remove, changes) && RowsCarryTheirIds(found)
    requires !Undrawable(rule, ids, changes, found) && Shows(pages, Fitting(holdings, rule))
    requires x in Fitting(Batched(holdings, Elems(ids), add, remove), rule)
    requires y in Fitting(Batched(holdings, Elems(ids), add, remove), rule) && x != y
    ensures var was := Fitting(holdings, rule);
            First(IdsOf(Flat(ProjectedListing(rule, ids, changes, found, pages))), x, y) <==>
              if x in was && y in was then First(IdsOf(Flat(pages)), x, y)
              else if x !in was && y !in was then NamedFirst(ids, x, y)
              else x !in was
  {
    var leaving, arriving := LeavingIds(rule, ids, changes), ArrivingRows(rule, ids, changes, found);
    FittingAfter(holdings, ids, add, remove, changes, found, rule);
    if leaving == {} && arriving == [] {
      assert Elems(IdsOf(arriving)) == {};
    } else {
      RewrittenRows(pages, leaving, arriving);
      KeptIds(Flat(pages), leaving);
      IdsAppend(arriving, Keep(Flat(pages), leaving));
      FirstInParts(IdsOf(arriving), Without(IdsOf(Flat(pages)), leaving), x, y);
      FilterKeepsFirst(IdsOf(Flat(pages)), leaving, x, y);
      ArrivalsInOrder(holdings, ids, add, remove, changes, found, rule, x, y);
      WhichPart(pages, holdings, rule, leaving, arriving, x);
      WhichPart(pages, holdings, rule, leaving, arriving, y);
    }
  }

  lemma ArrivalsInOrder(holdings: Holdings, ids: seq<Id>, add: set<Id>, remove: set<Id>,
                        changes: seq<MembershipChange>, found: map<Id, Summary>, rule: Rule, x: Id, y: Id)
    requires Reports(holdings, ids, add, remove, changes) && RowsCarryTheirIds(found)
    ensures var arriving := ArrivingRows(rule, ids, changes, found);
            First(IdsOf(arriving), x, y) <==>
              NamedFirst(ids, x, y) && x in Elems(IdsOf(arriving)) && y in Elems(IdsOf(arriving))
  {
    var entering := Entering(holdings, add, remove, rule);
    ReportedArriveOnce(holdings, ids, add, remove, changes, rule);
    ArrivingMeaning(holdings, ids, add, remove, changes, found, rule);
    ArrivingInOrder(rule, ids, changes, found, entering, |ids|, x, y);
    assert ids[..|ids|] == ids;
    NotNamedOutside(ids, x, y);
  }

  lemma NotNamedOutside(ids: seq<Id>, x: Id, y: Id)
    ensures NamedFirst(ids, x, y) ==> x in ids && y in ids
  {
  }

  lemma WhichPart(pages: seq<Page>, holdings: Holdings, rule: Rule, leaving: set<Id>, arriving: seq<Summary>, x: Id)
    requires Shows(pages, Fitting(holdings, rule)) && Elems(IdsOf(arriving)) !! Fitting(holdings, rule)
    requires x in (Fitting(holdings, rule) - leaving) + Elems(IdsOf(arriving))
    ensures x in IdsOf(arriving) <==> x !in Fitting(holdings, rule)
    ensures x in Without(IdsOf(Flat(pages)), leaving) <==> x in Fitting(holdings, rule)
  {
    FilterHolds(IdsOf(Flat(pages)), leaving, x);
    assert x in IdsOf(arriving) <==> x in Elems(IdsOf(arriving));
    assert x in IdsOf(Flat(pages)) <==> x in Elems(IdsOf(Flat(pages)));
  }
}
