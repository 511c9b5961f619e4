/** The client's query cache as a value, and what each optimistic projection of
    `hooks.ts` makes of it. The imperative projections in QueryClient are proved
    against these definitions; Agreement proves what they mean for the library. */
module CacheModel {
  import opened Core
  import opened Forest
  import opened Counts

  datatype Axis = CollectionAxis | TagAxis

  /** A listing row: its bundle and everything drawn from it. */
  datatype Summary = Summary(id: Id, row: string)

  /** One page of an infinite listing; `total` repeats the whole result's size. */
  datatype Page = Page(items: seq<Summary>, total: int, rest: string)

  datatype BrowseQuery = BrowseQuery(
    view: string,
    collectionId: Option<Id>,
    includeDescendants: Option<bool>,
    sort: string,
    filter: Option<string>,
    search: Option<string>,
    rest: string)

  datatype Key =
    | BundleCollections(bundle: Id)
    | BundleTags(bundle: Id)
    | CollectionTree
    | CollectionCounts
    | CollectionStats(collection: Id)
    | TagCounts
    | ViewCounts
    | Browse(query: BrowseQuery)

  datatype Value =
    | Membership(ids: Option<seq<Id>>)
    | Tree(rows: seq<Row>)
    | TwoCounts(subtree: map<Id, int>, direct: map<Id, int>)
    | Stats(totalBundles: int, directBundles: int)
    | OneCount(counts: map<Id, int>)
    | Views(uncategorized: int, untagged: int)
    | Listing(pages: seq<Page>)

  type Cache = map<Key, Value>

  /** The shape each query key's data has. */
  predicate Typed(key: Key, value: Value)
  {
    match key
    case BundleCollections(_) => value.Membership?
    case BundleTags(_) => value.Membership?
    case CollectionTree => value.Tree?
    case CollectionCounts => value.TwoCounts?
    case CollectionStats(_) => value.Stats?
    case TagCounts => value.OneCount?
    case ViewCounts => value.Views?
    case Browse(_) => value.Listing?
  }

  ghost predicate WellTyped(cache: Cache)
  {
    forall k :: k in cache ==> Typed(k, cache[k])
  }

  // ----- Snapshots ------------------------------------------------------------

  /** A cache entry captured before an optimistic write. */
  datatype Snapshot = Snapshot(key: Key, value: Value)

  /** Newest first, so a key captured twice ends on its oldest value. */
  function Undo(cache: Cache, snapshots: seq<Snapshot>): (restored: Cache)
    decreases |snapshots|
  {
    if snapshots == [] then cache
    else Undo(cache[Last(snapshots).key := Last(snapshots).value], Init(snapshots))
  }

  lemma {:induction false} UndoAppend(cache: Cache, first: seq<Snapshot>, second: seq<Snapshot>)
    ensures Undo(cache, first + second) == Undo(Undo(cache, second), first)
    decreases |second|
  {
    if second == [] {
      assert first + second == first;
    } else {
      assert Init(first + second) == first + Init(second);
      UndoAppend(cache[Last(second).key := Last(second).value], first, Init(second));
    }
  }

  /** A write whose earlier value was pushed first is undone with the rest. */
  lemma UndoOneMore(cache: Cache, snapshots: seq<Snapshot>, key: Key, value: Value)
    requires key in cache
    ensures Undo(cache[key := value], snapshots + [Snapshot(key, cache[key])]) == Undo(cache, snapshots)
  {
    var log := snapshots + [Snapshot(key, cache[key])];
    assert Init(log) == snapshots;
    assert cache[key := value][key := cache[key]] == cache;
  }

  /** A write to a key outside the log survives the undo. */
  lemma {:induction false} UndoKeeps(cache: Cache, snapshots: seq<Snapshot>, key: Key, value: Value)
    requires forall s :: s in snapshots ==> s.key != key
    ensures Undo(cache[key := value], snapshots) == Undo(cache, snapshots)[key := value]
    decreases |snapshots|
  {
    if snapshots != [] {
      var s := Last(snapshots);
      assert s in snapshots;
      assert cache[key := value][s.key := s.value] == cache[s.key := s.value][key := value];
      UndoKeeps(cache[s.key := s.value], Init(snapshots), key, value);
    }
  }

  // ----- Memberships ----------------------------------------------------------

  function EntryKey(axis: Axis, bundle: Id): Key
  {
    match axis
    case CollectionAxis => BundleCollections(bundle)
    case TagAxis => BundleTags(bundle)
  }

  /** The membership list the cache holds for a bundle, if it has been loaded. */
  function Entry(cache: Cache, axis: Axis, bundle: Id): Option<seq<Id>>
  {
    var key := EntryKey(axis, bundle);
    if key in cache && cache[key].Membership? then cache[key].ids else None
  }

  /** What `projectMemberships` leaves: the written cache, and the changes unless some
      membership was unknown. Entries before an unknown one stay written. */
  datatype Projected = Projected(cache: Cache, changes: Option<seq<MembershipChange>>)

  function MembershipsOver(cache: Cache, axis: Axis, bundles: seq<Id>, add: seq<Id>, remove: seq<Id>): (p: Projected)
  {
    if bundles == [] then Projected(cache, Some([]))
    else
      var p := MembershipsOver(cache, axis, Init(bundles), add, remove);
      var bundle := Last(bundles);
      if p.changes.None? then p
      else
        match Entry(p.cache, axis, bundle)
        case None => Projected(p.cache, None)
        case Some(before) =>
          var after := NextMembershipOf(before, add, remove);
          Projected(p.cache[EntryKey(axis, bundle) := Membership(Some(after))],
                    Some(p.changes.value + [MembershipChange(before, after)]))
  }

  function ProjectedMemberships(cache: Cache, axis: Axis, bundles: seq<Id>, add: seq<Id>,
                                remove: seq<Id>): (p: Projected)
  {
    if add == [] && remove == [] then Projected(cache, Some([]))
    else MembershipsOver(cache, axis, bundles, add, remove)
  }

  lemma {:induction false} UnknownStaysUnknown(cache: Cache, axis: Axis, bundles: seq<Id>, add: seq<Id>,
                                               remove: seq<Id>, n: nat)
    requires n <= |bundles| && MembershipsOver(cache, axis, bundles[..n], add, remove).changes.None?
    ensures MembershipsOver(cache, axis, bundles, add, remove) ==
            MembershipsOver(cache, axis, bundles[..n], add, remove)
  {
    if n == |bundles| {
      assert bundles[..n] == bundles;
    } else {
      assert Init(bundles)[..n] == bundles[..n];
      UnknownStaysUnknown(cache, axis, Init(bundles), add, remove, n);
    }
  }

  // ----- Counts ---------------------------------------------------------------

  function TreeRows(cache: Cache): Option<seq<Row>>
  {
    if CollectionTree in cache && cache[CollectionTree].Tree? then Some(cache[CollectionTree].rows) else None
  }

  /** One cached figure after the collection changes. */
  ghost predicate CollectionFigureMoved(parents: ParentMap, changes: seq<MembershipChange>, key: Key, before: Value,
                                        after: Value)
  {
    if key == CollectionCounts then
      && before.TwoCounts? && after.TwoCounts?
      && Applied(before.subtree, id => Delta(Subtree(parents, id), changes), after.subtree)
      && Applied(before.direct, id => Delta(Direct(id), changes), after.direct)
    else if key.CollectionStats? then
      && before.Stats?
      && var total, direct := Delta(Subtree(parents, key.collection), changes), Delta(Direct(key.collection), changes);
         after == if total == 0 && direct == 0 then before
                  else Stats(Max(0, before.totalBundles + total), Max(0, before.directBundles + direct))
    else if key == ViewCounts then
      before.Views? && after == UncategorizedMoved(before, Delta(InNothing, changes))
    else after == before
  }

  function UncategorizedMoved(views: Value, delta: int): Value
    requires views.Views?
  {
    if delta == 0 then views else views.(uncategorized := Max(0, views.uncategorized + delta))
  }

  function UntaggedMoved(views: Value, delta: int): Value
    requires views.Views?
  {
    if delta == 0 then views else views.(untagged := Max(0, views.untagged + delta))
  }

  /** `applyCollectionCounts`: nothing moves without changes or without the tree. */
  ghost predicate CollectionCountsMoved(before: Cache, changes: seq<MembershipChange>, after: Cache)
  {
    if changes == [] || TreeRows(before).None? then after == before
    else
      && after.Keys == before.Keys
      && var parents := ParentsOf(TreeRows(before).value);
         forall k :: k in before ==> CollectionFigureMoved(parents, changes, k, before[k], after[k])
  }

  ghost predicate TagFigureMoved(changes: seq<MembershipChange>, key: Key, before: Value, after: Value)
  {
    if key == TagCounts then
      before.OneCount? && after.OneCount? &&
      Applied(before.counts, id => Delta(Direct(id), changes), after.counts)
    else if key == ViewCounts then before.Views? && after == UntaggedMoved(before, Delta(InNothing, changes))
    else after == before
  }

  ghost predicate TagCountsMoved(before: Cache, changes: seq<MembershipChange>, after: Cache)
  {
    if changes == [] then after == before
    else
      && after.Keys == before.Keys
      && forall k :: k in before ==> TagFigureMoved(changes, k, before[k], after[k])
  }

  // ----- Listings -------------------------------------------------------------

  /** `Boolean(scope.collectionId)`: an empty id is no scope. */
  function ScopeOf(query: BrowseQuery): Option<Id>
  {
    if query.collectionId.Some? && query.collectionId.value.text != "" then query.collectionId else None
  }

  /** What `trim` strips: white space and line terminators. */
  predicate WhiteSpace(c: char)
  {
    || '\U{0009}' <= c <= '\U{000D}' || c == ' ' || c == '\U{00A0}' || c == '\U{1680}'
    || '\U{2000}' <= c <= '\U{200A}' || c == '\U{2028}' || c == '\U{2029}' || c == '\U{202F}'
    || c == '\U{205F}' || c == '\U{3000}' || c == '\U{FEFF}'
  }

  predicate Blank(text: string)
  {
    forall i :: 0 <= i < |text| ==> WhiteSpace(text[i])
  }

  /** A filter or a non-blank search: what it lists is the server's judgement. */
  predicate Judged(query: BrowseQuery)
  {
    query.filter.Some? || (query.search.Some? && !Blank(query.search.value))
  }

  function ShowsDescendants(query: BrowseQuery): bool
  {
    query.includeDescendants == Some(true)
  }

  function MembershipView(axis: Axis): string
  {
    match axis
    case CollectionAxis => "uncategorized"
    case TagAxis => "untagged"
  }

  /** A listing whose contents a write on this axis can change. */
  predicate DependsOn(axis: Axis, key: Key)
  {
    key.Browse? && ((axis == CollectionAxis && ScopeOf(key.query).Some?) || key.query.view == MembershipView(axis))
  }

  function Flat(pages: seq<Page>): (rows: seq<Summary>)
  {
    if pages == [] then [] else Flat(Init(pages)) + Last(pages).items
  }

  function IdsOf(rows: seq<Summary>): (ids: seq<Id>)
    ensures |ids| == |rows|
  {
    seq(|rows|, i requires 0 <= i < |rows| => rows[i].id)
  }

  /** Every cached listing row, in the order the cache is searched. */
  function CachedRows(keys: seq<Key>, cache: Cache): (rows: seq<Summary>)
  {
    if keys == [] then []
    else
      var k := Last(keys);
      var earlier := CachedRows(Init(keys), cache);
      if k.Browse? && k in cache && cache[k].Listing? then earlier + Flat(cache[k].pages) else earlier
  }

  /** The first row found for each wanted bundle. */
  function FirstRows(rows: seq<Summary>, wanted: set<Id>): (found: map<Id, Summary>)
  {
    if rows == [] then map[]
    else
      var earlier := FirstRows(Init(rows), wanted);
      var item := Last(rows);
      if item.id in wanted && item.id !in earlier then earlier[item.id := item] else earlier
  }

  /** `items.filter((item) => !gone.has(item.id))` */
  function Keep(items: seq<Summary>, gone: set<Id>): (kept: seq<Summary>)
  {
    if items == [] then []
    else if Last(items).id in gone then Keep(Init(items), gone)
    else Keep(Init(items), gone) + [Last(items)]
  }

  ghost predicate Leaves(rule: Rule, change: MembershipChange)
  {
    Fits(rule, Elems(change.before)) && !Fits(rule, Elems(change.after))
  }

  ghost predicate Arrives(rule: Rule, change: MembershipChange)
  {
    !Fits(rule, Elems(change.before)) && Fits(rule, Elems(change.after))
  }

  ghost function LeavingIds(rule: Rule, bundles: seq<Id>, changes: seq<MembershipChange>): set<Id>
  {
    set i | 0 <= i < |bundles| && i < |changes| && Leaves(rule, changes[i]) :: bundles[i]
  }

  ghost function ArrivingRows(rule: Rule, bundles: seq<Id>, changes: seq<MembershipChange>,
                              found: map<Id, Summary>): seq<Summary>
  {
    if bundles == [] then []
    else
      var earlier := ArrivingRows(rule, Init(bundles), changes, found);
      var i := |bundles| - 1;
      if i < |changes| && Arrives(rule, changes[i]) && bundles[i] in found then earlier + [found[bundles[i]]]
      else earlier
  }

  /** Some bundle arrives with no cached row to draw it from. */
  ghost predicate Undrawable(rule: Rule, bundles: seq<Id>, changes: seq<MembershipChange>, found: map<Id, Summary>)
  {
    exists i :: 0 <= i < |bundles| && i < |changes| && Arrives(rule, changes[i]) && bundles[i] !in found
  }

  function Departed(pages: seq<Page>, leaving: set<Id>): nat
  {
    if pages == [] then 0
    else Departed(Init(pages), leaving) + (Gone(Last(pages).items, leaving))
  }

  /** How many of these rows are leaving. */
  function Gone(items: seq<Summary>, leaving: set<Id>): nat
  {
    if items == [] then 0 else Gone(Init(items), leaving) + if Last(items).id in leaving then 1 else 0
  }

  /** Each page without its leaving rows, the arrivals at the head of the first. */
  function PrunedPage(page: Page, index: nat, leaving: set<Id>, newcomers: seq<Summary>): Page
  {
    page.(items := if index == 0 then newcomers + Keep(page.items, leaving) else Keep(page.items, leaving))
  }

  function RewrittenPages(pages: seq<Page>, leaving: set<Id>, arriving: seq<Summary>): (rewritten: seq<Page>)
    ensures |rewritten| == |pages|
  {
    var newcomers := Keep(arriving, Elems(IdsOf(Flat(pages))));
    var delta := |newcomers| - Departed(pages, leaving);
    seq(|pages|, i requires 0 <= i < |pages| =>
      var page := PrunedPage(pages[i], i, leaving, newcomers);
      page.(total := Max(0, page.total + delta)))
  }

  ghost function ProjectedListing(rule: Rule, bundles: seq<Id>, changes: seq<MembershipChange>,
                                  found: map<Id, Summary>, pages: seq<Page>): seq<Page>
  {
    var leaving := LeavingIds(rule, bundles, changes);
    var arriving := ArrivingRows(rule, bundles, changes, found);
    if leaving == {} && arriving == [] then pages else RewrittenPages(pages, leaving, arriving)
  }

  /** A listing the projection works out: scoped to a collection, no filter or search. */
  predicate Workable(key: Key)
  {
    key.Browse? && ScopeOf(key.query).Some? && !Judged(key.query)
  }

  function RuleOf(parents: ParentMap, key: Key): Rule
    requires Workable(key)
  {
    ListingRule(parents, ScopeOf(key.query).value, ShowsDescendants(key.query))
  }

  ghost function ProjectedValue(parents: ParentMap, bundles: seq<Id>, changes: seq<MembershipChange>,
                                found: map<Id, Summary>, key: Key, value: Value): Value
  {
    if Workable(key) && value.Listing? then
      Listing(ProjectedListing(RuleOf(parents, key), bundles, changes, found, value.pages))
    else value
  }

  ghost predicate Unprovable(parents: ParentMap, bundles: seq<Id>, changes: seq<MembershipChange>,
                             found: map<Id, Summary>, key: Key)
  {
    key.Browse? &&
    if ScopeOf(key.query).None? then key.query.view == MembershipView(CollectionAxis)
    else if Judged(key.query) then true
    else Undrawable(RuleOf(parents, key), bundles, changes, found)
  }

  /** `projectCollectionListings`: the rewritten listings and the ones it names as unproven. */
  ghost predicate ListingsProjected(keys: seq<Key>, before: Cache, bundles: seq<Id>,
                                    changes: Option<seq<MembershipChange>>, after: Cache, unproven: set<Key>)
  {
    if changes == Some([]) then after == before && unproven == {}
    else if changes.None? || TreeRows(before).None? then
      && after == before
      && unproven == set k | k in before && DependsOn(CollectionAxis, k)
    else
      var parents := ParentsOf(TreeRows(before).value);
      var found := FirstRows(CachedRows(keys, before), Elems(bundles));
      && after.Keys == before.Keys
      && (forall k :: k in before ==> after[k] == ProjectedValue(parents, bundles, changes.value, found, k, before[k]))
      && unproven == set k | k in before && Unprovable(parents, bundles, changes.value, found, k)
  }

  // ----- One batch ------------------------------------------------------------

  datatype BatchUpdate = BatchUpdate(
    bundleIds: seq<Id>,
    addCollections: seq<Id>,
    removeCollections: seq<Id>,
    addTags: seq<Id>,
    removeTags: seq<Id>)

  function Adds(payload: BatchUpdate, axis: Axis): seq<Id>
  {
    if axis == CollectionAxis then payload.addCollections else payload.addTags
  }

  function Removes(payload: BatchUpdate, axis: Axis): seq<Id>
  {
    if axis == CollectionAxis then payload.removeCollections else payload.removeTags
  }

  function AxisProjected(cache: Cache, axis: Axis, payload: BatchUpdate): Projected
  {
    ProjectedMemberships(cache, axis, payload.bundleIds, Adds(payload, axis), Removes(payload, axis))
  }

  /** The cache at each stage of `onMutate`, in the order the stages run. */
  datatype Stages = Stages(start: Cache, filed: Cache, counted: Cache, listed: Cache, tagged: Cache, end: Cache)

  ghost predicate BatchStages(keys: seq<Key>, payload: BatchUpdate, st: Stages, unproven: set<Key>)
  {
    var collections := AxisProjected(st.start, CollectionAxis, payload);
    var tags := AxisProjected(st.listed, TagAxis, payload);
    && st.filed == collections.cache
    && (if collections.changes.None? then st.counted == st.filed
        else CollectionCountsMoved(st.filed, collections.changes.value, st.counted))
    && (exists named :: ListingsProjected(keys, st.counted, payload.bundleIds, collections.changes, st.listed, named)
                        && unproven == named + if payload.addTags == [] && payload.removeTags == [] then {}
                                               else set k | k in st.end && DependsOn(TagAxis, k))
    && st.tagged == tags.cache
    && (if tags.changes.None? then st.end == st.tagged else TagCountsMoved(st.tagged, tags.changes.value, st.end))
  }

  /** What a rollback cannot take back: the entries a projection wrote before it met an
      unknown membership and gave up its log. */
  function Unlogged(cache: Cache, payload: BatchUpdate): Cache
  {
    var collections := AxisProjected(cache, CollectionAxis, payload);
    var first := if collections.changes.None? then collections.cache else cache;
    var tags := AxisProjected(first, TagAxis, payload);
    if tags.changes.None? then tags.cache else first
  }

  lemma {:induction false} UndoReads(cache: Cache, snapshots: seq<Snapshot>, key: Key)
    requires forall s :: s in snapshots ==> s.key != key
    ensures key in Undo(cache, snapshots) <==> key in cache
    ensures key in cache ==> Undo(cache, snapshots)[key] == cache[key]
    decreases |snapshots|
  {
    if snapshots != [] {
      assert Last(snapshots) in snapshots;
      UndoReads(cache[Last(snapshots).key := Last(snapshots).value], Init(snapshots), key);
    }
  }

  /** Undoing other keys and projecting memberships can be done in either order. */
  lemma {:induction false} UndoCommutesWithMemberships(cache: Cache, snapshots: seq<Snapshot>, axis: Axis,
                                                       bundles: seq<Id>, add: seq<Id>, remove: seq<Id>)
    requires forall s, b :: s in snapshots ==> s.key != EntryKey(axis, b)
    ensures var p := MembershipsOver(cache, axis, bundles, add, remove);
            MembershipsOver(Undo(cache, snapshots), axis, bundles, add, remove) ==
            Projected(Undo(p.cache, snapshots), p.changes)
  {
    if bundles != [] {
      UndoCommutesWithMemberships(cache, snapshots, axis, Init(bundles), add, remove);
      var p := MembershipsOver(cache, axis, Init(bundles), add, remove);
      if p.changes.Some? {
        var key := EntryKey(axis, Last(bundles));
        UndoReads(p.cache, snapshots, key);
        if Entry(p.cache, axis, Last(bundles)).Some? {
          var after := NextMembershipOf(p.cache[key].ids.value, add, remove);
          UndoKeeps(p.cache, snapshots, key, Membership(Some(after)));
        }
      }
    }
  }
}
