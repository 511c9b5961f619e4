# Cairndex: the client's promises, proved

Cairndex is a media library with a web client, a Python server and a desktop shell. This
project models the four parts of the client and the shell where one wrong step is visible to
the owner or loses work, and proves what they promise for every input, every run and every
interleaving.

**Optimistic figures and listings** (`apps/web/src/api/counts.ts`, `hooks.ts`,
`catalogOrganize.ts`). When bundles are filed, tagged, reordered or collections are moved, the
client writes the expected result into its query cache before the server answers. `Forest`,
`Counts` and `Recount` say what a count is (a DISTINCT recount over an arbitrary, possibly
cyclic or dangling parent map) and that the deltas are its difference. `CacheModel` and
`QueryClient` are the cache and the loops that write it entry by entry. `Agreement`,
`Listings`, `Runs` and `Rollback` prove that the cache keeps agreeing with the library over
any run of batches, and when a refused batch can be taken back; `Overlaps` is the refusal that
arrives after a second batch has written. `ListingFields` tells from the fields of a query
what a batch does to its listing, row by row, and `Figures` that no figure ever shows below
zero. `Repeats` says when naming a bundle twice is harmless to its list, not only to its set.
`BrowseOrder` and `BrowsePages` are the drag-reorder guess, `BrowseMoves` where its block lands;
`Reparent` and `Organize` are moving and sorting collections, `OrganizeOrder` where each row
ends up; `HiddenFiles` is hiding and restoring file rows.

**Retained metadata edits** (`metadataEdits.ts`, `requestScope.ts`, `editBasis.ts`).
`EditQueue` is a machine whose steps are the code between two awaits; between steps replies
get lost, the server answers late or twice, the owner chooses, the page reloads, the
connection or the library changes. `EditIdentity`, `EditServer`, `EditLists`, `EditRuns`,
`EditKeeping`, `EditPromises`, `EditScopes`, `EditDiscards` and `EditReviews` prove what every
history keeps, and `EditHistories` builds the histories in which a promise ends.
`EditRequests` says what each step sends and under which identity, `EditAddresses` which
addresses a recovered edit may have. `EditPage` is the module state as a class: each call takes
the page one step further in a history, so all of this holds of the page. `EditBasis` and
`ReadBases` are the version bases that requests carry.

**The local server's lifecycle** (`apps/desktop/src-tauri/src/sidecar.rs`). `Sidecar` runs any
number of threads over two mutexes, with crashes, slow launches and shutdowns;
`SidecarShutdown` says when a shutdown is final; `FolderPicks` is the one-slot folder pick.

**Path mapping both ways** (`mappings.rs`, `dragout.rs`). `Paths` is the text of a path,
`Filesystem` a tree with symbolic links and `fs::canonicalize` over it, `Mappings` the forward
and reverse mapping, `DragOut` the batch that drags files out.

`Core` holds small shared definitions. Run `dafny verify dfyconfig.toml` to check everything.

## Findings

Where a hoped-for property is false of the code, the code is kept and the exact condition is
proved.

- Naming a bundle twice in a batch leaves its membership *set* alone but can reorder its
  *list* (`Counts.NextMembershipNotIdempotentAsList`); it leaves the list alone exactly when
  the add list names nothing new that stays behind an id that is also removed
  (`Repeats.RepeatLeavesListAloneIff`).
- A refused batch is taken back exactly only if each axis either knew every membership or had
  written nothing before it met an unknown one (`Rollback.RollbackRestoresExactlyWhen`,
  `Rollback.RollbackCanLeaveATrace`). When a second batch has been made in between, the
  snapshots put back the answers of before both: a figure or listing is right afterwards
  exactly when its source, the state before both if the refused batch had logged it and the
  state after both if not, gives the same answer as the library
  (`Overlaps.LateRefusalIsRightIff`). When the two name different bundles, exactly the keys
  that the refused batch logged and the accepted one moves are wrong
  (`Overlaps.LateRefusalOfOthersIsWrongIff`, `Overlaps.LateRefusalGoesWrong`).
- The comment in `onError` says that the pruned listings are not rolled back; their snapshots
  are in the log that it restores, so they are. The model follows the code.
- `departed` counts loaded rows, so a partly loaded listing keeps true totals exactly when
  every leaving bundle was loaded (`Listings.TotalsTrueIffDeparturesLoaded`,
  `Listings.UnloadedDepartureIsNotCounted`; over a whole batch `Runs.BatchKeepsPartlyTrueIff`).
- A view with a filter and no collection scope is neither rewritten nor named as unproven,
  although the comment above `projectCollectionListings` reads as if it were; it stays true
  exactly when no named bundle's new memberships change the filter's verdict on it
  (`Listings.UnscopedFilterStaysTrueIff`, `Listings.UnscopedFilterGoesWrong`). A batch that
  changes only tags leaves every listing as it is and names only Untagged, so the same holds
  of any other listing that a filter on tags decides (`Listings.TagFilterStaysTrueIff`,
  `Listings.TagFilterGoesWrong`).
- A drag whose target row is not loaded, or lies outside the scope, can be guessed wrongly;
  `BrowseOrder.GuessIsRestrictionIff` says exactly when the guess is right
  (`BrowseOrder.UnloadedGuessIsWrong`, `BrowseOrder.OutOfScopeGuessIsWrong`).
- A shutdown is final exactly when no thread is waiting for the startup lock, checking,
  launching, starting or inserting at that moment (`SidecarShutdown.ShutdownIsFinalIff`);
  otherwise the launch can leave a server running, whether it had already spawned
  (`SidecarShutdown.ShutdownDuringLaunchLeavesServer`) or not yet
  (`SidecarShutdown.ShutdownBeforeSpawnLeavesServer`).
- A retained edit survives a reload exactly when it passes `validPending`
  (`EditLists.SurvivesIffValid`). Deleting a collection sends an address with a query, so that
  edit never does (`EditHistories.DeletingACollectionIsForgotten`).
- A retry or review that starts a run in a scope whose list the page has not read overwrites
  the stored list (`EditHistories.RetryOverwritesUnreadList`); nothing else is ever lost but by
  an accepted response or a discard (`EditPromises.LostIff`).
- A discard of an edit with no open question is final exactly when no run of the edit can
  still write the list and storage lets go of it (`EditDiscards.DiscardIsFinalIff`); a lost,
  unreadable or error reply to a live run puts the edit back. A discard given at an open
  question, once its run carries it out, is final exactly when storage lets go of the edit
  (`EditDiscards.ChosenDiscardIsFinalIff`).
- A conflict stays on the edit that was reviewed. Reviewed again after a reload, the same
  request gets a second identity, and the server accepts both under two receipts
  (`EditHistories.ReviewedTwiceIsAcceptedTwice`). Two identities of one edit carry one request
  exactly when some review asked for what the edit had already asked
  (`EditReviews.TwinsIffRepeated`, `EditReviews.AnsweredReviewMakesTwins`).

## Model

| member | source | states |
|---|---|---|
| Forest.CountingCollectionIds | apps/web/src/api/counts.ts:42-58 | The upward walk that stops at the first collection already counted ends on every tree, cyclic or dangling, and returns exactly the counting set |
| Forest.CountingIsLeastClosed | apps/web/src/api/counts.ts:35-58 | The counting set holds the memberships, is closed under parents, and is contained in every set that is |
| Forest.DescendingIds | apps/web/src/api/catalogOrganize.ts:387-392 | The growing-set loop returns the least set holding the id and closed under children |
| Forest.DescentIsDualToClimb | apps/web/src/api/catalogOrganize.ts:387-392 | A collection lies in the subtree of `id` exactly when `id` counts a bundle held only by that collection: descent and climb are dual |
| Counts.ListingHoldsBundle | apps/web/src/api/counts.ts:71-79 | A scoped listing holds a bundle exactly when the listing's count rule counts it |
| Counts.CollectionCountDeltas | apps/web/src/api/counts.ts:86-99 | Every collection's subtree delta is the number of bundles that start minus those that stop being counted in it, each bundle once |
| Counts.DirectMembershipDeltas | apps/web/src/api/counts.ts:107-117 | The same for direct membership |
| Counts.EmptyMembershipDelta | apps/web/src/api/counts.ts:124-131 | The same for the views of bundles held by nothing |
| Counts.ApplyCountDeltas | apps/web/src/api/counts.ts:135-146 | The new map is the old one moved by the deltas and clamped at zero, absent ids reading as zero |
| Counts.NextMembership | apps/web/src/api/counts.ts:150-159 | The two loops compute removals first, then additions not already there, in order |
| Counts.NextMembershipAsSet | apps/web/src/api/counts.ts:148-159 | As a set the result is the old set minus the removals plus the additions |
| Counts.NextMembershipIdempotentAsSet | apps/web/src/api/counts.ts:148-159 | Applying the same change again leaves the set alone |
| Repeats.RepeatLeavesListAloneIff | apps/web/src/api/counts.ts:150-159 | Applying it again leaves the list alone if and only if the add list names nothing new that stays behind an id that is also removed |
| Rollback.NextSettles | apps/web/src/api/counts.ts:150-159 | After two applications the list never changes again |
| Recount.DeltaIsRecount | apps/web/src/api/counts.ts:86-131 | For any parent map and any batch, repeated ids included, recount before plus summed delta is the recount after, for the subtree, direct and in-nothing rules alike |
| Recount.RepeatGainsNothing | apps/web/src/api/hooks.ts:2262-2274 | A bundle named again in one batch changes no count |
| Recount.AppliedStaysExact | apps/web/src/api/counts.ts:135-146 | Exact counts stay exact, and the clamp at zero never bites |
| QueryClient.QueryClient.RestoreSnapshots | apps/web/src/api/hooks.ts:2151-2153 | Restoring newest first takes the cache to the value of undoing the whole log |
| QueryClient.QueryClient.ProjectMemberships | apps/web/src/api/hooks.ts:2254-2276 | Entry by entry, the loop leaves the cache and the changes of the projection, gives up with the earlier writes in place at an unknown membership, and its log otherwise undoes it exactly |
| QueryClient.QueryClient.CachedSummaries | apps/web/src/api/hooks.ts:2282-2298 | The first cached row of each wanted bundle over all listings |
| QueryClient.QueryClient.MembershipDependentListings | apps/web/src/api/hooks.ts:2212-2223 | Exactly the cached listings whose rows depend on the axis |
| QueryClient.QueryClient.ProjectCollectionListings | apps/web/src/api/hooks.ts:2320-2401 | Every listing is rewritten or left as specified, exactly the unworkable ones are named, and the log undoes it; the rows below tell which those are from the fields of their queries |
| ListingFields.SearchedListingIsNamed | apps/web/src/api/hooks.ts:2350-2353 | A listing of a collection that has a filter, or a search with a visible character, keeps its pages and is named |
| ListingFields.PlainListingIsWorkedOut | apps/web/src/api/hooks.ts:2354-2401 | Without a filter, and with no search or one of spaces only, it is named if and only if a bundle comes in that no cached row can draw; otherwise, if it showed exactly the bundles filed in its collection, or below it when it shows descendants, it still does |
| ListingFields.PlainRowsInOrder | apps/web/src/api/hooks.ts:2373-2399 | The bundles that came in then lead, in the order the batch first names them, and every other row follows in the order it had |
| ListingFields.PlainRowsAreKnown | apps/web/src/api/hooks.ts:2356-2399 | Whether it was true or stale, a row stays unless its bundle goes out, and every other row it then shows is a cached row of a bundle that came in and was not shown |
| ListingFields.PlainTotalsMoveWithRows | apps/web/src/api/hooks.ts:2378-2398 | Whether it was true or stale, it shows no bundle twice that it did not, and its totals move by as much as its rows, or stop at zero |
| ListingFields.UnscopedListingIsLeftAlone | apps/web/src/api/hooks.ts:2345-2349 | A listing of no collection keeps its pages and is named exactly if it is Uncategorized |
| ListingFields.UnknownChangesNameEveryScope | apps/web/src/api/hooks.ts:2326-2335 | With memberships or the tree unknown nothing is rewritten, and exactly the listings of collections and Uncategorized are named |
| ListingFields.TagsNameUntagged | apps/web/src/api/hooks.ts:3258-3269 | A batch that changes tags names Untagged; one that changes no collections names nothing else |
| ListingFields.FoundIsCached | apps/web/src/api/hooks.ts:2282-2298 | A bundle can be drawn exactly when some cached listing holds a row of it, and then by such a row |
| QueryClient.QueryClient.ApplyCollectionCounts | apps/web/src/api/hooks.ts:2406-2447 | Every collection figure, and nothing else, moves by its delta, and the log undoes it |
| QueryClient.QueryClient.ApplyTagCounts | apps/web/src/api/hooks.ts:2450-2460 | The same for tags |
| QueryClient.QueryClient.ApplyViewCountDelta | apps/web/src/api/hooks.ts:2462-2474 | One view count moves, clamped at zero, and the log undoes it |
| QueryClient.QueryClient.ProjectBatch | apps/web/src/api/hooks.ts:3216-3274 | The whole optimistic batch passes through its stages in order, and undoing its log leaves exactly what a projection that gave up had written |
| QueryClient.QueryClient.RefusedBatch | apps/web/src/api/hooks.ts:3275-3280 | A refused batch leaves the cache as it was, except what a projection that gave up had written |
| Figures.BatchShowsNoNegative | apps/web/src/api/hooks.ts:3216-3274 | However stale the cache, a batch and its rollback leave no count, figure or total below zero |
| CacheModel.UndoCommutesWithMemberships | apps/web/src/api/hooks.ts:2149-2153 | Undoing writes to other keys and projecting memberships can be done in either order, which is what makes one reverse pass over both axes right |
| Agreement.MembershipsOverReports | apps/web/src/api/hooks.ts:2254-2276 | With every touched membership cached, the projected changes are the ones the library goes through and the entries are the library's new memberships |
| Agreement.CollectionFiguresStayExact | apps/web/src/api/hooks.ts:2406-2447 | Subtree, direct, inspector and Uncategorized figures that equalled a recount equal the recount after the batch |
| Agreement.TagFiguresStayExact | apps/web/src/api/hooks.ts:2450-2474 | The same for tags and Untagged |
| Listings.RewrittenRows | apps/web/src/api/hooks.ts:2373-2399 | The rewritten pages read as the arrivals and then every row that stays, each bundle once |
| Listings.ProjectedStaysFaithful | apps/web/src/api/hooks.ts:2364-2399 | A fully loaded true listing that is not named holds exactly the bundles the new memberships put in it, without duplicates and with true totals |
| Listings.ListingsStayHonest | apps/web/src/api/hooks.ts:2320-2401 | Every listing that depends on collections is named as unproven, was not affected at all, or stays true, whatever was cached |
| Listings.TotalsTrueIffDeparturesLoaded | apps/web/src/api/hooks.ts:2380-2398 | A partly loaded listing with true totals that is not named keeps true totals through a batch if and only if every bundle the batch takes out of it was loaded |
| Listings.UnloadedDepartureIsNotCounted | apps/web/src/api/hooks.ts:2380-2398 | A listing and a batch for which the totals become wrong |
| Listings.UnscopedFilterStaysTrueIff | apps/web/src/api/hooks.ts:2345-2349 | A true filtered view without a scope stays true if and only if no named bundle's new memberships change the filter's verdict on it |
| Listings.TagFilterStaysTrueIff | apps/web/src/api/hooks.ts:3266-3269 | After a batch that changes only tags, a true listing other than Untagged that a filter on tags decides is neither rewritten nor named, and is still true if and only if no named bundle's new tags change the filter's verdict on it |
| Listings.TagFilterGoesWrong | apps/web/src/api/hooks.ts:3266-3269 | A filtered view of all bundles and a tagging after which it shows a bundle its filter no longer selects |
| Listings.UnscopedFilterGoesWrong | apps/web/src/api/hooks.ts:2345-2349 | A view and a batch after which it shows a bundle its filter no longer selects |
| Runs.BatchKeepsAgreement | apps/web/src/api/hooks.ts:3216-3274 | One accepted batch with known memberships keeps every figure exact and every listing outside the named ones true |
| Runs.BatchKeepsPartlyTrueIff | apps/web/src/api/hooks.ts:3216-3274 | One accepted batch keeps a partly loaded listing true as far as it is loaded if and only if it takes no unloaded row out of it |
| Runs.RunKeepsAgreement | apps/web/src/api/hooks.ts:3216-3280 | Over any run of accepted batches, refused batches, refetches in full or in part and dropped queries, in which each batch names only bundles whose memberships are cached when it is made, every figure stays exact and every listing outside the suspect ones stays true as far as it is loaded; an empty cache will do to begin with |
| Runs.CountMatchesListing | apps/web/src/api/hooks.ts:2373-2425 | A scoped listing's totals are the sidebar's figure, however much of it is loaded, and so is its number of rows once it is loaded in full |
| Rollback.RollbackRestoresExactlyWhen | apps/web/src/api/hooks.ts:2265-2274 | Undoing a refused batch restores the exact cache if and only if on each axis the log was kept or nothing had been written |
| Rollback.RollbackCanLeaveATrace | apps/web/src/api/hooks.ts:2265-2274 | A cache and a batch for which the rollback does leave a trace |
| Overlaps.LateRefusalIsRightIff | apps/web/src/api/hooks.ts:2149-2153 | For any two batches, the first refused after the second was made: a figure or listing is right afterwards if and only if the state its value comes from, before both when the refused batch logged it and after both when not, gives the answer the library gives |
| Overlaps.LateRefusalOfOthersIsWrongIff | apps/web/src/api/hooks.ts:3275-3280 | When the two batches name different bundles, a figure or listing is wrong after the refusal if and only if the refused batch logged it and the accepted one moves it |
| Overlaps.LateRefusalGoesWrong | apps/web/src/api/hooks.ts:3275-3280 | Two taggings after which the refusal of the first shows a wrong tag figure |
| Rollback.TimesNeverReturns | apps/web/src/api/hooks.ts:2262-2274 | Repeating a change never brings a changed list back, so a trace cannot cancel itself |
| BrowseOrder.GuessIsRestriction | apps/web/src/api/hooks.ts:3102-3121 | With the target at the end or loaded, the guess over any loaded part is the server's order restricted to that part |
| BrowseOrder.GuessIsRestrictionIff | apps/web/src/api/hooks.ts:3102-3121 | For any target, in the scope or outside it, loaded or not, exactly when the guess is that restriction |
| BrowseOrder.UnloadedGuessIsWrong | apps/web/src/api/hooks.ts:3110-3114 | A drag onto a row that is not loaded, guessed wrongly |
| BrowseOrder.OutOfScopeGuessIsWrong | apps/web/src/api/hooks.ts:3110-3114 | A drag onto a moved row of another scope, where client and server move differently |
| BrowseMoves.MovedBlockLands | apps/server/src/cairndex/services/browse.py:463-502 | Of two rows the server puts first: among movers and among the others the one that was first, and of a mover and another row, the other exactly if it stood before the target or there is none; dragging nothing, or onto a dragged row, changes nothing |
| BrowseMoves.GuessedBlockLands | apps/web/src/api/hooks.ts:3102-3121 | The same of the guess over the loaded rows |
| BrowseMoves.SettledPair | apps/web/src/api/hooks.ts:3039-3058 | After the answer has settled, rows it names come first, in its order, and the others follow in theirs |
| BrowseMoves.AffectedByFields | apps/web/src/api/hooks.ts:3093-3096 | A reorder of a collection touches the manually sorted listings of just its own bundles; one of the global order, every other manually sorted listing |
| BrowseOrder.SettleAgreesWithServer | apps/server/src/cairndex/services/browse.py:463-502 | Whatever the guess was, the settled rows are the server's new order restricted to the loaded rows |
| BrowsePages.RefillPages | apps/web/src/api/hooks.ts:3102-3121 | The loop that cuts the rows back into pages computes the refill, page length by page length |
| BrowsePages.MoveInBrowsePages | apps/web/src/api/hooks.ts:3102-3121 | The page rebuild of the guess |
| BrowsePages.ApplyBrowseOrder | apps/web/src/api/hooks.ts:3039-3058 | The page rebuild of the server's answer |
| BrowsePages.GuessThenSettle | apps/web/src/api/hooks.ts:3147-3184 | After guess and answer the rows are that part of the server's order, no row is lost or doubled, and every page keeps its length and total |
| BrowsePages.SettleMovesNothing | apps/web/src/api/hooks.ts:3171-3184 | With the target at the end or loaded, the answer changes no cached page a second time |
| QueryClient.QueryClient.GuessReorder | apps/web/src/api/hooks.ts:3147-3166 | The guess is made on every cached listing of the moved scope and on no other, and its snapshots undo it |
| QueryClient.QueryClient.SettleReorder | apps/web/src/api/hooks.ts:3175-3184 | The server's order reaches every listing of the scope and no other |
| Reparent.MoveStaysAcyclicIff | apps/web/src/api/catalogOrganize.ts:427-448 | Reparenting keeps the tree acyclic if and only if the new parent is not a mover and lies below none |
| Reparent.OnlyTouchedCountsChange | apps/web/src/api/counts.ts:42-58 | On any parent map, only ancestors-or-self of a mover's old or new parent can change their subtree count |
| Organize.SortIsStable | apps/web/src/api/catalogOrganize.ts:416-434 | The sort is sorted, a permutation and stable |
| Organize.PlacedRow | apps/web/src/api/catalogOrganize.ts:427-448 | Each position keeps its id; movers and the target group take their row of the numbered group; every other row is untouched |
| OrganizeOrder.MoversLandBefore | apps/web/src/api/catalogOrganize.ts:436-447 | A sibling that stays is numbered before the movers if and only if it was drawn before the named sibling, or no staying sibling was named |
| OrganizeOrder.MoveKeepsShownOrder | apps/web/src/api/catalogOrganize.ts:416-447 | Among the siblings that stay, and among the movers, the numbers follow sort order, then name, then the order they came in |
| OrganizeOrder.MoveNumbersGroup | apps/web/src/api/catalogOrganize.ts:440-448 | The target group gets each number below its size once, its rows keep their ids under the target parent, and every other row is as it was |
| Organize.MoveReparents | apps/web/src/api/catalogOrganize.ts:427-448 | On parents, a move is exactly the reparenting of the movers |
| Organize.MoveKeepsForestIff | apps/web/src/api/catalogOrganize.ts:427-448 | A move of something yields a forest if and only if the new parent is neither a mover nor below one |
| Organize.SortCollectionsByName | apps/web/src/api/catalogOrganize.ts:451-469 | Grouping, sorting and numbering give every row the number of its siblings that come before it, at its own position |
| OrganizeOrder.CleanupFollowsNames | apps/web/src/api/catalogOrganize.ts:451-469 | Two siblings are numbered as their names compare in the chosen direction, equal names by id, with numbers below the size of their group |
| Organize.NameSortIgnoresInputOrder | apps/web/src/api/catalogOrganize.ts:451-469 | The resulting rows do not depend on the order the input came in |
| Organize.NameSortIsIdempotent | apps/web/src/api/catalogOrganize.ts:451-469 | Cleaning up twice is cleaning up once |
| HiddenFiles.RestoreFiles | apps/web/src/api/hooks.ts:238-248 | The merge loop computes the restored list |
| HiddenFiles.FileLists.HideFiles | apps/web/src/api/hooks.ts:633-641 | Every cached list loses the requested rows, and the snapshots remember exactly what was cached |
| HiddenFiles.FileLists.RestoreSnapshots | apps/web/src/api/hooks.ts:229-250 | Each remembered list is merged into what its bundle shows now, and every other list is left alone |
| HiddenFiles.TrashShowsSurvivors | apps/web/src/api/hooks.ts:633-648 | Over every open list at once, hiding P and restoring the failed F shows the original rows without P minus F, in their order |
| HiddenFiles.HideThenRestore | apps/web/src/api/hooks.ts:633-648 | Hiding P and restoring F shows the original list without P minus F, in its original order |
| HiddenFiles.RestoreDropsNoCurrentFile | apps/web/src/api/hooks.ts:229-250 | Whatever changed meanwhile, every current file stays as it is and only failed files that are not listed come back |
| HiddenFiles.RestoredKeepsOrder | apps/web/src/api/hooks.ts:238-248 | Whatever changed meanwhile, rows that were there before keep their order and newer ones follow in theirs |
| HiddenFiles.HiddenKeepsOrder | apps/web/src/api/hooks.ts:638-640 | Hiding leaves the other rows in their order |
| EditBasis.MinimumBasis | apps/web/src/api/editBasis.ts:43-56 | The loop computes the minimum of the present bases |
| EditBasis.MinimumUsableIff | apps/web/src/api/editBasis.ts:43-56 | The result is usable if and only if the present bases are valid and of one history, and then it is their greatest lower bound |
| EditBasis.MinimumIgnoresOrder | apps/web/src/api/editBasis.ts:43-56 | Order and repetition do not matter |
| EditBasis.MinimumIgnoresGrouping | apps/web/src/api/editBasis.ts:43-56 | However the displayed bases are grouped into pages, empty pages included, combining page by page is combining everything at once, and an invalid page poisons the whole |
| ReadBases.Labels.RememberBasis | apps/web/src/api/editBasis.ts:12-24 | On any object graph, cyclic ones included, the walk ends and labels exactly the objects reachable from the root |
| ReadBases.Labels.BasisOf | apps/web/src/api/editBasis.ts:27-40 | The walk ends and combines exactly the labels of the first labelled objects on the paths from the root |
| EditPage.Without | apps/web/src/api/metadataEdits.ts:257 | The filter keeps exactly the other edits, in order |
| EditPage.ReadBack | apps/web/src/api/metadataEdits.ts:63-71 | Reading storage keeps exactly the entries that pass `validPending`, in order, with a message and no stale review |
| EditPage.FindPending | apps/web/src/api/metadataEdits.ts:359-362 | The first retained edit with this url, method, body and basis, whatever its message and review map, and nothing only when there is none |
| EditPage.AnswerAll | apps/web/src/api/metadataEdits.ts:138-139 | Retiring answers every open question with 'keep' and no other run |
| EditPage.MetadataEdits.PendingEdits | apps/web/src/api/metadataEdits.ts:57-78 | The first read of a scope shows what storage was already known to show, and changes no list |
| EditPage.MetadataEdits.SendMetadata | apps/web/src/api/metadataEdits.ts:352-374 | What is asked for is in the list afterwards and nothing leaves any list; an identity is issued if and only if no listed edit makes the request; otherwise the first that does is sent as it is, under its own identity, or is on its way; and a request goes out only if the list, and storage when it works, hold it |
| EditPage.MetadataEdits.ChooseEdit | apps/web/src/api/metadataEdits.ts:153-189 | An edit leaves a list only by being discarded here, or when the choice starts a run in a scope whose list was not read; a retry sends the very same request and a review the acknowledged one; what goes out is written first |
| EditPage.MetadataEdits.ReceiveAnswer | apps/web/src/api/metadataEdits.ts:271-324 | A run of an earlier scope touches nothing but itself; an accepted edit leaves its list and the server has applied exactly its request; after any other outcome the edit is listed last and shown with what went wrong, and its owner is asked if anyone listens; no request goes out |
| EditPage.MetadataEdits.TakeChoice | apps/web/src/api/metadataEdits.ts:325-347 | A run of an earlier scope only stops waiting; otherwise its edit leaves exactly if it was discarded, a retry sends the very same request, a review the acknowledged one under a new identity, and what goes out is written first |
| EditPage.MetadataEdits.SetApiBaseUrl | apps/web/src/api/client.ts:128-133 | No run begun before will write or send again, no question stays open, and no list changes |
| EditPage.MetadataEdits.SetActiveLibraryId | apps/web/src/api/client.ts:147-154 | The same when the library changes; nothing at all when it does not |
| EditPage.PageKeepsPromises | apps/web/src/api/metadataEdits.ts:153-374 | A page used through its methods never names an edit twice, never runs one twice at once, never gives one identity to two requests, and has an edit applied at most once more than it was reviewed |
| EditIdentity.StepKeepsEditsGood | apps/web/src/api/metadataEdits.ts:251-349 | Every step keeps each edit, retained, stored or running, tied to the one request its identity was issued for |
| EditIdentity.SameOperationSameRequest | apps/web/src/api/metadataEdits.ts:153-189 | In every history, two requests under one operation identity have the same edit, url, method, body, basis and review map, and every request carries a valid basis |
| EditRequests.RetainedRequestIsResent | apps/web/src/api/metadataEdits.ts:358-363 | In every history, sending a request issues an identity if and only if the active list holds no edit of it; otherwise the first such edit is executed as it is, or joined in the run that carries it |
| EditRequests.RetainedRequestKeepsItsIdentity | apps/web/src/api/metadataEdits.ts:358-363 | As long as a list holds a request, sending it again from there never issues an identity |
| EditRequests.ResumedAnswers | apps/web/src/api/metadataEdits.ts:325-347 | Of a run that goes on: retry attempts the very same edit, review the same request with the offered basis and revision under a new identity, keep and discard send nothing |
| EditRequests.AnswerIsShown | apps/web/src/api/metadataEdits.ts:288-323 | What the owner sees of each answer: which message, conflict and recovery the listed edit carries, whether it is shown, and whether a question opens |
| EditServer.AppliedAtMostOncePerIdentity | apps/web/src/api/metadataEdits.ts:251-349 | Against a server that records operations an edit is applied at most once, plus once for each identity renewed for it |
| EditPromises.SavedEntryWasApplied | apps/web/src/api/metadataEdits.ts:288-306 | The entry that an accepted response removes from a list was applied by the server, with that entry's operation and exactly that entry's request |
| EditReviews.AppliedOncePlusReviews | apps/web/src/api/metadataEdits.ts:169-182 | An edit is applied at most once, plus once for each 'reviewed' of its owner that took effect |
| EditReviews.TwinsIffRepeated | apps/web/src/api/metadataEdits.ts:169-182 | In every history two identities of one edit carry the same request if and only if some earlier step issued one for a request the edit already carried |
| EditReviews.NewReviewsAreTold | apps/web/src/api/metadataEdits.ts:341-347 | As long as every review acknowledges something new, two requests of one edit that ask the same carry one identity |
| EditReviews.AnsweredReviewMakesTwins | apps/web/src/api/metadataEdits.ts:341-347 | In every history, a review that takes effect on an edit whose conflict its owner has already acknowledged leaves the edit with two identities for one request |
| EditHistories.ReviewedTwiceIsAcceptedTwice | apps/web/src/api/metadataEdits.ts:169-182 | A history with a conflict, a review, a reload and the same review, in which two requests ask the same under two identities and the server accepts both under two receipts |
| EditDiscards.DiscardIsFinalIff | apps/web/src/api/metadataEdits.ts:159-167 | After a discard of an edit with no open question, the edit is never seen in that list again, unless its owner has it sent again, if and only if no run of it can still write there and storage lets go of it |
| EditDiscards.ChosenDiscardIsFinalIff | apps/web/src/api/metadataEdits.ts:325-338 | After a discard given at an open question and carried out by its run, the edit is never seen in that list again, unless its owner has it sent again, if and only if storage lets go of it |
| EditPromises.LostIff | apps/web/src/api/metadataEdits.ts:257-338 | An edit the owner can see leaves its list if and only if an accepted response removes it, it is discarded, or a run of another edit starts in this scope before its list is read |
| EditPromises.OnlyWrittenAppears | apps/web/src/api/metadataEdits.ts:257-338 | Nothing appears in any list but the edit the step writes, in the active scope |
| EditPromises.OtherScopesUntouched | apps/web/src/api/metadataEdits.ts:51-54 | A step changes no list of another server or library, in memory or in storage |
| EditScopes.ScopesStayApart | apps/web/src/api/metadataEdits.ts:51-54 | As long as retries and reviews name edits of the list on the screen, no edit is ever shown, stored or running in two scopes |
| EditHistories.RetryOverwritesUnreadList | apps/web/src/api/metadataEdits.ts:257 | A history in which a retry in a scope not yet read overwrites its stored list |
| EditLists.IdsStayUnique | apps/web/src/api/metadataEdits.ts:107-117 | In every history no list, in memory or in storage, names an edit twice |
| EditLists.ReloadReadsBackValidEdits | apps/web/src/api/metadataEdits.ts:57-78 | While storage works, a page that reloads shows for every scope the list it showed before, in order, without the edits that do not pass the check |
| EditLists.SurvivesIffValid | apps/web/src/api/metadataEdits.ts:81-104 | An edit survives a reload if and only if it passes the check, and then with its request, identity and conflict, no stale review, and a message |
| EditAddresses.ValidStaysInLibrary | apps/web/src/api/metadataEdits.ts:81-104 | A recovered edit's address begins with the active library's segments, no segment steps up, and nothing in it ends the path or is decoded |
| EditAddresses.OwnEditPassesIff | apps/web/src/api/metadataEdits.ts:81-104 | An edit the page itself made for a route passes the check if and only if it is a metadata write, no segment is `..` or holds one of four characters, and its acknowledged revisions are small enough |
| EditHistories.InvalidSendIsForgotten | apps/web/src/api/metadataEdits.ts:81-104 | A history in which an edit that does not pass is retained, stored, and gone after a reload |
| EditHistories.DeletingACollectionIsForgotten | apps/web/src/api/client.ts:1632-1633 | Deleting a collection is such an edit, whatever the collection |
| EditRuns.AtMostOneRunPerEdit | apps/web/src/api/metadataEdits.ts:202-208 | In every history two live runs never belong to one edit |
| EditRuns.StepKeepsTidy | apps/web/src/api/metadataEdits.ts:202-208 | Every step keeps the table of runs in flight, the table of waiting questions and the scope each run may write in step with each other |
| EditRuns.RequestIsWrittenFirst | apps/web/src/api/metadataEdits.ts:256-286 | When a request goes out, its run's scope is current, its basis is valid, and the list and working storage already hold exactly that request |
| EditRuns.EarlierRunsAreInert | apps/web/src/api/requestScope.ts:23-38 | After any connection or library advance, even one that returns, a run begun before it changes no list, no shown edit and sends nothing |
| EditRuns.EarlierRunsSendNothing | apps/web/src/api/requestScope.ts:23-38 | What the runs begun before an advance have sent never grows again |
| Sidecar.LocalServer.Info | apps/desktop/src-tauri/src/sidecar.rs:136-149 | Hands out the slot's child only while it lives, and clears the slot of a dead one |
| Sidecar.EachChildHasOneOwner | apps/desktop/src-tauri/src/sidecar.rs:360-388 | In every interleaving each live child is owned by exactly one of the slot, the launching thread or a terminating thread, and one thread at most is inside the startup section |
| Sidecar.DefensiveTerminateNeverRuns | apps/desktop/src-tauri/src/sidecar.rs:376-382 | The slot is empty at every insertion |
| Sidecar.ChildrenAreBounded | apps/desktop/src-tauri/src/sidecar.rs:884-892 | Live children never exceed one plus the threads that are terminating one |
| Sidecar.StartHandsOutTheSlot | apps/desktop/src-tauri/src/sidecar.rs:360-388 | In every run, a call to start that ends in success is handed the server that is in the slot, and whoever looks is handed exactly the slot's living child |
| Sidecar.ConcurrentCallersShareOneServer | apps/desktop/src-tauri/src/sidecar.rs:360-388 | After a caller is handed a server, and without a crash or a shutdown, everyone who looks or asks to start is handed that one server, and no second one is spawned |
| SidecarShutdown.ShutdownIsFinalIff | apps/desktop/src-tauri/src/sidecar.rs:884-892 | Every later moment of rest finds no server alive, unless one is asked for again, if and only if no thread is on its way to inserting one; otherwise the threads can come to rest with one running |
| SidecarShutdown.ShutdownDuringLaunchLeavesServer | apps/desktop/src-tauri/src/sidecar.rs:884-892 | A run in which a shutdown during a launch leaves the server running with every thread idle |
| SidecarShutdown.ShutdownBeforeSpawnLeavesServer | apps/desktop/src-tauri/src/sidecar.rs:884-892 | The same when the shutdown comes before the launch has spawned anything |
| FolderPicks.PendingPick.Store | apps/desktop/src-tauri/src/sidecar.rs:191-199 | After any history of calls, the new pick is the one pending and no earlier one is |
| FolderPicks.PendingPick.Take | apps/desktop/src-tauri/src/sidecar.rs:207-220 | After any history of calls, a token redeems a pick exactly when one minted for it is pending, and then that pick, for the last time |
| FolderPicks.SlotHoldsLatest | apps/desktop/src-tauri/src/sidecar.rs:191-220 | The slot holds a pick exactly when it is the latest stored and no call redeemed it since |
| FolderPicks.RedeemsOwnPickOnce | apps/desktop/src-tauri/src/sidecar.rs:191-220 | With distinct tokens, a token redeems the pick it was minted for, and at most once |
| Paths.SplitUndoesJoin | apps/desktop/src-tauri/src/mappings.rs:806-824 | Joining names with slashes and splitting again gives the names back |
| Filesystem.WalkFindsReal | apps/desktop/src-tauri/src/mappings.rs:287-298 | Canonicalizing finds only paths that exist and are no links, through any chain of links |
| Filesystem.CanonicalizeIsIdempotent | apps/desktop/src-tauri/src/mappings.rs:174-198 | Canonicalizing a canonical path changes nothing |
| Mappings.ValidateRelativePath | apps/desktop/src-tauri/src/mappings.rs:148-172 | The loop accepts exactly the paths with at least one component and only names |
| Mappings.AcceptedIff | apps/desktop/src-tauri/src/mappings.rs:148-172 | On the text: not absolute, no leading dot, no step up anywhere, and at least one name |
| Mappings.ValidatedIsVerified | apps/desktop/src-tauri/src/mappings.rs:251-269 | A proven root is a canonical directory |
| Mappings.ProvenIff | apps/desktop/src-tauri/src/mappings.rs:251-269 | A root is proven if and only if an identity is expected, the mapped folder canonicalizes to that directory, and its manifest carries the identity up to the case of ASCII letters |
| Mappings.RefusedFor | apps/desktop/src-tauri/src/mappings.rs:174-269 | What is wrong first decides the rejection: no identity, not mounted, no folder, no manifest, another identity |
| Mappings.ResolvesIff | apps/desktop/src-tauri/src/mappings.rs:287-317 | A path resolves to a file exactly if it is made of names and really leads there, below the root; the code of a rejection says which of these failed |
| Mappings.ValidatedAgain | apps/desktop/src-tauri/src/mappings.rs:251-269 | Proving a root again by its canonical path proves the same root |
| Mappings.RelativeSegments | apps/desktop/src-tauri/src/mappings.rs:806-824 | The loop joins a path made only of names, and refuses the empty one and any other component |
| Mappings.SegmentsReadBack | apps/desktop/src-tauri/src/mappings.rs:806-824 | The text of a canonical relative path has exactly that path's components |
| Mappings.ReverseMapUnderRoot | apps/desktop/src-tauri/src/mappings.rs:745-761 | The three results are the drops of each category, and together they count every drop |
| Mappings.EveryDropIsReported | apps/desktop/src-tauri/src/mappings.rs:745-761 | The drop at each position is the next one inside, the next one outside, or one more directory |
| Mappings.InsideIff | apps/desktop/src-tauri/src/mappings.rs:778-802 | A drop is inside if and only if it is absolute and its real file lies below the root, and then as the rest of that path |
| Mappings.NotInsideIff | apps/desktop/src-tauri/src/mappings.rs:778-802 | A drop is counted as a directory if and only if it is an absolute path to one, and echoed as outside if and only if it is neither that nor a file below the root |
| Mappings.ReverseThenForward | apps/desktop/src-tauri/src/mappings.rs:287-317 | What a drop is reported as is accepted from the client and resolves to the very file that was dropped |
| Mappings.ForwardThenReverse | apps/desktop/src-tauri/src/mappings.rs:778-824 | Dropping a file that any client path resolved to reports a path that resolves to the same file |
| Mappings.SameReportSameFile | apps/desktop/src-tauri/src/mappings.rs:778-802 | Two drops reported as one path are one file |
| Mappings.OnlyLinksEscape | apps/desktop/src-tauri/src/mappings.rs:300-317 | Where nothing below the root is a link, an accepted path never leaves the root |
| DragOut.ResolveMappedDragPaths | apps/desktop/src-tauri/src/dragout.rs:154-189 | The memoised batch returns the in-order successes of resolving each item alone, or the first item's rejection; the files it returns are exactly those that some item names in a folder carrying its mapping's identity; each library's root is proven once |
| DragOut.SuccessesInPlace | apps/desktop/src-tauri/src/dragout.rs:163-182 | Each item that resolves contributes its own file, in its place, and any other nothing |
| DragOut.OtherLibraryIsRefused | apps/desktop/src-tauri/src/mappings.rs:260-268 | An item whose mapped folder carries another identity is refused as a mismatch |
| DragOut.FailsIffNothingResolves | apps/desktop/src-tauri/src/dragout.rs:184-196 | The batch fails if and only if no item resolves, and then with the first item's own rejection |
| DragOut.AloneIsHandoff | apps/desktop/src-tauri/src/mappings.rs:274-298 | A batch item resolves exactly when a single handoff does, to the same file; the rejection differs exactly when both its root and its path are bad |
| DragOut.DropThenDrag | apps/desktop/src-tauri/src/mappings.rs:745-761 | Dropping files and dragging what was reported inside back out gives exactly the dropped files of the library, in the order they were dropped |

## Left out

- React hooks, rendering, timers, invalidation and refetch traffic: a refetch is an event that
  writes a true value, a dropped query an event that removes one.
- HTTP, JSON, localStorage encoding, Tauri calls, process pipes and health polling: they are
  steps that succeed, fail or lose a reply. Clocks, random tokens and identities are inputs
  that are new when the source draws them.
- The server beyond what the client relies on: it removes before it adds, counts distinct
  bundles, reorders a whole scope, and does not apply a recorded operation twice. Bundles that
  are in no library count are not part of the model.
- Runs.BatchKeepsAgreement: every touched membership must be cached, and so must the collection
  tree when collections change and a figure of them is cached; without them the source predicts
  nothing and neither does the model.
- Organize.NameSortIgnoresInputOrder: `localeCompare` is a rank of names with ids deciding
  ties; collation itself is not modelled. Forest items and file rows have distinct ids.
- Runs.RunKeepsAgreement: a run takes a batch's projection and the server's answer to it as one
  step; what a refusal that arrives after another batch has written leaves behind is
  `Overlaps.LateRefusalIsRightIff`, for two batches. The library changes by batches alone: moves
  of collections and other clients' writes during a run are not steps of it.
- HiddenFiles.FileLists.RestoreSnapshots: the file lists are a cache of their own; a bundle
  stands for its query key.
- EditBasis.MinimumUsableIff: a basis is its parsed epochs and counters, a failed number is
  NaN, and counters are safe integers; the pattern that recognises a basis text is not modelled.
- EditLists.SurvivesIffValid: the type tests of `validPending` hold of every stored entry by its
  type; text that is no list of entries reads as an empty list.
- EditHistories.ReviewedTwiceIsAcceptedTwice: whether the server accepts a request it has no
  record of is a free step. Its own revision guard
  (`apps/server/src/cairndex/metadata/session.py:57-95`), which takes the second request as a
  receipt without a change or refuses it when the unit has moved, is not modelled.
- Two tabs that share localStorage: `publish` writes the whole list of a scope, so one tab can
  overwrite what the other stored; the queue is that of one page.
- `finishDraft`, the refresh events and `rememberVersionBases` after an accepted response, and
  the current and proposed values shown in a conflict: they do not feed back into the queue.
- EditPage.MetadataEdits.ReceiveAnswer: asynchronous continuations are separate methods,
  one for each await, instead of one suspended function; a run's locals are a record.
- Sidecar.EachChildHasOneOwner: `try_wait` always answers, locks are not poisoned, and a
  thread's steps are its critical sections.
- Mappings.ReverseThenForward: Unix paths only; names are valid text, and the volume is case
  sensitive. A manifest reads as missing, unreadable, malformed or an identity. Error messages
  are left out; the codes are kept.
- The connection-only form of the request guard, and the polling inside `terminate` and
  `launch`, of which only the outcomes are modelled.
- Menus, keys, navigation, deep links, exports, media relay headers, packaging and release
  scripts: table lookups and one-branch facts.
