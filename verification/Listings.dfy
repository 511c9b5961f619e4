/** A rewritten listing holds exactly the bundles the new memberships put in it. */
module Listings {
  import opened Core
  import opened Forest
  import opened Counts
  import opened Recount
  import opened CacheModel
  import opened Agreement

  // ----- Rows as ids ----------------------------------------------------------

  lemma IdsAppend(a: seq<Summary>, b: seq<Summary>)
    ensures IdsOf(a + b) == IdsOf(a) + IdsOf(b)
  {
  }

  lemma IdsInit(items: seq<Summary>)
    requires items != []
    ensures IdsOf(items) == IdsOf(Init(items)) + [Last(items).id]
    ensures Elems(IdsOf(items)) == Elems(IdsOf(Init(items))) + {Last(items).id}
  {
    assert items == Init(items) + [Last(items)];
    IdsAppend(Init(items), [Last(items)]);
    assert IdsOf([Last(items)]) == [Last(items).id];
    ElemsAppend(IdsOf(Init(items)), [Last(items).id]);
  }

  lemma {:induction false} KeepElems(items: seq<Summary>, gone: set<Id>)
    ensures Elems(IdsOf(Keep(items, gone))) == Elems(IdsOf(items)) - gone
  {
    if items == [] {
    } else {
      KeepElems(Init(items), gone);
      IdsInit(items);
      if Last(items).id !in gone {
        assert Init(Keep(items, gone)) == Keep(Init(items), gone);
        IdsInit(Keep(items, gone));
      }
    }
  }

  lemma {:induction false} KeepDistinct(items: seq<Summary>, gone: set<Id>)
    requires Distinct(IdsOf(items))
    ensures Distinct(IdsOf(Keep(items, gone)))
  {
    if items == [] {
    } else {
      IdsInit(items);
      DistinctFront(IdsOf(Init(items)), Last(items).id);
      KeepDistinct(Init(items), gone);
      if Last(items).id !in gone {
        assert Init(Keep(items, gone)) == Keep(Init(items), gone);
        IdsInit(Keep(items, gone));
        KeepElems(Init(items), gone);
        DistinctExtend(IdsOf(Keep(Init(items), gone)), Last(items).id);
      }
    }
  }

  lemma DistinctFront(front: seq<Id>, last: Id)
    requires Distinct(front + [last])
    ensures Distinct(front) && last !in front
  {
    var all := front + [last];
    forall i, j | 0 <= i < j < |front|
      ensures front[i] != front[j]
    {
      assert all[i] == front[i] && all[j] == front[j];
    }
    forall i | 0 <= i < |front|
      ensures front[i] != last
    {
      assert all[i] == front[i] && all[|front|] == last;
    }
  }

  lemma DistinctExtend(front: seq<Id>, last: Id)
    ensures Distinct(front) && last !in Elems(front) ==> Distinct(front + [last])
  {
    if Distinct(front) && last !in Elems(front) {
      forall i | 0 <= i < |front|
        ensures front[i] != last
      {
        assert front[i] in Elems(front);
      }
    }
  }

  lemma {:induction false} KeepAll(items: seq<Summary>, gone: set<Id>)
    requires Elems(IdsOf(items)) !! gone
    ensures Keep(items, gone) == items
  {
    if items != [] {
      IdsInit(items);
      assert Last(items).id in Elems(IdsOf(items));
      assert Elems(IdsOf(Init(items))) <= Elems(IdsOf(items));
      KeepAll(Init(items), gone);
      assert items == Init(items) + [Last(items)];
    }
  }

  lemma {:induction false} KeepAppend(a: seq<Summary>, b: seq<Summary>, gone: set<Id>)
    ensures Keep(a + b, gone) == Keep(a, gone) + Keep(b, gone)
    ensures Gone(a + b, gone) == Gone(a, gone) + Gone(b, gone)
  {
    if b == [] {
      assert a + b == a;
    } else {
      assert Init(a + b) == a + Init(b);
      KeepAppend(a, Init(b), gone);
    }
  }

  lemma {:induction false} DepartedIsGone(pages: seq<Page>, leaving: set<Id>)
    ensures Departed(pages, leaving) == Gone(Flat(pages), leaving)
  {
    if pages != [] {
      DepartedIsGone(Init(pages), leaving);
      KeepAppend(Flat(Init(pages)), Last(pages).items, leaving);
    }
  }

  lemma {:induction false} KeptLength(items: seq<Summary>, leaving: set<Id>)
    ensures |Keep(items, leaving)| == |items| - Gone(items, leaving)
  {
    if items != [] {
      KeptLength(Init(items), leaving);
    }
  }

  /** The rewritten pages, read as one list: the arrivals, then every kept row in order. */
  lemma {:induction false} FlatOfPruned(pages: seq<Page>, rewritten: seq<Page>, leaving: set<Id>,
                                        newcomers: seq<Summary>)
    requires |rewritten| == |pages| > 0
    requires forall i :: 0 <= i < |pages| ==> rewritten[i].items == PrunedPage(pages[i], i, leaving, newcomers).items
    ensures Flat(rewritten) == newcomers + Keep(Flat(pages), leaving)
  {
    KeepAppend(Flat(Init(pages)), Last(pages).items, leaving);
    if |pages| == 1 {
      assert Init(pages) == [] && Init(rewritten) == [];
      assert Flat(pages) == Last(pages).items;
      assert Flat(rewritten) == Last(rewritten).items;
    } else {
      FlatOfPruned(Init(pages), Init(rewritten), leaving, newcomers);
    }
  }

  // ----- Who leaves and who arrives -------------------------------------------

  /** A change at position i is its bundle's real move the first time the bundle is
      named, and no move at all after that. */
  lemma ChangeMeaning(holdings: Holdings, ids: seq<Id>, add: set<Id>, remove: set<Id>, changes: seq<MembershipChange>,
                      i: nat)
    requires Reports(holdings, ids, add, remove, changes) && i < |ids|
    ensures var moved := Refiled(holdings[ids[i]], add, remove);
            && Elems(changes[i].after) == moved
            && Elems(changes[i].before) == if ids[i] in ids[..i] then moved else holdings[ids[i]]
  {
    var m := holdings[ids[i]];
    assert Refiled(Refiled(m, add, remove), add, remove) == Refiled(m, add, remove);
  }

  lemma {:induction false} FirstOccurrence(ids: seq<Id>, b: Id) returns (i: nat)
    requires b in ids
    ensures i < |ids| && ids[i] == b && b !in ids[..i]
  {
    if b in Init(ids) {
      i := FirstOccurrence(Init(ids), b);
      assert Init(ids)[..i] == ids[..i];
    } else {
      i := |ids| - 1;
      assert ids == Init(ids) + [Last(ids)];
      assert ids[..i] == Init(ids);
    }
  }

  lemma LeavingMeaning(holdings: Holdings, ids: seq<Id>, add: set<Id>, remove: set<Id>, changes: seq<MembershipChange>,
                       rule: Rule, b: Id)
    requires Reports(holdings, ids, add, remove, changes)
    ensures b in LeavingIds(rule, ids, changes) <==>
            b in ids && Fits(rule, holdings[b]) && !Fits(rule, Refiled(holdings[b], add, remove))
  {
    if b in LeavingIds(rule, ids, changes) {
      var i :| 0 <= i < |ids| && i < |changes| && Leaves(rule, changes[i]) && ids[i] == b;
      ChangeMeaning(holdings, ids, add, remove, changes, i);
    }
    if b in ids && Fits(rule, holdings[b]) && !Fits(rule, Refiled(holdings[b], add, remove)) {
      var i := FirstOccurrence(ids, b);
      ChangeMeaning(holdings, ids, add, remove, changes, i);
      assert Leaves(rule, changes[i]);
    }
  }

  ghost predicate Enters(holdings: Holdings, add: set<Id>, remove: set<Id>, rule: Rule, b: Id)
  {
    b in holdings && !Fits(rule, holdings[b]) && Fits(rule, Refiled(holdings[b], add, remove))
  }

  ghost predicate RowsCarryTheirIds(found: map<Id, Summary>)
  {
    forall b :: b in found ==> found[b].id == b
  }

  lemma {:induction false} FirstRowsCarryIds(rows: seq<Summary>, wanted: set<Id>)
    ensures RowsCarryTheirIds(FirstRows(rows, wanted))
  {
    if rows != [] {
      FirstRowsCarryIds(Init(rows), wanted);
    }
  }

  /** Reports reach each arrival once: rows for the first n changes are distinct and are
      exactly the entering bundles named so far that have a row. */
  /** Each change arrives exactly for a bundle that enters, at its first mention. */
  ghost predicate ArriveOnce(rule: Rule, ids: seq<Id>, changes: seq<MembershipChange>, entering: set<Id>)
  {
    && |changes| == |ids|
    && forall i :: 0 <= i < |ids| ==> (Arrives(rule, changes[i]) <==> ids[i] in entering && ids[i] !in ids[..i])
  }

  lemma {:induction false} ArrivingDrawn(rule: Rule, ids: seq<Id>, changes: seq<MembershipChange>,
                                         found: map<Id, Summary>,
                                         entering: set<Id>, n: nat)
    requires ArriveOnce(rule, ids, changes, entering) && RowsCarryTheirIds(found) && n <= |ids|
    ensures Drawn(ArrivingRows(rule, ids[..n], changes, found), ids[..n], found, entering)
  {
    if n == 0 {
      assert ids[..n] == [];
    } else {
      ArrivingDrawn(rule, ids, changes, found, entering, n - 1);
      DrawnNext(rule, ids, changes, found, entering, n - 1);
    }
  }

  lemma DrawnNext(rule: Rule, ids: seq<Id>, changes: seq<MembershipChange>, found: map<Id, Summary>, entering: set<Id>,
                  n: nat)
    requires n < |ids| && |changes| == |ids| && RowsCarryTheirIds(found)
    requires Drawn(ArrivingRows(rule, ids[..n], changes, found), ids[..n], found, entering)
    requires Arrives(rule, changes[n]) <==> ids[n] in entering && ids[n] !in ids[..n]
    ensures Drawn(ArrivingRows(rule, ids[..n + 1], changes, found), ids[..n + 1], found, entering)
  {
    ArrivingNext(rule, ids, changes, found, n);
    assert ids[..n + 1] == ids[..n] + [ids[n]];
    ArrivalJoins(ArrivingRows(rule, ids[..n], changes, found), ids[..n], ids[n], found, entering,
                 Arrives(rule, changes[n]));
  }

  lemma ArrivingNext(rule: Rule, ids: seq<Id>, changes: seq<MembershipChange>, found: map<Id, Summary>, n: nat)
    requires n < |ids| && |changes| == |ids|
    ensures var earlier := ArrivingRows(rule, ids[..n], changes, found);
            ArrivingRows(rule, ids[..n + 1], changes, found) ==
            if Arrives(rule, changes[n]) && ids[n] in found then earlier + [found[ids[n]]] else earlier
  {
    assert Init(ids[..n + 1]) == ids[..n] && Last(ids[..n + 1]) == ids[n];
  }

  lemma ArrivingMeaning(holdings: Holdings, ids: seq<Id>, add: set<Id>, remove: set<Id>,
                        changes: seq<MembershipChange>, found: map<Id, Summary>, rule: Rule)
    requires Reports(holdings, ids, add, remove, changes) && RowsCarryTheirIds(found)
    ensures Drawn(ArrivingRows(rule, ids, changes, found), ids, found, Entering(holdings, add, remove, rule))
  {
    ReportedArriveOnce(holdings, ids, add, remove, changes, rule);
    ArrivingDrawn(rule, ids, changes, found, Entering(holdings, add, remove, rule), |ids|);
    assert ids[..|ids|] == ids;
  }

  /** A row, once, for each named bundle that enters and can be drawn. */
  ghost predicate Drawn(rows: seq<Summary>, named: seq<Id>, found: map<Id, Summary>, entering: set<Id>)
  {
    && Distinct(IdsOf(rows))
    && forall b :: b in Elems(IdsOf(rows)) <==> b in named && b in found && b in entering
  }

  ghost function Entering(holdings: Holdings, add: set<Id>, remove: set<Id>, rule: Rule): set<Id>
  {
    set b | b in holdings && Enters(holdings, add, remove, rule, b)
  }

  lemma ArrivesIffEnters(holdings: Holdings, ids: seq<Id>, add: set<Id>, remove: set<Id>,
                         changes: seq<MembershipChange>, rule: Rule, i: nat)
    requires Reports(holdings, ids, add, remove, changes) && i < |ids|
    ensures Arrives(rule, changes[i]) <==> ids[i] in Entering(holdings, add, remove, rule) && ids[i] !in ids[..i]
  {
    ChangeMeaning(holdings, ids, add, remove, changes, i);
  }

  lemma ReportedArriveOnce(holdings: Holdings, ids: seq<Id>, add: set<Id>, remove: set<Id>,
                           changes: seq<MembershipChange>, rule: Rule)
    requires Reports(holdings, ids, add, remove, changes)
    ensures ArriveOnce(rule, ids, changes, Entering(holdings, add, remove, rule))
  {
    forall i | 0 <= i < |ids|
      ensures Arrives(rule, changes[i]) <==> ids[i] in Entering(holdings, add, remove, rule) && ids[i] !in ids[..i]
    {
      ArrivesIffEnters(holdings, ids, add, remove, changes, rule, i);
    }
  }

  /** One more named bundle: a row for it joins if it enters, is new and can be drawn. */
  lemma ArrivalJoins(earlier: seq<Summary>, front: seq<Id>, b: Id, found: map<Id, Summary>, entering: set<Id>,
                     arrives: bool)
    requires RowsCarryTheirIds(found) && Drawn(earlier, front, found, entering) &&
             (arrives <==> b in entering && b !in front)
    ensures Drawn(if arrives && b in found then earlier + [found[b]] else earlier, front + [b], found, entering)
  {
    if arrives && b in found {
      RowAppended(earlier, found[b]);
    }
  }

  lemma RowAppended(rows: seq<Summary>, row: Summary)
    ensures Elems(IdsOf(rows + [row])) == Elems(IdsOf(rows)) + {row.id}
    ensures Distinct(IdsOf(rows)) && row.id !in Elems(IdsOf(rows)) ==> Distinct(IdsOf(rows + [row]))
  {
    IdsAppend(rows, [row]);
    assert IdsOf([row]) == [row.id];
    ElemsAppend(IdsOf(rows), [row.id]);
    DistinctExtend(IdsOf(rows), row.id);
  }

  lemma OneRow(row: Summary, total: int)
    ensures Flat([Page([row], total, "")]) == [row] && IdsOf([row]) == [row.id]
    ensures Elems(IdsOf([row])) == {row.id} && Distinct(IdsOf([row]))
  {
    var pages := [Page([row], total, "")];
    assert Init(pages) == [] && Last(pages).items == [row];
    assert IdsOf([row]) == [row.id];
  }

  lemma UndrawableMeaning(holdings: Holdings, ids: seq<Id>, add: set<Id>, remove: set<Id>,
                          changes: seq<MembershipChange>,
                          found: map<Id, Summary>, rule: Rule, b: Id)
    requires Reports(holdings, ids, add, remove, changes)
    requires !Undrawable(rule, ids, changes, found)
    requires b in ids && Enters(holdings, add, remove, rule, b)
    ensures b in found
  {
    var i := FirstOccurrence(ids, b);
    ChangeMeaning(holdings, ids, add, remove, changes, i);
    assert Arrives(rule, changes[i]);
  }

  // ----- The listing ----------------------------------------------------------

  lemma FittingAfter(holdings: Holdings, ids: seq<Id>, add: set<Id>, remove: set<Id>, changes: seq<MembershipChange>,
                     found: map<Id, Summary>, rule: Rule)
    requires Reports(holdings, ids, add, remove, changes) && RowsCarryTheirIds(found)
    requires !Undrawable(rule, ids, changes, found)
    ensures var leaving := LeavingIds(rule, ids, changes);
            var arrived := Elems(IdsOf(ArrivingRows(rule, ids, changes, found)));
            && Fitting(Batched(holdings, Elems(ids), add, remove), rule) ==
                (Fitting(holdings, rule) - leaving) + arrived
            && arrived !! Fitting(holdings, rule)
            && Distinct(IdsOf(ArrivingRows(rule, ids, changes, found)))
  {
    var leaving := LeavingIds(rule, ids, changes);
    ArrivingMeaning(holdings, ids, add, remove, changes, found, rule);
    var arrived := Elems(IdsOf(ArrivingRows(rule, ids, changes, found)));
    var next := Batched(holdings, Elems(ids), add, remove);
    forall b
      ensures b in Fitting(next, rule) <==> b in (Fitting(holdings, rule) - leaving) + arrived
    {
      LeavingMeaning(holdings, ids, add, remove, changes, rule, b);
      if b in ids && Enters(holdings, add, remove, rule, b) {
        UndrawableMeaning(holdings, ids, add, remove, changes, found, rule, b);
      }
    }
  }

  /** The rewritten rows are the arrivals followed by the rows that stay, each bundle once. */
  lemma RewrittenRows(pages: seq<Page>, leaving: set<Id>, arriving: seq<Summary>)
    requires |pages| > 0 && Distinct(IdsOf(Flat(pages)))
    requires Distinct(IdsOf(arriving)) && Elems(IdsOf(arriving)) !! Elems(IdsOf(Flat(pages)))
    ensures var rows := Flat(RewrittenPages(pages, leaving, arriving));
            && rows == arriving + Keep(Flat(pages), leaving)
            && Distinct(IdsOf(rows))
            && Elems(IdsOf(rows)) == Elems(IdsOf(arriving)) + (Elems(IdsOf(Flat(pages))) - leaving)
  {
    KeepAll(arriving, Elems(IdsOf(Flat(pages))));
    FlatOfPruned(pages, RewrittenPages(pages, leaving, arriving), leaving, arriving);
    var kept := Keep(Flat(pages), leaving);
    KeepElems(Flat(pages), leaving);
    KeepDistinct(Flat(pages), leaving);
    IdsAppend(arriving, kept);
    ElemsAppend(IdsOf(arriving), IdsOf(kept));
    DistinctConcat(IdsOf(arriving), IdsOf(kept));
  }

  /** Every page's total moves by exactly what its rows move by. */
  lemma RewrittenTotals(pages: seq<Page>, leaving: set<Id>, arriving: seq<Summary>, p: Page)
    requires Elems(IdsOf(arriving)) !! Elems(IdsOf(Flat(pages)))
    requires forall q :: q in pages ==> q.total == |Flat(pages)|
    requires p in RewrittenPages(pages, leaving, arriving)
    ensures p.total == |arriving + Keep(Flat(pages), leaving)|
  {
    var i :| 0 <= i < |pages| && p == RewrittenPages(pages, leaving, arriving)[i];
    assert pages[i] in pages;
    RewrittenTotal(pages, leaving, arriving, i);
  }

  lemma RewrittenTotal(pages: seq<Page>, leaving: set<Id>, arriving: seq<Summary>, i: nat)
    requires i < |pages| && pages[i].total == |Flat(pages)|
    requires Elems(IdsOf(arriving)) !! Elems(IdsOf(Flat(pages)))
    ensures RewrittenPages(pages, leaving, arriving)[i].total == |arriving + Keep(Flat(pages), leaving)|
  {
    KeepAll(arriving, Elems(IdsOf(Flat(pages))));
    KeptLength(Flat(pages), leaving);
    DepartedIsGone(pages, leaving);
  }

  lemma RewrittenShows(pages: seq<Page>, bundles: set<Id>, leaving: set<Id>, arriving: seq<Summary>)
    requires Shows(pages, bundles)
    requires Distinct(IdsOf(arriving)) && Elems(IdsOf(arriving)) !! bundles
    ensures Shows(RewrittenPages(pages, leaving, arriving), (bundles - leaving) + Elems(IdsOf(arriving)))
  {
    var rewritten := RewrittenPages(pages, leaving, arriving);
    RewrittenRows(pages, leaving, arriving);
    DistinctSize(IdsOf(Flat(pages)));
    DistinctSize(IdsOf(Flat(rewritten)));
    forall p | p in rewritten
      ensures p.total == |Flat(rewritten)|
    {
      RewrittenTotals(pages, leaving, arriving, p);
    }
  }

  lemma SetMinusSize(all: set<Id>, gone: set<Id>)
    requires gone <= all
    ensures |all - gone| == |all| - |gone|
  {
    assert all == (all - gone) + gone;
  }

  lemma MovedTotals(pages: seq<Page>, leaving: set<Id>, arriving: seq<Summary>, total: nat, departed: nat)
    requires Elems(IdsOf(arriving)) !! Elems(IdsOf(Flat(pages)))
    requires forall p :: p in pages ==> p.total == total
    requires departed == Departed(pages, leaving) && departed <= total
    ensures forall p :: p in RewrittenPages(pages, leaving, arriving) ==> p.total == total + |arriving| - departed
  {
    KeepAll(arriving, Elems(IdsOf(Flat(pages))));
    var rewritten := RewrittenPages(pages, leaving, arriving);
    forall i | 0 <= i < |pages|
      ensures rewritten[i].total == total + |arriving| - departed
    {
      assert pages[i] in pages;
    }
  }

  /** Of a listing with true totals and part of its rows, the moved totals are true exactly
      when every leaving bundle was among the loaded rows. */
  lemma DepartedCountsLoadedRows(pages: seq<Page>, bundles: set<Id>, leaving: set<Id>, arriving: seq<Summary>)
    requires PartlyShows(pages, bundles) && leaving <= bundles
    requires Distinct(IdsOf(arriving)) && Elems(IdsOf(arriving)) !! bundles
    ensures (forall p :: p in RewrittenPages(pages, leaving, arriving) ==>
               p.total == |(bundles - leaving) + Elems(IdsOf(arriving))|)
            <==> leaving <= Elems(IdsOf(Flat(pages)))
  {
    var loaded := Elems(IdsOf(Flat(pages)));
    var gone := leaving * loaded;
    DepartedIsLoadedLeaving(pages, leaving);
    SubsetSize(gone, bundles);
    MovedTotals(pages, leaving, arriving, |bundles|, |gone|);
    DistinctSize(IdsOf(arriving));
    SetMinusSize(bundles, leaving);
    assert |(bundles - leaving) + Elems(IdsOf(arriving))| == |bundles| - |leaving| + |arriving|;
    assert RewrittenPages(pages, leaving, arriving)[0] in RewrittenPages(pages, leaving, arriving);
    SetMinusSize(leaving, gone);
    if |gone| == |leaving| {
      assert leaving - gone == {};
    }
  }

  lemma DepartedIsLoadedLeaving(pages: seq<Page>, leaving: set<Id>)
    requires Distinct(IdsOf(Flat(pages)))
    ensures Departed(pages, leaving) == |leaving * Elems(IdsOf(Flat(pages)))|
  {
    var loaded := Elems(IdsOf(Flat(pages)));
    KeptLength(Flat(pages), leaving);
    KeepElems(Flat(pages), leaving);
    KeepDistinct(Flat(pages), leaving);
    DepartedIsGone(pages, leaving);
    DistinctSize(IdsOf(Flat(pages)));
    DistinctSize(IdsOf(Keep(Flat(pages), leaving)));
    assert loaded - leaving == loaded - leaving * loaded;
    SetMinusSize(loaded, leaving * loaded);
  }

  lemma DistinctConcat(a: seq<Id>, b: seq<Id>)
    requires Distinct(a) && Distinct(b) && Elems(a) !! Elems(b)
    ensures Distinct(a + b)
  {
    forall i, j | 0 <= i < j < |a + b|
      ensures (a + b)[i] != (a + b)[j]
    {
      if i < |a| <= j {
        assert a[i] in Elems(a) && b[j - |a|] in Elems(b);
      }
    }
  }

  /** A listing that was fully loaded and true, and is not named as unproven, is true
      of the library after the batch. */
  lemma ProjectedStaysFaithful(pages: seq<Page>, holdings: Holdings, rule: Rule, ids: seq<Id>, add: set<Id>,
                               remove: set<Id>,
                               changes: seq<MembershipChange>, found: map<Id, Summary>)
    requires Faithful(pages, holdings, rule)
    requires Reports(holdings, ids, add, remove, changes) && RowsCarryTheirIds(found)
    requires !Undrawable(rule, ids, changes, found)
    ensures Faithful(ProjectedListing(rule, ids, changes, found, pages), Batched(holdings, Elems(ids), add, remove),
                     rule)
  {
    FittingAfter(holdings, ids, add, remove, changes, found, rule);
    var leaving := LeavingIds(rule, ids, changes);
    var arriving := ArrivingRows(rule, ids, changes, found);
    if leaving == {} && arriving == [] {
      assert Elems(IdsOf(arriving)) == {};
    } else {
      RewrittenShows(pages, Fitting(holdings, rule), leaving, arriving);
    }
  }

  /** The rows that leave the listing are all loaded. */
  ghost predicate DeparturesLoaded(pages: seq<Page>, holdings: Holdings, rule: Rule, bundles: set<Id>, add: set<Id>,
                                   remove: set<Id>)
  {
    forall b ::
      (b in bundles && b in holdings && Fits(rule, holdings[b]) && !Fits(rule, Refiled(holdings[b], add, remove))) ==>
        b in Elems(IdsOf(Flat(pages)))
  }

  lemma LeavingLoaded(pages: seq<Page>, holdings: Holdings, rule: Rule, ids: seq<Id>, add: set<Id>, remove: set<Id>,
                      changes: seq<MembershipChange>)
    requires Reports(holdings, ids, add, remove, changes)
    ensures LeavingIds(rule, ids, changes) <= Elems(IdsOf(Flat(pages))) <==>
            DeparturesLoaded(pages, holdings, rule, Elems(ids), add, remove)
    ensures LeavingIds(rule, ids, changes) <= Fitting(holdings, rule)
  {
    forall b
      ensures b in LeavingIds(rule, ids, changes) <==>
              b in Elems(ids) && b in holdings && Fits(rule, holdings[b]) &&
                  !Fits(rule, Refiled(holdings[b], add, remove))
    {
      if b in ids {
        NamedAreHeld(holdings, ids, add, remove, changes, b);
        LeavingMeaning(holdings, ids, add, remove, changes, rule, b);
      }
    }
  }

  lemma NamedAreHeld(holdings: Holdings, ids: seq<Id>, add: set<Id>, remove: set<Id>, changes: seq<MembershipChange>,
                     b: Id)
    requires Reports(holdings, ids, add, remove, changes) && b in ids
    ensures b in holdings
  {
    var i :| 0 <= i < |ids| && ids[i] == b;
  }

  /** `departed` counts loaded rows only. A partly loaded listing with true totals that is not
      named keeps them through a batch if and only if every bundle the batch takes out of it
      was loaded; and then it is again true as far as it is loaded. */
  lemma TotalsTrueIffDeparturesLoaded(pages: seq<Page>, holdings: Holdings, rule: Rule, ids: seq<Id>, add: set<Id>,
                                      remove: set<Id>,
                                      changes: seq<MembershipChange>, found: map<Id, Summary>)
    requires PartlyShows(pages, Fitting(holdings, rule))
    requires Reports(holdings, ids, add, remove, changes) && RowsCarryTheirIds(found)
    requires !Undrawable(rule, ids, changes, found)
    ensures var after := ProjectedListing(rule, ids, changes, found, pages);
            var bundles := Fitting(Batched(holdings, Elems(ids), add, remove), rule);
            var loaded := DeparturesLoaded(pages, holdings, rule, Elems(ids), add, remove);
            && ((forall p :: p in after ==> p.total == |bundles|) <==> loaded)
            && (PartlyShows(after, bundles) <==> loaded)
  {
    var leaving := LeavingIds(rule, ids, changes);
    var arriving := ArrivingRows(rule, ids, changes, found);
    FittingAfter(holdings, ids, add, remove, changes, found, rule);
    LeavingLoaded(pages, holdings, rule, ids, add, remove, changes);
    if leaving == {} && arriving == [] {
      assert Elems(IdsOf(arriving)) == {};
    } else {
      RewrittenPartly(pages, Fitting(holdings, rule), leaving, arriving);
    }
  }

  lemma RewrittenPartly(pages: seq<Page>, bundles: set<Id>, leaving: set<Id>, arriving: seq<Summary>)
    requires PartlyShows(pages, bundles) && leaving <= bundles
    requires Distinct(IdsOf(arriving)) && Elems(IdsOf(arriving)) !! bundles
    ensures var after, now := RewrittenPages(pages, leaving, arriving), (bundles - leaving) + Elems(IdsOf(arriving));
            && ((forall p :: p in after ==> p.total == |now|) <==> leaving <= Elems(IdsOf(Flat(pages))))
            && (PartlyShows(after, now) <==> leaving <= Elems(IdsOf(Flat(pages))))
  {
    DepartedCountsLoadedRows(pages, bundles, leaving, arriving);
    RewrittenRows(pages, leaving, arriving);
  }

  lemma OneReport(holdings: Holdings, b: Id, add: set<Id>, remove: set<Id>, was: seq<Id>, now: seq<Id>)
    requires b in holdings && Elems(was) == holdings[b] && Elems(now) == Refiled(holdings[b], add, remove)
    ensures Reports(holdings, [b], add, remove, [MembershipChange(was, now)])
  {
    assert [b][..0] == [] && Batched(holdings, {}, add, remove) == holdings;
  }

  /** A listing of two bundles with one row loaded. Taking the other one out leaves the total
      at two. */
  lemma UnloadedDepartureIsNotCounted() returns (pages: seq<Page>, holdings: Holdings, rule: Rule, ids: seq<Id>,
                                                 remove: set<Id>,
                                                 changes: seq<MembershipChange>)
    ensures PartlyShows(pages, Fitting(holdings, rule)) && Reports(holdings, ids, {}, remove, changes)
    ensures !Undrawable(rule, ids, changes, map[])
    ensures exists p :: p in ProjectedListing(rule, ids, changes, map[], pages) &&
              p.total != |Fitting(Batched(holdings, Elems(ids), {}, remove), rule)|
  {
    var a, b, c := Id("a"), Id("b"), Id("c");
    var row := Summary(a, "");
    pages, holdings, rule := [Page([row], 2, "")], map[a := {c}, b := {c}], Direct(c);
    ids, remove, changes := [b], {c}, [MembershipChange([c], [])];
    OneRow(row, 2);
    assert Elems([c]) == {c} && Elems<Id>([]) == {};
    assert Fitting(holdings, rule) == {a, b};
    OneReport(holdings, b, {}, remove, [c], []);
    assert !DeparturesLoaded(pages, holdings, rule, Elems(ids), {}, remove);
    TotalsTrueIffDeparturesLoaded(pages, holdings, rule, ids, {}, remove, changes, map[]);
  }

  /** Every cached listing that a collection write can change is, after the projection,
      either named as unproven or true of the new library whenever it was true of the old
      one. A search or filter, an undrawable arrival, an unknown membership or a missing
      tree all end in the first case. */
  lemma ListingsStayHonest(keys: seq<Key>, before: Cache, after: Cache, bundles: seq<Id>, add: set<Id>, remove: set<Id>,
                           changes: Option<seq<MembershipChange>>, unproven: set<Key>, library: Library, key: Key)
    requires ListingsProjected(keys, before, bundles, changes, after, unproven)
    requires changes.Some? && changes.value == [] ==>
             Batched(library.collections, Elems(bundles), add, remove) == library.collections
    requires changes.Some? && changes.value != [] ==> Reports(library.collections, bundles, add, remove, changes.value)
    requires TreeRows(before).Some? ==> ParentsOf(TreeRows(before).value) == library.parents
    requires key in before && DependsOn(CollectionAxis, key) && WellTyped(before)
    ensures key in after
    ensures var next := library.(collections := Batched(library.collections, Elems(bundles), add, remove));
            || key in unproven
            || (changes == Some([]) && after == before && next == library)
            || (Workable(key) && (ListingFaithful(before, library, key) ==> ListingFaithful(after, next, key)))
  {
    if changes.Some? && changes.value != [] && TreeRows(before).Some? && key !in unproven {
      var found := FirstRows(CachedRows(keys, before), Elems(bundles));
      FirstRowsCarryIds(CachedRows(keys, before), Elems(bundles));
      assert !Unprovable(library.parents, bundles, changes.value, found, key);
      if ListingFaithful(before, library, key) {
        ProjectedStaysFaithful(before[key].pages, library.collections, RuleOf(library.parents, key), bundles, add,
                               remove,
                               changes.value, found);
      }
    }
  }

  // ----- What the projection leaves to the server -----------------------------

  /** What a filter selects, by the server's judgement of a bundle and its memberships. */
  ghost function Selected(holdings: Holdings, judge: (Id, set<Id>) -> bool): set<Id>
  {
    set b | b in holdings && judge(b, holdings[b])
  }

  /** The batch changes no named bundle's place in the filter. */
  ghost predicate FilterUnmoved(holdings: Holdings, bundles: set<Id>, add: set<Id>, remove: set<Id>,
                                judge: (Id, set<Id>) -> bool)
  {
    forall b :: b in bundles && b in holdings ==> judge(b, holdings[b]) == judge(b, Refiled(holdings[b], add, remove))
  }

  /** A filtered view with no collection scope is neither rewritten nor named. So a true one
      stays true if and only if no named bundle's new memberships change the filter's verdict
      on it. */
  lemma UnscopedFilterStaysTrueIff(keys: seq<Key>, before: Cache, after: Cache, bundles: seq<Id>, add: set<Id>,
                                   remove: set<Id>,
                                   changes: Option<seq<MembershipChange>>, unproven: set<Key>, holdings: Holdings,
                                   key: Key, judge: (Id, set<Id>) -> bool)
    requires ListingsProjected(keys, before, bundles, changes, after, unproven)
    requires key in before && key.Browse? && ScopeOf(key.query).None? &&
             key.query.view != MembershipView(CollectionAxis)
    requires before[key].Listing? && Shows(before[key].pages, Selected(holdings, judge))
    ensures key !in unproven && key in after && after[key].Listing?
    ensures Shows(after[key].pages, Selected(Batched(holdings, Elems(bundles), add, remove), judge)) <==>
            FilterUnmoved(holdings, Elems(bundles), add, remove, judge)
  {
    assert after[key] == before[key];
    SelectedMoves(holdings, Elems(bundles), add, remove, judge);
  }

  /** A batch that moves tags only touches no listing, and names Untagged alone. So any other
      true listing, scoped or not, stays true if and only if no named bundle's new tags change
      the verdict on it. */
  lemma TagFilterStaysTrueIff(keys: seq<Key>, payload: BatchUpdate, st: Stages, unproven: set<Key>, tags: Holdings,
                              key: Key, judge: (Id, set<Id>) -> bool)
    requires BatchStages(keys, payload, st, unproven)
    requires payload.addCollections == [] && payload.removeCollections == []
    requires key in st.start && key.Browse? && key.query.view != MembershipView(TagAxis)
    requires st.start[key].Listing? && Shows(st.start[key].pages, Selected(tags, judge))
    ensures key !in unproven && key in st.end && st.end[key].Listing?
    ensures Shows(st.end[key].pages, Selected(Batched(tags, Elems(payload.bundleIds), Elems(payload.addTags),
                                                      Elems(payload.removeTags)), judge))
            <==> FilterUnmoved(tags, Elems(payload.bundleIds), Elems(payload.addTags), Elems(payload.removeTags), judge)
  {
    TagsLeaveListings(keys, payload, st, unproven, key);
    SelectedMoves(tags, Elems(payload.bundleIds), Elems(payload.addTags), Elems(payload.removeTags), judge);
  }

  lemma TagsLeaveListings(keys: seq<Key>, payload: BatchUpdate, st: Stages, unproven: set<Key>, key: Key)
    requires BatchStages(keys, payload, st, unproven)
    requires payload.addCollections == [] && payload.removeCollections == []
    requires key in st.start && key.Browse?
    ensures key in st.end && st.end[key] == st.start[key]
    ensures key.query.view != MembershipView(TagAxis) ==> key !in unproven
  {
    var p := AxisProjected(st.start, CollectionAxis, payload);
    assert p == Projected(st.start, Some([]));
    assert st.listed == st.start;
    MembershipsOverFrame(st.start, TagAxis, payload.bundleIds, payload.addTags, payload.removeTags);
    assert forall b :: key != EntryKey(TagAxis, b);
  }

  lemma SelectedMoves(holdings: Holdings, bundles: set<Id>, add: set<Id>, remove: set<Id>, judge: (Id, set<Id>) -> bool)
    ensures Selected(Batched(holdings, bundles, add, remove), judge) == Selected(holdings, judge) <==>
            FilterUnmoved(holdings, bundles, add, remove, judge)
  {
    var next := Batched(holdings, bundles, add, remove);
    if Selected(next, judge) == Selected(holdings, judge) {
      forall b | b in bundles && b in holdings
        ensures judge(b, holdings[b]) == judge(b, Refiled(holdings[b], add, remove))
      {
        assert b in Selected(next, judge) <==> judge(b, next[b]);
        assert b in Selected(holdings, judge) <==> judge(b, holdings[b]);
      }
    }
  }

  predicate HeldByNothing(b: Id, memberships: set<Id>)
  {
    memberships == {}
  }

  lemma NothingProjected(before: Cache, key: Key, pages: seq<Page>, bundles: seq<Id>, changes: seq<MembershipChange>)
    requires key.Browse? && ScopeOf(key.query).None? && key.query.view == "all"
    requires before == map[key := Listing(pages), CollectionTree := Tree([])] && changes != []
    ensures ListingsProjected([key], before, bundles, Some(changes), before, {})
  {
    assert MembershipView(CollectionAxis) != "all";
    assert before.Keys == {key, CollectionTree};
  }

  /** One bundle in a view filtered to bundles in no collection; filing it leaves the view
      showing it. */
  lemma UnscopedFilterGoesWrong() returns (before: Cache, key: Key, bundles: seq<Id>, add: set<Id>,
                                           changes: seq<MembershipChange>,
                                           holdings: Holdings)
    ensures WellTyped(before) && key in before && ListingsProjected([key], before, bundles, Some(changes), before, {})
    ensures Reports(holdings, bundles, add, {}, changes)
    ensures before[key].Listing? && Shows(before[key].pages, Selected(holdings, HeldByNothing))
    ensures !Shows(before[key].pages, Selected(Batched(holdings, Elems(bundles), add, {}), HeldByNothing))
  {
    var b, c := Id("b"), Id("c");
    var row := Summary(b, "");
    var pages := [Page([row], 1, "")];
    key := Browse(BrowseQuery("all", None, None, "", Some("uncollected"), None, ""));
    before := map[key := Listing(pages), CollectionTree := Tree([])];
    bundles, add, changes, holdings := [b], {c}, [MembershipChange([], [c])], map[b := {}];
    OneRow(row, 1);
    assert Selected(holdings, HeldByNothing) == {b};
    assert Elems([c]) == {c} && Elems<Id>([]) == {};
    OneReport(holdings, b, add, {}, [], [c]);
    NothingProjected(before, key, pages, bundles, changes);
    assert !FilterUnmoved(holdings, Elems(bundles), add, {}, HeldByNothing) by {
      assert b in Elems(bundles) && c in Refiled(holdings[b], add, {});
    }
    UnscopedFilterStaysTrueIff([key], before, before, bundles, add, {}, Some(changes), {}, holdings, key,
                               HeldByNothing);
  }

  /** One untagged bundle in a view filtered to bundles without tags; tagging it leaves the view
      showing it. */
  lemma TagFilterGoesWrong() returns (st: Stages, key: Key, payload: BatchUpdate, tags: Holdings)
    ensures WellTyped(st.start) && key in st.start && key.Browse? && key.query.view != MembershipView(TagAxis)
    ensures BatchStages([], payload, st, {}) && payload.addCollections == [] && payload.removeCollections == []
    ensures Shows(st.start[key].pages, Selected(tags, HeldByNothing)) && key in st.end && st.end[key].Listing?
    ensures !Shows(st.end[key].pages, Selected(Batched(tags, Elems(payload.bundleIds), Elems(payload.addTags), {}),
                                               HeldByNothing))
  {
    var b, t := Id("b"), Id("t");
    var row := Summary(b, "");
    key := Browse(BrowseQuery("all", None, None, "", Some("untagged only"), None, ""));
    payload, tags := BatchUpdate([b], [], [], [t], []), map[b := {}];
    st := UnknownTags(key, [Page([row], 1, "")], payload);
    OneRow(row, 1);
    UntaggedGoesWrong(st, key, payload, tags, b, t);
  }

  lemma UntaggedGoesWrong(st: Stages, key: Key, payload: BatchUpdate, tags: Holdings, b: Id, t: Id)
    requires BatchStages([], payload, st, {}) && payload == BatchUpdate([b], [], [], [t], []) && tags == map[b := {}]
    requires key in st.start && key.Browse? && key.query.view != MembershipView(TagAxis)
    requires st.start[key].Listing? && Shows(st.start[key].pages, {b})
    ensures Shows(st.start[key].pages, Selected(tags, HeldByNothing)) && key in st.end && st.end[key].Listing?
    ensures !Shows(st.end[key].pages, Selected(Batched(tags, Elems(payload.bundleIds), Elems(payload.addTags), {}),
                                               HeldByNothing))
  {
    assert Selected(tags, HeldByNothing) == {b};
    TaggedIsMoved(tags, b, t);
    TagFilterStaysTrueIff([], payload, st, {}, tags, key, HeldByNothing);
  }

  lemma TaggedIsMoved(tags: Holdings, b: Id, t: Id)
    requires b in tags && tags[b] == {}
    ensures !FilterUnmoved(tags, Elems([b]), Elems([t]), {}, HeldByNothing)
  {
    assert b in Elems([b]) && t in Elems([t]);
    assert t in Refiled(tags[b], Elems([t]), {});
  }

  /** A tagging of a bundle whose tags were never loaded projects nothing. */
  lemma UnknownTags(key: Key, pages: seq<Page>, payload: BatchUpdate) returns (st: Stages)
    requires key.Browse? && key.query.view == "all"
    requires |payload.bundleIds| == 1 && payload.addTags != [] && payload.addCollections == [] &&
             payload.removeCollections == []
    ensures st.start == map[key := Listing(pages)] && BatchStages([], payload, st, {})
  {
    var cache: Cache := map[key := Listing(pages)];
    st := Stages(cache, cache, cache, cache, cache, cache);
    assert Init(payload.bundleIds) == [] && Entry(cache, TagAxis, Last(payload.bundleIds)).None?;
    assert MembershipsOver(cache, TagAxis, [], payload.addTags, payload.removeTags) == Projected(cache, Some([]));
    assert AxisProjected(cache, TagAxis, payload) == Projected(cache, None);
    assert ListingsProjected([], cache, payload.bundleIds, Some([]), cache, {});
    assert {} == {} + (set k | k in cache && DependsOn(TagAxis, k));
  }
}
