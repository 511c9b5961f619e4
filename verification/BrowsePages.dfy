/** The reorder as `hooks.ts` runs it: on the pages of cached rows. */
module BrowsePages {
  import opened Core
  import opened Counts
  import opened CacheModel
  import opened Listings
  import opened BrowseOrder

  function OnlyRows(items: seq<Summary>, chosen: set<Id>): (kept: seq<Summary>)
  {
    if items == [] then []
    else if Last(items).id in chosen then OnlyRows(Init(items), chosen) + [Last(items)]
    else OnlyRows(Init(items), chosen)
  }

  /** The row list `moveInBrowsePages` builds before refilling the pages. */
  function MovedRows(all: seq<Summary>, moved: set<Id>, before: Option<Id>): seq<Summary>
  {
    var rest := Keep(all, moved);
    var at := if before.None? then |rest| else Position(IdsOf(rest), before.value);
    rest[..at] + OnlyRows(all, moved) + rest[at..]
  }

  /** `new Map(all.map((i) => [i.id, i]))` */
  function ById(all: seq<Summary>): (byId: map<Id, Summary>)
  {
    if all == [] then map[] else ById(Init(all))[Last(all).id := Last(all)]
  }

  function NamedRows(answer: seq<Id>, byId: map<Id, Summary>): seq<Summary>
  {
    if answer == [] then []
    else if Last(answer) in byId then NamedRows(Init(answer), byId) + [byId[Last(answer)]]
    else NamedRows(Init(answer), byId)
  }

  /** The row list `applyBrowseOrder` builds before refilling the pages. */
  function OrderedRows(all: seq<Summary>, answer: seq<Id>): seq<Summary>
  {
    NamedRows(answer, ById(all)) + Keep(all, Elems(answer))
  }

  /** JavaScript's `slice`, which stops at the end of the list. */
  function Slice<T>(s: seq<T>, from: nat, to: nat): seq<T>
    requires from <= to
  {
    s[Min(from, |s|)..Min(to, |s|)]
  }

  /** Put the rows back into pages of the lengths they had. */
  function Refilled(pages: seq<Page>, ordered: seq<Summary>): (refilled: seq<Page>)
    ensures |refilled| == |pages|
  {
    if pages == [] then []
    else
      var start := |Flat(Init(pages))|;
      Refilled(Init(pages), ordered) +
      [Last(pages).(items := Slice(ordered, start, start + |Last(pages).items|))]
  }

  function MoveInPages(pages: seq<Page>, moved: set<Id>, before: Option<Id>): seq<Page>
  {
    var all := Flat(pages);
    if OnlyRows(all, moved) == [] || (before.Some? && before.value in moved) then pages
    else Refilled(pages, MovedRows(all, moved, before))
  }

  function OrderPages(pages: seq<Page>, answer: seq<Id>): seq<Page>
  {
    Refilled(pages, OrderedRows(Flat(pages), answer))
  }

  /** The refill loop with its running index. */
  method RefillPages(pages: seq<Page>, ordered: seq<Summary>) returns (refilled: seq<Page>)
    ensures refilled == Refilled(pages, ordered)
  {
    refilled := [];
    var idx := 0;
    var i := 0;
    while i < |pages|
      invariant 0 <= i <= |pages|
      invariant idx == |Flat(pages[..i])|
      invariant refilled == Refilled(pages[..i], ordered)
    {
      assert Init(pages[..i + 1]) == pages[..i];
      var items := Slice(ordered, idx, idx + |pages[i].items|);
      idx := idx + |pages[i].items|;
      refilled := refilled + [pages[i].(items := items)];
      i := i + 1;
    }
    assert pages[..i] == pages;
  }

  method MoveInBrowsePages(pages: seq<Page>, movedIds: seq<Id>, before: Option<Id>) returns (moved: seq<Page>)
    ensures moved == MoveInPages(pages, Elems(movedIds), before)
  {
    var all := Flat(pages);
    var moving := Elems(movedIds);
    var block := OnlyRows(all, moving);
    if |block| == 0 || (before.Some? && before.value in moving) {
      return pages;
    }
    var rest := Keep(all, moving);
    var at := if before.None? then |rest| else Position(IdsOf(rest), before.value);
    moved := RefillPages(pages, rest[..at] + block + rest[at..]);
  }

  method ApplyBrowseOrder(pages: seq<Page>, orderedIds: seq<Id>) returns (settled: seq<Page>)
    ensures settled == OrderPages(pages, orderedIds)
  {
    var all := Flat(pages);
    var byId := ById(all);
    var named := NamedRows(orderedIds, byId);
    settled := RefillPages(pages, named + Keep(all, Elems(orderedIds)));
  }

  // ----- Rows and ids ---------------------------------------------------------

  lemma {:induction false} OnlyRowsIds(items: seq<Summary>, chosen: set<Id>)
    ensures IdsOf(OnlyRows(items, chosen)) == Only(IdsOf(items), chosen)
    ensures IdsOf(Keep(items, chosen)) == Without(IdsOf(items), chosen)
  {
    if items != [] {
      var x := Last(items);
      IdsInit(items);
      assert Init(IdsOf(items)) == IdsOf(Init(items)) && Last(IdsOf(items)) == x.id;
      OnlyRowsIds(Init(items), chosen);
      IdsAppend(OnlyRows(Init(items), chosen), [x]);
      IdsAppend(Keep(Init(items), chosen), [x]);
      assert IdsOf([x]) == [x.id];
    }
  }

  lemma MovedRowsIds(all: seq<Summary>, moved: set<Id>, before: Option<Id>)
    ensures IdsOf(MovedRows(all, moved, before)) == Placed(IdsOf(all), moved, before)
  {
    OnlyRowsIds(all, moved);
    var rest := Keep(all, moved);
    var at := if before.None? then |rest| else Position(IdsOf(rest), before.value);
    IdsAppend(rest[..at] + OnlyRows(all, moved), rest[at..]);
    IdsAppend(rest[..at], OnlyRows(all, moved));
    assert IdsOf(rest)[..at] == IdsOf(rest[..at]);
    assert IdsOf(rest)[at..] == IdsOf(rest[at..]);
  }

  lemma {:induction false} ByIdMeaning(all: seq<Summary>)
    ensures ById(all).Keys == Elems(IdsOf(all))
    ensures forall id :: id in ById(all) ==> ById(all)[id].id == id && ById(all)[id] in all
  {
    if all != [] {
      ByIdMeaning(Init(all));
      IdsInit(all);
      assert all == Init(all) + [Last(all)];
    }
  }

  lemma {:induction false} NamedRowsIds(answer: seq<Id>, byId: map<Id, Summary>)
    requires forall id :: id in byId ==> byId[id].id == id
    ensures IdsOf(NamedRows(answer, byId)) == Only(answer, byId.Keys)
    ensures forall r :: r in NamedRows(answer, byId) ==> r.id in byId && byId[r.id] == r
  {
    if answer != [] {
      NamedRowsIds(Init(answer), byId);
      if Last(answer) in byId {
        IdsAppend(NamedRows(Init(answer), byId), [byId[Last(answer)]]);
        assert IdsOf([byId[Last(answer)]]) == [Last(answer)];
      }
    }
  }

  lemma {:induction false} KeptRows(items: seq<Summary>, gone: set<Id>)
    ensures forall r :: r in Keep(items, gone) ==> r in items
    ensures forall r :: r in OnlyRows(items, gone) ==> r in items
    ensures |Keep(items, gone)| + |OnlyRows(items, gone)| == |items|
  {
    if items != [] {
      KeptRows(Init(items), gone);
      assert items == Init(items) + [Last(items)];
    }
  }

  lemma OrderedRowsIds(all: seq<Summary>, answer: seq<Id>)
    ensures IdsOf(OrderedRows(all, answer)) == Settled(IdsOf(all), answer)
    ensures forall r :: r in OrderedRows(all, answer) ==> r in all
  {
    ByIdMeaning(all);
    NamedRowsIds(answer, ById(all));
    OnlyRowsIds(all, Elems(answer));
    KeptRows(all, Elems(answer));
    IdsAppend(NamedRows(answer, ById(all)), Keep(all, Elems(answer)));
  }

  /** With distinct ids, rows drawn from one list are fixed by their ids. */
  lemma SameIdsSameRows(all: seq<Summary>, rows: seq<Summary>)
    requires Distinct(IdsOf(all)) && IdsOf(rows) == IdsOf(all)
    requires forall r :: r in rows ==> r in all
    ensures rows == all
  {
    forall i | 0 <= i < |all|
      ensures rows[i] == all[i]
    {
      assert IdsOf(rows)[i] == rows[i].id && IdsOf(all)[i] == all[i].id;
      assert rows[i] in all;
      var j :| 0 <= j < |all| && all[j] == rows[i];
      assert IdsOf(all)[j] == all[j].id;
    }
  }

  // ----- Pages ----------------------------------------------------------------

  ghost predicate SameShape(pages: seq<Page>, other: seq<Page>)
  {
    && |other| == |pages|
    && forall i :: 0 <= i < |pages| ==> SamePage(pages[i], other[i])
  }

  ghost predicate SamePage(page: Page, other: Page)
  {
    |other.items| == |page.items| && other.total == page.total && other.rest == page.rest
  }

  /** A refill holds the rows in order. */
  lemma {:induction false} RefilledFlat(pages: seq<Page>, ordered: seq<Summary>)
    requires |ordered| >= |Flat(pages)|
    ensures Flat(Refilled(pages, ordered)) == ordered[..|Flat(pages)|]
  {
    if pages != [] {
      RefilledFlat(Init(pages), ordered);
      var start := |Flat(Init(pages))|;
      var slice := Slice(ordered, start, start + |Last(pages).items|);
      var refilled := Refilled(pages, ordered);
      assert Init(refilled) == Refilled(Init(pages), ordered) && Last(refilled).items == slice;
      assert Flat(refilled) == ordered[..start] + slice;
      assert |Flat(pages)| == start + |Last(pages).items|;
      assert ordered[..start] + slice == ordered[..|Flat(pages)|];
    }
  }

  /** A refill keeps every page's length and other fields. */
  lemma {:induction false} RefilledShape(pages: seq<Page>, ordered: seq<Summary>)
    requires |ordered| >= |Flat(pages)|
    ensures SameShape(pages, Refilled(pages, ordered))
  {
    if pages != [] {
      RefilledShape(Init(pages), ordered);
      var refilled := Refilled(pages, ordered);
      assert Init(refilled) == Refilled(Init(pages), ordered);
      forall i | 0 <= i < |pages|
        ensures SamePage(pages[i], refilled[i])
      {
        if i < |pages| - 1 {
          assert SamePage(Init(pages)[i], Init(refilled)[i]);
        }
      }
    }
  }

  lemma {:induction false} RefilledSame(pages: seq<Page>, ordered: seq<Summary>)
    requires Flat(pages) <= ordered
    ensures Refilled(pages, ordered) == pages
  {
    if pages != [] {
      assert Flat(pages) == Flat(Init(pages)) + Last(pages).items;
      RefilledSame(Init(pages), ordered);
      var start := |Flat(Init(pages))|;
      assert Slice(ordered, start, start + |Last(pages).items|) == Last(pages).items;
      assert pages == Init(pages) + [Last(pages)];
    }
  }

  lemma MovePages(pages: seq<Page>, moved: set<Id>, before: Option<Id>)
    ensures var guess := MoveInPages(pages, moved, before);
            && SameShape(pages, guess)
            && IdsOf(Flat(guess)) == ClientMove(IdsOf(Flat(pages)), moved, before)
            && forall r :: r in Flat(guess) ==> r in Flat(pages)
  {
    var all := Flat(pages);
    OnlyRowsIds(all, moved);
    if !(OnlyRows(all, moved) == [] || (before.Some? && before.value in moved)) {
      MovedRowsIds(all, moved, before);
      KeptRows(all, moved);
      var rows := MovedRows(all, moved, before);
      assert |rows| == |all|;
      RefilledFlat(pages, rows);
      RefilledShape(pages, rows);
      assert rows[..|all|] == rows;
      assert forall r :: r in rows ==> r in all;
    }
  }

  lemma OrderPagesMeaning(pages: seq<Page>, answer: seq<Id>)
    requires |Settled(IdsOf(Flat(pages)), answer)| == |Flat(pages)|
    ensures var settled := OrderPages(pages, answer);
            && SameShape(pages, settled)
            && IdsOf(Flat(settled)) == Settled(IdsOf(Flat(pages)), answer)
            && forall r :: r in Flat(settled) ==> r in Flat(pages)
  {
    OrderedRowsIds(Flat(pages), answer);
    RefilledFlat(pages, OrderedRows(Flat(pages), answer));
    RefilledShape(pages, OrderedRows(Flat(pages), answer));
  }

  lemma {:induction false} OnlyDistinct(order: seq<Id>, chosen: set<Id>)
    requires Distinct(order)
    ensures Distinct(Only(order, chosen))
    ensures Distinct(Without(order, chosen))
  {
    if order != [] {
      assert order == Init(order) + [Last(order)];
      DistinctFront(Init(order), Last(order));
      OnlyDistinct(Init(order), chosen);
      OnlyElems(Init(order), chosen);
      WithoutElems(Init(order), chosen);
      DistinctExtend(Only(Init(order), chosen), Last(order));
      DistinctExtend(Without(Init(order), chosen), Last(order));
    }
  }

  lemma PlacedDistinct(order: seq<Id>, moved: set<Id>, before: Option<Id>)
    requires Distinct(order)
    ensures Distinct(Placed(order, moved, before))
  {
    var rest, block := Without(order, moved), Only(order, moved);
    var at := if before.None? then |rest| else Position(rest, before.value);
    OnlyDistinct(order, moved);
    assert rest == rest[..at] + rest[at..];
    ElemsAppend(rest[..at], rest[at..]);
    WithoutElems(order, moved);
    OnlyElems(order, moved);
    DistinctConcat(rest[..at], block);
    forall i, j | 0 <= i < |rest[..at]| && 0 <= j < |rest[at..]|
      ensures rest[..at][i] != rest[at..][j]
    {
      assert rest[i] != rest[at + j];
    }
    ElemsAppend(rest[..at], block);
    DistinctConcat(rest[..at] + block, rest[at..]);
  }

  lemma SameShapeTransitive(a: seq<Page>, b: seq<Page>, c: seq<Page>)
    requires SameShape(a, b) && SameShape(b, c)
    ensures SameShape(a, c)
  {
    forall i | 0 <= i < |a|
      ensures SamePage(a[i], c[i])
    {
      assert SamePage(a[i], b[i]) && SamePage(b[i], c[i]);
    }
  }

  /** Rows that are already in the answer's order stay where they are. */
  lemma SettleInPlace(guess: seq<Page>, answer: seq<Id>)
    requires Distinct(IdsOf(Flat(guess))) && Settled(IdsOf(Flat(guess)), answer) == IdsOf(Flat(guess))
    ensures OrderPages(guess, answer) == guess
  {
    OrderedRowsIds(Flat(guess), answer);
    SameIdsSameRows(Flat(guess), OrderedRows(Flat(guess), answer));
    RefilledSame(guess, OrderedRows(Flat(guess), answer));
  }

  /** The whole gesture on one listing. Its rows are some loaded part of the scope's
      order. After the guess and the server's answer the rows are that part of the
      server's new order, every page keeps its length and its total, and no row is lost
      or doubled. */
  lemma GuessThenSettle(pages: seq<Page>, full: seq<Id>, loaded: set<Id>, moved: set<Id>, before: Option<Id>)
    requires Distinct(full) && IdsOf(Flat(pages)) == Only(full, loaded)
    ensures var answer := ServerMove(full, moved, before);
            var settled := OrderPages(MoveInPages(pages, moved, before), answer);
            && SameShape(pages, settled)
            && IdsOf(Flat(settled)) == Only(answer, loaded)
            && Distinct(IdsOf(Flat(settled)))
            && Elems(Flat(settled)) == Elems(Flat(pages))
  {
    var answer := ServerMove(full, moved, before);
    var guess := MoveInPages(pages, moved, before);
    MovePages(pages, moved, before);
    SettledPages(pages, guess, answer, Only(full, loaded), Only(answer, loaded)) by {
      SettleAgreesWithServer(full, loaded, moved, before);
      AnswerFacts(full, loaded, moved, before);
      OnlyDistinct(full, loaded);
    }
  }

  /** Settling rows of one shape into a list of the same distinct ids. */
  lemma SettledPages(pages: seq<Page>, guess: seq<Page>, answer: seq<Id>, ids: seq<Id>, target: seq<Id>)
    requires SameShape(pages, guess) && forall r :: r in Flat(guess) ==> r in Flat(pages)
    requires IdsOf(Flat(pages)) == ids && Distinct(ids) && |IdsOf(Flat(guess))| == |ids|
    requires Settled(IdsOf(Flat(guess)), answer) == target
    requires Distinct(target) && |target| == |ids| && Elems(target) == Elems(ids)
    ensures var settled := OrderPages(guess, answer);
            && SameShape(pages, settled)
            && IdsOf(Flat(settled)) == target && Distinct(IdsOf(Flat(settled)))
            && Elems(Flat(settled)) == Elems(Flat(pages))
  {
    OrderPagesMeaning(guess, answer);
    SameShapeTransitive(pages, guess, OrderPages(guess, answer));
    SameRowSet(Flat(pages), Flat(OrderPages(guess, answer)));
  }

  /** With the drop target at the end or loaded, the server's answer moves nothing that
      the guess had not already moved: the cached pages are unchanged by it. */
  lemma SettleMovesNothing(pages: seq<Page>, full: seq<Id>, loaded: set<Id>, moved: set<Id>, before: Option<Id>)
    requires Distinct(full) && IdsOf(Flat(pages)) == Only(full, loaded)
    requires before.Some? ==> before.value in full && before.value in loaded
    ensures var guess := MoveInPages(pages, moved, before);
            OrderPages(guess, ServerMove(full, moved, before)) == guess
  {
    MovePages(pages, moved, before);
    GuessIsRestriction(full, loaded, moved, before);
    SettleAgreesWithServer(full, loaded, moved, before);
    AnswerFacts(full, loaded, moved, before);
    SettleInPlace(MoveInPages(pages, moved, before), ServerMove(full, moved, before));
  }

  lemma AnswerFacts(full: seq<Id>, loaded: set<Id>, moved: set<Id>, before: Option<Id>)
    requires Distinct(full)
    ensures var answer := ServerMove(full, moved, before);
            && Distinct(answer) && Distinct(Only(answer, loaded))
            && Elems(Only(answer, loaded)) == Elems(Only(full, loaded))
            && |Only(answer, loaded)| == |Only(full, loaded)|
            && |ClientMove(Only(full, loaded), moved, before)| == |Only(full, loaded)|
            && Distinct(ClientMove(Only(full, loaded), moved, before))
  {
    var answer := ServerMove(full, moved, before);
    var small := Only(full, loaded);
    PlacedElems(full, moved, before);
    PlacedDistinct(full, moved, before);
    OnlyDistinct(full, loaded);
    OnlyDistinct(answer, loaded);
    OnlyElems(full, loaded);
    OnlyElems(answer, loaded);
    PlacedElems(small, moved, before);
    PlacedDistinct(small, moved, before);
    DistinctSize(Only(answer, loaded));
    DistinctSize(small);
    DistinctSize(ClientMove(small, moved, before));
  }

  lemma SameRowSet(all: seq<Summary>, rows: seq<Summary>)
    requires Distinct(IdsOf(all)) && Elems(IdsOf(rows)) == Elems(IdsOf(all))
    requires forall r :: r in rows ==> r in all
    ensures Elems(rows) == Elems(all)
  {
    forall r | r in all
      ensures r in rows
    {
      var i :| 0 <= i < |all| && all[i] == r;
      assert IdsOf(all)[i] == r.id && r.id in Elems(IdsOf(all));
      assert r.id in Elems(IdsOf(rows));
      var j :| 0 <= j < |rows| && IdsOf(rows)[j] == r.id;
      assert rows[j] in all;
      var k :| 0 <= k < |all| && all[k] == rows[j];
      assert IdsOf(all)[k] == rows[j].id;
    }
  }

  // ----- Which listings a reorder touches --------------------------------------

  /** `manualScopeOf`: outer None when the listing is not on manual sort; inner None for
      the one global order. */
  function ManualScopeOf(query: BrowseQuery): Option<Option<Id>>
  {
    if query.sort != "manual" then None
    else if query.collectionId.Some? && query.includeDescendants != Some(true) then Some(query.collectionId)
    else Some(None)
  }

  predicate Affected(key: Key, scope: Option<Id>)
  {
    key.Browse? && ManualScopeOf(key.query) == Some(scope)
  }
}
