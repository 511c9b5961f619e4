/** Dragging files out (`dragout.rs`): one batch, each library root proven once. */
module DragOut {
  import opened Core
  import opened Paths
  import opened Filesystem
  import opened Mappings

  datatype DragOutItem = DragOutItem(libraryId: string, relativePath: string)

  /** One item on its own: prove its library's root, then resolve its path. */
  function Alone(world: World, mappings: map<string, MappingRecord>, item: DragOutItem): Result<Path>
  {
    match VerifiedRootFor(world, mappings, item.libraryId)
    case Err(code) => Err(code)
    case Ok(root) => ResolveWithinVerifiedRoot(world.host, root, item.relativePath)
  }

  function Successes(world: World, mappings: map<string, MappingRecord>, items: seq<DragOutItem>): seq<Path>
  {
    if items == [] then []
    else
      match Alone(world, mappings, Last(items))
      case Ok(path) => Successes(world, mappings, Init(items)) + [path]
      case Err(_) => Successes(world, mappings, Init(items))
  }

  function FirstFailure(world: World, mappings: map<string, MappingRecord>, items: seq<DragOutItem>): Option<ErrorCode>
  {
    if items == [] then None
    else
      match FirstFailure(world, mappings, Init(items))
      case Some(code) => Some(code)
      case None =>
        match Alone(world, mappings, Last(items))
        case Ok(_) => None
        case Err(code) => Some(code)
  }

  function LibrariesOf(items: seq<DragOutItem>): set<string>
  {
    set item | item in items :: item.libraryId
  }

  /** What the batch owes its caller. */
  function Outcome(world: World, mappings: map<string, MappingRecord>, items: seq<DragOutItem>): Result<seq<Path>>
  {
    if Successes(world, mappings, items) != [] then Ok(Successes(world, mappings, items))
    else if items == [] then Err(NoDraggableFiles)
    else match Alone(world, mappings, items[0]) case Err(code) => Err(code) case Ok(_) => Err(NoDraggableFiles)
  }

  /** `capture`: only the first rejection is recorded. */
  function Capture(slot: Option<ErrorCode>, code: ErrorCode): Option<ErrorCode>
  {
    if slot.None? then Some(code) else slot
  }

  function Added(found: seq<Path>, answer: Result<Path>): seq<Path>
  {
    if answer.Ok? then found + [answer.value] else found
  }

  function Noted(slot: Option<ErrorCode>, answer: Result<Path>): Option<ErrorCode>
  {
    if answer.Err? then Capture(slot, answer.code) else slot
  }

  function Proven(root: Result<Path>): Option<Path>
  {
    match root
    case Ok(path) => Some(path)
    case Err(_) => None
  }

  /** The loop's memory after some of the items. */
  ghost predicate Remembers(world: World, mappings: map<string, MappingRecord>, items: seq<DragOutItem>,
                            roots: map<string, Option<Path>>, verified: seq<string>, firstError: Option<ErrorCode>)
  {
    && Distinct(verified) && Elems(verified) == LibrariesOf(items) && roots.Keys == LibrariesOf(items)
    && (forall id :: id in roots ==> roots[id] == Proven(VerifiedRootFor(world, mappings, id)))
    && (forall id :: id in roots && roots[id].None? ==> firstError.Some?)
  }

  /** `resolve_mapped_drag_paths`. `verified` logs the libraries whose root was proven. */
  method ResolveMappedDragPaths(world: World, mappings: map<string, MappingRecord>, items: seq<DragOutItem>)
    returns (result: Result<seq<Path>>, ghost verified: seq<string>)
    ensures result == Outcome(world, mappings, items)
    ensures result.Ok? ==> forall p :: p in result.value <==> NamedBySome(world, mappings, items, p)
    ensures result.Err? ==> forall p :: !NamedBySome(world, mappings, items, p)
    ensures Distinct(verified) && Elems(verified) == LibrariesOf(items)
  {
    var roots: map<string, Option<Path>> := map[];
    var resolved: seq<Path> := [];
    var firstError: Option<ErrorCode> := None;
    verified := [];
    for i := 0 to |items|
      invariant resolved == Successes(world, mappings, items[..i])
      invariant firstError == FirstFailure(world, mappings, items[..i])
      invariant Remembers(world, mappings, items[..i], roots, verified, firstError)
    {
      assert items[..i + 1] == items[..i] + [items[i]];
      resolved, roots, firstError, verified := TakeItem(world, mappings, items[..i], items[i], resolved, roots,
                                                        firstError, verified);
    }
    assert items[..|items|] == items;
    forall p
      ensures p in resolved <==> NamedBySome(world, mappings, items, p)
    {
      DraggedFromItsLibrary(world, mappings, items, p);
    }
    if resolved == [] {
      FirstFailureIsFirst(world, mappings, items);
      result := Err(if firstError.Some? then firstError.value else NoDraggableFiles);
    } else {
      result := Ok(resolved);
    }
  }

  /** The loop's body. */
  method TakeItem(world: World, mappings: map<string, MappingRecord>, ghost before: seq<DragOutItem>, item: DragOutItem,
                  start: seq<Path>, known: map<string, Option<Path>>, error: Option<ErrorCode>, ghost log: seq<string>)
    returns (resolved: seq<Path>, roots: map<string, Option<Path>>, firstError: Option<ErrorCode>,
             ghost verified: seq<string>)
    requires start == Successes(world, mappings, before) && error == FirstFailure(world, mappings, before)
    requires Remembers(world, mappings, before, known, log, error)
    ensures resolved == Successes(world, mappings, before + [item])
    ensures firstError == FirstFailure(world, mappings, before + [item])
    ensures Remembers(world, mappings, before + [item], roots, verified, firstError)
  {
    resolved := start;
    roots, firstError, verified := RememberRoot(world, mappings, before, item, known, error, log);
    AppendItem(world, mappings, before, item);
    if roots[item.libraryId].Some? {
      var answer := ResolveWithinVerifiedRoot(world.host, roots[item.libraryId].value, item.relativePath);
      AloneWith(world, mappings, item, roots[item.libraryId].value);
      if answer.Ok? {
        resolved := resolved + [answer.value];
      } else {
        firstError := Capture(firstError, answer.code);
      }
    }
  }

  /** The first item of a library proves its root; later ones find it remembered. */
  method RememberRoot(world: World, mappings: map<string, MappingRecord>, ghost before: seq<DragOutItem>,
                      item: DragOutItem,
                      known: map<string, Option<Path>>, error: Option<ErrorCode>, ghost log: seq<string>)
    returns (roots: map<string, Option<Path>>, firstError: Option<ErrorCode>, ghost verified: seq<string>)
    requires Remembers(world, mappings, before, known, log, error)
    ensures item.libraryId in roots && Remembers(world, mappings, before + [item], roots, verified, firstError)
    ensures firstError == Noted(error, VerifiedRootFor(world, mappings, item.libraryId))
  {
    roots, firstError, verified := known, error, log;
    LibrariesAppend(before, item);
    if item.libraryId in roots {
      KnownRoot(world, mappings, before, item, known, error, log);
    } else {
      var proven := VerifiedRootFor(world, mappings, item.libraryId);
      verified := verified + [item.libraryId];
      if proven.Err? {
        firstError := Capture(firstError, proven.code);
      }
      roots := roots[item.libraryId := Proven(proven)];
      NewRoot(world, mappings, before, item, known, error, log);
    }
  }

  lemma KnownRoot(world: World, mappings: map<string, MappingRecord>, before: seq<DragOutItem>, item: DragOutItem,
                  known: map<string, Option<Path>>, error: Option<ErrorCode>, log: seq<string>)
    requires Remembers(world, mappings, before, known, log, error) && item.libraryId in known
    ensures Remembers(world, mappings, before + [item], known, log, error)
    ensures error == Noted(error, VerifiedRootFor(world, mappings, item.libraryId))
  {
    LibrariesAppend(before, item);
  }

  lemma NewRoot(world: World, mappings: map<string, MappingRecord>, before: seq<DragOutItem>, item: DragOutItem,
                known: map<string, Option<Path>>, error: Option<ErrorCode>, log: seq<string>)
    requires Remembers(world, mappings, before, known, log, error) && item.libraryId !in known
    ensures var proven := VerifiedRootFor(world, mappings, item.libraryId);
            Remembers(world, mappings, before + [item], known[item.libraryId := Proven(proven)],
                      log + [item.libraryId], Noted(error, proven))
  {
    LibrariesAppend(before, item);
    ElemsAppend(log, [item.libraryId]);
  }

  lemma AloneWith(world: World, mappings: map<string, MappingRecord>, item: DragOutItem, root: Path)
    requires VerifiedRootFor(world, mappings, item.libraryId) == Ok(root)
    ensures Alone(world, mappings, item) == ResolveWithinVerifiedRoot(world.host, root, item.relativePath)
  {
  }

  lemma AppendItem(world: World, mappings: map<string, MappingRecord>, items: seq<DragOutItem>, item: DragOutItem)
    ensures Successes(world, mappings, items + [item]) ==
            Added(Successes(world, mappings, items), Alone(world, mappings, item))
    ensures FirstFailure(world, mappings, items + [item]) ==
            Noted(FirstFailure(world, mappings, items), Alone(world, mappings, item))
  {
    assert Init(items + [item]) == items && Last(items + [item]) == item;
  }

  lemma LibrariesAppend(items: seq<DragOutItem>, item: DragOutItem)
    ensures LibrariesOf(items + [item]) == LibrariesOf(items) + {item.libraryId}
  {
    assert item in items + [item];
    forall id | id in LibrariesOf(items)
      ensures id in LibrariesOf(items + [item])
    {
      var i :| i in items && i.libraryId == id;
      assert i in items + [item];
    }
  }

  /** When nothing resolves, the first failure is the first item's own. */
  lemma {:induction false} FirstFailureIsFirst(world: World, mappings: map<string, MappingRecord>,
                                               items: seq<DragOutItem>)
    requires Successes(world, mappings, items) == []
    ensures items == [] ==> FirstFailure(world, mappings, items) == None
    ensures items != [] ==>
              Alone(world, mappings, items[0]).Err? &&
              FirstFailure(world, mappings, items) == Some(Alone(world, mappings, items[0]).code)
  {
    if |items| > 1 {
      FirstFailureIsFirst(world, mappings, Init(items));
    } else if |items| == 1 {
      assert Init(items) == [];
    }
  }

  lemma {:induction false} NothingResolvesIff(world: World, mappings: map<string, MappingRecord>,
                                              items: seq<DragOutItem>)
    ensures Successes(world, mappings, items) == [] <==>
            forall item :: item in items ==> Alone(world, mappings, item).Err?
  {
    if items != [] {
      var front, last := Init(items), Last(items);
      NothingResolvesIff(world, mappings, front);
      assert items == front + [last];
      AppendItem(world, mappings, front, last);
      assert Successes(world, mappings, items) == [] <==>
             Successes(world, mappings, front) == [] && Alone(world, mappings, last).Err?;
      assert last in items && forall item :: item in items <==> item in front || item == last;
    }
  }

  /** A batch fails exactly when no item resolves, and then with the first item's own
      rejection, or with none of its own when the batch is empty. */
  lemma FailsIffNothingResolves(world: World, mappings: map<string, MappingRecord>, items: seq<DragOutItem>)
    ensures Outcome(world, mappings, items).Err? <==> forall item :: item in items ==> Alone(world, mappings, item).Err?
    ensures Outcome(world, mappings, items).Err? && items != [] ==>
              Alone(world, mappings, items[0]) == Err(Outcome(world, mappings, items).code)
  {
    NothingResolvesIff(world, mappings, items);
  }

  /** A batch item resolves exactly when handing it over alone would, and to the same file;
      when both its root and its path are bad, the two blame different ones. */
  lemma AloneIsHandoff(world: World, mappings: map<string, MappingRecord>, item: DragOutItem)
    requires LibraryIdIsSafe(item.libraryId) && item.libraryId in mappings
    ensures var record := mappings[item.libraryId];
            var handoff := ResolveVerifiedPath(world, record.localRoot, record.libraryUuid, item.relativePath);
            var root := ValidateLibraryRoot(world, record.localRoot, record.libraryUuid);
            && (Alone(world, mappings, item).Ok? <==> handoff.Ok?)
            && (Alone(world, mappings, item) == handoff <==> root.Ok? || ValidateRelative(item.relativePath).Ok?)
  {
    var record := mappings[item.libraryId];
    ValidationBlamesTheRoot(world, record.localRoot, record.libraryUuid);
  }

  lemma ValidationBlamesTheRoot(world: World, localRoot: string, expectedUuid: string)
    ensures ValidateLibraryRoot(world, localRoot, expectedUuid) != Err(InvalidRelativePath)
  {
  }

  // ----- Whose files they are -------------------------------------------------

  /** This file is what the item names: its library is mapped to a folder that carries the
      mapped identity, and its path leads there, inside that folder. */
  predicate BelongsTo(world: World, mappings: map<string, MappingRecord>, item: DragOutItem, root: Path, p: Path)
  {
    && item.libraryId in mappings
    && var record := mappings[item.libraryId];
    && record.libraryUuid != "" && Canonicalize(world.host, record.localRoot) == Found(root)
    && IsDir(world.host.tree, root) && IsLibrary(world, root, record.libraryUuid)
    && Accepted(Components(item.relativePath))
    && CanonicalizeUnder(world.host, root, item.relativePath) == Found(p) && root <= p
  }

  /** An item resolves to exactly the file of its own library that it names. */
  lemma AloneIff(world: World, mappings: map<string, MappingRecord>, item: DragOutItem, p: Path)
    ensures Alone(world, mappings, item) == Ok(p) <==>
              LibraryIdIsSafe(item.libraryId) && exists root :: BelongsTo(world, mappings, item, root, p)
  {
    if LibraryIdIsSafe(item.libraryId) && item.libraryId in mappings {
      var record := mappings[item.libraryId];
      forall root
        ensures BelongsTo(world, mappings, item, root, p) <==>
                  ValidateLibraryRoot(world, record.localRoot, record.libraryUuid) == Ok(root) &&
                  ResolveWithinVerifiedRoot(world.host, root, item.relativePath) == Ok(p)
      {
        ProvenIff(world, record.localRoot, record.libraryUuid, root);
        ResolvesIff(world.host, root, item.relativePath, p);
      }
      var proof := ValidateLibraryRoot(world, record.localRoot, record.libraryUuid);
      if proof.Ok? {
        assert BelongsTo(world, mappings, item, proof.value, p) <==> Alone(world, mappings, item) == Ok(p);
      }
    }
  }

  /** An unsafe id, and a library that is not mapped, are refused before any folder is looked at;
      a bad folder before the path is. */
  lemma RefusedInTurn(world: World, mappings: map<string, MappingRecord>, item: DragOutItem)
    ensures var answer := Alone(world, mappings, item);
            if !LibraryIdIsSafe(item.libraryId) then answer == Err(InvalidLibraryId)
            else if item.libraryId !in mappings then answer == Err(LibraryUnmapped)
            else
              var record := mappings[item.libraryId];
              var proof := ValidateLibraryRoot(world, record.localRoot, record.libraryUuid);
              answer == if proof.Err? then Err(proof.code)
                        else ResolveWithinVerifiedRoot(world.host, proof.value, item.relativePath)
  {
  }

  /** A mapped folder that carries another identity is refused as a mismatch. */
  lemma OtherLibraryIsRefused(world: World, mappings: map<string, MappingRecord>, item: DragOutItem, root: Path)
    requires LibraryIdIsSafe(item.libraryId) && item.libraryId in mappings && mappings[item.libraryId].libraryUuid != ""
    requires Canonicalize(world.host, mappings[item.libraryId].localRoot) == Found(root) && IsDir(world.host.tree, root)
    requires root in world.manifests && world.manifests[root].Manifest?
    requires !SameButForCase(world.manifests[root].libraryUuid, mappings[item.libraryId].libraryUuid)
    ensures Alone(world, mappings, item) == Err(LibraryMismatch)
  {
    var record := mappings[item.libraryId];
    RefusedFor(world, record.localRoot, record.libraryUuid);
    ProvenIff(world, record.localRoot, record.libraryUuid, root);
  }

  lemma {:induction false} EarlierSuccessesLead(world: World, mappings: map<string, MappingRecord>,
                                                items: seq<DragOutItem>, i: nat)
    requires i <= |items|
    ensures Successes(world, mappings, items[..i]) <= Successes(world, mappings, items)
  {
    if i == |items| {
      assert items[..i] == items;
    } else {
      EarlierSuccessesLead(world, mappings, Init(items), i);
      assert Init(items)[..i] == items[..i] && items == Init(items) + [Last(items)];
      AppendItem(world, mappings, Init(items), Last(items));
    }
  }

  /** Each item that resolves contributes its own file, in its place, and any other nothing. */
  lemma SuccessesInPlace(world: World, mappings: map<string, MappingRecord>, items: seq<DragOutItem>, i: nat)
    requires i < |items|
    ensures Added(Successes(world, mappings, items[..i]), Alone(world, mappings, items[i])) <=
            Successes(world, mappings, items)
    ensures Added(Successes(world, mappings, items[..i]), Alone(world, mappings, items[i])) ==
            Successes(world, mappings, items[..i + 1])
  {
    EarlierSuccessesLead(world, mappings, items, i + 1);
    AppendItem(world, mappings, items[..i], items[i]);
    assert items[..i + 1] == items[..i] + [items[i]];
  }

  ghost predicate NamedBySome(world: World, mappings: map<string, MappingRecord>, items: seq<DragOutItem>, p: Path)
  {
    exists item, root ::
      item in items && LibraryIdIsSafe(item.libraryId) && BelongsTo(world, mappings, item, root, p)
  }

  /** The files of the batch are exactly those that some item names in its own library. */
  lemma {:induction false} DraggedFromItsLibrary(world: World, mappings: map<string, MappingRecord>,
                                                 items: seq<DragOutItem>, p: Path)
    ensures p in Successes(world, mappings, items) <==>
              NamedBySome(world, mappings, items, p)
  {
    if items != [] {
      var front, last := Init(items), Last(items);
      DraggedFromItsLibrary(world, mappings, front, p);
      AloneIff(world, mappings, last, p);
      AppendItem(world, mappings, front, last);
      assert items == front + [last];
      assert p in Successes(world, mappings, items) <==>
             p in Successes(world, mappings, front) || Alone(world, mappings, last) == Ok(p);
    }
  }

  // ----- Drop in, drag out ----------------------------------------------------

  /** The items that drag out what was reported inside. */
  function ItemsFor(libraryId: string, relatives: seq<string>): (items: seq<DragOutItem>)
    ensures |items| == |relatives|
  {
    if relatives == [] then [] else ItemsFor(libraryId, Init(relatives)) + [DragOutItem(libraryId, Last(relatives))]
  }

  /** The real files of the drops that were inside, in order. */
  function DroppedFiles(host: Host, root: Path, paths: seq<string>): seq<Path>
  {
    if paths == [] then []
    else if CategorizeDrop(host, root, Last(paths)).Inside? && Canonicalize(host, Last(paths)).Found?
    then DroppedFiles(host, root, Init(paths)) + [Canonicalize(host, Last(paths)).path]
    else DroppedFiles(host, root, Init(paths))
  }

  /** Dropping files onto a library and dragging what was reported inside back out gives
      exactly the dropped files that lie in the library, in the order they were dropped. */
  lemma {:induction false} DropThenDrag(world: World, mappings: map<string, MappingRecord>, libraryId: string,
                                        root: Path, paths: seq<string>)
    requires ValidHost(world.host) && VerifiedRootFor(world, mappings, libraryId) == Ok(root)
    ensures Successes(world, mappings, ItemsFor(libraryId, Insides(world.host, root, paths))) ==
            DroppedFiles(world.host, root, paths)
  {
    if paths != [] {
      DropThenDrag(world, mappings, libraryId, root, Init(paths));
      var raw := Last(paths);
      if CategorizeDrop(world.host, root, raw).Inside? {
        ValidatedIsVerified(world, mappings[libraryId].localRoot, mappings[libraryId].libraryUuid);
        ReverseThenForward(world.host, root, raw);
        var relative := CategorizeDrop(world.host, root, raw).relative;
        var before := Insides(world.host, root, Init(paths));
        assert Init(before + [relative]) == before && Last(before + [relative]) == relative;
        var items := ItemsFor(libraryId, before);
        var item := DragOutItem(libraryId, relative);
        assert Init(items + [item]) == items && Last(items + [item]) == item;
      }
    }
  }
}
