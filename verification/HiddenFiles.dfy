/** Trashing files hides their rows at once and puts back the ones the server could not
    trash (`hooks.ts`, `restoreBundleFileSnapshots` and the `trash` mutation). */
module HiddenFiles {
  import opened Core

  datatype File = File(id: Id, path: string, row: string)

  ghost predicate DistinctFiles(files: seq<File>)
  {
    forall i, j :: 0 <= i < j < |files| ==> files[i].id != files[j].id
  }

  /** `files.filter((file) => !requested.has(file.relative_path))` */
  function Hidden(files: seq<File>, paths: set<string>): seq<File>
  {
    if files == [] then []
    else if files[0].path in paths then Hidden(files[1..], paths)
    else [files[0]] + Hidden(files[1..], paths)
  }

  /** The rows a restore should show when nothing else changed. */
  function Surviving(files: seq<File>, hidden: set<string>, restored: set<string>): seq<File>
  {
    if files == [] then []
    else if files[0].path !in hidden || files[0].path in restored
      then [files[0]] + Surviving(files[1..], hidden, restored)
    else Surviving(files[1..], hidden, restored)
  }

  /** `new Map(current.map((file) => [file.id, file]))` */
  function FilesById(files: seq<File>): (byId: map<Id, File>)
  {
    if files == [] then map[] else FilesById(Init(files))[Last(files).id := Last(files)]
  }

  /** Previous positions: the current version where there is one, the old row only for a
      path being restored. Each current row is used once. */
  function Merged(previous: seq<File>, byId: map<Id, File>, restored: set<string>): seq<File>
  {
    if previous == [] then []
    else
      var file := previous[0];
      if file.id in byId then [byId[file.id]] + Merged(previous[1..], byId - {file.id}, restored)
      else (if file.path in restored then [file] else []) + Merged(previous[1..], byId, restored)
  }

  /** The current rows no previous position used, in their own order. */
  function Unused(current: seq<File>, used: set<Id>): seq<File>
  {
    if current == [] then []
    else if current[0].id in used then Unused(current[1..], used)
    else [current[0]] + Unused(current[1..], used)
  }

  function FileIds(files: seq<File>): set<Id>
  {
    set f | f in files :: f.id
  }

  function Restored(previous: seq<File>, current: seq<File>, paths: set<string>): seq<File>
  {
    Merged(previous, FilesById(current), paths) + Unused(current, FileIds(previous))
  }

  lemma FileIdsAppend(files: seq<File>, file: File)
    ensures FileIds(files + [file]) == FileIds(files) + {file.id}
  {
    ElemsAppend(files, [file]);
    assert forall f :: f in files + [file] <==> f in files || f == file;
  }

  /** The rows so far and the merge of the rest make up the whole merge. */
  ghost predicate Leads(merged: seq<File>, rest: seq<File>, byId: map<Id, File>, restored: set<string>,
                        whole: seq<File>)
  {
    merged + Merged(rest, byId, restored) == whole
  }

  lemma LeadsOn(merged: seq<File>, previous: seq<File>, i: nat, byId: map<Id, File>, restored: set<string>,
                whole: seq<File>)
    requires i < |previous| && Leads(merged, previous[i..], byId, restored, whole)
    ensures var file := previous[i];
            Leads(merged + if file.id in byId then [byId[file.id]] else if file.path in restored then [file] else [],
                  previous[i + 1..], if file.id in byId then byId - {file.id} else byId, restored, whole)
  {
    assert previous[i..][1..] == previous[i + 1..];
  }

  method RestoreFiles(previous: seq<File>, current: seq<File>, paths: seq<string>) returns (files: seq<File>)
    ensures files == Restored(previous, current, Elems(paths))
  {
    var restored := Elems(paths);
    var byId := FilesById(current);
    ghost var whole := Merged(previous, byId, restored);
    var merged: seq<File> := [];
    var used: set<Id> := {};
    var i := 0;
    while i < |previous|
      invariant 0 <= i <= |previous|
      invariant Leads(merged, previous[i..], byId, restored, whole)
      invariant used == FileIds(previous[..i])
    {
      var file := previous[i];
      assert previous[..i + 1] == previous[..i] + [file];
      FileIdsAppend(previous[..i], file);
      LeadsOn(merged, previous, i, byId, restored, whole);
      if file.id in byId {
        merged := merged + [byId[file.id]];
        byId := byId - {file.id};
      } else if file.path in restored {
        merged := merged + [file];
      } else {
        assert merged + [] == merged;
      }
      used := used + {file.id};
      i := i + 1;
    }
    assert previous[..i] == previous;
    files := merged + Unused(current, used);
  }

  // ----- Hide, then restore ---------------------------------------------------

  lemma {:induction false} FilesByIdMeaning(files: seq<File>)
    requires DistinctFiles(files)
    ensures FilesById(files).Keys == FileIds(files)
    ensures forall f :: f in files ==> FilesById(files)[f.id] == f
  {
    if files != [] {
      FilesByIdMeaning(Init(files));
      assert files == Init(files) + [Last(files)];
    }
  }

  lemma {:induction false} HiddenMeaning(files: seq<File>, paths: set<string>)
    ensures forall f :: f in Hidden(files, paths) <==> f in files && f.path !in paths
    ensures DistinctFiles(files) ==> DistinctFiles(Hidden(files, paths))
  {
    if files != [] {
      assert files == [files[0]] + files[1..];
      HiddenMeaning(files[1..], paths);
    }
  }

  lemma {:induction false} MergedKeepsHidden(previous: seq<File>, byId: map<Id, File>, hidden: set<string>,
                                             restored: set<string>)
    requires DistinctFiles(previous)
    requires forall f :: f in previous ==> (f.id in byId <==> f.path !in hidden)
    requires forall f :: f in previous && f.id in byId ==> byId[f.id] == f
    ensures Merged(previous, byId, restored) == Surviving(previous, hidden, restored)
  {
    if previous != [] {
      assert previous == [previous[0]] + previous[1..];
      var file := previous[0];
      var rest := if file.id in byId then byId - {file.id} else byId;
      forall f | f in previous[1..]
        ensures f.id in rest <==> f.path !in hidden
        ensures f.id in rest ==> rest[f.id] == f
      {
        assert f in previous && f.id != file.id;
      }
      MergedKeepsHidden(previous[1..], rest, hidden, restored);
    }
  }

  lemma {:induction false} UnusedAll(current: seq<File>, used: set<Id>)
    requires forall f :: f in current ==> f.id in used
    ensures Unused(current, used) == []
  {
    if current != [] {
      UnusedAll(current[1..], used);
    }
  }

  /** Hiding paths P and then restoring the failed paths F shows the original list without
      P minus F, in the original order. */
  lemma HideThenRestore(files: seq<File>, hidden: set<string>, restored: set<string>)
    requires DistinctFiles(files)
    ensures Restored(files, Hidden(files, hidden), restored) == Surviving(files, hidden, restored)
  {
    var current := Hidden(files, hidden);
    HiddenMeaning(files, hidden);
    FilesByIdMeaning(current);
    forall f | f in files
      ensures f.id in FilesById(current) <==> f.path !in hidden
    {
      if f.id in FilesById(current) {
        var g :| g in current && g.id == f.id;
        SameFile(files, f, g);
      }
    }
    MergedKeepsHidden(files, FilesById(current), hidden, restored);
    UnusedAll(current, FileIds(files));
  }

  lemma SameFile(files: seq<File>, f: File, g: File)
    requires DistinctFiles(files) && f in files && g in files && f.id == g.id
    ensures f == g
  {
    var i :| 0 <= i < |files| && files[i] == f;
    var j :| 0 <= j < |files| && files[j] == g;
  }

  // ----- Restore under concurrent changes -------------------------------------

  lemma IdsOfTail(files: seq<File>)
    requires files != []
    ensures files == [files[0]] + files[1..] && FileIds(files) == FileIds(files[1..]) + {files[0].id}
  {
    assert files == [files[0]] + files[1..];
    assert forall f :: f in files <==> f == files[0] || f in files[1..];
  }

  lemma HeadIsAlone(files: seq<File>)
    requires files != [] && DistinctFiles(files)
    ensures DistinctFiles(files[1..]) && files[0].id !in FileIds(files[1..])
  {
    forall f | f in files[1..]
      ensures f.id != files[0].id
    {
    }
  }

  lemma {:induction false} MergedRows(previous: seq<File>, byId: map<Id, File>, restored: set<string>)
    requires DistinctFiles(previous) && forall id :: id in byId ==> byId[id].id == id
    ensures var merged := Merged(previous, byId, restored);
            && (forall f :: f in merged <==>
                  || (f.id in FileIds(previous) && f.id in byId && byId[f.id] == f)
                  || (f in previous && f.id !in byId && f.path in restored))
            && DistinctFiles(merged)
  {
    if previous != [] {
      var file := previous[0];
      var next := if file.id in byId then byId - {file.id} else byId;
      IdsOfTail(previous);
      HeadIsAlone(previous);
      MergedRows(previous[1..], next, restored);
      var rest := Merged(previous[1..], next, restored);
      var head := if file.id in byId then [byId[file.id]] else if file.path in restored then [file] else [];
      assert Merged(previous, byId, restored) == head + rest;
      assert forall f :: f in head + rest <==> f in head || f in rest;
      assert forall f :: f in rest ==> f.id != file.id;
    }
  }

  lemma {:induction false} UnusedRows(current: seq<File>, used: set<Id>)
    requires DistinctFiles(current)
    ensures forall f :: f in Unused(current, used) <==> f in current && f.id !in used
    ensures DistinctFiles(Unused(current, used))
  {
    if current != [] {
      assert current == [current[0]] + current[1..];
      UnusedRows(current[1..], used);
    }
  }

  /** Whatever happened to the list in between: every current row is shown once in its
      current version, and the only other rows are previous ones for restored paths whose
      file is no longer listed. */
  lemma RestoreDropsNoCurrentFile(previous: seq<File>, current: seq<File>, restored: set<string>)
    requires DistinctFiles(previous) && DistinctFiles(current)
    ensures var result := Restored(previous, current, restored);
            && DistinctFiles(result)
            && forall f :: f in result <==>
                 f in current || (f in previous && f.id !in FileIds(current) && f.path in restored)
  {
    FilesByIdMeaning(current);
    var byId := FilesById(current);
    assert forall id :: id in byId ==> byId[id].id == id && byId[id] in current by {
      forall id | id in byId
        ensures byId[id].id == id && byId[id] in current
      {
        var f :| f in current && f.id == id;
      }
    }
    MergedRows(previous, byId, restored);
    UnusedRows(current, FileIds(previous));
    var merged, unused := Merged(previous, byId, restored), Unused(current, FileIds(previous));
    forall i, j | 0 <= i < |merged| && 0 <= j < |unused|
      ensures merged[i].id != unused[j].id
    {
      assert merged[i] in merged && unused[j] in unused;
    }
    assert Restored(previous, current, restored) == merged + unused;
  }

  // ----- The order of the rows ------------------------------------------------

  /** The file of `x` comes before that of `y`. */
  ghost predicate Above(files: seq<File>, x: Id, y: Id)
  {
    exists i, j :: 0 <= i < j < |files| && files[i].id == x && files[j].id == y
  }

  lemma AboveHead(head: seq<File>, rest: seq<File>, x: Id, y: Id)
    requires |head| <= 1
    ensures Above(head + rest, x, y) <==> Above(rest, x, y) || (head != [] && head[0].id == x && y in FileIds(rest))
  {
    var all := head + rest;
    if Above(all, x, y) {
      var i, j :| 0 <= i < j < |all| && all[i].id == x && all[j].id == y;
      assert all[j] == rest[j - |head|];
      if i >= |head| {
        assert all[i] == rest[i - |head|];
      }
    }
    if Above(rest, x, y) {
      var i, j :| 0 <= i < j < |rest| && rest[i].id == x && rest[j].id == y;
      assert all[|head| + i] == rest[i] && all[|head| + j] == rest[j];
    }
    if head != [] && head[0].id == x && y in FileIds(rest) {
      var f :| f in rest && f.id == y;
      var j :| 0 <= j < |rest| && rest[j] == f;
      assert all[0] == head[0] && all[1 + j] == rest[j];
    }
  }

  lemma AboveIsListed(files: seq<File>, x: Id, y: Id)
    ensures Above(files, x, y) ==> x in FileIds(files) && y in FileIds(files)
  {
    if Above(files, x, y) {
      var i, j :| 0 <= i < j < |files| && files[i].id == x && files[j].id == y;
      assert files[i] in files && files[j] in files;
    }
  }

  /** Hiding leaves the other rows in their order. */
  lemma {:induction false} HiddenKeepsOrder(files: seq<File>, paths: set<string>, x: Id, y: Id)
    ensures Above(Hidden(files, paths), x, y) ==> Above(files, x, y)
    ensures FileIds(Hidden(files, paths)) <= FileIds(files)
  {
    if files != [] {
      IdsOfTail(files);
      HiddenKeepsOrder(files[1..], paths, x, y);
      AboveHead([files[0]], files[1..], x, y);
      AboveHead([files[0]], Hidden(files[1..], paths), x, y);
      HiddenMeaning(files, paths);
    }
  }

  lemma {:induction false} SurvivingKeepsOrder(files: seq<File>, hidden: set<string>, restored: set<string>, x: Id,
                                               y: Id)
    ensures Above(Surviving(files, hidden, restored), x, y) ==> Above(files, x, y)
    ensures forall f :: f in Surviving(files, hidden, restored) <==>
              f in files && (f.path !in hidden || f.path in restored)
  {
    if files != [] {
      IdsOfTail(files);
      var rest := Surviving(files[1..], hidden, restored);
      SurvivingKeepsOrder(files[1..], hidden, restored, x, y);
      AboveHead([files[0]], files[1..], x, y);
      AboveHead([files[0]], rest, x, y);
      assert FileIds(rest) <= FileIds(files[1..]);
    }
  }

  lemma {:induction false} MergedKeepsOrder(previous: seq<File>, byId: map<Id, File>, restored: set<string>, x: Id,
                                            y: Id)
    requires forall id :: id in byId ==> byId[id].id == id
    ensures Above(Merged(previous, byId, restored), x, y) ==> Above(previous, x, y)
    ensures FileIds(Merged(previous, byId, restored)) <= FileIds(previous)
  {
    if previous != [] {
      IdsOfTail(previous);
      var file := previous[0];
      var next := if file.id in byId then byId - {file.id} else byId;
      var rest := Merged(previous[1..], next, restored);
      MergedKeepsOrder(previous[1..], next, restored, x, y);
      var head := if file.id in byId then [byId[file.id]] else if file.path in restored then [file] else [];
      AboveHead(head, rest, x, y);
      AboveHead([file], previous[1..], x, y);
      assert Merged(previous, byId, restored) == head + rest;
    }
  }

  lemma {:induction false} UnusedKeepsOrder(current: seq<File>, used: set<Id>, x: Id, y: Id)
    ensures Above(Unused(current, used), x, y) ==> Above(current, x, y) && x !in used && y !in used
    ensures FileIds(Unused(current, used)) <= FileIds(current) - used
  {
    if current != [] {
      IdsOfTail(current);
      UnusedKeepsOrder(current[1..], used, x, y);
      AboveHead([current[0]], current[1..], x, y);
      AboveHead([current[0]], Unused(current[1..], used), x, y);
      if current[0].id !in used {
        IdsOfTail(Unused(current, used));
      }
    }
  }

  lemma {:induction false} AboveJoined(a: seq<File>, b: seq<File>, x: Id, y: Id)
    ensures Above(a + b, x, y) <==> Above(a, x, y) || Above(b, x, y) || (x in FileIds(a) && y in FileIds(b))
  {
    if a == [] {
      assert a + b == b;
    } else {
      IdsOfTail(a);
      AboveJoined(a[1..], b, x, y);
      AboveHead([a[0]], a[1..], x, y);
      AboveHead([a[0]], a[1..] + b, x, y);
      assert a + b == [a[0]] + (a[1..] + b);
      assert FileIds(a[1..] + b) == FileIds(a[1..]) + FileIds(b);
    }
  }

  /** Whatever happened in between, restored rows stand where they stood: rows that were there
      before keep their order, and rows that have come since follow, in theirs. */
  lemma RestoredKeepsOrder(previous: seq<File>, current: seq<File>, restored: set<string>, x: Id, y: Id)
    requires DistinctFiles(previous) && DistinctFiles(current)
    requires Above(Restored(previous, current, restored), x, y)
    ensures if x in FileIds(previous) then y in FileIds(previous) ==> Above(previous, x, y)
            else y !in FileIds(previous) && Above(current, x, y)
  {
    var byId := FilesById(current);
    FilesByIdMeaning(current);
    forall id | id in byId
      ensures byId[id].id == id
    {
      var f :| f in current && f.id == id;
    }
    AboveJoined(Merged(previous, byId, restored), Unused(current, FileIds(previous)), x, y);
    MergedKeepsOrder(previous, byId, restored, x, y);
    UnusedKeepsOrder(current, FileIds(previous), x, y);
    AboveIsListed(Merged(previous, byId, restored), x, y);
    AboveIsListed(previous, x, y);
  }

  // ----- Every open bundle's list ---------------------------------------------

  /** One entry of `getQueriesData`: a bundle whose files are queried, and what was cached. */
  datatype ListSnapshot = ListSnapshot(bundle: Id, files: Option<seq<File>>)

  ghost predicate OncePerBundle(snapshots: seq<ListSnapshot>)
  {
    forall i, j :: 0 <= i < j < |snapshots| ==> snapshots[i].bundle != snapshots[j].bundle
  }

  /** The lists the snapshots remember. */
  function Remembered(snapshots: seq<ListSnapshot>): map<Id, seq<File>>
  {
    if snapshots == [] then map[]
    else
      var last := Last(snapshots);
      if last.files.Some? then Remembered(Init(snapshots))[last.bundle := last.files.value]
      else Remembered(Init(snapshots))
  }

  function HiddenLists(lists: map<Id, seq<File>>, paths: set<string>): map<Id, seq<File>>
  {
    map b | b in lists :: Hidden(lists[b], paths)
  }

  function RestoredLists(lists: map<Id, seq<File>>, previous: map<Id, seq<File>>, restored: set<string>)
    : map<Id, seq<File>>
  {
    map b | b in lists.Keys + previous.Keys ::
      if b in previous then Restored(previous[b], if b in lists then lists[b] else [], restored) else lists[b]
  }

  lemma {:induction false} RememberedKeys(snapshots: seq<ListSnapshot>)
    ensures forall b :: b in Remembered(snapshots) ==> exists i :: 0 <= i < |snapshots| && snapshots[i].bundle == b
  {
    if snapshots != [] {
      RememberedKeys(Init(snapshots));
      forall b | b in Remembered(snapshots)
        ensures exists i :: 0 <= i < |snapshots| && snapshots[i].bundle == b
      {
        if b in Remembered(Init(snapshots)) {
          var i :| 0 <= i < |Init(snapshots)| && Init(snapshots)[i].bundle == b;
          assert snapshots[i].bundle == b;
        }
      }
    }
  }

  lemma RememberOneMore(snapshots: seq<ListSnapshot>, next: ListSnapshot)
    ensures Remembered(snapshots + [next]) ==
            if next.files.Some? then Remembered(snapshots)[next.bundle := next.files.value] else Remembered(snapshots)
  {
    assert Init(snapshots + [next]) == snapshots && Last(snapshots + [next]) == next;
  }

  /** The lists, and what is remembered of them, once these bundles have been visited. */
  ghost predicate HiddenSoFar(was: map<Id, seq<File>>, now: map<Id, seq<File>>, log: map<Id, seq<File>>,
                              visited: set<Id>, paths: set<string>)
  {
    && now.Keys == was.Keys
    && (forall b :: b in was ==> now[b] == if b in visited then Hidden(was[b], paths) else was[b])
    && (forall b :: b in log <==> b in was && b in visited) && (forall b :: b in log ==> log[b] == was[b])
  }

  lemma HiddenOneMore(was: map<Id, seq<File>>, now: map<Id, seq<File>>, log: map<Id, seq<File>>, visited: set<Id>,
                      paths: set<string>, b: Id)
    requires HiddenSoFar(was, now, log, visited, paths) && b !in visited
    ensures HiddenSoFar(was, if b in now then now[b := Hidden(now[b], paths)] else now,
                        if b in now then log[b := now[b]] else log, visited + {b}, paths)
  {
  }

  lemma HiddenAll(was: map<Id, seq<File>>, now: map<Id, seq<File>>, log: map<Id, seq<File>>, visited: set<Id>,
                  paths: set<string>)
    requires HiddenSoFar(was, now, log, visited, paths) && was.Keys <= visited
    ensures now == HiddenLists(was, paths) && log == was
  {
  }

  lemma RestoreOneMore(lists: map<Id, seq<File>>, previous: map<Id, seq<File>>, restored: set<string>, b: Id,
                       files: seq<File>)
    requires b !in previous
    ensures var now := RestoredLists(lists, previous, restored);
            RestoredLists(lists, previous[b := files], restored) ==
                now[b := Restored(files, if b in now then now[b] else [], restored)]
  {
  }

  ghost predicate InOrder(snapshots: seq<ListSnapshot>, bundles: seq<Id>)
  {
    |snapshots| == |bundles| && forall j :: 0 <= j < |bundles| ==> snapshots[j].bundle == bundles[j]
  }

  lemma OrderedOnce(snapshots: seq<ListSnapshot>, bundles: seq<Id>)
    requires InOrder(snapshots, bundles) && Distinct(bundles)
    ensures OncePerBundle(snapshots)
  {
  }

  class FileLists {
    /** The cached file list of each bundle that has one. */
    var lists: map<Id, seq<File>>

    constructor ()
      ensures lists == map[]
    {
      lists := map[];
    }

    /** The `trash` mutation's `onMutate`: every cached list loses the requested rows, and is
        remembered. `queried` are the bundles with a file query, cached or not. */
    method HideFiles(queried: seq<Id>, paths: seq<string>) returns (snapshots: seq<ListSnapshot>)
      requires Distinct(queried) && lists.Keys <= Elems(queried)
      modifies this
      ensures lists == HiddenLists(old(lists), Elems(paths))
      ensures OncePerBundle(snapshots) && Remembered(snapshots) == old(lists)
    {
      snapshots := [];
      for i := 0 to |queried|
        invariant InOrder(snapshots, queried[..i])
        invariant HiddenSoFar(old(lists), lists, Remembered(snapshots), Elems(queried[..i]), Elems(paths))
      {
        assert queried[..i + 1] == queried[..i] + [queried[i]];
        ElemsAppend(queried[..i], [queried[i]]);
        assert queried[i] !in queried[..i];
        snapshots := HideOne(old(lists), Elems(queried[..i]), queried[i], paths, snapshots);
      }
      assert queried[..|queried|] == queried;
      HiddenAll(old(lists), lists, Remembered(snapshots), Elems(queried), Elems(paths));
      OrderedOnce(snapshots, queried);
    }

    method HideOne(ghost was: map<Id, seq<File>>, ghost visited: set<Id>, b: Id, paths: seq<string>,
                   log: seq<ListSnapshot>)
      returns (snapshots: seq<ListSnapshot>)
      requires HiddenSoFar(was, lists, Remembered(log), visited, Elems(paths)) && b !in visited
      modifies this
      ensures HiddenSoFar(was, lists, Remembered(snapshots), visited + {b}, Elems(paths))
      ensures |snapshots| == |log| + 1 && snapshots[..|log|] == log && snapshots[|log|].bundle == b
    {
      HiddenOneMore(was, lists, Remembered(log), visited, Elems(paths), b);
      var snapshot := ListSnapshot(b, if b in lists then Some(lists[b]) else None);
      RememberOneMore(log, snapshot);
      snapshots := log + [snapshot];
      if b in lists {
        lists := lists[b := Hidden(lists[b], Elems(paths))];
      }
    }

    /** `restoreBundleFileSnapshots`: each remembered list is merged back into what its bundle
        shows now, an uncached one reading as empty; other lists are left alone. */
    method RestoreSnapshots(snapshots: seq<ListSnapshot>, paths: seq<string>)
      requires OncePerBundle(snapshots)
      modifies this
      ensures lists == RestoredLists(old(lists), Remembered(snapshots), Elems(paths))
    {
      for i := 0 to |snapshots|
        invariant lists == RestoredLists(old(lists), Remembered(snapshots[..i]), Elems(paths))
      {
        var snapshot := snapshots[i];
        assert snapshots[..i + 1] == snapshots[..i] + [snapshot];
        RememberOneMore(snapshots[..i], snapshot);
        NotYetRemembered(snapshots, i);
        if snapshot.files.Some? {
          RestoreOneMore(old(lists), Remembered(snapshots[..i]), Elems(paths), snapshot.bundle, snapshot.files.value);
          var files := RestoreFiles(snapshot.files.value,
                                    if snapshot.bundle in lists then lists[snapshot.bundle] else [], paths);
          lists := lists[snapshot.bundle := files];
        }
      }
      assert snapshots[..|snapshots|] == snapshots;
    }
  }

  lemma NotYetRemembered(snapshots: seq<ListSnapshot>, i: nat)
    requires OncePerBundle(snapshots) && i < |snapshots|
    ensures snapshots[i].bundle !in Remembered(snapshots[..i])
  {
    RememberedKeys(snapshots[..i]);
  }

  /** A list that is no longer cached when the answer comes shows just the rows that failed, and
      one that was not remembered is left as it is. */
  lemma RestoredElsewhere(lists: map<Id, seq<File>>, previous: map<Id, seq<File>>, failed: set<string>, b: Id)
    requires forall c :: c in previous ==> DistinctFiles(previous[c])
    ensures var now := RestoredLists(lists, previous, failed);
            && (b in now <==> b in lists || b in previous)
            && (b in lists && b !in previous ==> now[b] == lists[b])
            && (b in previous && b !in lists ==>
                  forall f :: f in now[b] <==> f in previous[b] && f.path in failed)
  {
    if b in previous && b !in lists {
      RestoreDropsNoCurrentFile(previous[b], [], failed);
      assert FileIds([]) == {};
    }
  }

  /** Hiding rows in every open list and putting the failed ones back shows, in every list, the
      rows that were not trashed, in their original order. */
  lemma TrashShowsSurvivors(lists: map<Id, seq<File>>, requested: set<string>, failed: set<string>)
    requires forall b :: b in lists ==> DistinctFiles(lists[b])
    ensures RestoredLists(HiddenLists(lists, requested), lists, failed) ==
            map b | b in lists :: Surviving(lists[b], requested, failed)
  {
    forall b | b in lists
      ensures Restored(lists[b], Hidden(lists[b], requested), failed) == Surviving(lists[b], requested, failed)
    {
      HideThenRestore(lists[b], requested, failed);
    }
  }
}
