/** Path mapping both ways (`mappings.rs`): client paths onto local files, and dropped files
    back onto client paths. */
module Mappings {
  import opened Core
  import opened Paths
  import opened Filesystem

  datatype ErrorCode =
    | InvalidLibraryId | InvalidRelativePath | InvalidLibraryRoot | InvalidManifest | LibraryMismatch
    | LibraryUnmapped | VolumeNotMounted | PathNotFound | PathOutsideLibrary | NoDraggableFiles

  datatype Result<+T> = Ok(value: T) | Err(code: ErrorCode)

  datatype ManifestRead = Missing | Unreadable | Malformed | Manifest(libraryUuid: string)

  /** The local machine: its files, and what a manifest in each folder reads as. */
  datatype World = World(host: Host, manifests: map<Path, ManifestRead>)

  datatype MappingRecord = MappingRecord(localRoot: string, libraryUuid: string)

  // ----- Client paths ---------------------------------------------------------

  /** What `validate_relative_path` accepts: at least one component, and only names. */
  predicate Accepted(components: seq<Component>)
  {
    components != [] && forall i :: 0 <= i < |components| ==> components[i].Normal?
  }

  function ValidateRelative(text: string): Result<string>
  {
    if Accepted(Components(text)) then Ok(text) else Err(InvalidRelativePath)
  }

  method ValidateRelativePath(text: string) returns (result: Result<string>)
    ensures result == ValidateRelative(text)
  {
    var components := Components(text);
    var hasNormalComponent := false;
    for i := 0 to |components|
      invariant hasNormalComponent == (i > 0)
      invariant forall k :: 0 <= k < i ==> components[k].Normal?
    {
      match components[i]
      case Normal(_) => hasNormalComponent := true;
      case RootDir => return Err(InvalidRelativePath);
      case ParentDir => return Err(InvalidRelativePath);
      case CurDir => return Err(InvalidRelativePath);
    }
    if !hasNormalComponent {
      return Err(InvalidRelativePath);
    }
    return Ok(text);
  }

  /** A path is accepted exactly when it is not absolute, does not start with `.`, never
      climbs, and enters something. */
  lemma AcceptedIff(text: string)
    ensures ValidateRelative(text).Ok? <==>
              && !IsAbsolute(text) && Split(text)[0] != "."
              && Up !in Walked(text) && exists name :: Into(name) in Walked(text)
  {
    var segments := Split(text);
    LaterComponentsSay(segments);
    LaterComponentsSay(segments[1..]);
    assert segments == [segments[0]] + segments[1..];
    var components := Components(text);
    if text == "" {
      assert Walked(text) == [Here];
    } else if IsAbsolute(text) {
      assert components[0] == RootDir;
    } else if segments[0] == "." {
      assert components[0] == CurDir;
    } else {
      assert components == LaterComponents(segments);
      if Accepted(components) {
        assert Normal(components[0].name) in components;
        assert Into(components[0].name) in Walked(text);
        assert ParentDir !in components;
      } else if components != [] {
        var i :| 0 <= i < |components| && !components[i].Normal?;
        assert components[i] in components && components[i] == ParentDir;
      } else {
        forall name
          ensures Into(name) !in Walked(text)
        {
          assert Normal(name) !in components;
        }
      }
    }
  }

  // ----- Roots ----------------------------------------------------------------

  function CanonicalizeRoot(host: Host, localRoot: string): Result<Path>
  {
    match Canonicalize(host, localRoot)
    case Failed(error) => if error.NotFound? then Err(VolumeNotMounted) else Err(InvalidLibraryRoot)
    case Found(root) => if IsDir(host.tree, root) then Ok(root) else Err(InvalidLibraryRoot)
  }

  function ReadManifest(world: World, root: Path): ManifestRead
  {
    if root in world.manifests then world.manifests[root] else Missing
  }

  function Lower(c: char): char
  {
    if 'A' <= c <= 'Z' then c - 'A' + 'a' else c
  }

  predicate EqIgnoreAsciiCase(a: string, b: string)
  {
    |a| == |b| && forall i :: 0 <= i < |a| ==> Lower(a[i]) == Lower(b[i])
  }

  /** `validate_library_root`: the folder really is the library the server described. */
  function ValidateLibraryRoot(world: World, localRoot: string, expectedUuid: string): Result<Path>
  {
    if expectedUuid == "" then Err(InvalidLibraryId)
    else
      match CanonicalizeRoot(world.host, localRoot)
      case Err(code) => Err(code)
      case Ok(root) =>
        match ReadManifest(world, root)
        case Manifest(uuid) => if EqIgnoreAsciiCase(uuid, expectedUuid) then Ok(root) else Err(LibraryMismatch)
        case Missing => Err(InvalidManifest)
        case Unreadable => Err(InvalidManifest)
        case Malformed => Err(InvalidManifest)
  }

  /** The two cases of one ASCII letter. */
  predicate CaseTwins(c: char, d: char)
  {
    ('A' <= c <= 'Z' && d as int == c as int + 32) || ('A' <= d <= 'Z' && c as int == d as int + 32)
  }

  predicate SameButForCase(a: string, b: string)
  {
    |a| == |b| && forall i :: 0 <= i < |a| ==> a[i] == b[i] || CaseTwins(a[i], b[i])
  }

  /** The manifest in this folder carries this identity. */
  predicate IsLibrary(world: World, root: Path, uuid: string)
  {
    && root in world.manifests && world.manifests[root].Manifest?
    && SameButForCase(world.manifests[root].libraryUuid, uuid)
  }

  lemma IgnoringCaseIff(a: string, b: string)
    ensures EqIgnoreAsciiCase(a, b) <==> SameButForCase(a, b)
  {
    if |a| == |b| {
      forall i | 0 <= i < |a|
        ensures Lower(a[i]) == Lower(b[i]) <==> a[i] == b[i] || CaseTwins(a[i], b[i])
      {
      }
    }
  }

  /** A root is proven exactly when an identity is expected and the mapped folder is really a
      directory whose manifest carries it, whatever the case of its letters. */
  lemma ProvenIff(world: World, localRoot: string, expectedUuid: string, root: Path)
    ensures ValidateLibraryRoot(world, localRoot, expectedUuid) == Ok(root) <==>
              && expectedUuid != "" && Canonicalize(world.host, localRoot) == Found(root)
              && IsDir(world.host.tree, root) && IsLibrary(world, root, expectedUuid)
  {
    if root in world.manifests && world.manifests[root].Manifest? {
      IgnoringCaseIff(world.manifests[root].libraryUuid, expectedUuid);
    }
  }

  /** And refused for the first thing that is wrong with it. */
  lemma RefusedFor(world: World, localRoot: string, expectedUuid: string)
    ensures var proof := ValidateLibraryRoot(world, localRoot, expectedUuid);
            var found := Canonicalize(world.host, localRoot);
            if expectedUuid == "" then proof == Err(InvalidLibraryId)
            else if found == Failed(NotFound) then proof == Err(VolumeNotMounted)
            else if found.Failed? || !IsDir(world.host.tree, found.path) then proof == Err(InvalidLibraryRoot)
            else if !(found.path in world.manifests && world.manifests[found.path].Manifest?) then
              proof == Err(InvalidManifest)
            else proof == if IsLibrary(world, found.path, expectedUuid) then Ok(found.path) else Err(LibraryMismatch)
  {
    var found := Canonicalize(world.host, localRoot);
    if found.Found? && found.path in world.manifests && world.manifests[found.path].Manifest? {
      IgnoringCaseIff(world.manifests[found.path].libraryUuid, expectedUuid);
    }
  }

  predicate SafeIdChar(c: char)
  {
    'a' <= c <= 'z' || 'A' <= c <= 'Z' || '0' <= c <= '9' || c == '-' || c == '_'
  }

  predicate LibraryIdIsSafe(id: string)
  {
    id != "" && forall i :: 0 <= i < |id| ==> SafeIdChar(id[i])
  }

  const LOWER := "abcdefghijklmnopqrstuvwxyz"
  const UPPER := "ABCDEFGHIJKLMNOPQRSTUVWXYZ"
  const DIGITS := "0123456789"

  /** A safe library id is made of letters, digits, hyphens and underscores, and of at least one. */
  lemma SafeIdIff(id: string)
    ensures LibraryIdIsSafe(id) <==>
              |id| > 0 && forall i :: 0 <= i < |id| ==>
                id[i] in LOWER || id[i] in UPPER || id[i] in DIGITS || id[i] == '-' || id[i] == '_'
  {
    forall i | 0 <= i < |id|
      ensures id[i] in LOWER <==> 'a' <= id[i] <= 'z'
      ensures id[i] in UPPER <==> 'A' <= id[i] <= 'Z'
      ensures id[i] in DIGITS <==> '0' <= id[i] <= '9'
    {
      IsLower(id[i]);
      IsUpper(id[i]);
      IsDigit(id[i]);
    }
  }

  lemma IsLower(c: char)
    ensures c in LOWER <==> 'a' <= c <= 'z'
  {
    if 'a' <= c <= 'z' {
      assert LOWER[c as int - 'a' as int] == c;
    }
  }

  lemma IsUpper(c: char)
    ensures c in UPPER <==> 'A' <= c <= 'Z'
  {
    if 'A' <= c <= 'Z' {
      assert UPPER[c as int - 'A' as int] == c;
    }
  }

  lemma IsDigit(c: char)
    ensures c in DIGITS <==> '0' <= c <= '9'
  {
    if '0' <= c <= '9' {
      assert DIGITS[c as int - '0' as int] == c;
    }
  }

  function VerifiedRootFor(world: World, mappings: map<string, MappingRecord>, libraryId: string): Result<Path>
  {
    if !LibraryIdIsSafe(libraryId) then Err(InvalidLibraryId)
    else if libraryId !in mappings then Err(LibraryUnmapped)
    else ValidateLibraryRoot(world, mappings[libraryId].localRoot, mappings[libraryId].libraryUuid)
  }

  // ----- Forward --------------------------------------------------------------

  /** Canonicalize under the root, and stay under it. */
  function FinishResolve(host: Host, root: Path, relative: string): Result<Path>
  {
    match CanonicalizeUnder(host, root, relative)
    case Failed(error) => if error.NotFound? then Err(PathNotFound) else Err(InvalidRelativePath)
    case Found(path) => if root <= path then Ok(path) else Err(PathOutsideLibrary)
  }

  function ResolveWithinVerifiedRoot(host: Host, root: Path, relative: string): Result<Path>
  {
    match ValidateRelative(relative)
    case Err(code) => Err(code)
    case Ok(text) => FinishResolve(host, root, text)
  }

  /** `resolve_verified_path`: the path is judged before the root. */
  function ResolveVerifiedPath(world: World, localRoot: string, expectedUuid: string, relative: string): Result<Path>
  {
    match ValidateRelative(relative)
    case Err(code) => Err(code)
    case Ok(text) =>
      match ValidateLibraryRoot(world, localRoot, expectedUuid)
      case Err(code) => Err(code)
      case Ok(root) => FinishResolve(world.host, root, text)
  }

  /** A client path resolves to a file exactly when it is safe and really leads there, below
      the root; otherwise the code says which of the three failed. */
  lemma ResolvesIff(host: Host, root: Path, relative: string, p: Path)
    ensures var answer := ResolveWithinVerifiedRoot(host, root, relative);
            var found := CanonicalizeUnder(host, root, relative);
            var safe := Accepted(Components(relative));
            && (answer == Ok(p) <==> safe && found == Found(p) && root <= p)
            && (answer == Err(PathOutsideLibrary) <==> safe && found.Found? && !(root <= found.path))
            && (answer == Err(PathNotFound) <==> safe && found == Failed(NotFound))
            && (answer == Err(InvalidRelativePath) <==> !safe || (found.Failed? && found.error != NotFound))
  {
  }

  // ----- Reverse --------------------------------------------------------------

  /** `relative_segments`: the text of a path made only of names. */
  function SegmentsOf(components: seq<Component>): Option<string>
  {
    if Accepted(components) then Some(Join(NamesOf(components))) else None
  }

  function NamesOf(components: seq<Component>): (names: seq<Name>)
    requires forall i :: 0 <= i < |components| ==> components[i].Normal?
    ensures |names| == |components|
    ensures forall i :: 0 <= i < |names| ==> components[i] == Normal(names[i])
  {
    if components == [] then [] else [components[0].name] + NamesOf(components[1..])
  }

  function ComponentsOf(names: seq<Name>): (components: seq<Component>)
    ensures |components| == |names|
    ensures forall i :: 0 <= i < |names| ==> components[i] == Normal(names[i])
  {
    if names == [] then [] else [Normal(names[0])] + ComponentsOf(names[1..])
  }

  method RelativeSegments(components: seq<Component>) returns (text: Option<string>)
    ensures text == SegmentsOf(components)
  {
    var parts := [];
    for i := 0 to |components|
      invariant |parts| == i
      invariant forall k :: 0 <= k < i ==> components[k] == Normal(parts[k])
    {
      match components[i]
      case Normal(segment) => parts := parts + [segment];
      case RootDir => return None;
      case ParentDir => return None;
      case CurDir => return None;
    }
    if parts == [] {
      return None;
    }
    assert parts == NamesOf(components);
    return Some(Join(parts));
  }

  /** Split undoes join: the text of a canonical relative path has that path's components. */
  lemma SegmentsReadBack(names: seq<Name>)
    requires names != [] && ValidNames(names)
    ensures SegmentsOf(ComponentsOf(names)) == Some(Join(names))
    ensures Components(Join(names)) == ComponentsOf(names)
  {
    assert NamesOf(ComponentsOf(names)) == names;
    NamesWalkInto(names);
    NamesAreNormal(names);
    assert Join(names)[0] == names[0][0];
    assert LaterComponents(names) == ComponentsOf(names);
  }

  datatype DropCategory = Inside(relative: string) | Outside | Directory

  function CategorizeDrop(host: Host, root: Path, absolute: string): DropCategory
  {
    if !IsAbsolute(absolute) then Outside
    else
      match Canonicalize(host, absolute)
      case Failed(_) => Outside
      case Found(canonical) =>
        if IsDir(host.tree, canonical) then Directory
        else if !IsFile(host.tree, canonical) then Outside
        else if root <= canonical then
          match SegmentsOf(ComponentsOf(canonical[|root|..]))
          case Some(relative) => Inside(relative)
          case None => Outside
        else Outside
  }

  function Insides(host: Host, root: Path, paths: seq<string>): seq<string>
  {
    if paths == [] then []
    else
      match CategorizeDrop(host, root, Last(paths))
      case Inside(relative) => Insides(host, root, Init(paths)) + [relative]
      case Outside => Insides(host, root, Init(paths))
      case Directory => Insides(host, root, Init(paths))
  }

  function Outsides(host: Host, root: Path, paths: seq<string>): seq<string>
  {
    if paths == [] then []
    else if CategorizeDrop(host, root, Last(paths)).Outside? then Outsides(host, root, Init(paths)) + [Last(paths)]
    else Outsides(host, root, Init(paths))
  }

  function Directories(host: Host, root: Path, paths: seq<string>): nat
  {
    if paths == [] then 0
    else Directories(host, root, Init(paths)) + if CategorizeDrop(host, root, Last(paths)).Directory? then 1 else 0
  }

  lemma ReportNext(host: Host, root: Path, paths: seq<string>, raw: string)
    ensures var category := CategorizeDrop(host, root, raw);
            && Insides(host, root, paths + [raw]) ==
               Insides(host, root, paths) + (if category.Inside? then [category.relative] else [])
            && Outsides(host, root, paths + [raw]) ==
               Outsides(host, root, paths) + (if category.Outside? then [raw] else [])
            && Directories(host, root, paths + [raw]) ==
               Directories(host, root, paths) + (if category.Directory? then 1 else 0)
  {
    assert Init(paths + [raw]) == paths && Last(paths + [raw]) == raw;
  }

  method ReverseMapUnderRoot(host: Host, root: Path, paths: seq<string>)
    returns (inside: seq<string>, outside: seq<string>, directories: nat)
    ensures inside == Insides(host, root, paths)
    ensures outside == Outsides(host, root, paths)
    ensures directories == Directories(host, root, paths)
    ensures |inside| + |outside| + directories == |paths|
  {
    inside, outside, directories := [], [], 0;
    for i := 0 to |paths|
      invariant Reported(host, root, paths[..i], inside, outside, directories)
    {
      assert paths[..i + 1] == paths[..i] + [paths[i]];
      inside, outside, directories := ReportDrop(host, root, paths[..i], paths[i], inside, outside, directories);
    }
    assert paths[..|paths|] == paths;
  }

  /** The three reports, over the drops so far; every drop is in exactly one. */
  ghost predicate Reported(host: Host, root: Path, paths: seq<string>, inside: seq<string>, outside: seq<string>,
                           directories: nat)
  {
    && inside == Insides(host, root, paths) && outside == Outsides(host, root, paths)
    && directories == Directories(host, root, paths)
    && |inside| + |outside| + directories == |paths|
  }

  /** The loop's body: the drop joins exactly one of the three reports. */
  method ReportDrop(host: Host, root: Path, ghost before: seq<string>, raw: string,
                    insides: seq<string>, outsides: seq<string>, count: nat)
    returns (inside: seq<string>, outside: seq<string>, directories: nat)
    requires Reported(host, root, before, insides, outsides, count)
    ensures Reported(host, root, before + [raw], inside, outside, directories)
  {
    inside, outside, directories := insides, outsides, count;
    ReportNext(host, root, before, raw);
    match CategorizeDrop(host, root, raw)
    case Inside(relative) => inside := inside + [relative];
    case Outside => outside := outside + [raw];
    case Directory => directories := directories + 1;
  }

  // ----- Facts the two directions share ---------------------------------------

  /** A verified root: canonical, and a directory. */
  ghost predicate VerifiedRoot(host: Host, root: Path)
  {
    ValidHost(host) && Real(host.tree, root) && IsDir(host.tree, root)
  }

  lemma ValidatedIsVerified(world: World, localRoot: string, expectedUuid: string)
    requires ValidHost(world.host) && ValidateLibraryRoot(world, localRoot, expectedUuid).Ok?
    ensures VerifiedRoot(world.host, ValidateLibraryRoot(world, localRoot, expectedUuid).value)
  {
    var host := world.host;
    WalkFindsReal(host.tree, if IsAbsolute(localRoot) then [] else host.cwd, Walked(localRoot), host.links);
  }

  /** Proving a root again, by its canonical path, proves the same root. */
  lemma ValidatedAgain(world: World, localRoot: string, expectedUuid: string)
    requires ValidHost(world.host) && ValidateLibraryRoot(world, localRoot, expectedUuid).Ok?
    ensures var root := ValidateLibraryRoot(world, localRoot, expectedUuid).value;
            ValidateLibraryRoot(world, Absolute(root), expectedUuid) == Ok(root)
  {
    ValidatedIsVerified(world, localRoot, expectedUuid);
    AbsoluteIsCanonical(world.host, ValidateLibraryRoot(world, localRoot, expectedUuid).value);
  }

  lemma ResolvedIsReal(host: Host, root: Path, relative: string)
    requires VerifiedRoot(host, root) && ResolveWithinVerifiedRoot(host, root, relative).Ok?
    ensures var p := ResolveWithinVerifiedRoot(host, root, relative).value;
            root <= p && Real(host.tree, p) && CanonicalizeUnder(host, root, relative) == Found(p)
  {
    WalkFindsReal(host.tree, [], StepsInto(root) + Walked(relative), host.links);
  }

  lemma TailIsValid(host: Host, root: Path, p: Path)
    requires ValidHost(host) && Real(host.tree, p) && root <= p
    ensures ValidNames(p[|root|..])
  {
    RealNamesAreValid(host.tree, p);
  }

  /** A real path below the root is reached by the text of its tail. */
  lemma TailResolves(host: Host, root: Path, p: Path)
    requires VerifiedRoot(host, root) && Real(host.tree, p) && root < p
    ensures ResolveWithinVerifiedRoot(host, root, Join(p[|root|..])) == Ok(p)
  {
    var tail := p[|root|..];
    TailIsValid(host, root, p);
    SegmentsReadBack(tail);
    NamesWalkInto(tail);
    CanonicalizeUnderIsWalk(host, root, Join(tail));
    WalkDown(host.tree, p, |root|, [], host.links);
    assert p[..|root|] == root;
    assert StepsInto(tail) + [] == Walked(Join(tail));
  }

  // ----- Round trips ----------------------------------------------------------

  /** A drop is reported inside exactly when it is an absolute path whose real file lies
      below the root, and then as the text of the rest of that file's path. */
  lemma InsideIff(host: Host, root: Path, raw: string, relative: string)
    requires VerifiedRoot(host, root)
    ensures CategorizeDrop(host, root, raw) == Inside(relative) <==>
              && IsAbsolute(raw) && Canonicalize(host, raw).Found?
              && var p := Canonicalize(host, raw).path;
              && IsFile(host.tree, p) && root < p && relative == Join(p[|root|..])
  {
    if IsAbsolute(raw) && Canonicalize(host, raw).Found? {
      var p := Canonicalize(host, raw).path;
      WalkFindsReal(host.tree, [], Walked(raw), host.links);
      if IsFile(host.tree, p) && root <= p {
        assert p != root;
        TailIsValid(host, root, p);
        SegmentsReadBack(p[|root|..]);
      }
    }
  }

  /** A drop is counted as a directory exactly when it is an absolute path to one, and echoed
      as outside exactly when it is neither that nor a file below the root. */
  lemma NotInsideIff(host: Host, root: Path, raw: string)
    requires VerifiedRoot(host, root)
    ensures CategorizeDrop(host, root, raw) == Directory <==>
              IsAbsolute(raw) && Canonicalize(host, raw).Found? && IsDir(host.tree, Canonicalize(host, raw).path)
    ensures CategorizeDrop(host, root, raw) == Outside <==>
              || !IsAbsolute(raw) || Canonicalize(host, raw).Failed?
              || var p := Canonicalize(host, raw).path;
                 !IsDir(host.tree, p) && !(IsFile(host.tree, p) && root < p)
  {
    if IsAbsolute(raw) && Canonicalize(host, raw).Found? {
      var p := Canonicalize(host, raw).path;
      WalkFindsReal(host.tree, [], Walked(raw), host.links);
      if IsFile(host.tree, p) && !IsDir(host.tree, p) && root <= p {
        assert p != root;
        InsideIff(host, root, raw, Join(p[|root|..]));
      }
    }
  }

  /** Reverse, then forward: what a drop is reported as is accepted from the client and
      resolves to the very file that was dropped. */
  lemma ReverseThenForward(host: Host, root: Path, raw: string)
    requires VerifiedRoot(host, root) && CategorizeDrop(host, root, raw).Inside?
    ensures var relative := CategorizeDrop(host, root, raw).relative;
            && ValidateRelative(relative) == Ok(relative)
            && Canonicalize(host, raw).Found?
            && ResolveWithinVerifiedRoot(host, root, relative) == Ok(Canonicalize(host, raw).path)
  {
    var relative := CategorizeDrop(host, root, raw).relative;
    InsideIff(host, root, raw, relative);
    var p := Canonicalize(host, raw).path;
    WalkFindsReal(host.tree, [], Walked(raw), host.links);
    TailResolves(host, root, p);
  }

  /** Forward, then reverse: dropping a file that a client path resolved to reports a path
      inside that resolves to the same file, however the client path was spelled. */
  lemma ForwardThenReverse(host: Host, root: Path, relative: string)
    requires VerifiedRoot(host, root) && ResolveWithinVerifiedRoot(host, root, relative).Ok?
    requires IsFile(host.tree, ResolveWithinVerifiedRoot(host, root, relative).value)
    ensures var p := ResolveWithinVerifiedRoot(host, root, relative).value;
            && CategorizeDrop(host, root, Absolute(p)) == Inside(Join(p[|root|..]))
            && ResolveWithinVerifiedRoot(host, root, Join(p[|root|..])) == Ok(p)
  {
    var p := ResolveWithinVerifiedRoot(host, root, relative).value;
    ResolvedIsReal(host, root, relative);
    assert p != root;
    AbsoluteIsCanonical(host, p);
    InsideIff(host, root, Absolute(p), Join(p[|root|..]));
    TailResolves(host, root, p);
  }

  /** Two drops reported as the same path are the same file. */
  lemma SameReportSameFile(host: Host, root: Path, a: string, b: string)
    requires VerifiedRoot(host, root)
    requires CategorizeDrop(host, root, a).Inside? && CategorizeDrop(host, root, a) == CategorizeDrop(host, root, b)
    ensures Canonicalize(host, a) == Canonicalize(host, b)
  {
    ReverseThenForward(host, root, a);
    ReverseThenForward(host, root, b);
  }

  /** Where nothing below the root is a link, no accepted path leaves the root: only links
      escape, and the containment check is there for them. */
  lemma OnlyLinksEscape(host: Host, root: Path, relative: string)
    requires VerifiedRoot(host, root)
    requires forall p :: p in host.tree && root <= p ==> !host.tree[p].Link?
    ensures ResolveWithinVerifiedRoot(host, root, relative) != Err(PathOutsideLibrary)
  {
    if ValidateRelative(relative).Ok? {
      AcceptedIff(relative);
      CanonicalizeUnderIsWalk(host, root, relative);
      WalkStaysBelow(host.tree, root, root, Walked(relative), host.links);
    }
  }

  /** Every drop is accounted for, where it belongs: the drop at position `i` is the next
      one inside, the next one outside, or one more directory. */
  lemma {:induction false} EveryDropIsReported(host: Host, root: Path, paths: seq<string>, i: nat)
    requires i < |paths|
    ensures var before, category := paths[..i], CategorizeDrop(host, root, paths[i]);
            && (category.Inside? ==>
                  && |Insides(host, root, before)| < |Insides(host, root, paths)|
                  && Insides(host, root, paths)[|Insides(host, root, before)|] == category.relative)
            && (category.Outside? ==>
                  && |Outsides(host, root, before)| < |Outsides(host, root, paths)|
                  && Outsides(host, root, paths)[|Outsides(host, root, before)|] == paths[i])
            && (category.Directory? ==> Directories(host, root, before) < Directories(host, root, paths))
  {
    if i < |paths| - 1 {
      EveryDropIsReported(host, root, Init(paths), i);
      assert Init(paths)[..i] == paths[..i];
    } else {
      assert paths[..i] == Init(paths);
    }
  }
}
