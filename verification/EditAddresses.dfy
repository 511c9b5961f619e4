/** Which addresses a recovered edit may have: recovered text never leads a request out of the
    active library's metadata, and every address built from plain segments of a route passes. */
module EditAddresses {
  import opened Core
  import opened EditBasis
  import opened EditQueue
  import opened Paths

  /** The address of a route of a library. */
  function Address(library: string, path: seq<string>): string
  {
    "/api/v1/libraries/" + (library + "/" + Join(path))
  }

  /** Nothing in it could end the path or be decoded into something else. */
  predicate PlainText(text: string)
  {
    '?' !in text && '#' !in text && '%' !in text && '\\' !in text
  }

  predicate WriteMethod(httpMethod: string)
  {
    httpMethod == "POST" || httpMethod == "PATCH" || httpMethod == "PUT" || httpMethod == "DELETE"
  }

  // ----- Segments of an address -----------------------------------------------

  lemma LeadingSegment(text: string, name: string, tail: string, rest: string)
    requires '/' !in name && text == name + "/" + tail
    ensures Split(text + rest) == [name] + Split(tail + rest)
  {
    SplitFirst(name, tail + rest);
    assert text + rest == name + "/" + (tail + rest);
  }

  lemma LibrariesSegment(rest: string)
    ensures Split("libraries/" + rest) == ["libraries"] + Split(rest)
  {
    LeadingSegment("libraries/", "libraries", "", rest);
    assert "" + rest == rest;
  }

  lemma VersionSegment(rest: string)
    ensures Split("v1/libraries/" + rest) == ["v1", "libraries"] + Split(rest)
  {
    LeadingSegment("v1/libraries/", "v1", "libraries/", rest);
    LibrariesSegment(rest);
  }

  lemma ApiSegment(rest: string)
    ensures Split("api/v1/libraries/" + rest) == ["api", "v1", "libraries"] + Split(rest)
  {
    LeadingSegment("api/v1/libraries/", "api", "v1/libraries/", rest);
    VersionSegment(rest);
  }

  lemma RootSegment(rest: string)
    ensures Split("/api/v1/libraries/" + rest) == ["", "api", "v1", "libraries"] + Split(rest)
  {
    LeadingSegment("/api/v1/libraries/", "", "api/v1/libraries/", rest);
    ApiSegment(rest);
  }

  lemma RouteSegments(library: string, rest: string)
    requires '/' !in library
    ensures Split("/api/v1/libraries/" + (library + "/" + rest)) ==
            ["", "api", "v1", "libraries", library] + Split(rest)
  {
    RootSegment(library + "/" + rest);
    SplitFirst(library, rest);
  }

  /** A valid address lies below the active library: its segments begin with the library's, none
      of them steps up, and nothing in the text ends the path or is decoded. */
  lemma ValidStaysInLibrary(url: string, httpMethod: string, scope: Scope)
    requires ValidAddress(url, httpMethod, scope) && '/' !in scope.library
    ensures |Split(url)| >= 6 && Split(url)[..5] == ["", "api", "v1", "libraries", scope.library]
    ensures Up !in Walked(url) && PlainText(url) && WriteMethod(httpMethod)
  {
    var prefix := "/api/v1/libraries/" + scope.library + "/";
    var rest := url[|prefix|..];
    assert url == "/api/v1/libraries/" + (scope.library + "/" + rest) by {
      assert url == prefix + rest;
    }
    RouteSegments(scope.library, rest);
    NoStepUp(url);
  }

  lemma NoStepUp(url: string)
    requires ".." !in Split(url)
    ensures Up !in Walked(url)
  {
    forall i | 0 <= i < |Split(url)|
      ensures Walked(url)[i] != Up
    {
      assert Split(url)[i] in Split(url);
    }
  }

  // ----- Which addresses pass -------------------------------------------------

  lemma {:induction false} JoinChars(parts: seq<string>, c: char)
    requires c != '/'
    ensures c in Join(parts) <==> exists i :: 0 <= i < |parts| && c in parts[i]
  {
    if |parts| > 1 {
      JoinChars(parts[1..], c);
      if i :| 0 <= i < |parts| && c in parts[i] {
        if i > 0 {
          assert parts[1..][i - 1] == parts[i];
        }
      }
      if j :| 0 <= j < |parts[1..]| && c in parts[1..][j] {
        assert parts[j + 1] == parts[1..][j];
      }
    } else if |parts| == 1 {
      assert Join(parts) == parts[0];
    }
  }

  lemma AddressChars(library: string, path: seq<string>, c: char)
    requires c == '?' || c == '#' || c == '%' || c == '\\'
    ensures c in Address(library, path) <==> c in library || exists i :: 0 <= i < |path| && c in path[i]
  {
    JoinChars(path, c);
    assert c !in "/api/v1/libraries/" && c !in "/";
    var tail := library + "/" + Join(path);
    assert c in tail <==> c in library || c in Join(path);
    assert c in Address(library, path) <==> c in "/api/v1/libraries/" || c in tail;
  }

  lemma AddressIsPlainIff(library: string, path: seq<string>)
    ensures PlainText(Address(library, path)) <==>
              PlainText(library) && forall i :: 0 <= i < |path| ==> PlainText(path[i])
  {
    AddressChars(library, path, '?');
    AddressChars(library, path, '#');
    AddressChars(library, path, '%');
    AddressChars(library, path, '\\');
  }

  lemma PlainIff(text: string)
    ensures PlainText(text) <==> forall i :: 0 <= i < |text| ==> !ForbiddenChar(text[i])
  {
  }

  lemma AddressHasPrefix(library: string, path: seq<string>)
    ensures "/api/v1/libraries/" + library + "/" <= Address(library, path)
  {
    assert Address(library, path) == ("/api/v1/libraries/" + library + "/") + Join(path);
  }

  /** The address of a route passes exactly when it is a metadata write, none of its segments
      steps up, and none holds a character that could end the path or be decoded. */
  lemma AddressPassesIff(library: string, path: seq<string>, httpMethod: string, server: string)
    requires library != "" && '/' !in library
    requires path != [] && forall i :: 0 <= i < |path| ==> '/' !in path[i]
    ensures ValidAddress(Address(library, path), httpMethod, Scope(server, library)) <==>
              && WriteMethod(httpMethod) && MetadataPath(path)
              && PlainText(library) && library != ".."
              && forall i :: 0 <= i < |path| ==> PlainText(path[i]) && path[i] != ".."
  {
    var url := Address(library, path);
    AddressSegments(library, path);
    AddressHasPrefix(library, path);
    AddressIsPlainIff(library, path);
    PlainIff(url);
    WriteIff(url, ["", "api", "v1", "libraries", library], path, httpMethod);
    StepsUpIff(library, path);
  }

  lemma AddressSegments(library: string, path: seq<string>)
    requires '/' !in library && path != [] && forall i :: 0 <= i < |path| ==> '/' !in path[i]
    ensures Split(Address(library, path)) == ["", "api", "v1", "libraries", library] + path
  {
    RouteSegments(library, Join(path));
    SplitUndoesJoin(path);
  }

  lemma StepsUpIff(library: string, path: seq<string>)
    ensures ".." in ["", "api", "v1", "libraries", library] + path <==> library == ".." || ".." in path
  {
  }

  lemma WriteIff(url: string, root: seq<string>, path: seq<string>, httpMethod: string)
    requires Split(url) == root + path && |root| == 5 && root[..4] == ["", "api", "v1", "libraries"] && path != []
    ensures MetadataWrite(url, httpMethod) <==> WriteMethod(httpMethod) && root[4] != "" && MetadataPath(path)
  {
    var segments := root + path;
    assert segments[5..] == path && segments[..4] == root[..4] && segments[4] == root[4];
  }

  // ----- Edits the page made --------------------------------------------------

  /** `editId()` draws 32 hexadecimal digits, which the check accepts. */
  lemma DrawnIsToken(text: string)
    requires Hex32(text)
    ensures Token(text)
  {
  }

  /** What the owner acknowledged is small enough to be stored. */
  predicate SmallReviews(reviewed: map<string, nat>)
  {
    forall unit :: unit in reviewed ==> |unit| <= 256 && reviewed[unit] <= 9007199254740991
  }

  lemma EntryPassesIff(id: Id, operation: Id, content: Content, scope: Scope)
    requires Token(id.text) && Token(operation.text)
    ensures ValidEntry(id, operation, content, scope) <==>
              ValidAddress(content.url, content.httpMethod, scope) && SmallReviews(content.reviewed)
  {
  }

  /** An edit that the page itself made, for the address of a route, survives a reload exactly
      when that address passes and what its owner acknowledged is small enough. */
  lemma OwnEditPassesIff(edit: Edit, library: string, path: seq<string>, server: string)
    requires library != "" && '/' !in library
    requires path != [] && forall i :: 0 <= i < |path| ==> '/' !in path[i]
    requires Hex32(edit.id.text) && Hex32(edit.operation.text) && edit.content.url == Address(library, path)
    ensures ValidPending(edit, Scope(server, library)) <==>
              && WriteMethod(edit.content.httpMethod) && MetadataPath(path)
              && PlainText(library) && library != ".."
              && (forall i :: 0 <= i < |path| ==> PlainText(path[i]) && path[i] != "..")
              && SmallReviews(edit.content.reviewed)
  {
    DrawnIsToken(edit.id.text);
    DrawnIsToken(edit.operation.text);
    EntryPassesIff(edit.id, edit.operation, edit.content, Scope(server, library));
    AddressPassesIff(library, path, edit.content.httpMethod, server);
  }
}
