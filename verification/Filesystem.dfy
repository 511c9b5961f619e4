/** A fixed directory tree with symbolic links, and `fs::canonicalize` over it. */
module Filesystem {
  import opened Core
  import opened Paths

  /** What is at a canonical path. A link holds the segments of its target. */
  datatype Node = Dir | File | Special | Link(absolute: bool, target: seq<Step>)

  type Tree = map<Path, Node>

  datatype IoError = NotFound | NotADirectory | TooManyLinks

  datatype Resolution = Found(path: Path) | Failed(error: IoError)

  predicate IsDir(tree: Tree, at: Path)
  {
    at == [] || (at in tree && tree[at].Dir?)
  }

  predicate IsFile(tree: Tree, at: Path)
  {
    at in tree && tree[at].File?
  }

  /** Every entry has a proper name and lies in a directory. */
  ghost predicate WellFormed(tree: Tree)
  {
    forall p :: p in tree ==> p != [] && ValidName(Last(p)) && IsDir(tree, Init(p))
  }

  /** Follow the steps from `at`, resolving at most `links` symbolic links. */
  function Walk(tree: Tree, at: Path, steps: seq<Step>, links: nat): Resolution
    decreases links, |steps|
  {
    if steps == [] then Found(at)
    else if !IsDir(tree, at) then Failed(NotADirectory)
    else
      match steps[0]
      case Here => Walk(tree, at, steps[1..], links)
      case Up => Walk(tree, if at == [] then [] else Init(at), steps[1..], links)
      case Into(name) =>
        var next := at + [name];
        if next !in tree then Failed(NotFound)
        else if tree[next].Link? then
          if links == 0 then Failed(TooManyLinks)
          else Walk(tree, if tree[next].absolute then [] else at, tree[next].target + steps[1..], links - 1)
        else Walk(tree, next, steps[1..], links)
  }

  /** The tree, the working directory and how many links the system follows. */
  datatype Host = Host(tree: Tree, cwd: Path, links: nat)

  ghost predicate ValidHost(host: Host)
  {
    WellFormed(host.tree) && IsDir(host.tree, host.cwd)
  }

  /** `fs::canonicalize` */
  function Canonicalize(host: Host, text: string): Resolution
  {
    if text == "" then Failed(NotFound)
    else Walk(host.tree, if IsAbsolute(text) then [] else host.cwd, Walked(text), host.links)
  }

  /** `fs::canonicalize(root.join(relative))` for a canonical root and a relative text. */
  function CanonicalizeUnder(host: Host, root: Path, relative: string): Resolution
  {
    Walk(host.tree, [], StepsInto(root) + Walked(relative), host.links)
  }

  /** A canonical absolute path as text. */
  function Absolute(path: Path): string
  {
    "/" + Join(path)
  }

  /** There, and not a link: what canonical paths are. */
  ghost predicate Real(tree: Tree, p: Path)
  {
    p == [] || (p in tree && !tree[p].Link?)
  }

  // ----- Canonical paths ------------------------------------------------------

  /** Whatever canonicalizing finds is canonical. */
  lemma {:induction false} WalkFindsReal(tree: Tree, at: Path, steps: seq<Step>, links: nat)
    requires WellFormed(tree) && Real(tree, at)
    ensures Walk(tree, at, steps, links).Found? ==> Real(tree, Walk(tree, at, steps, links).path)
    decreases links, |steps|
  {
    if steps != [] && IsDir(tree, at) {
      match steps[0]
      case Here => WalkFindsReal(tree, at, steps[1..], links);
      case Up => WalkFindsReal(tree, if at == [] then [] else Init(at), steps[1..], links);
      case Into(name) =>
        var next := at + [name];
        if next in tree {
          if tree[next].Link? {
            if links > 0 {
              WalkFindsReal(tree, if tree[next].absolute then [] else at, tree[next].target + steps[1..], links - 1);
            }
          } else {
            WalkFindsReal(tree, next, steps[1..], links);
          }
        }
    }
  }

  lemma {:induction false} PrefixIsDir(tree: Tree, p: Path, n: nat)
    requires WellFormed(tree) && Real(tree, p) && n < |p|
    ensures IsDir(tree, p[..n])
    decreases |p|
  {
    if n < |p| - 1 {
      PrefixIsDir(tree, Init(p), n);
      assert Init(p)[..n] == p[..n];
    } else {
      assert p[..n] == Init(p);
    }
  }

  lemma {:induction false} RealNamesAreValid(tree: Tree, p: Path)
    requires WellFormed(tree) && Real(tree, p)
    ensures ValidNames(p)
  {
    if p != [] {
      RealNamesAreValid(tree, Init(p));
      assert p == Init(p) + [Last(p)];
    }
  }

  lemma WalkInto(tree: Tree, at: Path, name: Name, steps: seq<Step>, links: nat)
    requires IsDir(tree, at) && at + [name] in tree && !tree[at + [name]].Link?
    ensures Walk(tree, at, [Into(name)] + steps, links) == Walk(tree, at + [name], steps, links)
  {
    assert ([Into(name)] + steps)[1..] == steps;
  }

  lemma PrefixIsReal(tree: Tree, p: Path, n: nat)
    requires WellFormed(tree) && Real(tree, p) && n <= |p|
    ensures Real(tree, p[..n])
  {
    if n < |p| {
      PrefixIsDir(tree, p, n);
    } else {
      assert p[..n] == p;
    }
  }

  lemma StepsIntoNext(p: Path, n: nat, steps: seq<Step>)
    requires n < |p|
    ensures StepsInto(p[n..]) + steps == [Into(p[n])] + (StepsInto(p[n + 1..]) + steps)
  {
    assert p[n..][1..] == p[n + 1..];
  }

  /** Walking down a canonical path follows no link and loses nothing. */
  lemma {:induction false} WalkDown(tree: Tree, p: Path, n: nat, steps: seq<Step>, links: nat)
    requires WellFormed(tree) && Real(tree, p) && n <= |p|
    ensures Walk(tree, p[..n], StepsInto(p[n..]) + steps, links) == Walk(tree, p, steps, links)
    decreases |p| - n
  {
    if n == |p| {
      assert p[..n] == p && StepsInto(p[n..]) + steps == steps;
    } else {
      PrefixIsDir(tree, p, n);
      PrefixIsReal(tree, p, n + 1);
      assert p[..n] + [p[n]] == p[..n + 1];
      var below := StepsInto(p[n + 1..]) + steps;
      StepsIntoNext(p, n, steps);
      WalkInto(tree, p[..n], p[n], below, links);
      WalkDown(tree, p, n + 1, steps, links);
    }
  }

  lemma CanonicalizeUnderIsWalk(host: Host, root: Path, relative: string)
    requires ValidHost(host) && Real(host.tree, root)
    ensures CanonicalizeUnder(host, root, relative) == Walk(host.tree, root, Walked(relative), host.links)
  {
    WalkDown(host.tree, root, 0, Walked(relative), host.links);
    assert root[..0] == [] && root[0..] == root;
  }

  /** Canonicalizing a canonical path changes nothing, whatever the link limit. */
  lemma CanonicalizeIsIdempotent(host: Host, text: string)
    requires ValidHost(host) && Canonicalize(host, text).Found?
    ensures Canonicalize(host, Absolute(Canonicalize(host, text).path)) == Canonicalize(host, text)
  {
    WalkFindsReal(host.tree, if IsAbsolute(text) then [] else host.cwd, Walked(text), host.links);
    AbsoluteIsCanonical(host, Canonicalize(host, text).path);
  }

  lemma AbsoluteIsCanonical(host: Host, p: Path)
    requires ValidHost(host) && Real(host.tree, p)
    ensures Canonicalize(host, Absolute(p)) == Found(p)
  {
    var text := Absolute(p);
    assert text[1..] == Join(p);
    assert Split(text) == [""] + Split(Join(p));
    if p == [] {
      assert Walked(text) == [Here, Here];
      assert Walk(host.tree, [], [Here], host.links) == Found([]);
    } else {
      RealNamesAreValid(host.tree, p);
      NamesWalkInto(p);
      assert Walked(text) == [Here] + StepsInto(p);
      assert Walked(text)[1..] == StepsInto(p) + [];
      WalkDown(host.tree, p, 0, [], host.links);
      assert p[..0] == [] && p[0..] == p;
    }
  }

  /** Below a directory without links, a path that never climbs stays below it. */
  lemma {:induction false} WalkStaysBelow(tree: Tree, root: Path, at: Path, steps: seq<Step>, links: nat)
    requires root <= at && Up !in steps
    requires forall p :: p in tree && root <= p ==> !tree[p].Link?
    ensures Walk(tree, at, steps, links).Found? ==> root <= Walk(tree, at, steps, links).path
    decreases |steps|
  {
    if steps != [] && IsDir(tree, at) {
      assert steps == [steps[0]] + steps[1..];
      match steps[0]
      case Here => WalkStaysBelow(tree, root, at, steps[1..], links);
      case Up =>
      case Into(name) =>
        if at + [name] in tree {
          WalkStaysBelow(tree, root, at + [name], steps[1..], links);
        }
    }
  }
}
