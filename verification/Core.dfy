/** Names shared by every module: opaque identities, optional values and small
    facts about sequences read as sets. */
module Core {

  /** A server-issued identity; the client only ever compares these. */
  datatype Id = Id(text: string)

  datatype Option<+T> = None | Some(value: T)

  /** The set a JavaScript `new Set(list)` holds. */
  function Elems<T>(s: seq<T>): (r: set<T>)
  {
    set x | x in s
  }

  /** No element occurs twice. */
  predicate Distinct<T(==)>(s: seq<T>)
  {
    forall i, j :: 0 <= i < j < |s| ==> s[i] != s[j]
  }

  function Max(a: int, b: int): int
  {
    if a < b then b else a
  }

  function Min(a: int, b: int): int
  {
    if a < b then a else b
  }

  function Init<T>(s: seq<T>): (r: seq<T>)
    requires |s| > 0
  {
    s[..|s| - 1]
  }

  function Last<T>(s: seq<T>): T
    requires |s| > 0
  {
    s[|s| - 1]
  }

  lemma ElemsAppend<T>(s: seq<T>, t: seq<T>)
    ensures Elems(s + t) == Elems(s) + Elems(t)
  {
  }

  lemma ElemsInit<T>(s: seq<T>)
    requires |s| > 0
    ensures Elems(s) == Elems(Init(s)) + {Last(s)}
  {
    assert s == Init(s) + [Last(s)];
    ElemsAppend(Init(s), [Last(s)]);
  }

  /** A list without repeats has as many elements as its set. */
  lemma {:induction false} DistinctSize<T>(s: seq<T>)
    requires Distinct(s)
    ensures |Elems(s)| == |s|
  {
    if s == [] {
      assert Elems(s) == {};
    } else {
      DistinctSize(Init(s));
      assert s == Init(s) + [Last(s)];
      assert Elems(s) == Elems(Init(s)) + {Last(s)};
      assert Last(s) !in Elems(Init(s));
    }
  }

  /** A subset of a finite set is no larger. */
  lemma {:induction false} SubsetSize<T>(a: set<T>, b: set<T>)
    requires a <= b
    ensures |a| <= |b|
  {
    if a != {} {
      var x :| x in a;
      SubsetSize(a - {x}, b - {x});
    }
  }
}
