/** Exactly when restoring a refused batch's snapshots restores the cache. */
module Rollback {
  import opened Core
  import opened Counts
  import opened CacheModel
  import opened Agreement
  import opened Runs

  // ----- A membership rewritten several times ----------------------------------

  lemma {:induction false} WithoutTwice(s: seq<Id>, removed: set<Id>)
    ensures Without(Without(s, removed), removed) == Without(s, removed)
  {
    if s != [] {
      WithoutTwice(Init(s), removed);
      if Last(s) !in removed {
        assert Init(Without(s, removed)) == Without(Init(s), removed);
      }
    }
  }

  lemma {:induction false} WithoutWithAdded(s: seq<Id>, add: seq<Id>, removed: set<Id>)
    ensures Without(WithAdded(s, add), removed) == WithAdded(Without(s, removed), Without(add, removed))
  {
    if add != [] {
      WithoutWithAdded(s, Init(add), removed);
      var earlier := WithAdded(s, Init(add));
      WithoutElems(earlier, removed);
      assert Last(add) in earlier <==> Last(add) in Elems(earlier);
      if Last(add) !in earlier {
        assert Init(earlier + [Last(add)]) == earlier;
      }
      if Last(add) !in removed {
        assert Init(Without(add, removed)) == Without(Init(add), removed);
        assert Last(add) in Without(earlier, removed) <==> Last(add) in Elems(Without(earlier, removed));
      }
    }
  }

  lemma {:induction false} WithAddedAbsorbs(s: seq<Id>, add: seq<Id>)
    requires Elems(add) <= Elems(s)
    ensures WithAdded(s, add) == s
  {
    if add != [] {
      ElemsInit(add);
      WithAddedAbsorbs(s, Init(add));
      assert Last(add) in Elems(s);
    }
  }

  /** A list settles after two applications. */
  lemma NextSettles(x: seq<Id>, add: seq<Id>, remove: seq<Id>)
    ensures var twice := NextMembershipOf(NextMembershipOf(x, add, remove), add, remove);
            NextMembershipOf(twice, add, remove) == twice
  {
    var r := Elems(remove);
    var kept, staying := Without(x, r), Without(add, r);
    var once := NextMembershipOf(x, add, remove);
    var twice := NextMembershipOf(once, add, remove);
    WithoutTwice(x, r);
    WithoutWithAdded(kept, add, r);
    var kept1 := Without(once, r);
    assert kept1 == WithAdded(kept, staying);
    WithoutTwice(once, r);
    WithoutWithAdded(kept1, add, r);
    WithAddedElems(kept, staying);
    WithAddedAbsorbs(kept1, staying);
    assert Without(twice, r) == kept1;
  }

  /** The list after n steps of the same batch. */
  function Times(x: seq<Id>, add: seq<Id>, remove: seq<Id>, n: nat): seq<Id>
  {
    if n == 0 then x else NextMembershipOf(Times(x, add, remove, n - 1), add, remove)
  }

  lemma {:induction false} TimesSettles(x: seq<Id>, add: seq<Id>, remove: seq<Id>, n: nat)
    requires n >= 2
    ensures Times(x, add, remove, n) == Times(x, add, remove, 2)
  {
    if n > 2 {
      TimesSettles(x, add, remove, n - 1);
      NextSettles(x, add, remove);
      assert Times(x, add, remove, 1) == NextMembershipOf(Times(x, add, remove, 0), add, remove);
    }
  }

  lemma {:induction false} TimesFixed(x: seq<Id>, add: seq<Id>, remove: seq<Id>, n: nat)
    requires NextMembershipOf(x, add, remove) == x
    ensures Times(x, add, remove, n) == x
  {
    if n > 0 {
      TimesFixed(x, add, remove, n - 1);
    }
  }

  /** No list comes back after changing: it returns to itself after some steps only if
      the first step already left it alone. */
  lemma TimesNeverReturns(x: seq<Id>, add: seq<Id>, remove: seq<Id>, n: nat)
    requires n >= 1 && Times(x, add, remove, n) == x
    ensures NextMembershipOf(x, add, remove) == x
  {
    assert Times(x, add, remove, 1) == NextMembershipOf(Times(x, add, remove, 0), add, remove);
    assert Times(x, add, remove, 2) == NextMembershipOf(NextMembershipOf(x, add, remove), add, remove);
    if n >= 2 {
      TimesSettles(x, add, remove, n);
      NextSettles(x, add, remove);
    }
  }

  // ----- A projection that met an unknown membership ---------------------------

  function Occurrences(bundles: seq<Id>, b: Id): nat
  {
    if bundles == [] then 0 else Occurrences(Init(bundles), b) + if Last(bundles) == b then 1 else 0
  }

  lemma {:induction false} OccurrencesPositive(bundles: seq<Id>, b: Id)
    ensures b in bundles <==> Occurrences(bundles, b) >= 1
  {
    if bundles != [] {
      assert bundles == Init(bundles) + [Last(bundles)];
      OccurrencesPositive(Init(bundles), b);
    }
  }

  lemma {:induction false} EntryAfter(cache: Cache, axis: Axis, bundles: seq<Id>, add: seq<Id>, remove: seq<Id>, b: Id)
    requires forall c :: c in bundles ==> Entry(cache, axis, c).Some?
    ensures MembershipsOver(cache, axis, bundles, add, remove).changes.Some?
    ensures Entry(MembershipsOver(cache, axis, bundles, add, remove).cache, axis, b) ==
            Refiled(Entry(cache, axis, b), add, remove, Occurrences(bundles, b))
  {
    if bundles != [] {
      var front, last := Init(bundles), Last(bundles);
      assert last in bundles && forall c :: c in front ==> c in bundles;
      EntryAfter(cache, axis, front, add, remove, b);
      EntryAfter(cache, axis, front, add, remove, last);
      var p := MembershipsOver(cache, axis, front, add, remove);
      var after := NextMembershipOf(Entry(p.cache, axis, last).value, add, remove);
      EntryWritten(p.cache, axis, last, after, b);
    }
  }

  function Refiled(entry: Option<seq<Id>>, add: seq<Id>, remove: seq<Id>, n: nat): Option<seq<Id>>
  {
    if entry.Some? then Some(Times(entry.value, add, remove, n)) else None
  }

  lemma EntryWritten(cache: Cache, axis: Axis, bundle: Id, after: seq<Id>, b: Id)
    ensures Entry(cache[EntryKey(axis, bundle) := Membership(Some(after))], axis, b) ==
            if b == bundle then Some(after) else Entry(cache, axis, b)
  {
  }

  /** The position of the first bundle whose membership was never loaded. */
  function FirstUnknown(cache: Cache, axis: Axis, bundles: seq<Id>): (n: nat)
    ensures n <= |bundles|
    ensures forall i :: 0 <= i < n ==> Entry(cache, axis, bundles[i]).Some?
    ensures n < |bundles| ==> Entry(cache, axis, bundles[n]).None?
  {
    if bundles == [] then 0
    else if Entry(cache, axis, bundles[0]).None? then 0
    else 1 + FirstUnknown(cache, axis, bundles[1..])
  }

  /** A caller can see this before the call: either the axis is known, or every bundle
      named before the first unknown one already holds its final list. */
  predicate LeavesNoTrace(cache: Cache, axis: Axis, payload: BatchUpdate)
  {
    var n := FirstUnknown(cache, axis, payload.bundleIds);
    || KnownOn(cache, axis, payload)
    || forall i :: 0 <= i < n ==>
         var x := Entry(cache, axis, payload.bundleIds[i]).value;
         NextMembershipOf(x, Adds(payload, axis), Removes(payload, axis)) == x
  }

  lemma UnknownCache(cache: Cache, axis: Axis, bundles: seq<Id>, add: seq<Id>, remove: seq<Id>)
    requires FirstUnknown(cache, axis, bundles) < |bundles|
    ensures var n := FirstUnknown(cache, axis, bundles);
            && MembershipsOver(cache, axis, bundles, add, remove).changes.None?
            && MembershipsOver(cache, axis, bundles, add, remove).cache ==
               MembershipsOver(cache, axis, bundles[..n], add, remove).cache
  {
    var n := FirstUnknown(cache, axis, bundles);
    EntryAfter(cache, axis, bundles[..n], add, remove, bundles[n]);
    assert Init(bundles[..n + 1]) == bundles[..n];
    UnknownStaysUnknown(cache, axis, bundles, add, remove, n + 1);
  }

  /** The unlogged writes of one axis change nothing exactly when it leaves no trace. */
  lemma AxisTrace(cache: Cache, axis: Axis, payload: BatchUpdate)
    requires WellTyped(cache) && !KnownOn(cache, axis, payload)
    ensures AxisProjected(cache, axis, payload).changes.None?
    ensures AxisProjected(cache, axis, payload).cache == cache <==> LeavesNoTrace(cache, axis, payload)
  {
    var bundles, add, remove := payload.bundleIds, Adds(payload, axis), Removes(payload, axis);
    var n := FirstUnknown(cache, axis, bundles);
    assert n < |bundles| by {
      var b :| b in bundles && Entry(cache, axis, b).None?;
      var i :| 0 <= i < |bundles| && bundles[i] == b;
    }
    UnknownCache(cache, axis, bundles, add, remove);
    var written := MembershipsOver(cache, axis, bundles[..n], add, remove).cache;
    MembershipsOverFrame(cache, axis, bundles[..n], add, remove);
    if written == cache {
      forall i | 0 <= i < n
        ensures var x := Entry(cache, axis, bundles[i]).value; NextMembershipOf(x, add, remove) == x
      {
        var x := Entry(cache, axis, bundles[i]).value;
        EntryAfter(cache, axis, bundles[..n], add, remove, bundles[i]);
        assert bundles[..n][i] == bundles[i];
        OccurrencesPositive(bundles[..n], bundles[i]);
        TimesNeverReturns(x, add, remove, Occurrences(bundles[..n], bundles[i]));
      }
    }
    if LeavesNoTrace(cache, axis, payload) {
      forall k | k in cache
        ensures written[k] == cache[k]
      {
        if b: Id :| k == EntryKey(axis, b) {
          EntryAfter(cache, axis, bundles[..n], add, remove, b);
          OccurrencesPositive(bundles[..n], b);
          if b in bundles[..n] {
            TimesFixed(Entry(cache, axis, b).value, add, remove, Occurrences(bundles[..n], b));
          }
        }
      }
    }
  }

  lemma AxesApart(cache: Cache, other: Cache, axis: Axis, payload: BatchUpdate)
    requires other.Keys == cache.Keys
    requires forall b :: EntryKey(axis, b) in cache ==> other[EntryKey(axis, b)] == cache[EntryKey(axis, b)]
    ensures KnownOn(other, axis, payload) <==> KnownOn(cache, axis, payload)
    ensures LeavesNoTrace(other, axis, payload) <==> LeavesNoTrace(cache, axis, payload)
  {
    forall b
      ensures Entry(other, axis, b) == Entry(cache, axis, b)
    {
    }
    SameFirstUnknown(cache, other, axis, payload.bundleIds);
  }

  lemma {:induction false} SameFirstUnknown(cache: Cache, other: Cache, axis: Axis, bundles: seq<Id>)
    requires forall b :: Entry(other, axis, b) == Entry(cache, axis, b)
    ensures FirstUnknown(other, axis, bundles) == FirstUnknown(cache, axis, bundles)
  {
    if bundles != [] {
      SameFirstUnknown(cache, other, axis, bundles[1..]);
    }
  }

  lemma KnownAxisLogs(cache: Cache, axis: Axis, payload: BatchUpdate)
    requires KnownOn(cache, axis, payload)
    ensures AxisProjected(cache, axis, payload).changes.Some? && LeavesNoTrace(cache, axis, payload)
  {
    if !(Adds(payload, axis) == [] && Removes(payload, axis) == []) {
      KnownProjects(cache, axis, payload.bundleIds, Adds(payload, axis), Removes(payload, axis));
    }
  }

  /** Undoing a refused batch gives back the exact cache it started from if and only if,
      on each axis, the projection kept its log or had written nothing before giving up. */
  lemma RollbackRestoresExactlyWhen(cache: Cache, payload: BatchUpdate)
    requires WellTyped(cache)
    ensures Unlogged(cache, payload) == cache <==>
            LeavesNoTrace(cache, CollectionAxis, payload) && LeavesNoTrace(cache, TagAxis, payload)
  {
    var collections := AxisProjected(cache, CollectionAxis, payload);
    MembershipsOverFrame(cache, CollectionAxis, payload.bundleIds, payload.addCollections, payload.removeCollections);
    if KnownOn(cache, CollectionAxis, payload) {
      KnownAxisLogs(cache, CollectionAxis, payload);
    } else {
      AxisTrace(cache, CollectionAxis, payload);
    }
    var first := if collections.changes.None? then collections.cache else cache;
    assert WellTyped(first) && first.Keys == cache.Keys;
    AxesApart(cache, first, TagAxis, payload);
    MembershipsOverFrame(first, TagAxis, payload.bundleIds, payload.addTags, payload.removeTags);
    if KnownOn(first, TagAxis, payload) {
      KnownAxisLogs(first, TagAxis, payload);
    } else {
      AxisTrace(first, TagAxis, payload);
      var last := AxisProjected(first, TagAxis, payload).cache;
      assert Unlogged(cache, payload) == last;
      if last == cache {
        forall k | k in cache
          ensures first[k] == cache[k]
        {
          if k.BundleTags? {
          } else {
            assert last[k] == first[k];
          }
        }
        assert first == cache;
      }
    }
  }

  /** Two bundles, the second never loaded: the first entry stays rewritten after the rollback. */
  lemma RollbackCanLeaveATrace() returns (cache: Cache, payload: BatchUpdate)
    ensures WellTyped(cache) && Unlogged(cache, payload) != cache
  {
    var b, c, shelf := Id("b"), Id("c"), Id("shelf");
    cache := map[BundleCollections(b) := Membership(Some([]))];
    payload := BatchUpdate([b, c], [shelf], [], [], []);
    assert Init(payload.bundleIds) == [b] && Init([b]) == [] && Init([shelf]) == [];
    assert WithAdded([], [shelf]) == [shelf];
    assert Without([], Elems([])) == [];
    assert FirstUnknown(cache, CollectionAxis, [c]) == 0;
    assert payload.bundleIds[1..] == [c];
    assert FirstUnknown(cache, CollectionAxis, payload.bundleIds) == 1;
    assert payload.bundleIds[0] == b && payload.bundleIds[1] == c;
    assert !KnownOn(cache, CollectionAxis, payload) by {
      assert c in payload.bundleIds && Entry(cache, CollectionAxis, c).None?;
    }
    assert NextMembershipOf([], [shelf], []) == [shelf];
    assert !LeavesNoTrace(cache, CollectionAxis, payload);
    RollbackRestoresExactlyWhen(cache, payload);
  }

  // ----- A refusal that comes late --------------------------------------------

  /** The oldest snapshot of each key. */
  function Oldest(log: seq<Snapshot>): map<Key, Value>
  {
    if log == [] then map[] else map[Last(log).key := Last(log).value] + Oldest(Init(log))
  }

  lemma {:induction false} UndoIsOldest(cache: Cache, log: seq<Snapshot>)
    ensures Undo(cache, log) == cache + Oldest(log)
    decreases |log|
  {
    if log != [] {
      var s := Last(log);
      UndoIsOldest(cache[s.key := s.value], Init(log));
      assert cache[s.key := s.value] + Oldest(Init(log)) == cache + (map[s.key := s.value] + Oldest(Init(log)));
    }
  }

  /** Two batches in flight: the refused one took the cache from `before` to `after` with its
      log, and the other has written since. Restoring the log sets every key of the log back
      to before both. So a value written since survives the refusal if and only if the
      refused batch did not log its key, or the write had put the earlier value back. */
  lemma LateRefusalKeepsWriteIff(before: Cache, after: Cache, log: seq<Snapshot>, later: Cache, key: Key)
    requires Undo(after, log) == before && key in before && key in later
    ensures key in Undo(later, log)
    ensures Undo(later, log)[key] == later[key] <==> key !in Oldest(log) || later[key] == before[key]
    ensures key in Oldest(log) ==> Undo(later, log)[key] == before[key]
  {
    UndoIsOldest(after, log);
    UndoIsOldest(later, log);
  }
}
