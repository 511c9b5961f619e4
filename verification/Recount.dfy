/** The recount the deltas stand in for: the library's own memberships, counted
    from scratch. */
module Recount {
  import opened Core
  import opened Forest
  import opened Counts

  /** bundle -> the ids it holds on one axis (collections, or tags). */
  type Holdings = map<Id, set<Id>>

  ghost function Fitting(holdings: Holdings, rule: Rule): (r: set<Id>)
  {
    set b | b in holdings && Fits(rule, holdings[b])
  }

  /** DISTINCT bundles under the rule. */
  ghost function Tally(holdings: Holdings, rule: Rule): nat
  {
    |Fitting(holdings, rule)|
  }

  /** What the server does to one bundle: removals first, then additions. */
  function Refiled(memberships: set<Id>, add: set<Id>, remove: set<Id>): set<Id>
  {
    (memberships - remove) + add
  }

  function Batched(holdings: Holdings, ids: set<Id>, add: set<Id>, remove: set<Id>): Holdings
  {
    map b | b in holdings :: if b in ids then Refiled(holdings[b], add, remove) else holdings[b]
  }

  /** The changes a batch reports: each bundle's membership just before and just after
      its own step, earlier steps of the same batch included. */
  ghost predicate Reports(holdings: Holdings, ids: seq<Id>, add: set<Id>, remove: set<Id>,
                          changes: seq<MembershipChange>)
  {
    && |changes| == |ids|
    && forall i :: 0 <= i < |ids| ==>
         && ids[i] in holdings
         && Elems(changes[i].before) == Batched(holdings, Elems(ids[..i]), add, remove)[ids[i]]
         && Elems(changes[i].after) == Refiled(Elems(changes[i].before), add, remove)
  }

  lemma TallyUpdate(holdings: Holdings, b: Id, memberships: set<Id>, rule: Rule)
    requires b in holdings
    ensures Tally(holdings[b := memberships], rule) ==
            Tally(holdings, rule) + One(Fits(rule, memberships)) - One(Fits(rule, holdings[b]))
  {
    TallyOthers(holdings, b, rule);
    TallyOthers(holdings[b := memberships], b, rule);
    assert holdings[b := memberships] - {b} == holdings - {b};
  }

  lemma TallyOthers(holdings: Holdings, b: Id, rule: Rule)
    requires b in holdings
    ensures Tally(holdings, rule) == Tally(holdings - {b}, rule) + One(Fits(rule, holdings[b]))
  {
    var others := Fitting(holdings - {b}, rule);
    assert Fitting(holdings, rule) == if Fits(rule, holdings[b]) then others + {b} else others;
  }

  lemma ReportsInit(holdings: Holdings, ids: seq<Id>, add: set<Id>, remove: set<Id>, changes: seq<MembershipChange>)
    requires Reports(holdings, ids, add, remove, changes) && ids != []
    ensures Reports(holdings, Init(ids), add, remove, Init(changes))
    ensures Last(ids) in holdings
    ensures Elems(Last(changes).before) == Batched(holdings, Elems(Init(ids)), add, remove)[Last(ids)]
    ensures Elems(Last(changes).after) == Refiled(Elems(Last(changes).before), add, remove)
  {
    forall i | 0 <= i < |Init(ids)|
      ensures Init(ids)[..i] == ids[..i]
    {
    }
  }

  lemma BatchedStep(holdings: Holdings, ids: seq<Id>, add: set<Id>, remove: set<Id>)
    requires ids != [] && Last(ids) in holdings
    ensures var earlier := Batched(holdings, Elems(Init(ids)), add, remove);
            Batched(holdings, Elems(ids), add, remove) ==
            earlier[Last(ids) := Refiled(earlier[Last(ids)], add, remove)]
  {
    ElemsInit(ids);
    var earlier := Batched(holdings, Elems(Init(ids)), add, remove);
    var later := Batched(holdings, Elems(ids), add, remove);
    var b := Last(ids);
    var once := Refiled(holdings[b], add, remove);
    assert Refiled(once, add, remove) == once;
    forall c | c in holdings
      ensures later[c] == (if c == b then Refiled(earlier[b], add, remove) else earlier[c])
    {
    }
  }

  /** Adding the batch's deltas to a recount gives the recount after the batch: for
      any parent map, any batch, repeated ids included. */
  lemma {:induction false} DeltaIsRecount(holdings: Holdings, ids: seq<Id>, add: set<Id>, remove: set<Id>,
                                          changes: seq<MembershipChange>, rule: Rule)
    requires Reports(holdings, ids, add, remove, changes)
    ensures Tally(Batched(holdings, Elems(ids), add, remove), rule) == Tally(holdings, rule) + Delta(rule, changes)
  {
    if ids == [] {
      assert Batched(holdings, Elems(ids), add, remove) == holdings;
    } else {
      var earlier := Batched(holdings, Elems(Init(ids)), add, remove);
      ReportsInit(holdings, ids, add, remove, changes);
      DeltaIsRecount(holdings, Init(ids), add, remove, Init(changes), rule);
      BatchedStep(holdings, ids, add, remove);
      TallyUpdate(earlier, Last(ids), Refiled(earlier[Last(ids)], add, remove), rule);
    }
  }

  lemma RefiledTwice(memberships: set<Id>, add: set<Id>, remove: set<Id>)
    ensures Refiled(Refiled(memberships, add, remove), add, remove) == Refiled(memberships, add, remove)
  {
  }

  /** A bundle named again in the same batch changes no count. */
  lemma RepeatGainsNothing(holdings: Holdings, ids: seq<Id>, add: set<Id>, remove: set<Id>,
                           changes: seq<MembershipChange>, rule: Rule, i: nat, j: nat)
    requires Reports(holdings, ids, add, remove, changes)
    requires i < j < |ids| && ids[i] == ids[j]
    ensures Gain(rule, changes[j]) == 0
  {
    var b := ids[j];
    assert ids[..j][i] == b && b in Elems(ids[..j]);
    assert b in holdings && Elems(changes[j].before) == Batched(holdings, Elems(ids[..j]), add, remove)[b];
    assert Elems(changes[j].before) == Refiled(holdings[b], add, remove);
    RefiledTwice(holdings[b], add, remove);
  }

  ghost predicate Exact(counts: map<Id, int>, holdings: Holdings, rules: Id -> Rule)
  {
    forall id :: At(counts, id) == Tally(holdings, rules(id))
  }

  /** Exact counts stay exact, and the clamp at zero never changes a figure. */
  lemma AppliedStaysExact(counts: map<Id, int>, next: map<Id, int>, rules: Id -> Rule,
                          holdings: Holdings, ids: seq<Id>, add: set<Id>, remove: set<Id>,
                          changes: seq<MembershipChange>)
    requires Reports(holdings, ids, add, remove, changes)
    requires Exact(counts, holdings, rules)
    requires Applied(counts, id => Delta(rules(id), changes), next)
    ensures Exact(next, Batched(holdings, Elems(ids), add, remove), rules)
    ensures forall id :: At(counts, id) + Delta(rules(id), changes) >= 0
  {
    forall id
      ensures At(next, id) == Tally(Batched(holdings, Elems(ids), add, remove), rules(id))
      ensures At(counts, id) + Delta(rules(id), changes) >= 0
    {
      assert At(counts, id) == Tally(holdings, rules(id));
      DeltaIsRecount(holdings, ids, add, remove, changes, rules(id));
      AppliedAt(counts, id => Delta(rules(id), changes), next, id);
    }
  }

  lemma AppliedAt(counts: map<Id, int>, delta: Id -> int, next: map<Id, int>, id: Id)
    requires Applied(counts, delta, next) && At(counts, id) + delta(id) >= 0
    ensures At(next, id) == At(counts, id) + delta(id)
  {
  }
}
