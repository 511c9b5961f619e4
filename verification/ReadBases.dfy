/** Labels on read objects (`rememberBasis`, `basisOf`): walks over an object graph that
    may share children and may be cyclic. */
module ReadBases {
  import opened Core
  import opened EditBasis

  type Obj = nat

  /** `Object.values(item)`, keeping only the objects among them. */
  type Graph = map<Obj, seq<Obj>>

  function Children(graph: Graph, o: Obj): seq<Obj>
  {
    if o in graph then graph[o] else []
  }

  /** A set that holds everything a walk from `root` meets when it goes on from every
      object outside `stops`. */
  ghost predicate WalkClosed(graph: Graph, stops: set<Obj>, root: Obj, met: set<Obj>)
  {
    && root in met
    && forall o, c :: o in met && o !in stops && c in Children(graph, o) ==> c in met
  }

  /** The least such set: exactly what the walk meets. */
  ghost predicate Met(graph: Graph, stops: set<Obj>, root: Obj, met: set<Obj>)
  {
    && WalkClosed(graph, stops, root, met)
    && forall s :: WalkClosed(graph, stops, root, s) ==> met <= s
  }

  /** Every object a walk could meet. */
  ghost function Reachables(graph: Graph, root: Obj): set<Obj>
  {
    {root} + set o, c | o in graph && c in graph[o] :: c
  }

  /** The labels after everything in `met` takes a basis. */
  function Labelled(bases: map<Obj, Basis>, met: set<Obj>, basis: Basis): map<Obj, Basis>
  {
    map o | o in bases.Keys + met :: if o in met then basis else bases[o]
  }

  /** The labels among these objects. */
  function LabelsOf(bases: map<Obj, Basis>, met: set<Obj>): set<Option<Basis>>
  {
    set o | o in met && o in bases :: Some(bases[o])
  }

  lemma SameLabels(labels: seq<Option<Basis>>, other: seq<Option<Basis>>)
    requires Elems(labels) == Elems(other)
    ensures Usable(MinimumOf(labels)) <==> Usable(MinimumOf(other))
    ensures Usable(MinimumOf(labels)) ==> MinimumOf(labels) == MinimumOf(other)
  {
    assert forall v :: (v in labels <==> v in Elems(labels)) && (v in other <==> v in Elems(other));
    MinimumIgnoresOrder(labels, other);
  }

  /** A walk part of the way: visited objects and the stack. */
  ghost predicate Frontier(graph: Graph, stops: set<Obj>, root: Obj, seen: set<Obj>, pending: seq<Obj>)
  {
    && seen <= Reachables(graph, root) && Elems(pending) <= Reachables(graph, root)
    && (root in seen || root in pending)
    && (forall o, c :: o in seen && o !in stops && c in Children(graph, o) ==> c in seen || c in pending)
    && (forall s :: WalkClosed(graph, stops, root, s) ==> seen <= s && Elems(pending) <= s)
  }

  lemma FrontierSkips(graph: Graph, stops: set<Obj>, root: Obj, seen: set<Obj>, pending: seq<Obj>)
    requires Frontier(graph, stops, root, seen, pending) && pending != [] && Last(pending) in seen
    ensures Frontier(graph, stops, root, seen, Init(pending))
  {
    ElemsInit(pending);
    assert pending == Init(pending) + [Last(pending)];
  }

  lemma FrontierVisits(graph: Graph, stops: set<Obj>, root: Obj, seen: set<Obj>, pending: seq<Obj>)
    requires Frontier(graph, stops, root, seen, pending) && pending != [] && Last(pending) !in seen
    ensures var item := Last(pending);
            Frontier(graph, stops, root, seen + {item},
                     if item in stops then Init(pending) else Init(pending) + Children(graph, item))
    ensures Last(pending) in Reachables(graph, root)
  {
    var item := Last(pending);
    ElemsInit(pending);
    assert pending == Init(pending) + [item];
    ElemsAppend(Init(pending), Children(graph, item));
  }

  /** The labels met decide the combined basis, whatever order they are listed in. */
  lemma LabelsDecide(graph: Graph, bases: map<Obj, Basis>, value: Obj, met: set<Obj>, labels: seq<Option<Basis>>)
    requires Met(graph, bases.Keys, value, met) && Elems(labels) == LabelsOf(bases, met)
    ensures forall m, other :: Met(graph, bases.Keys, value, m) && Elems(other) == LabelsOf(bases, m) ==>
              && (Usable(MinimumOf(labels)) <==> Usable(MinimumOf(other)))
              && (Usable(MinimumOf(labels)) ==> MinimumOf(labels) == MinimumOf(other))
  {
    forall m, other | Met(graph, bases.Keys, value, m) && Elems(other) == LabelsOf(bases, m)
      ensures Usable(MinimumOf(labels)) <==> Usable(MinimumOf(other))
      ensures Usable(MinimumOf(labels)) ==> MinimumOf(labels) == MinimumOf(other)
    {
      assert m <= met && met <= m;
      SameLabels(labels, other);
    }
  }

  class Labels {
    /** The WeakMap from read objects to the basis of their response. */
    var bases: map<Obj, Basis>

    constructor ()
      ensures bases == map[]
    {
      bases := map[];
    }

    /** `rememberBasis`: everything reachable from the value takes the response's basis,
        whatever it carried before. */
    method RememberBasis(graph: Graph, value: Obj, basis: Basis) returns (ghost met: set<Obj>)
      modifies this
      ensures Met(graph, {}, value, met)
      ensures bases == Labelled(old(bases), met, basis)
      ensures forall o :: o in met ==> o in bases && bases[o] == basis
      ensures forall o :: o !in met ==> (o in bases <==> o in old(bases)) && (o in bases ==> bases[o] == old(bases)[o])
    {
      var seen: set<Obj> := {};
      var pending := [value];
      assert bases == Labelled(bases, seen, basis);
      while pending != []
        invariant Frontier(graph, {}, value, seen, pending)
        invariant bases == Labelled(old(bases), seen, basis)
        decreases Reachables(graph, value) - seen, |pending|
      {
        var item := Last(pending);
        var rest := Init(pending);
        if item in seen {
          FrontierSkips(graph, {}, value, seen, pending);
          pending := rest;
        } else {
          FrontierVisits(graph, {}, value, seen, pending);
          seen := seen + {item};
          bases := bases[item := basis];
          pending := rest + Children(graph, item);
        }
      }
      met := seen;
    }

    /** `basisOf`: the walk stops at the first labelled object on each path; the result is
        the minimum of the labels found. */
    method BasisOf(graph: Graph, value: Obj) returns (result: Option<Basis>, ghost met: set<Obj>,
                                                      ghost found: seq<Option<Basis>>)
      ensures Met(graph, bases.Keys, value, met)
      ensures Elems(found) == LabelsOf(bases, met) && result == MinimumOf(found)
      ensures forall m, labels :: Met(graph, bases.Keys, value, m) && Elems(labels) == LabelsOf(bases, m) ==>
                && (Usable(result) <==> Usable(MinimumOf(labels)))
                && (Usable(result) ==> result == MinimumOf(labels))
      ensures Usable(result) ==> forall o :: o in met && o in bases ==> Covers(result.value, bases[o])
    {
      var seen: set<Obj> := {};
      var pending := [value];
      var labels: seq<Option<Basis>> := [];
      while pending != []
        invariant Frontier(graph, bases.Keys, value, seen, pending)
        invariant forall l :: l in labels <==> exists o :: o in seen && o in bases && l == Some(bases[o])
        decreases Reachables(graph, value) - seen, |pending|
      {
        var item := Last(pending);
        var rest := Init(pending);
        if item in seen {
          FrontierSkips(graph, bases.Keys, value, seen, pending);
          pending := rest;
        } else {
          FrontierVisits(graph, bases.Keys, value, seen, pending);
          seen := seen + {item};
          if item in bases {
            labels := labels + [Some(bases[item])];
            pending := rest;
          } else {
            pending := rest + Children(graph, item);
          }
        }
      }
      met, found := seen, labels;
      result := MinimumBasis(labels);
      MinimumUsableIff(labels);
      LabelsDecide(graph, bases, value, met, labels);
      forall o | o in met && o in bases
        ensures Some(bases[o]) in found
      {
      }
    }
  }
}
