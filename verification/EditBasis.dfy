/** Read bases (`editBasis.ts`): the snapshot a displayed value came from, and the oldest
    one a selection must be checked against. */
module EditBasis {
  import opened Core

  /** `Number(part)` */
  datatype Num = NaN | Val(n: int)

  /** A basis string as `split(':')` reads it: two epochs, each with a counter. A string
      with fewer parts leaves the later ones out. */
  datatype Basis = Basis(mainEpoch: string, main: Num, planEpoch: Option<string>, plans: Num)

  const INCOMPATIBLE := Basis("incompatible-read-bases", NaN, None, NaN)

  predicate Hex32(text: string)
  {
    |text| == 32 && forall i :: 0 <= i < 32 ==> '0' <= text[i] <= '9' || 'a' <= text[i] <= 'f'
  }

  /** `validMetadataBasis` */
  predicate ValidBasis(b: Basis)
  {
    && Hex32(b.mainEpoch) && b.main.Val? && b.main.n >= 0
    && b.planEpoch.Some? && Hex32(b.planEpoch.value) && b.plans.Val? && b.plans.n >= 0
  }

  /** A valid basis names two epochs, of 32 lower-case hexadecimal digits each, and a counter
      from zero up in each; reading bases that are no such text, or cut short, are not. */
  lemma ValidBasisIff(b: Basis)
    ensures ValidBasis(b) <==>
              && |b.mainEpoch| == 32 && (forall c :: c in b.mainEpoch ==> c in "0123456789abcdef")
              && (exists n: nat :: b.main == Val(n))
              && b.planEpoch != None
              && |b.planEpoch.value| == 32 && (forall c :: c in b.planEpoch.value ==> c in "0123456789abcdef")
              && (exists n: nat :: b.plans == Val(n))
  {
    HexDigits(b.mainEpoch);
    if b.planEpoch.Some? {
      HexDigits(b.planEpoch.value);
    }
  }

  lemma HexDigits(text: string)
    ensures Hex32(text) <==> |text| == 32 && forall c :: c in text ==> c in "0123456789abcdef"
  {
    forall i | 0 <= i < |text|
      ensures text[i] in text && (text[i] in "0123456789abcdef" <==> '0' <= text[i] <= '9' || 'a' <= text[i] <= 'f')
    {
      HexDigit(text[i]);
    }
  }

  lemma HexDigit(c: char)
    ensures c in "0123456789abcdef" <==> '0' <= c <= '9' || 'a' <= c <= 'f'
  {
    var digits := "0123456789abcdef";
    if '0' <= c <= '9' {
      assert digits[c as int - '0' as int] == c;
    } else if 'a' <= c <= 'f' {
      assert digits[10 + (c as int - 'a' as int)] == c;
    }
  }

  predicate SameEpochs(a: Basis, b: Basis)
  {
    a.mainEpoch == b.mainEpoch && a.planEpoch == b.planEpoch
  }

  /** `Math.min` */
  function MinNum(a: Num, b: Num): Num
  {
    if a.NaN? || b.NaN? then NaN else Val(Min(a.n, b.n))
  }

  /** a is an earlier (or the same) snapshot of the same history. */
  ghost predicate Covers(a: Basis, b: Basis)
  {
    SameEpochs(a, b) && a.main.Val? && b.main.Val? && a.plans.Val? && b.plans.Val? && a.main.n <= b.main.n &&
        a.plans.n <= b.plans.n
  }

  /** `values.filter((value) => value !== undefined)` */
  function Present(values: seq<Option<Basis>>): (present: seq<Basis>)
  {
    if values == [] then []
    else if Last(values).Some? then Present(Init(values)) + [Last(values).value]
    else Present(Init(values))
  }

  function MainOf(b: Basis): Num
  {
    b.main
  }

  function PlansOf(b: Basis): Num
  {
    b.plans
  }

  /** The running minimum over the first n values, from the first one's counters. */
  function Lowest(values: seq<Basis>, start: Num, field: Basis -> Num): Num
  {
    if values == [] then start else MinNum(Lowest(Init(values), start, field), field(Last(values)))
  }

  /** The template string of the result: a missing part reads "undefined". */
  function Rendered(first: Basis, main: Num, plans: Num): Basis
  {
    Basis(first.mainEpoch, main, Some(if first.planEpoch.Some? then first.planEpoch.value else "undefined"), plans)
  }

  function MinimumOf(values: seq<Option<Basis>>): Option<Basis>
  {
    var valid := Present(values);
    if valid == [] then None
    else if exists i :: 0 <= i < |valid| && !SameEpochs(valid[i], valid[0]) then Some(INCOMPATIBLE)
    else Some(Rendered(valid[0], Lowest(valid, valid[0].main, MainOf), Lowest(valid, valid[0].plans, PlansOf)))
  }

  method MinimumBasis(values: seq<Option<Basis>>) returns (result: Option<Basis>)
    ensures result == MinimumOf(values)
  {
    var valid := Present(values);
    if |valid| == 0 {
      return None;
    }
    var first := valid[0];
    var main, plans := first.main, first.plans;
    var i := 0;
    while i < |valid|
      invariant 0 <= i <= |valid|
      invariant forall j :: 0 <= j < i ==> SameEpochs(valid[j], first)
      invariant main == Lowest(valid[..i], first.main, MainOf)
      invariant plans == Lowest(valid[..i], first.plans, PlansOf)
    {
      if !SameEpochs(valid[i], first) {
        return Some(INCOMPATIBLE);
      }
      assert Init(valid[..i + 1]) == valid[..i];
      main := MinNum(main, valid[i].main);
      plans := MinNum(plans, valid[i].plans);
      i := i + 1;
    }
    assert valid[..i] == valid;
    result := Some(Rendered(first, main, plans));
  }

  // ----- The greatest lower bound ---------------------------------------------

  lemma {:induction false} PresentMeaning(values: seq<Option<Basis>>)
    ensures forall b :: b in Present(values) <==> Some(b) in values
  {
    if values != [] {
      PresentMeaning(Init(values));
      assert values == Init(values) + [Last(values)];
    }
  }

  lemma {:induction false} LowestMeaning(values: seq<Basis>, start: Num, field: Basis -> Num)
    ensures var low := Lowest(values, start, field);
            && (low.Val? <==> start.Val? && forall b :: b in values ==> field(b).Val?)
            && (low.Val? ==>
                  && low.n <= start.n && (forall b :: b in values ==> low.n <= field(b).n)
                  && (low == start || exists b :: b in values && field(b) == low))
  {
    if values != [] {
      var front, last := Init(values), Last(values);
      LowestMeaning(front, start, field);
      assert values == front + [last];
      assert last in values && forall b :: b in values <==> b in front || b == last;
    }
  }

  /** All present, all valid, all of one history. */
  ghost predicate Compatible(values: seq<Option<Basis>>)
  {
    && (exists b :: Some(b) in values)
    && (forall b :: Some(b) in values ==> ValidBasis(b))
    && forall a, b :: Some(a) in values && Some(b) in values ==> SameEpochs(a, b)
  }

  ghost predicate Usable(result: Option<Basis>)
  {
    result.Some? && ValidBasis(result.value)
  }

  lemma CompatibleGivesBound(values: seq<Option<Basis>>)
    requires Compatible(values)
    ensures Usable(MinimumOf(values))
    ensures forall b :: Some(b) in values ==> Covers(MinimumOf(values).value, b)
    ensures forall l :: (forall b :: Some(b) in values ==> Covers(l, b)) ==> Covers(l, MinimumOf(values).value)
  {
    var valid := Present(values);
    PresentMeaning(values);
    var b :| Some(b) in values;
    assert b in valid;
    assert valid[0] in valid;
    forall i | 0 <= i < |valid|
      ensures SameEpochs(valid[i], valid[0])
    {
      assert valid[i] in valid;
    }
    LowestMeaning(valid, valid[0].main, MainOf);
    LowestMeaning(valid, valid[0].plans, PlansOf);
  }

  lemma UsableMeansCompatible(values: seq<Option<Basis>>)
    requires Usable(MinimumOf(values))
    ensures Compatible(values)
  {
    var valid := Present(values);
    PresentMeaning(values);
    LowestMeaning(valid, valid[0].main, MainOf);
    LowestMeaning(valid, valid[0].plans, PlansOf);
    assert valid[0] in valid;
    forall b | b in valid
      ensures SameEpochs(b, valid[0])
    {
      var i :| 0 <= i < |valid| && valid[i] == b;
    }
  }

  /** The result can authorize a save exactly when every displayed basis is valid and all
      are of one history; it is then the greatest lower bound. So an invalid or mixed
      basis poisons every later combination it enters. */
  lemma MinimumUsableIff(values: seq<Option<Basis>>)
    ensures Usable(MinimumOf(values)) <==> Compatible(values)
    ensures Usable(MinimumOf(values)) ==>
              && (forall b :: Some(b) in values ==> Covers(MinimumOf(values).value, b))
              && forall l :: (forall b :: Some(b) in values ==> Covers(l, b)) ==> Covers(l, MinimumOf(values).value)
  {
    if Usable(MinimumOf(values)) {
      UsableMeansCompatible(values);
    }
    if Compatible(values) {
      CompatibleGivesBound(values);
    }
  }

  lemma BoundsAgree(a: Basis, b: Basis)
    requires Covers(a, b) && Covers(b, a)
    ensures a == b
  {
  }

  /** The order of the displayed values, and repetitions among them, do not matter. */
  lemma MinimumIgnoresOrder(values: seq<Option<Basis>>, other: seq<Option<Basis>>)
    requires forall v :: v in values <==> v in other
    ensures Usable(MinimumOf(values)) <==> Usable(MinimumOf(other))
    ensures Usable(MinimumOf(values)) ==> MinimumOf(values) == MinimumOf(other)
  {
    MinimumUsableIff(values);
    MinimumUsableIff(other);
    assert Compatible(values) <==> Compatible(other);
    if Usable(MinimumOf(values)) {
      BoundsAgree(MinimumOf(values).value, MinimumOf(other).value);
    }
  }

  // ----- Page by page ---------------------------------------------------------

  /** Everything displayed, page after page. */
  function Displayed(pages: seq<seq<Option<Basis>>>): seq<Option<Basis>>
  {
    if pages == [] then [] else Displayed(Init(pages)) + Last(pages)
  }

  /** One combined basis for each page. */
  function PageMinimums(pages: seq<seq<Option<Basis>>>): seq<Option<Basis>>
  {
    if pages == [] then [] else PageMinimums(Init(pages)) + [MinimumOf(Last(pages))]
  }

  lemma {:induction false} DisplayedMeaning(pages: seq<seq<Option<Basis>>>)
    ensures forall v :: v in Displayed(pages) <==> exists i :: 0 <= i < |pages| && v in pages[i]
  {
    if pages != [] {
      DisplayedMeaning(Init(pages));
      forall v
        ensures v in Displayed(pages) <==> exists i :: 0 <= i < |pages| && v in pages[i]
      {
        if v in Displayed(Init(pages)) {
          var i :| 0 <= i < |Init(pages)| && v in Init(pages)[i];
          assert v in pages[i];
        }
        if v in Last(pages) {
          assert v in pages[|pages| - 1];
        }
        if i :| 0 <= i < |pages| && v in pages[i] {
          assert i < |pages| - 1 ==> v in Init(pages)[i];
        }
      }
    }
  }

  lemma {:induction false} PageMinimumsMeaning(pages: seq<seq<Option<Basis>>>)
    ensures |PageMinimums(pages)| == |pages|
    ensures forall i :: 0 <= i < |pages| ==> PageMinimums(pages)[i] == MinimumOf(pages[i])
  {
    if pages != [] {
      PageMinimumsMeaning(Init(pages));
    }
  }

  /** A page of a compatible display is compatible, unless it shows no basis; its minimum lies
      between the display's bounds and its own bases. */
  lemma PageOfDisplay(pages: seq<seq<Option<Basis>>>, i: nat)
    requires i < |pages| && Compatible(Displayed(pages)) && MinimumOf(pages[i]).Some?
    ensures Usable(MinimumOf(pages[i]))
    ensures forall b :: Some(b) in pages[i] ==> Covers(MinimumOf(pages[i]).value, b)
    ensures forall l :: (forall b :: Some(b) in Displayed(pages) ==> Covers(l, b)) ==>
            Covers(l, MinimumOf(pages[i]).value)
    ensures exists b :: Some(b) in pages[i]
  {
    DisplayedMeaning(pages);
    PresentMeaning(pages[i]);
    assert Present(pages[i])[0] in Present(pages[i]);
    assert forall v :: v in pages[i] ==> v in Displayed(pages);
    assert Compatible(pages[i]);
    CompatibleGivesBound(pages[i]);
  }

  lemma ShownHasMinimum(values: seq<Option<Basis>>, b: Basis)
    requires Some(b) in values
    ensures MinimumOf(values).Some?
  {
    PresentMeaning(values);
    assert b in Present(values);
  }

  lemma SameHistory(values: seq<Option<Basis>>, a: Basis, b: Basis)
    requires Compatible(values) && Some(a) in values && Some(b) in values
    ensures SameEpochs(a, b) && ValidBasis(b)
  {
  }

  lemma MinimumCovers(values: seq<Option<Basis>>, b: Basis)
    requires Usable(MinimumOf(values)) && Some(b) in values
    ensures Covers(MinimumOf(values).value, b) && ValidBasis(b)
  {
    MinimumUsableIff(values);
  }

  lemma PageWitness(pages: seq<seq<Option<Basis>>>, j: nat) returns (c: Basis)
    requires j < |pages| && Compatible(Displayed(pages)) && MinimumOf(pages[j]).Some?
    ensures Some(c) in Displayed(pages) && Usable(MinimumOf(pages[j])) && Covers(MinimumOf(pages[j]).value, c)
  {
    PageOfDisplay(pages, j);
    DisplayedMeaning(pages);
    c :| Some(c) in pages[j];
  }

  lemma PageMinimumFits(pages: seq<seq<Option<Basis>>>, j: nat, b: Basis)
    requires j < |pages| && Compatible(Displayed(pages)) && MinimumOf(pages[j]).Some? && Some(b) in Displayed(pages)
    ensures ValidBasis(MinimumOf(pages[j]).value) && SameEpochs(MinimumOf(pages[j]).value, b)
  {
    var c := PageWitness(pages, j);
    SameHistory(Displayed(pages), c, b);
  }

  lemma CompatiblePages(pages: seq<seq<Option<Basis>>>)
    requires Compatible(Displayed(pages))
    ensures Compatible(PageMinimums(pages))
  {
    PageMinimumsMeaning(pages);
    var b :| Some(b) in Displayed(pages);
    forall m | Some(m) in PageMinimums(pages)
      ensures ValidBasis(m) && SameEpochs(m, b)
    {
      var j :| 0 <= j < |pages| && PageMinimums(pages)[j] == Some(m);
      PageMinimumFits(pages, j, b);
    }
    SomePageHasMinimum(pages, b);
    OneHistory(PageMinimums(pages), b);
  }

  lemma SomePageHasMinimum(pages: seq<seq<Option<Basis>>>, b: Basis)
    requires Some(b) in Displayed(pages)
    ensures exists m :: Some(m) in PageMinimums(pages)
  {
    PageMinimumsMeaning(pages);
    DisplayedMeaning(pages);
    var i :| 0 <= i < |pages| && Some(b) in pages[i];
    ShownHasMinimum(pages[i], b);
    assert Some(PageMinimums(pages)[i].value) in PageMinimums(pages);
  }

  lemma OneHistory(values: seq<Option<Basis>>, b: Basis)
    requires exists m :: Some(m) in values
    requires forall m :: Some(m) in values ==> ValidBasis(m) && SameEpochs(m, b)
    ensures Compatible(values)
  {
  }

  lemma ShownFits(pages: seq<seq<Option<Basis>>>, i: nat, b: Basis, m: Basis)
    requires i < |pages| && Some(b) in pages[i] && Compatible(PageMinimums(pages)) && Some(m) in PageMinimums(pages)
    ensures ValidBasis(b) && SameEpochs(b, m)
  {
    PageMinimumsMeaning(pages);
    ShownHasMinimum(pages[i], b);
    assert PageMinimums(pages)[i] in PageMinimums(pages);
    SameHistory(PageMinimums(pages), m, MinimumOf(pages[i]).value);
    MinimumCovers(pages[i], b);
  }

  lemma CompatibleDisplay(pages: seq<seq<Option<Basis>>>)
    requires Compatible(PageMinimums(pages))
    ensures Compatible(Displayed(pages))
  {
    DisplayedMeaning(pages);
    var m :| Some(m) in PageMinimums(pages);
    forall b | Some(b) in Displayed(pages)
      ensures ValidBasis(b) && SameEpochs(b, m)
    {
      var i :| 0 <= i < |pages| && Some(b) in pages[i];
      ShownFits(pages, i, b, m);
    }
    MinimumIsShown(pages, m);
    OneHistory(Displayed(pages), m);
  }

  lemma MinimumIsShown(pages: seq<seq<Option<Basis>>>, m: Basis)
    requires Some(m) in PageMinimums(pages)
    ensures exists b :: Some(b) in Displayed(pages)
  {
    PageMinimumsMeaning(pages);
    DisplayedMeaning(pages);
    var k :| 0 <= k < |pages| && PageMinimums(pages)[k] == Some(m);
    PresentMeaning(pages[k]);
    assert Present(pages[k])[0] in Present(pages[k]);
    assert Some(Present(pages[k])[0]) in Displayed(pages);
  }

  /** Combining page by page gives what combining everything at once gives, pages without any
      basis included. */
  lemma MinimumIgnoresGrouping(pages: seq<seq<Option<Basis>>>)
    ensures var whole, grouped := MinimumOf(Displayed(pages)), MinimumOf(PageMinimums(pages));
            && (Usable(whole) <==> Usable(grouped))
            && (Usable(whole) ==> whole == grouped)
  {
    MinimumUsableIff(Displayed(pages));
    MinimumUsableIff(PageMinimums(pages));
    if Compatible(PageMinimums(pages)) {
      CompatibleDisplay(pages);
    }
    if Compatible(Displayed(pages)) {
      CompatiblePages(pages);
      WholeIsGrouped(pages, MinimumOf(Displayed(pages)).value, MinimumOf(PageMinimums(pages)).value);
    }
  }

  lemma WholeIsGrouped(pages: seq<seq<Option<Basis>>>, whole: Basis, grouped: Basis)
    requires Compatible(Displayed(pages)) && Compatible(PageMinimums(pages))
    requires MinimumOf(Displayed(pages)) == Some(whole) && MinimumOf(PageMinimums(pages)) == Some(grouped)
    ensures whole == grouped
  {
    var mins := PageMinimums(pages);
    CompatibleGivesBound(Displayed(pages));
    CompatibleGivesBound(mins);
    PageMinimumsMeaning(pages);
    DisplayedMeaning(pages);
    forall m | Some(m) in mins
      ensures Covers(whole, m)
    {
      var j :| 0 <= j < |mins| && mins[j] == Some(m);
      PageOfDisplay(pages, j);
    }
    forall b | Some(b) in Displayed(pages)
      ensures Covers(grouped, b)
    {
      var i :| 0 <= i < |pages| && Some(b) in pages[i];
      ShownHasMinimum(pages[i], b);
      PageOfDisplay(pages, i);
      assert mins[i] in mins;
    }
    BoundsAgree(whole, grouped);
  }
}
