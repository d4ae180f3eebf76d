/** The relational check between an expected and a live product, and what it
    accepts: exactly the products equal up to what its flags leave free. */
module Compare {
  import opened Lists
  import opened Catalogue

  function FreeOf(free: set<(Id, Name)>, id: Id): set<Name> {
    set f | f in free && f.0 == id :: f.1
  }

  predicate ValuesMatch(e: ProductOption, l: ProductOption, free: set<Name>) {
    && (forall n | n in free :: n in e.values ==> n in l.values)
    && Outside(e.values, free) == Outside(l.values, free)
  }

  predicate IdsMatch(e: ProductOption, l: ProductOption) {
    forall n | n in e.ids :: e.ids[n].Some? ==> n in l.ids && l.ids[n] == e.ids[n]
  }

  function Placed(v: Variant, position: int): Variant {
    v.(position := position)
  }

  predicate VariantMatches(e: Variant, l: Variant, positionsFree: bool) {
    if positionsFree then Placed(e, l.position) == l else e == l
  }

  /** No difference is reported. */
  predicate Matches(e: Product, l: Product, free: set<(Id, Name)>, positionsFree: bool) {
    && e.title == l.title && e.handle == l.handle
    && |e.options| == |l.options|
    && (forall i | 0 <= i < |e.options| :: e.options[i].id == l.options[i].id)
    && (forall i | 0 <= i < |e.options| ::
          && e.options[i].name == l.options[i].name
          && ValuesMatch(e.options[i], l.options[i], FreeOf(free, e.options[i].id))
          && IdsMatch(e.options[i], l.options[i]))
    && e.variants.Keys == l.variants.Keys
    && (forall id | id in e.variants :: VariantMatches(e.variants[id], l.variants[id], positionsFree))
  }

  // ---- The check as the script runs it ------------------------------------------------

  datatype Difference =
    | TitleIs | HandleIs | OptionsAre
    | OptionNamed(option: Id) | ValueMissing(option: Id, value: Name) | ValuesAre(option: Id)
    | ValueIdIs(option: Id, value: Name)
    | VariantGone(variant: Id) | VariantAppeared(variant: Id) | VariantIs(variant: Id)

  /** Each free value must exist, wherever it stands; the others keep their order. */
  method CompareValues(e: ProductOption, l: ProductOption, free: set<Name>) returns (out: seq<Difference>)
    ensures out == [] <==> ValuesMatch(e, l, free)
  {
    out := [];
    var ev, lv := e.values, l.values;
    var rest, done := free, {};
    OutsideNone(e.values, {});
    OutsideNone(l.values, {});
    while rest != {}
      invariant done + rest == free
      invariant ev == Outside(e.values, done) && lv == Outside(l.values, done)
      invariant out == [] <==> forall n | n in done :: n in e.values ==> n in l.values
      decreases rest
    {
      var name :| name in rest;
      if name in ev && name !in lv {
        out := out + [ValueMissing(e.id, name)];
      }
      OutsideOneMore(e.values, done, name);
      OutsideOneMore(l.values, done, name);
      ev, lv := Outside(ev, {name}), Outside(lv, {name});
      rest, done := rest - {name}, done + {name};
    }
    assert done == free;
    if ev != lv {
      out := out + [ValuesAre(e.id)];
    }
  }

  method CompareIds(e: ProductOption, l: ProductOption) returns (out: seq<Difference>)
    ensures out == [] <==> IdsMatch(e, l)
  {
    out := [];
    var names := e.ids.Keys;
    while names != {}
      invariant names <= e.ids.Keys
      invariant out == [] <==>
        forall n | n in e.ids.Keys - names :: e.ids[n].Some? ==> n in l.ids && l.ids[n] == e.ids[n]
    {
      var name :| name in names;
      if e.ids[name].Some? && (name !in l.ids || l.ids[name] != e.ids[name]) {
        out := out + [ValueIdIs(e.id, name)];
      }
      names := names - {name};
    }
  }

  lemma {:induction false} OutsideOneMore(s: seq<Name>, ban: set<Name>, name: Name)
    ensures Outside(Outside(s, ban), {name}) == Outside(s, ban + {name})
  {
    if s != [] {
      OutsideOneMore(s[..|s| - 1], ban, name);
      OutsideConcat(Outside(s[..|s| - 1], ban), [s[|s| - 1]], {name});
    }
  }

  method CompareVariants(e: map<Id, Variant>, l: map<Id, Variant>, positionsFree: bool)
    returns (out: seq<Difference>)
    ensures out == [] <==>
      e.Keys == l.Keys && forall id | id in e :: VariantMatches(e[id], l[id], positionsFree)
  {
    out := [];
    var ids := e.Keys + l.Keys;
    while ids != {}
      invariant ids <= e.Keys + l.Keys
      invariant out == [] <==> forall id | id in e.Keys + l.Keys - ids ::
        id in e && id in l && VariantMatches(e[id], l[id], positionsFree)
    {
      var id :| id in ids;
      if id !in l {
        out := out + [VariantGone(id)];
      } else if id !in e {
        out := out + [VariantAppeared(id)];
      } else if !VariantMatches(e[id], l[id], positionsFree) {
        out := out + [VariantIs(id)];
      }
      ids := ids - {id};
    }
  }

  /** `compare`: title and handle, then the options (a different list of options ends
      the check), then the variants. It reports nothing exactly when `Matches`. */
  method FindDifferences(e: Product, l: Product, free: set<(Id, Name)>, positionsFree: bool)
    returns (out: seq<Difference>)
    ensures out == [] <==> Matches(e, l, free, positionsFree)
  {
    out := [];
    if e.title != l.title { out := out + [TitleIs]; }
    if e.handle != l.handle { out := out + [HandleIs]; }
    if |e.options| != |l.options| || exists i | 0 <= i < |e.options| :: e.options[i].id != l.options[i].id {
      out := out + [OptionsAre];
      return;
    }
    for i := 0 to |e.options|
      invariant out == [] <==>
        && e.title == l.title && e.handle == l.handle
        && (forall j | 0 <= j < i ::
              && e.options[j].name == l.options[j].name
              && ValuesMatch(e.options[j], l.options[j], FreeOf(free, e.options[j].id))
              && IdsMatch(e.options[j], l.options[j]))
    {
      if e.options[i].name != l.options[i].name {
        out := out + [OptionNamed(e.options[i].id)];
      }
      var values := CompareValues(e.options[i], l.options[i], FreeOf(free, e.options[i].id));
      var ids := CompareIds(e.options[i], l.options[i]);
      out := out + values + ids;
    }
    var more := CompareVariants(e.variants, l.variants, positionsFree);
    out := out + more;
  }

  // ---- What it accepts -----------------------------------------------------------------

  /** Equal up to value orders, variant positions and ids not minted in `e`. */
  ghost predicate OptionAlike(e: ProductOption, l: ProductOption) {
    && e.id == l.id && e.name == l.name
    && Elems(e.values) == Elems(l.values)
    && e.ids.Keys == l.ids.Keys
    && (forall n :: n in e.ids && e.ids[n].Some? ==> l.ids[n] == e.ids[n])
  }

  ghost predicate VariantAlike(e: Variant, l: Variant) {
    e.choice == l.choice && e.price == l.price && e.compareAtPrice == l.compareAtPrice
  }

  ghost predicate Alike(e: Product, l: Product) {
    && e.title == l.title && e.handle == l.handle
    && |e.options| == |l.options|
    && (forall i :: 0 <= i < |e.options| ==> OptionAlike(e.options[i], l.options[i]))
    && e.variants.Keys == l.variants.Keys
    && (forall id :: id in e.variants ==> VariantAlike(e.variants[id], l.variants[id]))
  }

  lemma AlikeTransitive(a: Product, b: Product, c: Product)
    requires Alike(a, b) && Alike(b, c)
    ensures Alike(a, c)
  {
    forall i | 0 <= i < |a.options| ensures OptionAlike(a.options[i], c.options[i]) {
      assert OptionAlike(a.options[i], b.options[i]) && OptionAlike(b.options[i], c.options[i]);
    }
    forall id | id in a.variants ensures VariantAlike(a.variants[id], c.variants[id]) {
      assert VariantAlike(a.variants[id], b.variants[id]) && VariantAlike(b.variants[id], c.variants[id]);
    }
  }

  ghost predicate FreeIsExpected(e: Product, free: set<(Id, Name)>) {
    forall i :: 0 <= i < |e.options| ==> FreeOf(free, e.options[i].id) <= Elems(e.options[i].values)
  }

  /** Up to the place of the free values: the other values keep their order. */
  ghost predicate OrdersAgree(e: Product, l: Product, free: set<(Id, Name)>)
    requires |e.options| == |l.options|
  {
    forall i :: 0 <= i < |e.options| ==>
      Outside(e.options[i].values, FreeOf(free, e.options[i].id))
      == Outside(l.options[i].values, FreeOf(free, e.options[i].id))
  }

  ghost predicate PositionsAgree(e: Product, l: Product) {
    e.variants.Keys == l.variants.Keys
    && forall id :: id in e.variants ==> e.variants[id].position == l.variants[id].position
  }

  /** The check on well-formed products accepts exactly those that agree on
      everything but the place of the free values, the ids marked unknown and,
      when they are free, the positions. */
  lemma MatchesExactly(e: Product, l: Product, free: set<(Id, Name)>, positionsFree: bool)
    requires WellFormed(e) && WellFormed(l) && FreeIsExpected(e, free)
    ensures Matches(e, l, free, positionsFree) <==>
      Alike(e, l) && OrdersAgree(e, l, free) && (positionsFree || PositionsAgree(e, l))
  {
    if Matches(e, l, free, positionsFree) {
      forall i | 0 <= i < |e.options| ensures OptionAlike(e.options[i], l.options[i]) {
        assert OptionOk(e.options[i]) && OptionOk(l.options[i]);
      }
      forall id | id in e.variants
        ensures VariantAlike(e.variants[id], l.variants[id])
          && (positionsFree || e.variants[id].position == l.variants[id].position)
      {
        assert VariantMatches(e.variants[id], l.variants[id], positionsFree);
      }
    }
    if Alike(e, l) && OrdersAgree(e, l, free) && (positionsFree || PositionsAgree(e, l)) {
      forall i | 0 <= i < |e.options|
        ensures e.options[i].id == l.options[i].id && e.options[i].name == l.options[i].name
          && ValuesMatch(e.options[i], l.options[i], FreeOf(free, e.options[i].id))
          && IdsMatch(e.options[i], l.options[i])
      {
        assert OptionAlike(e.options[i], l.options[i]);
        assert forall v :: v in e.options[i].values ==> v in Elems(l.options[i].values);
      }
      forall id | id in e.variants ensures VariantMatches(e.variants[id], l.variants[id], positionsFree) {
        assert VariantAlike(e.variants[id], l.variants[id]);
      }
    }
  }

  /** Equal but for ids that `e` does not know yet. */
  ghost predicate SameUpToMint(e: Product, l: Product) {
    Alike(e, l) && PositionsAgree(e, l)
    && |e.options| == |l.options|
    && forall i :: 0 <= i < |e.options| ==> e.options[i].values == l.options[i].values
  }

  lemma StrictMatch(e: Product, l: Product)
    requires WellFormed(e) && WellFormed(l)
    ensures Matches(e, l, {}, false) <==> SameUpToMint(e, l)
  {
    assert forall id :: FreeOf({}, id) == {};
    MatchesExactly(e, l, {}, false);
    forall i | 0 <= i < |e.options| ensures Outside(e.options[i].values, {}) == e.options[i].values {
      OutsideNone(e.options[i].values, {});
    }
    forall i | 0 <= i < |l.options| ensures Outside(l.options[i].values, {}) == l.options[i].values {
      OutsideNone(l.options[i].values, {});
    }
  }

  lemma KnownSameUpToMint(e: Product, l: Product)
    requires WellFormed(e) && WellFormed(l) && AllKnown(e) && SameUpToMint(e, l)
    ensures e == l
  {
    forall i | 0 <= i < |e.options| ensures e.options[i] == l.options[i] {
      assert OptionAlike(e.options[i], l.options[i]);
      assert e.options[i].ids == l.options[i].ids;
    }
    assert e.options == l.options;
    forall id | id in e.variants ensures e.variants[id] == l.variants[id] {
      assert VariantAlike(e.variants[id], l.variants[id]);
    }
    assert e.variants == l.variants;
  }

  /** With nothing free and every id known, only the product itself is accepted. */
  lemma StrictMatchIsEquality(e: Product, l: Product)
    requires WellFormed(e) && WellFormed(l) && AllKnown(e)
    ensures Matches(e, l, {}, false) <==> e == l
  {
    StrictMatch(e, l);
    if SameUpToMint(e, l) {
      KnownSameUpToMint(e, l);
    }
  }
}
