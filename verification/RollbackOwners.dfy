/** Exactly which live states the rollback planner takes for the load's own, told by the
    names, values and places themselves. Anything else is somebody else's change, and the
    product is refused. */
module RollbackOwners {
  import opened Lists
  import opened Catalogue
  import opened Compare
  import opened Executor
  import opened RollbackPlan

  // ---- One option --------------------------------------------------------------------------

  /** Of the names listed under an id this is the last; a log's promise may repeat an id. */
  ghost predicate LastCarries(o: ProductOption, name: Name, id: Maybe<Id>) {
    exists k :: LastUnder(o.ids, o.values, id, k) && o.values[k] == name
  }

  predicate Under(ids: map<Name, Maybe<Id>>, name: Name, id: Maybe<Id>) {
    name in ids && ids[name] == id
  }

  ghost predicate LastUnder(ids: map<Name, Maybe<Id>>, values: seq<Name>, id: Maybe<Id>, k: int) {
    && 0 <= k < |values| && Under(ids, values[k], id)
    && forall j :: k < j < |values| ==> !Under(ids, values[j], id)
  }

  /** Every start value is still there by its id, under its start or its promised name. */
  ghost predicate OwnNames(so: ProductOption, po: ProductOption, lo: ProductOption) {
    forall n, id :: Carries(so, n, id) ==>
      exists m :: Carries(lo, m, id) && (m == n || LastCarries(po, m, id))
  }

  /** A value with an id the product did not have is one the load promised. */
  ghost predicate OwnValues(so: ProductOption, po: ProductOption, lo: ProductOption) {
    forall m, id :: Carries(lo, m, id) && (forall n :: !Carries(so, n, id)) ==> m in po.values
  }

  /** The variant holds the value it started with, whatever its name, or the promised one. */
  ghost predicate OwnPlace(so: ProductOption, po: ProductOption, lo: ProductOption, s: Variant, p: Variant, l: Variant) {
    && so.name in s.choice && lo.name in l.choice
    && ((exists id :: Carries(so, s.choice[so.name], id) && Carries(lo, l.choice[lo.name], id))
        || (po.name in p.choice && l.choice[lo.name] == p.choice[po.name]))
  }

  /** Nothing on the product is anybody else's change. */
  ghost predicate OwnState(s: Product, p: Product, l: Product)
    requires |s.options| == |p.options| == |l.options|
    requires s.variants.Keys == p.variants.Keys == l.variants.Keys
  {
    && l.handle == s.handle && (l.title == s.title || l.title == p.title)
    && (forall i :: 0 <= i < |s.options| ==>
          && OwnNames(s.options[i], p.options[i], l.options[i])
          && OwnValues(s.options[i], p.options[i], l.options[i]))
    && (forall i, id :: 0 <= i < |s.options| && id in s.variants ==>
          OwnPlace(s.options[i], p.options[i], l.options[i], s.variants[id], p.variants[id], l.variants[id]))
  }

  // ---- The planner's own tests ----------------------------------------------------------------

  lemma {:induction false} NameOfIsLast(ids: map<Name, Maybe<Id>>, values: seq<Name>, id: Maybe<Id>) returns (k: nat)
    requires NameOf(ids, values, id).Some?
    ensures LastUnder(ids, values, id, k) && values[k] == NameOf(ids, values, id).value
  {
    var n := |values| - 1;
    if Under(ids, values[n], id) {
      k := n;
    } else {
      k := NameOfIsLast(ids, values[..n], id);
    }
  }

  lemma {:induction false} LastIsNameOf(ids: map<Name, Maybe<Id>>, values: seq<Name>, id: Maybe<Id>, k: nat)
    requires LastUnder(ids, values, id, k)
    ensures NameOf(ids, values, id) == Some(values[k])
  {
    if k < |values| - 1 {
      LastIsNameOf(ids, values[..|values| - 1], id, k);
    }
  }

  lemma NamedIs(o: ProductOption, id: Maybe<Id>, name: Name)
    ensures Named(o, id) == Some(name) <==> LastCarries(o, name, id)
  {
    if Named(o, id) == Some(name) {
      var k := NameOfIsLast(o.ids, o.values, id);
    }
    if LastCarries(o, name, id) {
      var k :| LastUnder(o.ids, o.values, id, k) && o.values[k] == name;
      LastIsNameOf(o.ids, o.values, id, k);
    }
  }

  /** In a product as the store reads it an id has one name. */
  lemma OneName(o: ProductOption, id: Maybe<Id>, name: Name)
    requires OptionOk(o) && id.Some?
    ensures Named(o, id) == Some(name) <==> Carries(o, name, id)
  {
    if Carries(o, name, id) {
      assert Named(o, id).Some?;
    }
  }

  lemma OwnNamesExactly(so: ProductOption, po: ProductOption, lo: ProductOption)
    requires OptionOk(so) && OptionOk(lo) && forall n :: n in so.ids ==> so.ids[n].Some?
    ensures RenamesOurs(so, po, lo) <==> OwnNames(so, po, lo)
  {
    forall n | n in so.values ensures n in so.ids {
      assert n in Elems(so.values);
    }
    forall n, id | Carries(so, n, id)
      ensures !RenameProblem(so, po, lo, n) <==>
        exists m :: Carries(lo, m, id) && (m == n || LastCarries(po, m, id))
    {
      forall m ensures Named(lo, id) == Some(m) <==> Carries(lo, m, id) {
        OneName(lo, id, m);
      }
      forall m ensures Named(po, id) == Some(m) <==> LastCarries(po, m, id) {
        NamedIs(po, id, m);
      }
      if Named(lo, id).Some? {
        assert Carries(lo, Named(lo, id).value, id);
      }
    }
    forall n | n in so.values ensures Carries(so, n, so.ids[n]) {
    }
  }

  lemma OwnValuesExactly(so: ProductOption, po: ProductOption, lo: ProductOption)
    requires OptionOk(so) && OptionOk(lo) && forall n :: n in lo.ids ==> lo.ids[n].Some?
    ensures ValuesOurs(so, po, lo) <==> OwnValues(so, po, lo)
  {
    forall m, id | Carries(lo, m, id) ensures Extra(so, lo, m) <==> forall n :: !Carries(so, n, id) {
      forall n ensures Named(so, id) == Some(n) <==> Carries(so, n, id) {
        OneName(so, id, n);
      }
      if Named(so, id).Some? {
        assert Carries(so, Named(so, id).value, id);
      }
    }
    forall m | m in lo.values ensures m in lo.ids && Carries(lo, m, lo.ids[m]) {
      assert m in Elems(lo.values);
    }
  }

  lemma OwnPlaceExactly(so: ProductOption, po: ProductOption, lo: ProductOption, s: Variant, p: Variant, l: Variant)
    requires OptionOk(so) && OptionOk(lo) && so.name in s.choice && lo.name in l.choice
    requires s.choice[so.name] in so.values && l.choice[lo.name] in lo.values
    ensures !MoveProblem(so, po, lo, s, p, l) <==> OwnPlace(so, po, lo, s, p, l)
  {
    assert s.choice[so.name] in Elems(so.values) && l.choice[lo.name] in Elems(lo.values);
    assert Carries(so, s.choice[so.name], so.ids[s.choice[so.name]]);
    assert Carries(lo, l.choice[lo.name], lo.ids[l.choice[lo.name]]);
  }

  // ---- One product -------------------------------------------------------------------------------

  lemma OwnOptionExactly(s: Product, p: Product, l: Product, listing: seq<Id>, i: nat)
    requires Aligned(s, p, l, listing) && i < |s.options|
    ensures OptionOurs(s, p, l, listing, i) <==>
      && OwnNames(s.options[i], p.options[i], l.options[i]) && OwnValues(s.options[i], p.options[i], l.options[i])
      && forall id :: id in s.variants ==>
           OwnPlace(s.options[i], p.options[i], l.options[i], s.variants[id], p.variants[id], l.variants[id])
  {
    OwnNamesExactly(s.options[i], p.options[i], l.options[i]);
    OwnValuesExactly(s.options[i], p.options[i], l.options[i]);
    forall id | id in s.variants
      ensures !MoveProblem(s.options[i], p.options[i], l.options[i], s.variants[id], p.variants[id], l.variants[id]) <==>
        OwnPlace(s.options[i], p.options[i], l.options[i], s.variants[id], p.variants[id], l.variants[id])
    {
      assert ChoiceOk(s.options, s.variants[id].choice) && ChoiceOk(l.options, l.variants[id].choice);
      OwnPlaceExactly(s.options[i], p.options[i], l.options[i], s.variants[id], p.variants[id], l.variants[id]);
    }
  }

  /** The planner finds nothing foreign exactly where nothing is anybody else's. */
  lemma OwnStateExactly(s: Product, p: Product, l: Product, listing: seq<Id>)
    requires Aligned(s, p, l, listing)
    ensures NothingForeign(s, p, l, listing) <==> OwnState(s, p, l)
  {
    forall i | 0 <= i < |s.options|
      ensures OptionOurs(s, p, l, listing, i) <==>
        && OwnNames(s.options[i], p.options[i], l.options[i]) && OwnValues(s.options[i], p.options[i], l.options[i])
        && forall id :: id in s.variants ==>
             OwnPlace(s.options[i], p.options[i], l.options[i], s.variants[id], p.variants[id], l.variants[id])
    {
      OwnOptionExactly(s, p, l, listing, i);
    }
  }

  /** The planned edits, simulated, reach the start state with the live prices. */
  ghost predicate ReachesStart(s: Product, p: Product, l: Product, listing: seq<Id>)
    requires Aligned(s, p, l, listing)
  {
    var ops := RollbackOps(s, p, l, listing);
    RunsAll(l, ops) && Matches(WithPrices(s, l), Expected(l, ops), {}, false)
  }

  /** A product is not refused exactly when its options and variants are still those of
      the start, nothing on it is anybody else's, and the edits reach the start state. */
  lemma RefusedExactly(s: Product, p: Product, l: Product, listing: seq<Id>)
    ensures NoProblem(s, p, l, listing) <==>
      Aligned(s, p, l, listing) && OwnState(s, p, l) && ReachesStart(s, p, l, listing)
  {
    if Aligned(s, p, l, listing) {
      OwnStateExactly(s, p, l, listing);
    }
  }
}
