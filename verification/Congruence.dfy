/** Edits cannot tell alike products apart: on products equal up to value orders,
    positions and unminted ids, the same guard passes and the results are alike. */
module Congruence {
  import opened Lists
  import opened Catalogue
  import opened Edits
  import opened KeepsForm
  import opened Compare

  lemma {:induction false} SameIndex(a: seq<ProductOption>, c: seq<ProductOption>, id: Id)
    requires |a| == |c| && forall i :: 0 <= i < |a| ==> a[i].id == c[i].id
    ensures HasId(a, id) == HasId(c, id)
    ensures HasId(a, id) ==> IndexOf(a, id) == IndexOf(c, id)
  {
    if HasId(a, id) {
      assert c[IndexOf(a, id)].id == id;
    }
    if HasId(c, id) {
      assert a[IndexOf(c, id)].id == id;
    }
  }

  lemma IndexAlike(a: Product, c: Product, id: Id)
    requires Alike(a, c)
    ensures HasOption(a, id) == HasOption(c, id)
    ensures HasOption(a, id) ==> IndexOf(a.options, id) == IndexOf(c.options, id)
  {
    forall i | 0 <= i < |a.options| ensures a.options[i].id == c.options[i].id {
      assert OptionAlike(a.options[i], c.options[i]);
    }
    SameIndex(a.options, c.options, id);
  }

  lemma MembersAlike(e: ProductOption, l: ProductOption)
    requires OptionAlike(e, l)
    ensures forall v :: v in e.values <==> v in l.values
  {
    assert forall v :: v in e.values <==> v in Elems(e.values);
    assert forall v :: v in l.values <==> v in Elems(l.values);
  }

  lemma FitsAlike(a: Product, c: Product, op: Op)
    requires WellFormed(a) && WellFormed(c) && Alike(a, c) && Fits(c, op)
    ensures Fits(a, op)
  {
    match op
    case Title(_, _, _) =>
    case RenameValues(id, _) => IndexAlike(a, c, id); MembersAlikeAt(a, c, id);
    case AddValue(id, _) => IndexAlike(a, c, id); MembersAlikeAt(a, c, id);
    case MoveVariants(id, moves) =>
      IndexAlike(a, c, id);
      MembersAlikeAt(a, c, id);
      var i := IndexOf(a.options, id);
      forall m | m in moves ensures MoveFits(a, a.options[i], m) {
        MoveFitsAlike(a, c, i, m);
      }
    case DeleteValue(id, _, name) =>
      IndexAlike(a, c, id);
      MembersAlikeAt(a, c, id);
      forall u | u in a.variants && a.options[IndexOf(a.options, id)].name in a.variants[u].choice
        ensures a.variants[u].choice[a.options[IndexOf(a.options, id)].name] != name
      {
        assert VariantAlike(a.variants[u], c.variants[u]);
      }
    case ReorderValues(orders) =>
      forall i | 0 <= i < |orders|
        ensures orders[i].id == a.options[i].id && multiset(orders[i].values) == multiset(a.options[i].values)
      {
        assert OptionAlike(a.options[i], c.options[i]);
        assert OptionOk(a.options[i]) && OptionOk(c.options[i]);
        NormDistinctNoDup(a.options[i].values);
        NormDistinctNoDup(c.options[i].values);
        SameMembers(a.options[i].values, c.options[i].values);
      }
    case RestorePositions(_) =>
  }

  lemma MembersAlikeAt(a: Product, c: Product, id: Id)
    requires Alike(a, c) && HasOption(a, id) && HasOption(c, id)
    requires IndexOf(a.options, id) == IndexOf(c.options, id)
    ensures var i := IndexOf(a.options, id);
      && a.options[i].name == c.options[i].name
      && (forall v :: v in a.options[i].values <==> v in c.options[i].values)
  {
    var i := IndexOf(a.options, id);
    assert OptionAlike(a.options[i], c.options[i]);
    MembersAlike(a.options[i], c.options[i]);
  }

  lemma MoveFitsAlike(a: Product, c: Product, i: nat, m: Move)
    requires Alike(a, c) && i < |a.options| && MoveFits(c, c.options[i], m)
    ensures MoveFits(a, a.options[i], m)
  {
    assert OptionAlike(a.options[i], c.options[i]);
    MembersAlike(a.options[i], c.options[i]);
    assert VariantAlike(a.variants[m.variantId], c.variants[m.variantId]);
    forall u | u in a.variants
      ensures a.variants[u].choice != a.variants[m.variantId].choice[a.options[i].name := m.to]
    {
      assert VariantAlike(a.variants[u], c.variants[u]);
    }
  }

  // ---- Writes ---------------------------------------------------------------------------

  lemma RenamedVariantAlike(v: Variant, w: Variant, a: ProductOption, c: ProductOption, sub: map<Name, Name>,
                            qv: Variant, qw: Variant)
    requires VariantAlike(v, w) && a.name == c.name && a.name in v.choice
    requires v.choice[a.name] in a.values && v.choice[a.name] in c.values
    requires SameBut(v, qv, a.name) && SameBut(w, qw, c.name)
    requires ChoiceSubbed(v, a, sub, qv) && ChoiceSubbed(w, c, sub, qw)
    ensures VariantAlike(qv, qw)
  {
    assert qv.choice == qw.choice;
  }

  lemma RenamedVariantsAlike(a: Product, c: Product, i: nat, sub: map<Name, Name>, qa: Product, qc: Product)
    requires Alike(a, c) && OnlyOption(a, i, qa) && OnlyOption(c, i, qc)
    requires VariantsOk(a.options, a.variants) && VariantsOk(c.options, c.variants)
    requires Substituted(a, i, sub, qa) && Substituted(c, i, sub, qc)
    ensures forall id :: id in qa.variants ==> VariantAlike(qa.variants[id], qc.variants[id])
  {
    assert OptionAlike(a.options[i], c.options[i]);
    MembersAlike(a.options[i], c.options[i]);
    forall id | id in qa.variants ensures VariantAlike(qa.variants[id], qc.variants[id]) {
      assert VariantAlike(a.variants[id], c.variants[id]) && ChoiceOk(a.options, a.variants[id].choice);
      RenamedVariantAlike(a.variants[id], c.variants[id], a.options[i], c.options[i], sub,
                          qa.variants[id], qc.variants[id]);
    }
  }

  lemma OneOptionAlike(a: Product, c: Product, i: nat, qa: Product, qc: Product)
    requires Alike(a, c) && OnlyOption(a, i, qa) && OnlyOption(c, i, qc)
    requires OptionAlike(qa.options[i], qc.options[i])
    requires forall id :: id in qa.variants ==> id in qc.variants && VariantAlike(qa.variants[id], qc.variants[id])
    ensures Alike(qa, qc)
  {
    forall j | 0 <= j < |qa.options| ensures OptionAlike(qa.options[j], qc.options[j]) {
      assert OptionAlike(a.options[j], c.options[j]);
    }
  }

  lemma RenameAlike(a: Product, c: Product, i: nat, renames: seq<Rename>)
    requires FormOk(a) && FormOk(c) && Alike(a, c) && i < |a.options|
    requires Renamable(a.options[i], renames) && Renamable(c.options[i], renames)
    ensures RenamesRun(a.options[i].ids.Keys, renames) && RenamesRun(c.options[i].ids.Keys, renames)
    ensures Alike(RenameAll(a, i, renames), RenameAll(c, i, renames))
  {
    RenamesActTogether(a, i, renames);
    RenamesActTogether(c, i, renames);
    RenameAllShape(a, i, renames);
    RenameAllShape(c, i, renames);
    var sub, qa, qc := SubOf(renames), RenameAll(a, i, renames), RenameAll(c, i, renames);
    assert OptionAlike(a.options[i], c.options[i]);
    RenameKeepsOption(a.options[i], renames, qa.options[i]);
    RenameKeepsOption(c.options[i], renames, qc.options[i]);
    RenamedVariantsAlike(a, c, i, sub, qa, qc);
    OneOptionAlike(a, c, i, qa, qc);
  }

  lemma MoveAlike(a: Product, c: Product, name: Name, moves: seq<Move>)
    requires Alike(a, c) && DistinctMoves(moves)
    requires forall m :: m in moves ==> m.variantId in a.variants
    ensures Alike(a.(variants := MoveAll(a.variants, name, moves)), c.(variants := MoveAll(c.variants, name, moves)))
  {
    MoveAllActs(a.variants, name, moves);
    MoveAllActs(c.variants, name, moves);
    var ra, rc := MoveAll(a.variants, name, moves), MoveAll(c.variants, name, moves);
    forall id | id in a.variants ensures VariantAlike(ra[id], rc[id]) {
      assert VariantAlike(a.variants[id], c.variants[id]);
      if m :| m in moves && m.variantId == id {
        assert MovedTo(a.variants, name, m, ra) && MovedTo(c.variants, name, m, rc);
      } else {
        assert ra[id] == a.variants[id] && rc[id] == c.variants[id];
      }
    }
  }

  lemma WriteAlike(a: Product, c: Product, op: Op)
    requires WellFormed(a) && WellFormed(c) && Alike(a, c) && Fits(a, op) && Fits(c, op) && Guarded(op)
    ensures Runs(a, op) && Runs(c, op) && Alike(Write(a, op), Write(c, op))
  {
    WriteKeepsForm(a, op);
    WriteKeepsForm(c, op);
    match op
    case Title(_, _, _) =>
    case RenameValues(id, renames) =>
      IndexAlike(a, c, id);
      var i := IndexOf(a.options, id);
      assert OptionOk(a.options[i]) && OptionOk(c.options[i]);
      RenameAlike(a, c, i, renames);
    case AddValue(id, name) =>
      IndexAlike(a, c, id);
      MembersAlikeAt(a, c, id);
      var i := IndexOf(a.options, id);
      assert OptionAlike(a.options[i], c.options[i]);
      AddedAlike(a.options[i], c.options[i], name);
    case MoveVariants(id, moves) =>
      IndexAlike(a, c, id);
      assert OptionAlike(a.options[IndexOf(a.options, id)], c.options[IndexOf(a.options, id)]);
      MoveAlike(a, c, a.options[IndexOf(a.options, id)].name, moves);
    case DeleteValue(id, _, name) =>
      IndexAlike(a, c, id);
      MembersAlikeAt(a, c, id);
      var i := IndexOf(a.options, id);
      assert OptionAlike(a.options[i], c.options[i]);
      DeletedAlike(a.options[i], c.options[i], name);
    case ReorderValues(orders) => ReorderAlike(a, c, orders);
    case RestorePositions(order) =>
      PlaceAllShape(a.variants, order);
      PlaceAllShape(c.variants, order);
      var ra, rc := PlaceAll(a.variants, order), PlaceAll(c.variants, order);
      forall id | id in a.variants ensures VariantAlike(ra[id], rc[id]) {
        assert VariantAlike(a.variants[id], c.variants[id]);
      }
  }

  lemma AddedAlike(a: ProductOption, c: ProductOption, name: Name)
    requires OptionAlike(a, c)
    ensures OptionAlike(a.(values := a.values + [name], ids := a.ids[name := None]),
                        c.(values := c.values + [name], ids := c.ids[name := None]))
  {
    MembersAlike(a, c);
    assert Elems(a.values + [name]) == Elems(a.values) + {name};
    assert Elems(c.values + [name]) == Elems(c.values) + {name};
  }

  lemma DeletedAlike(a: ProductOption, c: ProductOption, name: Name)
    requires OptionAlike(a, c)
    ensures OptionAlike(a.(values := Outside(a.values, {name}), ids := a.ids - {name}),
                        c.(values := Outside(c.values, {name}), ids := c.ids - {name}))
  {
    MembersAlike(a, c);
    assert Elems(Outside(a.values, {name})) == Elems(a.values) - {name};
    assert Elems(Outside(c.values, {name})) == Elems(c.values) - {name};
  }

  lemma ReorderAlike(a: Product, c: Product, orders: seq<ValueOrder>)
    requires FormOk(a) && FormOk(c) && Alike(a, c)
    requires Fits(a, ReorderValues(orders)) && Fits(c, ReorderValues(orders))
    requires forall w :: w in orders ==> HasId(a.options, w.id) && HasId(c.options, w.id)
    ensures Alike(a.(options := ReorderAll(a.options, orders)), c.(options := ReorderAll(c.options, orders)))
  {
    ReorderAllActs(a.options, orders);
    ReorderAllActs(c.options, orders);
    var ra, rc := ReorderAll(a.options, orders), ReorderAll(c.options, orders);
    forall i | 0 <= i < |ra| ensures OptionAlike(ra[i], rc[i]) {
      assert OptionAlike(a.options[i], c.options[i]);
      ReorderedAlike(a.options[i], c.options[i], ra[i], rc[i]);
    }
  }

  /** New orders of alike values, the same for both or none at all, leave them alike. */
  lemma ReorderedAlike(a: ProductOption, c: ProductOption, ra: ProductOption, rc: ProductOption)
    requires OptionAlike(a, c) && ra == a.(values := ra.values) && rc == c.(values := rc.values)
    requires ra.values == rc.values || (ra == a && rc == c)
    ensures OptionAlike(ra, rc)
  {
  }

  // ---- Simulated states -------------------------------------------------------------------

  lemma ReflowAlike(p: Product)
    requires FormOk(p)
    ensures Readable(p) && Alike(p, Reflow(p)) && Alike(Reflow(p), p)
  {
    FormReadable(p);
    forall i | 0 <= i < |p.options|
      ensures OptionAlike(p.options[i], Reflow(p).options[i]) && OptionAlike(Reflow(p).options[i], p.options[i])
    {
      ReflowPermutes(p, i);
    }
  }

  lemma RetitleAlike(p: Product)
    requires forall id :: id in p.variants ==> Covers(Names(p.options), p.variants[id].choice)
    ensures Alike(p, Retitle(p)) && Alike(Retitle(p), p)
  {
  }

  lemma SimulateAlikeWrite(p: Product, op: Op)
    requires WellFormed(p) && Fits(p, op) && Guarded(op)
    ensures Runs(p, op) && Alike(Simulate(p, op), Write(p, op)) && Alike(Write(p, op), Simulate(p, op))
    ensures FlagsOf(p, op).alternative.Some? ==> Alike(Write(p, op), FlagsOf(p, op).alternative.value)
  {
    WriteKeepsForm(p, op);
    WriteShape(p, op);
    var w := Write(p, op);
    RetitleAlike(w);
    if op.MoveVariants? {
      ReflowAlike(w);
      ReflowKeepsForm(w);
      RetitleKeepsForm(Reflow(w));
      RetitleAlike(Reflow(w));
      AlikeTransitive(w, Reflow(w), Retitle(Reflow(w)));
      AlikeTransitive(Retitle(Reflow(w)), Reflow(w), w);
    }
  }

  /** Simulating an edit on alike products gives alike products. */
  lemma SimulateAlike(a: Product, c: Product, op: Op)
    requires WellFormed(a) && WellFormed(c) && Alike(a, c) && Fits(c, op) && Guarded(op)
    ensures Fits(a, op) && Runs(a, op) && Runs(c, op)
    ensures WellFormed(Simulate(a, op)) && WellFormed(Simulate(c, op))
    ensures Alike(Simulate(a, op), Simulate(c, op))
  {
    FitsAlike(a, c, op);
    EditKeepsForm(a, op);
    EditKeepsForm(c, op);
    SimulateAlikeWrite(a, op);
    SimulateAlikeWrite(c, op);
    WriteAlike(a, c, op);
    AlikeTransitive(Simulate(a, op), Write(a, op), Write(c, op));
    AlikeTransitive(Simulate(a, op), Write(c, op), Simulate(c, op));
  }
}
