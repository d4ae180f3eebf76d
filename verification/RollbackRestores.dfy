/** The last stages of a rollback, and the whole of it: from a recoverable live state
    every planned edit passes at its turn and the start state comes back. */
module RollbackRestores {
  import opened Lists
  import opened Catalogue
  import opened Edits
  import opened KeepsForm
  import opened Compare
  import opened Congruence
  import opened Executor
  import opened RollbackPlan
  import opened RollbackReaches
  import opened RollbackStages

  // ---- Deletes -------------------------------------------------------------------------------

  lemma DeletesExactly(so: ProductOption, lo: ProductOption, added: Maybe<Name>)
    requires KnownOption(so) && KnownOption(lo) && StillNamed(so, lo)
    requires forall m :: m in lo.ids && m !in so.ids ==> added == Some(m)
    requires forall n :: n in lo.values ==> n in lo.ids && lo.ids[n].Some?
    ensures DeletesBack(so, lo, lo.values) == [] ==> lo.ids == so.ids
    ensures DeletesBack(so, lo, lo.values) != [] ==>
      added.Some? && added.value in lo.ids && added.value !in so.ids
      && DeletesBack(so, lo, lo.values) == [DeleteValue(so.id, lo.ids[added.value].value, added.value)]
      && lo.ids - {added.value} == so.ids
  {
    NormDistinctNoDup(lo.values);
    forall n | n in lo.values ensures Extra(so, lo, n) <==> n !in so.ids {
    }
    if x :| x in lo.ids && x !in so.ids {
      assert x in Elems(lo.values);
      DeletesAtMostOne(so, lo, lo.values, x);
      MapsEqual(so.ids, lo.ids - {x});
    } else {
      EmptyOrSome(DeletesBack(so, lo, lo.values));
      MapsEqual(so.ids, lo.ids);
    }
  }

  lemma DeletedContent(s: Product, l: Product, x: Product, r: int, d: nat, name: Name, q: Product)
    requires d < |s.options| && Content(s, l, x, Phase(r, d, true, true, false)) && r != d
    requires l.options[d].ids - {name} == s.options[d].ids
    requires q == x.(options := q.options) && |q.options| == |x.options|
    requires forall i :: 0 <= i < |q.options| && i != d ==> q.options[i] == x.options[i]
    requires q.options[d].id == x.options[d].id && q.options[d].name == x.options[d].name
    requires q.options[d].ids == x.options[d].ids - {name}
    ensures Content(s, l, q, Phase(r, d, true, true, true))
  {
    var before, after := Phase(r, d, true, true, false), Phase(r, d, true, true, true);
    forall i | 0 <= i < |s.options| ensures OptionBack(s.options[i], l.options[i], q.options[i], LiveIds(after, i)) {
      assert OptionBack(s.options[i], l.options[i], x.options[i], LiveIds(before, i));
    }
    forall id | id in s.variants ensures VariantBack(s, s.variants[id], l.variants[id], q.variants[id], after) {
      assert VariantBack(s, s.variants[id], l.variants[id], x.variants[id], before);
    }
  }

  lemma DeleteStage(s: Product, p: Product, l: Product, listing: seq<Id>, r: int, d: int, added: Maybe<Name>, to: Name,
                    x: Product) returns (q: Product)
    requires Recoverable(s, p, l, listing, r, d, added, to)
    requires Back(s, l, x, Phase(r, d, true, true, false))
    ensures Goes(x, DeleteOps(s, p, l, listing), q) && Back(s, l, q, Phase(r, d, true, true, true))
  {
    OthersStand(s, p, l, listing, r, d, added, to);
    MoveOpsOnlyAt(s, p, l, listing, d);
    GoesNowhere(x);
    if !(0 <= d < |s.options|) {
      q := x;
      LaterPhase(s, l, x, Phase(r, d, true, true, false), Phase(r, d, true, true, true));
    } else {
      KnownOptions(s, p, l, listing, d);
      AlignedIsComplete(s, p, l, listing, d);
      assert OptionRecoverable(s, p, l, d, r, d, added, to);
      DeletesExactly(s.options[d], l.options[d], added);
      if DeletesBack(s.options[d], l.options[d], l.options[d].values) == [] {
        q := x;
        LaterPhase(s, l, x, Phase(r, d, true, true, false), Phase(r, d, true, true, true));
      } else {
        q := DeleteStageWrites(s, l, r, d, added.value, x);
      }
    }
  }

  /** The value to delete is there by id, and no variant holds it any more. */
  lemma DeletePasses(s: Product, l: Product, r: int, d: nat, name: Name, x: Product)
    requires d < |s.options| == |l.options| && Back(s, l, x, Phase(r, d, true, true, false)) && r != d
    requires AllKnown(l) && WellFormed(s) && name in l.options[d].ids && name !in s.options[d].ids
    ensures IndexOfIs(x, s.options[d].id, d) && x.options[d].ids == l.options[d].ids
    ensures Passes(x, DeleteValue(s.options[d].id, l.options[d].ids[name].value, name))
  {
    var ph := Phase(r, d, true, true, false);
    assert OptionBack(s.options[d], l.options[d], x.options[d], LiveIds(ph, d));
    assert OptionOk(s.options[d]) && OptionOk(x.options[d]);
    assert name in Elems(x.options[d].values) && name !in Elems(s.options[d].values);
    forall u | u in x.variants && x.options[d].name in x.variants[u].choice
      ensures x.variants[u].choice[x.options[d].name] != name
    {
      assert VariantBack(s, s.variants[u], l.variants[u], x.variants[u], ph);
      assert ChoiceOk(s.options, s.variants[u].choice);
    }
  }

  lemma DeleteWritten(x: Product, d: nat, op: Op)
    requires op.DeleteValue? && IndexOfIs(x, op.optionId, d) && Runs(x, op)
    ensures var q := Write(x, op);
      && q == x.(options := q.options) && |q.options| == |x.options|
      && (forall i :: 0 <= i < |q.options| && i != d ==> q.options[i] == x.options[i])
      && q.options[d].id == x.options[d].id && q.options[d].name == x.options[d].name
      && q.options[d].ids == x.options[d].ids - {op.name}
  {
  }

  lemma DeleteStageWrites(s: Product, l: Product, r: int, d: nat, name: Name, x: Product) returns (q: Product)
    requires d < |s.options| == |l.options| && Back(s, l, x, Phase(r, d, true, true, false)) && r != d
    requires AllKnown(s) && AllKnown(l) && WellFormed(s) && name in l.options[d].ids && name !in s.options[d].ids
    requires l.options[d].ids - {name} == s.options[d].ids
    ensures Goes(x, [DeleteValue(s.options[d].id, l.options[d].ids[name].value, name)], q)
    ensures Back(s, l, q, Phase(r, d, true, true, true))
  {
    var op := DeleteValue(s.options[d].id, l.options[d].ids[name].value, name);
    DeletePasses(s, l, r, d, name, x);
    DeleteWritten(x, d, op);
    DeletedContent(s, l, x, r, d, name, Write(x, op));
    NextPhase(s, l, x, op, Phase(r, d, true, true, true));
    q := Simulate(x, op);
  }

  // ---- Orders ----------------------------------------------------------------------------------

  lemma WithPricesForm(s: Product, l: Product)
    requires WellFormed(s) && AllKnown(s) && l.variants.Keys == s.variants.Keys
    ensures var t := WithPrices(s, l);
      WellFormed(t) && AllKnown(t) && VariantOrder(t.variants) == VariantOrder(s.variants)
  {
    var t := WithPrices(s, l);
    SamePlaces(s.variants, t.variants);
    forall id | id in t.variants ensures ChoiceOk(t.options, t.variants[id].choice) {
      assert ChoiceOk(s.options, s.variants[id].choice);
    }
  }

  lemma FullyBack(s: Product, l: Product, x: Product, r: int, d: int)
    requires WellFormed(s) && WellFormed(x) && Content(s, l, x, Phase(r, d, true, true, true))
    ensures Alike(WithPrices(s, l), x) && Alike(x, WithPrices(s, l))
  {
    var ph, t := Phase(r, d, true, true, true), WithPrices(s, l);
    forall i | 0 <= i < |s.options| ensures OptionAlike(t.options[i], x.options[i]) && OptionAlike(x.options[i], t.options[i]) {
      assert OptionBack(s.options[i], l.options[i], x.options[i], LiveIds(ph, i));
      assert OptionOk(x.options[i]) && OptionOk(s.options[i]);
    }
    forall id | id in s.variants ensures x.variants[id].choice == s.variants[id].choice {
      assert VariantBack(s, s.variants[id], l.variants[id], x.variants[id], ph);
      assert ChoiceOk(s.options, s.variants[id].choice);
    }
    forall id | id in s.variants ensures VariantAlike(t.variants[id], x.variants[id]) && VariantAlike(x.variants[id], t.variants[id]) {
      assert VariantBack(s, s.variants[id], l.variants[id], x.variants[id], ph);
    }
  }

  /** The orders of a product are already satisfied by it. */
  lemma OwnOrders(t: Product)
    requires WellFormed(t)
    ensures Fits(t, ReorderValues(OrdersOf(t))) && Satisfied(t, ReorderValues(OrdersOf(t)))
    ensures HasOrders(t, OrdersOf(t)) && ListsEvery(t, OrdersOf(t))
    ensures Fits(t, RestorePositions(VariantOrder(t.variants))) && Satisfied(t, RestorePositions(VariantOrder(t.variants)))
  {
    forall w | w in OrdersOf(t) ensures HasOption(t, w.id) && t.options[IndexOf(t.options, w.id)].values == w.values {
      var i :| 0 <= i < |t.options| && w == ValueOrder(t.options[i].id, t.options[i].name, t.options[i].values);
      assert t.options[i].id == w.id;
      assert IndexOf(t.options, w.id) == i;
    }
    forall i | 0 <= i < |t.options| ensures OrderedIn(OrdersOf(t), t.options[i].id) {
      assert OrdersOf(t)[i].id == t.options[i].id;
    }
    SatisfiedHasOrders(t, OrdersOf(t));
    var order := VariantOrder(t.variants);
    ListsAll(order, t.variants.Keys) by {
      assert forall i, j :: 0 <= i < j < |order| ==>
        t.variants[order[i]].position == i + 1 && t.variants[order[j]].position == j + 1;
    }
  }

  /** Alike products are brought together by the two ordering edits. */
  lemma OrderStage(t: Product, x: Product)
    requires WellFormed(t) && AllKnown(t) && WellFormed(x) && Alike(t, x) && Alike(x, t)
    ensures Goes(x, [ReorderValues(OrdersOf(t)), RestorePositions(VariantOrder(t.variants))], t)
  {
    var reorder, restore := ReorderValues(OrdersOf(t)), RestorePositions(VariantOrder(t.variants));
    var y := ReorderStage(t, x);
    RestoreStage(t, y, restore.order);
    GoesOne(y, restore);
    GoesConcat(x, [reorder], y, [restore], t);
    assert [reorder] + [restore] == [reorder, restore];
  }

  lemma ReorderStage(t: Product, x: Product) returns (y: Product)
    requires WellFormed(t) && WellFormed(x) && Alike(t, x) && Alike(x, t)
    ensures Goes(x, [ReorderValues(OrdersOf(t))], y)
    ensures WellFormed(y) && Alike(t, y) && HasOrders(y, OrdersOf(t))
  {
    var reorder := ReorderValues(OrdersOf(t));
    OwnOrders(t);
    FitsAlike(x, t, reorder);
    SimulateAlike(t, x, reorder);
    SkippingIsSimulating(t, reorder);
    ReorderReaches(x, OrdersOf(t));
    GoesOne(x, reorder);
    y := Simulate(x, reorder);
  }

  lemma RestoreStage(t: Product, y: Product, order: seq<Id>)
    requires WellFormed(t) && AllKnown(t) && WellFormed(y) && Alike(t, y) && HasOrders(y, OrdersOf(t))
    requires order == VariantOrder(t.variants)
    ensures Passes(y, RestorePositions(order)) && Runs(y, RestorePositions(order))
    ensures Simulate(y, RestorePositions(order)) == t
  {
    var restore := RestorePositions(order);
    OwnOrders(t);
    assert Fits(y, restore);
    SimulateAlike(t, y, restore);
    SkippingIsSimulating(t, restore);
    RestoreReaches(y, order);
    var z := Simulate(y, restore);
    SameWhereOrdered(t, z, OrdersOf(t), order);
    KnownSameUpToMint(t, z);
  }

  // ---- The whole rollback --------------------------------------------------------------------------

  /** From a recoverable state the planned edits pass one after the other and end
      exactly at the start state with the live prices. */
  lemma RecoverableRollsBack(s: Product, p: Product, l: Product, listing: seq<Id>, r: int, d: int, added: Maybe<Name>, to: Name)
    requires Recoverable(s, p, l, listing, r, d, added, to)
    ensures Goes(l, RollbackOps(s, p, l, listing), WithPrices(s, l))
  {
    var x0 := TitleStage(s, p, l, listing, r, d, added, to);
    var x1 := RenameStage(s, p, l, listing, r, d, added, to, x0);
    var x2 := MoveStage(s, p, l, listing, r, d, added, to, x1);
    var x3 := DeleteStage(s, p, l, listing, r, d, added, to, x2);
    var t := WithPrices(s, l);
    var orders := [ReorderValues(OrdersOf(s)), RestorePositions(VariantOrder(s.variants))];
    assert Goes(x3, orders, t) by {
      WithPricesForm(s, l);
      FullyBack(s, l, x3, r, d);
      assert OrdersOf(t) == OrdersOf(s);
      OrderStage(t, x3);
    }
    var a, b, c, e := TitleBack(s, l), RenameOps(s, l), MoveOps(s, p, l, listing), DeleteOps(s, p, l, listing);
    GoesConcat(l, a, x0, b, x1);
    GoesConcat(l, a + b, x1, c, x2);
    GoesConcat(l, a + b + c, x2, e, x3);
    GoesConcat(l, a + b + c + e, x3, orders, t);
    assert RollbackOps(s, p, l, listing) == a + b + c + e + orders;
  }

  lemma RecoverableIsOurs(s: Product, p: Product, l: Product, listing: seq<Id>, r: int, d: int, added: Maybe<Name>, to: Name)
    requires Recoverable(s, p, l, listing, r, d, added, to)
    ensures NothingForeign(s, p, l, listing)
  {
    forall i | 0 <= i < |s.options| ensures OptionOurs(s, p, l, listing, i) {
      assert OptionRecoverable(s, p, l, i, r, d, added, to);
      if i == d {
        assert MovedOnly(s, p, l, listing, d, added, to);
        MovedOptionIsOurs(s, p, l, listing, i, added, to);
      } else {
        assert i == r ==> RenamesOurs(s.options[i], p.options[i], l.options[i]);
        UnmovedOptionIsOurs(s, p, l, listing, i);
      }
    }
  }

  lemma MovedOptionIsOurs(s: Product, p: Product, l: Product, listing: seq<Id>, d: nat, added: Maybe<Name>, to: Name)
    requires MovedOnly(s, p, l, listing, d, added, to)
    ensures OptionOurs(s, p, l, listing, d)
  {
    KnownOptions(s, p, l, listing, d);
    NoRenames(s.options[d], l.options[d]);
    forall id | id in listing
      ensures !MoveProblem(s.options[d], p.options[d], l.options[d], s.variants[id], p.variants[id], l.variants[id])
    {
      ElsewhereMeans(s, p, l, listing, d, added, to, id);
    }
  }

  lemma UnmovedOptionIsOurs(s: Product, p: Product, l: Product, listing: seq<Id>, i: nat)
    requires Aligned(s, p, l, listing) && i < |s.options|
    requires Unmoved(s.options[i], l.options[i], s.variants, l.variants)
    requires StillNamed(s.options[i], l.options[i]) || RenamesOurs(s.options[i], p.options[i], l.options[i])
    ensures OptionOurs(s, p, l, listing, i)
  {
    assert RenamesOurs(s.options[i], p.options[i], l.options[i]) by {
      KnownOptions(s, p, l, listing, i);
      if StillNamed(s.options[i], l.options[i]) {
        NoRenames(s.options[i], l.options[i]);
      }
    }
    NoMovesOrDeletes(s, p, l, listing, i);
  }

  /** The planner reports no problem for a recoverable state. */
  lemma RollbackIsPlanned(s: Product, p: Product, l: Product, listing: seq<Id>, r: int, d: int, added: Maybe<Name>, to: Name)
    requires Recoverable(s, p, l, listing, r, d, added, to)
    ensures NoProblem(s, p, l, listing)
  {
    RecoverableRollsBack(s, p, l, listing, r, d, added, to);
    GoesInTurn(l, RollbackOps(s, p, l, listing), WithPrices(s, l));
    RecoverableIsOurs(s, p, l, listing, r, d, added, to);
    WithPricesForm(s, l);
    StrictMatchIsEquality(WithPrices(s, l), WithPrices(s, l));
  }

  // ---- When there is nothing to write ------------------------------------------------------------------

  lemma {:induction false} NoopsChangeNothing(live: Product, ops: seq<Op>, k: nat)
    requires WellFormed(live) && WritesNothing(live, ops) && k <= |ops|
    ensures RunsAll(live, ops[..k]) && Expected(live, ops[..k]) == live
  {
    if k > 0 {
      NoopsChangeNothing(live, ops, k - 1);
      assert NoopAt(live, ops, k - 1);
      SkippingIsSimulating(live, ops[k - 1]);
      ExpectedStep(live, ops, k - 1);
    } else {
      assert ops[..0] == [];
    }
  }

  lemma NothingDriftedAt(s: Product, l: Product, i: nat)
    requires WellFormed(s) && i < |s.options| && l.variants.Keys == s.variants.Keys && l == WithPrices(s, l)
    ensures StillNamed(s.options[i], l.options[i]) && Unmoved(s.options[i], l.options[i], s.variants, l.variants)
  {
    forall id | id in s.variants ensures SameValue(s.options[i], l.options[i], s.variants[id], l.variants[id]) {
      assert ChoiceOk(s.options, s.variants[id].choice);
      assert OptionOk(s.options[i]);
      assert s.variants[id].choice[s.options[i].name] in Elems(s.options[i].values);
    }
  }

  lemma AtStartNothingPlanned(s: Product, p: Product, l: Product, listing: seq<Id>)
    requires Aligned(s, p, l, listing) && l == WithPrices(s, l)
    ensures RollbackOps(s, p, l, listing) == [ReorderValues(OrdersOf(l)), RestorePositions(VariantOrder(l.variants))]
  {
    assert VariantOrder(l.variants) == VariantOrder(s.variants) by { WithPricesForm(s, l); }
    assert RenameOps(s, l) == [] && MoveOps(s, p, l, listing) == [] && DeleteOps(s, p, l, listing) == [] by {
      forall i | 0 <= i < |s.options|
        ensures StillNamed(s.options[i], l.options[i]) && Unmoved(s.options[i], l.options[i], s.variants, l.variants)
      {
        NothingDriftedAt(s, l, i);
      }
      RenameOpsOnlyAt(s, p, l, listing, -1);
      MoveOpsOnlyAt(s, p, l, listing, -1);
    }
    assert OrdersOf(l) == OrdersOf(s);
  }

  /** An edit that is satisfied already and so changes nothing. */
  ghost predicate Rests(l: Product, op: Op) {
    Conditional(op) && Runs(l, op) && Simulate(l, op) == l && Positioned(l.variants) && Satisfied(l, op)
  }

  lemma TwoRests(l: Product, a: Op, b: Op)
    requires Rests(l, a) && Rests(l, b)
    ensures WritesNothing(l, [a, b])
  {
    var ops := [a, b];
    assert ops[..0] == [] && ops[..1] == [a] && ops[..2] == ops;
    ExpectedStep(l, ops, 0);
    ExpectedStep(l, ops, 1);
    assert NoopAt(l, ops, 0) && NoopAt(l, ops, 1);
  }

  lemma OwnOrdersWriteNothing(l: Product)
    requires WellFormed(l)
    ensures WritesNothing(l, [ReorderValues(OrdersOf(l)), RestorePositions(VariantOrder(l.variants))])
  {
    var reorder, restore := ReorderValues(OrdersOf(l)), RestorePositions(VariantOrder(l.variants));
    OwnOrders(l);
    SkippingIsSimulating(l, reorder);
    SkippingIsSimulating(l, restore);
    TwoRests(l, reorder, restore);
  }

  /** The planner skips a product exactly when, prices aside, it is the start state. */
  lemma SkippedExactlyAtStart(s: Product, p: Product, l: Product, listing: seq<Id>)
    requires NoProblem(s, p, l, listing)
    ensures WritesNothing(l, RollbackOps(s, p, l, listing)) <==> l == WithPrices(s, l)
  {
    var ops := RollbackOps(s, p, l, listing);
    WithPricesForm(s, l);
    if WritesNothing(l, ops) {
      NoopsChangeNothing(l, ops, |ops|);
      assert ops[..|ops|] == ops;
      StrictMatchIsEquality(WithPrices(s, l), l);
    }
    if l == WithPrices(s, l) {
      AtStartNothingPlanned(s, p, l, listing);
      OwnOrdersWriteNothing(l);
    }
  }
}
