/** Planning again on the state a plan promises: when it plans nothing more. */
module PlannerFixpoint {
  import opened Lists
  import opened Catalogue
  import opened KeepsForm
  import opened Executor
  import opened ReflowOrder
  import opened RollbackPlanner
  import opened Planner

  // ---- What the planned edits do ------------------------------------------------------------

  /** Same options by id and name, same variants. */
  ghost predicate SameFrame(p: Product, q: Product) {
    && |q.options| == |p.options| && q.variants.Keys == p.variants.Keys
    && forall i :: 0 <= i < |p.options| ==> q.options[i].id == p.options[i].id && q.options[i].name == p.options[i].name
  }

  ghost predicate SameChoices(p: Product, q: Product) {
    q.variants.Keys == p.variants.Keys && forall id :: id in p.variants ==> q.variants[id].choice == p.variants[id].choice
  }

  lemma FrameKept(p: Product, op: Op)
    requires Runs(p, op)
    ensures SameFrame(p, Simulate(p, op))
  {
    WriteShape(p, op);
    SimulateOptionIds(p, op);
    var w, q := Write(p, op), Simulate(p, op);
    forall i | 0 <= i < |p.options| ensures q.options[i].name == p.options[i].name {
      assert Names(w.options)[i] == Names(p.options)[i];
    }
  }

  lemma ChoicesKept(p: Product, op: Op)
    requires Runs(p, op) && (op.AddValue? || op.ReorderValues? || op.RestorePositions?)
    ensures SameChoices(p, Simulate(p, op))
  {
    WriteShape(p, op);
    if op.RestorePositions? {
      PlaceAllShape(p.variants, op.order);
    }
  }

  /** The variants to move hold `to` now, all else is as it was. */
  ghost predicate MovedOver(z: Sizes, p: Product, q: Product) {
    && q.variants.Keys == p.variants.Keys
    && forall id :: id in p.variants ==>
         q.variants[id].choice ==
         if id in ToMove(z, p) then p.variants[id].choice[z.diameter := z.to] else p.variants[id].choice
  }

  lemma {:induction false} MovesInDistinct(z: Sizes, order: seq<Id>, ids: set<Id>)
    requires NoDup(order)
    ensures DistinctMoves(MovesIn(z, order, ids))
  {
    if order != [] {
      MovesInDistinct(z, order[..|order| - 1], ids);
    }
  }

  lemma OrderNoDup(vs: map<Id, Variant>)
    requires Positioned(vs)
    ensures NoDup(VariantOrder(vs)) && forall id :: id in VariantOrder(vs) <==> id in vs
  {
    var order := VariantOrder(vs);
    assert forall i, j :: 0 <= i < j < |order| ==> vs[order[i]].position == i + 1 && vs[order[j]].position == j + 1;
  }

  ghost function MoveOp(z: Sizes, p: Product): Op
    requires Family(z, p) && Positioned(p.variants)
  {
    MoveVariants(p.options[At(z, p)].id, MovesIn(z, VariantOrder(p.variants), ToMove(z, p)))
  }

  /** The moves of the plan send exactly the variants to move, on the same choices. */
  lemma MovesMove(z: Sizes, p: Product, vs: map<Id, Variant>)
    requires Positioned(p.variants) && vs.Keys == p.variants.Keys
    requires forall id :: id in p.variants ==> vs[id].choice == p.variants[id].choice
    ensures var moves := MovesIn(z, VariantOrder(p.variants), ToMove(z, p));
      && (forall m :: m in moves ==> m.variantId in vs)
      && var r := MoveAll(vs, z.diameter, moves);
      r.Keys == p.variants.Keys
      && forall id :: id in p.variants ==>
           r[id].choice == if id in ToMove(z, p) then p.variants[id].choice[z.diameter := z.to] else p.variants[id].choice
  {
    var moves := MovesIn(z, VariantOrder(p.variants), ToMove(z, p));
    OrderNoDup(p.variants);
    MovesInDistinct(z, VariantOrder(p.variants), ToMove(z, p));
    forall m | m in moves ensures m.variantId in vs {
      assert m.variantId in ToMove(z, p);
    }
    MoveAllActs(vs, z.diameter, moves);
    var r := MoveAll(vs, z.diameter, moves);
    forall id | id in p.variants
      ensures r[id].choice ==
        if id in ToMove(z, p) then p.variants[id].choice[z.diameter := z.to] else p.variants[id].choice
    {
      if id in ToMove(z, p) {
        assert Move(id, z.from, z.to) in moves;
        assert MovedTo(vs, z.diameter, Move(id, z.from, z.to), r);
      } else {
        assert forall m :: m in moves ==> m.variantId != id;
      }
    }
  }

  lemma SimulateChoices(p: Product, op: Op)
    requires Runs(p, op)
    ensures SameChoices(Write(p, op), Simulate(p, op))
  {
    WriteShape(p, op);
  }

  lemma MoveMoves(z: Sizes, p: Product, a: Product)
    requires Family(z, p) && Positioned(p.variants) && OptionsOk(p.options)
    requires SameFrame(p, a) && SameChoices(p, a) && Readable(a)
    ensures Runs(a, MoveOp(z, p)) && MovedOver(z, p, Simulate(a, MoveOp(z, p)))
    ensures MovedOver(z, p, Write(a, MoveOp(z, p)))
  {
    var op := MoveOp(z, p);
    MovesMove(z, p, a.variants);
    assert Runs(a, op);
    assert Write(a, op).variants == MoveAll(a.variants, z.diameter, op.moves);
    SimulateChoices(a, op);
  }

  // ---- Values ---------------------------------------------------------------------------------

  /** Placing `to` after `from` is done once it is done. */
  lemma TargetTwice(z: Sizes, values: seq<Name>)
    requires SizesOk(z) && z.from in values
    ensures z.from in Target(z, values) && Target(z, Target(z, values)) == Target(z, values)
  {
    var current := Outside(values, {z.to});
    var i := First(current, z.from) + 1;
    var t := Target(z, values);
    OutsideConcat(current[..i] + [z.to], current[i..], {z.to});
    OutsideConcat(current[..i], [z.to], {z.to});
    assert current[..i] + current[i..] == current;
    forall v | v in current[..i] || v in current[i..] ensures v != z.to {
      assert v in current;
    }
    OutsideNone(current[..i], {z.to});
    OutsideNone(current[i..], {z.to});
    OutsideAll([z.to], {z.to});
    assert Outside(t, {z.to}) == current;
  }

  /** The two value orders of the plan land on the two options, whichever comes first. */
  lemma ReorderLands(p: Product, d: nat, t: seq<Name>, h: seq<Name>, dName: Name, hName: Name)
    requires |p.options| == 2 && d < 2 && p.options[0].id != p.options[1].id
    ensures var orders := [ValueOrder(p.options[d].id, dName, t), ValueOrder(p.options[1 - d].id, hName, h)];
      && (forall w :: w in orders ==> HasId(p.options, w.id))
      && ReorderAll(p.options, orders)[d].values == t && ReorderAll(p.options, orders)[1 - d].values == h
  {
    var first, second := ValueOrder(p.options[d].id, dName, t), ValueOrder(p.options[1 - d].id, hName, h);
    var orders := [first, second];
    assert HasId(p.options, first.id) && HasId(p.options, second.id);
    assert orders[..|orders| - 1] == [first];
    assert [first][..|[first]| - 1] == [];
    assert ReorderAll(p.options, []) == p.options;
    var r := ReorderAll(p.options, [first]);
    assert r == p.options[IndexOf(p.options, first.id) := p.options[IndexOf(p.options, first.id)].(values := t)];
    assert HasId(r, second.id) by { assert r[1 - d].id == second.id; }
    assert IndexOf(r, second.id) == 1 - d;
  }

  // ---- Running the plan --------------------------------------------------------------------------

  /** A state the plan passes through. */
  ghost predicate Passage(p: Product, q: Product) {
    SameFrame(p, q) && Readable(q)
  }

  lemma StepPassage(p: Product, a: Product, op: Op)
    requires Passage(p, a) && Runs(a, op)
    requires op.RestorePositions? ==> multiset(op.order) == multiset(a.variants.Keys)
    ensures Passage(p, Simulate(a, op))
  {
    FrameKept(a, op);
    SimulateReadable(a, op);
  }

  ghost function AddOps(z: Sizes, p: Product): seq<Op>
    requires Family(z, p)
  {
    if z.to in p.options[At(z, p)].values then [] else [AddValue(p.options[At(z, p)].id, z.to)]
  }

  /** The diameter option has the values it had and `to`, the height option its own. */
  ghost predicate Gained(z: Sizes, p: Product, q: Product)
    requires Family(z, p)
  {
    && |q.options| == 2
    && Elems(q.options[At(z, p)].values) == Elems(p.options[At(z, p)].values) + {z.to}
    && Elems(q.options[1 - At(z, p)].values) == Elems(p.options[1 - At(z, p)].values)
  }

  lemma MoveGains(z: Sizes, p: Product, a: Product)
    requires WellFormed(p) && Family(z, p) && Passage(p, a) && Gained(z, p, a)
    requires Runs(a, MoveOp(z, p)) && MovedOver(z, p, Write(a, MoveOp(z, p)))
    ensures Gained(z, p, Simulate(a, MoveOp(z, p)))
  {
    var w := Write(a, MoveOp(z, p));
    WriteShape(a, MoveOp(z, p));
    assert w.options == a.options && Names(w.options) == Names(p.options);
    forall i | 0 <= i < 2 ensures Elems(ReflowedValues(w, i)) == Elems(a.options[i].values) {
      forall id | id in w.variants ensures w.variants[id].choice[Names(p.options)[i]] in Elems(a.options[i].values) {
        MovedInto(z, p, a, w.variants[id].choice, id, i);
      }
      ReflowHolds(w, i);
    }
  }

  /** The re-flow loses no value and invents none its variants do not hold. */
  lemma ReflowHolds(w: Product, i: nat)
    requires Readable(w) && i < |w.options|
    requires forall id :: id in w.variants ==> w.variants[id].choice[Names(w.options)[i]] in Elems(w.options[i].values)
    ensures Elems(ReflowedValues(w, i)) == Elems(w.options[i].values)
  {
    var col, values := ColumnOf(w, i), w.options[i].values;
    forall v | v in col ensures v in values {
      var k :| 0 <= k < |col| && col[k] == v;
      assert VariantOrder(w.variants)[k] in w.variants;
    }
    var used := FirstSeen(col);
    forall v ensures v in used + Outside(values, Elems(used)) <==> v in values {
      assert v in used + Outside(values, Elems(used)) <==> v in used || v in Outside(values, Elems(used));
    }
  }

  lemma MovedInto(z: Sizes, p: Product, a: Product, choice: map<Name, Name>, id: Id, i: nat)
    requires WellFormed(p) && Family(z, p) && Gained(z, p, a) && i < 2 && id in p.variants
    requires choice == if id in ToMove(z, p) then p.variants[id].choice[z.diameter := z.to] else p.variants[id].choice
    ensures Names(p.options)[i] in choice && choice[Names(p.options)[i]] in Elems(a.options[i].values)
  {
    assert ChoiceOk(p.options, p.variants[id].choice);
    var held := p.variants[id].choice[p.options[i].name];
    assert held in Elems(p.options[i].values);
    assert Elems(p.options[i].values) <= Elems(a.options[i].values);
    assert p.options[i].name == z.diameter <==> i == At(z, p);
  }

  lemma AddStep(z: Sizes, p: Product) returns (a: Product)
    requires WellFormed(p) && Family(z, p)
    ensures Leads(p, AddOps(z, p), a)
    ensures Passage(p, a) && SameChoices(p, a)
    ensures Gained(z, p, a)
    ensures z.to in p.options[At(z, p)].values ==> a == p
  {
    FormReadable(p);
    if z.to in p.options[At(z, p)].values {
      a := p;
      LeadsNowhere(p);
    } else {
      var op := AddValue(p.options[At(z, p)].id, z.to);
      assert Runs(p, op);
      a := Simulate(p, op);
      ChoicesKept(p, op);
      StepPassage(p, p, op);
      LeadsOne(p, op);
    }
  }

  /** After the moves: every variant to move has moved, no value is lost. */
  lemma PlannedMovesRun(z: Sizes, p: Product) returns (b: Product)
    requires WellFormed(p) && Family(z, p)
    ensures Leads(p, PlannedMoves(z, p), b) && Passage(p, b) && MovedOver(z, p, b)
    ensures ToMove(z, p) == {} ==> b == p
    ensures ToMove(z, p) != {} ==> Gained(z, p, b)
    ensures ToMove(z, p) != {} && z.to in p.options[At(z, p)].values ==>
      Runs(p, MoveOp(z, p)) && b == Simulate(p, MoveOp(z, p))
  {
    if ToMove(z, p) == {} {
      FormReadable(p);
      b := p;
      LeadsNowhere(p);
    } else {
      var a := AddStep(z, p);
      var op := MoveOp(z, p);
      MoveMoves(z, p, a);
      MoveGains(z, p, a);
      b := Simulate(a, op);
      StepPassage(p, a, op);
      LeadsOne(a, op);
      LeadsConcat(p, AddOps(z, p), a, [op], b);
    }
  }

  lemma ReorderStep(z: Sizes, p: Product, b: Product) returns (c: Product)
    requires SizesOk(z) && WellFormed(p) && Family(z, p) && z.from in p.options[At(z, p)].values
    requires Passage(p, b) && PlannedOrders(z, p) != []
    ensures Leads(b, [PlannedOrders(z, p)[0]], c)
    ensures Passage(p, c) && SameChoices(b, c)
    ensures c.options[At(z, p)].values == Target(z, p.options[At(z, p)].values)
  {
    var i, reorder := At(z, p), PlannedOrders(z, p)[0];
    ReorderLands(b, i, Target(z, p.options[i].values), p.options[1 - i].values, z.diameter, z.height);
    c := Simulate(b, reorder);
    ChoicesKept(b, reorder);
    StepPassage(p, b, reorder);
    LeadsOne(b, reorder);
  }

  lemma RestoreStep(p: Product, c: Product, restore: Op) returns (d: Product)
    requires WellFormed(p) && Passage(p, c) && restore == RestorePositions(VariantOrder(p.variants))
    ensures Leads(c, [restore], d)
    ensures Passage(p, d) && SameChoices(c, d) && d.options == c.options
  {
    OwnOrderListsAll(p.variants);
    ListingOf(restore.order, p.variants.Keys);
    d := Simulate(c, restore);
    ChoicesKept(c, restore);
    StepPassage(p, c, restore);
    LeadsOne(c, restore);
  }

  lemma PlannedOrdersRun(z: Sizes, p: Product, b: Product) returns (d: Product)
    requires SizesOk(z) && WellFormed(p) && Family(z, p) && z.from in p.options[At(z, p)].values
    requires Passage(p, b) && PlannedOrders(z, p) != []
    ensures Leads(b, PlannedOrders(z, p), d) && Passage(p, d) && SameChoices(b, d)
    ensures d.options[At(z, p)].values == Target(z, p.options[At(z, p)].values)
  {
    var reorder, restore := PlannedOrders(z, p)[0], PlannedOrders(z, p)[1];
    var c := ReorderStep(z, p, b);
    d := RestoreStep(p, c, restore);
    LeadsConcat(b, [reorder], c, [restore], d);
    assert PlannedOrders(z, p) == [reorder] + [restore];
  }

  // ---- Planning again --------------------------------------------------------------------------------

  /** On the moved state nothing is left to move and nothing speaks against the plan. */
  lemma MovedReads(z: Sizes, p: Product, q: Product, refs: map<Id, Maybe<Ref>>, reorder: bool)
    requires SizesOk(z) && WellFormed(p) && Family(z, p) && SameFrame(p, q) && MovedOver(z, p, q)
    requires RefsAgree(z, p, refs) && (ToMove(z, p) == {} || Done(z, p) == {})
    ensures Family(z, q) && At(z, q) == At(z, p)
    ensures ToMove(z, q) == {} && Done(z, q) == ToMove(z, p) + Done(z, p) && RefsAgree(z, q, refs)
  {
    assert Called(q.options[At(z, p)], z.diameter) && Called(q.options[1 - At(z, p)], z.height);
    forall id | id in p.variants
      ensures id in ToMove(z, q) ==> false
      ensures id in Done(z, q) <==> id in ToMove(z, p) + Done(z, p)
      ensures !Disagrees(z, q.variants[id], refs[id])
    {
      MovedReadsAt(z, p, q, id, refs[id]);
    }
  }

  lemma MovedReadsAt(z: Sizes, p: Product, q: Product, id: Id, ref: Maybe<Ref>)
    requires SizesOk(z) && MovedOver(z, p, q) && id in p.variants && !Disagrees(z, p.variants[id], ref)
    ensures id !in ToMove(z, q) && (id in Done(z, q) <==> id in ToMove(z, p) + Done(z, p))
    ensures !Disagrees(z, q.variants[id], ref)
  {
    var v, w := p.variants[id], q.variants[id];
    assert id in ToMove(z, p) <==> Stands(z, v, z.from, z.moved.Keys);
    if Stands(z, v, z.from, z.moved.Keys) {
      assert w.choice == v.choice[z.diameter := z.to];
      assert Stands(z, w, z.to, z.moved.Keys) && w.choice[z.height] == v.choice[z.height];
    } else {
      assert w.choice == v.choice;
    }
  }

  lemma MovedApart(z: Sizes, p: Product, q: Product)
    requires SizesOk(z) && MovedOver(z, p, q) && !SharedCombination(z, p)
    requires ToMove(z, p) == {} || Done(z, p) == {}
    ensures !SharedCombination(z, q)
  {
    forall u, v | u in q.variants && v in q.variants && u != v ensures !SamePlace(z, q.variants[u], q.variants[v]) {
      assert !SamePlace(z, p.variants[u], p.variants[v]);
      assert u in ToMove(z, p) || v in ToMove(z, p) ==> u !in Done(z, p) && v !in Done(z, p);
    }
  }

  lemma PlansAgain(z: Sizes, p: Product, q: Product, refs: map<Id, Maybe<Ref>>, reorder: bool)
    requires SizesOk(z) && WellFormed(p) && !Refuses(z, p, refs, reorder)
    requires Passage(p, q) && MovedOver(z, p, q)
    requires Orders(z, p, reorder) ==> z.from in q.options[At(z, p)].values
    ensures Family(z, q) && At(z, q) == At(z, p) && !Refuses(z, q, refs, reorder)
    ensures Orders(z, q, reorder) == Orders(z, p, reorder) && PlannedMoves(z, q) == []
  {
    MovedReads(z, p, q, refs, reorder);
    MovedApart(z, p, q);
  }

  ghost predicate InPlace(z: Sizes, values: seq<Name>) {
    z.from in values && z.from != z.to && values == Target(z, values)
  }

  /** The re-flow after the moves leaves `to` right after `from`. */
  ghost predicate ReflowKeepsPlace(z: Sizes, p: Product)
    requires SizesOk(z) && Family(z, p) && Positioned(p.variants) && Runs(p, MoveOp(z, p))
  {
    InPlace(z, Simulate(p, MoveOp(z, p)).options[At(z, p)].values)
  }

  lemma PlansMore(z: Sizes, q: Product, refs: map<Id, Maybe<Ref>>, reorder: bool)
    requires SizesOk(z) && Positioned(q.variants) && !Refuses(z, q, refs, reorder) && PlannedMoves(z, q) == []
    ensures PlanDiameter(z, q, refs, reorder).Planned?
    ensures PlanDiameter(z, q, refs, reorder).ops == [] <==>
      (Orders(z, q, reorder) ==> InPlace(z, q.options[At(z, q)].values))
  {
  }

  lemma ReplanOrdered(z: Sizes, p: Product, refs: map<Id, Maybe<Ref>>, reorder: bool) returns (d: Product)
    requires SizesOk(z) && WellFormed(p) && !Refuses(z, p, refs, reorder)
    requires Orders(z, p, reorder) && PlannedOrders(z, p) != []
    ensures Leads(p, PlannedEdits(z, p, reorder), d)
    ensures Positioned(d.variants) && PlanDiameter(z, d, refs, reorder) == Planned([])
  {
    var b := PlannedMovesRun(z, p);
    d := PlannedOrdersRun(z, p, b);
    LeadsConcat(p, PlannedMoves(z, p), b, PlannedOrders(z, p), d);
    TargetTwice(z, p.options[At(z, p)].values);
    PlansAgain(z, p, d, refs, reorder);
    PlansMore(z, d, refs, reorder);
  }

  lemma ReplanMoved(z: Sizes, p: Product, refs: map<Id, Maybe<Ref>>, reorder: bool) returns (b: Product)
    requires SizesOk(z) && WellFormed(p) && !Refuses(z, p, refs, reorder)
    requires Orders(z, p, reorder) ==> PlannedOrders(z, p) == []
    ensures Leads(p, PlannedEdits(z, p, reorder), b)
    ensures Positioned(b.variants) && PlanDiameter(z, b, refs, reorder).Planned?
    ensures Orders(z, p, reorder) && ToMove(z, p) != {} ==> Runs(p, MoveOp(z, p))
    ensures PlanDiameter(z, b, refs, reorder).ops == [] <==>
      (Orders(z, p, reorder) && ToMove(z, p) != {} ==> ReflowKeepsPlace(z, p))
  {
    b := PlannedMovesRun(z, p);
    assert PlannedEdits(z, p, reorder) == PlannedMoves(z, p);
    var values := b.options[At(z, p)].values;
    assert Orders(z, p, reorder) ==>
      (InPlace(z, values) <==> (ToMove(z, p) != {} ==> ReflowKeepsPlace(z, p)));
    assert PlanDiameter(z, b, refs, reorder).Planned?
        && (PlanDiameter(z, b, refs, reorder).ops == [] <==> (Orders(z, p, reorder) ==> InPlace(z, values))) by {
      PlansAgain(z, p, b, refs, reorder);
      PlansMore(z, b, refs, reorder);
    }
  }

  /** Planned again on the state its own edits promise, with the same SKUs, a product
      raises no anomaly; and nothing more is planned when the orders of the values were
      set, or the re-flow leaves them in place. */
  lemma ReplanAfter(z: Sizes, p: Product, refs: map<Id, Maybe<Ref>>, reorder: bool) returns (q: Product)
    requires SizesOk(z) && WellFormed(p) && PlanDiameter(z, p, refs, reorder).Planned?
    ensures var ops := PlanDiameter(z, p, refs, reorder).ops; RunsAll(p, ops) && q == Expected(p, ops)
    ensures Positioned(q.variants) && PlanDiameter(z, q, refs, reorder).Planned?
    ensures Orders(z, p, reorder) && ToMove(z, p) != {} && PlannedOrders(z, p) == [] ==> Runs(p, MoveOp(z, p))
    ensures PlanDiameter(z, q, refs, reorder).ops == [] <==>
      (Orders(z, p, reorder) && ToMove(z, p) != {} && PlannedOrders(z, p) == [] ==> ReflowKeepsPlace(z, p))
  {
    if Orders(z, p, reorder) && PlannedOrders(z, p) != [] {
      q := ReplanOrdered(z, p, refs, reorder);
      LeadsIsExpected(p, PlannedEdits(z, p, reorder), q);
    } else {
      q := ReplanMoved(z, p, refs, reorder);
      LeadsIsExpected(p, PlannedEdits(z, p, reorder), q);
    }
  }
}
