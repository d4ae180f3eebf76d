/** Exactly which products the diameter planner stops at, told by their values and SKU
    references, and exactly which edits it plans for the others. */
module PlannerAnomalies {
  import opened Lists
  import opened Catalogue
  import opened KeepsForm
  import opened ReflowOrder
  import opened Planner
  import opened PlannerFixpoint
  import opened PlannerPositions

  // ---- Where a variant is --------------------------------------------------------------------

  /** The variant has this diameter and this height. */
  predicate IsAt(z: Sizes, v: Variant, diameter: Name, height: Name) {
    && z.diameter in v.choice && v.choice[z.diameter] == diameter
    && z.height in v.choice && v.choice[z.height] == height
  }

  /** Before or after its move. */
  predicate AtEither(z: Sizes, v: Variant, height: Name) {
    IsAt(z, v, z.from, height) || IsAt(z, v, z.to, height)
  }

  /** Every variant of a moved height, moved or not, carries that height's reference. */
  ghost predicate MovedRefsRight(z: Sizes, p: Product, refs: map<Id, Maybe<Ref>>) {
    forall id, h :: id in p.variants && h in z.moved && AtEither(z, p.variants[id], h) ==>
      id in refs && refs[id] == Some(z.moved[h])
  }

  /** A moved height's reference is carried by no other variant. */
  ghost predicate MovedRefsOnly(z: Sizes, p: Product, refs: map<Id, Maybe<Ref>>) {
    forall id, g :: id in p.variants && id in refs && g in z.moved && refs[id] == Some(z.moved[g]) ==>
      exists h :: h in z.moved && AtEither(z, p.variants[id], h)
  }

  ghost predicate KeptRefsRight(z: Sizes, p: Product, refs: map<Id, Maybe<Ref>>) {
    forall id, h :: id in p.variants && h in z.kept && IsAt(z, p.variants[id], z.from, h) ==>
      id in refs && refs[id] == Some(z.kept[h])
  }

  /** No two variants have the same diameter and height. */
  ghost predicate OneEach(z: Sizes, p: Product) {
    forall u, v, d, h :: u in p.variants && v in p.variants && IsAt(z, p.variants[u], d, h) && IsAt(z, p.variants[v], d, h) ==>
      u == v
  }

  ghost predicate SomeAt(z: Sizes, p: Product, diameter: Name, height: Name) {
    exists id :: id in p.variants && IsAt(z, p.variants[id], diameter, height)
  }

  ghost predicate NoneMoved(z: Sizes, p: Product) {
    forall h :: h in z.moved ==> !SomeAt(z, p, z.to, h)
  }

  ghost predicate NoneToMove(z: Sizes, p: Product) {
    forall h :: h in z.moved ==> !SomeAt(z, p, z.from, h)
  }

  ghost predicate AllToMove(z: Sizes, p: Product) {
    forall h :: h in z.moved ==> SomeAt(z, p, z.from, h)
  }

  /** What the load expects of a product of the family: its two options, references that
      say what the values say, and either every moved height still to move or none. */
  ghost predicate AsExpected(z: Sizes, p: Product, refs: map<Id, Maybe<Ref>>, reorder: bool) {
    && Family(z, p) && OneEach(z, p) && refs.Keys >= p.variants.Keys
    && MovedRefsRight(z, p, refs) && MovedRefsOnly(z, p, refs) && KeptRefsRight(z, p, refs)
    && (NoneToMove(z, p) || (AllToMove(z, p) && NoneMoved(z, p)))
    && (reorder && !(NoneToMove(z, p) && NoneMoved(z, p)) ==>
          exists o :: o in p.options && o.name == z.diameter && z.from in o.values)
  }

  // ---- The planner's own sets and tests ---------------------------------------------------------

  lemma ToMoveIs(z: Sizes, p: Product)
    ensures forall id :: id in ToMove(z, p) <==>
      id in p.variants && exists h :: h in z.moved && IsAt(z, p.variants[id], z.from, h)
    ensures forall id :: id in Done(z, p) <==>
      id in p.variants && exists h :: h in z.moved && IsAt(z, p.variants[id], z.to, h)
  {
    forall id | id in ToMove(z, p) ensures exists h :: h in z.moved && IsAt(z, p.variants[id], z.from, h) {
      assert IsAt(z, p.variants[id], z.from, p.variants[id].choice[z.height]);
    }
    forall id | id in Done(z, p) ensures exists h :: h in z.moved && IsAt(z, p.variants[id], z.to, h) {
      assert IsAt(z, p.variants[id], z.to, p.variants[id].choice[z.height]);
    }
  }

  lemma NoneIsEmpty(z: Sizes, p: Product)
    ensures ToMove(z, p) == {} <==> NoneToMove(z, p)
    ensures Done(z, p) == {} <==> NoneMoved(z, p)
  {
    ToMoveIs(z, p);
    forall h | h in z.moved && SomeAt(z, p, z.from, h) ensures ToMove(z, p) != {} {
      var id :| id in p.variants && IsAt(z, p.variants[id], z.from, h);
      assert id in ToMove(z, p);
    }
    forall h | h in z.moved && SomeAt(z, p, z.to, h) ensures Done(z, p) != {} {
      var id :| id in p.variants && IsAt(z, p.variants[id], z.to, h);
      assert id in Done(z, p);
    }
    if id :| id in ToMove(z, p) {
      var h :| h in z.moved && IsAt(z, p.variants[id], z.from, h);
      assert SomeAt(z, p, z.from, h);
    }
    if id :| id in Done(z, p) {
      var h :| h in z.moved && IsAt(z, p.variants[id], z.to, h);
      assert SomeAt(z, p, z.to, h);
    }
  }

  lemma OneEachIs(z: Sizes, p: Product)
    requires Family(z, p) && Readable(p)
    ensures OneEach(z, p) <==> !SharedCombination(z, p)
  {
    if u, v :| u in p.variants && v in p.variants && u != v && SamePlace(z, p.variants[u], p.variants[v]) {
      var d, h := p.variants[u].choice[z.diameter], p.variants[u].choice[z.height];
      assert IsAt(z, p.variants[u], d, h) && IsAt(z, p.variants[v], d, h);
    }
  }

  ghost predicate RefRight(z: Sizes, v: Variant, ref: Maybe<Ref>) {
    && (forall h :: h in z.moved && AtEither(z, v, h) ==> ref == Some(z.moved[h]))
    && (forall g :: g in z.moved && ref == Some(z.moved[g]) ==>
          exists h :: h in z.moved && AtEither(z, v, h))
    && (forall h :: h in z.kept && IsAt(z, v, z.from, h) ==> ref == Some(z.kept[h]))
  }

  lemma RefRightIs(z: Sizes, v: Variant, ref: Maybe<Ref>)
    requires z.diameter in v.choice && z.height in v.choice
    ensures RefRight(z, v, ref) <==> !Disagrees(z, v, ref)
  {
    var d, h := v.choice[z.diameter], v.choice[z.height];
    var moves := Stands(z, v, z.from, z.moved.Keys) || Stands(z, v, z.to, z.moved.Keys);
    assert IsAt(z, v, d, h);
    assert moves <==> exists g :: g in z.moved && AtEither(z, v, g) by {
      if moves {
        assert h in z.moved && AtEither(z, v, h);
      }
    }
    if ref.Some? && ref.value in z.moved.Values {
      var g :| g in z.moved && z.moved[g] == ref.value;
      assert ref == Some(z.moved[g]);
    }
    assert Stands(z, v, z.from, z.kept.Keys) <==> h in z.kept && IsAt(z, v, z.from, h);
  }

  lemma RefsAgreeIs(z: Sizes, p: Product, refs: map<Id, Maybe<Ref>>)
    requires SizesOk(z) && Family(z, p) && Readable(p)
    ensures RefsAgree(z, p, refs) <==>
      refs.Keys >= p.variants.Keys && MovedRefsRight(z, p, refs) && MovedRefsOnly(z, p, refs) && KeptRefsRight(z, p, refs)
  {
    forall id | id in p.variants ensures z.diameter in p.variants[id].choice && z.height in p.variants[id].choice {
      HasBoth(z, p, id);
    }
    forall id | id in p.variants && id in refs
      ensures RefRight(z, p.variants[id], refs[id]) <==> !Disagrees(z, p.variants[id], refs[id])
    {
      RefRightIs(z, p.variants[id], refs[id]);
    }
    if refs.Keys >= p.variants.Keys && MovedRefsRight(z, p, refs) && MovedRefsOnly(z, p, refs) && KeptRefsRight(z, p, refs) {
      forall id | id in p.variants ensures RefRight(z, p.variants[id], refs[id]) {
      }
    }
    if RefsAgree(z, p, refs) {
      forall id | id in p.variants ensures id in refs && RefRight(z, p.variants[id], refs[id]) {
      }
    }
  }

  lemma HasBoth(z: Sizes, p: Product, id: Id)
    requires SizesOk(z) && Family(z, p) && Readable(p) && id in p.variants
    ensures z.diameter in p.variants[id].choice && z.height in p.variants[id].choice
  {
    assert Names(p.options)[At(z, p)] == z.diameter && Names(p.options)[1 - At(z, p)] == z.height;
  }

  // ---- As many variants as moved heights ------------------------------------------------------------

  ghost function HeightsOf(z: Sizes, p: Product, ids: set<Id>): set<Name>
    requires forall id :: id in ids ==> id in p.variants && z.height in p.variants[id].choice
  {
    set id | id in ids :: p.variants[id].choice[z.height]
  }

  /** Variants of different heights are as many as their heights. */
  lemma {:induction false} DistinctHeights(z: Sizes, p: Product, ids: set<Id>)
    requires forall id :: id in ids ==> id in p.variants && z.height in p.variants[id].choice
    requires forall u, v :: u in ids && v in ids && p.variants[u].choice[z.height] == p.variants[v].choice[z.height] ==> u == v
    ensures |HeightsOf(z, p, ids)| == |ids|
    decreases |ids|
  {
    if id :| id in ids {
      DistinctHeights(z, p, ids - {id});
      assert HeightsOf(z, p, ids) == HeightsOf(z, p, ids - {id}) + {p.variants[id].choice[z.height]};
    } else {
      assert HeightsOf(z, p, ids) == {};
    }
  }

  lemma SubsetOfSize(a: set<Name>, b: set<Name>)
    requires a <= b
    ensures |a| <= |b| && (|a| == |b| <==> a == b)
  {
    assert b == a + (b - a);
  }

  lemma AsManyIsAll(z: Sizes, p: Product)
    requires SizesOk(z) && Family(z, p) && Readable(p) && OneEach(z, p)
    ensures |ToMove(z, p)| == |z.moved| <==> AllToMove(z, p)
  {
    var ids := ToMove(z, p);
    forall u, v | u in ids && v in ids && p.variants[u].choice[z.height] == p.variants[v].choice[z.height] ensures u == v {
      assert IsAt(z, p.variants[u], z.from, p.variants[u].choice[z.height]);
      assert IsAt(z, p.variants[v], z.from, p.variants[u].choice[z.height]);
    }
    DistinctHeights(z, p, ids);
    var heights := HeightsOf(z, p, ids);
    forall h | h in z.moved ensures h in heights <==> SomeAt(z, p, z.from, h) {
      if SomeAt(z, p, z.from, h) {
        var id :| id in p.variants && IsAt(z, p.variants[id], z.from, h);
        assert id in ids;
      }
      if h in heights {
        var id :| id in ids && p.variants[id].choice[z.height] == h;
        assert IsAt(z, p.variants[id], z.from, h);
      }
    }
    SubsetOfSize(heights, z.moved.Keys);
    assert |z.moved| == |z.moved.Keys|;
  }

  // ---- The theorems -------------------------------------------------------------------------------------

  lemma FromListed(z: Sizes, p: Product)
    requires SizesOk(z) && Family(z, p)
    ensures z.from in p.options[At(z, p)].values <==>
      exists o :: o in p.options && o.name == z.diameter && z.from in o.values
  {
    var i := At(z, p);
    assert p.options[i] in p.options;
    assert p.options == [p.options[0], p.options[1]];
  }

  /** The planner stops at exactly the products that are not as expected. */
  lemma AnomalyExactly(z: Sizes, p: Product, refs: map<Id, Maybe<Ref>>, reorder: bool)
    requires SizesOk(z) && Readable(p)
    ensures PlanDiameter(z, p, refs, reorder) == Anomaly <==> !AsExpected(z, p, refs, reorder)
  {
    if Family(z, p) {
      OneEachIs(z, p);
      RefsAgreeIs(z, p, refs);
      NoneIsEmpty(z, p);
      FromListed(z, p);
      if OneEach(z, p) {
        AsManyIsAll(z, p);
      }
    }
  }

  // ---- What is planned for the others --------------------------------------------------------------------

  /** One move for each variant at the old diameter with a moved height, by position. */
  ghost predicate MovesRight(z: Sizes, p: Product, moves: seq<Move>) {
    && (forall id :: (exists m :: m in moves && m.variantId == id) <==>
          id in p.variants && exists h :: h in z.moved && IsAt(z, p.variants[id], z.from, h))
    && (forall m :: m in moves ==> m.from == z.from && m.to == z.to)
    && (forall i, j :: 0 <= i < j < |moves| ==>
          moves[i].variantId in p.variants && moves[j].variantId in p.variants
          && p.variants[moves[i].variantId].position < p.variants[moves[j].variantId].position)
  }

  ghost predicate ByPosition(vs: map<Id, Variant>, moves: seq<Move>, top: int) {
    && (forall i :: 0 <= i < |moves| ==> moves[i].variantId in vs && vs[moves[i].variantId].position <= top)
    && (forall i, j :: 0 <= i < j < |moves| ==> vs[moves[i].variantId].position < vs[moves[j].variantId].position)
  }

  lemma {:induction false} MovesInByPosition(z: Sizes, vs: map<Id, Variant>, order: seq<Id>, ids: set<Id>)
    requires forall k :: 0 <= k < |order| ==> order[k] in vs && vs[order[k]].position == k + 1
    ensures ByPosition(vs, MovesIn(z, order, ids), |order|)
  {
    if order != [] {
      MovesInByPosition(z, vs, order[..|order| - 1], ids);
      assert vs[order[|order| - 1]].position == |order|;
    }
  }

  lemma MovesInAre(z: Sizes, p: Product, id: Id)
    requires Positioned(p.variants)
    ensures (exists m :: m in MovesIn(z, VariantOrder(p.variants), ToMove(z, p)) && m.variantId == id) <==> id in ToMove(z, p)
  {
    if id in ToMove(z, p) {
      assert Move(id, z.from, z.to) in MovesIn(z, VariantOrder(p.variants), ToMove(z, p));
    }
  }

  lemma MovesInRight(z: Sizes, p: Product)
    requires Positioned(p.variants)
    ensures MovesRight(z, p, MovesIn(z, VariantOrder(p.variants), ToMove(z, p)))
  {
    var moves := MovesIn(z, VariantOrder(p.variants), ToMove(z, p));
    ToMoveIs(z, p);
    MovesInByPosition(z, p.variants, VariantOrder(p.variants), ToMove(z, p));
    forall id ensures (exists m :: m in moves && m.variantId == id) <==> id in ToMove(z, p) {
      MovesInAre(z, p, id);
    }
  }

  /** The values with `to` right after `from` and all others as they were. */
  ghost predicate PutAfter(z: Sizes, values: seq<Name>, target: seq<Name>) {
    NoDup(target) && RightAfter(target, z.from, z.to) && Outside(target, {z.to}) == Outside(values, {z.to})
  }

  lemma TargetPutsAfter(z: Sizes, values: seq<Name>)
    requires SizesOk(z) && NoDup(values) && z.from in values
    ensures PutAfter(z, values, Target(z, values))
    ensures values == Target(z, values) <==> RightAfter(values, z.from, z.to)
  {
    var t := Target(z, values);
    TargetTwice(z, values);
    TargetDistinct(z, values);
    var current := Outside(values, {z.to});
    var i := First(current, z.from) + 1;
    assert t[i] == z.to;
    assert z.to in t;
    InPlaceExactly(z, t);
    TargetOutside(z, values);
    if z.to in values {
      InPlaceExactly(z, values);
    }
  }

  lemma TargetOutside(z: Sizes, values: seq<Name>)
    requires SizesOk(z) && z.from in values
    ensures Outside(Target(z, values), {z.to}) == Outside(values, {z.to})
  {
    var current := Outside(values, {z.to});
    var i := First(current, z.from) + 1;
    assert current[..i] + current[i..] == current;
    assert z.to !in current;
    OutsideOne(current[..i], z.to, current[i..]);
  }

  lemma TargetDistinct(z: Sizes, values: seq<Name>)
    requires SizesOk(z) && NoDup(values) && z.from in values
    ensures NoDup(Target(z, values))
  {
    var current := Outside(values, {z.to});
    var i := First(current, z.from) + 1;
    OutsideNoDup(values, {z.to});
    var t := Target(z, values);
    assert forall k :: 0 <= k < |t| ==> t[k] == if k < i then current[k] else if k == i then z.to else current[k - 1];
    assert forall k :: 0 <= k < |current| ==> current[k] in current;
  }

  /** The planned orders: the diameters with `to` put after `from`, the heights as they are,
      and the positions as they were. */
  ghost predicate OrdersRight(z: Sizes, p: Product, d: ProductOption, h: ProductOption, orders: seq<Op>) {
    && |orders| == 2 && orders[0].ReorderValues? && orders[1].RestorePositions?
    && |orders[0].orders| == 2
    && orders[0].orders[0].id == d.id && orders[0].orders[0].name == d.name
    && PutAfter(z, d.values, orders[0].orders[0].values)
    && orders[0].orders[1] == ValueOrder(h.id, h.name, h.values)
    && IsOrder(p.variants, orders[1].order)
  }

  lemma PlannedMovesAre(z: Sizes, p: Product)
    requires Family(z, p) && Positioned(p.variants)
    ensures ToMove(z, p) == {} ==> PlannedMoves(z, p) == []
    ensures var d := p.options[At(z, p)];
      var adds := if z.to in d.values then [] else [AddValue(d.id, z.to)];
      ToMove(z, p) != {} ==>
        PlannedMoves(z, p) == adds + [MoveVariants(d.id, MovesIn(z, VariantOrder(p.variants), ToMove(z, p)))]
  {
  }

  lemma PlannedOrdersAre(z: Sizes, p: Product)
    requires SizesOk(z) && Family(z, p) && WellFormed(p) && z.from in p.options[At(z, p)].values
    ensures var d, h := p.options[At(z, p)], p.options[1 - At(z, p)];
      if RightAfter(d.values, z.from, z.to) then PlannedOrders(z, p) == [] else OrdersRight(z, p, d, h, PlannedOrders(z, p))
  {
    assert OptionOk(p.options[At(z, p)]);
    NormDistinctNoDup(p.options[At(z, p)].values);
    TargetPutsAfter(z, p.options[At(z, p)].values);
  }

  lemma PlanOf(z: Sizes, p: Product, refs: map<Id, Maybe<Ref>>, reorder: bool)
    requires SizesOk(z) && Positioned(p.variants) && PlanDiameter(z, p, refs, reorder) != Anomaly
    ensures Family(z, p) && (Orders(z, p, reorder) ==> z.from in p.options[At(z, p)].values)
    ensures PlanDiameter(z, p, refs, reorder) ==
      Planned(PlannedMoves(z, p) + if Orders(z, p, reorder) then PlannedOrders(z, p) else [])
  {
  }

  /** What is planned for a product that is as expected: the value added if variants are to
      move and it is missing, one move for each of them, and the orders if they were asked
      for, the load is about the product, and the value does not stand in place already. */
  lemma PlannedExactly(z: Sizes, p: Product, refs: map<Id, Maybe<Ref>>, reorder: bool)
    returns (d: ProductOption, h: ProductOption, adds: seq<Op>, moves: seq<Op>, orders: seq<Op>)
    requires SizesOk(z) && WellFormed(p) && AsExpected(z, p, refs, reorder)
    ensures d in p.options && h in p.options && d.name == z.diameter && h.name == z.height
    ensures PlanDiameter(z, p, refs, reorder) == Planned(adds + moves + orders)
    ensures adds == if NoneToMove(z, p) || z.to in d.values then [] else [AddValue(d.id, z.to)]
    ensures if NoneToMove(z, p) then moves == []
            else |moves| == 1 && moves[0].MoveVariants? && moves[0].optionId == d.id && MovesRight(z, p, moves[0].moves)
    ensures if reorder && !(NoneToMove(z, p) && NoneMoved(z, p)) && !RightAfter(d.values, z.from, z.to)
            then OrdersRight(z, p, d, h, orders) else orders == []
  {
    FormReadable(p);
    AnomalyExactly(z, p, refs, reorder);
    PlanOf(z, p, refs, reorder);
    NoneIsEmpty(z, p);
    d, h := p.options[At(z, p)], p.options[1 - At(z, p)];
    adds := if NoneToMove(z, p) || z.to in d.values then [] else [AddValue(d.id, z.to)];
    moves := MovesOf(z, p);
    orders := OrdersOf(z, p, reorder);
  }

  lemma MovesOf(z: Sizes, p: Product) returns (moves: seq<Op>)
    requires Family(z, p) && Positioned(p.variants)
    ensures var d := p.options[At(z, p)];
      && PlannedMoves(z, p) == (if NoneToMove(z, p) || z.to in d.values then [] else [AddValue(d.id, z.to)]) + moves
      && if NoneToMove(z, p) then moves == []
         else |moves| == 1 && moves[0].MoveVariants? && moves[0].optionId == d.id && MovesRight(z, p, moves[0].moves)
  {
    NoneIsEmpty(z, p);
    MovesInRight(z, p);
    PlannedMovesAre(z, p);
    moves := if NoneToMove(z, p) then []
             else [MoveVariants(p.options[At(z, p)].id, MovesIn(z, VariantOrder(p.variants), ToMove(z, p)))];
  }

  lemma OrdersOf(z: Sizes, p: Product, reorder: bool) returns (orders: seq<Op>)
    requires SizesOk(z) && Family(z, p) && WellFormed(p) && (Orders(z, p, reorder) ==> z.from in p.options[At(z, p)].values)
    ensures orders == if Orders(z, p, reorder) then PlannedOrders(z, p) else []
    ensures var d, h := p.options[At(z, p)], p.options[1 - At(z, p)];
      if reorder && !(NoneToMove(z, p) && NoneMoved(z, p)) && !RightAfter(d.values, z.from, z.to)
      then OrdersRight(z, p, d, h, orders) else orders == []
  {
    NoneIsEmpty(z, p);
    orders := if Orders(z, p, reorder) then PlannedOrders(z, p) else [];
    if Orders(z, p, reorder) {
      PlannedOrdersAre(z, p);
    }
  }
}
