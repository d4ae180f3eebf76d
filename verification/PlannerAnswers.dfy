/** The two answers the store may give to the planned moves, and exactly when each of them
    leaves the order edit to be refused. */
module PlannerAnswers {
  import opened Lists
  import opened Catalogue
  import opened Edits
  import opened KeepsForm
  import opened Compare
  import opened Executor
  import opened ReflowOrder
  import opened Planner
  import opened PlannerFixpoint
  import opened PlannerPositions
  import opened PlannerJobs
  import opened PlannerGuards

  // ---- The two answers ---------------------------------------------------------------------------

  /** An accepted answer to a move on which no value re-flowed. */
  ghost predicate Unreflowed(q: Product, op: Op, free: bool, next: Product) {
    && op.MoveVariants? && Runs(q, op) && WellFormed(next)
    && FlagsOf(q, op).alternative.Some? && Matches(FlagsOf(q, op).alternative.value, next, {}, free)
  }

  /** An accepted answer on which they did, the unused ones put wherever the store likes. */
  ghost predicate Reflowed(q: Product, op: Op, free: bool, next: Product) {
    && op.MoveVariants? && Runs(q, op) && WellFormed(next)
    && Matches(Simulate(q, op), next, FlagsOf(q, op).freeValues, free)
  }

  /** There are no other answers. */
  lemma OneOrTheOther(q: Product, op: Op, follows: bool, next: Product)
    requires op.MoveVariants? && StoreStep(q, op, follows, next)
    ensures Reflowed(q, op, follows, next) || Unreflowed(q, op, follows, next)
  {
  }

  // ---- Nothing re-flowed -------------------------------------------------------------------------

  lemma PlainIs(p: Product, op: Op)
    requires op.MoveVariants? && Runs(p, op)
    ensures FlagsOf(p, op).alternative.Some?
    ensures var plain := FlagsOf(p, op).alternative.value;
      plain.options == p.options && plain.variants.Keys == p.variants.Keys
  {
    WriteShape(p, op);
  }

  lemma PlainValues(q: Product, op: Op, free: bool, next: Product)
    requires Unreflowed(q, op, free, next)
    ensures SameFrame(q, next) && forall i :: 0 <= i < |q.options| ==> next.options[i].values == q.options[i].values
  {
    PlainIs(q, op);
    assert forall id :: FreeOf({}, id) == {};
    forall i | 0 <= i < |q.options| ensures next.options[i].values == q.options[i].values {
      OutsideNone(q.options[i].values, {});
      OutsideNone(next.options[i].values, {});
    }
  }

  lemma ValuesDistinct(q: Product, i: nat)
    requires OptionsOk(q.options) && i < |q.options|
    ensures NoDup(q.options[i].values)
  {
    assert OptionOk(q.options[i]);
    NormDistinctNoDup(q.options[i].values);
  }

  /** Lists that agree on the order of what they share agree once the rest is left out. */
  lemma SameWithout(s: seq<Name>, t: seq<Name>, x: Name)
    requires NoDup(s) && NoDup(t) && Elems(t) == Elems(s) + {x}
    requires forall a, b :: a in s && b in s ==> (Precede(t, a, b) <==> Precede(s, a, b))
    ensures Outside(t, {x}) == Outside(s, {x})
  {
    var u, v := Outside(s, {x}), Outside(t, {x});
    OutsideNoDup(s, {x});
    OutsideNoDup(t, {x});
    assert forall a :: a in s <==> a in Elems(s);
    assert forall a :: a in t <==> a in Elems(t);
    assert Elems(u) == Elems(v) by {
      assert forall a :: a in u <==> a in v;
    }
    forall a, b | Precede(u, a, b) ensures Precede(v, a, b) {
      OutsideOrder(s, {x}, a, b);
      OutsideOrder(t, {x}, a, b);
      assert Precede(s, a, b) && Precede(t, a, b);
    }
    SameOrderSameList(u, v);
  }

  /** Before the moves the height values stand as planned, and the diameters but for `to`. */
  lemma ValuesBefore(z: Sizes, p: Product, q: Product)
    requires AboutToMove(z, p, q)
    ensures q.options[1 - At(z, p)].values == p.options[1 - At(z, p)].values
    ensures Outside(q.options[At(z, p)].values, {z.to}) == Outside(p.options[At(z, p)].values, {z.to})
  {
    var i := At(z, p);
    ValuesDistinct(p, 0);
    ValuesDistinct(p, 1);
    ValuesDistinct(q, 0);
    ValuesDistinct(q, 1);
    SameWithout(p.options[i].values, q.options[i].values, z.to);
    var s, t := p.options[1 - i].values, q.options[1 - i].values;
    assert forall a :: a in s <==> a in Elems(s);
    SameOrderSameList(s, t);
  }

  /** Both options stand as the plan asks. */
  ghost predicate StandAsAsked(z: Sizes, p: Product, next: Product)
    requires SizesOk(z) && Family(z, p) && z.from in p.options[At(z, p)].values
  {
    |next.options| == 2 && next.options[0].values == OrderAt(z, p, 0) && next.options[1].values == OrderAt(z, p, 1)
  }

  /** Lists that are the same without `to` have the same target. */
  lemma SameTarget(z: Sizes, s: seq<Name>, t: seq<Name>)
    requires SizesOk(z) && z.from in s && Outside(t, {z.to}) == Outside(s, {z.to}) && NoDup(t) && z.to in t
    ensures z.from in t && Target(z, t) == Target(z, s)
    ensures t == Target(z, s) <==> RightAfter(t, z.from, z.to)
  {
    assert z.from in Outside(s, {z.to});
    InPlaceExactly(z, t);
  }

  /** The values stand as the plan asks exactly when `to` stands right after `from`. */
  lemma StandsExactly(z: Sizes, p: Product, q: Product)
    requires AboutToMove(z, p, q) && z.from in p.options[At(z, p)].values
    ensures StandAsAsked(z, p, q) <==> RightAfter(q.options[At(z, p)].values, z.from, z.to)
  {
    ValuesBefore(z, p, q);
    ValuesDistinct(q, At(z, p));
    SameTarget(z, p.options[At(z, p)].values, q.options[At(z, p)].values);
  }

  /** A plan that moves and then orders, and the state before its moves. */
  ghost predicate MovesThenOrders(z: Sizes, p: Product, q: Product) {
    AboutToMove(z, p, q) && Readable(p) && z.from in p.options[At(z, p)].values && PlannedOrders(z, p) != []
  }

  lemma RefusedUnlessStanding(z: Sizes, p: Product, next: Product)
    requires SizesOk(z) && WellFormed(p) && WellFormed(next) && Family(z, p) && z.from in p.options[At(z, p)].values
    requires PlannedOrders(z, p) != [] && SameFrame(p, next) && Gained(z, p, next)
    ensures Refused(next, PlannedOrders(z, p)[0]) <==> At(z, p) == 1 && !StandAsAsked(z, p, next)
  {
    RefusedUnlessOrdered(z, p, next);
    SatisfiedMeans(z, p, next);
  }

  lemma UnreflowedStays(z: Sizes, p: Product, q: Product, free: bool, next: Product)
    requires Family(z, p) && Positioned(p.variants) && SameFrame(p, q) && Gained(z, p, q) && Unreflowed(q, MoveOp(z, p), free, next)
    ensures SameFrame(p, next) && Gained(z, p, next)
    ensures |next.options| == 2 && next.options[0].values == q.options[0].values && next.options[1].values == q.options[1].values
  {
    PlainValues(q, MoveOp(z, p), free, next);
  }

  /** On an answer without a re-flow, the order that follows is refused exactly when the
      height comes first and `to` does not stand right after `from` before the moves: as
      the plan found it, or where the store put the value that was added. */
  lemma UnreflowedRefusedExactly(z: Sizes, p: Product, q: Product, free: bool, next: Product)
    requires MovesThenOrders(z, p, q) && Unreflowed(q, MoveOp(z, p), free, next)
    ensures Refused(next, PlannedOrders(z, p)[0]) <==>
      At(z, p) == 1 && !RightAfter(q.options[At(z, p)].values, z.from, z.to)
  {
    UnreflowedStays(z, p, q, free, next);
    StandsExactly(z, p, q);
    RefusedUnlessStanding(z, p, next);
  }

  /** A value the plan found is not where an order is planned for it. */
  lemma UnplacedInPlan(z: Sizes, p: Product)
    requires SizesOk(z) && WellFormed(p) && Family(z, p)
    requires z.from in p.options[At(z, p)].values && z.to in p.options[At(z, p)].values && PlannedOrders(z, p) != []
    ensures !RightAfter(p.options[At(z, p)].values, z.from, z.to)
  {
    ValuesDistinct(p, At(z, p));
    InPlaceExactly(z, p.options[At(z, p)].values);
  }

  // ---- The values re-flowed ------------------------------------------------------------------------

  /** The held values of option `i` come, by positions, in the order asked for. */
  ghost predicate HeldLandAt(z: Sizes, p: Product, i: nat)
    requires SizesOk(z) && Family(z, p) && Readable(p) && z.from in p.options[At(z, p)].values && i < 2
  {
    forall x, y :: Precede(OrderAt(z, p, i), x, y) && Held(z, p, i, x) && Held(z, p, i, y) ==> ComesFirst(z, p, i, x, y)
  }

  /** The values nobody holds after the moves stand, in what the store answered, in the
      order asked for. */
  ghost predicate FreeStandAt(z: Sizes, p: Product, next: Product, i: nat)
    requires SizesOk(z) && Family(z, p) && Readable(p) && z.from in p.options[At(z, p)].values && i < 2 == |next.options|
  {
    forall x, y :: Precede(OrderAt(z, p, i), x, y) && !(Held(z, p, i, x) && Held(z, p, i, y)) ==>
      Precede(next.options[i].values, x, y)
  }

  lemma HeldIsUsed(z: Sizes, p: Product, w: Product, i: nat, x: Name)
    requires SizesOk(z) && WellFormed(p) && Family(z, p) && Readable(p) && i < 2 && Readable(w) && |w.options| == 2
    requires SameFrame(p, w) && MovedOver(z, p, w) && SamePositions(p, w) && Held(z, p, i, x)
    ensures x !in UnusedValues(w, i)
  {
    ColumnAfter(z, p, w, i);
    HeldByColumn(z, p, i, x);
    assert x in ColumnOf(w, i);
    assert x in Elems(FirstSeen(ColumnOf(w, i)));
  }

  lemma FreeIsUnused(q: Product, op: Op, i: nat, x: Name)
    requires OptionsOk(q.options) && i < |q.options| && op.MoveVariants? && Runs(q, op) && Readable(Write(q, op))
    requires Write(q, op).options == q.options && x in FreeOf(FlagsOf(q, op).freeValues, q.options[i].id)
    ensures x in UnusedValues(Write(q, op), i)
  {
  }

  /** A value somebody will hold is not among those the store may place. */
  lemma HeldIsNotFree(z: Sizes, p: Product, q: Product, i: nat, x: Name)
    requires ReadyToMove(z, p, q) && Readable(p) && i < 2 && Held(z, p, i, x)
    ensures Runs(q, MoveOp(z, p)) && x !in FreeOf(FlagsOf(q, MoveOp(z, p)).freeValues, q.options[i].id)
  {
    MovedWrite(z, p, q);
    FormReadable(Write(q, MoveOp(z, p)));
    HeldIsUsed(z, p, Write(q, MoveOp(z, p)), i, x);
    if x in FreeOf(FlagsOf(q, MoveOp(z, p)).freeValues, q.options[i].id) {
      FreeIsUnused(q, MoveOp(z, p), i, x);
    }
  }

  lemma ReflowedAlike(z: Sizes, p: Product, q: Product, free: bool, next: Product)
    requires AboutToMove(z, p, q) && Reflowed(q, MoveOp(z, p), free, next) && z.from in p.options[At(z, p)].values
    ensures SameFrame(p, next) && Gained(z, p, next)
    ensures OrdersAgree(Simulate(q, MoveOp(z, p)), next, FlagsOf(q, MoveOp(z, p)).freeValues)
  {
    var op := MoveOp(z, p);
    MovedFrame(z, p, q);
    MovedGained(z, p, q);
    MoveFitsAll(z, p, q);
    FlagsAreExpected(q, op);
    MatchesExactly(Simulate(q, op), next, FlagsOf(q, op).freeValues, free);
    AlikeFrame(p, Simulate(q, op), next);
  }

  lemma SimulatedPair(z: Sizes, p: Product, q: Product, i: nat, x: Name, y: Name)
    requires AboutToMove(z, p, q) && Readable(p) && Runs(q, MoveOp(z, p)) && i < 2
    requires z.from in p.options[At(z, p)].values && Held(z, p, i, x) && Held(z, p, i, y)
    requires x in q.options[i].values && y in q.options[i].values
    ensures var e := Simulate(q, MoveOp(z, p));
      |e.options| == 2 && e.options[i].id == q.options[i].id && x in e.options[i].values && y in e.options[i].values
      && (Precede(e.options[i].values, x, y) <==> ComesFirst(z, p, i, x, y))
  {
    MovedFrame(z, p, q);
    ToIsHeld(z, p);
    MovedPairIs(z, p, q, i, x, y);
    MovedByPositions(z, p, q, i, x, y);
  }

  lemma SamePlaceBan(e: Product, next: Product, ban: set<Name>, i: nat, id: Id, free: set<(Id, Name)>, x: Name, y: Name)
    requires |e.options| == |next.options| && i < |e.options| && e.options[i].id == id && ban == FreeOf(free, id)
    requires OrdersAgree(e, next, free) && x in e.options[i].values && y in e.options[i].values && x !in ban && y !in ban
    ensures Precede(next.options[i].values, x, y) <==> Precede(e.options[i].values, x, y)
  {
    assert x in Outside(e.options[i].values, ban) && y in Outside(e.options[i].values, ban);
    OutsideOrder(e.options[i].values, ban, x, y);
    OutsideOrder(next.options[i].values, ban, x, y);
  }

  /** Two held values stand as their positions say. */
  lemma HeldPair(z: Sizes, p: Product, q: Product, free: bool, next: Product, i: nat, x: Name, y: Name)
    requires AboutToMove(z, p, q) && Readable(p) && Reflowed(q, MoveOp(z, p), free, next) && i < 2
    requires z.from in p.options[At(z, p)].values && Held(z, p, i, x) && Held(z, p, i, y)
    requires x in q.options[i].values && y in q.options[i].values
    ensures |next.options| == 2 && (Precede(next.options[i].values, x, y) <==> ComesFirst(z, p, i, x, y))
  {
    var e, id := Simulate(q, MoveOp(z, p)), q.options[i].id;
    var ban := FreeOf(FlagsOf(q, MoveOp(z, p)).freeValues, id);
    ReflowedAlike(z, p, q, free, next);
    HeldIsNotFree(z, p, q, i, x);
    HeldIsNotFree(z, p, q, i, y);
    SimulatedPair(z, p, q, i, x, y);
    SamePlaceBan(e, next, ban, i, id, FlagsOf(q, MoveOp(z, p)).freeValues, x, y);
  }

  lemma OrderMembers(z: Sizes, p: Product, q: Product, i: nat)
    requires SizesOk(z) && WellFormed(p) && Family(z, p) && z.from in p.options[At(z, p)].values && i < 2 && Gained(z, p, q)
    ensures NoDup(OrderAt(z, p, i)) && Elems(OrderAt(z, p, i)) == Elems(q.options[i].values)
  {
    ValuesDistinct(p, i);
    TargetMembers(z, p.options[At(z, p)].values) by {
      ValuesDistinct(p, At(z, p));
    }
  }

  /** The held values of option `i` stand, in what the store answered, as their positions say. */
  ghost predicate HeldStandAt(z: Sizes, p: Product, next: Product, i: nat)
    requires SizesOk(z) && Family(z, p) && Readable(p) && z.from in p.options[At(z, p)].values && i < 2 == |next.options|
  {
    forall x, y :: Precede(OrderAt(z, p, i), x, y) && Held(z, p, i, x) && Held(z, p, i, y) ==>
      (Precede(next.options[i].values, x, y) <==> ComesFirst(z, p, i, x, y))
  }

  lemma HeldPairs(z: Sizes, p: Product, q: Product, free: bool, next: Product, i: nat)
    requires AboutToMove(z, p, q) && Readable(p) && Reflowed(q, MoveOp(z, p), free, next) && i < 2
    requires z.from in p.options[At(z, p)].values && Elems(OrderAt(z, p, i)) == Elems(q.options[i].values)
    ensures |next.options| == 2 && HeldStandAt(z, p, next, i)
  {
    ReflowedAlike(z, p, q, free, next);
    forall x, y | Precede(OrderAt(z, p, i), x, y) && Held(z, p, i, x) && Held(z, p, i, y)
      ensures Precede(next.options[i].values, x, y) <==> ComesFirst(z, p, i, x, y)
    {
      assert x in Elems(q.options[i].values) && y in Elems(q.options[i].values);
      HeldPair(z, p, q, free, next, i, x, y);
    }
  }

  lemma StandsAtBy(z: Sizes, p: Product, next: Product, i: nat)
    requires SizesOk(z) && Family(z, p) && Readable(p) && z.from in p.options[At(z, p)].values && i < 2 == |next.options|
    requires NoDup(OrderAt(z, p, i)) && NoDup(next.options[i].values)
    requires Elems(OrderAt(z, p, i)) == Elems(next.options[i].values) && HeldStandAt(z, p, next, i)
    ensures next.options[i].values == OrderAt(z, p, i) <==> HeldLandAt(z, p, i) && FreeStandAt(z, p, next, i)
  {
    if HeldLandAt(z, p, i) && FreeStandAt(z, p, next, i) {
      SameOrderSameList(OrderAt(z, p, i), next.options[i].values);
    }
  }

  /** Option `i` stands as asked exactly when its held values land so by their positions
      and the store put the others so. */
  lemma ReflowedStandsAt(z: Sizes, p: Product, q: Product, free: bool, next: Product, i: nat)
    requires AboutToMove(z, p, q) && Readable(p) && Reflowed(q, MoveOp(z, p), free, next) && i < 2
    requires z.from in p.options[At(z, p)].values
    ensures |next.options| == 2
    ensures next.options[i].values == OrderAt(z, p, i) <==> HeldLandAt(z, p, i) && FreeStandAt(z, p, next, i)
  {
    ReflowedAlike(z, p, q, free, next);
    OrderMembers(z, p, q, i);
    OrderMembers(z, p, next, i);
    ValuesDistinct(next, i);
    HeldPairs(z, p, q, free, next, i);
    StandsAtBy(z, p, next, i);
  }

  /** The positions decide what is held, and the store put the rest as asked. */
  ghost predicate LandsOn(z: Sizes, p: Product, next: Product)
    requires SizesOk(z) && Family(z, p) && Readable(p) && z.from in p.options[At(z, p)].values && |next.options| == 2
  {
    && HeldLandAt(z, p, 0) && FreeStandAt(z, p, next, 0)
    && HeldLandAt(z, p, 1) && FreeStandAt(z, p, next, 1)
  }

  lemma ReflowedStands(z: Sizes, p: Product, q: Product, free: bool, next: Product)
    requires AboutToMove(z, p, q) && Readable(p) && Reflowed(q, MoveOp(z, p), free, next)
    requires z.from in p.options[At(z, p)].values
    ensures SameFrame(p, next) && Gained(z, p, next) && |next.options| == 2
    ensures StandAsAsked(z, p, next) <==> LandsOn(z, p, next)
  {
    ReflowedAlike(z, p, q, free, next);
    ReflowedStandsAt(z, p, q, free, next, 0);
    ReflowedStandsAt(z, p, q, free, next, 1);
  }

  /** On a re-flowed answer, wherever the store put the values nobody holds, the order that
      follows is refused exactly when the height comes first and the held values do not land
      in order by their positions, or the others were not put where they are asked for. */
  lemma ReflowedRefusedExactly(z: Sizes, p: Product, q: Product, free: bool, next: Product)
    requires MovesThenOrders(z, p, q) && Reflowed(q, MoveOp(z, p), free, next)
    ensures |next.options| == 2
    ensures Refused(next, PlannedOrders(z, p)[0]) <==> At(z, p) == 1 && !LandsOn(z, p, next)
  {
    ReflowedStands(z, p, q, free, next);
    RefusedUnlessStanding(z, p, next);
  }

  /** Every value asked for is held by some variant after the moves. */
  ghost predicate AllHeld(z: Sizes, p: Product)
    requires SizesOk(z) && Family(z, p) && Readable(p) && z.from in p.options[At(z, p)].values
  {
    forall i, x :: 0 <= i < 2 && x in OrderAt(z, p, i) ==> Held(z, p, i, x)
  }

  /** With no value left unused the store decides nothing: the positions of the variants do. */
  lemma HeldRefusedExactly(z: Sizes, p: Product, q: Product, free: bool, next: Product)
    requires MovesThenOrders(z, p, q) && Reflowed(q, MoveOp(z, p), free, next) && AllHeld(z, p)
    ensures Refused(next, PlannedOrders(z, p)[0]) <==> At(z, p) == 1 && !LandsInOrder(z, p)
  {
    ReflowedRefusedExactly(z, p, q, free, next);
    HeldLands(z, p, next, 0);
    HeldLands(z, p, next, 1);
  }

  lemma HeldLands(z: Sizes, p: Product, next: Product, i: nat)
    requires SizesOk(z) && Family(z, p) && Readable(p) && z.from in p.options[At(z, p)].values && i < 2 == |next.options|
    requires AllHeld(z, p)
    ensures LandsAt(z, p, i) <==> HeldLandAt(z, p, i) && FreeStandAt(z, p, next, i)
  {
    forall x, y | Precede(OrderAt(z, p, i), x, y)
      ensures Held(z, p, i, x) && Held(z, p, i, y) && (Comes(z, p, i, x, y) <==> ComesFirst(z, p, i, x, y))
    {
    }
  }

  // ---- Both answers are given -------------------------------------------------------------------

  /** The move passes, and either answer is accepted. */
  ghost predicate Movable(p: Product, op: Op) {
    WellFormed(p) && AllKnown(p) && op.MoveVariants? && Passes(p, op) && Guarded(op)
  }

  /** The state without the re-flow that a move is also allowed to leave. */
  lemma PlainForm(p: Product, op: Op)
    requires WellFormed(p) && AllKnown(p) && op.MoveVariants? && Fits(p, op) && Guarded(op)
    ensures Runs(p, op) && FlagsOf(p, op).alternative.Some?
    ensures var plain := FlagsOf(p, op).alternative.value;
      WellFormed(plain) && AllKnown(plain) && plain.options == p.options && plain.variants.Keys == p.variants.Keys
  {
    EditKeepsForm(p, op);
    PlainIs(p, op);
  }

  lemma ReflowedForm(p: Product, op: Op)
    requires WellFormed(p) && AllKnown(p) && op.MoveVariants? && Fits(p, op) && Guarded(op)
    ensures Runs(p, op) && WellFormed(Simulate(p, op)) && AllKnown(Simulate(p, op))
  {
    EditKeepsForm(p, op);
    WriteShape(p, op);
    assert forall i :: 0 <= i < |p.options| ==> Simulate(p, op).options[i].ids == p.options[i].ids;
  }

  /** The two states the script accepts after a move are accepted. */
  lemma BothMatch(p: Product, op: Op)
    requires WellFormed(p) && AllKnown(p) && op.MoveVariants? && Passes(p, op) && Guarded(op)
    ensures Runs(p, op) && FlagsOf(p, op).alternative.Some?
    ensures StoreStep(p, op, true, Simulate(p, op)) && StoreStep(p, op, true, FlagsOf(p, op).alternative.value)
  {
    PlainForm(p, op);
    ReflowedForm(p, op);
    FlagsAreExpected(p, op);
    MatchesItself(Simulate(p, op), FlagsOf(p, op).freeValues);
    MatchesItself(FlagsOf(p, op).alternative.value, {});
  }

  lemma MatchesItself(e: Product, free: set<(Id, Name)>)
    requires WellFormed(e) && FreeIsExpected(e, free)
    ensures Matches(e, e, free, true)
  {
    MatchesExactly(e, e, free, true);
  }

  lemma PlainIsUnreflowed(p: Product, op: Op)
    requires Movable(p, op)
    ensures Runs(p, op) && FlagsOf(p, op).alternative.Some?
    ensures Unreflowed(p, op, true, FlagsOf(p, op).alternative.value)
  {
    PlainForm(p, op);
    MatchesItself(FlagsOf(p, op).alternative.value, {});
  }
}
