/** Small products on which the planner's promises part from what a reader expects. */
module PlannerWitnesses {
  import opened Lists
  import opened Catalogue
  import opened KeepsForm
  import opened Compare
  import opened Executor
  import opened ReflowOrder
  import opened Planner
  import opened PlannerFixpoint
  import opened PlannerPositions
  import opened RollbackInverts
  import opened PlannerJobs
  import opened PlannerGuards
  import opened PlannerAnswers

  /** Two variants at `from`, `v` with height `first` and `w` with height `second`, either of
      them at position 1. The options list their two values in the order given. */
  datatype Pair = Pair(z: Sizes, first: Name, second: Name, highs: (Name, Name), wides: (Name, Name),
                       d: Id, h: Id, a: Id, b: Id, v: Id, w: Id, diameterFirst: bool, vFirst: bool)

  ghost predicate Apart(x: Pair) {
    && SizesOk(x.z) && x.d != x.h && x.a != x.b && x.v != x.w && x.first != x.second
    && norm(x.highs.0) != norm(x.highs.1) && norm(x.wides.0) != norm(x.wides.1)
    && (x.first == x.highs.0 || x.first == x.highs.1) && (x.second == x.highs.0 || x.second == x.highs.1)
    && (x.z.from == x.wides.0 || x.z.from == x.wides.1)
  }

  function OptionWith(id: Id, name: Name, values: (Name, Name), a: Id, b: Id): ProductOption {
    ProductOption(id, name, [values.0, values.1], map[values.0 := Some(a), values.1 := Some(b)])
  }

  function ChoiceAt(x: Pair, height: Name): map<Name, Name> {
    map[x.z.diameter := x.z.from, x.z.height := height]
  }

  function TitleAt(x: Pair, height: Name): seq<Name> {
    if x.diameterFirst then [x.z.from, height] else [height, x.z.from]
  }

  function OptionsAt(x: Pair): seq<ProductOption> {
    var wide, high := OptionWith(x.d, x.z.diameter, x.wides, x.a, x.b), OptionWith(x.h, x.z.height, x.highs, x.a, x.b);
    if x.diameterFirst then [wide, high] else [high, wide]
  }

  function VariantsAt(x: Pair): map<Id, Variant> {
    map[x.v := Variant(TitleAt(x, x.first), if x.vFirst then 1 else 2, ChoiceAt(x, x.first), None, None),
        x.w := Variant(TitleAt(x, x.second), if x.vFirst then 2 else 1, ChoiceAt(x, x.second), None, None)]
  }

  function ProductOf(x: Pair): Product {
    Product("", "", OptionsAt(x), VariantsAt(x))
  }

  lemma OptionWithOk(id: Id, name: Name, values: (Name, Name), a: Id, b: Id)
    requires a != b && norm(values.0) != norm(values.1)
    ensures OptionOk(OptionWith(id, name, values, a, b))
  {
    var o := OptionWith(id, name, values, a, b);
    assert o.ids.Keys == Elems(o.values) by {
      assert o.values[0] == values.0 && o.values[1] == values.1;
    }
  }

  lemma PairOptions(x: Pair)
    requires Apart(x)
    ensures OptionsOk(OptionsAt(x))
    ensures Names(OptionsAt(x)) == if x.diameterFirst then [x.z.diameter, x.z.height] else [x.z.height, x.z.diameter]
  {
    OptionWithOk(x.d, x.z.diameter, x.wides, x.a, x.b);
    OptionWithOk(x.h, x.z.height, x.highs, x.a, x.b);
  }

  lemma PairOrder(x: Pair)
    requires Apart(x)
    ensures Positioned(VariantsAt(x)) && VariantOrder(VariantsAt(x)) == if x.vFirst then [x.v, x.w] else [x.w, x.v]
  {
    var order := if x.vFirst then [x.v, x.w] else [x.w, x.v];
    assert IsOrder(VariantsAt(x), order);
    OrderIsUnique(VariantsAt(x), VariantOrder(VariantsAt(x)), order);
  }

  lemma PairChoice(x: Pair, height: Name)
    requires Apart(x) && (height == x.highs.0 || height == x.highs.1)
    ensures ChoiceOk(OptionsAt(x), ChoiceAt(x, height)) && Covers(Names(OptionsAt(x)), ChoiceAt(x, height))
    ensures TitleOf(Names(OptionsAt(x)), ChoiceAt(x, height)) == TitleAt(x, height)
  {
    PairOptions(x);
    var names := Names(OptionsAt(x));
    assert ChoiceAt(x, height).Keys == Elems(names) by {
      assert names[0] in names && names[1] in names;
    }
    var wide, high := OptionWith(x.d, x.z.diameter, x.wides, x.a, x.b), OptionWith(x.h, x.z.height, x.highs, x.a, x.b);
    assert wide.values[0] == x.wides.0 && wide.values[1] == x.wides.1;
    assert high.values[0] == x.highs.0 && high.values[1] == x.highs.1;
  }

  lemma TwoChoicesOk(options: seq<ProductOption>, v: Id, a: Variant, w: Id, b: Variant)
    requires v != w && ChoiceOk(options, a.choice) && ChoiceOk(options, b.choice) && a.choice != b.choice
    ensures VariantsOk(options, map[v := a, w := b])
  {
  }

  lemma PairVariants(x: Pair)
    requires Apart(x)
    ensures VariantsOk(OptionsAt(x), VariantsAt(x))
  {
    PairChoice(x, x.first);
    PairChoice(x, x.second);
    assert ChoiceAt(x, x.first)[x.z.height] == x.first && ChoiceAt(x, x.second)[x.z.height] == x.second;
    TwoChoicesOk(OptionsAt(x), x.v, VariantsAt(x)[x.v], x.w, VariantsAt(x)[x.w]);
  }

  lemma PairTitles(x: Pair)
    requires Apart(x)
    ensures TitlesOk(ProductOf(x))
  {
    PairChoice(x, x.first);
    PairChoice(x, x.second);
  }

  lemma PairFamily(x: Pair)
    requires Apart(x)
    ensures Family(x.z, ProductOf(x)) && At(x.z, ProductOf(x)) == if x.diameterFirst then 0 else 1
  {
    var options := ProductOf(x).options;
    assert Called(options[0], x.z.diameter) || Called(options[1], x.z.diameter);
    assert Called(options[0], x.z.height) || Called(options[1], x.z.height);
  }

  lemma PairForm(x: Pair)
    requires Apart(x)
    ensures WellFormed(ProductOf(x)) && AllKnown(ProductOf(x)) && Readable(ProductOf(x))
  {
    PairOptions(x);
    PairOrder(x);
    PairVariants(x);
    PairTitles(x);
    PairKnown(x);
    FormReadable(ProductOf(x));
  }

  lemma PairKnown(x: Pair)
    ensures AllKnown(ProductOf(x))
  {
  }

  ghost predicate OneMoves(x: Pair, ref: Ref) {
    Apart(x) && x.z.moved == map[x.first := ref] && x.z.kept == map[]
  }

  function RefsOf(x: Pair, ref: Ref): map<Id, Maybe<Ref>> {
    map[x.v := Some(ref), x.w := None]
  }

  lemma PairMoves(x: Pair, ref: Ref)
    requires OneMoves(x, ref)
    ensures ToMove(x.z, ProductOf(x)) == {x.v} && Done(x.z, ProductOf(x)) == {}
    ensures RefsAgree(x.z, ProductOf(x), RefsOf(x, ref))
  {
    var vs := ProductOf(x).variants;
    assert vs[x.v].choice == ChoiceAt(x, x.first) && vs[x.w].choice == ChoiceAt(x, x.second);
    assert Stands(x.z, vs[x.v], x.z.from, x.z.moved.Keys) && !Stands(x.z, vs[x.w], x.z.from, x.z.moved.Keys);
    assert !Stands(x.z, vs[x.v], x.z.to, x.z.moved.Keys) && !Stands(x.z, vs[x.w], x.z.to, x.z.moved.Keys);
    assert !Disagrees(x.z, vs[x.v], Some(ref)) && !Disagrees(x.z, vs[x.w], None);
  }

  /** The planner accepts such a product: variant `v` alone is to move. */
  lemma PairPlanned(x: Pair, ref: Ref)
    requires OneMoves(x, ref)
    ensures Family(x.z, ProductOf(x)) && Positioned(ProductOf(x).variants)
    ensures x.z.from in ProductOf(x).options[At(x.z, ProductOf(x))].values
    ensures !Refuses(x.z, ProductOf(x), RefsOf(x, ref), true) && Orders(x.z, ProductOf(x), true)
  {
    PairFamily(x);
    PairOrder(x);
    PairMoves(x, ref);
    PairApart(x);
    var wide := ProductOf(x).options[At(x.z, ProductOf(x))].values;
    assert wide[0] == x.wides.0 && wide[1] == x.wides.1;
    assert |ToMove(x.z, ProductOf(x))| == 1 && |x.z.moved| == 1 by { assert x.z.moved.Keys == {x.first}; }
  }

  lemma PairApart(x: Pair)
    requires Apart(x)
    ensures !SharedCombination(x.z, ProductOf(x))
  {
    var vs := ProductOf(x).variants;
    assert vs[x.v].choice == ChoiceAt(x, x.first) && vs[x.w].choice == ChoiceAt(x, x.second);
    assert !SamePlace(x.z, vs[x.v], vs[x.w]) && !SamePlace(x.z, vs[x.w], vs[x.v]);
  }

  // ---- A product that is planned again --------------------------------------------------------

  lemma TargetOfTwo(z: Sizes)
    requires SizesOk(z)
    ensures Target(z, [z.from, z.to]) == [z.from, z.to]
  {
    OutsideOne([z.from], z.to, []);
    assert [z.from] + [z.to] + [] == [z.from, z.to] && [z.from] + [] == [z.from];
  }

  /** `to` stands right after `from` already, so no order is planned; but the variant that
      moves stands before the one that stays, the re-flow puts `to` first, and a second
      planning asks for an order. */
  lemma DisplacedIsPlannedAgain(x: Pair, ref: Ref) returns (q: Product)
    requires OneMoves(x, ref) && x.vFirst && x.wides == (x.z.from, x.z.to)
    ensures WellFormed(ProductOf(x)) && AllKnown(ProductOf(x)) && Readable(ProductOf(x)) && Family(x.z, ProductOf(x))
    ensures PlanDiameter(x.z, ProductOf(x), RefsOf(x, ref), true) == Planned([MoveOp(x.z, ProductOf(x))])
    ensures Runs(ProductOf(x), MoveOp(x.z, ProductOf(x))) && q == Simulate(ProductOf(x), MoveOp(x.z, ProductOf(x)))
    ensures Positioned(q.variants) && PlanDiameter(x.z, q, RefsOf(x, ref), true).Planned?
    ensures PlanDiameter(x.z, q, RefsOf(x, ref), true).ops != []
  {
    PairForm(x);
    PairFamily(x);
    DisplacedPlan(x, ref);
    q := ReplanExactly(x.z, ProductOf(x), RefsOf(x, ref), true);
    PairPlanned(x, ref);
    PairMoves(x, ref);
    NotKept(x, ref);
    ExpectedOne(ProductOf(x), MoveOp(x.z, ProductOf(x)));
  }

  lemma PlanIsMove(z: Sizes, p: Product, refs: map<Id, Maybe<Ref>>)
    requires SizesOk(z) && Positioned(p.variants) && !Refuses(z, p, refs, true) && ToMove(z, p) != {}
    requires z.to in p.options[At(z, p)].values && InPlace(z, p.options[At(z, p)].values)
    ensures PlanDiameter(z, p, refs, true) == Planned([MoveOp(z, p)])
  {
  }

  lemma DisplacedPlan(x: Pair, ref: Ref)
    requires OneMoves(x, ref) && x.wides == (x.z.from, x.z.to)
    ensures Family(x.z, ProductOf(x)) && Positioned(ProductOf(x).variants)
    ensures InPlace(x.z, ProductOf(x).options[At(x.z, ProductOf(x))].values)
    ensures PlanDiameter(x.z, ProductOf(x), RefsOf(x, ref), true) == Planned([MoveOp(x.z, ProductOf(x))])
  {
    var p := ProductOf(x);
    PairPlanned(x, ref);
    PairMoves(x, ref);
    TargetOfTwo(x.z);
    var wide := p.options[At(x.z, p)].values;
    assert wide == [x.z.from, x.z.to] && wide[1] == x.z.to;
    PlanIsMove(x.z, p, RefsOf(x, ref));
  }

  lemma ExpectedOne(p: Product, op: Op)
    requires RunsAll(p, [op])
    ensures Runs(p, op) && Expected(p, [op]) == Simulate(p, op)
  {
    assert [op][..1] == [op] && [op][..0] == [];
    ExpectedStep(p, [op], 0);
  }

  lemma NotKept(x: Pair, ref: Ref)
    requires OneMoves(x, ref) && x.vFirst && Family(x.z, ProductOf(x)) && Readable(ProductOf(x))
    ensures !KeepsPlace(x.z, ProductOf(x))
  {
    var p := ProductOf(x);
    PairMoves(x, ref);
    assert HoldsAfter(x.z, p, At(x.z, p), x.v) == x.z.to;
    forall f | f in p.variants && IsFirstLeft(x.z, p, f) ensures !IsBeforeAll(x.z, p, At(x.z, p), f, x.z.to) {
      assert p.variants[x.v].position == 1 && p.variants[f].position >= 1;
    }
  }

  // ---- A product whose job the two accepted answers part -----------------------------------------

  /** The height comes first, `to` stands before `from`, and the variant that stays comes
      before the one that moves. */
  ghost predicate HeightFirst(x: Pair, ref: Ref) {
    && OneMoves(x, ref) && !x.diameterFirst && !x.vFirst
    && x.wides == (x.z.to, x.z.from) && x.highs == (x.second, x.first)
  }

  lemma TargetOfSwapped(z: Sizes)
    requires SizesOk(z)
    ensures Target(z, [z.to, z.from]) == [z.from, z.to]
  {
    OutsideOne([], z.to, [z.from]);
    assert [] + [z.to] + [z.from] == [z.to, z.from] && [] + [z.from] == [z.from];
  }

  lemma HeightFirstPlan(x: Pair, ref: Ref)
    requires HeightFirst(x, ref)
    ensures Family(x.z, ProductOf(x)) && At(x.z, ProductOf(x)) == 1 && Positioned(ProductOf(x).variants)
    ensures ProductOf(x).options[1].values == [x.z.to, x.z.from] && ProductOf(x).options[0].values == [x.second, x.first]
    ensures x.z.from in ProductOf(x).options[1].values && x.z.to in ProductOf(x).options[1].values
    ensures PlannedOrders(x.z, ProductOf(x)) != [] && Clear(x.z, ProductOf(x), true)
    ensures PlannedJob(x.z, ProductOf(x), true, None) == [MoveOp(x.z, ProductOf(x))] + PlannedOrders(x.z, ProductOf(x))
    ensures PlanDiameter(x.z, ProductOf(x), RefsOf(x, ref), true) == Planned(PlannedJob(x.z, ProductOf(x), true, None))
  {
    var p := ProductOf(x);
    PairFamily(x);
    PairPlanned(x, ref);
    PairMoves(x, ref);
    TargetOfSwapped(x.z);
    assert p.options[1].values == [x.z.to, x.z.from];
    assert p.options[1].values[0] == x.z.to && [x.z.from, x.z.to][0] == x.z.from;
    PlanIsPlannedJob(x.z, p, RefsOf(x, ref), true);
  }

  lemma HeightFirstMoves(x: Pair, ref: Ref)
    requires HeightFirst(x, ref)
    ensures WellFormed(ProductOf(x)) && AllKnown(ProductOf(x)) && Readable(ProductOf(x)) && Family(x.z, ProductOf(x))
    ensures AboutToMove(x.z, ProductOf(x), ProductOf(x))
  {
    PairForm(x);
    HeightFirstPlan(x, ref);
    PairMoves(x, ref);
    TitledIsReady(x.z, ProductOf(x), None);
  }

  /** The positions bring both options into the order asked for. */
  lemma HeightFirstLands(x: Pair, ref: Ref)
    requires HeightFirst(x, ref) && Family(x.z, ProductOf(x)) && At(x.z, ProductOf(x)) == 1 && Readable(ProductOf(x))
    requires x.z.from in ProductOf(x).options[1].values
    requires OrderAt(x.z, ProductOf(x), 1) == [x.z.from, x.z.to] && OrderAt(x.z, ProductOf(x), 0) == [x.second, x.first]
    ensures LandsInOrder(x.z, ProductOf(x))
  {
    var p := ProductOf(x);
    PairMoves(x, ref);
    assert Names(p.options)[1] == x.z.diameter && Names(p.options)[0] == x.z.height;
    assert HoldsAfter(x.z, p, 1, x.v) == x.z.to && HoldsAfter(x.z, p, 1, x.w) == x.z.from;
    assert HoldsAfter(x.z, p, 0, x.v) == x.first && HoldsAfter(x.z, p, 0, x.w) == x.second;
    assert IsBeforeAll(x.z, p, 1, x.w, x.z.to) && IsBeforeAll(x.z, p, 0, x.w, x.first);
    OnlyPair(x.z.from, x.z.to);
    OnlyPair(x.second, x.first);
  }

  lemma OnlyPair(a: Name, b: Name)
    requires a != b
    ensures forall x, y :: Precede([a, b], x, y) ==> x == a && y == b
  {
    assert First([a, b], a) == 0;
    assert [a, b][0] == a && [a, b][1] == b;
  }

  lemma HeightFirstOrders(x: Pair, ref: Ref)
    requires HeightFirst(x, ref)
    ensures Family(x.z, ProductOf(x)) && x.z.from in ProductOf(x).options[At(x.z, ProductOf(x))].values
    ensures OrderAt(x.z, ProductOf(x), 1) == [x.z.from, x.z.to] && OrderAt(x.z, ProductOf(x), 0) == [x.second, x.first]
  {
    HeightFirstPlan(x, ref);
    TargetOfSwapped(x.z);
  }

  /** Both accepted answers to the moves settle, and the job ends differently: on the
      re-flowed one the reorder finds itself satisfied and the whole job completes; on the
      other one the guard refuses it. */
  lemma AnswersPart(x: Pair, ref: Ref) returns (reflowed: Product, plain: Product)
    requires HeightFirst(x, ref)
    ensures Family(x.z, ProductOf(x)) && Positioned(ProductOf(x).variants)
    ensures Clear(x.z, ProductOf(x), true) && |PlannedJob(x.z, ProductOf(x), true, None)| == 3
    ensures PlanDiameter(x.z, ProductOf(x), RefsOf(x, ref), true) == Planned(PlannedJob(x.z, ProductOf(x), true, None))
    ensures IsRun(ProductOf(x), PlannedJob(x.z, ProductOf(x), true, None), [ProductOf(x), reflowed, reflowed, reflowed])
    ensures IsRun(ProductOf(x), PlannedJob(x.z, ProductOf(x), true, None), [ProductOf(x), plain]) && WellFormed(plain)
    ensures Refused(plain, PlannedJob(x.z, ProductOf(x), true, None)[1])
  {
    HeightFirstPlan(x, ref);
    HeightFirstPasses(x, ref);
    HeightFirstSkips(x, ref);
    BothRun(ProductOf(x), MoveOp(x.z, ProductOf(x)), PlannedOrders(x.z, ProductOf(x)), PlannedJob(x.z, ProductOf(x), true, None));
    reflowed := Simulate(ProductOf(x), MoveOp(x.z, ProductOf(x)));
    plain := FlagsOf(ProductOf(x), MoveOp(x.z, ProductOf(x))).alternative.value;
    HeightFirstRefused(x, ref);
  }

  /** Whatever follows, the store steps over the edit without a write. */
  ghost predicate StepsOver(q: Product, op: Op) {
    StoreStep(q, op, false, q) && StoreStep(q, op, true, q)
  }

  lemma SkipStep(q: Product, op: Op)
    requires WellFormed(q) && Conditional(op) && Satisfied(q, op)
    ensures StepsOver(q, op)
  {
  }

  lemma BothRun(p: Product, op: Op, orders: seq<Op>, ops: seq<Op>)
    requires |orders| == 2 && orders[1].RestorePositions? && ops == [op] + orders && Movable(p, op)
    requires Runs(p, op) && StepsOver(Simulate(p, op), orders[0]) && StepsOver(Simulate(p, op), orders[1])
    ensures |ops| == 3 && ops[1] == orders[0] && FlagsOf(p, op).alternative.Some?
    ensures IsRun(p, ops, [p, Simulate(p, op), Simulate(p, op), Simulate(p, op)])
    ensures IsRun(p, ops, [p, FlagsOf(p, op).alternative.value])
  {
    BothMatch(p, op);
    assert ops[2].RestorePositions?;
    assert RestoreFollows(ops, 0);
    var trace, stopped := [p, Simulate(p, op), Simulate(p, op), Simulate(p, op)], [p, FlagsOf(p, op).alternative.value];
    forall k | 0 <= k < 3 ensures StoreStep(trace[k], ops[k], RestoreFollows(ops, k), trace[k + 1]) {
      assert k == 0 || k == 1 || k == 2;
    }
    forall k | 0 <= k < 1 ensures StoreStep(stopped[k], ops[k], RestoreFollows(ops, k), stopped[k + 1]) {
      assert k == 0;
    }
  }

  lemma HeightFirstPasses(x: Pair, ref: Ref)
    requires HeightFirst(x, ref)
    ensures Family(x.z, ProductOf(x)) && Positioned(ProductOf(x).variants) && Movable(ProductOf(x), MoveOp(x.z, ProductOf(x)))
  {
    HeightFirstMoves(x, ref);
    MoveNotRefused(x.z, ProductOf(x), ProductOf(x));
    MoveFitsAll(x.z, ProductOf(x), ProductOf(x));
  }

  /** The product is about to be moved, with orders to follow that its positions satisfy. */
  ghost predicate WillLand(z: Sizes, p: Product) {
    && AboutToMove(z, p, p) && Readable(p) && z.from in p.options[At(z, p)].values && PlannedOrders(z, p) != []
    && LandsInOrder(z, p)
  }

  lemma HeightFirstWillLand(x: Pair, ref: Ref)
    requires HeightFirst(x, ref)
    ensures WillLand(x.z, ProductOf(x))
  {
    HeightFirstMoves(x, ref);
    HeightFirstPlan(x, ref);
    HeightFirstOrders(x, ref);
    HeightFirstLands(x, ref);
  }

  lemma LandedStepsOver(z: Sizes, p: Product)
    requires WillLand(z, p)
    ensures Runs(p, MoveOp(z, p))
    ensures StepsOver(Simulate(p, MoveOp(z, p)), PlannedOrders(z, p)[0])
    ensures StepsOver(Simulate(p, MoveOp(z, p)), PlannedOrders(z, p)[1])
  {
    LandedSkips(z, p);
    RestoreSkips(z, p);
  }

  lemma HeightFirstSkips(x: Pair, ref: Ref)
    requires HeightFirst(x, ref) && Family(x.z, ProductOf(x)) && Positioned(ProductOf(x).variants)
    requires x.z.from in ProductOf(x).options[At(x.z, ProductOf(x))].values && PlannedOrders(x.z, ProductOf(x)) != []
    ensures Runs(ProductOf(x), MoveOp(x.z, ProductOf(x)))
    ensures StepsOver(Simulate(ProductOf(x), MoveOp(x.z, ProductOf(x))), PlannedOrders(x.z, ProductOf(x))[0])
    ensures StepsOver(Simulate(ProductOf(x), MoveOp(x.z, ProductOf(x))), PlannedOrders(x.z, ProductOf(x))[1])
  {
    HeightFirstWillLand(x, ref);
    LandedStepsOver(x.z, ProductOf(x));
  }

  /** Where the positions bring the values into order, the reorder is skipped. */
  lemma LandedSkips(z: Sizes, p: Product)
    requires AboutToMove(z, p, p) && Readable(p) && z.from in p.options[At(z, p)].values && PlannedOrders(z, p) != []
    requires LandsInOrder(z, p)
    ensures Runs(p, MoveOp(z, p))
    ensures StepsOver(Simulate(p, MoveOp(z, p)), PlannedOrders(z, p)[0])
  {
    MovedFrame(z, p, p);
    MovedIsOrdered(z, p, p);
    SkipStep(Simulate(p, MoveOp(z, p)), PlannedOrders(z, p)[0]);
  }

  /** A move takes no variant out of its position. */
  lemma RestoreSkips(z: Sizes, p: Product)
    requires ReadyToMove(z, p, p)
    ensures Runs(p, MoveOp(z, p)) && StepsOver(Simulate(p, MoveOp(z, p)), RestorePositions(VariantOrder(p.variants)))
  {
    MovedFrame(z, p, p);
    MovedWrite(z, p, p);
    SamePlaces(p.variants, Simulate(p, MoveOp(z, p)).variants);
    SkipStep(Simulate(p, MoveOp(z, p)), RestorePositions(VariantOrder(p.variants)));
  }

  lemma HeightFirstRefused(x: Pair, ref: Ref)
    requires HeightFirst(x, ref) && Family(x.z, ProductOf(x)) && Positioned(ProductOf(x).variants)
    requires Movable(ProductOf(x), MoveOp(x.z, ProductOf(x))) && PlannedOrders(x.z, ProductOf(x)) != []
    requires x.z.from in ProductOf(x).options[At(x.z, ProductOf(x))].values
    ensures Runs(ProductOf(x), MoveOp(x.z, ProductOf(x)))
    ensures FlagsOf(ProductOf(x), MoveOp(x.z, ProductOf(x))).alternative.Some?
    ensures var plain := FlagsOf(ProductOf(x), MoveOp(x.z, ProductOf(x))).alternative.value;
      WellFormed(plain) && Refused(plain, PlannedOrders(x.z, ProductOf(x))[0])
  {
    HeightFirstMoves(x, ref);
    HeightFirstPlan(x, ref);
    PlainIsUnreflowed(ProductOf(x), MoveOp(x.z, ProductOf(x)));
    PlainRefused(x.z, ProductOf(x), FlagsOf(ProductOf(x), MoveOp(x.z, ProductOf(x))).alternative.value);
  }

  lemma PlainRefused(z: Sizes, p: Product, plain: Product)
    requires AboutToMove(z, p, p) && At(z, p) == 1 && z.from in p.options[1].values && PlannedOrders(z, p) != []
    requires Unreflowed(p, MoveOp(z, p), true, plain)
    ensures Refused(plain, PlannedOrders(z, p)[0])
  {
    UnreflowedRefusedExactly(z, p, p, true, plain);
    UnplacedInPlan(z, p);
  }
}
