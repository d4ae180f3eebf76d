/** Exactly which planned jobs can be refused by a guard: for each of them a run of the
    store that ends there. */
module PlannerRefusals {
  import opened Lists
  import opened Catalogue
  import opened Edits
  import opened KeepsForm
  import opened Compare
  import opened Executor
  import opened ReflowOrder
  import opened Planner
  import opened PlannerFixpoint
  import opened PlannerPositions
  import opened PlannerJobs
  import opened PlannerGuards
  import opened PlannerAnswers

  /** A run that stops because the guard refuses its next edit. */
  ghost predicate StopsRefused(p: Product, ops: seq<Op>, trace: seq<Product>) {
    && IsRun(p, ops, trace) && |trace| <= |ops|
    && WellFormed(trace[|trace| - 1]) && Refused(trace[|trace| - 1], ops[|trace| - 1])
  }

  ghost predicate CanBeRefused(p: Product, ops: seq<Op>) {
    exists trace :: StopsRefused(p, ops, trace)
  }

  /** The value is added though another one reads like it, or the values of a product that
      lists the height first are to be ordered. */
  ghost predicate AtRisk(z: Sizes, p: Product, reorder: bool)
    requires SizesOk(z) && Positioned(p.variants) && Clear(z, p, reorder)
  {
    || (ToMove(z, p) != {} && z.to !in p.options[At(z, p)].values && Clashes(z, p))
    || (At(z, p) == 1 && OrdersPlanned(z, p, reorder) != [])
  }

  // ---- Where a refusal comes from ------------------------------------------------------------------

  lemma RefusalIsAtRisk(z: Sizes, p: Product, reorder: bool, title: Maybe<string>, trace: seq<Product>)
    requires SizesOk(z) && WellFormed(p) && AllKnown(p) && Clear(z, p, reorder)
    requires StopsRefused(p, PlannedJob(z, p, reorder, title), trace)
    ensures AtRisk(z, p, reorder)
  {
    var k := |trace| - 1;
    RefusedExactly(z, p, reorder, title, trace, k);
    EditComes(z, p, reorder, title, k);
    if PlannedJob(z, p, reorder, title)[k].ReorderValues? {
      ReorderComes(z, p, reorder, title, k);
    }
  }

  // ---- Runs that lead there --------------------------------------------------------------------------

  /** An edit, and whether positions are restored later in its job. */
  ghost predicate Steps(a: Product, edit: (Op, bool), b: Product) {
    StoreStep(a, edit.0, edit.1, b)
  }

  function Marked(ops: seq<Op>, follows: bool): (r: seq<(Op, bool)>)
    ensures |r| == |ops| && forall i :: 0 <= i < |r| ==> r[i] == (ops[i], follows)
  {
    seq(|ops|, i requires 0 <= i < |ops| => (ops[i], follows))
  }

  /** The first edits of the job, each with what follows it. */
  ghost predicate MarksFirst(first: seq<Op>, follows: bool, ops: seq<Op>) {
    |first| < |ops| && forall i :: 0 <= i < |first| ==> first[i] == ops[i] && follows == RestoreFollows(ops, i)
  }

  lemma GetsRefused(p: Product, first: seq<Op>, follows: bool, ops: seq<Op>, q: Product, op: Op)
    requires MarksFirst(first, follows, ops) && Gets(Steps, p, Marked(first, follows), q)
    requires ops[|first|] == op && WellFormed(q) && Refused(q, op)
    ensures CanBeRefused(p, ops)
  {
    var trace :| Ends(Steps, trace, Marked(first, follows), p, q);
    forall k | 0 <= k < |trace| - 1 ensures StoreStep(trace[k], ops[k], RestoreFollows(ops, k), trace[k + 1]) {
      assert Steps(trace[k], Marked(first, follows)[k], trace[k + 1]);
    }
    assert StopsRefused(p, ops, trace);
  }

  lemma MarkedOne(op: Op, follows: bool)
    ensures Marked([op], follows) == [(op, follows)]
  {
  }

  lemma MarkedBoth(a: seq<Op>, b: seq<Op>, follows: bool)
    ensures Marked(a + b, follows) == Marked(a, follows) + Marked(b, follows)
  {
  }

  lemma TitleStep(p: Product, title: string, follows: bool)
    requires WellFormed(p) && AllKnown(p)
    ensures StoreStep(p, Title(p.title, title, p.handle), follows, p.(title := title))
  {
    var op := Title(p.title, title, p.handle);
    EditKeepsForm(p, op);
    RetitleSame(p.(title := title));
    StrictMatchIsEquality(p.(title := title), p.(title := title));
  }

  /** The title edit, whatever follows it in the job. */
  lemma GetsTitled(p: Product, title: Maybe<string>, follows: bool)
    requires WellFormed(p) && AllKnown(p)
    ensures Gets(Steps, p, Marked(TitleOps(p, title), follows), Titled(p, title))
  {
    if title.None? {
      GetsNowhere(Steps, p);
    } else {
      var op := Title(p.title, title.value, p.handle);
      TitleStep(p, title.value, follows);
      GetsOne(Steps, p, (op, follows), Titled(p, title));
      MarkedOne(op, follows);
    }
  }

  // ---- The value added in front ------------------------------------------------------------------------

  /** A fresh id for the store to mint. */
  ghost predicate Fresh(o: ProductOption, mint: Id) {
    forall n :: n in o.ids ==> o.ids[n] != Some(mint)
  }

  function InFront(o: ProductOption, name: Name, mint: Id): ProductOption {
    o.(values := [name] + o.values, ids := o.ids[name := Some(mint)])
  }

  function AddedInFront(q: Product, i: nat, name: Name, mint: Id): Product
    requires i < |q.options|
  {
    q.(options := q.options[i := InFront(q.options[i], name, mint)])
  }

  lemma InFrontOk(o: ProductOption, name: Name, mint: Id)
    requires OptionOk(o) && Fresh(o, mint) && forall v :: v in o.values ==> norm(v) != norm(name)
    ensures OptionOk(InFront(o, name, mint)) && name !in o.ids
  {
    var values := [name] + o.values;
    forall i, j | 0 <= i < j < |values| ensures norm(values[i]) != norm(values[j]) {
      assert i > 0 ==> values[i] == o.values[i - 1];
      assert values[j] == o.values[j - 1];
    }
    assert name !in Elems(o.values);
    assert Elems(values) == Elems(o.values) + {name};
  }

  lemma InFrontForm(q: Product, i: nat, name: Name, mint: Id)
    requires WellFormed(q) && AllKnown(q) && i < |q.options| && Fresh(q.options[i], mint)
    requires forall v :: v in q.options[i].values ==> norm(v) != norm(name)
    ensures WellFormed(AddedInFront(q, i, name, mint)) && AllKnown(AddedInFront(q, i, name, mint))
  {
    var next := AddedInFront(q, i, name, mint);
    InFrontOk(q.options[i], name, mint);
    assert Names(next.options) == Names(q.options);
    forall j | 0 <= j < |next.options| ensures OptionOk(next.options[j]) {
      assert j != i ==> next.options[j] == q.options[j];
    }
    forall u | u in next.variants ensures ChoiceOk(next.options, next.variants[u].choice) {
      assert ChoiceOk(q.options, q.variants[u].choice);
    }
  }

  lemma FrontStep(q: Product, i: nat, name: Name, mint: Id, follows: bool)
    requires WellFormed(q) && AllKnown(q) && i < |q.options| && Fresh(q.options[i], mint)
    requires forall v :: v in q.options[i].values ==> norm(v) != norm(name)
    ensures StoreStep(q, AddValue(q.options[i].id, name), follows, AddedInFront(q, i, name, mint))
  {
    var op, next := AddValue(q.options[i].id, name), AddedInFront(q, i, name, mint);
    IndexOfDistinct(q.options, i);
    InFrontForm(q, i, name, mint);
    InFrontMatches(q, i, name, mint);
  }

  function AtEnd(o: ProductOption, name: Name): ProductOption {
    o.(values := o.values + [name], ids := o.ids[name := None])
  }

  lemma SimulatedAdd(q: Product, i: nat, name: Name)
    requires WellFormed(q) && i < |q.options|
    requires HasOption(q, q.options[i].id) && IndexOf(q.options, q.options[i].id) == i
    ensures Runs(q, AddValue(q.options[i].id, name))
    ensures Simulate(q, AddValue(q.options[i].id, name)) == q.(options := q.options[i := AtEnd(q.options[i], name)])
  {
    var w := q.(options := q.options[i := AtEnd(q.options[i], name)]);
    assert Names(w.options) == Names(q.options);
    assert Retitle(w).variants == q.variants;
  }

  lemma FrontOrEnd(o: ProductOption, name: Name, mint: Id)
    requires name !in o.values && name !in o.ids
    ensures OptionAlike(AtEnd(o, name), InFront(o, name, mint))
    ensures Outside(AtEnd(o, name).values, {name}) == Outside(InFront(o, name, mint).values, {name})
  {
    var e, l := AtEnd(o, name), InFront(o, name, mint);
    assert Elems(e.values) == Elems(o.values) + {name} == Elems(l.values);
    OutsideConcat(o.values, [name], {name});
    OutsideConcat([name], o.values, {name});
    OutsideAll([name], {name});
  }

  lemma InFrontMatches(q: Product, i: nat, name: Name, mint: Id)
    requires WellFormed(q) && i < |q.options| && WellFormed(AddedInFront(q, i, name, mint)) && name !in q.options[i].values
    requires HasOption(q, q.options[i].id) && IndexOf(q.options, q.options[i].id) == i
    requires Passes(q, AddValue(q.options[i].id, name))
    ensures Runs(q, AddValue(q.options[i].id, name))
    ensures Matches(Simulate(q, AddValue(q.options[i].id, name)), AddedInFront(q, i, name, mint), {(q.options[i].id, name)}, false)
  {
    var op, next, free := AddValue(q.options[i].id, name), AddedInFront(q, i, name, mint), {(q.options[i].id, name)};
    EditKeepsForm(q, op);
    FlagsAreExpected(q, op);
    SimulatedAdd(q, i, name);
    EndIsFront(q, i, name, mint, Simulate(q, op), next, free);
    MatchesExactly(Simulate(q, op), next, free, false);
  }

  lemma EndIsFront(q: Product, i: nat, name: Name, mint: Id, e: Product, next: Product, free: set<(Id, Name)>)
    requires WellFormed(q) && i < |q.options| && name !in q.options[i].values && free == {(q.options[i].id, name)}
    requires e == q.(options := q.options[i := AtEnd(q.options[i], name)]) && next == AddedInFront(q, i, name, mint)
    ensures Alike(e, next) && OrdersAgree(e, next, free) && PositionsAgree(e, next)
  {
    assert OptionOk(q.options[i]) && name !in Elems(q.options[i].values);
    FrontOrEnd(q.options[i], name, mint);
    assert FreeOf(free, q.options[i].id) == {name};
    forall j | 0 <= j < |e.options| ensures OptionAlike(e.options[j], next.options[j]) {
    }
    forall j | 0 <= j < |e.options|
      ensures Outside(e.options[j].values, FreeOf(free, e.options[j].id)) == Outside(next.options[j].values, FreeOf(free, e.options[j].id))
    {
    }
    forall id | id in e.variants ensures VariantAlike(e.variants[id], next.variants[id]) {
    }
  }

  // ---- The run up to the order edit ------------------------------------------------------------------

  lemma DoneHasTo(z: Sizes, p: Product)
    requires SizesOk(z) && WellFormed(p) && Family(z, p) && Done(z, p) != {}
    ensures z.to in p.options[At(z, p)].values
  {
    var u :| u in Done(z, p);
    assert ChoiceOk(p.options, p.variants[u].choice);
  }

  lemma OwnValuesRefused(z: Sizes, p: Product, q: Product)
    requires SizesOk(z) && WellFormed(p) && WellFormed(q) && Family(z, p) && At(z, p) == 1
    requires z.from in p.options[1].values && z.to in p.options[1].values && PlannedOrders(z, p) != []
    requires q.options == p.options && q.variants.Keys == p.variants.Keys
    ensures Refused(q, PlannedOrders(z, p)[0])
  {
    assert z.to in Elems(p.options[1].values);
    assert Elems(p.options[1].values) + {z.to} == Elems(p.options[1].values);
    RefusedUnlessStanding(z, p, q);
  }

  /** The moves' turn has come, and `to` does not stand right after `from`. */
  ghost predicate Unplaced(z: Sizes, p: Product, q: Product) {
    AllKnown(q) && AboutToMove(z, p, q) && !RightAfter(q.options[At(z, p)].values, z.from, z.to)
  }

  lemma TitledUnplaced(z: Sizes, p: Product, title: Maybe<string>)
    requires SizesOk(z) && WellFormed(p) && AllKnown(p) && Family(z, p) && ToMove(z, p) != {} && Done(z, p) == {}
    requires z.from in p.options[At(z, p)].values && z.to in p.options[At(z, p)].values && PlannedOrders(z, p) != []
    ensures Unplaced(z, p, Titled(p, title))
  {
    UnplacedInPlan(z, p);
    var values := Titled(p, title).options[At(z, p)].values;
    assert !RightAfter(values, z.from, z.to);
    TitledIsReady(z, p, title);
  }

  lemma AddedUnplaced(z: Sizes, p: Product, title: Maybe<string>, mint: Id, follows: bool)
    requires SizesOk(z) && WellFormed(p) && AllKnown(p) && Family(z, p) && ToMove(z, p) != {} && Done(z, p) == {}
    requires !Clashes(z, p) && Fresh(p.options[At(z, p)], mint)
    ensures StoreStep(Titled(p, title), AddValue(p.options[At(z, p)].id, z.to), follows,
                      AddedInFront(Titled(p, title), At(z, p), z.to, mint))
    ensures Unplaced(z, p, AddedInFront(Titled(p, title), At(z, p), z.to, mint))
  {
    var q, i := Titled(p, title), At(z, p);
    TitleLeads(p, title);
    assert forall v :: v in q.options[i].values ==> norm(v) != norm(z.to);
    FrontStep(q, i, z.to, mint, follows);
    AddedIsReady(z, p, title, follows, AddedInFront(q, i, z.to, mint));
    InFrontForm(q, i, z.to, mint);
    FrontIsFirst(q.options[i], z.to, mint);
  }

  lemma FrontIsFirst(o: ProductOption, name: Name, mint: Id)
    ensures forall x :: !RightAfter(InFront(o, name, mint).values, x, name)
  {
    assert First(InFront(o, name, mint).values, name) == 0;
  }

  /** A product read for planning, with an id the store may mint next. */
  ghost predicate Read(z: Sizes, p: Product, mint: Id) {
    SizesOk(z) && WellFormed(p) && AllKnown(p) && Family(z, p) && Fresh(p.options[At(z, p)], mint)
  }

  /** Its moves are ahead, and the value they need is there or can be added. */
  ghost predicate ToBeMoved(z: Sizes, p: Product)
    requires Family(z, p)
  {
    ToMove(z, p) != {} && Done(z, p) == {} && (z.to in p.options[At(z, p)].values || !Clashes(z, p))
  }

  ghost predicate ToBeOrdered(z: Sizes, p: Product)
    requires SizesOk(z) && Family(z, p) && Positioned(p.variants)
  {
    z.from in p.options[At(z, p)].values && PlannedOrders(z, p) != []
  }

  /** The state before the moves when the store puts an added value in front. */
  ghost function BeforeThem(z: Sizes, p: Product, title: Maybe<string>, mint: Id): Product
    requires Family(z, p)
  {
    if z.to in p.options[At(z, p)].values then Titled(p, title)
    else AddedInFront(Titled(p, title), At(z, p), z.to, mint)
  }

  lemma BeforeUnplaced(z: Sizes, p: Product, title: Maybe<string>, mint: Id)
    requires Read(z, p, mint) && ToBeMoved(z, p) && ToBeOrdered(z, p)
    ensures Unplaced(z, p, BeforeThem(z, p, title, mint))
  {
    if z.to in p.options[At(z, p)].values {
      TitledUnplaced(z, p, title);
    } else {
      AddedUnplaced(z, p, title, mint, true);
    }
  }

  lemma GetsAdded(z: Sizes, p: Product, title: Maybe<string>, mint: Id, follows: bool)
    requires Read(z, p, mint) && ToBeMoved(z, p)
    ensures Gets(Steps, Titled(p, title), Marked(AddOps(z, p), follows), BeforeThem(z, p, title, mint))
  {
    if z.to in p.options[At(z, p)].values {
      GetsNowhere(Steps, Titled(p, title));
    } else {
      var op := AddValue(p.options[At(z, p)].id, z.to);
      AddedUnplaced(z, p, title, mint, follows);
      GetsOne(Steps, Titled(p, title), (op, follows), BeforeThem(z, p, title, mint));
      MarkedOne(op, follows);
    }
  }

  lemma MoveRefused(z: Sizes, p: Product, q: Product) returns (next: Product)
    requires MovesThenOrders(z, p, q) && Unplaced(z, p, q) && At(z, p) == 1
    ensures StoreStep(q, MoveOp(z, p), true, next) && WellFormed(next) && Refused(next, PlannedOrders(z, p)[0])
  {
    MoveFitsAll(z, p, q);
    MoveNotRefused(z, p, q);
    PlainIsUnreflowed(q, MoveOp(z, p));
    BothMatch(q, MoveOp(z, p));
    next := FlagsOf(q, MoveOp(z, p)).alternative.value;
    UnreflowedRefusedExactly(z, p, q, true, next);
  }

  // ---- The three ways to be refused ------------------------------------------------------------------

  lemma MarksTitle(p: Product, title: Maybe<string>, rest: seq<Op>)
    requires rest != []
    ensures MarksFirst(TitleOps(p, title), RestoreFollows(TitleOps(p, title) + rest, 0), TitleOps(p, title) + rest)
    ensures (TitleOps(p, title) + rest)[|TitleOps(p, title)|] == rest[0]
  {
  }

  /** The add itself, after the title. */
  lemma AddCanBeRefused(z: Sizes, p: Product, title: Maybe<string>, rest: seq<Op>)
    requires SizesOk(z) && WellFormed(p) && AllKnown(p) && Family(z, p) && Clashes(z, p)
    requires rest != [] && rest[0] == AddValue(p.options[At(z, p)].id, z.to)
    ensures CanBeRefused(p, TitleOps(p, title) + rest)
  {
    var ops := TitleOps(p, title) + rest;
    TitleLeads(p, title);
    AddRefusedExactly(z, p, Titled(p, title));
    GetsTitled(p, title, RestoreFollows(ops, 0));
    MarksTitle(p, title, rest);
    GetsRefused(p, TitleOps(p, title), RestoreFollows(ops, 0), ops, Titled(p, title), rest[0]);
  }

  /** The order right after the title, when nothing is moved. */
  lemma OrderCanBeRefused(z: Sizes, p: Product, title: Maybe<string>, rest: seq<Op>)
    requires SizesOk(z) && WellFormed(p) && AllKnown(p) && Family(z, p) && At(z, p) == 1 && Done(z, p) != {}
    requires z.from in p.options[1].values && PlannedOrders(z, p) != [] && rest != [] && rest[0] == PlannedOrders(z, p)[0]
    ensures CanBeRefused(p, TitleOps(p, title) + rest)
  {
    var ops := TitleOps(p, title) + rest;
    TitleLeads(p, title);
    DoneHasTo(z, p);
    OwnValuesRefused(z, p, Titled(p, title));
    GetsTitled(p, title, RestoreFollows(ops, 0));
    MarksTitle(p, title, rest);
    GetsRefused(p, TitleOps(p, title), RestoreFollows(ops, 0), ops, Titled(p, title), rest[0]);
  }

  /** The moves are answered without a re-flow, and the order is refused. */
  lemma GetsMoved(z: Sizes, p: Product, title: Maybe<string>, mint: Id) returns (next: Product)
    requires Read(z, p, mint) && ToBeMoved(z, p) && ToBeOrdered(z, p) && At(z, p) == 1
    ensures Gets(Steps, BeforeThem(z, p, title, mint), [(MoveOp(z, p), true)], next)
    ensures WellFormed(next) && Refused(next, PlannedOrders(z, p)[0])
  {
    BeforeUnplaced(z, p, title, mint);
    FormReadable(p);
    next := MoveRefused(z, p, BeforeThem(z, p, title, mint));
    GetsOne(Steps, BeforeThem(z, p, title, mint), (MoveOp(z, p), true), next);
  }

  lemma MarksBefore(first: seq<Op>, orders: seq<Op>)
    requires |orders| == 2 && orders[1].RestorePositions?
    ensures MarksFirst(first, true, first + orders) && (first + orders)[|first|] == orders[0]
  {
    var ops := first + orders;
    assert ops[|first| + 1] == orders[1];
  }

  /** The edits up to the moves, and the moves. */
  lemma GetsAllMoved(z: Sizes, p: Product, title: Maybe<string>, mint: Id) returns (next: Product)
    requires Read(z, p, mint) && ToBeMoved(z, p) && ToBeOrdered(z, p) && At(z, p) == 1
    ensures Gets(Steps, p, Marked(TitleOps(p, title) + AddOps(z, p) + [MoveOp(z, p)], true), next)
    ensures WellFormed(next) && Refused(next, PlannedOrders(z, p)[0])
  {
    var a, b, m := TitleOps(p, title), AddOps(z, p), MoveOp(z, p);
    next := GetsMoved(z, p, title, mint);
    GetsTitled(p, title, true);
    GetsAdded(z, p, title, mint, true);
    GetsOn(Steps, p, Marked(a, true), Titled(p, title), Marked(b, true), BeforeThem(z, p, title, mint));
    GetsOn(Steps, p, Marked(a, true) + Marked(b, true), BeforeThem(z, p, title, mint), [(m, true)], next);
    MarkedBoth(a, b, true);
    MarkedBoth(a + b, [m], true);
    MarkedOne(m, true);
  }

  /** The order after moves that the store answered without a re-flow. */
  lemma MovedCanBeRefused(z: Sizes, p: Product, title: Maybe<string>, mint: Id)
    requires Read(z, p, mint) && ToBeMoved(z, p) && ToBeOrdered(z, p) && At(z, p) == 1
    ensures CanBeRefused(p, TitleOps(p, title) + AddOps(z, p) + [MoveOp(z, p)] + PlannedOrders(z, p))
  {
    var first, orders := TitleOps(p, title) + AddOps(z, p) + [MoveOp(z, p)], PlannedOrders(z, p);
    var next := GetsAllMoved(z, p, title, mint);
    MarksBefore(first, orders);
    GetsRefused(p, first, true, first + orders, next, orders[0]);
  }

  /** The edits after the title. */
  lemma AfterTitleEdits(z: Sizes, p: Product, reorder: bool, title: Maybe<string>)
    requires SizesOk(z) && Positioned(p.variants) && Clear(z, p, reorder)
    ensures ToMove(z, p) == {} ==> PlannedJob(z, p, reorder, title) == TitleOps(p, title) + OrdersPlanned(z, p, reorder)
    ensures ToMove(z, p) != {} ==>
      PlannedJob(z, p, reorder, title) == TitleOps(p, title) + (AddOps(z, p) + [MoveOp(z, p)] + OrdersPlanned(z, p, reorder))
      && PlannedJob(z, p, reorder, title) == TitleOps(p, title) + AddOps(z, p) + [MoveOp(z, p)] + OrdersPlanned(z, p, reorder)
  {
    var rest := PlannedMoves(z, p) + OrdersPlanned(z, p, reorder);
    assert PlannedJob(z, p, reorder, title) == TitleOps(p, title) + rest;
    if ToMove(z, p) == {} {
      assert rest == OrdersPlanned(z, p, reorder);
    } else {
      assert rest == AddOps(z, p) + [MoveOp(z, p)] + OrdersPlanned(z, p, reorder);
    }
  }

  lemma RiskIsRefused(z: Sizes, p: Product, reorder: bool, title: Maybe<string>, mint: Id)
    requires Read(z, p, mint) && Clear(z, p, reorder) && AtRisk(z, p, reorder)
    ensures CanBeRefused(p, PlannedJob(z, p, reorder, title))
  {
    AfterTitleEdits(z, p, reorder, title);
    if ToMove(z, p) == {} {
      OrderCanBeRefused(z, p, title, OrdersPlanned(z, p, reorder));
    } else if z.to !in p.options[At(z, p)].values && Clashes(z, p) {
      AddCanBeRefused(z, p, title, AddOps(z, p) + [MoveOp(z, p)] + OrdersPlanned(z, p, reorder));
    } else {
      MovedCanBeRefused(z, p, title, mint);
    }
  }

  /** Exactly which planned jobs can be refused, told from the product before the job: some
      run of the store ends at a guard if and only if the value is added though another one
      reads like it, or an order is planned for a product that lists the height first. */
  lemma CanBeRefusedExactly(z: Sizes, p: Product, reorder: bool, title: Maybe<string>, mint: Id)
    requires Read(z, p, mint) && Clear(z, p, reorder)
    ensures CanBeRefused(p, PlannedJob(z, p, reorder, title)) <==> AtRisk(z, p, reorder)
  {
    if trace :| StopsRefused(p, PlannedJob(z, p, reorder, title), trace) {
      RefusalIsAtRisk(z, p, reorder, title, trace);
    }
    if AtRisk(z, p, reorder) {
      RiskIsRefused(z, p, reorder, title, mint);
    }
  }
}
