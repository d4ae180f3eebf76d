/** Exactly when a guard of the apply script refuses an edit of a planned job. */
module PlannerGuards {
  import opened Lists
  import opened Catalogue
  import opened Edits
  import opened KeepsForm
  import opened Compare
  import opened Executor
  import opened ReflowOrder
  import opened RollbackPlanner
  import opened RollbackInverts
  import opened Planner
  import opened PlannerFixpoint
  import opened PlannerPositions
  import opened PlannerJobs

  /** The edit is not skipped, its guard is asked, and it does not pass. */
  ghost predicate Refused(q: Product, op: Op)
    requires Positioned(q.variants)
  {
    !(Conditional(op) && Satisfied(q, op)) && !Passes(q, op)
  }

  /** Some value reads like `to`. */
  ghost predicate Clashes(z: Sizes, p: Product)
    requires Family(z, p)
  {
    exists v :: v in p.options[At(z, p)].values && norm(v) == norm(z.to)
  }

  // ---- What a run of a planned job leaves ----------------------------------------------------------

  lemma {:induction false} PromisedFrame(p: Product, ops: seq<Op>)
    requires RunsAll(p, ops)
    ensures SameFrame(p, Expected(p, ops))
    decreases |ops|
  {
    if ops != [] {
      PromisedFrame(p, ops[..|ops| - 1]);
      FrameKept(Expected(p, ops[..|ops| - 1]), ops[|ops| - 1]);
    }
  }

  lemma AlikeFrame(p: Product, e: Product, q: Product)
    requires SameFrame(p, e) && Alike(e, q)
    ensures SameFrame(p, q) && SameChoices(e, q)
    ensures forall i :: 0 <= i < |p.options| ==> Elems(q.options[i].values) == Elems(e.options[i].values)
  {
    forall i | 0 <= i < |p.options|
      ensures q.options[i].id == p.options[i].id && q.options[i].name == p.options[i].name
      ensures Elems(q.options[i].values) == Elems(e.options[i].values)
    {
      assert OptionAlike(e.options[i], q.options[i]);
    }
    forall id | id in e.variants ensures q.variants[id].choice == e.variants[id].choice {
      assert VariantAlike(e.variants[id], q.variants[id]);
    }
  }

  /** The state before edit `k`, read against what the edits before it promise. */
  lemma RunReads(z: Sizes, p: Product, reorder: bool, title: Maybe<string>, trace: seq<Product>, k: nat, first: seq<Op>, e: Product)
    requires SizesOk(z) && WellFormed(p) && AllKnown(p) && Clear(z, p, reorder)
    requires IsRun(p, PlannedJob(z, p, reorder, title), trace) && k < |trace|
    requires PlannedJob(z, p, reorder, title)[..k] == first && Leads(p, first, e)
    ensures WellFormed(trace[k]) && AllKnown(trace[k]) && SameFrame(p, trace[k]) && SameChoices(e, trace[k])
    ensures SameFrame(p, e) && forall i :: 0 <= i < |p.options| ==> Elems(trace[k].options[i].values) == Elems(e.options[i].values)
  {
    PlannedIsJob(z, p, reorder, title);
    EveryPrefixIsAlike(p, PlannedJob(z, p, reorder, title), trace, k);
    LeadsIsExpected(p, first, e);
    PromisedFrame(p, first);
    AlikeFrame(p, e, trace[k]);
  }

  // ---- Edit by edit -----------------------------------------------------------------------------------

  /** Which edit of a planned job comes at `k`, and what comes before it. */
  ghost predicate ComesAt(z: Sizes, p: Product, title: Maybe<string>, before: seq<Op>, op: Op)
    requires Family(z, p) && Positioned(p.variants)
  {
    match op
    case Title(_, _, _) => before == [] && [op] == TitleOps(p, title)
    case AddValue(_, _) =>
      before == TitleOps(p, title) && ToMove(z, p) != {} && z.to !in p.options[At(z, p)].values
      && op == AddValue(p.options[At(z, p)].id, z.to)
    case MoveVariants(_, _) => before == TitleOps(p, title) + AddOps(z, p) && ToMove(z, p) != {} && op == MoveOp(z, p)
    case ReorderValues(_) => before == TitleOps(p, title) + PlannedMoves(z, p)
    case RestorePositions(order) => order == VariantOrder(p.variants)
    case _ => false
  }

  lemma EditComes(z: Sizes, p: Product, reorder: bool, title: Maybe<string>, k: nat)
    requires SizesOk(z) && Positioned(p.variants) && Clear(z, p, reorder) && k < |PlannedJob(z, p, reorder, title)|
    ensures ComesAt(z, p, title, PlannedJob(z, p, reorder, title)[..k], PlannedJob(z, p, reorder, title)[k])
  {
    var titles, moves, orders := TitleOps(p, title), PlannedMoves(z, p), OrdersPlanned(z, p, reorder);
    InThree(titles, moves, orders, k);
    var m := |titles|;
    if k < m {
      assert titles[..k] == [];
    } else if k < m + |moves| {
      MoveComes(z, p, title, k - m);
    } else {
      assert k == m + |moves| ==> orders[..0] == [] && titles + moves + [] == titles + moves;
    }
  }

  lemma MoveComes(z: Sizes, p: Product, title: Maybe<string>, k: nat)
    requires Family(z, p) && Positioned(p.variants) && k < |PlannedMoves(z, p)|
    ensures ComesAt(z, p, title, TitleOps(p, title) + PlannedMoves(z, p)[..k], PlannedMoves(z, p)[k])
  {
    var moves, adds := PlannedMoves(z, p), AddOps(z, p);
    assert moves == adds + [MoveOp(z, p)];
    if k < |adds| {
      assert moves[..k] == [] && TitleOps(p, title) + [] == TitleOps(p, title);
    } else {
      assert moves[..k] == adds;
    }
  }

  lemma InThree<T>(a: seq<T>, b: seq<T>, c: seq<T>, k: nat)
    requires k < |a + b + c|
    ensures k < |a| ==> (a + b + c)[k] == a[k] && (a + b + c)[..k] == a[..k]
    ensures |a| <= k < |a| + |b| ==> (a + b + c)[k] == b[k - |a|] && (a + b + c)[..k] == a + b[..k - |a|]
    ensures |a| + |b| <= k ==> (a + b + c)[k] == c[k - |a| - |b|] && (a + b + c)[..k] == a + b + c[..k - |a| - |b|]
  {
  }

  lemma AddRefusedExactly(z: Sizes, p: Product, q: Product)
    requires Family(z, p) && WellFormed(q) && SameFrame(p, q)
    requires Elems(q.options[At(z, p)].values) == Elems(p.options[At(z, p)].values)
    ensures Refused(q, AddValue(p.options[At(z, p)].id, z.to)) <==> Clashes(z, p)
  {
    var i := At(z, p);
    assert q.options[i].id == p.options[i].id;
    assert HasOption(q, q.options[i].id) && IndexOf(q.options, q.options[i].id) == i;
    assert forall v :: v in q.options[i].values <==> v in Elems(q.options[i].values);
    assert forall v :: v in p.options[i].values <==> v in Elems(p.options[i].values);
  }

  lemma MoveNotRefused(z: Sizes, p: Product, q: Product)
    requires SizesOk(z) && WellFormed(p) && WellFormed(q) && AllKnown(q) && Family(z, p) && Done(z, p) == {}
    requires SameFrame(p, q) && SameChoices(p, q) && z.to in Elems(q.options[At(z, p)].values)
    ensures !Refused(q, MoveOp(z, p))
  {
    MoveFitsAll(z, p, q);
    var i := At(z, p);
    assert q.options[i].id == p.options[i].id && IndexOf(q.options, q.options[i].id) == i;
    assert OptionOk(q.options[i]);
  }

  lemma ReorderFitsFirst(z: Sizes, p: Product, q: Product)
    requires SizesOk(z) && WellFormed(p) && WellFormed(q) && Family(z, p) && z.from in p.options[At(z, p)].values
    requires PlannedOrders(z, p) != [] && SameFrame(p, q) && Gained(z, p, q) && At(z, p) == 0
    ensures Fits(q, PlannedOrders(z, p)[0])
  {
    var o, h := p.options[0], p.options[1];
    assert OptionOk(o) && OptionOk(h) && OptionOk(q.options[0]) && OptionOk(q.options[1]);
    NormDistinctNoDup(o.values);
    NormDistinctNoDup(h.values);
    TargetMembers(z, o.values);
    SameValues(q.options[0], Target(z, o.values));
    SameValues(q.options[1], h.values);
  }

  /** The orders a plan lists, diameter first, fit exactly the products that list it first. */
  lemma ReorderFitsExactly(z: Sizes, p: Product, q: Product)
    requires SizesOk(z) && WellFormed(p) && WellFormed(q) && Family(z, p) && z.from in p.options[At(z, p)].values
    requires PlannedOrders(z, p) != [] && SameFrame(p, q) && Gained(z, p, q)
    ensures Passes(q, PlannedOrders(z, p)[0]) <==> At(z, p) == 0
  {
    if At(z, p) == 0 {
      ReorderFitsFirst(z, p, q);
    } else {
      assert PlannedOrders(z, p)[0].orders[0].id == p.options[1].id;
      assert q.options[0].id == p.options[0].id && p.options[0].id != p.options[1].id;
    }
  }

  lemma RefusedUnlessOrdered(z: Sizes, p: Product, q: Product)
    requires SizesOk(z) && WellFormed(p) && WellFormed(q) && Family(z, p) && z.from in p.options[At(z, p)].values
    requires PlannedOrders(z, p) != [] && SameFrame(p, q) && Gained(z, p, q)
    ensures Refused(q, PlannedOrders(z, p)[0]) <==> At(z, p) == 1 && !Satisfied(q, PlannedOrders(z, p)[0])
  {
    ReorderFitsExactly(z, p, q);
  }

  lemma RestoreNotRefused(p: Product, q: Product)
    requires WellFormed(p) && WellFormed(q) && SameFrame(p, q)
    ensures !Refused(q, RestorePositions(VariantOrder(p.variants)))
  {
    OwnOrderListsAll(p.variants);
  }

  // ---- A stopped run --------------------------------------------------------------------------------------

  lemma AddAnswered(z: Sizes, p: Product, reorder: bool, title: Maybe<string>, trace: seq<Product>, k: nat)
    requires SizesOk(z) && WellFormed(p) && AllKnown(p) && Clear(z, p, reorder)
    requires IsRun(p, PlannedJob(z, p, reorder, title), trace) && k < |trace| && k < |PlannedJob(z, p, reorder, title)|
    requires PlannedJob(z, p, reorder, title)[k].AddValue?
    ensures WellFormed(trace[k]) && (Refused(trace[k], PlannedJob(z, p, reorder, title)[k]) <==> Clashes(z, p))
  {
    EditComes(z, p, reorder, title, k);
    TitleLeads(p, title);
    RunReads(z, p, reorder, title, trace, k, TitleOps(p, title), Titled(p, title));
    AddRefusedExactly(z, p, trace[k]);
  }

  lemma MoveAnswered(z: Sizes, p: Product, reorder: bool, title: Maybe<string>, trace: seq<Product>, k: nat)
    requires SizesOk(z) && WellFormed(p) && AllKnown(p) && Clear(z, p, reorder)
    requires IsRun(p, PlannedJob(z, p, reorder, title), trace) && k < |trace| && k < |PlannedJob(z, p, reorder, title)|
    requires PlannedJob(z, p, reorder, title)[k].MoveVariants?
    ensures WellFormed(trace[k]) && !Refused(trace[k], PlannedJob(z, p, reorder, title)[k])
  {
    EditComes(z, p, reorder, title, k);
    var a := AddsLead(z, p, title);
    RunReads(z, p, reorder, title, trace, k, TitleOps(p, title) + AddOps(z, p), a);
    MoveNotRefused(z, p, trace[k]);
  }

  /** When a guard refuses. Whatever the store answered so far, the next edit of a planned
      job is refused exactly when it adds a value that some value reads like, or orders the
      values of a product that lists the height first and does not have them so already. */
  lemma RefusedExactly(z: Sizes, p: Product, reorder: bool, title: Maybe<string>, trace: seq<Product>, k: nat)
    requires SizesOk(z) && WellFormed(p) && AllKnown(p) && Clear(z, p, reorder)
    requires IsRun(p, PlannedJob(z, p, reorder, title), trace) && k < |trace| && k < |PlannedJob(z, p, reorder, title)|
    ensures WellFormed(trace[k])
    ensures var op := PlannedJob(z, p, reorder, title)[k];
      Refused(trace[k], op) <==>
        (op.AddValue? && Clashes(z, p)) || (op.ReorderValues? && At(z, p) == 1 && !Satisfied(trace[k], op))
  {
    var ops := PlannedJob(z, p, reorder, title);
    EditComes(z, p, reorder, title, k);
    match ops[k]
    case Title(_, _, _) =>
    case AddValue(_, _) => AddAnswered(z, p, reorder, title, trace, k);
    case MoveVariants(_, _) => MoveAnswered(z, p, reorder, title, trace, k);
    case ReorderValues(_) => ReorderRefusedExactly(z, p, reorder, title, trace, k);
    case RestorePositions(_) =>
      RunFrame(z, p, reorder, title, trace, k);
      RestoreNotRefused(p, trace[k]);
  }

  lemma ReorderRefusedExactly(z: Sizes, p: Product, reorder: bool, title: Maybe<string>, trace: seq<Product>, k: nat)
    requires SizesOk(z) && WellFormed(p) && AllKnown(p) && Clear(z, p, reorder)
    requires IsRun(p, PlannedJob(z, p, reorder, title), trace) && k < |trace| && k < |PlannedJob(z, p, reorder, title)|
    requires PlannedJob(z, p, reorder, title)[k].ReorderValues?
    ensures WellFormed(trace[k]) && SameFrame(p, trace[k]) && Orders(z, p, reorder) && PlannedOrders(z, p) != []
    ensures PlannedJob(z, p, reorder, title)[k] == PlannedOrders(z, p)[0]
    ensures Refused(trace[k], PlannedOrders(z, p)[0]) <==> At(z, p) == 1 && !Satisfied(trace[k], PlannedOrders(z, p)[0])
  {
    ReorderComes(z, p, reorder, title, k);
    var b := MovesLead(z, p, title);
    GainedByThen(z, p, reorder, title, b);
    RunReads(z, p, reorder, title, trace, k, TitleOps(p, title) + PlannedMoves(z, p), b);
    RefusedUnlessOrdered(z, p, trace[k]);
  }

  lemma RunFrame(z: Sizes, p: Product, reorder: bool, title: Maybe<string>, trace: seq<Product>, k: nat)
    requires SizesOk(z) && WellFormed(p) && AllKnown(p) && Clear(z, p, reorder)
    requires IsRun(p, PlannedJob(z, p, reorder, title), trace) && k < |trace|
    ensures WellFormed(trace[k]) && SameFrame(p, trace[k])
  {
    PlannedIsJob(z, p, reorder, title);
    EveryPrefixIsAlike(p, PlannedJob(z, p, reorder, title), trace, k);
    PromisedFrame(p, PlannedJob(z, p, reorder, title)[..k]);
    AlikeFrame(p, Expected(p, PlannedJob(z, p, reorder, title)[..k]), trace[k]);
  }

  /** The state before the moves, title and added value included. */
  lemma AddsLead(z: Sizes, p: Product, title: Maybe<string>) returns (a: Product)
    requires SizesOk(z) && WellFormed(p) && Family(z, p)
    ensures Leads(p, TitleOps(p, title) + AddOps(z, p), a) && SameFrame(p, a) && SameChoices(p, a) && Gained(z, p, a)
  {
    var q := Titled(p, title);
    TitleLeads(p, title);
    TitledPlansSame(z, p, title);
    a := AddStep(z, q);
    LeadsConcat(p, TitleOps(p, title), q, AddOps(z, q), a);
  }

  // ---- When the reorder is skipped --------------------------------------------------------------------

  /** The order a plan asks of option `i`. */
  ghost function OrderAt(z: Sizes, p: Product, i: nat): seq<Name>
    requires SizesOk(z) && Family(z, p) && z.from in p.options[At(z, p)].values && i < 2
  {
    if i == At(z, p) then Target(z, p.options[i].values) else p.options[i].values
  }

  /** The positions alone bring the values of both options into the order asked for. */
  ghost predicate LandsInOrder(z: Sizes, p: Product)
    requires SizesOk(z) && Family(z, p) && Readable(p) && z.from in p.options[At(z, p)].values
  {
    LandsAt(z, p, 0) && LandsAt(z, p, 1)
  }

  ghost predicate LandsAt(z: Sizes, p: Product, i: nat)
    requires SizesOk(z) && Family(z, p) && Readable(p) && z.from in p.options[At(z, p)].values && i < 2
  {
    forall x, y :: Precede(OrderAt(z, p, i), x, y) ==> Comes(z, p, i, x, y)
  }

  ghost predicate Precede(s: seq<Name>, x: Name, y: Name) {
    x in s && y in s && Before(s, x, y)
  }

  /** Repeat-free lists of the same members are one list when they order them alike. */
  lemma {:induction false} SameOrderSameList(s: seq<Name>, t: seq<Name>)
    requires NoDup(s) && NoDup(t) && Elems(s) == Elems(t)
    requires forall x, y :: Precede(s, x, y) ==> Precede(t, x, y)
    ensures s == t
  {
    SameMembers(s, t);
    if s != [] {
      assert t[0] in Elems(s) && s[0] in Elems(t);
      assert Precede(s, s[0], t[0]) <==> s[0] != t[0];
      assert !Precede(t, s[0], t[0]);
      TailOrders(s);
      TailOrders(t);
      forall x, y | Precede(s[1..], x, y) ensures Precede(t[1..], x, y) {
        assert Precede(s, x, y) && Precede(t, x, y);
      }
      assert Elems(s[1..]) == Elems(t[1..]) by {
        assert forall v :: v in s[1..] <==> v in Elems(s) && v != s[0];
        assert forall v :: v in t[1..] <==> v in Elems(t) && v != t[0];
      }
      SameOrderSameList(s[1..], t[1..]);
    }
  }

  lemma TailOrders(s: seq<Name>)
    requires NoDup(s) && s != []
    ensures forall v :: v in s[1..] <==> v in s && v != s[0]
    ensures forall x, y :: Precede(s[1..], x, y) <==> Precede(s, x, y) && x != s[0]
  {
    assert s == [s[0]] + s[1..];
    assert forall k :: 0 < k < |s| ==> s[k] == s[1..][k - 1];
    forall x, y ensures Precede(s[1..], x, y) <==> Precede(s, x, y) && x != s[0] {
    }
  }

  /** `a` orders the values `p` has as `p` does. */
  ghost predicate KeepsOrders(p: Product, a: Product) {
    |a.options| == |p.options| && forall i, x, y :: 0 <= i < |p.options| && x in p.options[i].values && y in p.options[i].values ==>
      (Precede(a.options[i].values, x, y) <==> Precede(p.options[i].values, x, y))
  }

  /** The list has its values in the order the positions give them. */
  ghost predicate PairsCome(z: Sizes, p: Product, i: nat, values: seq<Name>)
    requires Family(z, p) && Readable(p) && i < 2
  {
    forall x, y :: x in values && y in values ==> (Precede(values, x, y) <==> Comes(z, p, i, x, y))
  }

  /** A list stands as asked exactly when it orders every two of its values so. */
  lemma StandsAsAsked(z: Sizes, p: Product, i: nat, values: seq<Name>)
    requires SizesOk(z) && Family(z, p) && Readable(p) && z.from in p.options[At(z, p)].values && i < 2
    requires NoDup(values) && NoDup(OrderAt(z, p, i)) && Elems(values) == Elems(OrderAt(z, p, i))
    requires PairsCome(z, p, i, values)
    ensures values == OrderAt(z, p, i) <==> LandsAt(z, p, i)
  {
    var order := OrderAt(z, p, i);
    assert forall x :: x in order <==> x in Elems(order);
    assert forall x :: x in values <==> x in Elems(values);
    if LandsAt(z, p, i) {
      forall x, y | Precede(order, x, y) ensures Precede(values, x, y) {
        assert Comes(z, p, i, x, y);
      }
      SameOrderSameList(order, values);
    }
  }

  lemma MovedPairsCome(z: Sizes, p: Product, a: Product, i: nat, values: seq<Name>)
    requires ReadyToMove(z, p, a) && Readable(p) && Gained(z, p, a) && KeepsOrders(p, a) && i < 2
    requires Held(z, p, At(z, p), z.to) && Elems(values) == Elems(a.options[i].values)
    requires Runs(a, MoveOp(z, p)) && |Simulate(a, MoveOp(z, p)).options| == 2
    requires values == Simulate(a, MoveOp(z, p)).options[i].values
    ensures PairsCome(z, p, i, values)
  {
    forall x, y | x in values && y in values ensures Precede(values, x, y) <==> Comes(z, p, i, x, y) {
      assert x in Elems(a.options[i].values) && y in Elems(a.options[i].values);
      MovedPairIs(z, p, a, i, x, y);
    }
  }

  lemma MovedListIs(z: Sizes, p: Product, a: Product, i: nat)
    requires ReadyToMove(z, p, a) && Readable(p) && Gained(z, p, a) && KeepsOrders(p, a) && i < 2
    requires z.from in p.options[At(z, p)].values && Held(z, p, At(z, p), z.to)
    ensures Runs(a, MoveOp(z, p)) && |Simulate(a, MoveOp(z, p)).options| == 2
    ensures Simulate(a, MoveOp(z, p)).options[i].values == OrderAt(z, p, i) <==> LandsAt(z, p, i)
  {
    MovedList(z, p, a, i);
    var values := Simulate(a, MoveOp(z, p)).options[i].values;
    MovedPairsCome(z, p, a, i, values);
    StandsAsAsked(z, p, i, values);
  }

  /** A value nobody holds after the moves is one the option had. */
  lemma UnheldIsOld(z: Sizes, p: Product, a: Product, i: nat, x: Name)
    requires Family(z, p) && Readable(p) && Gained(z, p, a) && i < 2 && Held(z, p, At(z, p), z.to)
    requires x in a.options[i].values && !Held(z, p, i, x)
    ensures x in p.options[i].values
  {
    assert x in Elems(a.options[i].values);
    assert x in Elems(p.options[i].values);
  }

  lemma OldPairIs(z: Sizes, p: Product, a: Product, i: nat, x: Name, y: Name)
    requires Family(z, p) && Readable(p) && Gained(z, p, a) && KeepsOrders(p, a) && i < 2 && Held(z, p, At(z, p), z.to)
    requires x in a.options[i].values && y in a.options[i].values && !Held(z, p, i, x) && !Held(z, p, i, y)
    ensures x in p.options[i].values && y in p.options[i].values
    ensures Before(a.options[i].values, x, y) <==> Before(p.options[i].values, x, y)
  {
    UnheldIsOld(z, p, a, i, x);
    UnheldIsOld(z, p, a, i, y);
    assert Precede(a.options[i].values, x, y) <==> Precede(p.options[i].values, x, y);
  }

  lemma MovedPairIs(z: Sizes, p: Product, a: Product, i: nat, x: Name, y: Name)
    requires ReadyToMove(z, p, a) && Readable(p) && Gained(z, p, a) && KeepsOrders(p, a) && i < 2
    requires Held(z, p, At(z, p), z.to) && x in a.options[i].values && y in a.options[i].values
    ensures Runs(a, MoveOp(z, p)) && |Simulate(a, MoveOp(z, p)).options| == 2
    ensures Precede(Simulate(a, MoveOp(z, p)).options[i].values, x, y) <==> Comes(z, p, i, x, y)
  {
    if !Held(z, p, i, x) && !Held(z, p, i, y) {
      OldPairIs(z, p, a, i, x, y);
    }
    MovedByPositions(z, p, a, i, x, y);
  }

  lemma MovedList(z: Sizes, p: Product, a: Product, i: nat)
    requires ReadyToMove(z, p, a) && Gained(z, p, a) && i < 2 && z.from in p.options[At(z, p)].values
    ensures Runs(a, MoveOp(z, p)) && |Simulate(a, MoveOp(z, p)).options| == 2
    ensures NoDup(Simulate(a, MoveOp(z, p)).options[i].values) && NoDup(OrderAt(z, p, i))
    ensures Elems(Simulate(a, MoveOp(z, p)).options[i].values) == Elems(a.options[i].values) == Elems(OrderAt(z, p, i))
  {
    MovedWrite(z, p, a);
    MoveFitsAll(z, p, a);
    EditKeepsForm(a, MoveOp(z, p));
    ReflowPermutes(Write(a, MoveOp(z, p)), i);
    assert OptionOk(p.options[i]);
    NormDistinctNoDup(p.options[i].values);
    TargetMembers(z, p.options[At(z, p)].values) by {
      assert OptionOk(p.options[At(z, p)]);
      NormDistinctNoDup(p.options[At(z, p)].values);
    }
  }

  lemma SatisfiedMeans(z: Sizes, p: Product, b: Product)
    requires SizesOk(z) && Family(z, p) && OptionsOk(p.options) && Positioned(p.variants) && Positioned(b.variants)
    requires SameFrame(p, b) && z.from in p.options[At(z, p)].values && PlannedOrders(z, p) != []
    ensures Satisfied(b, PlannedOrders(z, p)[0]) <==>
      b.options[0].values == OrderAt(z, p, 0) && b.options[1].values == OrderAt(z, p, 1)
  {
    var i, orders := At(z, p), PlannedOrders(z, p)[0].orders;
    assert b.options[i].id == p.options[i].id && b.options[1 - i].id == p.options[1 - i].id;
    SatisfiedByTwo(b, i, orders[0], orders[1]);
    assert orders == [orders[0], orders[1]];
  }

  lemma SatisfiedByTwo(b: Product, i: nat, w: ValueOrder, u: ValueOrder)
    requires |b.options| == 2 && i < 2 && b.options[0].id != b.options[1].id && Positioned(b.variants)
    requires w.id == b.options[i].id && u.id == b.options[1 - i].id
    ensures Satisfied(b, ReorderValues([w, u])) <==> b.options[i].values == w.values && b.options[1 - i].values == u.values
  {
    assert HasOption(b, w.id) && IndexOf(b.options, w.id) == i;
    assert HasOption(b, u.id) && IndexOf(b.options, u.id) == 1 - i;
    assert [w, u][0] == w && [w, u][1] == u;
  }

  /** When the reorder is skipped. On the re-flowed state after the moves the planned
      reorder finds itself satisfied exactly when the positions of the variants bring both
      options into the order it asks for. */
  lemma MovedIsOrdered(z: Sizes, p: Product, a: Product)
    requires ReadyToMove(z, p, a) && Readable(p) && Gained(z, p, a) && KeepsOrders(p, a) && ToMove(z, p) != {}
    requires z.from in p.options[At(z, p)].values && PlannedOrders(z, p) != []
    ensures Runs(a, MoveOp(z, p)) && Positioned(Simulate(a, MoveOp(z, p)).variants)
    ensures Satisfied(Simulate(a, MoveOp(z, p)), PlannedOrders(z, p)[0]) <==> LandsInOrder(z, p)
  {
    var op := MoveOp(z, p);
    ToIsHeld(z, p);
    MovedListIs(z, p, a, 0);
    MovedListIs(z, p, a, 1);
    MovedFrame(z, p, a);
    BothLand(z, p, Simulate(a, op));
  }

  lemma MovedFrame(z: Sizes, p: Product, a: Product)
    requires ReadyToMove(z, p, a)
    ensures Runs(a, MoveOp(z, p)) && WellFormed(Simulate(a, MoveOp(z, p))) && SameFrame(p, Simulate(a, MoveOp(z, p)))
  {
    MoveFitsAll(z, p, a);
    EditKeepsForm(a, MoveOp(z, p));
    FrameKept(a, MoveOp(z, p));
  }

  lemma BothLand(z: Sizes, p: Product, b: Product)
    requires SizesOk(z) && Family(z, p) && OptionsOk(p.options) && Readable(p) && Positioned(b.variants)
    requires SameFrame(p, b) && z.from in p.options[At(z, p)].values && PlannedOrders(z, p) != []
    requires b.options[0].values == OrderAt(z, p, 0) <==> LandsAt(z, p, 0)
    requires b.options[1].values == OrderAt(z, p, 1) <==> LandsAt(z, p, 1)
    ensures Satisfied(b, PlannedOrders(z, p)[0]) <==> LandsInOrder(z, p)
  {
    SatisfiedMeans(z, p, b);
  }

  // ---- The two answers the store may give to the moves -------------------------------------------------

  /** Nothing is free after a title edit: the store is at what it promises. */
  lemma TitleSettles(p: Product, title: string, follows: bool, next: Product)
    requires WellFormed(p) && AllKnown(p) && StoreStep(p, Title(p.title, title, p.handle), follows, next)
    ensures next == p.(title := title)
  {
    var op := Title(p.title, title, p.handle);
    EditKeepsForm(p, op);
    RetitleSame(p.(title := title));
    StrictMatch(p.(title := title), next);
    KnownSameUpToMint(p.(title := title), next);
  }

  lemma AfterTitle(z: Sizes, p: Product, reorder: bool, title: Maybe<string>, trace: seq<Product>)
    requires SizesOk(z) && WellFormed(p) && AllKnown(p) && Clear(z, p, reorder)
    requires IsRun(p, PlannedJob(z, p, reorder, title), trace) && |TitleOps(p, title)| < |trace|
    ensures trace[|TitleOps(p, title)|] == Titled(p, title)
  {
    if title.Some? {
      assert PlannedJob(z, p, reorder, title)[0] == TitleOps(p, title)[0];
      TitleSettles(p, title.value, RestoreFollows(PlannedJob(z, p, reorder, title), 0), trace[1]);
    }
  }

  lemma AddAnswer(p: Product, i: nat, name: Name, follows: bool, next: Product)
    requires WellFormed(p) && i < |p.options| && StoreStep(p, AddValue(p.options[i].id, name), follows, next)
    ensures Fits(p, AddValue(p.options[i].id, name)) && Runs(p, AddValue(p.options[i].id, name)) && WellFormed(next)
    ensures var e := Simulate(p, AddValue(p.options[i].id, name));
      Alike(e, next) && OrdersAgree(e, next, {(p.options[i].id, name)}) && PositionsAgree(e, next)
  {
    var op := AddValue(p.options[i].id, name);
    EditKeepsForm(p, op);
    FlagsAreExpected(p, op);
    MatchesExactly(Simulate(p, op), next, {(p.options[i].id, name)}, false);
  }

  /** `e` is `p` with one value more at the end of option `i`. */
  ghost predicate AddedTo(p: Product, i: nat, name: Name, e: Product) {
    && SameFrame(p, e) && SameChoices(p, e) && SamePositions(p, e)
    && forall j :: 0 <= j < |p.options| ==> e.options[j].values == if j == i then p.options[j].values + [name] else p.options[j].values
  }

  lemma AddPromise(p: Product, i: nat, name: Name)
    requires WellFormed(p) && i < |p.options| && Fits(p, AddValue(p.options[i].id, name))
    ensures Runs(p, AddValue(p.options[i].id, name)) && AddedTo(p, i, name, Simulate(p, AddValue(p.options[i].id, name)))
  {
    var op := AddValue(p.options[i].id, name);
    EditKeepsForm(p, op);
    IndexOfDistinct(p.options, i);
    FrameKept(p, op);
    ChoicesKept(p, op);
  }

  lemma AddedFrame(p: Product, i: nat, name: Name, e: Product, next: Product)
    requires AddedTo(p, i, name, e) && Alike(e, next) && PositionsAgree(e, next)
    ensures SameFrame(p, next) && SameChoices(p, next) && SamePositions(p, next)
    ensures forall j :: 0 <= j < |p.options| ==>
      Elems(next.options[j].values) == if j == i then Elems(p.options[j].values) + {name} else Elems(p.options[j].values)
  {
    AlikeFrame(p, e, next);
    forall j | 0 <= j < |p.options| ensures Elems(p.options[j].values + [name]) == Elems(p.options[j].values) + {name} {
    }
  }

  /** An added value may land anywhere among the others, which keep their order. */
  lemma AddedOrders(p: Product, i: nat, name: Name, e: Product, next: Product)
    requires i < |p.options| == |next.options| && AddedTo(p, i, name, e) && OrdersAgree(e, next, {(p.options[i].id, name)})
    requires forall v :: v in p.options[i].values ==> v != name
    requires forall k :: 0 <= k < |p.options| ==> Elems(p.options[k].values) <= Elems(next.options[k].values)
    requires forall k, l :: 0 <= k < l < |p.options| ==> p.options[k].id != p.options[l].id
    ensures KeepsOrders(p, next)
  {
    forall j, x, y | 0 <= j < |p.options| && x in p.options[j].values && y in p.options[j].values
      ensures Precede(next.options[j].values, x, y) <==> Precede(p.options[j].values, x, y)
    {
      AddKeepsOrder(p, i, name, next, j, x, y);
    }
  }

  ghost predicate SettlesAdded(p: Product, i: nat, name: Name, next: Product) {
    && SameFrame(p, next) && SameChoices(p, next) && SamePositions(p, next) && KeepsOrders(p, next)
    && forall j :: 0 <= j < |p.options| ==>
      Elems(next.options[j].values) == if j == i then Elems(p.options[j].values) + {name} else Elems(p.options[j].values)
  }

  lemma AddedSettles(p: Product, i: nat, name: Name, e: Product, next: Product)
    requires i < |p.options| && AddedTo(p, i, name, e) && Alike(e, next) && PositionsAgree(e, next)
    requires OrdersAgree(e, next, {(p.options[i].id, name)})
    requires forall v :: v in p.options[i].values ==> v != name
    requires forall k, l :: 0 <= k < l < |p.options| ==> p.options[k].id != p.options[l].id
    ensures SettlesAdded(p, i, name, next)
  {
    AddedFrame(p, i, name, e, next);
    AddedOrders(p, i, name, e, next);
  }

  lemma AddSettles(p: Product, i: nat, name: Name, follows: bool, next: Product)
    requires WellFormed(p) && i < |p.options| && StoreStep(p, AddValue(p.options[i].id, name), follows, next)
    ensures WellFormed(next) && SettlesAdded(p, i, name, next)
  {
    AddAnswer(p, i, name, follows, next);
    AddPromise(p, i, name);
    IndexOfDistinct(p.options, i);
    AddedSettles(p, i, name, Simulate(p, AddValue(p.options[i].id, name)), next);
  }

  lemma AddKeepsOrder(p: Product, i: nat, name: Name, next: Product, j: nat, x: Name, y: Name)
    requires i < |p.options| == |next.options| && j < |p.options| && x in p.options[j].values && y in p.options[j].values
    requires forall v :: v in p.options[i].values ==> v != name
    requires forall k :: 0 <= k < |p.options| ==> Elems(p.options[k].values) <= Elems(next.options[k].values)
    requires forall k, l :: 0 <= k < l < |p.options| ==> p.options[k].id != p.options[l].id
    requires var values := if j == i then p.options[j].values + [name] else p.options[j].values;
      var ban := FreeOf({(p.options[i].id, name)}, p.options[j].id);
      Outside(values, ban) == Outside(next.options[j].values, ban)
    ensures Precede(next.options[j].values, x, y) <==> Precede(p.options[j].values, x, y)
  {
    var ban := FreeOf({(p.options[i].id, name)}, p.options[j].id);
    assert ban == if j == i then {name} else {};
    assert x in Elems(next.options[j].values) && y in Elems(next.options[j].values);
    OutsideOrder(next.options[j].values, ban, x, y);
    if j == i {
      OutsideOrder(p.options[j].values + [name], ban, x, y);
      FirstInFront(p.options[j].values, [name], x);
      FirstInFront(p.options[j].values, [name], y);
    } else {
      OutsideOrder(p.options[j].values, ban, x, y);
    }
  }

  lemma TitledIsReady(z: Sizes, p: Product, title: Maybe<string>)
    requires SizesOk(z) && WellFormed(p) && Family(z, p) && Done(z, p) == {} && z.to in p.options[At(z, p)].values
    ensures ReadyToMove(z, p, Titled(p, title)) && Gained(z, p, Titled(p, title)) && KeepsOrders(p, Titled(p, title))
  {
    TitleLeads(p, title);
  }

  lemma AddedIsReady(z: Sizes, p: Product, title: Maybe<string>, follows: bool, next: Product)
    requires SizesOk(z) && WellFormed(p) && Family(z, p) && Done(z, p) == {}
    requires StoreStep(Titled(p, title), AddValue(p.options[At(z, p)].id, z.to), follows, next)
    ensures ReadyToMove(z, p, next) && Gained(z, p, next) && KeepsOrders(p, next)
  {
    var q, i := Titled(p, title), At(z, p);
    TitleLeads(p, title);
    AddSettles(q, i, z.to, follows, next);
    assert z.to in Elems(next.options[i].values);
  }

  lemma MovesAt(z: Sizes, p: Product, reorder: bool, title: Maybe<string>, k: nat)
    requires SizesOk(z) && Positioned(p.variants) && Clear(z, p, reorder) && k < |PlannedJob(z, p, reorder, title)|
    requires PlannedJob(z, p, reorder, title)[k].MoveVariants?
    ensures PlannedJob(z, p, reorder, title)[k] == MoveOp(z, p) && ToMove(z, p) != {}
    ensures z.to in p.options[At(z, p)].values ==> k == |TitleOps(p, title)|
    ensures z.to !in p.options[At(z, p)].values ==>
      k == |TitleOps(p, title)| + 1
      && PlannedJob(z, p, reorder, title)[k - 1] == AddValue(p.options[At(z, p)].id, z.to)
  {
    EditComes(z, p, reorder, title, k);
    var ops, m := PlannedJob(z, p, reorder, title), |TitleOps(p, title)|;
    assert |ops[..k]| == k;
    if z.to !in p.options[At(z, p)].values {
      assert ops[..k][m] == AddOps(z, p)[0];
    }
  }

  ghost predicate AboutToMove(z: Sizes, p: Product, q: Product) {
    ReadyToMove(z, p, q) && Gained(z, p, q) && KeepsOrders(p, q) && ToMove(z, p) != {}
  }

  /** Before the moves the store is where the plan was made, but for the title and the
      value added, wherever that landed. */
  lemma BeforeMoves(z: Sizes, p: Product, reorder: bool, title: Maybe<string>, trace: seq<Product>, k: nat)
    requires SizesOk(z) && WellFormed(p) && AllKnown(p) && Clear(z, p, reorder)
    requires IsRun(p, PlannedJob(z, p, reorder, title), trace) && k < |trace| && k < |PlannedJob(z, p, reorder, title)|
    requires PlannedJob(z, p, reorder, title)[k].MoveVariants?
    ensures PlannedJob(z, p, reorder, title)[k] == MoveOp(z, p) && AboutToMove(z, p, trace[k])
    ensures z.to in p.options[At(z, p)].values ==> trace[k] == Titled(p, title)
  {
    MovesAt(z, p, reorder, title, k);
    AfterTitle(z, p, reorder, title, trace);
    if z.to in p.options[At(z, p)].values {
      TitledIsReady(z, p, title);
    } else {
      AddedIsReady(z, p, title, RestoreFollows(PlannedJob(z, p, reorder, title), k - 1), trace[k]);
    }
  }

  lemma MovedGained(z: Sizes, p: Product, q: Product)
    requires ReadyToMove(z, p, q) && Gained(z, p, q) && z.from in p.options[At(z, p)].values
    ensures Runs(q, MoveOp(z, p)) && Gained(z, p, Simulate(q, MoveOp(z, p)))
  {
    MovedList(z, p, q, 0);
    MovedList(z, p, q, 1);
  }
}
