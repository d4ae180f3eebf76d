/** The planned edits as jobs of the apply script: what they promise, and that whatever they
    leave behind rolls back. */
module PlannerJobs {
  import opened Lists
  import opened Catalogue
  import opened Edits
  import opened KeepsForm
  import opened Compare
  import opened Executor
  import opened ReflowOrder
  import opened RollbackPlanner
  import opened RollbackPlan
  import opened RollbackReaches
  import opened RollbackInverts
  import opened Planner
  import opened PlannerFixpoint

  // ---- The planned job ------------------------------------------------------------------------------

  ghost function TitleOps(p: Product, title: Maybe<string>): seq<Op> {
    match title
    case None => []
    case Some(to) => [Title(p.title, to, p.handle)]
  }

  ghost function Titled(p: Product, title: Maybe<string>): Product {
    match title
    case None => p
    case Some(to) => p.(title := to)
  }

  /** The planned edits, after a title edit or none. */
  ghost function PlannedJob(z: Sizes, p: Product, reorder: bool, title: Maybe<string>): seq<Op>
    requires SizesOk(z) && Positioned(p.variants) && Clear(z, p, reorder)
  {
    TitleOps(p, title) + PlannedMoves(z, p) + OrdersPlanned(z, p, reorder)
  }

  ghost function OrdersPlanned(z: Sizes, p: Product, reorder: bool): seq<Op>
    requires SizesOk(z) && Positioned(p.variants) && Clear(z, p, reorder)
  {
    if Orders(z, p, reorder) then PlannedOrders(z, p) else []
  }

  /** One edit of the plan, by kind and option. */
  ghost predicate PlanEdit(z: Sizes, p: Product, op: Op)
    requires Family(z, p)
  {
    match op
    case AddValue(id, _) => id == p.options[At(z, p)].id
    case MoveVariants(id, moves) => id == p.options[At(z, p)].id && OneTarget(moves) && Guarded(op)
    case ReorderValues(orders) =>
      |orders| == 2 == |p.options| && orders[0].id == p.options[At(z, p)].id && orders[1].id == p.options[1 - At(z, p)].id
    case RestorePositions(_) => true
    case _ => false
  }

  lemma PlanEdits(z: Sizes, p: Product)
    requires SizesOk(z) && Family(z, p) && Positioned(p.variants)
    ensures forall op :: op in PlannedMoves(z, p) ==> PlanEdit(z, p, op) && (op.AddValue? || op.MoveVariants?)
    ensures z.from in p.options[At(z, p)].values ==>
      forall op :: op in PlannedOrders(z, p) ==> PlanEdit(z, p, op) && (op.ReorderValues? || op.RestorePositions?)
    ensures |PlannedMoves(z, p)| == 2 ==> PlannedMoves(z, p)[0].AddValue? && PlannedMoves(z, p)[1].MoveVariants?
    ensures |PlannedMoves(z, p)| <= 2
  {
    OrderNoDup(p.variants);
    MovesInDistinct(z, VariantOrder(p.variants), ToMove(z, p));
  }

  lemma PlanIsJob(z: Sizes, p: Product, title: Maybe<string>, first: seq<Op>, last: seq<Op>)
    requires Family(z, p)
    requires forall op :: op in first ==> PlanEdit(z, p, op) && (op.AddValue? || op.MoveVariants?)
    requires forall op :: op in last ==> PlanEdit(z, p, op) && (op.ReorderValues? || op.RestorePositions?)
    requires |first| == 2 ==> first[0].AddValue? && first[1].MoveVariants?
    requires |first| <= 2
    ensures ForwardJob(TitleOps(p, title) + first + last)
  {
    var ops := TitleOps(p, title) + first + last;
    var n, m := |TitleOps(p, title)|, |first|;
    forall i | 0 <= i < |ops|
      ensures i < n ==> ops[i].Title?
      ensures n <= i < n + m ==> ops[i] == first[i - n] && PlanEdit(z, p, ops[i]) && (ops[i].AddValue? || ops[i].MoveVariants?)
      ensures n + m <= i ==> PlanEdit(z, p, ops[i]) && (ops[i].ReorderValues? || ops[i].RestorePositions?)
    {
      if n <= i < n + m {
        assert ops[i] == first[i - n] && first[i - n] in first;
      } else if n + m <= i {
        assert ops[i] == last[i - n - m] && last[i - n - m] in last;
      }
    }
  }

  lemma PlannedIsJob(z: Sizes, p: Product, reorder: bool, title: Maybe<string>)
    requires SizesOk(z) && Positioned(p.variants) && Clear(z, p, reorder)
    ensures ForwardJob(PlannedJob(z, p, reorder, title))
  {
    PlanEdits(z, p);
    PlanIsJob(z, p, title, PlannedMoves(z, p), OrdersPlanned(z, p, reorder));
  }

  // ---- What it promises ----------------------------------------------------------------------------

  lemma TitleLeads(p: Product, title: Maybe<string>)
    requires WellFormed(p)
    ensures Leads(p, TitleOps(p, title), Titled(p, title)) && WellFormed(Titled(p, title))
  {
    if title.None? {
      LeadsNowhere(p);
    } else {
      var op := Title(p.title, title.value, p.handle);
      EditKeepsForm(p, op);
      RetitleSame(Titled(p, title));
      LeadsOne(p, op);
    }
  }

  lemma TitledPlansSame(z: Sizes, p: Product, title: Maybe<string>)
    requires SizesOk(z) && Family(z, p) && Positioned(p.variants)
    ensures Family(z, Titled(p, title)) && At(z, Titled(p, title)) == At(z, p)
    ensures PlannedMoves(z, Titled(p, title)) == PlannedMoves(z, p) && ToMove(z, Titled(p, title)) == ToMove(z, p)
    ensures z.from in p.options[At(z, p)].values ==> PlannedOrders(z, Titled(p, title)) == PlannedOrders(z, p)
  {
  }

  /** The state the moves promise, title included. */
  lemma MovesLead(z: Sizes, p: Product, title: Maybe<string>) returns (b: Product)
    requires SizesOk(z) && WellFormed(p) && Family(z, p)
    ensures Leads(p, TitleOps(p, title) + PlannedMoves(z, p), b) && Passage(p, b)
    ensures ToMove(z, p) == {} ==> b == Titled(p, title)
    ensures ToMove(z, p) != {} ==> Gained(z, p, b)
  {
    var q := Titled(p, title);
    TitleLeads(p, title);
    TitledPlansSame(z, p, title);
    b := PlannedMovesRun(z, q);
    LeadsConcat(p, TitleOps(p, title), q, PlannedMoves(z, q), b);
  }

  lemma OrdersLead(z: Sizes, p: Product, reorder: bool, title: Maybe<string>, b: Product) returns (d: Product)
    requires SizesOk(z) && WellFormed(p) && Clear(z, p, reorder) && Passage(p, b)
    ensures Leads(b, OrdersPlanned(z, p, reorder), d)
  {
    if OrdersPlanned(z, p, reorder) == [] {
      d := b;
      LeadsNowhere(b);
    } else {
      d := PlannedOrdersRun(z, p, b);
    }
  }

  /** The reorder comes right after the moves. */
  lemma ReorderComes(z: Sizes, p: Product, reorder: bool, title: Maybe<string>, k: nat)
    requires SizesOk(z) && Positioned(p.variants) && Clear(z, p, reorder)
    requires k < |PlannedJob(z, p, reorder, title)| && PlannedJob(z, p, reorder, title)[k].ReorderValues?
    ensures Orders(z, p, reorder) && PlannedOrders(z, p) != [] && PlannedJob(z, p, reorder, title)[k] == PlannedOrders(z, p)[0]
    ensures PlannedJob(z, p, reorder, title)[..k] == TitleOps(p, title) + PlannedMoves(z, p)
  {
    PlanEdits(z, p);
    var ops, first := PlannedJob(z, p, reorder, title), TitleOps(p, title) + PlannedMoves(z, p);
    forall j | 0 <= j < |first| ensures !ops[j].ReorderValues? {
      assert ops[j] == first[j] && (first[j] in TitleOps(p, title) || first[j] in PlannedMoves(z, p));
    }
    assert ops[k] == OrdersPlanned(z, p, reorder)[k - |first|];
    assert k == |first|;
    assert ops[..k] == first;
  }

  /** The order of one option leaves out none of its values. */
  ghost predicate ListsValues(b: Product, w: ValueOrder) {
    HasOption(b, w.id) ==> forall v :: v in b.options[IndexOf(b.options, w.id)].values ==> v in w.values
  }

  lemma ListsAll(b: Product, j: nat, w: ValueOrder)
    requires j < |b.options| && b.options[j].id == w.id && Elems(b.options[j].values) <= Elems(w.values)
    requires forall i, k :: 0 <= i < k < |b.options| ==> b.options[i].id != b.options[k].id
    ensures ListsValues(b, w)
  {
    IndexOfDistinct(b.options, j);
    assert forall v :: v in b.options[j].values ==> v in Elems(w.values);
  }

  lemma TwoListsAll(b: Product, i: nat, w: ValueOrder, u: ValueOrder)
    requires |b.options| == 2 && i < 2 && b.options[0].id != b.options[1].id
    requires b.options[i].id == w.id && Elems(b.options[i].values) <= Elems(w.values)
    requires b.options[1 - i].id == u.id && Elems(b.options[1 - i].values) <= Elems(u.values)
    ensures KeepsValues(b, ReorderValues([w, u]))
  {
    ListsAll(b, i, w);
    ListsAll(b, 1 - i, u);
    forall x | x in [w, u] ensures ListsValues(b, x) {
      assert x == w || x == u;
    }
  }

  lemma OrdersKeepValues(z: Sizes, p: Product, b: Product)
    requires SizesOk(z) && Family(z, p) && OptionsOk(p.options) && Positioned(p.variants)
    requires z.from in p.options[At(z, p)].values && PlannedOrders(z, p) != []
    requires SameFrame(p, b) && Gained(z, p, b)
    ensures KeepsValues(b, PlannedOrders(z, p)[0])
  {
    var i, o, h := At(z, p), p.options[At(z, p)], p.options[1 - At(z, p)];
    assert OptionOk(o);
    NormDistinctNoDup(o.values);
    TargetMembers(z, o.values);
    assert b.options[0].id == p.options[0].id && b.options[1].id == p.options[1].id;
    TwoListsAll(b, i, ValueOrder(o.id, z.diameter, Target(z, o.values)), ValueOrder(h.id, z.height, h.values));
  }

  /** Where the orders are planned, the option has `to` or is about to. */
  lemma GainedByThen(z: Sizes, p: Product, reorder: bool, title: Maybe<string>, b: Product)
    requires SizesOk(z) && WellFormed(p) && Clear(z, p, reorder) && Orders(z, p, reorder)
    requires ToMove(z, p) == {} ==> b == Titled(p, title)
    requires ToMove(z, p) != {} ==> Gained(z, p, b)
    ensures Gained(z, p, b)
  {
    if ToMove(z, p) == {} {
      var u :| u in Done(z, p);
      assert ChoiceOk(p.options, p.variants[u].choice);
      assert z.to in p.options[At(z, p)].values;
    }
  }

  /** The planned edits can be simulated one after the other and drop no value. */
  lemma PlannedIsPromised(z: Sizes, p: Product, reorder: bool, title: Maybe<string>)
    requires SizesOk(z) && WellFormed(p) && Clear(z, p, reorder)
    ensures Promised(p, PlannedJob(z, p, reorder, title))
  {
    var ops, first := PlannedJob(z, p, reorder, title), TitleOps(p, title) + PlannedMoves(z, p);
    var b := MovesLead(z, p, title);
    var d := OrdersLead(z, p, reorder, title, b);
    LeadsConcat(p, first, b, OrdersPlanned(z, p, reorder), d);
    LeadsIsExpected(p, ops, d);
    LeadsIsExpected(p, first, b);
    forall k | 0 <= k < |ops| ensures RunsAll(p, ops[..k]) && KeepsValues(Expected(p, ops[..k]), ops[k]) {
      RunsAllPrefix(p, ops, k);
      if ops[k].ReorderValues? {
        ReorderComes(z, p, reorder, title, k);
        GainedByThen(z, p, reorder, title, b);
        OrdersKeepValues(z, p, b);
      }
    }
  }

  /** Whatever a run of the planned edits leaves behind, refused or stopped wherever it
      was, the rollback planned from there takes the product back. */
  lemma PlannedRunRollsBack(z: Sizes, p: Product, reorder: bool, title: Maybe<string>,
                            trace: seq<Product>, k: nat, live: Product, listing: seq<Id>)
    requires SizesOk(z) && WellFormed(p) && AllKnown(p) && Clear(z, p, reorder)
    requires IsRun(p, PlannedJob(z, p, reorder, title), trace) && k < |trace|
    requires Repriced(trace[k], live) && NoDup(listing) && forall id :: id in listing <==> id in p.variants
    ensures var ops := PlannedJob(z, p, reorder, title);
      RunsAll(p, ops) && NoProblem(p, Expected(p, ops), live, listing)
      && Goes(live, RollbackOps(p, Expected(p, ops), live, listing), WithPrices(p, live))
  {
    PlannedIsPromised(z, p, reorder, title);
    PlannedIsJob(z, p, reorder, title);
    RollbackInvertsEveryPrefix(p, PlannedJob(z, p, reorder, title), trace, k, live, listing);
  }

  lemma PlanIsPlannedJob(z: Sizes, p: Product, refs: map<Id, Maybe<Ref>>, reorder: bool)
    requires SizesOk(z) && Positioned(p.variants) && PlanDiameter(z, p, refs, reorder).Planned?
    ensures Clear(z, p, reorder) && PlanDiameter(z, p, refs, reorder).ops == PlannedJob(z, p, reorder, None)
  {
    assert PlannedJob(z, p, reorder, None) == PlannedMoves(z, p) + OrdersPlanned(z, p, reorder);
  }

  lemma TargetMembers(z: Sizes, values: seq<Name>)
    requires SizesOk(z) && z.from in values && NoDup(values)
    ensures NoDup(Target(z, values)) && Elems(Target(z, values)) == Elems(values) + {z.to}
  {
    var current := Outside(values, {z.to});
    OutsideNoDup(values, {z.to});
    var i := First(current, z.from) + 1;
    var t := Target(z, values);
    assert current == current[..i] + current[i..];
    forall v ensures v in t <==> v in values || v == z.to {
      assert v in t <==> v in current[..i] || v == z.to || v in current[i..];
      assert v in current <==> v in current[..i] || v in current[i..];
    }
    forall j, k | 0 <= j < k < |t| ensures t[j] != t[k] {
      assert z.to !in current;
      assert j != i ==> t[j] == current[if j < i then j else j - 1];
      assert k != i ==> t[k] == current[if k < i then k else k - 1];
    }
  }

  lemma SameValues(b: ProductOption, values: seq<Name>)
    requires OptionOk(b) && NoDup(values) && Elems(values) == Elems(b.values)
    ensures multiset(values) == multiset(b.values)
  {
    NormDistinctNoDup(b.values);
    SameMembers(values, b.values);
  }
}
