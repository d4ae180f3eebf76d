/** Runs of the apply script against a store that may answer in any way the script
    accepts: what every prefix leaves, and where every completed run ends. */
module Executor {
  import opened Lists
  import opened Catalogue
  import opened Edits
  import opened KeepsForm
  import opened Compare
  import opened Congruence

  // ---- Folding edits ----------------------------------------------------------------------

  ghost predicate RunsAll(p: Product, ops: seq<Op>)
    decreases |ops|, 0
  {
    ops == [] || (RunsAll(p, ops[..|ops| - 1]) && Runs(Expected(p, ops[..|ops| - 1]), ops[|ops| - 1]))
  }

  /** The end state a list of edits promises. */
  ghost function Expected(p: Product, ops: seq<Op>): Product
    requires RunsAll(p, ops)
    decreases |ops|, 1
  {
    if ops == [] then p else Simulate(Expected(p, ops[..|ops| - 1]), ops[|ops| - 1])
  }

  lemma ExpectedStep(p: Product, ops: seq<Op>, k: nat)
    requires k < |ops| && RunsAll(p, ops[..k])
    ensures RunsAll(p, ops[..k + 1]) <==> Runs(Expected(p, ops[..k]), ops[k])
    ensures RunsAll(p, ops[..k + 1]) ==> Expected(p, ops[..k + 1]) == Simulate(Expected(p, ops[..k]), ops[k])
  {
    assert ops[..k + 1][..k] == ops[..k];
  }

  lemma {:induction false} RunsAllPrefix(p: Product, ops: seq<Op>, k: nat)
    requires RunsAll(p, ops) && k <= |ops|
    ensures RunsAll(p, ops[..k])
    decreases |ops|
  {
    if k == |ops| {
      assert ops[..k] == ops;
    } else {
      RunsAllPrefix(p, ops[..|ops| - 1], k);
      assert ops[..|ops| - 1][..k] == ops[..k];
    }
  }

  /** The edits run one after the other from `p` and end at `q`. */
  ghost predicate Leads(p: Product, ops: seq<Op>, q: Product) {
    Gets(LeadsOn, p, ops, q)
  }

  ghost predicate LeadsOn(a: Product, op: Op, b: Product) {
    Runs(a, op) && Simulate(a, op) == b
  }

  lemma LeadsNowhere(p: Product)
    ensures Leads(p, [], p)
  {
    GetsNowhere(LeadsOn, p);
  }

  lemma LeadsOne(p: Product, op: Op)
    requires Runs(p, op)
    ensures Leads(p, [op], Simulate(p, op))
  {
    GetsOne(LeadsOn, p, op, Simulate(p, op));
  }

  lemma LeadsConcat(p: Product, a: seq<Op>, q: Product, b: seq<Op>, z: Product)
    requires Leads(p, a, q) && Leads(q, b, z)
    ensures Leads(p, a + b, z)
  {
    GetsOn(LeadsOn, p, a, q, b, z);
  }

  lemma {:induction false} ThroughIsExpected(states: seq<Product>, ops: seq<Op>, k: nat)
    requires Walk(LeadsOn, states, ops) && k <= |ops|
    ensures RunsAll(states[0], ops[..k]) && Expected(states[0], ops[..k]) == states[k]
  {
    if k == 0 {
      assert ops[..0] == [];
    } else {
      ThroughIsExpected(states, ops, k - 1);
      assert LeadsOn(states[k - 1], ops[k - 1], states[k]);
      ExpectedStep(states[0], ops, k - 1);
    }
  }

  lemma LeadsIsExpected(p: Product, ops: seq<Op>, q: Product)
    requires Leads(p, ops, q)
    ensures RunsAll(p, ops) && Expected(p, ops) == q
  {
    var states :| Ends(LeadsOn, states, ops, p, q);
    ThroughIsExpected(states, ops, |ops|);
    assert ops[..|ops|] == ops;
  }

  // ---- One step against the store ------------------------------------------------------------

  predicate Conditional(op: Op) {
    op.ReorderValues? || op.RestorePositions?
  }

  /** The state already is what a conditional edit would make it. */
  ghost predicate Satisfied(p: Product, op: Op)
    requires Positioned(p.variants)
  {
    match op
    case ReorderValues(orders) =>
      forall w :: w in orders ==> HasOption(p, w.id) && p.options[IndexOf(p.options, w.id)].values == w.values
    case RestorePositions(order) => VariantOrder(p.variants) == order
    case _ => false
  }

  predicate RestoreFollows(ops: seq<Op>, i: nat) {
    exists j :: i < j < |ops| && ops[j].RestorePositions?
  }

  /** A re-read the script takes as the outcome of the write: the simulated state,
      or, after a move, the state without the re-flow. */
  ghost predicate Settled(p: Product, op: Op, restoreFollows: bool, live: Product) {
    && Runs(p, op)
    && WellFormed(live) && AllKnown(live)
    && var flags := FlagsOf(p, op);
    var free := flags.positionsFree || (op.MoveVariants? && restoreFollows);
    || Matches(Simulate(p, op), live, flags.freeValues, free)
    || (flags.alternative.Some? && Matches(flags.alternative.value, live, {}, free))
  }

  ghost predicate StoreStep(p: Product, op: Op, restoreFollows: bool, next: Product) {
    && WellFormed(p)
    && if Conditional(op) && Satisfied(p, op) then next == p
       else Passes(p, op) && Settled(p, op, restoreFollows, next)
  }

  /** A run, possibly stopped early: `trace[k]` is the store after k steps. */
  ghost predicate IsRun(start: Product, ops: seq<Op>, trace: seq<Product>) {
    && 1 <= |trace| <= |ops| + 1 && trace[0] == start
    && forall k :: 0 <= k < |trace| - 1 ==> StoreStep(trace[k], ops[k], RestoreFollows(ops, k), trace[k + 1])
  }

  /** The edits have the shape the planners give them. */
  ghost predicate SoundJob(ops: seq<Op>) {
    forall i :: 0 <= i < |ops| ==> Guarded(ops[i])
  }

  // ---- Skipping ---------------------------------------------------------------------------------

  lemma {:induction false} ReorderToSame(options: seq<ProductOption>, orders: seq<ValueOrder>)
    requires forall w :: w in orders ==> HasId(options, w.id) && options[IndexOf(options, w.id)].values == w.values
    ensures ReorderAll(options, orders) == options
  {
    if orders != [] {
      ReorderToSame(options, orders[..|orders| - 1]);
      assert orders[|orders| - 1] in orders;
    }
  }

  lemma {:induction false} PlaceAllWhereTheyAre(vs: map<Id, Variant>, order: seq<Id>)
    requires forall k :: 0 <= k < |order| ==> order[k] in vs && vs[order[k]].position == k + 1
    ensures PlaceAll(vs, order) == vs
  {
    if order != [] {
      PlaceAllWhereTheyAre(vs, order[..|order| - 1]);
    }
  }

  lemma RetitleSame(p: Product)
    requires FormOk(p) && TitlesOk(p)
    ensures forall id :: id in p.variants ==> Covers(Names(p.options), p.variants[id].choice)
    ensures Retitle(p) == p
  {
    assert Retitle(p).variants == p.variants;
  }

  /** Skipping a satisfied edit is the same as simulating it. */
  lemma SkippingIsSimulating(p: Product, op: Op)
    requires WellFormed(p) && Satisfied(p, op)
    ensures Runs(p, op) && Simulate(p, op) == p
  {
    FormReadable(p);
    match op
    case ReorderValues(orders) =>
      ReorderToSame(p.options, orders);
      RetitleSame(p);
    case RestorePositions(order) =>
      PlaceAllWhereTheyAre(p.variants, order);
      RetitleSame(p);
    case _ =>
  }

  lemma {:induction false} ReorderAllHas(options: seq<ProductOption>, orders: seq<ValueOrder>, w: ValueOrder)
    requires forall i, j :: 0 <= i < j < |options| ==> options[i].id != options[j].id
    requires (forall x :: x in orders ==> HasId(options, x.id)) && w in orders
    requires forall i, j :: 0 <= i < j < |orders| ==> orders[i].id != orders[j].id
    ensures ReorderAll(options, orders)[IndexOf(options, w.id)].values == w.values
  {
    var last := orders[|orders| - 1];
    var front := ReorderAll(options, orders[..|orders| - 1]);
    SameIndex(options, front, last.id);
    if w != last {
      assert w in orders[..|orders| - 1];
      ReorderAllHas(options, orders[..|orders| - 1], w);
      assert w.id != last.id;
    }
  }

  /** A conditional edit is skipped exactly when it would change nothing: orders that name
      each option once, or a restore that lists every variant once. */
  lemma SatisfiedExactly(p: Product, op: Op)
    requires WellFormed(p) && Conditional(op) && Runs(p, op)
    requires op.ReorderValues? ==> forall i, j :: 0 <= i < j < |op.orders| ==> op.orders[i].id != op.orders[j].id
    requires op.RestorePositions? ==> multiset(op.order) == multiset(p.variants.Keys)
    ensures Satisfied(p, op) <==> Simulate(p, op) == p
  {
    if Satisfied(p, op) {
      SkippingIsSimulating(p, op);
    }
    if Simulate(p, op) == p {
      match op
      case ReorderValues(orders) =>
        forall w | w in orders ensures p.options[IndexOf(p.options, w.id)].values == w.values {
          ReorderAllHas(p.options, orders, w);
        }
      case RestorePositions(order) =>
        ListingOf(order, p.variants.Keys);
        PlaceAllActs(p.variants, order);
        PlacedIsOrder(p, order);
        OrderIsUnique(p.variants, order, VariantOrder(p.variants));
    }
  }

  lemma SimulatedPlaces(p: Product, order: seq<Id>, id: Id)
    requires Runs(p, RestorePositions(order)) && id in p.variants
    ensures id in Simulate(p, RestorePositions(order)).variants
    ensures Simulate(p, RestorePositions(order)).variants[id].position == PlaceAll(p.variants, order)[id].position
  {
    WriteShape(p, RestorePositions(order));
  }

  lemma PlacedIsOrder(p: Product, order: seq<Id>)
    requires Runs(p, RestorePositions(order)) && Simulate(p, RestorePositions(order)) == p
    requires forall id :: id in order <==> id in p.variants
    requires forall k :: 0 <= k < |order| ==> PlaceAll(p.variants, order)[order[k]].position == k + 1
    ensures IsOrder(p.variants, order)
  {
    forall k | 0 <= k < |order| ensures p.variants[order[k]].position == k + 1 {
      assert order[k] in order;
      SimulatedPlaces(p, order, order[k]);
    }
  }

  /** An order for option `id` is among the orders. */
  predicate OrderedIn(orders: seq<ValueOrder>, id: Id) {
    exists k :: 0 <= k < |orders| && orders[k].id == id
  }

  /** Orders that repeat what options have somewhere else bring it here, to each option
      they list, in whatever order and however often they list it. */
  lemma {:induction false} ReorderAllTo(options: seq<ProductOption>, goal: seq<ProductOption>, orders: seq<ValueOrder>)
    requires forall i, j :: 0 <= i < j < |options| ==> options[i].id != options[j].id
    requires |goal| == |options| && forall i :: 0 <= i < |options| ==> goal[i].id == options[i].id
    requires forall w :: w in orders ==> HasId(goal, w.id) && goal[IndexOf(goal, w.id)].values == w.values
    ensures forall w :: w in orders ==> HasId(options, w.id)
    ensures forall i :: 0 <= i < |options| ==>
      ReorderAll(options, orders)[i].values == if OrderedIn(orders, options[i].id) then goal[i].values else options[i].values
  {
    forall w | w in orders ensures HasId(options, w.id) {
      SameIndex(options, goal, w.id);
    }
    if orders != [] {
      var front, last := orders[..|orders| - 1], orders[|orders| - 1];
      ReorderAllTo(options, goal, front);
      var r := ReorderAll(options, front);
      assert last in orders;
      SameIndex(r, goal, last.id);
      forall i | 0 <= i < |options|
        ensures ReorderAll(options, orders)[i].values == if OrderedIn(orders, options[i].id) then goal[i].values else options[i].values
      {
        OrderedLast(orders, options[i].id);
        assert options[i].id == last.id <==> i == IndexOf(goal, last.id);
      }
    }
  }

  lemma OrderedLast(orders: seq<ValueOrder>, id: Id)
    requires orders != []
    ensures OrderedIn(orders, id) <==> OrderedIn(orders[..|orders| - 1], id) || orders[|orders| - 1].id == id
  {
    var front := orders[..|orders| - 1];
    if k :| 0 <= k < |front| && front[k].id == id {
      assert orders[k].id == id;
    }
    if k :| 0 <= k < |orders| && orders[k].id == id {
      assert k < |front| ==> front[k].id == id;
    }
  }

  /** A reorder that is satisfied on `p` brings an alike product's options to the values
      of `p`, wherever it lists them. */
  lemma SatisfiedReorder(a: Product, p: Product, orders: seq<ValueOrder>)
    requires WellFormed(a) && WellFormed(p) && Alike(a, p) && Satisfied(p, ReorderValues(orders))
    ensures var op := ReorderValues(orders);
      Runs(a, op) && WellFormed(Simulate(a, op)) && Alike(Simulate(a, op), p) && HasOrders(Simulate(a, op), orders)
  {
    var r := ReorderedTo(a.options, p.options, orders);
    ReorderedForm(a, r);
    ReorderSimulates(a, orders);
    ReorderedAlikeTo(a, r, p);
    ReorderedHas(r, p.options, orders);
  }

  lemma ReorderSimulates(a: Product, orders: seq<ValueOrder>)
    requires FormOk(a) && forall w :: w in orders ==> HasId(a.options, w.id)
    requires forall id :: id in a.variants ==> Covers(Names(ReorderAll(a.options, orders)), a.variants[id].choice)
    ensures Runs(a, ReorderValues(orders))
    ensures Simulate(a, ReorderValues(orders)) == Retitle(a.(options := ReorderAll(a.options, orders)))
  {
    FormReadable(a);
  }

  lemma ReorderedAlikeTo(a: Product, r: seq<ProductOption>, p: Product)
    requires Alike(a, p) && |r| == |p.options| && forall i :: 0 <= i < |r| ==> OptionAlike(r[i], p.options[i])
    requires forall id :: id in a.variants ==> Covers(Names(r), a.variants[id].choice)
    ensures Alike(Retitle(a.(options := r)), p)
  {
    forall id | id in a.variants ensures VariantAlike(Retitle(a.(options := r)).variants[id], p.variants[id]) {
      assert VariantAlike(a.variants[id], p.variants[id]);
    }
  }

  lemma ReorderedForm(a: Product, r: seq<ProductOption>)
    requires FormOk(a) && Permuted(a.options, r)
    ensures FormOk(a.(options := r))
    ensures forall id :: id in a.variants ==> Covers(Names(r), a.variants[id].choice)
    ensures WellFormed(Retitle(a.(options := r)))
  {
    PermutedOptionsOk(a.options, r);
    SameValuesKeepChoices(a.options, r, a.variants);
    RetitleKeepsForm(a.(options := r));
  }

  lemma ReorderedHas(r: seq<ProductOption>, c: seq<ProductOption>, orders: seq<ValueOrder>)
    requires OptionsOk(c) && |r| == |c| && forall i :: 0 <= i < |r| ==> OptionAlike(r[i], c[i])
    requires forall w :: w in orders ==> HasId(c, w.id) && c[IndexOf(c, w.id)].values == w.values
    requires forall i :: 0 <= i < |r| ==> (OrderedIn(orders, r[i].id) ==> r[i].values == c[i].values)
    ensures forall w, i :: w in orders && 0 <= i < |r| && r[i].id == w.id ==> r[i].values == w.values
  {
    forall w, i | w in orders && 0 <= i < |r| && r[i].id == w.id ensures r[i].values == w.values {
      var k :| 0 <= k < |orders| && orders[k] == w;
      assert OrderedIn(orders, r[i].id) && OptionAlike(r[i], c[i]) && IndexOf(c, w.id) == i;
    }
  }

  lemma AlikePermutes(a: ProductOption, c: ProductOption)
    requires OptionAlike(a, c) && OptionOk(a) && OptionOk(c)
    ensures multiset(c.values) == multiset(a.values)
  {
    NormDistinctNoDup(a.values);
    NormDistinctNoDup(c.values);
    SameMembers(a.values, c.values);
  }

  lemma ReorderedTo(a: seq<ProductOption>, c: seq<ProductOption>, orders: seq<ValueOrder>) returns (r: seq<ProductOption>)
    requires OptionsOk(a) && OptionsOk(c) && |c| == |a| && forall i :: 0 <= i < |a| ==> OptionAlike(a[i], c[i])
    requires forall w :: w in orders ==> HasId(c, w.id) && c[IndexOf(c, w.id)].values == w.values
    ensures forall w :: w in orders ==> HasId(a, w.id)
    ensures r == ReorderAll(a, orders) && Permuted(a, r)
    ensures forall i :: 0 <= i < |r| ==> OptionAlike(r[i], c[i]) && (OrderedIn(orders, r[i].id) ==> r[i].values == c[i].values)
  {
    ReorderAllTo(a, c, orders);
    r := ReorderAll(a, orders);
    forall i | 0 <= i < |r|
      ensures multiset(r[i].values) == multiset(a[i].values) && OptionAlike(r[i], c[i])
    {
      AlikePermutes(a[i], c[i]);
    }
  }

  lemma SatisfiedRestoreFits(p: Product, order: seq<Id>)
    requires WellFormed(p) && Satisfied(p, RestorePositions(order))
    ensures Fits(p, RestorePositions(order))
  {
    assert IsOrder(p.variants, order);
    assert forall i, j :: 0 <= i < j < |order| ==>
      p.variants[order[i]].position == i + 1 && p.variants[order[j]].position == j + 1;
    ListsAll(order, p.variants.Keys);
  }

  // ---- Every prefix --------------------------------------------------------------------------------

  /** What the store accepts after an edit is alike to the simulated state. */
  lemma SettledIsAlike(p: Product, op: Op, restoreFollows: bool, live: Product)
    requires WellFormed(p) && Fits(p, op) && Guarded(op) && Settled(p, op, restoreFollows, live)
    ensures WellFormed(Simulate(p, op)) && Alike(Simulate(p, op), live)
  {
    EditKeepsForm(p, op);
    SimulateAlikeWrite(p, op);
    var flags := FlagsOf(p, op);
    var free := flags.positionsFree || (op.MoveVariants? && restoreFollows);
    if Matches(Simulate(p, op), live, flags.freeValues, free) {
      FlagsAreExpected(p, op);
      MatchesExactly(Simulate(p, op), live, flags.freeValues, free);
    } else {
      var alt := flags.alternative.value;
      assert FreeIsExpected(alt, {});
      MatchesExactly(alt, live, {}, free);
      AlikeTransitive(Simulate(p, op), Write(p, op), alt);
      AlikeTransitive(Simulate(p, op), alt, live);
    }
  }

  /** The values a simulated edit leaves free are values it expects. */
  lemma FlagsAreExpected(p: Product, op: Op)
    requires WellFormed(p) && Fits(p, op) && Guarded(op)
    ensures Runs(p, op) && FreeIsExpected(Simulate(p, op), FlagsOf(p, op).freeValues)
  {
    EditKeepsForm(p, op);
    WriteKeepsForm(p, op);
    WriteShape(p, op);
    var w, e, free := Write(p, op), Simulate(p, op), FlagsOf(p, op).freeValues;
    if op.MoveVariants? {
      ReflowKeepsForm(w);
    }
    forall i, n | 0 <= i < |e.options| && n in FreeOf(free, e.options[i].id) ensures n in Elems(e.options[i].values) {
      assert (e.options[i].id, n) in free;
      match op
      case AddValue(id, name) => assert IndexOf(p.options, id) == i;
      case MoveVariants(_, _) =>
        var j :| 0 <= j < |w.options| && n in UnusedValues(w, j) && w.options[j].id == e.options[i].id;
        assert w.options[i].id == e.options[i].id;
        assert i == j;
        ReflowPermutes(w, i);
      case _ =>
    }
  }

  /** A step of the store on a product alike to the promise keeps it alike. */
  lemma StepKeepsAlike(a: Product, p: Product, op: Op, restoreFollows: bool, next: Product)
    requires WellFormed(a) && Alike(a, p) && AllKnown(p) && Guarded(op)
    requires StoreStep(p, op, restoreFollows, next)
    ensures Runs(a, op) && WellFormed(Simulate(a, op)) && Alike(Simulate(a, op), next)
    ensures WellFormed(next) && AllKnown(next)
    ensures Fits(a, op) || (op.ReorderValues? && Satisfied(p, op))
  {
    if Conditional(op) && Satisfied(p, op) {
      if op.ReorderValues? {
        SatisfiedReorder(a, p, op.orders);
      } else {
        SatisfiedRestoreFits(p, op.order);
        SkippingIsSimulating(p, op);
        SimulateAlike(a, p, op);
      }
    } else {
      SimulateAlike(a, p, op);
      SettledIsAlike(p, op, restoreFollows, next);
      AlikeTransitive(Simulate(a, op), Simulate(p, op), next);
    }
  }

  /** After any prefix of a run, whichever answers the store gave and whatever stopped it
      there, the product is well formed and alike to what the edits so far promise. */
  lemma {:induction false} EveryPrefixIsAlike(start: Product, ops: seq<Op>, trace: seq<Product>, k: nat)
    requires WellFormed(start) && AllKnown(start) && SoundJob(ops)
    requires IsRun(start, ops, trace) && k < |trace|
    ensures RunsAll(start, ops[..k]) && WellFormed(Expected(start, ops[..k]))
    ensures Alike(Expected(start, ops[..k]), trace[k])
    ensures WellFormed(trace[k]) && AllKnown(trace[k])
  {
    if k == 0 {
      assert ops[..0] == [];
    } else {
      EveryPrefixIsAlike(start, ops, trace, k - 1);
      ExpectedStep(start, ops, k - 1);
      StepKeepsAlike(Expected(start, ops[..k - 1]), trace[k - 1], ops[k - 1], RestoreFollows(ops, k - 1), trace[k]);
    }
  }

  ghost predicate SameOptionIds(a: Product, b: Product) {
    |a.options| == |b.options| && forall i :: 0 <= i < |a.options| ==> a.options[i].id == b.options[i].id
  }

  lemma SimulateOptionIds(p: Product, op: Op)
    requires Runs(p, op)
    ensures SameOptionIds(p, Simulate(p, op))
  {
    WriteShape(p, op);
    match op
    case RenameValues(id, renames) => RenameAllShape(p, IndexOf(p.options, id), renames);
    case _ =>
  }

  // ---- Completed runs -----------------------------------------------------------------------------

  /** A job that ends by setting the value order of every option, in whatever order it
      lists them, and then variant positions. */
  ghost predicate EndsOrdered(start: Product, ops: seq<Op>) {
    && |ops| >= 2 && ops[|ops| - 2].ReorderValues? && ops[|ops| - 1].RestorePositions?
    && ListsEvery(start, ops[|ops| - 2].orders)
  }

  ghost predicate ListsEvery(p: Product, orders: seq<ValueOrder>) {
    forall i :: 0 <= i < |p.options| ==> OrderedIn(orders, p.options[i].id)
  }

  /** Every option the orders list has its values in that order. */
  ghost predicate HasOrders(p: Product, orders: seq<ValueOrder>) {
    forall w, i :: w in orders && 0 <= i < |p.options| && p.options[i].id == w.id ==> p.options[i].values == w.values
  }

  lemma ReorderReaches(p: Product, orders: seq<ValueOrder>)
    requires WellFormed(p) && Fits(p, ReorderValues(orders))
    ensures Runs(p, ReorderValues(orders)) && HasOrders(Simulate(p, ReorderValues(orders)), orders)
  {
    EditKeepsForm(p, ReorderValues(orders));
    ReorderAllActs(p.options, orders);
    var q := Simulate(p, ReorderValues(orders));
    forall w, i | w in orders && 0 <= i < |q.options| && q.options[i].id == w.id ensures q.options[i].values == w.values {
      var k :| 0 <= k < |orders| && orders[k] == w;
      assert orders[k].id == p.options[k].id && q.options[i].id == p.options[i].id;
      assert k == i;
    }
  }

  lemma SatisfiedHasOrders(p: Product, orders: seq<ValueOrder>)
    requires WellFormed(p) && Satisfied(p, ReorderValues(orders))
    ensures HasOrders(p, orders)
  {
    forall w, i | w in orders && 0 <= i < |p.options| && p.options[i].id == w.id ensures p.options[i].values == w.values {
      assert IndexOf(p.options, w.id) == i;
    }
  }

  lemma RestoreReaches(p: Product, order: seq<Id>)
    requires WellFormed(p) && Fits(p, RestorePositions(order))
    ensures Runs(p, RestorePositions(order))
    ensures var q := Simulate(p, RestorePositions(order));
      WellFormed(q) && VariantOrder(q.variants) == order && q.options == p.options
  {
    EditKeepsForm(p, RestorePositions(order));
    RestoreKeepsForm(p, order);
    SamePlaces(PlaceAll(p.variants, order), Simulate(p, RestorePositions(order)).variants);
  }

  lemma MatchHasOrders(e: Product, l: Product, orders: seq<ValueOrder>)
    requires WellFormed(e) && WellFormed(l) && Matches(e, l, {}, true) && HasOrders(e, orders)
    ensures HasOrders(l, orders)
  {
    assert forall id :: FreeOf({}, id) == {};
    MatchesExactly(e, l, {}, true);
    forall i | 0 <= i < |e.options| ensures l.options[i].values == e.options[i].values && l.options[i].id == e.options[i].id {
      assert OptionAlike(e.options[i], l.options[i]);
      OutsideNone(e.options[i].values, {});
      OutsideNone(l.options[i].values, {});
    }
  }

  lemma ReorderStepReaches(p: Product, orders: seq<ValueOrder>, follows: bool, next: Product)
    requires StoreStep(p, ReorderValues(orders), follows, next)
    ensures HasOrders(next, orders)
  {
    if Satisfied(p, ReorderValues(orders)) {
      SatisfiedHasOrders(p, orders);
    } else {
      ReorderReaches(p, orders);
      EditKeepsForm(p, ReorderValues(orders));
      MatchHasOrders(Simulate(p, ReorderValues(orders)), next, orders);
    }
  }

  /** The promise after the reorder has the same orders as the store. */
  lemma PromiseHasOrders(a: Product, p: Product, orders: seq<ValueOrder>)
    requires WellFormed(a) && WellFormed(p) && Alike(a, p)
    requires Satisfied(p, ReorderValues(orders)) || Fits(a, ReorderValues(orders))
    ensures Runs(a, ReorderValues(orders)) && HasOrders(Simulate(a, ReorderValues(orders)), orders)
  {
    if Satisfied(p, ReorderValues(orders)) {
      SatisfiedReorder(a, p, orders);
    } else {
      ReorderReaches(a, orders);
    }
  }

  lemma RestoreStepReaches(p: Product, orders: seq<ValueOrder>, order: seq<Id>, follows: bool, next: Product)
    requires StoreStep(p, RestorePositions(order), follows, next) && HasOrders(p, orders)
    ensures WellFormed(next) && VariantOrder(next.variants) == order && HasOrders(next, orders)
  {
    var op := RestorePositions(order);
    if !Satisfied(p, op) {
      RestoreReaches(p, order);
      var e := Simulate(p, op);
      assert HasOrders(e, orders);
      StrictMatch(e, next);
      SameUpToMintOrders(e, next, orders);
    }
  }

  lemma SameUpToMintOrders(e: Product, l: Product, orders: seq<ValueOrder>)
    requires SameUpToMint(e, l) && HasOrders(e, orders) && Positioned(e.variants) && Positioned(l.variants)
    ensures HasOrders(l, orders) && VariantOrder(l.variants) == VariantOrder(e.variants)
  {
    assert IsOrder(l.variants, VariantOrder(e.variants));
    OrderIsUnique(l.variants, VariantOrder(e.variants), VariantOrder(l.variants));
  }

  lemma StoreOrdered(p: Product, orders: seq<ValueOrder>, order: seq<Id>, follows: bool, p1: Product, follows1: bool, p2: Product)
    requires StoreStep(p, ReorderValues(orders), follows, p1) && StoreStep(p1, RestorePositions(order), follows1, p2)
    ensures WellFormed(p2) && HasOrders(p2, orders) && VariantOrder(p2.variants) == order
  {
    ReorderStepReaches(p, orders, follows, p1);
    RestoreStepReaches(p1, orders, order, follows1, p2);
  }

  lemma PromiseOrdered(a: Product, p: Product, orders: seq<ValueOrder>, order: seq<Id>)
    requires WellFormed(a) && WellFormed(p) && Alike(a, p) && ListsEvery(a, orders)
    requires Satisfied(p, ReorderValues(orders)) || Fits(a, ReorderValues(orders))
    requires Runs(a, ReorderValues(orders)) && WellFormed(Simulate(a, ReorderValues(orders)))
    requires Fits(Simulate(a, ReorderValues(orders)), RestorePositions(order))
    ensures Runs(Simulate(a, ReorderValues(orders)), RestorePositions(order))
    ensures var e := Simulate(Simulate(a, ReorderValues(orders)), RestorePositions(order));
      WellFormed(e) && HasOrders(e, orders) && VariantOrder(e.variants) == order && ListsEvery(e, orders)
  {
    PromiseHasOrders(a, p, orders);
    var b := Simulate(a, ReorderValues(orders));
    RestoreReaches(b, order);
    SimulateOptionIds(a, ReorderValues(orders));
    SimulateOptionIds(b, RestorePositions(order));
  }

  /** The two ordering steps fix what the earlier ones left free. */
  lemma OrderingReaches(a: Product, p: Product, orders: seq<ValueOrder>, order: seq<Id>,
                        follows: bool, p1: Product, follows1: bool, p2: Product)
    requires WellFormed(a) && Alike(a, p) && AllKnown(p) && ListsEvery(a, orders)
    requires StoreStep(p, ReorderValues(orders), follows, p1) && StoreStep(p1, RestorePositions(order), follows1, p2)
    ensures Runs(a, ReorderValues(orders)) && Runs(Simulate(a, ReorderValues(orders)), RestorePositions(order))
    ensures var e := Simulate(Simulate(a, ReorderValues(orders)), RestorePositions(order));
      WellFormed(e) && WellFormed(p2) && SameUpToMint(e, p2)
  {
    StepKeepsAlike(a, p, ReorderValues(orders), follows, p1);
    var b := Simulate(a, ReorderValues(orders));
    StepKeepsAlike(b, p1, RestorePositions(order), follows1, p2);
    StoreOrdered(p, orders, order, follows, p1, follows1, p2);
    PromiseOrdered(a, p, orders, order);
    SameWhereOrdered(Simulate(b, RestorePositions(order)), p2, orders, order);
  }

  lemma SameWhereOrdered(a: Product, b: Product, orders: seq<ValueOrder>, order: seq<Id>)
    requires Alike(a, b) && HasOrders(a, orders) && HasOrders(b, orders) && ListsEvery(a, orders)
    requires Positioned(a.variants) && Positioned(b.variants)
    requires VariantOrder(a.variants) == order && VariantOrder(b.variants) == order
    ensures SameUpToMint(a, b)
  {
    forall i | 0 <= i < |a.options| ensures OptionAlike(a.options[i], b.options[i]) && a.options[i].values == b.options[i].values {
      var k :| 0 <= k < |orders| && orders[k].id == a.options[i].id;
      assert orders[k] in orders;
    }
  }

  /** Confluence: however the store answered along the way (re-flowed or not, values
      and positions wherever they were left free, edits skipped or not), a completed
      run of such a job ends in the promised state, up to the ids the store minted. */
  lemma CompletedRunsAgree(start: Product, ops: seq<Op>, trace: seq<Product>)
    requires WellFormed(start) && AllKnown(start) && SoundJob(ops) && EndsOrdered(start, ops)
    requires IsRun(start, ops, trace) && |trace| == |ops| + 1
    ensures RunsAll(start, ops)
    ensures WellFormed(Expected(start, ops)) && WellFormed(trace[|ops|])
    ensures SameUpToMint(Expected(start, ops), trace[|ops|])
    ensures Matches(Expected(start, ops), trace[|ops|], {}, false)
  {
    var n := |ops| - 2;
    EveryPrefixIsAlike(start, ops, trace, n);
    PromisedOptionIds(start, ops[..n]);
    OrderingReaches(Expected(start, ops[..n]), trace[n], ops[n].orders, ops[n + 1].order,
                    RestoreFollows(ops, n), trace[n + 1], RestoreFollows(ops, n + 1), trace[n + 2]);
    ExpectedLastTwo(start, ops, n);
    StrictMatch(Expected(start, ops), trace[|ops|]);
  }

  lemma {:induction false} PromisedOptionIds(s: Product, ops: seq<Op>)
    requires RunsAll(s, ops)
    ensures SameOptionIds(s, Expected(s, ops))
    decreases |ops|
  {
    if ops != [] {
      PromisedOptionIds(s, ops[..|ops| - 1]);
      SimulateOptionIds(Expected(s, ops[..|ops| - 1]), ops[|ops| - 1]);
    }
  }

  lemma ExpectedLastTwo(p: Product, ops: seq<Op>, n: nat)
    requires |ops| == n + 2 && RunsAll(p, ops[..n]) && Runs(Expected(p, ops[..n]), ops[n])
    requires Runs(Simulate(Expected(p, ops[..n]), ops[n]), ops[n + 1])
    ensures RunsAll(p, ops)
    ensures Expected(p, ops) == Simulate(Simulate(Expected(p, ops[..n]), ops[n]), ops[n + 1])
  {
    assert RunsAll(p, ops[..n + 1]) && Expected(p, ops[..n + 1]) == Simulate(Expected(p, ops[..n]), ops[n]) by {
      ExpectedStep(p, ops, n);
    }
  }

  /** Two completed runs of the same job end in the same product when the store
      minted the same ids. */
  lemma RunsAreConfluent(start: Product, ops: seq<Op>, one: seq<Product>, two: seq<Product>)
    requires WellFormed(start) && AllKnown(start) && SoundJob(ops) && EndsOrdered(start, ops)
    requires IsRun(start, ops, one) && |one| == |ops| + 1
    requires IsRun(start, ops, two) && |two| == |ops| + 1
    requires SameIds(one[|ops|], two[|ops|])
    ensures one[|ops|] == two[|ops|]
  {
    CompletedRunsAgree(start, ops, one);
    CompletedRunsAgree(start, ops, two);
    EveryPrefixIsAlike(start, ops, one, |ops|);
    var e, a, b := Expected(start, ops), one[|ops|], two[|ops|];
    forall i | 0 <= i < |a.options| ensures OptionAlike(a.options[i], b.options[i]) {
      assert OptionAlike(e.options[i], a.options[i]) && OptionAlike(e.options[i], b.options[i]);
    }
    forall id | id in a.variants ensures VariantAlike(a.variants[id], b.variants[id]) {
      assert VariantAlike(e.variants[id], a.variants[id]) && VariantAlike(e.variants[id], b.variants[id]);
    }
    KnownSameUpToMint(a, b);
  }

  ghost predicate SameIds(a: Product, b: Product) {
    |a.options| == |b.options| && forall i :: 0 <= i < |a.options| ==> a.options[i].ids == b.options[i].ids
  }
}
