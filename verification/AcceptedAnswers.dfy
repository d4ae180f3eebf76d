/** Exactly which answers of the store the apply script takes for the outcome of a write,
    told without the flags it passes around: what may differ from the simulated state. */
module AcceptedAnswers {
  import opened Lists
  import opened Catalogue
  import opened Edits
  import opened KeepsForm
  import opened Compare
  import opened Executor
  import opened ReflowOrder
  import opened Apply

  // ---- After one write -----------------------------------------------------------------------

  /** Where the store alone decides the place of a value: the one just added, and after a
      move the ones no variant holds. */
  ghost predicate Floats(p: Product, e: Product, op: Op, i: int, n: Name) {
    0 <= i < |e.options| && n in e.options[i].values &&
    match op
    case AddValue(id, name) => e.options[i].id == id && n == name
    case MoveVariants(_, _) =>
      forall v :: v in e.variants && e.options[i].name in e.variants[v].choice ==>
        e.variants[v].choice[e.options[i].name] != n
    case _ => false
  }

  ghost function Floating(p: Product, e: Product, op: Op, i: int): set<Name>
    requires 0 <= i < |e.options|
  {
    set n | n in e.options[i].values && Floats(p, e, op, i, n)
  }

  /** All values that do not float stand in the simulated order. */
  ghost predicate InSimulatedOrder(p: Product, e: Product, op: Op, live: Product)
    requires |live.options| == |e.options|
  {
    forall i :: 0 <= i < |e.options| ==>
      Outside(e.options[i].values, Floating(p, e, op, i)) == Outside(live.options[i].values, Floating(p, e, op, i))
  }

  /** The store put no value of any option elsewhere. */
  ghost predicate InOldOrder(p: Product, live: Product)
    requires |live.options| == |p.options|
  {
    forall i :: 0 <= i < |p.options| ==> live.options[i].values == p.options[i].values
  }

  /** The answer has the simulated content. Its values stand in the simulated order, or after
      a move as they stood before it. Its positions are the simulated ones, unless the edit
      reordered values, or was a move and positions are restored later in the job. */
  ghost predicate AsPromised(p: Product, op: Op, restoreFollows: bool, live: Product)
    requires Runs(p, op)
  {
    var e := Simulate(p, op);
    && Alike(e, live)
    && (InSimulatedOrder(p, e, op, live) || (op.MoveVariants? && |live.options| == |p.options| && InOldOrder(p, live)))
    && (op.ReorderValues? || (op.MoveVariants? && restoreFollows) || PositionsAgree(e, live))
  }

  lemma AddFree(p: Product, op: Op, i: nat)
    requires WellFormed(p) && Fits(p, op) && Guarded(op) && op.AddValue? && Runs(p, op) && i < |p.options|
    ensures |Simulate(p, op).options| == |p.options|
    ensures FreeOf(FlagsOf(p, op).freeValues, Simulate(p, op).options[i].id) == Floating(p, Simulate(p, op), op, i)
  {
    var e := Simulate(p, op);
    var j := IndexOf(p.options, op.optionId);
    assert forall k :: 0 <= k < |p.options| ==> e.options[k].id == p.options[k].id;
    assert op.name in e.options[j].values;
  }

  lemma MoveFree(p: Product, op: Op, i: nat)
    requires WellFormed(p) && Fits(p, op) && Guarded(op) && op.MoveVariants? && Runs(p, op) && i < |p.options|
    ensures |Simulate(p, op).options| == |p.options|
    ensures FreeOf(FlagsOf(p, op).freeValues, Simulate(p, op).options[i].id) == Floating(p, Simulate(p, op), op, i)
  {
    var w, e, free := Write(p, op), Simulate(p, op), FlagsOf(p, op).freeValues;
    WriteKeepsForm(p, op);
    WriteShape(p, op);
    ReflowPermutes(w, i);
    forall n ensures n in FreeOf(free, e.options[i].id) <==> n in UnusedValues(w, i) {
      if n in FreeOf(free, e.options[i].id) {
        assert (e.options[i].id, n) in free;
        var j :| 0 <= j < |w.options| && n in UnusedValues(w, j) && w.options[j].id == e.options[i].id;
        assert w.options[i].id == e.options[i].id;
        assert i == j;
      }
      if n in UnusedValues(w, i) {
        assert (w.options[i].id, n) in free;
      }
    }
    forall n ensures n in UnusedValues(w, i) <==> n in Floating(p, e, op, i) {
      MoveFloats(p, op, i, n);
    }
  }

  lemma MoveFloats(p: Product, op: Op, i: nat, n: Name)
    requires WellFormed(p) && Fits(p, op) && Guarded(op) && op.MoveVariants? && Runs(p, op) && i < |p.options|
    requires FormOk(Write(p, op)) && Readable(Write(p, op)) && |Write(p, op).options| == |p.options|
    requires Elems(ReflowedValues(Write(p, op), i)) == Elems(Write(p, op).options[i].values)
    ensures n in UnusedValues(Write(p, op), i) <==> Floats(p, Simulate(p, op), op, i, n)
  {
    var w, e := Write(p, op), Simulate(p, op);
    UnusedExactly(w, i, n);
    assert e.options[i].values == ReflowedValues(w, i) && e.options[i].name == w.options[i].name;
    assert n in e.options[i].values <==> n in Elems(w.options[i].values);
    forall v | v in w.variants ensures w.options[i].name in w.variants[v].choice && e.variants[v].choice == w.variants[v].choice {
      assert ChoiceOk(w.options, w.variants[v].choice);
    }
  }

  lemma OtherFree(p: Product, op: Op, i: nat)
    requires Runs(p, op) && !op.AddValue? && !op.MoveVariants? && i < |Simulate(p, op).options|
    ensures FreeOf(FlagsOf(p, op).freeValues, Simulate(p, op).options[i].id) == Floating(p, Simulate(p, op), op, i) == {}
  {
  }

  lemma FreeIsFloating(p: Product, op: Op, i: nat)
    requires WellFormed(p) && Fits(p, op) && Guarded(op) && Runs(p, op) && i < |p.options| == |Simulate(p, op).options|
    ensures FreeOf(FlagsOf(p, op).freeValues, Simulate(p, op).options[i].id) == Floating(p, Simulate(p, op), op, i)
  {
    if op.AddValue? {
      AddFree(p, op, i);
    } else if op.MoveVariants? {
      MoveFree(p, op, i);
    } else {
      OtherFree(p, op, i);
    }
  }

  lemma SimulatedOptions(p: Product, op: Op)
    requires WellFormed(p) && Fits(p, op) && Guarded(op)
    ensures Runs(p, op) && WellFormed(Simulate(p, op)) && |Simulate(p, op).options| == |p.options|
  {
    EditKeepsForm(p, op);
    WriteShape(p, op);
    assert |Names(Write(p, op).options)| == |p.options|;
  }

  lemma SimulatedMatchExactly(p: Product, op: Op, free: bool, live: Product)
    requires WellFormed(p) && Fits(p, op) && Guarded(op) && Runs(p, op) && WellFormed(live)
    ensures |Simulate(p, op).options| == |p.options|
    ensures Matches(Simulate(p, op), live, FlagsOf(p, op).freeValues, free) <==>
      && Alike(Simulate(p, op), live) && InSimulatedOrder(p, Simulate(p, op), op, live)
      && (free || PositionsAgree(Simulate(p, op), live))
  {
    SimulatedOptions(p, op);
    FlagsAreExpected(p, op);
    var e, values := Simulate(p, op), FlagsOf(p, op).freeValues;
    MatchesExactly(e, live, values, free);
    if |live.options| == |e.options| {
      FreeOrders(p, op, e, live);
    }
  }

  lemma FreeOrders(p: Product, op: Op, e: Product, live: Product)
    requires WellFormed(p) && Fits(p, op) && Guarded(op) && Runs(p, op) && e == Simulate(p, op)
    requires |live.options| == |e.options| == |p.options|
    ensures OrdersAgree(e, live, FlagsOf(p, op).freeValues) <==> InSimulatedOrder(p, e, op, live)
  {
    var values := FlagsOf(p, op).freeValues;
    forall i | 0 <= i < |e.options| ensures FreeOf(values, e.options[i].id) == Floating(p, e, op, i) {
      FreeIsFloating(p, op, i);
    }
  }

  /** A re-flow changes the order of values and nothing else. */
  lemma ReflowIsAlike(w: Product)
    requires FormOk(w)
    ensures Readable(w) && Readable(Reflow(w)) && WellFormed(Retitle(w))
    ensures var plain, e := Retitle(w), Retitle(Reflow(w));
      Alike(plain, e) && Alike(e, plain) && PositionsAgree(plain, e)
  {
    ReflowKeepsForm(w);
    FormReadable(w);
    FormReadable(Reflow(w));
    RetitleKeepsForm(w);
    forall i | 0 <= i < |w.options| ensures Elems(ReflowedValues(w, i)) == Elems(w.options[i].values) {
      ReflowPermutes(w, i);
    }
  }

  lemma PlainIsRetitled(p: Product, op: Op)
    requires op.MoveVariants? && Runs(p, op)
    ensures forall id :: id in Write(p, op).variants ==> Covers(Names(Write(p, op).options), Write(p, op).variants[id].choice)
    ensures FlagsOf(p, op).alternative == Some(Retitle(Write(p, op)))
    ensures Readable(Write(p, op)) && Simulate(p, op) == Retitle(Reflow(Write(p, op)))
    ensures Retitle(Write(p, op)).options == p.options
  {
    WriteShape(p, op);
  }

  lemma PlainStands(p: Product, op: Op)
    requires WellFormed(p) && Fits(p, op) && Guarded(op) && op.MoveVariants? && Runs(p, op)
    ensures FlagsOf(p, op).alternative.Some?
    ensures var plain := FlagsOf(p, op).alternative.value;
      && WellFormed(plain) && plain.options == p.options
      && Alike(plain, Simulate(p, op)) && Alike(Simulate(p, op), plain) && PositionsAgree(plain, Simulate(p, op))
  {
    WriteKeepsForm(p, op);
    PlainIsRetitled(p, op);
    ReflowIsAlike(Write(p, op));
  }

  /** Nothing left out on either side, the lists are simply the same. */
  lemma NoneFree(p: Product, live: Product)
    requires |live.options| == |p.options|
    ensures OrdersAgree(p, live, {}) <==> InOldOrder(p, live)
  {
    forall i | 0 <= i < |p.options|
      ensures Outside(p.options[i].values, FreeOf({}, p.options[i].id)) == p.options[i].values
        && Outside(live.options[i].values, FreeOf({}, p.options[i].id)) == live.options[i].values
    {
      assert FreeOf({}, p.options[i].id) == {};
      OutsideNone(p.options[i].values, {});
      OutsideNone(live.options[i].values, {});
    }
  }

  lemma AlikeOrPlain(e: Product, plain: Product, live: Product)
    requires Alike(plain, e) && Alike(e, plain) && PositionsAgree(plain, e)
    ensures Alike(plain, live) <==> Alike(e, live)
    ensures Alike(e, live) ==> (PositionsAgree(plain, live) <==> PositionsAgree(e, live))
  {
    if Alike(plain, live) {
      AlikeTransitive(e, plain, live);
    }
    if Alike(e, live) {
      AlikeTransitive(plain, e, live);
    }
  }

  lemma PlainMatchExactly(p: Product, op: Op, free: bool, live: Product)
    requires WellFormed(p) && Fits(p, op) && Guarded(op) && op.MoveVariants? && Runs(p, op) && WellFormed(live)
    ensures FlagsOf(p, op).alternative.Some?
    ensures Matches(FlagsOf(p, op).alternative.value, live, {}, free) <==>
      && Alike(Simulate(p, op), live) && |live.options| == |p.options| && InOldOrder(p, live)
      && (free || PositionsAgree(Simulate(p, op), live))
  {
    PlainStands(p, op);
    var e, plain := Simulate(p, op), FlagsOf(p, op).alternative.value;
    assert FreeIsExpected(plain, {});
    MatchesExactly(plain, live, {}, free);
    AlikeOrPlain(e, plain, live);
    if |live.options| == |p.options| {
      NoneFree(plain, live);
    }
  }

  /** The script takes exactly the answers that are as promised. */
  lemma AnswerExactly(p: Product, op: Op, restoreFollows: bool, live: Product)
    requires WellFormed(p) && Fits(p, op) && Guarded(op)
    ensures Runs(p, op)
    ensures Settled(p, op, restoreFollows, live) <==> WellFormed(live) && AllKnown(live) && AsPromised(p, op, restoreFollows, live)
  {
    SimulatedOptions(p, op);
    var free := FlagsOf(p, op).positionsFree || (op.MoveVariants? && restoreFollows);
    assert FlagsOf(p, op).positionsFree <==> op.ReorderValues?;
    assert FlagsOf(p, op).alternative.Some? <==> op.MoveVariants?;
    if WellFormed(live) {
      SimulatedMatchExactly(p, op, free, live);
      if op.MoveVariants? {
        PlainMatchExactly(p, op, free, live);
      }
    }
  }

  // ---- The last re-read ------------------------------------------------------------------------

  /** Where the store put the first value the job added, if the job reorders no values. */
  ghost predicate LeftFree(ops: seq<Op>, id: Id, n: Name) {
    && (forall i :: 0 <= i < |ops| ==> !ops[i].ReorderValues?)
    && exists i :: 0 <= i < |ops| && ops[i] == AddValue(id, n) && forall j :: 0 <= j < i ==> !ops[j].AddValue?
  }

  lemma {:induction false} FirstAddedIs(ops: seq<Op>, id: Id, n: Name)
    ensures (id, n) in FirstAdded(ops).freeValues <==>
      exists i :: 0 <= i < |ops| && ops[i] == AddValue(id, n) && forall j :: 0 <= j < i ==> !ops[j].AddValue?
  {
    if ops != [] {
      FirstAddedIs(ops[1..], id, n);
      if !ops[0].AddValue? {
        if i :| 0 <= i < |ops| && ops[i] == AddValue(id, n) && forall j :: 0 <= j < i ==> !ops[j].AddValue? {
          assert ops[1..][i - 1] == AddValue(id, n);
        }
        if i :| 0 <= i < |ops| - 1 && ops[1..][i] == AddValue(id, n) && forall j :: 0 <= j < i ==> !ops[1..][j].AddValue? {
          assert ops[i + 1] == AddValue(id, n);
          forall j | 0 <= j < i + 1 ensures !ops[j].AddValue? {
            if j > 0 {
              assert ops[j] == ops[1..][j - 1];
            }
          }
        }
      }
    }
  }

  lemma FinalFreeIs(ops: seq<Op>, id: Id, n: Name)
    ensures (id, n) in FinalFlags(ops).freeValues <==> LeftFree(ops, id, n)
  {
    FirstAddedIs(ops, id, n);
  }

  /** What the last comparison leaves free: the place of the first value the job added, if
      it reorders none. Everything else must be as promised. */
  ghost predicate AsPromisedInTheEnd(job: Job, live: Product) {
    && Alike(job.promise, live) && PositionsAgree(job.promise, live)
    && forall i :: 0 <= i < |job.promise.options| ==>
         var free := set n | n in job.promise.options[i].values && LeftFree(job.ops, job.promise.options[i].id, n);
         Outside(job.promise.options[i].values, free) == Outside(live.options[i].values, free)
  }

  /** The run ends without a mismatch for the product exactly when one of its last five
      re-reads is as promised in the end. */
  lemma VerifiedExactly(job: Job, store: Store, j: nat)
    requires Answers(store) && WellFormed(job.promise)
    requires forall i, n :: 0 <= i < |job.promise.options| && LeftFree(job.ops, job.promise.options[i].id, n) ==>
      n in job.promise.options[i].values
    ensures Verified(job, store, j) <==>
      exists a :: 0 <= a < SETTLE_READS && AsPromisedInTheEnd(job, store.again(j, |job.ops|, a))
  {
    var free := FinalFlags(job.ops).freeValues;
    forall a ensures Matches(job.promise, store.again(j, |job.ops|, a), free, false) <==>
      AsPromisedInTheEnd(job, store.again(j, |job.ops|, a))
    {
      FinalMatchExactly(job, store.again(j, |job.ops|, a));
    }
  }

  lemma FinalMatchExactly(job: Job, live: Product)
    requires WellFormed(job.promise) && WellFormed(live)
    requires forall i, n :: 0 <= i < |job.promise.options| && LeftFree(job.ops, job.promise.options[i].id, n) ==>
      n in job.promise.options[i].values
    ensures Matches(job.promise, live, FinalFlags(job.ops).freeValues, false) <==> AsPromisedInTheEnd(job, live)
  {
    var e, free := job.promise, FinalFlags(job.ops).freeValues;
    forall i | 0 <= i < |e.options|
      ensures FreeOf(free, e.options[i].id) == set n | n in e.options[i].values && LeftFree(job.ops, e.options[i].id, n)
    {
      forall n ensures n in FreeOf(free, e.options[i].id) <==> LeftFree(job.ops, e.options[i].id, n) {
        FinalFreeIs(job.ops, e.options[i].id, n);
        assert n in FreeOf(free, e.options[i].id) <==> (e.options[i].id, n) in free;
      }
    }
    assert FreeIsExpected(e, free);
    MatchesExactly(e, live, free, false);
  }
}
