/** Rolling back again: a rollback is a run against the store too and may be stopped, so
    planning from the same log must work from wherever it left the product. */
module RollbackAgain {
  import opened Lists
  import opened Catalogue
  import opened KeepsForm
  import opened Compare
  import opened Executor
  import opened RollbackPlan
  import opened RollbackReaches
  import opened RollbackStages
  import opened RollbackRestores
  import opened RollbackInverts

  // ---- Between the live state and the start ------------------------------------------------

  /** The title aside, `x` holds what a rollback from `l` has reached in phase `ph`. */
  ghost predicate PartlyBack(s: Product, l: Product, x: Product, ph: Phase) {
    (ph.deleted ==> ph.moved) && Content(s, l, x.(title := s.title), ph)
  }

  /** `x` is somewhere on the way from `l` back to `s`. */
  ghost predicate Midway(s: Product, l: Product, r: int, d: int, x: Product) {
    && WellFormed(x) && AllKnown(x) && (x.title == l.title || x.title == s.title)
    && exists ph: Phase :: ph.r == r && ph.d == d && PartlyBack(s, l, x, ph)
  }

  lemma BackIsMidway(s: Product, l: Product, x: Product, ph: Phase)
    requires Back(s, l, x, ph) && (ph.deleted ==> ph.moved)
    ensures Midway(s, l, ph.r, ph.d, x)
  {
    assert x.(title := s.title) == x;
    assert PartlyBack(s, l, x, ph);
  }

  lemma MidwayAlike(s: Product, l: Product, r: int, d: int, x: Product, y: Product)
    requires AllKnown(s) && AllKnown(l) && Midway(s, l, r, d, x) && Alike(x, y) && WellFormed(y) && AllKnown(y)
    ensures Midway(s, l, r, d, y)
  {
    var ph: Phase :| ph.r == r && ph.d == d && PartlyBack(s, l, x, ph);
    ContentAlike(s, l, x.(title := s.title), y.(title := s.title), ph);
    assert PartlyBack(s, l, y, ph);
  }

  ghost predicate VariantsBack(s: Product, l: Product, x: Product, ph: Phase) {
    && s.variants.Keys == l.variants.Keys == x.variants.Keys
    && forall id :: id in s.variants ==> VariantBack(s, s.variants[id], l.variants[id], x.variants[id], ph)
  }

  // ---- Every state on the way is recoverable -----------------------------------------------

  lemma MidwayIsAligned(s: Product, p: Product, l: Product, listing: seq<Id>, x: Product, ph: Phase)
    requires Aligned(s, p, l, listing) && WellFormed(x) && AllKnown(x) && PartlyBack(s, l, x, ph)
    ensures Aligned(s, p, x, listing)
  {
    var t := x.(title := s.title);
    forall i | 0 <= i < |s.options| ensures x.options[i].id == s.options[i].id && x.options[i].name == s.options[i].name {
      assert OptionBack(s.options[i], l.options[i], t.options[i], LiveIds(ph, i));
    }
  }

  lemma BackReadsApart(so: ProductOption, po: ProductOption, xo: ProductOption)
    requires KnownOption(so) && KnownOption(xo) && xo.ids == so.ids
    ensures ReadsApart(so, xo) && RenamesOurs(so, po, xo)
  {
    NoRenames(so, xo);
    NormDistinctNoDup(so.values);
    forall n, m | n in so.values && m in xo.values && norm(n) == norm(m)
      ensures n in so.ids && m in xo.ids && xo.ids[m] == so.ids[n]
    {
      assert n in Elems(so.values) && m in Elems(xo.values);
      assert m in Elems(so.values);
    }
  }

  lemma LiveReadsApart(so: ProductOption, po: ProductOption, lo: ProductOption, xo: ProductOption)
    requires KnownOption(so) && KnownOption(lo) && KnownOption(xo) && xo.ids == lo.ids
    requires ReadsApart(so, lo) && RenamesOurs(so, po, lo)
    ensures ReadsApart(so, xo) && RenamesOurs(so, po, xo)
  {
    forall m ensures m in xo.values <==> m in lo.values {
      assert m in Elems(xo.values) <==> m in Elems(lo.values);
    }
    forall n | n in so.values ensures !RenameProblem(so, po, xo, n) {
      assert !RenameProblem(so, po, lo, n);
      assert n in Elems(so.values);
      assert Named(lo, so.ids[n]).Some?;
      NamedMeans(xo, Named(lo, so.ids[n]).value);
    }
  }

  /** An option not moved keeps every variant on the value it started with. */
  lemma UnmovedMidway(s: Product, l: Product, x: Product, ph: Phase, i: nat)
    requires i < |s.options| == |l.options| == |x.options| && i != ph.d && WellFormed(s) && KnownOption(s.options[i])
    requires l.options[i].name == s.options[i].name
    requires OptionBack(s.options[i], l.options[i], x.options[i], LiveIds(ph, i))
    requires VariantsBack(s, l, x, ph)
    requires Unmoved(s.options[i], l.options[i], s.variants, l.variants)
    ensures Unmoved(s.options[i], x.options[i], s.variants, x.variants)
  {
    var so, lo, xo := s.options[i], l.options[i], x.options[i];
    forall id | id in s.variants ensures SameValue(so, xo, s.variants[id], x.variants[id]) {
      assert SameValue(so, lo, s.variants[id], l.variants[id]);
      assert VariantBack(s, s.variants[id], l.variants[id], x.variants[id], ph);
      assert ChoiceOk(s.options, s.variants[id].choice);
    }
  }

  lemma MovedMidway(s: Product, p: Product, l: Product, x: Product, ph: Phase, d: nat, added: Maybe<Name>, to: Name)
    requires d < |s.options| == |l.options| == |x.options| == |p.options| && d == ph.d != ph.r
    requires OptionBack(s.options[d], l.options[d], x.options[d], LiveIds(ph, d))
    requires VariantsBack(s, l, x, ph)
    requires StandsOrMoved(s.options[d], p.options[d], l.options[d], added, to, s.variants, p.variants, l.variants)
    ensures StandsOrMoved(s.options[d], p.options[d], x.options[d], added, to, s.variants, p.variants, x.variants)
  {
    forall id | id in s.variants
      ensures id in p.variants
        && StandsAt(s.options[d].name, s.variants[id].choice, p.variants[id].choice, x.variants[id].choice, to)
    {
      assert VariantBack(s, s.variants[id], l.variants[id], x.variants[id], ph);
    }
  }

  lemma OptionMidway(s: Product, p: Product, l: Product, listing: seq<Id>, r: int, d: int, added: Maybe<Name>, to: Name,
                     x: Product, ph: Phase, i: nat)
    requires Aligned(s, p, l, listing) && Aligned(s, p, x, listing) && i < |s.options| && r != d
    requires OptionRecoverable(s, p, l, i, r, d, added, to)
    requires ph.r == r && ph.d == d && PartlyBack(s, l, x, ph)
    ensures OptionRecoverable(s, p, x, i, r, d, added, to)
  {
    var so, po, lo, xo, t := s.options[i], p.options[i], l.options[i], x.options[i], x.(title := s.title);
    KnownOptions(s, p, l, listing, i);
    KnownOptions(s, p, x, listing, i);
    assert OptionBack(so, lo, t.options[i], LiveIds(ph, i));
    assert VariantsBack(s, l, x, ph);
    if i == r {
      if LiveIds(ph, i) {
        LiveReadsApart(so, po, lo, xo);
      } else {
        BackReadsApart(so, po, xo);
      }
    }
    if i == d {
      MovedMidway(s, p, l, x, ph, i, added, to);
    } else {
      UnmovedMidway(s, l, x, ph, i);
    }
  }

  lemma MidwayIsRecoverable(s: Product, p: Product, l: Product, listing: seq<Id>, r: int, d: int, added: Maybe<Name>, to: Name,
                            x: Product)
    requires Recoverable(s, p, l, listing, r, d, added, to) && Midway(s, l, r, d, x)
    ensures Recoverable(s, p, x, listing, r, d, added, to)
  {
    var ph: Phase :| ph.r == r && ph.d == d && PartlyBack(s, l, x, ph);
    MidwayIsAligned(s, p, l, listing, x, ph);
    forall i | 0 <= i < |s.options| ensures OptionRecoverable(s, p, x, i, r, d, added, to) {
      assert OptionRecoverable(s, p, l, i, r, d, added, to);
      OptionMidway(s, p, l, listing, r, d, added, to, x, ph, i);
    }
  }

  // ---- The states of a rollback -------------------------------------------------------------

  /** One edit of a rollback, leading to a state on the way. */
  ghost function StepMidway(s: Product, l: Product, r: int, d: int): (Product, Op, Product) -> bool {
    (a, op, b) => OneStep(a, op, b) && Midway(s, l, r, d, b)
  }

  lemma AtMostOneMidway(s: Product, l: Product, r: int, d: int, a: Product, ops: seq<Op>, b: Product)
    requires Goes(a, ops, b) && |ops| <= 1 && Midway(s, l, r, d, b)
    ensures Gets(StepMidway(s, l, r, d), a, ops, b)
  {
    var states :| Ends(OneStep, states, ops, a, b);
    if |ops| == 0 {
      GetsNowhere(StepMidway(s, l, r, d), a);
    } else {
      assert OneStep(states[0], ops[0], states[1]);
      GetsOne(StepMidway(s, l, r, d), a, ops[0], b);
      assert ops == [ops[0]];
    }
  }

  lemma OneOfEach(s: Product, p: Product, l: Product, listing: seq<Id>, r: int, d: int, added: Maybe<Name>, to: Name)
    requires Recoverable(s, p, l, listing, r, d, added, to)
    ensures |RenameOps(s, l)| <= 1 && |MoveOps(s, p, l, listing)| <= 1 && |DeleteOps(s, p, l, listing)| <= 1
  {
    OthersStand(s, p, l, listing, r, d, added, to);
    RenameOpsOnlyAt(s, p, l, listing, r);
    MoveOpsOnlyAt(s, p, l, listing, d);
    if 0 <= d < |s.options| {
      OneDelete(s, p, l, listing, r, d, added, to);
    }
  }

  lemma OneDelete(s: Product, p: Product, l: Product, listing: seq<Id>, r: int, d: int, added: Maybe<Name>, to: Name)
    requires Recoverable(s, p, l, listing, r, d, added, to) && 0 <= d < |s.options|
    ensures |DeletesAt(s, p, l, listing, d)| <= 1
  {
    KnownOptions(s, p, l, listing, d);
    AlignedIsComplete(s, p, l, listing, d);
    assert OptionRecoverable(s, p, l, d, r, d, added, to);
    DeletesExactly(s.options[d], l.options[d], added);
  }

  /** The two ordering edits, one after the other. */
  lemma OrdersMidway(s: Product, l: Product, r: int, d: int, t: Product, x: Product)
    requires WellFormed(t) && AllKnown(t) && WellFormed(x) && AllKnown(x) && Alike(t, x) && Alike(x, t)
    requires AllKnown(s) && AllKnown(l) && Midway(s, l, r, d, t)
    ensures Gets(StepMidway(s, l, r, d), x, [ReorderValues(OrdersOf(t)), RestorePositions(VariantOrder(t.variants))], t)
  {
    var reorder, restore := ReorderValues(OrdersOf(t)), RestorePositions(VariantOrder(t.variants));
    var y := ReorderStage(t, x);
    RestoreStage(t, y, restore.order);
    KnownAlike(t, y);
    MidwayAlike(s, l, r, d, t, y);
    AtMostOneMidway(s, l, r, d, x, [reorder], y);
    GoesOne(y, restore);
    AtMostOneMidway(s, l, r, d, y, [restore], t);
    GetsOn(StepMidway(s, l, r, d), x, [reorder], y, [restore], t);
    assert [reorder] + [restore] == [reorder, restore];
  }

  lemma KnownAlike(a: Product, b: Product)
    requires AllKnown(a) && Alike(a, b)
    ensures AllKnown(b)
  {
    forall i | 0 <= i < |b.options| ensures forall n :: n in b.options[i].ids ==> b.options[i].ids[n].Some? {
      assert OptionAlike(a.options[i], b.options[i]);
    }
  }

  lemma LiveIsMidway(s: Product, p: Product, l: Product, listing: seq<Id>, r: int, d: int, added: Maybe<Name>, to: Name)
    requires Recoverable(s, p, l, listing, r, d, added, to)
    ensures Midway(s, l, r, d, l)
  {
    LiveContent(s, p, l, listing, r, d, added, to);
    assert PartlyBack(s, l, l, Phase(r, d, false, false, false));
  }

  lemma OrdersStageMidway(s: Product, l: Product, r: int, d: int, x: Product)
    requires WellFormed(s) && AllKnown(s) && AllKnown(l) && Back(s, l, x, Phase(r, d, true, true, true))
    ensures Gets(StepMidway(s, l, r, d), x, [ReorderValues(OrdersOf(s)), RestorePositions(VariantOrder(s.variants))],
                 WithPrices(s, l))
  {
    var t := WithPrices(s, l);
    WithPricesForm(s, l);
    FullyBack(s, l, x, r, d);
    BackIsMidway(s, l, x, Phase(r, d, true, true, true));
    MidwayAlike(s, l, r, d, x, t);
    assert OrdersOf(t) == OrdersOf(s);
    OrdersMidway(s, l, r, d, t, x);
  }

  lemma RollbackIsMidway(s: Product, p: Product, l: Product, listing: seq<Id>, r: int, d: int, added: Maybe<Name>, to: Name)
    requires Recoverable(s, p, l, listing, r, d, added, to)
    ensures Gets(StepMidway(s, l, r, d), l, RollbackOps(s, p, l, listing), WithPrices(s, l))
  {
    var step, t := StepMidway(s, l, r, d), WithPrices(s, l);
    var x0 := TitleStage(s, p, l, listing, r, d, added, to);
    var x1 := RenameStage(s, p, l, listing, r, d, added, to, x0);
    var x2 := MoveStage(s, p, l, listing, r, d, added, to, x1);
    var x3 := DeleteStage(s, p, l, listing, r, d, added, to, x2);
    OneOfEach(s, p, l, listing, r, d, added, to);
    BackIsMidway(s, l, x0, Phase(r, d, false, false, false));
    BackIsMidway(s, l, x1, Phase(r, d, true, false, false));
    BackIsMidway(s, l, x2, Phase(r, d, true, true, false));
    BackIsMidway(s, l, x3, Phase(r, d, true, true, true));
    var a, b, c, e := TitleBack(s, l), RenameOps(s, l), MoveOps(s, p, l, listing), DeleteOps(s, p, l, listing);
    AtMostOneMidway(s, l, r, d, l, a, x0);
    AtMostOneMidway(s, l, r, d, x0, b, x1);
    AtMostOneMidway(s, l, r, d, x1, c, x2);
    AtMostOneMidway(s, l, r, d, x2, e, x3);
    OrdersStageMidway(s, l, r, d, x3);
    var orders := [ReorderValues(OrdersOf(s)), RestorePositions(VariantOrder(s.variants))];
    GetsOn(step, l, a, x0, b, x1);
    GetsOn(step, l, a + b, x1, c, x2);
    GetsOn(step, l, a + b + c, x2, e, x3);
    GetsOn(step, l, a + b + c + e, x3, orders, t);
    assert RollbackOps(s, p, l, listing) == a + b + c + e + orders;
  }

  lemma PromisedMidway(s: Product, l: Product, r: int, d: int, ops: seq<Op>, q: Product, k: nat)
    requires Gets(StepMidway(s, l, r, d), l, ops, q) && Midway(s, l, r, d, l) && k <= |ops|
    ensures RunsAll(l, ops[..k]) && Midway(s, l, r, d, Expected(l, ops[..k])) && Goes(l, ops, q)
  {
    var step := StepMidway(s, l, r, d);
    var states :| Ends(step, states, ops, l, q);
    forall j | 0 <= j < |ops| ensures OneStep(states[j], ops[j], states[j + 1]) {
      assert step(states[j], ops[j], states[j + 1]);
    }
    assert Ends(OneStep, states, ops, l, q);
    StepsAreExpected(states, ops, k);
    if k > 0 {
      assert step(states[k - 1], ops[k - 1], states[k]);
    }
  }

  // ---- The theorem ---------------------------------------------------------------------------

  /** Wherever a rollback is stopped, the state it leaves is recoverable again. */
  lemma StoppedRollbackIsRecoverable(s: Product, p: Product, l: Product, listing: seq<Id>, r: int, d: int,
                                     added: Maybe<Name>, to: Name, trace: seq<Product>, k: nat)
    requires Recoverable(s, p, l, listing, r, d, added, to)
    requires IsRun(l, RollbackOps(s, p, l, listing), trace) && k < |trace|
    ensures Recoverable(s, p, trace[k], listing, r, d, added, to)
  {
    var ops := RollbackOps(s, p, l, listing);
    RollbackIsMidway(s, p, l, listing, r, d, added, to);
    LiveIsMidway(s, p, l, listing, r, d, added, to);
    PromisedMidway(s, l, r, d, ops, WithPrices(s, l), k);
    GoesIsSound(l, ops, WithPrices(s, l));
    EveryPrefixIsAlike(l, ops, trace, k);
    MidwayAlike(s, l, r, d, Expected(l, ops[..k]), trace[k]);
    MidwayIsRecoverable(s, p, l, listing, r, d, added, to, trace[k]);
  }

  /** A rollback planned from `l` ran up to some edit, and prices may have changed since. */
  ghost predicate LeftAt(s: Product, p: Product, listing: seq<Id>, l: Product, trace: seq<Product>, k: nat, m: Product) {
    Aligned(s, p, l, listing) && IsRun(l, RollbackOps(s, p, l, listing), trace) && k < |trace| && Repriced(trace[k], m)
  }

  ghost predicate Attempt(s: Product, p: Product, listing: seq<Id>, l: Product, m: Product) {
    exists trace, k :: LeftAt(s, p, listing, l, trace, k, m)
  }

  /** Rollbacks from the same log, each started from where the one before it was stopped. */
  ghost predicate Attempts(s: Product, p: Product, listing: seq<Id>, lives: seq<Product>) {
    forall i :: 0 <= i < |lives| - 1 ==> Attempt(s, p, listing, lives[i], lives[i + 1])
  }

  lemma {:induction false} AttemptsAreRecoverable(s: Product, p: Product, listing: seq<Id>, lives: seq<Product>, i: nat,
                                                  r: int, d: int, added: Maybe<Name>, to: Name)
    requires Attempts(s, p, listing, lives) && i < |lives| && Recoverable(s, p, lives[0], listing, r, d, added, to)
    ensures Recoverable(s, p, lives[i], listing, r, d, added, to)
  {
    if i > 0 {
      AttemptsAreRecoverable(s, p, listing, lives, i - 1, r, d, added, to);
      assert Attempt(s, p, listing, lives[i - 1], lives[i]);
      var trace, k :| LeftAt(s, p, listing, lives[i - 1], trace, k, lives[i]);
      StoppedRollbackIsRecoverable(s, p, lives[i - 1], listing, r, d, added, to, trace, k);
      RepricedIsRecoverable(s, p, trace[k], lives[i], listing, r, d, added, to);
    }
  }

  /** However often the rollback of a stopped run is itself stopped, planning again from
      the same log reports no problem and leads exactly to the start state. */
  lemma RollbackOfRollbacks(start: Product, ops: seq<Op>, trace: seq<Product>, k: nat, lives: seq<Product>, listing: seq<Id>)
    requires WellFormed(start) && AllKnown(start) && ForwardJob(ops) && Promised(start, ops)
    requires IsRun(start, ops, trace) && k < |trace|
    requires NoDup(listing) && forall id :: id in listing <==> id in start.variants
    requires |lives| > 0 && Repriced(trace[k], lives[0]) && Attempts(start, Expected(start, ops), listing, lives)
    ensures var promised, live := Expected(start, ops), lives[|lives| - 1];
      && NoProblem(start, promised, live, listing)
      && Goes(live, RollbackOps(start, promised, live, listing), WithPrices(start, live))
  {
    var p, i := Expected(start, ops), |lives| - 1;
    var r, d, added, to := PrefixIsRecoverable(start, ops, trace, k, listing);
    RepricedIsRecoverable(start, p, trace[k], lives[0], listing, r, d, added, to);
    AttemptsAreRecoverable(start, p, listing, lives, i, r, d, added, to);
    RecoverableRollsBack(start, p, lives[i], listing, r, d, added, to);
    RollbackIsPlanned(start, p, lives[i], listing, r, d, added, to);
  }
}
