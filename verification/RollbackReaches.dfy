/** From every recoverable live state the rollback plan applies cleanly and reaches
    the start state. */
module RollbackReaches {
  import opened Lists
  import opened Catalogue
  import opened Edits
  import opened Compare
  import opened Executor
  import opened RollbackPlan

  // ---- Applying edits whose guards pass in turn -----------------------------------------------

  /** The edit runs, passes its guard, and leads from `a` to `b`. */
  ghost predicate OneStep(a: Product, op: Op, b: Product) {
    Runs(a, op) && Passes(a, op) && Guarded(op) && Simulate(a, op) == b
  }

  /** From `p` every edit passes its guard at its turn, and the last state is `q`. */
  ghost predicate Goes(p: Product, ops: seq<Op>, q: Product) {
    Gets(OneStep, p, ops, q)
  }

  lemma GoesNowhere(p: Product)
    ensures Goes(p, [], p)
  {
    GetsNowhere(OneStep, p);
  }

  lemma GoesConcat(p: Product, a: seq<Op>, q: Product, b: seq<Op>, z: Product)
    requires Goes(p, a, q) && Goes(q, b, z)
    ensures Goes(p, a + b, z)
  {
    GetsOn(OneStep, p, a, q, b, z);
  }

  lemma GoesOne(p: Product, op: Op)
    requires Runs(p, op) && Passes(p, op) && Guarded(op)
    ensures Goes(p, [op], Simulate(p, op))
  {
    GetsOne(OneStep, p, op, Simulate(p, op));
  }

  lemma {:induction false} StepsAreExpected(states: seq<Product>, ops: seq<Op>, k: nat)
    requires Walk(OneStep, states, ops) && k <= |ops|
    ensures RunsAll(states[0], ops[..k]) && Expected(states[0], ops[..k]) == states[k]
  {
    if k == 0 {
      assert ops[..0] == [];
    } else {
      StepsAreExpected(states, ops, k - 1);
      assert OneStep(states[k - 1], ops[k - 1], states[k]);
      ExpectedStep(states[0], ops, k - 1);
    }
  }

  /** Spelled out: at its turn every edit passes, and the end is what the edits promise. */
  lemma GoesInTurn(p: Product, ops: seq<Op>, q: Product)
    requires Goes(p, ops, q)
    ensures RunsAll(p, ops) && Expected(p, ops) == q
    ensures forall k :: 0 <= k < |ops| ==> RunsAll(p, ops[..k]) && Passes(Expected(p, ops[..k]), ops[k]) && Guarded(ops[k])
  {
    var states :| Ends(OneStep, states, ops, p, q);
    StepsAreExpected(states, ops, |ops|);
    assert ops[..|ops|] == ops;
    forall k | 0 <= k < |ops|
      ensures RunsAll(p, ops[..k]) && Passes(Expected(p, ops[..k]), ops[k]) && Guarded(ops[k])
    {
      StepsAreExpected(states, ops, k);
      assert OneStep(states[k], ops[k], states[k + 1]);
    }
  }

  // ---- Recoverable live states ----------------------------------------------------------------

  /** Every start value still carries its id. */
  ghost predicate StillNamed(so: ProductOption, lo: ProductOption) {
    forall n :: n in so.ids ==> n in lo.ids && lo.ids[n] == so.ids[n]
  }

  /** No value was added, and every variant holds the value (by id) it started with. */
  ghost predicate Unmoved(so: ProductOption, lo: ProductOption, s: map<Id, Variant>, l: map<Id, Variant>) {
    && (forall m :: m in lo.ids ==> exists n :: n in so.ids && so.ids[n] == lo.ids[m])
    && (forall id :: id in s ==> id in l && SameValue(so, lo, s[id], l[id]))
  }

  ghost predicate SameValue(so: ProductOption, lo: ProductOption, s: Variant, l: Variant) {
    && so.name in s.choice && s.choice[so.name] in so.ids
    && lo.name in l.choice && l.choice[lo.name] in lo.ids
    && lo.ids[l.choice[lo.name]] == so.ids[s.choice[so.name]]
  }

  /** A start name reads like a live one only if it is the same value. */
  ghost predicate ReadsApart(so: ProductOption, lo: ProductOption) {
    forall n, m :: n in so.values && m in lo.values && norm(n) == norm(m) ==>
      n in so.ids && m in lo.ids && lo.ids[m] == so.ids[n]
  }

  /** At most one value was added, and variants stand where they started or at `to`. */
  ghost predicate StandsOrMoved(so: ProductOption, po: ProductOption, lo: ProductOption, added: Maybe<Name>, to: Name,
                          s: map<Id, Variant>, p: map<Id, Variant>, l: map<Id, Variant>) {
    && (forall m :: m in lo.ids && m !in so.ids ==> added == Some(m) && m in po.values)
    && (forall id :: id in s ==>
          && id in l && id in p && so.name in s[id].choice && so.name in l[id].choice
          && (l[id].choice[so.name] == s[id].choice[so.name]
              || (l[id].choice[so.name] == to && s[id].choice[so.name] != to
                  && so.name in p[id].choice && p[id].choice[so.name] == to)))
  }

  ghost predicate OptionRecoverable(s: Product, p: Product, l: Product, i: nat, r: int, d: int,
                                    added: Maybe<Name>, to: Name)
    requires i < |s.options| == |p.options| == |l.options|
  {
    var so, po, lo := s.options[i], p.options[i], l.options[i];
    && (i != r ==> StillNamed(so, lo))
    && (i != d ==> Unmoved(so, lo, s.variants, l.variants))
    && (i == r ==> ReadsApart(so, lo) && RenamesOurs(so, po, lo))
    && (i == d ==> StandsOrMoved(so, po, lo, added, to, s.variants, p.variants, l.variants))
  }

  /** What a stopped run leaves: option `r` may be renamed, option `d` (another one)
      may have one more value and variants moved to `to`, everything else stands. */
  ghost predicate Recoverable(s: Product, p: Product, l: Product, listing: seq<Id>,
                              r: int, d: int, added: Maybe<Name>, to: Name) {
    && Aligned(s, p, l, listing) && r != d
    && l.handle == s.handle && (l.title == s.title || l.title == p.title)
    && forall i :: 0 <= i < |s.options| ==> OptionRecoverable(s, p, l, i, r, d, added, to)
  }

  lemma OthersStand(s: Product, p: Product, l: Product, listing: seq<Id>, r: int, d: int, added: Maybe<Name>, to: Name)
    requires Recoverable(s, p, l, listing, r, d, added, to)
    ensures forall i :: 0 <= i < |s.options| && i != r ==> StillNamed(s.options[i], l.options[i])
    ensures forall i :: 0 <= i < |s.options| && i != d ==>
      Unmoved(s.options[i], l.options[i], s.variants, l.variants)
  {
    forall i | 0 <= i < |s.options|
      ensures i != r ==> StillNamed(s.options[i], l.options[i])
      ensures i != d ==> Unmoved(s.options[i], l.options[i], s.variants, l.variants)
    {
      assert OptionRecoverable(s, p, l, i, r, d, added, to);
    }
  }

  // ---- Reading by id -------------------------------------------------------------------------------

  lemma NamedMeans(o: ProductOption, n: Name)
    requires OptionOk(o) && n in o.ids && o.ids[n].Some?
    ensures Named(o, o.ids[n]) == Some(n)
  {
    assert n in Elems(o.values);
  }

  ghost predicate KnownOption(o: ProductOption) {
    OptionOk(o) && forall n :: n in o.ids ==> o.ids[n].Some?
  }

  lemma UntouchedOption(so: ProductOption, lo: ProductOption, s: map<Id, Variant>, l: map<Id, Variant>)
    requires KnownOption(so) && KnownOption(lo) && StillNamed(so, lo) && Unmoved(so, lo, s, l)
    ensures lo.ids == so.ids
    ensures forall id :: id in s ==>
      SameValue(so, lo, s[id], l[id]) && l[id].choice[lo.name] == s[id].choice[so.name]
  {
    forall m | m in lo.ids ensures m in so.ids && lo.ids[m] == so.ids[m] {
      var n :| n in so.ids && so.ids[n] == lo.ids[m];
      assert lo.ids[n] == lo.ids[m];
    }
    assert lo.ids == so.ids;
    forall id | id in s ensures l[id].choice[lo.name] == s[id].choice[so.name] {
      assert SameValue(so, lo, s[id], l[id]);
    }
  }

  // ---- Where the plan has something to do ------------------------------------------------------------

  lemma KnownOptions(s: Product, p: Product, l: Product, listing: seq<Id>, i: nat)
    requires Aligned(s, p, l, listing) && i < |s.options|
    ensures KnownOption(s.options[i]) && KnownOption(l.options[i])
  {
  }

  lemma NoRenames(so: ProductOption, lo: ProductOption)
    requires KnownOption(so) && KnownOption(lo) && StillNamed(so, lo)
    ensures RenamesBack(so, lo, so.values) == []
    ensures forall po: ProductOption :: RenamesOurs(so, po, lo)
  {
    forall n | n in so.values ensures n in so.ids && Named(lo, so.ids[n]) == Some(n) {
      assert n in Elems(so.values);
      NamedMeans(lo, n);
    }
    EmptyOrSome(RenamesBack(so, lo, so.values));
  }

  lemma NoMovesOrDeletes(s: Product, p: Product, l: Product, listing: seq<Id>, i: nat)
    requires Aligned(s, p, l, listing) && i < |s.options|
    requires Unmoved(s.options[i], l.options[i], s.variants, l.variants)
    ensures Complete(s.options[i], l.options[i], s.variants, l.variants, listing)
    ensures MovesBack(s.options[i], l.options[i], s.variants, l.variants, listing) == []
    ensures forall n :: n in l.options[i].values ==> n in l.options[i].ids && l.options[i].ids[n].Some?
    ensures DeletesBack(s.options[i], l.options[i], l.options[i].values) == []
    ensures forall id :: id in listing ==> !Elsewhere(s.options[i], l.options[i], s.variants[id], l.variants[id])
    ensures forall n :: n in l.options[i].values ==> !Extra(s.options[i], l.options[i], n)
  {
    var so, lo := s.options[i], l.options[i];
    AlignedIsComplete(s, p, l, listing, i);
    KnownOptions(s, p, l, listing, i);
    forall id | id in listing ensures !Elsewhere(so, lo, s.variants[id], l.variants[id]) {
      assert SameValue(so, lo, s.variants[id], l.variants[id]);
    }
    forall n | n in lo.values ensures !Extra(so, lo, n) {
    }
    EmptyOrSome(MovesBack(so, lo, s.variants, l.variants, listing));
    EmptyOrSome(DeletesBack(so, lo, lo.values));
  }

  lemma RenameOpsOnlyAt(s: Product, p: Product, l: Product, listing: seq<Id>, r: int)
    requires Aligned(s, p, l, listing)
    requires forall i :: 0 <= i < |s.options| && i != r ==> StillNamed(s.options[i], l.options[i])
    ensures RenameOps(s, l) == if 0 <= r < |s.options| then RenamesAt(s, l, r) else []
  {
    forall i | 0 <= i < |s.options| && i != r ensures RenameParts(s, l)[i] == [] {
      PartsAt(s, p, l, listing, i);
      KnownOptions(s, p, l, listing, i);
      NoRenames(s.options[i], l.options[i]);
    }
    FlattenOnlyAt(RenameParts(s, l), r);
    if 0 <= r < |s.options| {
      PartsAt(s, p, l, listing, r);
    }
  }

  lemma MoveOpsOnlyAt(s: Product, p: Product, l: Product, listing: seq<Id>, d: int)
    requires Aligned(s, p, l, listing)
    requires forall i :: 0 <= i < |s.options| && i != d ==>
      Unmoved(s.options[i], l.options[i], s.variants, l.variants)
    ensures MoveOps(s, p, l, listing) == if 0 <= d < |s.options| then MovesAt(s, p, l, listing, d) else []
    ensures DeleteOps(s, p, l, listing) == if 0 <= d < |s.options| then DeletesAt(s, p, l, listing, d) else []
  {
    forall i | 0 <= i < |s.options| && i != d
      ensures MoveParts(s, p, l, listing)[i] == [] && DeleteParts(s, p, l, listing)[i] == []
    {
      PartsAt(s, p, l, listing, i);
      NoMovesOrDeletes(s, p, l, listing, i);
    }
    FlattenOnlyAt(MoveParts(s, p, l, listing), d);
    FlattenOnlyAt(DeleteParts(s, p, l, listing), d);
    if 0 <= d < |s.options| {
      PartsAt(s, p, l, listing, d);
    }
  }

  lemma {:induction false} DeletesAtMostOne(so: ProductOption, lo: ProductOption, values: seq<Name>, x: Name)
    requires NoDup(values) && forall n :: n in values ==> n in lo.ids && lo.ids[n].Some?
    requires forall n :: n in values && Extra(so, lo, n) ==> n == x
    ensures DeletesBack(so, lo, values) ==
      if x in values && Extra(so, lo, x) then [DeleteValue(so.id, lo.ids[x].value, x)] else []
  {
    if values != [] {
      DeletesAtMostOne(so, lo, values[..|values| - 1], x);
      assert values == values[..|values| - 1] + [values[|values| - 1]];
    }
  }
}
