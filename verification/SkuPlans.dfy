/** The SKU load's plan: each row of the sheet resolved to a variant of the store, the hard
    checks on the targets, and what is planned once they were made. */
module SkuPlans {
  import opened Lists
  import opened Catalogue
  import opened Skus

  // ---- build_plan -----------------------------------------------------------------------------

  /** A sheet row, once the owner's rules were applied to it. */
  datatype Row =
    | SkippedByDecision
    | Unplannable
    | Wanted(sku: Sku, target: Sku, productTitle: Name, variantTitle: Name)

  /** A variant as the store-wide scan lists it. */
  datatype Scanned = Scanned(id: Id, sku: Maybe<Sku>, title: Name, product: Id, productTitle: Name)

  /** A variant as the later read of its product lists it. */
  datatype Snapped = Snapped(id: Id, sku: Maybe<Sku>)

  datatype Entry = Entry(row: nat, product: Id, variant: Id, live: Maybe<Sku>, target: Sku)

  datatype SkuPlan = SkuPlan(
    resolved: seq<Entry>, products: seq<Id>, anomalies: seq<Maybe<Id>>,
    rewrites: seq<Job>, noops: seq<Entry>, skipped: seq<nat>)

  /** The target has the shape and the reference the store SKU calls for; its code. */
  const fits: (nat, Sku) -> bool
  const code: Sku -> Name

  /** The variants that carry a SKU, in scan order. */
  function Owners(scan: seq<Scanned>, sku: Sku): (r: seq<Scanned>)
    ensures forall v :: v in r <==> v in scan && v.sku == Some(sku)
  {
    if scan == [] then []
    else
      var front := Owners(scan[..|scan| - 1], sku);
      if scan[|scan| - 1].sku == Some(sku) then front + [scan[|scan| - 1]] else front
  }

  // ---- Which variant a row speaks of ------------------------------------------------------------

  ghost predicate IsSole(scan: seq<Scanned>, sku: Sku, i: int) {
    && 0 <= i < |scan| && scan[i].sku == Some(sku)
    && forall k :: 0 <= k < |scan| && k != i ==> scan[k].sku != Some(sku)
  }

  /** `v` is scanned, carries the SKU, and is the only one to carry it. */
  ghost predicate Sole(scan: seq<Scanned>, sku: Sku, v: Scanned) {
    exists i :: IsSole(scan, sku, i) && scan[i] == v
  }

  ghost predicate Nobody(scan: seq<Scanned>, sku: Sku) {
    forall v :: v in scan ==> v.sku != Some(sku)
  }

  /** The one variant with the row's SKU, or with its target when it was applied already;
      never when both are carried. */
  ghost predicate Reaches(scan: seq<Scanned>, row: Row, v: Scanned) {
    row.Wanted? &&
    ((Sole(scan, row.sku, v) && Nobody(scan, row.target)) || (Nobody(scan, row.sku) && Sole(scan, row.target, v)))
  }

  predicate TitlesAgree(row: Row, v: Scanned) {
    row.Wanted? && v.productTitle == row.productTitle && v.title == row.variantTitle
  }

  /** The row speaks of that variant, by SKU and by its titles. */
  ghost predicate Speaks(scan: seq<Scanned>, row: Row, v: Scanned) {
    Reaches(scan, row, v) && TitlesAgree(row, v)
  }

  /** Row `n` speaks of the variant and no row before it does. */
  ghost predicate Resolves(scan: seq<Scanned>, rows: seq<Row>, n: int, v: Scanned) {
    && 0 <= n < |rows| && Speaks(scan, rows[n], v)
    && forall m, w :: 0 <= m < n && Speaks(scan, rows[m], w) ==> w.id != v.id
  }

  lemma {:induction false} OwnersAre(scan: seq<Scanned>, sku: Sku)
    ensures Owners(scan, sku) == [] <==> Nobody(scan, sku)
    ensures |Owners(scan, sku)| == 1 ==> Sole(scan, sku, Owners(scan, sku)[0])
    ensures forall v :: Sole(scan, sku, v) ==> Owners(scan, sku) == [v]
  {
    if scan != [] {
      var front, last := scan[..|scan| - 1], scan[|scan| - 1];
      OwnersAre(front, sku);
      assert forall v :: v in scan <==> v in front || v == last;
      if last.sku == Some(sku) {
        LastIsSole(scan, sku);
      } else {
        FrontIsSole(scan, sku);
      }
    }
  }

  lemma LastIsSole(scan: seq<Scanned>, sku: Sku)
    requires scan != [] && scan[|scan| - 1].sku == Some(sku)
    ensures forall v :: Sole(scan, sku, v) <==> Nobody(scan[..|scan| - 1], sku) && v == scan[|scan| - 1]
  {
    var front, last := scan[..|scan| - 1], |scan| - 1;
    forall v | Sole(scan, sku, v) ensures Nobody(front, sku) && v == scan[last] {
      var i :| IsSole(scan, sku, i) && scan[i] == v;
      assert i == last;
      forall w | w in front ensures w.sku != Some(sku) {
        var k :| 0 <= k < |front| && front[k] == w;
        assert scan[k] == w;
      }
    }
    if Nobody(front, sku) {
      forall k | 0 <= k < |scan| && k != last ensures scan[k].sku != Some(sku) {
        assert front[k] in front;
      }
      assert IsSole(scan, sku, last);
    }
  }

  lemma FrontIsSole(scan: seq<Scanned>, sku: Sku)
    requires scan != [] && scan[|scan| - 1].sku != Some(sku)
    ensures forall v :: Sole(scan, sku, v) <==> Sole(scan[..|scan| - 1], sku, v)
  {
    var front := scan[..|scan| - 1];
    forall v | Sole(scan, sku, v) ensures Sole(front, sku, v) {
      var i :| IsSole(scan, sku, i) && scan[i] == v;
      assert IsSole(front, sku, i);
    }
    forall v | Sole(front, sku, v) ensures Sole(scan, sku, v) {
      var i :| IsSole(front, sku, i) && front[i] == v;
      assert IsSole(scan, sku, i);
    }
  }

  lemma SoleIsOne(scan: seq<Scanned>, sku: Sku, v: Scanned, w: Scanned)
    requires Sole(scan, sku, v)
    ensures v in scan && v.sku == Some(sku) && !Nobody(scan, sku)
    ensures Sole(scan, sku, w) ==> w == v
  {
  }

  lemma ReachesOne(scan: seq<Scanned>, row: Row, v: Scanned, w: Scanned)
    requires Reaches(scan, row, v)
    ensures v in scan && v.sku.Some?
    ensures Reaches(scan, row, w) ==> w == v
  {
    if Sole(scan, row.sku, v) {
      SoleIsOne(scan, row.sku, v, w);
    } else {
      SoleIsOne(scan, row.target, v, w);
    }
  }

  datatype Resolution = Unclear | WrongTitle(variant: Scanned) | Owner(variant: Scanned)

  /** The variant a row reaches, and whether its titles are the row's. */
  method ResolveRow(scan: seq<Scanned>, row: Row) returns (r: Resolution)
    requires row.Wanted?
    ensures r.Unclear? ==> forall v :: !Reaches(scan, row, v)
    ensures !r.Unclear? ==> Reaches(scan, row, r.variant) && (r.Owner? <==> TitlesAgree(row, r.variant))
  {
    var byOld, byNew := Owners(scan, row.sku), Owners(scan, row.target);
    OwnersAre(scan, row.sku);
    OwnersAre(scan, row.target);
    if byOld != [] && byNew != [] {
      return Unclear;
    }
    var owners := if byOld != [] then byOld else byNew;
    if |owners| != 1 {
      return Unclear;
    }
    var v := owners[0];
    if v.productTitle != row.productTitle || v.title != row.variantTitle {
      return WrongTitle(v);
    }
    return Owner(v);
  }

  ghost predicate NewVariants(resolved: seq<Entry>) {
    forall i, k :: 0 <= i < k < |resolved| ==> resolved[i].variant != resolved[k].variant
  }

  ghost predicate DistinctVariants(jobs: seq<Job>) {
    forall i, k :: 0 <= i < k < |jobs| ==> jobs[i].variant != jobs[k].variant
  }

  ghost predicate Covers(resolved: seq<Entry>, v: Id) {
    exists e :: e in resolved && e.variant == v
  }

  ghost predicate ProductsOfEntries(resolved: seq<Entry>, products: seq<Id>) {
    (forall e :: e in resolved ==> e.product in products)
    && forall p :: p in products ==> exists e :: e in resolved && e.product == p
  }

  /** The entry of row `n`, once it is resolved to `v`. */
  function EntryOf(rows: seq<Row>, n: nat, v: Scanned): Entry
    requires n < |rows| && rows[n].Wanted?
  {
    Entry(n, v.product, v.id, v.sku, rows[n].target)
  }

  ghost predicate FromRow(scan: seq<Scanned>, rows: seq<Row>, e: Entry) {
    exists v :: Resolves(scan, rows, e.row, v) && e == EntryOf(rows, e.row, v)
  }

  lemma OneMoreEntry(resolved: seq<Entry>, products: seq<Id>, e: Entry)
    requires NewVariants(resolved) && ProductsOfEntries(resolved, products)
    requires !Covers(resolved, e.variant)
    ensures NewVariants(resolved + [e])
    ensures ProductsOfEntries(resolved + [e], if e.product in products then products else products + [e.product])
    ensures forall v :: Covers(resolved + [e], v) <==> v == e.variant || Covers(resolved, v)
  {
    assert forall i :: 0 <= i < |resolved| ==> resolved[i] in resolved;
    assert e in resolved + [e];
    assert forall f :: f in resolved ==> f in resolved + [e];
  }

  ghost predicate SpeaksAt(scan: seq<Scanned>, rows: seq<Row>, m: int, id: Id) {
    0 <= m < |rows| && exists w :: Speaks(scan, rows[m], w) && w.id == id
  }

  /** An earlier row speaks of the variant. */
  ghost predicate SpokenOf(scan: seq<Scanned>, rows: seq<Row>, n: nat, id: Id) {
    exists m :: 0 <= m < n && SpeaksAt(scan, rows, m, id)
  }

  /** A row's anomaly names the product of the variant it reaches, if it reaches one. */
  ghost predicate NamedAs(scan: seq<Scanned>, row: Row, product: Maybe<Id>) {
    match product
    case Some(p) => exists v :: Reaches(scan, row, v) && v.product == p
    case None => forall v :: !Reaches(scan, row, v)
  }

  ghost predicate Unresolved(scan: seq<Scanned>, rows: seq<Row>, n: int) {
    0 <= n < |rows| && !rows[n].SkippedByDecision? && forall v :: !Resolves(scan, rows, n, v)
  }

  /** What the pass says of the first `n` rows: skipped by decision, resolved to the variant
      they speak of if no row before does, or named with the product they reach. */
  ghost predicate RowsTold(scan: seq<Scanned>, rows: seq<Row>, n: nat, resolved: seq<Entry>, skipped: seq<nat>,
                           named: seq<nat>, anomalies: seq<Maybe<Id>>) {
    && (forall m :: m in skipped <==> 0 <= m < n && m < |rows| && rows[m].SkippedByDecision?)
    && (forall m :: m in named <==> 0 <= m < n && Unresolved(scan, rows, m))
    && |named| == |anomalies|
    && (forall k :: 0 <= k < |named| ==> named[k] < |rows| && NamedAs(scan, rows[named[k]], anomalies[k]))
    && (forall e :: e in resolved ==> e.row < n && FromRow(scan, rows, e))
    && (forall m, v :: 0 <= m < n && Resolves(scan, rows, m, v) ==> EntryOf(rows, m, v) in resolved)
  }

  lemma ResolvesExactly(scan: seq<Scanned>, rows: seq<Row>, n: nat, v: Scanned)
    requires n < |rows|
    ensures Resolves(scan, rows, n, v) <==> Speaks(scan, rows[n], v) && !SpokenOf(scan, rows, n, v.id)
  {
    if SpokenOf(scan, rows, n, v.id) {
      var m :| 0 <= m < n && SpeaksAt(scan, rows, m, v.id);
      var w :| Speaks(scan, rows[m], w) && w.id == v.id;
      assert !Resolves(scan, rows, n, v);
    }
    if Speaks(scan, rows[n], v) && !SpokenOf(scan, rows, n, v.id) {
      forall m, w | 0 <= m < n && Speaks(scan, rows[m], w) ensures w.id != v.id {
        assert SpeaksAt(scan, rows, m, w.id);
      }
    }
  }

  lemma TellSkipped(scan: seq<Scanned>, rows: seq<Row>, n: nat, resolved: seq<Entry>, skipped: seq<nat>,
                    named: seq<nat>, anomalies: seq<Maybe<Id>>)
    requires n < |rows| && RowsTold(scan, rows, n, resolved, skipped, named, anomalies) && rows[n].SkippedByDecision?
    ensures RowsTold(scan, rows, n + 1, resolved, skipped + [n], named, anomalies)
    ensures forall id :: SpokenOf(scan, rows, n + 1, id) <==> SpokenOf(scan, rows, n, id)
  {
  }

  lemma TellNamed(scan: seq<Scanned>, rows: seq<Row>, n: nat, resolved: seq<Entry>, skipped: seq<nat>,
                  named: seq<nat>, anomalies: seq<Maybe<Id>>, product: Maybe<Id>)
    requires n < |rows| && RowsTold(scan, rows, n, resolved, skipped, named, anomalies)
    requires Unresolved(scan, rows, n) && NamedAs(scan, rows[n], product)
    ensures RowsTold(scan, rows, n + 1, resolved, skipped, named + [n], anomalies + [product])
    ensures forall id :: SpokenOf(scan, rows, n + 1, id) <==> SpokenOf(scan, rows, n, id)
  {
    forall id | SpokenOf(scan, rows, n + 1, id) ensures SpokenOf(scan, rows, n, id) {
      var m :| 0 <= m < n + 1 && SpeaksAt(scan, rows, m, id);
      if m == n {
        var w :| Speaks(scan, rows[m], w) && w.id == id;
        ResolvesExactly(scan, rows, n, w);
      }
    }
  }

  lemma TellResolved(scan: seq<Scanned>, rows: seq<Row>, n: nat, resolved: seq<Entry>, skipped: seq<nat>,
                     named: seq<nat>, anomalies: seq<Maybe<Id>>, v: Scanned)
    requires n < |rows| && RowsTold(scan, rows, n, resolved, skipped, named, anomalies) && Resolves(scan, rows, n, v)
    ensures RowsTold(scan, rows, n + 1, resolved + [EntryOf(rows, n, v)], skipped, named, anomalies)
    ensures forall id :: SpokenOf(scan, rows, n + 1, id) <==> id == v.id || SpokenOf(scan, rows, n, id)
  {
    var e := EntryOf(rows, n, v);
    assert FromRow(scan, rows, e);
    forall w | Reaches(scan, rows[n], w) ensures w == v {
      ReachesOne(scan, rows[n], v, w);
    }
    assert e in resolved + [e];
    SpokenOneMore(scan, rows, n, v);
  }

  lemma SpokenOneMore(scan: seq<Scanned>, rows: seq<Row>, n: nat, v: Scanned)
    requires n < |rows| && Speaks(scan, rows[n], v)
    ensures forall id :: SpokenOf(scan, rows, n + 1, id) <==> id == v.id || SpokenOf(scan, rows, n, id)
  {
    forall id | SpeaksAt(scan, rows, n, id) ensures id == v.id {
      var w :| Speaks(scan, rows[n], w) && w.id == id;
      ReachesOne(scan, rows[n], v, w);
    }
    assert SpeaksAt(scan, rows, n, v.id);
    forall id ensures SpokenOf(scan, rows, n + 1, id) <==> SpeaksAt(scan, rows, n, id) || SpokenOf(scan, rows, n, id) {
      OneRowMore(scan, rows, n, id);
    }
  }

  lemma OneRowMore(scan: seq<Scanned>, rows: seq<Row>, n: nat, id: Id)
    ensures SpokenOf(scan, rows, n + 1, id) <==> SpeaksAt(scan, rows, n, id) || SpokenOf(scan, rows, n, id)
  {
  }

  /** Variants covered so far are those some row spoke of. */
  ghost predicate IsCovered(scan: seq<Scanned>, rows: seq<Row>, n: nat, covered: set<Id>, resolved: seq<Entry>) {
    (forall id :: id in covered <==> SpokenOf(scan, rows, n, id)) && (forall id :: id in covered <==> Covers(resolved, id))
  }

  /** One row of the sheet: skipped by decision, resolved, or an anomaly. */
  method PlaceRow(scan: seq<Scanned>, rows: seq<Row>, n: nat, covered: set<Id>) returns (entry: Maybe<Entry>, product: Maybe<Id>)
    requires n < |rows| && !rows[n].SkippedByDecision?
    requires forall id :: id in covered <==> SpokenOf(scan, rows, n, id)
    ensures entry.Some? ==> entry.value.row == n && entry.value.variant !in covered && FromRow(scan, rows, entry.value)
    ensures entry.None? ==> Unresolved(scan, rows, n) && NamedAs(scan, rows[n], product)
  {
    if rows[n].Unplannable? {
      return None, None;
    }
    var owner := ResolveRow(scan, rows[n]);
    if owner.Unclear? {
      return None, None;
    }
    var v := owner.variant;
    forall w | Reaches(scan, rows[n], w) ensures w == v {
      ReachesOne(scan, rows[n], v, w);
    }
    ResolvesExactly(scan, rows, n, v);
    if owner.WrongTitle? || v.id in covered {
      return None, Some(v.product);
    }
    return Some(EntryOf(rows, n, v)), None;
  }

  /** The pass over the rows: each is skipped by decision, resolved to the variant it speaks
      of unless a row before it does, or named with the product it reaches. */
  method ResolveRows(scan: seq<Scanned>, rows: seq<Row>)
    returns (resolved: seq<Entry>, products: seq<Id>, skipped: seq<nat>, named: seq<nat>, anomalies: seq<Maybe<Id>>)
    ensures RowsTold(scan, rows, |rows|, resolved, skipped, named, anomalies)
    ensures NewVariants(resolved) && ProductsOfEntries(resolved, products) && NoDup(products)
    ensures |resolved| + |skipped| + |named| == |rows|
  {
    resolved, products, skipped, named, anomalies := [], [], [], [], [];
    var covered: set<Id> := {};
    for n := 0 to |rows|
      invariant RowsTold(scan, rows, n, resolved, skipped, named, anomalies)
      invariant NewVariants(resolved) && ProductsOfEntries(resolved, products) && NoDup(products)
      invariant IsCovered(scan, rows, n, covered, resolved)
      invariant |resolved| + |skipped| + |named| == n
    {
      if rows[n].SkippedByDecision? {
        TellSkipped(scan, rows, n, resolved, skipped, named, anomalies);
        skipped := skipped + [n];
      } else {
        var entry, product := PlaceRow(scan, rows, n, covered);
        match entry
        case None =>
          TellNamed(scan, rows, n, resolved, skipped, named, anomalies, product);
          named, anomalies := named + [n], anomalies + [product];
        case Some(e) =>
          ghost var v :| Resolves(scan, rows, n, v) && e == EntryOf(rows, n, v);
          TellResolved(scan, rows, n, resolved, skipped, named, anomalies, v);
          OneMoreEntry(resolved, products, e);
          covered := covered + {e.variant};
          products := if e.product in products then products else products + [e.product];
          resolved := resolved + [e];
      }
    }
  }

  ghost predicate TargetsApart(resolved: seq<Entry>) {
    forall i, k :: 0 <= i < k < |resolved| ==> resolved[i].target != resolved[k].target
  }

  /** No scanned variant but its own carries the target. */
  ghost predicate TargetFree(scan: seq<Scanned>, e: Entry) {
    forall v :: v in scan && v.id != e.variant ==> v.sku != Some(e.target)
  }

  /** The entry's target is planned once, on no other variant of the store, of the right
      shape, and of the same code as its product's other targets. */
  ghost predicate TargetOk(scan: seq<Scanned>, resolved: seq<Entry>, i: nat)
    requires i < |resolved|
  {
    && TargetAlone(resolved, i) && TargetFree(scan, resolved[i]) && fits(resolved[i].row, resolved[i].target)
    && forall k :: 0 <= k < |resolved| ==> SameCode(resolved[i], resolved[k])
  }

  ghost predicate TargetBlocks(scan: seq<Scanned>, resolved: seq<Entry>, n: nat, p: Id)
    requires n <= |resolved|
  {
    exists i :: 0 <= i < n && resolved[i].product == p && !TargetOk(scan, resolved, i)
  }

  method CheckTarget(scan: seq<Scanned>, resolved: seq<Entry>, i: nat) returns (ok: bool)
    requires i < |resolved|
    ensures ok <==> TargetOk(scan, resolved, i)
  {
    var e := resolved[i];
    var twice := exists k | 0 <= k < |resolved| :: k != i && resolved[k].target == e.target;
    var taken := exists k | 0 <= k < |scan| :: scan[k].id != e.variant && scan[k].sku == Some(e.target);
    var codes := exists k | 0 <= k < |resolved| :: !SameCode(e, resolved[k]);
    assert twice <==> !TargetAlone(resolved, i);
    assert taken <==> !TargetFree(scan, e);
    ok := !twice && !taken && fits(e.row, e.target) && !codes;
  }

  /** The hard checks on the targets name exactly the products with a wrong one. */
  method CheckTargets(scan: seq<Scanned>, resolved: seq<Entry>) returns (anomalies: seq<Maybe<Id>>)
    ensures None !in anomalies
    ensures forall p :: Some(p) in anomalies <==> TargetBlocks(scan, resolved, |resolved|, p)
  {
    anomalies := [];
    for i := 0 to |resolved|
      invariant None !in anomalies
      invariant forall p :: Some(p) in anomalies <==> TargetBlocks(scan, resolved, i, p)
    {
      var ok := CheckTarget(scan, resolved, i);
      if !ok {
        anomalies := anomalies + [Some(resolved[i].product)];
      }
    }
  }

  predicate SameCode(a: Entry, b: Entry) {
    a.product == b.product ==> code(a.target) == code(b.target)
  }

  ghost predicate OneCode(resolved: seq<Entry>) {
    forall a, k :: 0 <= a < |resolved| && 0 <= k < |resolved| ==> SameCode(resolved[a], resolved[k])
  }

  ghost predicate TargetAlone(resolved: seq<Entry>, i: nat)
    requires i < |resolved|
  {
    forall k :: 0 <= k < |resolved| && k != i ==> resolved[k].target != resolved[i].target
  }

  lemma AloneIsApart(resolved: seq<Entry>)
    ensures TargetsApart(resolved) <==> forall a :: 0 <= a < |resolved| ==> TargetAlone(resolved, a)
  {
    if forall a :: 0 <= a < |resolved| ==> TargetAlone(resolved, a) {
      forall i, k | 0 <= i < k < |resolved| ensures resolved[i].target != resolved[k].target {
        assert TargetAlone(resolved, i);
      }
    }
  }

  ghost predicate AllCovered(snapshots: Id -> seq<Snapped>, resolved: seq<Entry>, products: seq<Id>) {
    forall p, v :: p in products && v in snapshots(p) ==> Covers(resolved, v.id)
  }

  /** A variant of the product that no row reached. */
  ghost predicate Uncovered(snapshots: Id -> seq<Snapped>, resolved: seq<Entry>, p: Id, v: Id) {
    !Covers(resolved, v) && exists x :: x in snapshots(p) && x.id == v
  }

  ghost predicate LacksRows(snapshots: Id -> seq<Snapped>, resolved: seq<Entry>, p: Id) {
    exists v :: Uncovered(snapshots, resolved, p, v)
  }

  /** The variants of one product that no row reached, in its order. */
  method UncoveredOf(variants: seq<Snapped>, resolved: seq<Entry>) returns (gaps: seq<Id>)
    ensures forall v :: v in gaps <==> !Covers(resolved, v) && exists x :: x in variants && x.id == v
  {
    gaps := [];
    for k := 0 to |variants|
      invariant forall v :: v in gaps <==> !Covers(resolved, v) && exists x :: x in variants[..k] && x.id == v
    {
      var v := variants[k].id;
      assert variants[..k + 1] == variants[..k] + [variants[k]];
      assert variants[k] in variants[..k + 1];
      var has := exists j | 0 <= j < |resolved| :: resolved[j].variant == v;
      assert has <==> Covers(resolved, v);
      if !has {
        gaps := gaps + [v];
      }
    }
    assert variants[..|variants|] == variants;
  }

  /** Coverage: the variants of the touched products without a row, and their products,
      named exactly. */
  method CheckCoverage(snapshots: Id -> seq<Snapped>, resolved: seq<Entry>, products: seq<Id>)
    returns (anomalies: seq<Maybe<Id>>, uncovered: seq<Id>)
    ensures forall v :: v in uncovered <==> exists p :: p in products && Uncovered(snapshots, resolved, p, v)
    ensures forall p :: Some(p) in anomalies <==> p in products && LacksRows(snapshots, resolved, p)
    ensures None !in anomalies && (anomalies == [] <==> AllCovered(snapshots, resolved, products))
  {
    anomalies, uncovered := [], [];
    for i := 0 to |products|
      invariant forall v :: v in uncovered <==> exists p :: p in products[..i] && Uncovered(snapshots, resolved, p, v)
      invariant forall p :: Some(p) in anomalies <==> p in products[..i] && LacksRows(snapshots, resolved, p)
      invariant None !in anomalies
    {
      var p := products[i];
      assert products[..i + 1] == products[..i] + [p];
      var gaps := UncoveredOf(snapshots(p), resolved);
      assert forall v :: v in gaps <==> Uncovered(snapshots, resolved, p, v);
      if gaps != [] {
        assert gaps[0] in gaps;
        anomalies := anomalies + [Some(p)];
      }
      uncovered := uncovered + gaps;
    }
    assert products[..|products|] == products;
    CoveredExactly(snapshots, resolved, products, anomalies);
  }

  lemma CoveredExactly(snapshots: Id -> seq<Snapped>, resolved: seq<Entry>, products: seq<Id>, anomalies: seq<Maybe<Id>>)
    requires None !in anomalies
    requires forall p :: Some(p) in anomalies <==> p in products && LacksRows(snapshots, resolved, p)
    ensures anomalies == [] <==> AllCovered(snapshots, resolved, products)
  {
    if anomalies != [] {
      assert anomalies[0] in anomalies && anomalies[0].Some?;
      var v :| Uncovered(snapshots, resolved, anomalies[0].value, v);
      var x :| x in snapshots(anomalies[0].value) && x.id == v;
    } else {
      forall p, x | p in products && x in snapshots(p) ensures Covers(resolved, x.id) {
        assert Some(p) !in anomalies;
        assert !Uncovered(snapshots, resolved, p, x.id);
      }
    }
  }

  // ---- The plan, once everything was checked --------------------------------------------------

  /** The SKU the read of the touched products shows for a variant. */
  function SnapSku(snapshots: Id -> seq<Snapped>, products: seq<Id>, v: Id): Maybe<Sku> {
    if products == [] then None
    else
      var here := SkuIn(snapshots(products[|products| - 1]), v);
      if here.Some? then here.value else SnapSku(snapshots, products[..|products| - 1], v)
  }

  function SkuIn(snap: seq<Snapped>, v: Id): Maybe<Maybe<Sku>> {
    if snap == [] then None
    else if snap[|snap| - 1].id == v then Some(snap[|snap| - 1].sku)
    else SkuIn(snap[..|snap| - 1], v)
  }

  function JobFor(snapshots: Id -> seq<Snapped>, products: seq<Id>, e: Entry): Job {
    Job(e.product, e.variant, SnapSku(snapshots, products, e.variant), Some(e.target))
  }

  /** The SKU moved between the scan and the later read, and not to its target. */
  ghost predicate MovedSince(snapshots: Id -> seq<Snapped>, products: seq<Id>, e: Entry) {
    SnapSku(snapshots, products, e.variant) != Some(e.target) && SnapSku(snapshots, products, e.variant) != e.live
  }

  /** The entry is done already, or planned with the SKU both reads agree on. */
  ghost predicate Settled(snapshots: Id -> seq<Snapped>, plan: SkuPlan, e: Entry) {
    var was := SnapSku(snapshots, plan.products, e.variant);
    if was == Some(e.target) then e in plan.noops
    else JobFor(snapshots, plan.products, e) in plan.rewrites && was == e.live
  }

  /** Every row is accounted for, every variant of a touched product has exactly one
      entry, targets are distinct and free, and every entry is settled. */
  ghost predicate Complete(scan: seq<Scanned>, rows: seq<Row>, snapshots: Id -> seq<Snapped>, plan: SkuPlan) {
    && (forall n :: 0 <= n < |rows| ==> rows[n].SkippedByDecision? || HasEntry(plan.resolved, n))
    && (forall p, v :: p in plan.products && v in snapshots(p) ==> Once(plan.resolved, v.id))
    && TargetsApart(plan.resolved) && OneCode(plan.resolved)
    && (forall e :: e in plan.resolved ==> EntryOk(scan, rows, snapshots, plan, e))
    && (forall u :: u in plan.rewrites ==> IsRewrite(snapshots, plan, u))
    && DistinctVariants(plan.rewrites)
  }

  ghost predicate HasEntry(resolved: seq<Entry>, n: nat) {
    exists e :: e in resolved && e.row == n
  }

  ghost predicate EntryOk(scan: seq<Scanned>, rows: seq<Row>, snapshots: Id -> seq<Snapped>, plan: SkuPlan, e: Entry) {
    && FromRow(scan, rows, e) && e.product in plan.products && TargetFree(scan, e) && fits(e.row, e.target)
    && Settled(snapshots, plan, e)
  }

  ghost predicate IsRewrite(snapshots: Id -> seq<Snapped>, plan: SkuPlan, u: Job) {
    u.from != u.to && exists e :: e in plan.resolved && u == JobFor(snapshots, plan.products, e)
  }

  ghost predicate Once(resolved: seq<Entry>, v: Id) {
    exists i :: 0 <= i < |resolved| && resolved[i].variant == v
      && forall k :: 0 <= k < |resolved| && k != i ==> resolved[k].variant != v
  }

  /** The rewrites and the entries already done, for the entries that are `open`. */
  ghost predicate Splits(snapshots: Id -> seq<Snapped>, products: seq<Id>, entries: seq<Entry>, open: Id -> bool,
                         rewrites: seq<Job>, noops: seq<Entry>) {
    && (forall u :: u in rewrites <==>
          exists e :: e in entries && open(e.product) && SnapSku(snapshots, products, e.variant) != Some(e.target)
            && !MovedSince(snapshots, products, e) && u == JobFor(snapshots, products, e))
    && (forall e :: e in noops <==>
          e in entries && open(e.product) && SnapSku(snapshots, products, e.variant) == Some(e.target))
    && DistinctVariants(rewrites)
  }

  /** Each entry of a product not blocked: done already, planned, or moved since the scan. */
  method SplitEntries(snapshots: Id -> seq<Snapped>, resolved: seq<Entry>, products: seq<Id>, blocked: set<Id>)
    returns (rewrites: seq<Job>, noops: seq<Entry>, late: seq<Id>)
    requires NewVariants(resolved)
    ensures Splits(snapshots, products, resolved, p => p !in blocked, rewrites, noops)
    ensures forall p :: p in late <==>
      p !in blocked && exists e :: e in resolved && e.product == p && MovedSince(snapshots, products, e)
  {
    rewrites, noops, late := [], [], [];
    var open := p => p !in blocked;
    for i := 0 to |resolved|
      invariant Splits(snapshots, products, resolved[..i], open, rewrites, noops)
      invariant forall p :: p in late <==>
        p !in blocked && exists e :: e in resolved[..i] && e.product == p && MovedSince(snapshots, products, e)
    {
      var e := resolved[i];
      assert resolved[..i + 1] == resolved[..i] + [e];
      if e.product in blocked { continue; }
      var was := SnapSku(snapshots, products, e.variant);
      if was == Some(e.target) {
        noops := noops + [e];
      } else if was != e.live {
        late := late + [e.product];
      } else {
        forall k | 0 <= k < |rewrites| ensures rewrites[k].variant != e.variant {
          assert rewrites[k] in rewrites;
        }
        rewrites := rewrites + [JobFor(snapshots, products, e)];
      }
    }
    assert resolved[..|resolved|] == resolved;
  }

  function JobsOutside(jobs: seq<Job>, ban: seq<Id>): (r: seq<Job>)
    ensures forall u :: u in r <==> u in jobs && u.product !in ban
  {
    if jobs == [] then []
    else
      var front := JobsOutside(jobs[..|jobs| - 1], ban);
      if jobs[|jobs| - 1].product in ban then front else front + [jobs[|jobs| - 1]]
  }

  function EntriesOutside(entries: seq<Entry>, ban: seq<Id>): (r: seq<Entry>)
    ensures forall e :: e in r <==> e in entries && e.product !in ban
  {
    if entries == [] then []
    else
      var front := EntriesOutside(entries[..|entries| - 1], ban);
      if entries[|entries| - 1].product in ban then front else front + [entries[|entries| - 1]]
  }

  function Blocks(late: seq<Id>): (r: seq<Maybe<Id>>)
    ensures |r| == |late| && forall p :: Some(p) in r <==> p in late
    ensures None !in r
  {
    if late == [] then [] else Blocks(late[..|late| - 1]) + [Some(late[|late| - 1])]
  }

  // ---- What blocks a product ---------------------------------------------------------------------

  /** A row that is not resolved reaches one of its variants. */
  ghost predicate RowBlocks(scan: seq<Scanned>, rows: seq<Row>, p: Id) {
    exists n, v :: Unresolved(scan, rows, n) && Reaches(scan, rows[n], v) && v.product == p
  }

  ghost predicate EarlyBlocks(scan: seq<Scanned>, rows: seq<Row>, snapshots: Id -> seq<Snapped>, resolved: seq<Entry>,
                              products: seq<Id>, p: Id) {
    || RowBlocks(scan, rows, p) || TargetBlocks(scan, resolved, |resolved|, p)
    || (p in products && LacksRows(snapshots, resolved, p))
  }

  /** Some row reaches no variant, or the number of products is not the expected one. */
  ghost predicate BlocksNone(scan: seq<Scanned>, rows: seq<Row>, products: seq<Id>, expected: nat) {
    |products| != expected || exists n :: Unresolved(scan, rows, n) && forall v :: !Reaches(scan, rows[n], v)
  }

  lemma RowAnomalies(scan: seq<Scanned>, rows: seq<Row>, resolved: seq<Entry>, skipped: seq<nat>, named: seq<nat>,
                     anomalies: seq<Maybe<Id>>)
    requires RowsTold(scan, rows, |rows|, resolved, skipped, named, anomalies)
    ensures forall p :: Some(p) in anomalies <==> RowBlocks(scan, rows, p)
    ensures None in anomalies <==> exists n :: Unresolved(scan, rows, n) && forall v :: !Reaches(scan, rows[n], v)
  {
    forall n | Unresolved(scan, rows, n)
      ensures exists k :: 0 <= k < |named| && named[k] == n && NamedAs(scan, rows[n], anomalies[k])
    {
      assert n in named;
    }
    forall p | RowBlocks(scan, rows, p) ensures Some(p) in anomalies {
      var n, v :| Unresolved(scan, rows, n) && Reaches(scan, rows[n], v) && v.product == p;
      var k :| 0 <= k < |named| && named[k] == n && NamedAs(scan, rows[n], anomalies[k]);
      assert anomalies[k].Some?;
      var w :| Reaches(scan, rows[n], w) && w.product == anomalies[k].value;
      ReachesOne(scan, rows[n], v, w);
    }
    forall p | Some(p) in anomalies ensures RowBlocks(scan, rows, p) {
      var k :| 0 <= k < |anomalies| && anomalies[k] == Some(p);
      assert named[k] in named;
      var v :| Reaches(scan, rows[named[k]], v) && v.product == p;
    }
    if None in anomalies {
      var k :| 0 <= k < |anomalies| && anomalies[k] == None;
      assert named[k] in named;
      assert Unresolved(scan, rows, named[k]);
    }
  }

  lemma InAny(a: seq<Maybe<Id>>, b: seq<Maybe<Id>>, c: seq<Maybe<Id>>, d: seq<Maybe<Id>>)
    ensures forall x :: x in a + b + c + d <==> x in a || x in b || x in c || x in d
  {
  }

  /** The rows and every hard check on them. */
  method CheckRows(scan: seq<Scanned>, rows: seq<Row>, snapshots: Id -> seq<Snapped>, expected: nat)
    returns (resolved: seq<Entry>, products: seq<Id>, skipped: seq<nat>, anomalies: seq<Maybe<Id>>)
    ensures RowsResolved(scan, rows, resolved, skipped) && ProductsOfEntries(resolved, products) && NoDup(products)
    ensures forall p :: Some(p) in anomalies <==> EarlyBlocks(scan, rows, snapshots, resolved, products, p)
    ensures None in anomalies <==> BlocksNone(scan, rows, products, expected)
  {
    var named, ofRows;
    resolved, products, skipped, named, ofRows := ResolveRows(scan, rows);
    RowAnomalies(scan, rows, resolved, skipped, named, ofRows);
    var targets := CheckTargets(scan, resolved);
    var coverage, _ := CheckCoverage(snapshots, resolved, products);
    var number: seq<Maybe<Id>> := if |products| != expected then [None] else [];
    anomalies := ofRows + targets + number + coverage;
    InAny(ofRows, targets, number, coverage);
  }

  /** Every row that speaks of a variant no earlier row speaks of has its entry, and there
      are no other entries. */
  ghost predicate RowsResolved(scan: seq<Scanned>, rows: seq<Row>, resolved: seq<Entry>, skipped: seq<nat>) {
    && (forall m :: m in skipped <==> 0 <= m < |rows| && rows[m].SkippedByDecision?)
    && (forall e :: e in resolved ==> FromRow(scan, rows, e))
    && (forall m, v :: Resolves(scan, rows, m, v) ==> EntryOf(rows, m, v) in resolved)
    && NewVariants(resolved)
  }

  /** What a plan says, told from the scan, the sheet and the later reads alone. */
  ghost predicate PlanTold(scan: seq<Scanned>, rows: seq<Row>, snapshots: Id -> seq<Snapped>, expected: nat, plan: SkuPlan) {
    && RowsResolved(scan, rows, plan.resolved, plan.skipped)
    && ProductsOfEntries(plan.resolved, plan.products) && NoDup(plan.products)
    && (forall p :: Some(p) in plan.anomalies <==>
          || EarlyBlocks(scan, rows, snapshots, plan.resolved, plan.products, p)
          || exists e :: e in plan.resolved && e.product == p && MovedSince(snapshots, plan.products, e))
    && (None in plan.anomalies <==> BlocksNone(scan, rows, plan.products, expected))
    && Splits(snapshots, plan.products, plan.resolved, p => Some(p) !in plan.anomalies, plan.rewrites, plan.noops)
  }

  lemma SplitsOutside(snapshots: Id -> seq<Snapped>, products: seq<Id>, entries: seq<Entry>, blocked: set<Id>,
                      rewrites: seq<Job>, noops: seq<Entry>, late: seq<Id>, anomalies: seq<Maybe<Id>>)
    requires Splits(snapshots, products, entries, p => p !in blocked, rewrites, noops)
    requires forall p :: Some(p) in anomalies <==> p in blocked || p in late
    ensures Splits(snapshots, products, entries, p => Some(p) !in anomalies, JobsOutside(rewrites, late), EntriesOutside(noops, late))
  {
    OutsideDistinct(rewrites, late);
  }

  lemma {:induction false} OutsideDistinct(jobs: seq<Job>, ban: seq<Id>)
    requires DistinctVariants(jobs)
    ensures DistinctVariants(JobsOutside(jobs, ban))
  {
    if jobs != [] {
      var front := jobs[..|jobs| - 1];
      OutsideDistinct(front, ban);
      var kept := JobsOutside(front, ban);
      forall i | 0 <= i < |kept| ensures kept[i].variant != jobs[|jobs| - 1].variant {
        assert kept[i] in kept;
      }
    }
  }

  /** `build_plan`: exactly which entries the rows come to, which products are blocked, and
      what is planned for the others; the blocked products' part is dropped, also when the
      block comes late. */
  method BuildPlan(scan: seq<Scanned>, rows: seq<Row>, snapshots: Id -> seq<Snapped>, expected: nat) returns (plan: SkuPlan)
    ensures PlanTold(scan, rows, snapshots, expected, plan)
    ensures plan.anomalies == [] ==> Complete(scan, rows, snapshots, plan) && |plan.products| == expected
  {
    var resolved, products, skipped, anomalies := CheckRows(scan, rows, snapshots, expected);
    var blocked := set a | a in anomalies && a.Some? :: a.value;
    assert forall p :: p in blocked <==> Some(p) in anomalies by {
      assert forall p :: Some(p) in anomalies ==> Some(p).value in blocked;
    }
    var rewrites, noops, late := SplitEntries(snapshots, resolved, products, blocked);
    SplitsOutside(snapshots, products, resolved, blocked, rewrites, noops, late, anomalies + Blocks(late));
    plan := SkuPlan(resolved, products, anomalies + Blocks(late), JobsOutside(rewrites, late), EntriesOutside(noops, late),
                    skipped);
    if plan.anomalies == [] {
      CleanIsComplete(scan, rows, snapshots, expected, plan);
    }
  }

  lemma CleanTargets(scan: seq<Scanned>, resolved: seq<Entry>)
    requires forall p :: !TargetBlocks(scan, resolved, |resolved|, p)
    ensures TargetsApart(resolved) && OneCode(resolved)
    ensures forall e :: e in resolved ==> TargetFree(scan, e) && fits(e.row, e.target)
  {
    forall i | 0 <= i < |resolved|
      ensures TargetAlone(resolved, i) && TargetFree(scan, resolved[i]) && fits(resolved[i].row, resolved[i].target)
        && forall k :: 0 <= k < |resolved| ==> SameCode(resolved[i], resolved[k])
    {
      assert !TargetBlocks(scan, resolved, |resolved|, resolved[i].product);
      assert TargetOk(scan, resolved, i);
    }
    AloneIsApart(resolved);
  }

  lemma EveryRowEntered(scan: seq<Scanned>, rows: seq<Row>, resolved: seq<Entry>, skipped: seq<nat>, n: nat)
    requires RowsResolved(scan, rows, resolved, skipped) && n < |rows| && !rows[n].SkippedByDecision?
    requires !Unresolved(scan, rows, n)
    ensures HasEntry(resolved, n)
  {
    var v :| Resolves(scan, rows, n, v);
    assert EntryOf(rows, n, v) in resolved;
  }

  /** No product is named by any check. */
  ghost predicate NothingBlocks(scan: seq<Scanned>, rows: seq<Row>, snapshots: Id -> seq<Snapped>, expected: nat, plan: SkuPlan) {
    && (forall p :: !EarlyBlocks(scan, rows, snapshots, plan.resolved, plan.products, p))
    && (forall e :: e in plan.resolved ==> !MovedSince(snapshots, plan.products, e))
    && !BlocksNone(scan, rows, plan.products, expected)
  }

  lemma CleanBlocksNothing(scan: seq<Scanned>, rows: seq<Row>, snapshots: Id -> seq<Snapped>, expected: nat, plan: SkuPlan)
    requires PlanTold(scan, rows, snapshots, expected, plan)
    ensures plan.anomalies == [] <==> NothingBlocks(scan, rows, snapshots, expected, plan)
  {
    EmptyOrSome(plan.anomalies);
    if plan.anomalies == [] {
      forall e | e in plan.resolved ensures !MovedSince(snapshots, plan.products, e) {
        assert Some(e.product) !in plan.anomalies;
      }
    }
    if NothingBlocks(scan, rows, snapshots, expected, plan) {
      forall a ensures a !in plan.anomalies {
        match a
        case None =>
        case Some(p) =>
      }
    }
  }

  lemma NoRowBlocks(scan: seq<Scanned>, rows: seq<Row>, products: seq<Id>, expected: nat, n: nat)
    requires n < |rows| && (forall p :: !RowBlocks(scan, rows, p)) && !BlocksNone(scan, rows, products, expected)
    ensures !Unresolved(scan, rows, n)
  {
    if Unresolved(scan, rows, n) {
      var v :| Reaches(scan, rows[n], v);
      assert RowBlocks(scan, rows, v.product);
    }
  }

  lemma CoveredOnce(resolved: seq<Entry>, v: Id)
    requires NewVariants(resolved) && Covers(resolved, v)
    ensures Once(resolved, v)
  {
    var e :| e in resolved && e.variant == v;
    var i :| 0 <= i < |resolved| && resolved[i] == e;
  }

  /** A plan without an anomaly is complete. */
  lemma CleanIsComplete(scan: seq<Scanned>, rows: seq<Row>, snapshots: Id -> seq<Snapped>, expected: nat, plan: SkuPlan)
    requires PlanTold(scan, rows, snapshots, expected, plan) && plan.anomalies == []
    ensures Complete(scan, rows, snapshots, plan) && |plan.products| == expected
  {
    CleanBlocksNothing(scan, rows, snapshots, expected, plan);
    forall p
      ensures !RowBlocks(scan, rows, p) && !TargetBlocks(scan, plan.resolved, |plan.resolved|, p)
        && !(p in plan.products && LacksRows(snapshots, plan.resolved, p))
    {
      assert !EarlyBlocks(scan, rows, snapshots, plan.resolved, plan.products, p);
    }
    CleanTargets(scan, plan.resolved);
    forall n | 0 <= n < |rows| && !rows[n].SkippedByDecision? ensures HasEntry(plan.resolved, n) {
      NoRowBlocks(scan, rows, plan.products, expected, n);
      EveryRowEntered(scan, rows, plan.resolved, plan.skipped, n);
    }
    forall p, v | p in plan.products && v in snapshots(p) ensures Once(plan.resolved, v.id) {
      assert !LacksRows(snapshots, plan.resolved, p);
      assert !Uncovered(snapshots, plan.resolved, p, v.id);
      CoveredOnce(plan.resolved, v.id);
    }
    forall e | e in plan.resolved ensures Settled(snapshots, plan, e) {
      assert !MovedSince(snapshots, plan.products, e);
    }
  }
}
