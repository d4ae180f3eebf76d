/** The SKU load: planned rewrites written product by product, all or nothing, against
    a store whose non-empty SKUs must stay unique; and its rollback. */
module Skus {
  import opened Lists
  import opened Catalogue

  type Sku(==, !new)

  /** A variant as the load reads it. `rest` is everything the load never writes. */
  datatype StoreVariant = StoreVariant(product: Id, sku: Maybe<Sku>, rest: string)

  type Store = map<Id, StoreVariant>

  datatype Job = Job(product: Id, variant: Id, from: Maybe<Sku>, to: Maybe<Sku>)

  /** No two variants of the store carry the same SKU; empty ones aside. */
  ghost predicate Unique(s: Store) {
    forall u, v :: u in s && v in s && u != v && s[u].sku.Some? ==> s[u].sku != s[v].sku
  }

  // ---- validate_plan and collisions ----------------------------------------------------------

  /** A planned target is a plain SKU: not empty, no spaces around it, no dash. */
  const shaped: Sku -> bool

  ghost predicate JobOk(snap: Store, jobs: seq<Job>, k: nat)
    requires k < |jobs|
  {
    var j := jobs[k];
    && j.variant in snap && snap[j.variant].product == j.product && snap[j.variant].sku == j.from
    && j.to.Some? && shaped(j.to.value)
    && (forall i :: 0 <= i < |jobs| && i != k ==> jobs[i].variant != j.variant && jobs[i].to != j.to)
    && (forall v :: v in snap ==> snap[v].sku != j.to)
  }

  /** The plan speaks of the snapshot, names each variant once, and its targets are
      well shaped, distinct and on no variant of the snapshot. */
  ghost predicate ValidPlan(snap: Store, jobs: seq<Job>) {
    forall k :: 0 <= k < |jobs| ==> JobOk(snap, jobs, k)
  }

  /** What else the plan file carries; the load wants none of it. */
  datatype Extras = Extras(anomalies: nat, uncovered: nat, shapeOutliers: nat, blockedProducts: nat,
                           priceUpdates: nat, titleRenames: nat, creates: nat, deletes: nat)

  predicate SkusOnly(extras: Extras) {
    extras == Extras(0, 0, 0, 0, 0, 0, 0, 0)
  }

  datatype Problem = Dirty | Carries | NotInSnapshot(variant: Id) | OldDiffers(variant: Id) | PlannedTwice(variant: Id)
    | Malformed(variant: Id) | TargetTwice(variant: Id) | TargetInUse(variant: Id)

  /** The problems of the plan file as a whole. */
  method CheckExtras(extras: Extras) returns (out: seq<Problem>)
    ensures out == [] <==> SkusOnly(extras)
  {
    out := [];
    if extras.anomalies > 0 { out := out + [Dirty]; }
    if extras.uncovered > 0 { out := out + [Dirty]; }
    if extras.shapeOutliers > 0 { out := out + [Dirty]; }
    if extras.blockedProducts > 0 { out := out + [Dirty]; }
    if extras.priceUpdates > 0 { out := out + [Carries]; }
    if extras.titleRenames > 0 { out := out + [Carries]; }
    if extras.creates > 0 { out := out + [Carries]; }
    if extras.deletes > 0 { out := out + [Carries]; }
  }

  /** `validate_plan`: no problem is found exactly for valid plans of SKU rewrites only. */
  method ValidatePlan(extras: Extras, snap: Store, jobs: seq<Job>) returns (out: seq<Problem>)
    ensures out == [] <==> SkusOnly(extras) && ValidPlan(snap, jobs)
    ensures out == [] <==> extras == Extras(0, 0, 0, 0, 0, 0, 0, 0) && AgreesWith(snap, jobs) && EachOnce(jobs)
  {
    ValidExactly(snap, jobs);
    out := CheckExtras(extras);
    var seen: set<Id> := {};
    for k := 0 to |jobs|
      invariant forall v :: v in seen <==> exists i :: 0 <= i < k && jobs[i].variant == v
      invariant out == [] ==> SkusOnly(extras) && forall i :: 0 <= i < k ==> Checked(snap, jobs, i)
      invariant out != [] ==> !SkusOnly(extras) || !ValidPlan(snap, jobs)
    {
      var j := jobs[k];
      ghost var before := out;
      if j.variant !in snap || snap[j.variant].product != j.product {
        out := out + [NotInSnapshot(j.variant)];
      } else if snap[j.variant].sku != j.from {
        out := out + [OldDiffers(j.variant)];
      }
      if j.variant in seen {
        out := out + [PlannedTwice(j.variant)];
      }
      seen := seen + {j.variant};
      if j.to.None? || !shaped(j.to.value) {
        out := out + [Malformed(j.variant)];
      }
      if exists i | 0 <= i < |jobs| :: i != k && jobs[i].to == j.to {
        out := out + [TargetTwice(j.variant)];
      }
      if j.to.Some? && exists v | v in snap :: snap[v].sku == j.to {
        out := out + [TargetInUse(j.variant)];
      }
      if out != [] && before == [] {
        assert !JobOk(snap, jobs, k);
      }
      if out == [] {
        assert Checked(snap, jobs, k);
      }
    }
    if out == [] {
      forall k | 0 <= k < |jobs| ensures JobOk(snap, jobs, k) {
        assert Checked(snap, jobs, k);
        forall i | 0 <= i < |jobs| && i != k ensures jobs[i].variant != jobs[k].variant {
          assert Checked(snap, jobs, i);
        }
      }
    }
  }

  /** What the loop has checked of job `k`: all but repeats that come later. */
  ghost predicate Checked(snap: Store, jobs: seq<Job>, k: nat)
    requires k < |jobs|
  {
    var j := jobs[k];
    && j.variant in snap && snap[j.variant].product == j.product && snap[j.variant].sku == j.from
    && j.to.Some? && shaped(j.to.value)
    && (forall i :: 0 <= i < k ==> jobs[i].variant != j.variant)
    && (forall i :: 0 <= i < |jobs| && i != k ==> jobs[i].to != j.to)
    && (forall v :: v in snap ==> snap[v].sku != j.to)
  }

  /** Each rewrite finds its variant in the snapshot as it expects it, and gives it a plain
      SKU that no variant there carries. */
  ghost predicate AgreesWith(snap: Store, jobs: seq<Job>) {
    forall j :: j in jobs ==>
      && j.variant in snap && snap[j.variant].product == j.product && snap[j.variant].sku == j.from
      && j.to.Some? && shaped(j.to.value) && forall v :: v in snap ==> snap[v].sku != j.to
  }

  /** No variant is written twice, and no SKU given twice. */
  ghost predicate EachOnce(jobs: seq<Job>) {
    && (forall i, k :: 0 <= i < k < |jobs| ==> jobs[i].variant != jobs[k].variant)
    && (forall i, k :: 0 <= i < k < |jobs| ==> jobs[i].to != jobs[k].to)
  }

  lemma ValidExactly(snap: Store, jobs: seq<Job>)
    ensures ValidPlan(snap, jobs) <==> AgreesWith(snap, jobs) && EachOnce(jobs)
  {
    if ValidPlan(snap, jobs) {
      forall j | j in jobs ensures AgreesWith(snap, [j]) {
        var k :| 0 <= k < |jobs| && jobs[k] == j;
        assert JobOk(snap, jobs, k);
      }
      assert forall j :: j in jobs ==> j in [j];
      forall i, k | 0 <= i < k < |jobs| ensures jobs[i].variant != jobs[k].variant && jobs[i].to != jobs[k].to {
        assert JobOk(snap, jobs, k);
      }
    }
    if AgreesWith(snap, jobs) && EachOnce(jobs) {
      forall k | 0 <= k < |jobs| ensures JobOk(snap, jobs, k) {
        assert jobs[k] in jobs;
      }
    }
  }

  /** A target already sits on a variant other than the one it is planned for. */
  ghost predicate Collides(s: Store, jobs: seq<Job>) {
    exists j, v :: j in jobs && v in s && v != j.variant && j.to.Some? && s[v].sku == j.to
  }

  method Collisions(s: Store, jobs: seq<Job>) returns (out: seq<Job>)
    ensures out != [] <==> Collides(s, jobs)
  {
    out := [];
    for k := 0 to |jobs|
      invariant out != [] <==> Collides(s, jobs[..k])
    {
      var j := jobs[k];
      assert jobs[..k + 1] == jobs[..k] + [j];
      if j.to.Some? && exists v | v in s :: v != j.variant && s[v].sku == j.to {
        out := out + [j];
      }
    }
    assert jobs[..|jobs|] == jobs;
  }

  // ---- Writing some products -------------------------------------------------------------------

  /** What a variant carries once its product's jobs are written. */
  function SkuAfter(jobs: seq<Job>, v: Id, sku: Maybe<Sku>): Maybe<Sku> {
    if jobs == [] then sku
    else if jobs[|jobs| - 1].variant == v then jobs[|jobs| - 1].to
    else SkuAfter(jobs[..|jobs| - 1], v, sku)
  }

  function JobsOf(jobs: seq<Job>, product: Id): (r: seq<Job>)
    ensures forall j :: j in r <==> j in jobs && j.product == product
  {
    if jobs == [] then []
    else
      var front := JobsOf(jobs[..|jobs| - 1], product);
      if jobs[|jobs| - 1].product == product then front + [jobs[|jobs| - 1]] else front
  }

  /** One call to the store: all the SKUs of one product, or none of them. */
  function WriteProduct(s: Store, jobs: seq<Job>, product: Id): (r: Store)
    ensures r.Keys == s.Keys
  {
    map v | v in s :: s[v].(sku := SkuAfter(JobsOf(jobs, product), v, s[v].sku))
  }

  function WriteProducts(s: Store, jobs: seq<Job>, products: seq<Id>): (r: Store)
    ensures r.Keys == s.Keys
  {
    if products == [] then s
    else WriteProduct(WriteProducts(s, jobs, products[..|products| - 1]), jobs, products[|products| - 1])
  }

  /** Jobs name each variant once, under its own product. */
  ghost predicate OncePerVariant(s: Store, jobs: seq<Job>) {
    && (forall j :: j in jobs ==> j.variant in s && s[j.variant].product == j.product)
    && (forall i, k :: 0 <= i < k < |jobs| ==> jobs[i].variant != jobs[k].variant)
  }

  /** The variants of the written products carry their targets, all others what they did. */
  ghost predicate WrittenAt(s: Store, jobs: seq<Job>, written: set<Id>, r: Store) {
    && r.Keys == s.Keys
    && (forall j :: j in jobs && j.variant in s && j.product in written ==> r[j.variant] == s[j.variant].(sku := j.to))
    && (forall v :: v in s && (forall j :: j in jobs && j.variant == v ==> j.product !in written) ==> r[v] == s[v])
  }

  lemma {:induction false} SkuAfterMeans(jobs: seq<Job>, v: Id, sku: Maybe<Sku>)
    ensures (forall j :: j in jobs ==> j.variant != v) ==> SkuAfter(jobs, v, sku) == sku
    ensures (exists j :: j in jobs && j.variant == v) ==>
      exists j :: j in jobs && j.variant == v && SkuAfter(jobs, v, sku) == j.to
  {
    if jobs != [] {
      var last := jobs[|jobs| - 1];
      SkuAfterMeans(jobs[..|jobs| - 1], v, sku);
      if last.variant == v {
        assert last in jobs;
      } else if j :| j in jobs && j.variant == v {
        assert j in jobs[..|jobs| - 1];
        var i :| i in jobs[..|jobs| - 1] && i.variant == v && SkuAfter(jobs[..|jobs| - 1], v, sku) == i.to;
        assert i in jobs;
      }
    }
  }

  lemma WriteProductAt(s: Store, r: Store, jobs: seq<Job>, written: set<Id>, product: Id)
    requires OncePerVariant(s, jobs) && WrittenAt(s, jobs, written, r)
    ensures WrittenAt(s, jobs, written + {product}, WriteProduct(r, jobs, product))
  {
    var q, mine := WriteProduct(r, jobs, product), JobsOf(jobs, product);
    forall j | j in jobs && j.product in written + {product}
      ensures q[j.variant] == s[j.variant].(sku := j.to)
    {
      SkuAfterMeans(mine, j.variant, r[j.variant].sku);
      if j.product == product {
        assert j in mine;
        var i :| i in mine && i.variant == j.variant && SkuAfter(mine, j.variant, r[j.variant].sku) == i.to;
      } else if i :| i in mine && i.variant == j.variant {
      }
    }
    forall v | v in s && (forall j :: j in jobs && j.variant == v ==> j.product !in written + {product})
      ensures q[v] == s[v]
    {
      SkuAfterMeans(mine, v, r[v].sku);
    }
  }

  /** However many products were written, exactly their variants changed, each to its target. */
  lemma {:induction false} WrittenExactly(s: Store, jobs: seq<Job>, products: seq<Id>)
    requires OncePerVariant(s, jobs)
    ensures WrittenAt(s, jobs, Elems(products), WriteProducts(s, jobs, products))
  {
    if products != [] {
      var front := products[..|products| - 1];
      WrittenExactly(s, jobs, front);
      WriteProductAt(s, WriteProducts(s, jobs, front), jobs, Elems(front), products[|products| - 1]);
      assert Elems(products) == Elems(front) + {products[|products| - 1]};
    }
  }

  // ---- Uniqueness after any part of the run ------------------------------------------------------

  ghost predicate DistinctTargets(jobs: seq<Job>) {
    (forall j :: j in jobs ==> j.to.Some?) && forall i, k :: 0 <= i < k < |jobs| ==> jobs[i].to != jobs[k].to
  }

  /** A target that sits on another variant sits on one written in the same call. */
  ghost predicate ClashesOnlyInside(s: Store, jobs: seq<Job>) {
    forall j, v :: j in jobs && v in s && v != j.variant && s[v].sku == j.to ==>
      exists k :: k in jobs && k.variant == v && k.product == j.product
  }

  lemma PartExists(s: Store, jobs: seq<Job>, products: seq<Id>) returns (r: Store)
    requires OncePerVariant(s, jobs)
    ensures WrittenAt(s, jobs, Elems(products), r)
  {
    r := WriteProducts(s, jobs, products);
    WrittenExactly(s, jobs, products);
  }

  function Products(jobs: seq<Job>): (r: seq<Id>)
    ensures |r| == |jobs| && forall k :: 0 <= k < |r| ==> r[k] == jobs[k].product
  {
    seq(|jobs|, k requires 0 <= k < |jobs| => jobs[k].product)
  }

  ghost predicate AlwaysUnique(s: Store, jobs: seq<Job>) {
    forall written: set<Id>, r: Store :: WrittenAt(s, jobs, written, r) ==> Unique(r)
  }

  lemma AlwaysUniqueNeeds(s: Store, jobs: seq<Job>)
    requires OncePerVariant(s, jobs) && (forall j :: j in jobs ==> j.to.Some?) && AlwaysUnique(s, jobs)
    ensures Unique(s) && DistinctTargets(jobs) && ClashesOnlyInside(s, jobs)
  {
    assert WrittenAt(s, jobs, {}, s);
    var all := PartExists(s, jobs, Products(jobs));
    forall j, v | j in jobs && v in s && v != j.variant && s[v].sku == j.to
      ensures exists k :: k in jobs && k.variant == v && k.product == j.product
    {
      var one := PartExists(s, jobs, [j.product]);
      assert Elems([j.product]) == {j.product};
    }
  }

  /** Exactly when a load is safe to stop anywhere: SKUs stay unique after whichever
      products were written if and only if they were unique, the targets are distinct,
      and a target in use sits on a variant written in the same call. */
  lemma UniqueAfterAnyPartExactly(s: Store, jobs: seq<Job>)
    requires OncePerVariant(s, jobs) && forall j :: j in jobs ==> j.to.Some?
    ensures AlwaysUnique(s, jobs) <==> Unique(s) && DistinctTargets(jobs) && ClashesOnlyInside(s, jobs)
  {
    if AlwaysUnique(s, jobs) {
      AlwaysUniqueNeeds(s, jobs);
    }
    if Unique(s) && DistinctTargets(jobs) && ClashesOnlyInside(s, jobs) {
      forall written: set<Id>, r: Store | WrittenAt(s, jobs, written, r) ensures Unique(r) {
      }
    }
  }

  /** The checks before the first write are enough: after any prefix of the per-product
      writes the store's SKUs are unique. */
  lemma UniqueAfterEveryPrefix(snap: Store, s: Store, jobs: seq<Job>, products: seq<Id>)
    requires Unique(s) && ValidPlan(snap, jobs) && !Collides(s, jobs)
    requires forall j :: j in jobs ==> j.variant in s && s[j.variant].product == j.product
    ensures Unique(WriteProducts(s, jobs, products))
  {
    ValidMeans(snap, s, jobs);
    WrittenExactly(s, jobs, products);
  }

  lemma ValidMeans(snap: Store, s: Store, jobs: seq<Job>)
    requires ValidPlan(snap, jobs)
    requires forall j :: j in jobs ==> j.variant in s && s[j.variant].product == j.product
    ensures OncePerVariant(s, jobs) && DistinctTargets(jobs)
  {
    forall i, k | 0 <= i < k < |jobs| ensures jobs[i].variant != jobs[k].variant && jobs[i].to != jobs[k].to {
      assert JobOk(snap, jobs, k);
    }
    forall j | j in jobs ensures j.to.Some? {
      var k :| 0 <= k < |jobs| && jobs[k] == j;
      assert JobOk(snap, jobs, k);
    }
  }

  // ---- Rollback --------------------------------------------------------------------------------------

  function Reversed(jobs: seq<Job>): (r: seq<Job>)
    ensures |r| == |jobs|
    ensures forall k :: 0 <= k < |r| ==> r[k] == Job(jobs[k].product, jobs[k].variant, jobs[k].to, jobs[k].from)
  {
    seq(|jobs|, k requires 0 <= k < |jobs| => Job(jobs[k].product, jobs[k].variant, jobs[k].to, jobs[k].from))
  }

  /** What a log entry finds on its variant: `from` is what the run wrote, `to` what was there. */
  datatype Finding = Revert | Already | Drift | Gone

  function Find(live: Store, m: Job): Finding {
    if m.variant !in live then Gone
    else if live[m.variant].sku == m.from then Revert
    else if live[m.variant].sku == m.to then Already
    else Drift
  }

  /** One product of the log. */
  datatype Verdict = Reverts(jobs: seq<Job>) | Skipped | Refused

  ghost predicate AllFound(live: Store, entries: seq<Job>, finding: Finding) {
    && (exists m :: m in entries && Find(live, m) != Gone)
    && forall m :: m in entries && Find(live, m) != Gone ==> Find(live, m) == finding
  }

  /** A product is judged by those of its variants that are still there. */
  ghost function Judge(live: Store, entries: seq<Job>): Verdict {
    if AllFound(live, entries, Already) then Skipped
    else if AllFound(live, entries, Revert) then Reverts(entries)
    else Refused
  }

  /** A variant that is gone, or carries neither SKU, is a problem of its own. */
  ghost predicate InPlace(live: Store, entries: seq<Job>) {
    forall m :: m in entries ==> Find(live, m) == Revert || Find(live, m) == Already
  }

  /** The first writes make every one of its variants "revert", a product never
      written makes them all "already". */
  lemma JudgedExactly(s: Store, jobs: seq<Job>, written: set<Id>, live: Store, product: Id)
    requires OncePerVariant(s, jobs) && WrittenAt(s, jobs, written, live) && JobsOf(jobs, product) != []
    requires forall j :: j in jobs ==> s[j.variant].sku == j.from && j.from != j.to
    ensures Judge(live, JobsOf(Reversed(jobs), product)) ==
      if product in written then Reverts(JobsOf(Reversed(jobs), product)) else Skipped
    ensures JobsOf(Reversed(jobs), product) != [] && InPlace(live, JobsOf(Reversed(jobs), product))
  {
    var entries := JobsOf(Reversed(jobs), product);
    var j0 := JobsOf(jobs, product)[0];
    assert j0 in JobsOf(jobs, product);
    var k0 :| 0 <= k0 < |jobs| && jobs[k0] == j0;
    assert Reversed(jobs)[k0] in Reversed(jobs);
    assert Reversed(jobs)[k0] in entries;
    forall m | m in entries ensures Find(live, m) == if product in written then Revert else Already {
      var k :| 0 <= k < |jobs| && Reversed(jobs)[k] == m;
      assert jobs[k] in jobs;
      if product !in written {
        forall j | j in jobs && j.variant == m.variant ensures j.product !in written {
        }
      }
    }
    assert Find(live, Reversed(jobs)[k0]) == if product in written then Revert else Already;
  }

  /** Nothing the run left behind is a problem to its rollback. */
  lemma EntriesInPlace(s: Store, jobs: seq<Job>, written: set<Id>, live: Store, product: Id)
    requires OncePerVariant(s, jobs) && WrittenAt(s, jobs, written, live)
    requires forall j :: j in jobs ==> s[j.variant].sku == j.from && j.from != j.to
    ensures InPlace(live, JobsOf(Reversed(jobs), product))
  {
    if m :| m in JobsOf(Reversed(jobs), product) {
      var k :| 0 <= k < |jobs| && Reversed(jobs)[k] == m;
      assert jobs[k] in jobs && jobs[k] in JobsOf(jobs, product);
      JudgedExactly(s, jobs, written, live, product);
    }
  }

  /** Reverting the written products brings every SKU back. */
  lemma RevertRestores(s: Store, jobs: seq<Job>, written: set<Id>, live: Store, r: Store)
    requires OncePerVariant(s, jobs) && WrittenAt(s, jobs, written, live)
    requires forall j :: j in jobs ==> s[j.variant].sku == j.from
    requires WrittenAt(live, Reversed(jobs), written, r)
    ensures r == s
  {
    forall v | v in s ensures r[v] == s[v] {
      if j :| j in jobs && j.variant == v && j.product in written {
        var k :| 0 <= k < |jobs| && jobs[k] == j;
        assert Reversed(jobs)[k] in Reversed(jobs);
        assert live[v] == s[v].(sku := j.to);
      } else {
        forall m | m in Reversed(jobs) && m.variant == v ensures m.product !in written {
          var k :| 0 <= k < |jobs| && Reversed(jobs)[k] == m;
          assert jobs[k] in jobs;
        }
        assert live[v] == s[v];
      }
    }
    assert r.Keys == s.Keys;
  }

  lemma ReversedOnce(s: Store, live: Store, jobs: seq<Job>)
    requires OncePerVariant(s, jobs) && live.Keys == s.Keys && forall v :: v in s ==> live[v].product == s[v].product
    ensures OncePerVariant(live, Reversed(jobs))
  {
    forall m | m in Reversed(jobs) ensures m.variant in live && live[m.variant].product == m.product {
      var k :| 0 <= k < |jobs| && Reversed(jobs)[k] == m;
      assert jobs[k] in jobs;
    }
  }

  /** The restored SKUs collide with nothing: the rollback's own check passes. */
  lemma RollbackDoesNotCollide(s: Store, jobs: seq<Job>, written: set<Id>, live: Store)
    requires Unique(s) && OncePerVariant(s, jobs) && !Collides(s, jobs)
    requires forall j :: j in jobs ==> s[j.variant].sku == j.from
    requires WrittenAt(s, jobs, written, live)
    ensures forall m, v :: m in Reversed(jobs) && m.product in written && v in live && v != m.variant && m.to.Some? ==>
      live[v].sku != m.to
  {
    forall m, v | m in Reversed(jobs) && m.product in written && v in live && v != m.variant && m.to.Some?
      ensures live[v].sku != m.to
    {
      var k :| 0 <= k < |jobs| && Reversed(jobs)[k] == m;
      var j := jobs[k];
      assert j in jobs && s[j.variant].sku == j.from;
      if i :| i in jobs && i.variant == v && i.product in written {
        assert live[v] == s[v].(sku := i.to);
      } else {
        assert live[v] == s[v];
      }
    }
  }

  /** SKU rollback inverts every prefix: after the first `n` of the product writes the
      written products are reverted and the others skipped, and writing the reverts
      brings the store back. */
  lemma RollbackInvertsEveryPrefix(s: Store, jobs: seq<Job>, products: seq<Id>, n: nat)
    requires OncePerVariant(s, jobs) && n <= |products|
    requires forall j :: j in jobs ==> s[j.variant].sku == j.from && j.from != j.to
    ensures var live := WriteProducts(s, jobs, products[..n]);
      && (forall p :: JobsOf(jobs, p) != [] ==>
            Judge(live, JobsOf(Reversed(jobs), p)) ==
            if p in products[..n] then Reverts(JobsOf(Reversed(jobs), p)) else Skipped)
      && (forall p :: InPlace(live, JobsOf(Reversed(jobs), p)))
      && WriteProducts(live, Reversed(jobs), products[..n]) == s
  {
    var done := products[..n];
    var live := WriteProducts(s, jobs, done);
    WrittenExactly(s, jobs, done);
    forall p | JobsOf(jobs, p) != []
      ensures Judge(live, JobsOf(Reversed(jobs), p)) ==
        if p in done then Reverts(JobsOf(Reversed(jobs), p)) else Skipped
    {
      JudgedExactly(s, jobs, Elems(done), live, p);
      assert p in done <==> p in Elems(done);
    }
    forall p ensures InPlace(live, JobsOf(Reversed(jobs), p)) {
      EntriesInPlace(s, jobs, Elems(done), live, p);
    }
    forall v | v in s ensures live[v].product == s[v].product {
    }
    ReversedOnce(s, live, jobs);
    WrittenExactly(live, Reversed(jobs), done);
    RevertRestores(s, jobs, Elems(done), live, WriteProducts(live, Reversed(jobs), done));
  }
}
