/** The SKU load as its scripts run it: the writes product by product, and the rollback
    planned from the live store. */
module SkuRuns {
  import opened Lists
  import opened Catalogue
  import opened Skus
  import opened SkuPlans

  // ---- execute and plan_rollback -------------------------------------------------------------------

  /** What the write of one product comes to: refused, made with its answer lost, made
      with another answer than asked for, or made. */
  datatype Answer = Fails | Lost | ReturnsOther | Written

  class LiveStore {
    var variants: Store

    constructor (variants: Store)
      ensures this.variants == variants
    {
      this.variants := variants;
    }
  }

  lemma GroupStep(jobs: seq<Job>, k: nat)
    requires k < |jobs|
    ensures var seen := FirstSeen(Products(jobs[..k]));
      FirstSeen(Products(jobs[..k + 1])) == if jobs[k].product in seen then seen else seen + [jobs[k].product]
    ensures forall p :: p != jobs[k].product ==> JobsOf(jobs[..k + 1], p) == JobsOf(jobs[..k], p)
    ensures JobsOf(jobs[..k + 1], jobs[k].product) == JobsOf(jobs[..k], jobs[k].product) + [jobs[k]]
  {
    assert jobs[..k + 1][..k] == jobs[..k];
    assert Products(jobs[..k + 1])[..k] == Products(jobs[..k]);
  }

  ghost predicate Grouped(jobs: seq<Job>, order: seq<Id>, byProduct: map<Id, seq<Job>>) {
    && (forall p :: p in byProduct <==> p in order)
    && (forall p :: p in byProduct ==> byProduct[p] == JobsOf(jobs, p) && byProduct[p] != [])
  }

  /** The jobs of each product, products in the order they first come up. */
  method Group(jobs: seq<Job>) returns (order: seq<Id>, byProduct: map<Id, seq<Job>>)
    ensures order == FirstSeen(Products(jobs)) && Grouped(jobs, order, byProduct)
  {
    order, byProduct := [], map[];
    for k := 0 to |jobs|
      invariant order == FirstSeen(Products(jobs[..k]))
      invariant forall p :: p in byProduct <==> p in order
      invariant forall p :: p in byProduct ==> byProduct[p] == JobsOf(jobs[..k], p) && byProduct[p] != []
      invariant forall p :: p !in byProduct ==> JobsOf(jobs[..k], p) == []
    {
      var j := jobs[k];
      GroupStep(jobs, k);
      if j.product !in byProduct {
        order := order + [j.product];
        byProduct := byProduct[j.product := []];
      }
      byProduct := byProduct[j.product := byProduct[j.product] + [j]];
    }
    assert jobs[..|jobs|] == jobs;
  }

  /** What a run meets: the re-read before each write, and what the write comes to. */
  datatype Meets = Meets(rereads: nat -> Store, answers: nat -> Answer)

  /** Product `k` still reads as it was left. */
  ghost predicate Undrifted(start: Store, jobs: seq<Job>, order: seq<Id>, meets: Meets, k: nat)
    requires k < |order|
  {
    SameProduct(WriteProducts(start, jobs, order[..k]), meets.rereads(k), order[k])
  }

  ghost predicate GoesOn(start: Store, jobs: seq<Job>, order: seq<Id>, meets: Meets, k: nat)
    requires k < |order|
  {
    Undrifted(start, jobs, order, meets, k) && meets.answers(k) == Written
  }

  /** The first product that drifted or was not plainly written ends the run; it is written
      itself unless it drifted or the store refused it. */
  ghost predicate StoppedFor(start: Store, jobs: seq<Job>, order: seq<Id>, meets: Meets, done: nat) {
    exists k :: 0 <= k < |order| && StopsAt(start, jobs, order, meets, k, done)
  }

  ghost predicate StopsAt(start: Store, jobs: seq<Job>, order: seq<Id>, meets: Meets, k: nat, done: nat)
    requires k < |order|
  {
    && AllGoOn(start, jobs, order, meets, k) && !GoesOn(start, jobs, order, meets, k)
    && done == if Undrifted(start, jobs, order, meets, k) && meets.answers(k) != Fails then k + 1 else k
  }

  ghost predicate AllGoOn(start: Store, jobs: seq<Job>, order: seq<Id>, meets: Meets, n: nat)
    requires n <= |order|
  {
    forall i :: 0 <= i < n ==> GoesOn(start, jobs, order, meets, i)
  }

  lemma OneMoreGoesOn(start: Store, jobs: seq<Job>, order: seq<Id>, meets: Meets, k: nat)
    requires k < |order| && AllGoOn(start, jobs, order, meets, k)
    ensures GoesOn(start, jobs, order, meets, k) ==> AllGoOn(start, jobs, order, meets, k + 1)
    ensures !GoesOn(start, jobs, order, meets, k) ==>
      StoppedFor(start, jobs, order, meets, if Undrifted(start, jobs, order, meets, k) && meets.answers(k) != Fails then k + 1 else k)
  {
    if !GoesOn(start, jobs, order, meets, k) {
      assert StopsAt(start, jobs, order, meets, k,
                     if Undrifted(start, jobs, order, meets, k) && meets.answers(k) != Fails then k + 1 else k);
    }
  }

  lemma WriteOneMore(s: Store, jobs: seq<Job>, order: seq<Id>, k: nat)
    requires k < |order|
    ensures WriteProducts(s, jobs, order[..k + 1]) == WriteProduct(WriteProducts(s, jobs, order[..k]), jobs, order[k])
  {
    assert order[..k + 1][..k] == order[..k];
  }

  /** A product reads the same in both: the same variants, each with all it carries. */
  predicate SameProduct(a: Store, b: Store, product: Id) {
    && (forall v :: v in a && a[v].product == product ==> v in b && b[v] == a[v])
    && (forall v :: v in b && b[v].product == product ==> v in a && a[v] == b[v])
  }

  class Run {
    var armed: bool
    var stopped: bool

    constructor ()
      ensures !armed && !stopped
    {
      armed, stopped := false, false;
    }

    /** One call: every SKU of one product's jobs. */
    method WriteItems(store: LiveStore, ghost jobs: seq<Job>, ghost product: Id, items: seq<Job>)
      requires items == JobsOf(jobs, product) && forall j :: j in items ==> j.variant in store.variants
      modifies store
      ensures store.variants == WriteProduct(old(store.variants), jobs, product)
    {
      for k := 0 to |items|
        invariant store.variants.Keys == old(store.variants).Keys
        invariant forall v :: v in store.variants ==>
          store.variants[v] == old(store.variants)[v].(sku := SkuAfter(items[..k], v, old(store.variants)[v].sku))
      {
        var j := items[k];
        assert items[..k + 1][..k] == items[..k];
        store.variants := store.variants[j.variant := store.variants[j.variant].(sku := j.to)];
      }
      assert items[..|items|] == items;
      assert store.variants == WriteProduct(old(store.variants), jobs, product);
    }

    /** Whether a product reads other than promised. */
    method Differs(promised: Store, reread: Store, p: Id) returns (b: bool)
      ensures b == !SameProduct(promised, reread, p)
      ensures !b <==> forall v :: (v in promised && promised[v].product == p) || (v in reread && reread[v].product == p) ==>
        v in promised && v in reread && promised[v] == reread[v]
    {
      var mine := set v | v in promised && promised[v].product == p;
      var theirs := set v | v in reread && reread[v].product == p;
      b := exists v | v in mine + theirs :: !(v in mine && v in theirs && promised[v] == reread[v]);
    }

    /** One product: re-read, then written unless it drifted or the store refuses. */
    method WriteOne(store: LiveStore, ghost jobs: seq<Job>, product: Id, items: seq<Job>, reread: Store, answer: Answer)
      returns (wrote: bool)
      requires items == JobsOf(jobs, product) && forall j :: j in items ==> j.variant in store.variants
      modifies this`stopped, store
      ensures wrote <==> SameProduct(old(store.variants), reread, product) && answer != Fails
      ensures store.variants == if wrote then WriteProduct(old(store.variants), jobs, product) else old(store.variants)
      ensures stopped <==> !(SameProduct(old(store.variants), reread, product) && answer == Written)
    {
      var drifted := Differs(store.variants, reread, product);
      wrote := !drifted && answer != Fails;
      if wrote {
        WriteItems(store, jobs, product, items);
      }
      stopped := drifted || answer != Written;
    }

    method WriteInOrder(store: LiveStore, jobs: seq<Job>, order: seq<Id>, byProduct: map<Id, seq<Job>>, meets: Meets)
      returns (done: nat)
      requires Grouped(jobs, order, byProduct) && (forall j :: j in jobs ==> j.variant in store.variants) && !stopped
      modifies this`stopped, store
      ensures done <= |order| && store.variants == WriteProducts(old(store.variants), jobs, order[..done])
      ensures stopped ==> StoppedFor(old(store.variants), jobs, order, meets, done)
      ensures !stopped ==> done == |order| && AllGoOn(old(store.variants), jobs, order, meets, done)
    {
      done := 0;
      ghost var start := store.variants;
      while done < |order| && !stopped
        invariant done <= |order|
        invariant store.variants == WriteProducts(start, jobs, order[..done])
        invariant !stopped ==> AllGoOn(start, jobs, order, meets, done)
        invariant stopped ==> StoppedFor(start, jobs, order, meets, done)
        decreases |order| - done, if stopped then 0 else 1
      {
        assert order[done] in order;
        WriteOneMore(start, jobs, order, done);
        OneMoreGoesOn(start, jobs, order, meets, done);
        var wrote := WriteOne(store, jobs, order[done], byProduct[order[done]], meets.rereads(done), meets.answers(done));
        if wrote {
          done := done + 1;
        }
      }
    }

    /** The final re-read of every product, against what the run promised. */
    method Verify(promised: Store, reread: Store, order: seq<Id>) returns (mismatches: seq<Id>)
      ensures forall p :: p in mismatches <==> p in order && !SameProduct(promised, reread, p)
    {
      mismatches := [];
      for i := 0 to |order|
        invariant forall p :: p in mismatches <==> p in order[..i] && !SameProduct(promised, reread, p)
      {
        var p := order[i];
        assert order[..i + 1] == order[..i] + [p];
        var differs := Differs(promised, reread, p);
        if differs {
          mismatches := mismatches + [p];
        }
      }
    }

    /** `execute`: each product re-read and written all or nothing, in order, until one of
        them drifted, failed, lost its answer or returned something else; then the products
        are read again. Exactly a prefix of the products is written, writing is armed
        only in between, and a run to the end names the products that are not as
        promised. */
    method Execute(store: LiveStore, jobs: seq<Job>, meets: Meets, reread: Store)
      returns (done: nat, mismatches: seq<Id>)
      requires forall j :: j in jobs ==> j.variant in store.variants
      requires !stopped
      modifies this, store
      ensures !armed && done <= |FirstSeen(Products(jobs))|
      ensures store.variants == WriteProducts(old(store.variants), jobs, FirstSeen(Products(jobs))[..done])
      ensures stopped ==> StoppedFor(old(store.variants), jobs, FirstSeen(Products(jobs)), meets, done)
      ensures !stopped ==> done == |FirstSeen(Products(jobs))|
      ensures !stopped ==> AllGoOn(old(store.variants), jobs, FirstSeen(Products(jobs)), meets, done)
      ensures !stopped ==> forall p :: p in mismatches <==>
        p in FirstSeen(Products(jobs)) && !SameProduct(store.variants, reread, p)
      ensures stopped ==> mismatches == []
    {
      mismatches := [];
      var order, byProduct := Group(jobs);
      armed := true;
      done := WriteInOrder(store, jobs, order, byProduct, meets);
      armed := false;
      if !stopped {
        mismatches := Verify(store.variants, reread, order);
      }
    }
  }

  /** The entries to revert, product by product. */
  ghost function Reverting(live: Store, reverse: seq<Job>, products: seq<Id>): (r: seq<Job>)
  {
    if products == [] then []
    else
      var front := Reverting(live, reverse, products[..|products| - 1]);
      var verdict := Judge(live, JobsOf(reverse, products[|products| - 1]));
      if verdict.Reverts? then front + verdict.jobs else front
  }

  lemma RevertingStep(live: Store, reverse: seq<Job>, order: seq<Id>, i: nat)
    requires i < |order|
    ensures Reverting(live, reverse, order[..i + 1]) == Reverting(live, reverse, order[..i])
      + match Judge(live, JobsOf(reverse, order[i])) case Reverts(entries) => entries case _ => []
  {
    assert order[..i + 1][..i] == order[..i];
  }

  datatype Issue = VariantGone(variant: Id) | OtherSku(variant: Id) | Mixed(product: Id)

  /** One product of the log: a variant that is gone is a problem, and the others decide. */
  method JudgeProduct(live: Store, product: Id, entries: seq<Job>) returns (verdict: Verdict, problems: seq<Issue>)
    ensures verdict == Judge(live, entries)
    ensures problems == [] <==> Sound(live, entries)
  {
    problems := [];
    var kinds: set<Finding> := {};
    for k := 0 to |entries|
      invariant IsKinds(live, entries[..k], kinds)
      invariant problems == [] <==> InPlace(live, entries[..k])
    {
      var finding := Find(live, entries[k]);
      assert entries[..k + 1] == entries[..k] + [entries[k]];
      assert entries[k] in entries[..k + 1];
      if finding == Gone {
        problems := problems + [VariantGone(entries[k].variant)];
      } else {
        if finding == Drift {
          problems := problems + [OtherSku(entries[k].variant)];
        }
        kinds := kinds + {finding};
      }
    }
    assert entries[..|entries|] == entries;
    KindsJudge(live, entries, kinds);
    if kinds == {Already} {
      verdict := Skipped;
    } else if kinds != {Revert} {
      verdict, problems := Refused, problems + [Mixed(product)];
    } else {
      verdict := Reverts(entries);
    }
  }

  /** The findings on the variants that are still there. */
  ghost predicate IsKinds(live: Store, entries: seq<Job>, kinds: set<Finding>) {
    Gone !in kinds && forall f :: f != Gone ==> (f in kinds <==> exists m :: m in entries && Find(live, m) == f)
  }

  lemma KindsJudge(live: Store, entries: seq<Job>, kinds: set<Finding>)
    requires IsKinds(live, entries, kinds)
    ensures Judge(live, entries) ==
      if kinds == {Already} then Skipped else if kinds == {Revert} then Reverts(entries) else Refused
  {
    assert forall m :: m in entries && Find(live, m) != Gone ==> Find(live, m) in kinds;
    KindsAll(live, entries, kinds, Already);
    KindsAll(live, entries, kinds, Revert);
  }

  lemma KindsAll(live: Store, entries: seq<Job>, kinds: set<Finding>, finding: Finding)
    requires IsKinds(live, entries, kinds) && finding != Gone
    ensures AllFound(live, entries, finding) <==> kinds == {finding}
  {
    if kinds == {finding} {
      forall m | m in entries && Find(live, m) != Gone ensures Find(live, m) == finding {
        assert Find(live, m) in kinds;
      }
    }
    if AllFound(live, entries, finding) {
      forall f | f in kinds ensures f == finding {
      }
      assert finding in kinds;
    }
  }

  /** The rollback's planner has nothing to say against any of the products. */
  ghost predicate NoProblem(live: Store, reverse: seq<Job>, products: seq<Id>) {
    forall p :: p in products ==> Sound(live, JobsOf(reverse, p))
  }

  ghost predicate Sound(live: Store, entries: seq<Job>) {
    InPlace(live, entries) && !Judge(live, entries).Refused?
  }

  ghost predicate IsSkipped(live: Store, reverse: seq<Job>, p: Id) {
    Judge(live, JobsOf(reverse, p)) == Skipped
  }

  /** Every entry of the product that is still there carries this SKU of the log. */
  ghost predicate AllWritten(live: Store, reverse: seq<Job>, p: Id) {
    (exists m :: m in reverse && m.product == p && m.variant in live)
    && forall m :: m in reverse && m.product == p && m.variant in live ==> live[m.variant].sku == m.from
  }

  /** They carry what they started with, and not what the run wrote. */
  ghost predicate AllUnwritten(live: Store, reverse: seq<Job>, p: Id) {
    (exists m :: m in reverse && m.product == p && m.variant in live)
    && forall m :: m in reverse && m.product == p && m.variant in live ==>
      live[m.variant].sku == m.to && live[m.variant].sku != m.from
  }

  ghost predicate AllThere(live: Store, reverse: seq<Job>, p: Id) {
    forall m :: m in reverse && m.product == p ==> m.variant in live
  }

  lemma JudgedBySkus(live: Store, reverse: seq<Job>, p: Id)
    ensures IsSkipped(live, reverse, p) <==> AllUnwritten(live, reverse, p)
    ensures Judge(live, JobsOf(reverse, p)).Reverts? <==> AllWritten(live, reverse, p)
    ensures Judge(live, JobsOf(reverse, p)).Reverts? ==> Judge(live, JobsOf(reverse, p)).jobs == JobsOf(reverse, p)
  {
    var entries := JobsOf(reverse, p);
    assert forall m :: m in entries <==> m in reverse && m.product == p;
    assert forall m :: m in entries ==> (Find(live, m) != Gone <==> m.variant in live);
    assert AllFound(live, entries, Already) <==> AllUnwritten(live, reverse, p);
    assert AllFound(live, entries, Revert) <==> AllWritten(live, reverse, p);
  }

  lemma SoundBySkus(live: Store, reverse: seq<Job>, p: Id)
    ensures Sound(live, JobsOf(reverse, p)) <==>
      AllThere(live, reverse, p) && (AllWritten(live, reverse, p) || AllUnwritten(live, reverse, p))
  {
    JudgedBySkus(live, reverse, p);
    var entries := JobsOf(reverse, p);
    assert forall m :: m in entries <==> m in reverse && m.product == p;
  }

  /** What a rollback plan says, told from the SKUs alone: a product is a problem unless all
      its variants are there and either all carry what the run wrote or none does and all
      carry what they started with; the first kind is reverted, the second skipped. */
  ghost predicate PlannedBySkus(live: Store, reverse: seq<Job>, jobs: seq<Job>, problems: seq<Issue>, skipped: seq<Id>) {
    && (problems == [] <==> forall m :: m in reverse ==>
          AllThere(live, reverse, m.product) && (AllWritten(live, reverse, m.product) || AllUnwritten(live, reverse, m.product)))
    && (forall m :: m in jobs <==> m in reverse && AllWritten(live, reverse, m.product))
    && (forall p :: p in skipped <==> AllUnwritten(live, reverse, p))
  }

  lemma {:induction false} RevertingMembers(live: Store, reverse: seq<Job>, products: seq<Id>)
    ensures forall m :: m in Reverting(live, reverse, products) <==>
      m in reverse && m.product in products && AllWritten(live, reverse, m.product)
  {
    if products != [] {
      RevertingMembers(live, reverse, products[..|products| - 1]);
      JudgedBySkus(live, reverse, products[|products| - 1]);
    }
  }

  lemma PlanIsBySkus(live: Store, reverse: seq<Job>, jobs: seq<Job>, problems: seq<Issue>, skipped: seq<Id>, order: seq<Id>)
    requires order == FirstSeen(Products(reverse))
    requires problems == [] <==> NoProblem(live, reverse, order)
    requires jobs == Reverting(live, reverse, order)
    requires forall p :: p in skipped <==> p in order && IsSkipped(live, reverse, p)
    ensures PlannedBySkus(live, reverse, jobs, problems, skipped)
  {
    OrderOfProducts(reverse);
    RevertingMembers(live, reverse, order);
    forall p ensures IsSkipped(live, reverse, p) <==> AllUnwritten(live, reverse, p) {
      JudgedBySkus(live, reverse, p);
    }
    forall p ensures Sound(live, JobsOf(reverse, p)) <==>
      AllThere(live, reverse, p) && (AllWritten(live, reverse, p) || AllUnwritten(live, reverse, p))
    {
      SoundBySkus(live, reverse, p);
    }
  }

  lemma OrderOfProducts(reverse: seq<Job>)
    ensures forall p :: p in FirstSeen(Products(reverse)) <==> exists m :: m in reverse && m.product == p
  {
    forall p ensures p in Products(reverse) <==> exists m :: m in reverse && m.product == p {
      if m :| m in reverse && m.product == p {
        var k :| 0 <= k < |reverse| && reverse[k] == m;
        assert Products(reverse)[k] == p;
      }
    }
  }

  method JudgeInOrder(live: Store, reverse: seq<Job>, order: seq<Id>, byProduct: map<Id, seq<Job>>)
    returns (jobs: seq<Job>, problems: seq<Issue>, skipped: seq<Id>)
    requires Grouped(reverse, order, byProduct)
    ensures problems == [] <==> NoProblem(live, reverse, order)
    ensures jobs == Reverting(live, reverse, order)
    ensures forall p :: p in skipped <==> p in order && IsSkipped(live, reverse, p)
  {
    jobs, problems, skipped := [], [], [];
    for i := 0 to |order|
      invariant problems == [] <==> NoProblem(live, reverse, order[..i])
      invariant jobs == Reverting(live, reverse, order[..i])
      invariant forall p :: p in skipped <==> p in order[..i] && IsSkipped(live, reverse, p)
    {
      var p := order[i];
      assert order[..i + 1] == order[..i] + [p] && p in order[..i + 1];
      RevertingStep(live, reverse, order, i);
      assert p in order;
      var verdict, found := JudgeProduct(live, p, byProduct[p]);
      problems := problems + found;
      if verdict.Skipped? {
        skipped := skipped + [p];
      } else if verdict.Reverts? {
        jobs := jobs + verdict.jobs;
      }
    }
    assert order[..|order|] == order;
  }

  /** `plan_rollback`: product by product from the live store. */
  method PlanRollback(live: Store, reverse: seq<Job>) returns (jobs: seq<Job>, problems: seq<Issue>, skipped: seq<Id>)
    ensures problems == [] <==> NoProblem(live, reverse, FirstSeen(Products(reverse)))
    ensures jobs == Reverting(live, reverse, FirstSeen(Products(reverse)))
    ensures forall p :: p in skipped <==>
      p in FirstSeen(Products(reverse)) && IsSkipped(live, reverse, p)
    ensures PlannedBySkus(live, reverse, jobs, problems, skipped)
  {
    var order, byProduct := Group(reverse);
    jobs, problems, skipped := JudgeInOrder(live, reverse, order, byProduct);
    PlanIsBySkus(live, reverse, jobs, problems, skipped, order);
  }

  // ---- A stopped run, rolled back --------------------------------------------------------------------

  lemma {:induction false} JobsOfDistinct(jobs: seq<Job>, product: Id)
    requires DistinctVariants(jobs)
    ensures DistinctVariants(JobsOf(jobs, product))
  {
    if jobs != [] {
      var front, last := jobs[..|jobs| - 1], jobs[|jobs| - 1];
      assert DistinctVariants(front);
      JobsOfDistinct(front, product);
      var head := JobsOf(front, product);
      forall j | j in head ensures j.variant != last.variant {
        var k :| 0 <= k < |front| && front[k] == j;
        assert jobs[k] == j;
      }
      assert forall i :: 0 <= i < |head| ==> head[i] in head;
      assert DistinctVariants(head + [last]);
    }
  }

  ghost predicate Judged(live: Store, reverse: seq<Job>, p: Id, written: bool) {
    Judge(live, JobsOf(reverse, p)) == if written then Reverts(JobsOf(reverse, p)) else Skipped
  }

  /** Of products in a list without repeats, the last is among the first `n` only if all are. */
  lemma FirstOf(products: seq<Id>, n: nat)
    requires NoDup(products) && products != [] && n <= |products|
    ensures var front, p := products[..|products| - 1], products[|products| - 1];
      && NoDup(front) && p !in front && (p in products[..n] <==> n == |products|)
      && (forall q :: q in front ==> (q in products[..n] <==> q in front[..if n < |products| then n else n - 1]))
      && products[..n] == front[..if n < |products| then n else n - 1] + if n == |products| then [p] else []
  {
    var last := |products| - 1;
    var front, p := products[..last], products[last];
    if n == |products| {
      assert products[..n] == front + [p] && front[..n - 1] == front;
    } else {
      assert products[..n] == front[..n];
      assert forall q :: q in front[..n] ==> q in front;
    }
  }

  /** The planned reverts are the log's entries for the products named, each once. */
  lemma {:induction false} RevertingOnce(live: Store, reverse: seq<Job>, products: seq<Id>, n: nat)
    requires OncePerVariant(live, reverse) && NoDup(products) && n <= |products|
    requires forall p :: p in products ==> Judged(live, reverse, p, p in products[..n])
    ensures IsBack(live, reverse, products[..n], Reverting(live, reverse, products))
    decreases |products|
  {
    if products == [] {
    } else {
      var last := |products| - 1;
      var front, p, k := products[..last], products[last], if n < |products| then n else n - 1;
      FirstOf(products, n);
      forall q | q in front ensures Judged(live, reverse, q, q in front[..k]) {
        assert q in products;
      }
      RevertingOnce(live, reverse, front, k);
      assert p in products;
      RevertingNext(live, reverse, front, p, k, n == |products|);
    }
  }

  /** The entries of the named products, each once. */
  ghost predicate IsBack(live: Store, reverse: seq<Job>, products: seq<Id>, back: seq<Job>) {
    OncePerVariant(live, back) && forall m :: m in back <==> m in reverse && m.product in products
  }

  lemma RevertingNext(live: Store, reverse: seq<Job>, front: seq<Id>, p: Id, k: nat, taken: bool)
    requires OncePerVariant(live, reverse) && k <= |front| && p !in front
    requires IsBack(live, reverse, front[..k], Reverting(live, reverse, front))
    requires Judged(live, reverse, p, taken)
    ensures IsBack(live, reverse, front[..k] + if taken then [p] else [],
                   Reverting(live, reverse, front) + if taken then JobsOf(reverse, p) else [])
  {
    var head, tail := Reverting(live, reverse, front), JobsOf(reverse, p);
    JobsOfDistinct(reverse, p);
    forall a, b | a in head && b in tail ensures a.variant != b.variant {
      assert a.product in front && b.product == p;
    }
    assert forall i :: 0 <= i < |head| ==> head[i] in head;
    assert forall i :: 0 <= i < |tail| ==> tail[i] in tail;
  }

  lemma StoppedRunIsJudged(s: Store, jobs: seq<Job>, order: seq<Id>, n: nat)
    requires OncePerVariant(s, jobs) && n <= |order|
    requires forall j :: j in jobs ==> s[j.variant].sku == j.from && j.from != j.to
    requires forall p :: p in order ==> JobsOf(jobs, p) != []
    ensures var live := WriteProducts(s, jobs, order[..n]);
      && WrittenAt(s, jobs, Elems(order[..n]), live) && OncePerVariant(live, Reversed(jobs))
      && (forall p :: p in order ==> Judged(live, Reversed(jobs), p, p in order[..n]))
      && NoProblem(live, Reversed(jobs), order)
  {
    Skus.RollbackInvertsEveryPrefix(s, jobs, order, n);
    WrittenExactly(s, jobs, order[..n]);
  }

  lemma StoppedRunReturns(s: Store, jobs: seq<Job>, done: set<Id>, live: Store, back: seq<Job>)
    requires Unique(s) && OncePerVariant(s, jobs) && !Collides(s, jobs)
    requires forall j :: j in jobs ==> s[j.variant].sku == j.from
    requires WrittenAt(s, jobs, done, live) && OncePerVariant(live, Reversed(jobs)) && OncePerVariant(live, back)
    requires forall m :: m in back <==> m in Reversed(jobs) && m.product in done
    ensures !Collides(live, back) && WriteProducts(live, back, FirstSeen(Products(back))) == s
  {
    RollbackDoesNotCollide(s, jobs, done, live);
    var r := WriteProducts(live, back, FirstSeen(Products(back)));
    WrittenExactly(live, back, FirstSeen(Products(back)));
    RevertRestores(s, jobs, done, live, r);
  }

  /** Wherever a load stopped, its rollback finds no problem, and running it to the end
      brings back every SKU of the store. */
  lemma StoppedRunRollsBack(s: Store, jobs: seq<Job>, order: seq<Id>, n: nat)
    requires Unique(s) && OncePerVariant(s, jobs) && !Collides(s, jobs) && n <= |order|
    requires forall j :: j in jobs ==> s[j.variant].sku == j.from && j.from != j.to
    requires order == FirstSeen(Products(jobs))
    ensures FirstSeen(Products(Reversed(jobs))) == order
    ensures var live := WriteProducts(s, jobs, order[..n]);
      var back := Reverting(live, Reversed(jobs), order);
      && NoProblem(live, Reversed(jobs), order) && !Collides(live, back)
      && WriteProducts(live, back, FirstSeen(Products(back))) == s
  {
    assert Products(Reversed(jobs)) == Products(jobs);
    FirstSeenNoDup(Products(jobs));
    StoppedRunIsJudged(s, jobs, order, n);
    var live := WriteProducts(s, jobs, order[..n]);
    RevertingOnce(live, Reversed(jobs), order, n);
    assert forall p :: p in Elems(order[..n]) <==> p in order[..n];
    StoppedRunReturns(s, jobs, Elems(order[..n]), live, Reverting(live, Reversed(jobs), order));
  }
  // ---- The plan that was built is the plan that is applied -------------------------------------------

  /** The products as the plan's builder read them, as one table. */
  ghost predicate IsSnapshot(snap: Store, snapshots: Id -> seq<Snapped>, products: seq<Id>) {
    && (forall p, x :: p in products && x in snapshots(p) ==> HasRow(snap, x.id, p, x.sku))
    && (forall v :: v in snap ==> exists p, x :: p in products && x in snapshots(p) && x.id == v)
  }

  ghost predicate HasRow(s: Store, v: Id, product: Id, sku: Maybe<Sku>) {
    v in s && s[v].product == product && s[v].sku == sku
  }

  /** The store as the scan lists it. */
  ghost predicate IsScan(s: Store, scan: seq<Scanned>) {
    && (forall x :: x in scan ==> HasRow(s, x.id, x.product, x.sku))
    && (forall v :: v in s ==> exists x :: x in scan && x.id == v)
  }

  /** Both reads know a variant under one product. */
  ghost predicate SameProducts(s: Store, snap: Store) {
    forall v :: v in s && v in snap ==> s[v].product == snap[v].product
  }

  lemma {:induction false} SkuInIs(rows: seq<Snapped>, v: Id)
    ensures (forall x :: x in rows ==> x.id != v) ==> SkuIn(rows, v) == None
    ensures forall x :: x in rows && x.id == v ==>
      exists y :: y in rows && y.id == v && SkuIn(rows, v) == Some(y.sku)
  {
    if rows != [] {
      var front, last := rows[..|rows| - 1], rows[|rows| - 1];
      SkuInIs(front, v);
      assert rows == front + [last];
      if last.id == v {
        assert last in rows;
      } else {
        forall x | x in rows && x.id == v ensures exists y :: y in rows && y.id == v && SkuIn(rows, v) == Some(y.sku) {
          assert x in front;
          var y :| y in front && y.id == v && SkuIn(front, v) == Some(y.sku);
          assert y in rows;
        }
      }
    }
  }

  /** Looking a SKU up product by product finds the table's. */
  lemma {:induction false} SnapSkuIs(snap: Store, snapshots: Id -> seq<Snapped>, products: seq<Id>, v: Id)
    requires forall p, x :: p in products && x in snapshots(p) ==> HasRow(snap, x.id, p, x.sku)
    ensures SnapSku(snapshots, products, v).Some? ==> v in snap && snap[v].product in products
    ensures (exists p, x :: p in products && x in snapshots(p) && x.id == v) ==>
      v in snap && SnapSku(snapshots, products, v) == snap[v].sku
  {
    if products != [] {
      var front, last := products[..|products| - 1], products[|products| - 1];
      assert products == front + [last];
      assert forall p :: p in front ==> p in products;
      SnapSkuIs(snap, snapshots, front, v);
      SkuInIs(snapshots(last), v);
      assert last in products;
    }
  }

  /** What one planned rewrite stands on. */
  ghost predicate Grounded(scan: seq<Scanned>, rows: seq<Row>, snap: Store, plan: SkuPlan, u: Job, e: Entry) {
    && e in plan.resolved && FromRow(scan, rows, e) && TargetFree(scan, e) && fits(e.row, e.target)
    && u.product == e.product && u.variant == e.variant && u.to == Some(e.target) && u.from == e.live && u.from != u.to
    && u.variant in snap && snap[u.variant].sku == u.from
  }

  lemma RewriteIsGrounded(scan: seq<Scanned>, rows: seq<Row>, snapshots: Id -> seq<Snapped>, plan: SkuPlan, snap: Store, u: Job)
    returns (e: Entry)
    requires Complete(scan, rows, snapshots, plan) && IsSnapshot(snap, snapshots, plan.products) && u in plan.rewrites
    ensures Grounded(scan, rows, snap, plan, u, e)
  {
    assert IsRewrite(snapshots, plan, u);
    e :| e in plan.resolved && u == JobFor(snapshots, plan.products, e);
    assert EntryOk(scan, rows, snapshots, plan, e);
    EntryGrounds(scan, rows, snapshots, plan, snap, e);
  }

  lemma EntryGrounds(scan: seq<Scanned>, rows: seq<Row>, snapshots: Id -> seq<Snapped>, plan: SkuPlan, snap: Store, e: Entry)
    requires IsSnapshot(snap, snapshots, plan.products) && EntryOk(scan, rows, snapshots, plan, e) && e in plan.resolved
    requires SnapSku(snapshots, plan.products, e.variant) != Some(e.target)
    ensures Grounded(scan, rows, snap, plan, JobFor(snapshots, plan.products, e), e)
  {
    LiveIsNamed(scan, rows, e);
    SnapSkuIs(snap, snapshots, plan.products, e.variant);
    TableRow(snap, snapshots, plan.products, e.variant);
  }

  /** A SKU that was read stands in the table. */
  lemma TableRow(snap: Store, snapshots: Id -> seq<Snapped>, products: seq<Id>, v: Id)
    requires IsSnapshot(snap, snapshots, products) && v in snap
    ensures SnapSku(snapshots, products, v) == snap[v].sku
  {
    SnapSkuIs(snap, snapshots, products, v);
  }

  /** A row's variant was found by a SKU it carries. */
  lemma LiveIsNamed(scan: seq<Scanned>, rows: seq<Row>, e: Entry)
    requires FromRow(scan, rows, e)
    ensures e.live.Some?
  {
    var v :| Resolves(scan, rows, e.row, v) && e == EntryOf(rows, e.row, v);
    ReachesOne(scan, rows[e.row], v, v);
  }
  /** No variant of the products read carries a target that is still to be written. */
  lemma TargetIsUnread(scan: seq<Scanned>, rows: seq<Row>, snapshots: Id -> seq<Snapped>, plan: SkuPlan, snap: Store,
                       u: Job, e: Entry, v: Id)
    requires Complete(scan, rows, snapshots, plan) && IsSnapshot(snap, snapshots, plan.products)
    requires Grounded(scan, rows, snap, plan, u, e) && v in snap
    ensures snap[v].sku != u.to
  {
    var p, x :| p in plan.products && x in snapshots(p) && x.id == v;
    assert Once(plan.resolved, v);
    var i :| 0 <= i < |plan.resolved| && plan.resolved[i].variant == v;
    var other := plan.resolved[i];
    assert other in plan.resolved && Settled(snapshots, plan, other);
    SnapSkuIs(snap, snapshots, plan.products, v);
    if v != u.variant {
      if snap[v].sku == Some(other.target) {
        assert other != e;
      } else {
        var y :| Resolves(scan, rows, other.row, y) && other == EntryOf(rows, other.row, y);
        ReachesOne(scan, rows[other.row], y, y);
      }
    }
  }

  /** The formats a target is held to have neither spaces nor dashes. */
  ghost predicate FormatsArePlain() {
    forall n, target :: fits(n, target) ==> shaped(target)
  }

  lemma TargetsDiffer(scan: seq<Scanned>, rows: seq<Row>, plan: SkuPlan, snap: Store, u: Job, e: Entry, v: Job, f: Entry)
    requires TargetsApart(plan.resolved) && u.variant != v.variant
    requires Grounded(scan, rows, snap, plan, u, e) && Grounded(scan, rows, snap, plan, v, f)
    ensures u.to != v.to
  {
  }

  lemma RewriteIsOwn(scan: seq<Scanned>, rows: seq<Row>, plan: SkuPlan, s: Store, snap: Store, u: Job, e: Entry)
    requires IsScan(s, scan) && Grounded(scan, rows, snap, plan, u, e)
    ensures HasRow(s, u.variant, u.product, u.from)
  {
    var v :| Resolves(scan, rows, e.row, v) && e == EntryOf(rows, e.row, v);
    ReachesOne(scan, rows[e.row], v, v);
  }

  lemma RewriteIsOk(scan: seq<Scanned>, rows: seq<Row>, snapshots: Id -> seq<Snapped>, plan: SkuPlan, snap: Store, s: Store,
                    k: nat)
    requires Complete(scan, rows, snapshots, plan) && FormatsArePlain() && k < |plan.rewrites|
    requires IsSnapshot(snap, snapshots, plan.products) && IsScan(s, scan) && SameProducts(s, snap)
    ensures JobOk(snap, plan.rewrites, k) && RewriteFits(s, plan.rewrites[k])
  {
    var u := plan.rewrites[k];
    var e := RewriteIsGrounded(scan, rows, snapshots, plan, snap, u);
    RewriteIsOwn(scan, rows, plan, s, snap, u, e);
    NobodyElseHasIt(scan, s, e);
    forall v | v in snap ensures snap[v].sku != u.to {
      TargetIsUnread(scan, rows, snapshots, plan, snap, u, e, v);
    }
    forall i | 0 <= i < |plan.rewrites| && i != k
      ensures plan.rewrites[i].variant != u.variant && plan.rewrites[i].to != u.to
    {
      var f := RewriteIsGrounded(scan, rows, snapshots, plan, snap, plan.rewrites[i]);
      TargetsDiffer(scan, rows, plan, snap, plan.rewrites[i], f, u, e);
    }
  }

  /** The store carries what the rewrite takes away, and nowhere else what it writes. */
  ghost predicate RewriteFits(s: Store, u: Job) {
    && HasRow(s, u.variant, u.product, u.from) && u.from != u.to
    && forall v :: v in s && v != u.variant ==> s[v].sku != u.to
  }

  /** What `build_plan` builds without an anomaly, the load accepts: the plan passes
      `validate_plan` against the products the plan was built on, and on the store as
      scanned no target is taken. */
  lemma BuiltPlanIsAccepted(scan: seq<Scanned>, rows: seq<Row>, snapshots: Id -> seq<Snapped>, plan: SkuPlan, snap: Store, s: Store)
    requires Complete(scan, rows, snapshots, plan) && FormatsArePlain()
    requires IsSnapshot(snap, snapshots, plan.products) && IsScan(s, scan) && SameProducts(s, snap)
    ensures ValidPlan(snap, plan.rewrites) && !Collides(s, plan.rewrites)
    ensures forall u :: u in plan.rewrites ==> RewriteFits(s, u)
  {
    forall k | 0 <= k < |plan.rewrites| ensures JobOk(snap, plan.rewrites, k) && RewriteFits(s, plan.rewrites[k]) {
      RewriteIsOk(scan, rows, snapshots, plan, snap, s, k);
    }
    FitsMeansFree(s, plan.rewrites);
  }

  lemma FitsMeansFree(s: Store, jobs: seq<Job>)
    requires forall k :: 0 <= k < |jobs| ==> RewriteFits(s, jobs[k])
    ensures !Collides(s, jobs) && forall u :: u in jobs ==> RewriteFits(s, u)
  {
    assert forall u :: u in jobs ==> RewriteFits(s, u);
  }

  lemma NobodyElseHasIt(scan: seq<Scanned>, s: Store, e: Entry)
    requires IsScan(s, scan) && TargetFree(scan, e)
    ensures forall v :: v in s && v != e.variant ==> s[v].sku != Some(e.target)
  {
    forall v | v in s && v != e.variant ensures s[v].sku != Some(e.target) {
      var x :| x in scan && x.id == v;
      assert HasRow(s, x.id, x.product, x.sku);
    }
  }

  /** From the sheet to the rollback: a plan built without an anomaly keeps the store's
      SKUs unique wherever its execution stops, and its rollback brings every SKU back. */
  lemma BuiltPlanIsSafe(scan: seq<Scanned>, rows: seq<Row>, snapshots: Id -> seq<Snapped>, plan: SkuPlan, snap: Store, s: Store,
                        n: nat)
    requires Complete(scan, rows, snapshots, plan) && FormatsArePlain() && Unique(s)
    requires IsSnapshot(snap, snapshots, plan.products) && IsScan(s, scan) && SameProducts(s, snap)
    requires n <= |FirstSeen(Products(plan.rewrites))|
    ensures var order := FirstSeen(Products(plan.rewrites));
      var live := WriteProducts(s, plan.rewrites, order[..n]);
      var back := Reverting(live, Reversed(plan.rewrites), order);
      && Unique(live) && NoProblem(live, Reversed(plan.rewrites), order) && !Collides(live, back)
      && WriteProducts(live, back, FirstSeen(Products(back))) == s
  {
    var jobs, order := plan.rewrites, FirstSeen(Products(plan.rewrites));
    BuiltPlanIsAccepted(scan, rows, snapshots, plan, snap, s);
    ValidMeans(snap, s, jobs);
    UniqueAfterEveryPrefix(snap, s, jobs, order[..n]);
    StoppedRunRollsBack(s, jobs, order, n);
  }
}
