/** A whole load and its rollback: every product of the log is planned back in turn,
    whichever jobs completed, whichever one the run stopped in, and whichever it never
    reached. */
module WholeLoad {
  import opened Lists
  import opened Catalogue
  import opened KeepsForm
  import opened Executor
  import opened Apply
  import opened RollbackPlan
  import opened RollbackOwners
  import opened RollbackReaches
  import opened RollbackRestores
  import opened RollbackInverts
  import opened RollbackPlanner

  // ---- The log -----------------------------------------------------------------------------

  /** A product of the log: where it started, what it was promised, and how it reads now. */
  datatype Item = Item(job: Job, live: Product, listing: seq<Id>)

  ghost predicate ItemOk(x: Item) {
    && WellFormed(x.job.start) && AllKnown(x.job.start) && WellFormed(x.live) && AllKnown(x.live)
    && NoDup(x.listing) && (forall id :: id in x.listing <==> id in x.job.start.variants)
    && LinesUp(x.job.start, x.job.promise)
  }

  ghost predicate Reverts(x: Item) {
    NoProblem(x.job.start, x.job.promise, x.live, x.listing)
  }

  ghost predicate Idle(x: Item) {
    Reverts(x) && WritesNothing(x.live, RollbackOps(x.job.start, x.job.promise, x.live, x.listing))
  }

  /** The start state with the live prices. */
  function Target(x: Item): Product
    requires x.live.variants.Keys == x.job.start.variants.Keys
  {
    WithPrices(x.job.start, x.live)
  }

  ghost function BackJob(x: Item): Job
    requires Reverts(x)
  {
    Job(x.live, RollbackOps(x.job.start, x.job.promise, x.live, x.listing), Target(x))
  }

  /** A product is planned back exactly when its options and variants line up with the
      start, nothing on it is anybody else's, and the edits reach the start state. */
  lemma RevertsExactly(x: Item)
    requires ItemOk(x)
    ensures Reverts(x) <==>
      && LinesUp(x.job.start, x.live) && OwnState(x.job.start, x.job.promise, x.live)
      && ReachesStart(x.job.start, x.job.promise, x.live, x.listing)
  {
    RefusedExactly(x.job.start, x.job.promise, x.live, x.listing);
  }

  ghost predicate Stuck(x: Item) {
    !Reverts(x)
  }

  ghost predicate Busy(x: Item) {
    Reverts(x) && !Idle(x)
  }

  /** Which products are refused, which skipped, and for which a job is planned. */
  datatype LogPlan = LogPlan(problems: seq<nat>, skipped: seq<nat>, planned: seq<nat>, jobs: seq<Job>)

  /** The list names, in ascending order, the items among the first `n` that are `what`. */
  ghost predicate Selects(list: seq<nat>, items: seq<Item>, what: Item -> bool, n: nat)
    requires n <= |items|
  {
    && (forall j :: j in list <==> 0 <= j < n && what(items[j]))
    && (forall i, k :: 0 <= i < k < |list| ==> list[i] < list[k])
  }

  lemma SelectsOneMore(list: seq<nat>, items: seq<Item>, what: Item -> bool, n: nat)
    requires n < |items| && Selects(list, items, what, n)
    ensures Selects(if what(items[n]) then list + [n] else list, items, what, n + 1)
  {
    forall i | 0 <= i < |list| ensures list[i] < n {
      assert list[i] in list;
    }
  }

  ghost predicate IsBackJob(items: seq<Item>, j: nat, job: Job) {
    j < |items| && Reverts(items[j]) && job == BackJob(items[j])
  }

  ghost predicate PlansUpTo(items: seq<Item>, plan: LogPlan, n: nat)
    requires n <= |items|
  {
    && Selects(plan.problems, items, Stuck, n)
    && Selects(plan.skipped, items, Idle, n)
    && Selects(plan.planned, items, Busy, n)
    && |plan.jobs| == |plan.planned|
    && (forall i :: 0 <= i < |plan.planned| ==> IsBackJob(items, plan.planned[i], plan.jobs[i]))
  }

  /** `plan_rollback` for one product: a problem, a skip, or a job of its own. */
  method PlanItem(x: Item) returns (one: Plan)
    requires ItemOk(x)
    ensures one.Refused? <==> Stuck(x)
    ensures one.NothingToDo? <==> Idle(x)
    ensures one.Edits? <==> Busy(x)
    ensures one.Edits? ==> Job(x.live, one.ops, one.target) == BackJob(x)
  {
    one := PlanRollback(x.job.start, x.job.promise, x.live, x.listing);
  }

  function Grown(plan: LogPlan, j: nat, live: Product, one: Plan): LogPlan {
    match one
    case Refused(_) => plan.(problems := plan.problems + [j])
    case NothingToDo => plan.(skipped := plan.skipped + [j])
    case Edits(ops, target) => plan.(planned := plan.planned + [j], jobs := plan.jobs + [Job(live, ops, target)])
  }

  lemma SelectsGrown(items: seq<Item>, plan: LogPlan, j: nat, one: Plan, stuck: Item -> bool, idle: Item -> bool, busy: Item -> bool)
    requires j < |items|
    requires Selects(plan.problems, items, stuck, j) && Selects(plan.skipped, items, idle, j)
    requires Selects(plan.planned, items, busy, j)
    requires one.Refused? <==> stuck(items[j])
    requires one.NothingToDo? <==> idle(items[j])
    requires one.Edits? <==> busy(items[j])
    ensures var next := Grown(plan, j, items[j].live, one);
      && Selects(next.problems, items, stuck, j + 1) && Selects(next.skipped, items, idle, j + 1)
      && Selects(next.planned, items, busy, j + 1)
  {
    SelectsOneMore(plan.problems, items, stuck, j);
    SelectsOneMore(plan.skipped, items, idle, j);
    SelectsOneMore(plan.planned, items, busy, j);
  }

  /** `plan_rollback`, product after product. */
  method PlanLog(items: seq<Item>) returns (plan: LogPlan)
    requires forall j :: 0 <= j < |items| ==> ItemOk(items[j])
    ensures PlansUpTo(items, plan, |items|)
  {
    plan := LogPlan([], [], [], []);
    for j := 0 to |items|
      invariant PlansUpTo(items, plan, j)
    {
      var one := PlanItem(items[j]);
      SelectsGrown(items, plan, j, one, Stuck, Idle, Busy);
      plan := Grown(plan, j, items[j].live, one);
    }
  }

  // ---- A load that ran --------------------------------------------------------------------------

  /** The log's entries for job `j`; none when the run never reached it. */
  function StepsOf(log: seq<seq<Entry>>, j: nat): seq<Entry> {
    if j < |log| then log[j] else []
  }

  function LastState(job: Job, steps: seq<Entry>): Product {
    var t := Trace(job.start, steps); t[|t| - 1]
  }

  /** The recorded states of every job the run reached are a run of that job. */
  ghost predicate Ran(jobs: seq<Job>, log: seq<seq<Entry>>) {
    |log| <= |jobs|
    && forall j :: 0 <= j < |log| ==> IsRun(jobs[j].start, jobs[j].ops, Trace(jobs[j].start, log[j]))
  }

  /** However a run ends, it leaves such a log. */
  lemma ExecutedRan(jobs: seq<Job>, log: seq<seq<Entry>>, store: Store, stopped: bool)
    requires AllEnd(jobs, store, log, stopped)
    ensures Ran(jobs, log)
  {
    forall j | 0 <= j < |log| ensures IsRun(jobs[j].start, jobs[j].ops, Trace(jobs[j].start, log[j])) {
      EndedIsRun(jobs[j], store, j, log[j], !(stopped && j == |log| - 1));
    }
  }

  /** The job is a planner's, and its promise follows from its start and its edits. */
  ghost predicate PlannedJob(job: Job) {
    && WellFormed(job.start) && AllKnown(job.start)
    && ForwardJob(job.ops) && Promised(job.start, job.ops) && job.promise == Expected(job.start, job.ops)
  }

  ghost predicate Listed(x: Item) {
    NoDup(x.listing) && forall id :: id in x.listing <==> id in x.job.start.variants
  }

  /** The last write was made, but none of its re-reads was acceptable. */
  ghost predicate Unsettled(steps: seq<Entry>) {
    steps != [] && steps[|steps| - 1].Wrote? && steps[|steps| - 1].problems != []
  }

  /** The store has come to an acceptable answer to the write after all. */
  ghost predicate SettledLate(job: Job, steps: seq<Entry>, next: Product) {
    var t := Trace(job.start, steps);
    Unsettled(steps) && |t| <= |job.ops|
    && StoreStep(t[|t| - 1], job.ops[|t| - 1], RestoreFollows(job.ops, |t| - 1), next)
  }

  /** Where the record leaves the product, or where its unsettled write came to. */
  ghost predicate Leaves(job: Job, steps: seq<Entry>, last: Product) {
    last == LastState(job, steps) || SettledLate(job, steps, last)
  }

  /** The product stands there; prices may have changed since. */
  ghost predicate AsRecorded(x: Item, steps: seq<Entry>) {
    PlannedJob(x.job) && Listed(x) && exists last :: Leaves(x.job, steps, last) && Repriced(last, x.live)
  }

  /** Every job is a planner's, and every product stands where its record leaves off. */
  ghost predicate AllAsRecorded(items: seq<Item>, log: seq<seq<Entry>>) {
    forall j :: 0 <= j < |items| ==> AsRecorded(items[j], StepsOf(log, j))
  }

  function JobsOf(items: seq<Item>): (jobs: seq<Job>)
    ensures |jobs| == |items| && forall j :: 0 <= j < |items| ==> jobs[j] == items[j].job
  {
    seq(|items|, j requires 0 <= j < |items| => items[j].job)
  }

  lemma StartIsRun(job: Job)
    ensures IsRun(job.start, job.ops, [job.start])
  {
  }

  lemma RecordIsRun(items: seq<Item>, log: seq<seq<Entry>>, j: nat)
    requires Ran(JobsOf(items), log) && j < |items|
    ensures IsRun(items[j].job.start, items[j].job.ops, Trace(items[j].job.start, StepsOf(log, j)))
  {
    assert JobsOf(items)[j] == items[j].job;
    StartIsRun(items[j].job);
  }

  /** The product is planned back without a problem, its edits lead to the start with
      live prices, and it is skipped exactly when it is there already. */
  ghost predicate Restores(x: Item) {
    && Reverts(x) && Goes(x.live, BackJob(x).ops, Target(x))
    && (Idle(x) <==> x.live == Target(x))
  }

  lemma ItemRestores(x: Item, steps: seq<Entry>)
    requires AsRecorded(x, steps) && IsRun(x.job.start, x.job.ops, Trace(x.job.start, steps))
    ensures Restores(x)
  {
    var last :| Leaves(x.job, steps, last) && Repriced(last, x.live);
    var trace := LeavesRun(x.job, steps, last);
    RunRestores(x, trace);
  }

  lemma LeavesRun(job: Job, steps: seq<Entry>, last: Product) returns (trace: seq<Product>)
    requires IsRun(job.start, job.ops, Trace(job.start, steps)) && Leaves(job, steps, last)
    ensures IsRun(job.start, job.ops, trace) && trace[|trace| - 1] == last
  {
    trace := Trace(job.start, steps);
    if last != LastState(job, steps) {
      trace := trace + [last];
    }
  }

  lemma RunRestores(x: Item, trace: seq<Product>)
    requires PlannedJob(x.job) && Listed(x) && IsRun(x.job.start, x.job.ops, trace) && Repriced(trace[|trace| - 1], x.live)
    ensures Restores(x)
  {
    RollbackInvertsEveryPrefix(x.job.start, x.job.ops, trace, |trace| - 1, x.live, x.listing);
    SkippedExactlyAtStart(x.job.start, x.job.promise, x.live, x.listing);
  }

  /** Whether its job completed, was stopped, or was never reached. */
  lemma EveryProductRestores(items: seq<Item>, log: seq<seq<Entry>>, j: nat)
    requires AllAsRecorded(items, log) && Ran(JobsOf(items), log) && j < |items|
    ensures Restores(items[j])
  {
    RecordIsRun(items, log, j);
    assert AsRecorded(items[j], StepsOf(log, j));
    ItemRestores(items[j], StepsOf(log, j));
  }

  lemma UntouchedIsAtStart(x: Item)
    requires AsRecorded(x, [])
    ensures x.live.variants.Keys == x.job.start.variants.Keys && x.live == Target(x)
  {
    assert LastState(x.job, []) == x.job.start && !Unsettled([]);
    assert x.live.variants == Target(x).variants;
  }

  /** Planning back a load that ran meets no problem anywhere, and plans a job for
      exactly the products not already at their start, none of them one the run never
      reached. */
  lemma LoadIsPlannedBack(items: seq<Item>, log: seq<seq<Entry>>, plan: LogPlan)
    requires AllAsRecorded(items, log) && Ran(JobsOf(items), log) && PlansUpTo(items, plan, |items|)
    ensures plan.problems == []
    ensures forall j :: j in plan.planned ==> j < |log|
    ensures forall j :: 0 <= j < |items| ==> Restores(items[j]) && (j in plan.planned <==> items[j].live != Target(items[j]))
  {
    forall j | 0 <= j < |items|
      ensures Restores(items[j]) && (j in plan.planned <==> items[j].live != Target(items[j]))
      ensures j in plan.planned ==> j < |log|
    {
      EveryProductRestores(items, log, j);
      if j >= |log| {
        assert AsRecorded(items[j], StepsOf(log, j));
        UntouchedIsAtStart(items[j]);
      }
    }
    EmptyOrSome(plan.problems);
  }

  // ---- The rollback of the load ---------------------------------------------------------------------

  /** Where the rollback leaves product `j`: where its job ended, or untouched. */
  ghost predicate LeftBy(items: seq<Item>, plan: LogPlan, back: seq<seq<Entry>>, j: nat, end: Product)
    requires j < |items| && |plan.jobs| == |plan.planned| <= |back|
  {
    && (j !in plan.planned ==> end == items[j].live)
    && (forall i :: 0 <= i < |plan.planned| && plan.planned[i] == j ==> end == LastState(plan.jobs[i], back[i]))
  }

  lemma BackJobEnds(x: Item, job: Job, steps: seq<Entry>)
    requires Restores(x) && job == BackJob(x) && Completed(job, steps)
    ensures LastState(job, steps) == Target(x)
  {
    CompletedRollbackRestores(x.job.start, x.job.promise, x.live, x.listing, Trace(x.live, steps));
  }

  /** A rollback that completes puts every product of the load back to where it started,
      with the prices it has now, wherever the load had stopped. */
  lemma LoadRollsBack(items: seq<Item>, log: seq<seq<Entry>>, plan: LogPlan, back: seq<seq<Entry>>, j: nat, end: Product)
    requires AllAsRecorded(items, log) && Ran(JobsOf(items), log) && PlansUpTo(items, plan, |items|)
    requires AllCompleted(plan.jobs, back, |plan.jobs|) && j < |items| && LeftBy(items, plan, back, j, end)
    ensures items[j].live.variants.Keys == items[j].job.start.variants.Keys
    ensures end == Target(items[j])
  {
    EveryProductRestores(items, log, j);
    if j in plan.planned {
      var i :| 0 <= i < |plan.planned| && plan.planned[i] == j;
      assert Completed(plan.jobs[i], back[i]);
      assert IsBackJob(items, plan.planned[i], plan.jobs[i]);
      BackJobEnds(items[j], plan.jobs[i], back[i]);
    } else {
      NotPlannedIsThere(items, plan, j);
    }
  }

  lemma NotPlannedIsThere(items: seq<Item>, plan: LogPlan, j: nat)
    requires PlansUpTo(items, plan, |items|) && j < |items| && j !in plan.planned && Restores(items[j])
    ensures items[j].live == Target(items[j])
  {
    assert !Busy(items[j]);
  }
}
