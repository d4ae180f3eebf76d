/** The apply script: the guard before each write, the settled re-read after it, and
    the loop over jobs that stops at the first surprise. */
module Apply {
  import opened Lists
  import opened Catalogue
  import opened Edits
  import opened KeepsForm
  import opened Compare
  import opened Executor
  import opened Simulation

  datatype Problem =
    | TitleDiffers | HandleDiffers | NoSuchOption(option: Id)
    | NotValue(name: Name) | WouldCollide(name: Name) | Exists(name: Name)
    | VariantIsGone(variant: Id) | StandsElsewhere(variant: Id) | NoSuchValue(name: Name) | CombinationExists(variant: Id)
    | StillUsed(name: Name) | OptionsNotListed | ValuesDiffer(option: Id) | PositionsIncomplete

  // ---- precondition -------------------------------------------------------------------------

  method CheckRenames(o: ProductOption, renames: seq<Rename>) returns (out: seq<Problem>)
    requires OptionOk(o)
    ensures out == [] <==>
      (forall r :: r in renames ==> r.from in o.values && r.from in o.ids && o.ids[r.from] == Some(r.valueId))
      && NoClash(o.values, renames)
  {
    out := [];
    for k := 0 to |renames|
      invariant out == [] <==>
        (forall r :: r in renames[..k] ==> r.from in o.values && r.from in o.ids && o.ids[r.from] == Some(r.valueId))
        && NoClash(o.values, renames[..k])
    {
      var r := renames[k];
      assert renames[..k + 1] == renames[..k] + [r];
      assert r.from in o.ids <==> r.from in Elems(o.values);
      if !(r.from in o.ids && o.ids[r.from] == Some(r.valueId)) {
        out := out + [NotValue(r.from)];
      }
      if exists v | v in o.values :: norm(v) == norm(r.to) && v != r.from {
        out := out + [WouldCollide(r.to)];
      }
    }
    assert renames[..|renames|] == renames;
  }

  ghost predicate MovePasses(p: Product, o: ProductOption, m: Move) {
    MoveFits(p, o, m) && m.to in o.ids && o.ids[m.to].Some?
  }

  method CheckMoves(p: Product, i: nat, moves: seq<Move>) returns (out: seq<Problem>)
    requires WellFormed(p) && i < |p.options|
    ensures out == [] <==> forall m :: m in moves ==> MovePasses(p, p.options[i], m)
  {
    out := [];
    var o := p.options[i];
    var occupied := set u | u in p.variants :: p.variants[u].choice;
    for k := 0 to |moves|
      invariant out == [] <==> forall m :: m in moves[..k] ==> MovePasses(p, o, m)
    {
      var m := moves[k];
      ghost var before := out;
      assert moves[..k + 1] == moves[..k] + [m];
      assert m in moves[..k + 1];
      if m.variantId !in p.variants {
        out := out + [VariantIsGone(m.variantId)];
      } else {
        var choice := p.variants[m.variantId].choice;
        if !(o.name in choice && choice[o.name] == m.from) {
          out := out + [StandsElsewhere(m.variantId)];
        }
        if !(m.to in o.ids && o.ids[m.to].Some?) {
          out := out + [NoSuchValue(m.to)];
        }
        if choice[o.name := m.to] in occupied {
          out := out + [CombinationExists(m.variantId)];
        }
      }
      assert out == [] <==> before == [] && MovePasses(p, o, m);
    }
    assert moves[..|moves|] == moves;
  }

  method CheckOrders(p: Product, orders: seq<ValueOrder>) returns (out: seq<Problem>)
    requires OptionsOk(p.options)
    ensures out == [] <==> Fits(p, ReorderValues(orders))
  {
    out := [];
    if |orders| != |p.options| || exists i | 0 <= i < |orders| :: orders[i].id != p.options[i].id {
      out := [OptionsNotListed];
      return;
    }
    for k := 0 to |orders|
      invariant out == [] <==> forall i :: 0 <= i < k ==> multiset(orders[i].values) == multiset(p.options[i].values)
    {
      assert p.options[k].id == orders[k].id;
      var i := IndexOf(p.options, orders[k].id);
      if multiset(p.options[i].values) != multiset(orders[k].values) {
        out := out + [ValuesDiffer(orders[k].id)];
      }
    }
  }

  /** `precondition`: no problem is found exactly when the edit passes. */
  method Precondition(p: Product, op: Op) returns (out: seq<Problem>)
    requires WellFormed(p)
    ensures out == [] <==> Passes(p, op)
  {
    out := [];
    if (op.RenameValues? || op.AddValue? || op.MoveVariants? || op.DeleteValue?) && !HasOption(p, op.optionId) {
      return [NoSuchOption(op.optionId)];
    }
    match op
    case Title(from, _, handle) =>
      if p.title != from { out := out + [TitleDiffers]; }
      if p.handle != handle { out := out + [HandleDiffers]; }
    case RenameValues(id, renames) =>
      assert OptionOk(p.options[IndexOf(p.options, id)]);
      out := CheckRenames(p.options[IndexOf(p.options, id)], renames);
    case AddValue(id, name) =>
      if exists v | v in p.options[IndexOf(p.options, id)].values :: norm(v) == norm(name) {
        out := [Exists(name)];
      }
    case MoveVariants(id, moves) => out := CheckMoves(p, IndexOf(p.options, id), moves);
    case DeleteValue(id, valueId, name) =>
      var o := p.options[IndexOf(p.options, id)];
      assert OptionOk(o);
      assert name in o.ids <==> name in Elems(o.values);
      if !(name in o.ids && o.ids[name] == Some(valueId)) { out := out + [NotValue(name)]; }
      if exists u | u in p.variants :: o.name in p.variants[u].choice && p.variants[u].choice[o.name] == name {
        out := out + [StillUsed(name)];
      }
    case ReorderValues(orders) => out := CheckOrders(p, orders);
    case RestorePositions(order) =>
      if multiset(order) != multiset(p.variants.Keys) { out := [PositionsIncomplete]; }
  }

  method IsSatisfied(p: Product, op: Op) returns (b: bool)
    requires Positioned(p.variants)
    ensures b == Satisfied(p, op)
  {
    match op
    case ReorderValues(orders) =>
      return forall w | w in orders :: HasOption(p, w.id) && p.options[IndexOf(p.options, w.id)].values == w.values;
    case RestorePositions(order) =>
      var current := OwnOrder(p.variants);
      return current == order;
    case _ => return false;
  }

  // ---- execute ---------------------------------------------------------------------------------

  const SETTLE_READS: nat := 5

  /** What the store answers: to the read before a job, and to each re-read after a
      write. It answers well-formed products with known ids, and nothing more is known. */
  datatype Store = Store(first: nat -> Product, again: (nat, nat, nat) -> Product)

  ghost predicate Answers(store: Store) {
    && (forall j :: WellFormed(store.first(j)) && AllKnown(store.first(j)))
    && (forall j, i, a :: WellFormed(store.again(j, i, a)) && AllKnown(store.again(j, i, a)))
  }

  ghost predicate Accepted(expected: Product, flags: Flags, free: bool, live: Product) {
    || Matches(expected, live, flags.freeValues, free)
    || (flags.alternative.Some? && Matches(flags.alternative.value, live, {}, free))
  }

  ghost predicate FirstAccepted(store: Store, j: nat, i: nat, expected: Product, flags: Flags, free: bool,
                                a: nat, live: Product) {
    && live == store.again(j, i, a)
    && (forall b :: 0 <= b < a ==> !Accepted(expected, flags, free, store.again(j, i, b)))
    && (Accepted(expected, flags, free, live) || a == SETTLE_READS - 1)
  }

  ghost predicate SettledOn(store: Store, j: nat, i: nat, expected: Product, flags: Flags, free: bool, live: Product) {
    exists a :: 0 <= a < SETTLE_READS && FirstAccepted(store, j, i, expected, flags, free, a, live)
  }

  /** `settled_read`: the first of five re-reads that is the expected state or the
      accepted alternative; otherwise the last one, with its differences. */
  method SettledRead(store: Store, j: nat, i: nat, expected: Product, flags: Flags, free: bool)
    returns (live: Product, problems: seq<Difference>)
    ensures SettledOn(store, j, i, expected, flags, free, live)
    ensures problems == [] <==> Accepted(expected, flags, free, live)
  {
    var attempt := 0;
    while true
      invariant 0 <= attempt < SETTLE_READS
      invariant forall b :: 0 <= b < attempt ==> !Accepted(expected, flags, free, store.again(j, i, b))
      decreases SETTLE_READS - attempt
    {
      live := store.again(j, i, attempt);
      problems := FindDifferences(expected, live, flags.freeValues, free);
      if problems != [] && flags.alternative.Some? {
        var other := FindDifferences(flags.alternative.value, live, {}, free);
        if other == [] {
          problems := [];
        }
      }
      if problems == [] || attempt == SETTLE_READS - 1 {
        assert FirstAccepted(store, j, i, expected, flags, free, attempt, live);
        return;
      }
      attempt := attempt + 1;
    }
  }

  datatype Entry = Skipped(op: Op) | Wrote(op: Op, after: Product, problems: seq<Difference>)
  datatype Job = Job(start: Product, ops: seq<Op>, promise: Product)

  /** Without a value reorder, where the store put an added value is its call. */
  function FinalFlags(ops: seq<Op>): Flags {
    if exists i :: 0 <= i < |ops| && ops[i].ReorderValues? then NoFlags else FirstAdded(ops)
  }

  function FirstAdded(ops: seq<Op>): Flags {
    if ops == [] then NoFlags
    else if ops[0].AddValue? then NoFlags.(freeValues := {(ops[0].optionId, ops[0].name)})
    else FirstAdded(ops[1..])
  }

  /** One of the five final re-reads is the promised product. */
  ghost predicate Verified(job: Job, store: Store, j: nat) {
    exists a :: 0 <= a < SETTLE_READS
      && Matches(job.promise, store.again(j, |job.ops|, a), FinalFlags(job.ops).freeValues, false)
  }

  /** A skipped edit leaves the last state, a settled write the state read after it. */
  function Recorded(t: seq<Product>, entry: Entry): seq<Product>
    requires t != []
  {
    if entry.Skipped? then t + [t[|t| - 1]]
    else if entry.problems == [] then t + [entry.after] else t
  }

  /** The states a job's log entries record. */
  function Trace(start: Product, steps: seq<Entry>): (t: seq<Product>)
    ensures |t| >= 1 && t[0] == start
  {
    if steps == [] then [start]
    else Recorded(Trace(start, steps[..|steps| - 1]), steps[|steps| - 1])
  }

  ghost predicate Completed(job: Job, steps: seq<Entry>) {
    IsRun(job.start, job.ops, Trace(job.start, steps)) && |Trace(job.start, steps)| == |job.ops| + 1
  }

  /** One of the edits to come restores the positions. */
  ghost predicate PutBackLater(rest: seq<Op>) {
    exists op :: op in rest && op.RestorePositions?
  }

  lemma PutBackFollows(ops: seq<Op>, i: nat)
    requires i < |ops|
    ensures PutBackLater(ops[i + 1..]) <==> RestoreFollows(ops, i)
  {
    if j :| i < j < |ops| && ops[j].RestorePositions? {
      assert ops[i + 1..][j - i - 1] == ops[j];
    }
  }

  /** Re-read `a` after edit `i` is one the script takes for the outcome of its write. */
  ghost predicate TakenAt(job: Job, store: Store, j: nat, i: nat, current: Product, a: int) {
    && i < |job.ops| && 0 <= a < SETTLE_READS
    && Settled(current, job.ops[i], PutBackLater(job.ops[i + 1..]), store.again(j, i, a))
  }

  ghost predicate FirstTaken(job: Job, store: Store, j: nat, i: nat, current: Product, a: int) {
    TakenAt(job, store, j, i, current, a) && forall b :: 0 <= b < a ==> !TakenAt(job, store, j, i, current, b)
  }

  ghost predicate NoneTaken(job: Job, store: Store, j: nat, i: nat, current: Product) {
    forall a :: !TakenAt(job, store, j, i, current, a)
  }

  /** Where edit `i` takes the product, told from the store's answers: it stays if the edit
      is conditional and satisfied; otherwise, if the guard passes, the first acceptable one
      of the five re-reads; and nowhere if the guard refuses or no re-read is acceptable. */
  ghost predicate NextIs(job: Job, store: Store, j: nat, i: nat, current: Product, next: Maybe<Product>)
    requires i < |job.ops| && WellFormed(current)
  {
    var op := job.ops[i];
    if Conditional(op) && Satisfied(current, op) then next == Some(current)
    else match next
      case Some(live) =>
        Passes(current, op) && exists a :: FirstTaken(job, store, j, i, current, a) && live == store.again(j, i, a)
      case None => Passes(current, op) ==> NoneTaken(job, store, j, i, current)
  }

  /** What is recorded of an edit that took the product from one state to the next. */
  ghost function EntryOf(current: Product, op: Op, next: Product): Entry
    requires WellFormed(current)
  {
    if Conditional(op) && Satisfied(current, op) then Skipped(op) else Wrote(op, next, [])
  }

  /** A write none of whose re-reads was acceptable is recorded with its differences. */
  ghost predicate LeftUnsettled(job: Job, store: Store, j: nat, i: nat, current: Product, entry: Entry) {
    && i < |job.ops| && Passes(current, job.ops[i]) && Runs(current, job.ops[i])
    && entry.Wrote? && entry.op == job.ops[i] && entry.after == store.again(j, i, SETTLE_READS - 1) && entry.problems != []
  }

  /** The entries end there, but perhaps for an unsettled write. */
  ghost predicate EndsSteps(job: Job, store: Store, j: nat, i: nat, current: Product, steps: seq<Entry>, ended: seq<Entry>) {
    ended == steps
    || (|ended| == |steps| + 1 && ended[..|steps|] == steps && LeftUnsettled(job, store, j, i, current, ended[|steps|]))
  }

  ghost predicate StepAt(job: Job, store: Store, j: nat, t: seq<Product>, steps: seq<Entry>, k: nat) {
    && k < |job.ops| && k + 1 < |t| && k < |steps| && WellFormed(t[k])
    && NextIs(job, store, j, k, t[k], Some(t[k + 1])) && steps[k] == EntryOf(t[k], job.ops[k], t[k + 1])
  }

  /** Every recorded state is where the store's answers took the job, edit by edit. */
  ghost predicate StepsAre(job: Job, store: Store, j: nat, steps: seq<Entry>) {
    var t := Trace(job.start, steps);
    && IsRun(job.start, job.ops, t) && |t| - 1 <= |steps| <= |t|
    && (forall k :: 0 <= k < |t| - 1 ==> StepAt(job, store, j, t, steps, k))
    && WellFormed(t[|t| - 1])
    && (|steps| == |t| ==> LeftUnsettled(job, store, j, |t| - 1, t[|t| - 1], steps[|steps| - 1]))
  }

  /** How the job ends: at its end, or because its product had drifted before the first
      edit, or where an edit takes it nowhere. */
  ghost predicate EndsAs(job: Job, store: Store, j: nat, steps: seq<Entry>, ok: bool) {
    var t := Trace(job.start, steps);
    && StepsAre(job, store, j, steps)
    && (ok ==> store.first(j) == job.start && |t| == |job.ops| + 1 && |steps| == |job.ops|)
    && (!ok ==> if store.first(j) != job.start then steps == []
                else |t| <= |job.ops| && NextIs(job, store, j, |t| - 1, t[|t| - 1], None))
  }

  /** Among five answers some come first. */
  lemma FirstOfTaken(job: Job, store: Store, j: nat, i: nat, current: Product, a: nat)
    requires i < |job.ops| && Answers(store) && Runs(current, job.ops[i])
    requires var op := job.ops[i];
      var flags := FlagsOf(current, op);
      FirstAccepted(store, j, i, Simulate(current, op), flags,
                    flags.positionsFree || (op.MoveVariants? && RestoreFollows(job.ops, i)), a, store.again(j, i, a))
      && a < SETTLE_READS
    ensures TakenAt(job, store, j, i, current, a) ==> FirstTaken(job, store, j, i, current, a)
    ensures !TakenAt(job, store, j, i, current, a) ==>
      a == SETTLE_READS - 1 && NoneTaken(job, store, j, i, current)
  {
    PutBackFollows(job.ops, i);
  }

  /** What `settled_read` returned is where the edit takes the product. */
  lemma SettledIsNext(job: Job, store: Store, j: nat, i: nat, current: Product, free: bool, live: Product, left: seq<Difference>)
    requires Answers(store) && i < |job.ops| && WellFormed(current) && Passes(current, job.ops[i]) && Runs(current, job.ops[i])
    requires !(Conditional(job.ops[i]) && Satisfied(current, job.ops[i]))
    requires var op := job.ops[i];
      var flags := FlagsOf(current, op);
      && free == (flags.positionsFree || (op.MoveVariants? && RestoreFollows(job.ops, i)))
      && SettledOn(store, j, i, Simulate(current, op), flags, free, live)
      && (left == [] <==> Accepted(Simulate(current, op), flags, free, live))
    ensures NextIs(job, store, j, i, current, if left == [] then Some(live) else None)
    ensures left != [] ==> LeftUnsettled(job, store, j, i, current, Wrote(job.ops[i], live, left))
  {
    var a :| 0 <= a < SETTLE_READS
      && FirstAccepted(store, j, i, Simulate(current, job.ops[i]), FlagsOf(current, job.ops[i]), free, a, live);
    FirstOfTaken(job, store, j, i, current, a);
    PutBackFollows(job.ops, i);
  }

  method RestoreComesLater(ops: seq<Op>, i: nat) returns (b: bool)
    requires i < |ops|
    ensures b == RestoreFollows(ops, i)
  {
    return exists j | i < j < |ops| :: ops[j].RestorePositions?;
  }

  class Run {
    var armed: bool
    var stopped: bool
    var log: seq<seq<Entry>>

    constructor ()
      ensures !armed && !stopped && log == []
    {
      armed, stopped, log := false, false, [];
    }

    method Record(j: nat, entry: Entry)
      requires j < |log|
      modifies this`log
      ensures log == old(log)[j := old(log)[j] + [entry]]
    {
      log := log[j := log[j] + [entry]];
    }

    /** The write of one edit, settled or not. */
    method WriteEdit(job: Job, store: Store, j: nat, i: nat, current: Product) returns (next: Maybe<Product>)
      requires Answers(store) && j < |log| && i < |job.ops| && WellFormed(current) && Passes(current, job.ops[i])
      requires !(Conditional(job.ops[i]) && Satisfied(current, job.ops[i]))
      modifies this`log
      ensures |log| == |old(log)| && log[..j] == old(log)[..j]
      ensures NextIs(job, store, j, i, current, next)
      ensures next.Some? ==> log[j] == old(log)[j] + [Wrote(job.ops[i], next.value, [])]
      ensures next.None? ==> EndsSteps(job, store, j, i, current, old(log)[j], log[j])
    {
      var op := job.ops[i];
      FormReadable(current);
      var simulated := SimulateEdit(current, op);
      if simulated.None? {
        return None;
      }
      var later := RestoreComesLater(job.ops, i);
      var (expected, flags) := simulated.value;
      var free := flags.positionsFree || (op.MoveVariants? && later);
      var live, left := SettledRead(store, j, i, expected, flags, free);
      SettledIsNext(job, store, j, i, current, free, live, left);
      Record(j, Wrote(op, live, left));
      if left != [] {
        return None;
      }
      return Some(live);
    }

    /** One edit: skipped when already satisfied; otherwise checked, written, re-read
        and recorded. None when something stops the job. */
    method RunEdit(job: Job, store: Store, j: nat, i: nat, current: Product) returns (next: Maybe<Product>)
      requires Answers(store) && j < |log| && i < |job.ops| && WellFormed(current)
      modifies this`log
      ensures |log| == |old(log)| && log[..j] == old(log)[..j]
      ensures NextIs(job, store, j, i, current, next)
      ensures next.Some? ==> log[j] == old(log)[j] + [EntryOf(current, job.ops[i], next.value)]
      ensures next.None? ==> EndsSteps(job, store, j, i, current, old(log)[j], log[j])
    {
      var op := job.ops[i];
      var done := IsSatisfied(current, op);
      if Conditional(op) && done {
        Record(j, Skipped(op));
        return Some(current);
      }
      var problems := Precondition(current, op);
      if problems != [] {
        return None;
      }
      next := WriteEdit(job, store, j, i, current);
    }

    /** One job, from its drift check to its last edit: exactly the states the store's
        answers lead to, and exactly the reason why it ends. */
    method RunJob(job: Job, store: Store, j: nat) returns (ok: bool)
      requires Answers(store) && WellFormed(job.start) && AllKnown(job.start)
      requires j == |log|
      modifies this`log
      ensures |log| == j + 1 && log[..j] == old(log)
      ensures EndsAs(job, store, j, log[j], ok)
    {
      log := log + [[]];
      var current := store.first(j);
      var drift := FindDifferences(job.start, current, {}, false);
      StrictMatchIsEquality(job.start, current);
      if drift != [] {
        return false;
      }
      for i := 0 to |job.ops|
        invariant |log| == j + 1 && log[..j] == old(log)
        invariant StepsAre(job, store, j, log[j]) && |log[j]| == i
        invariant |Trace(job.start, log[j])| == i + 1 && Trace(job.start, log[j])[i] == current
        invariant WellFormed(current) && AllKnown(current)
      {
        ghost var steps := log[j];
        var next := RunEdit(job, store, j, i, current);
        if next.None? {
          StepsEnd(job, store, j, steps, log[j], current, i);
          return false;
        }
        StepsMore(job, store, j, steps, i, current, next.value);
        current := next.value;
      }
      return true;
    }

    /** The final re-read of every product, against what was promised for it. */
    method Verify(jobs: seq<Job>, store: Store) returns (mismatches: seq<nat>)
      ensures forall j :: j in mismatches <==> 0 <= j < |jobs| && !Verified(jobs[j], store, j)
    {
      mismatches := [];
      for j := 0 to |jobs|
        invariant forall i :: i in mismatches <==> 0 <= i < j && !Verified(jobs[i], store, i)
      {
        var job := jobs[j];
        NothingElseAccepted(job.ops);
        var live, problems := SettledRead(store, j, |job.ops|, job.promise, FinalFlags(job.ops), false);
        ReadIsVerified(job, store, j, live);
        if problems != [] {
          mismatches := mismatches + [j];
        }
      }
    }

    method RunAll(jobs: seq<Job>, store: Store)
      requires Answers(store) && forall j :: 0 <= j < |jobs| ==> WellFormed(jobs[j].start) && AllKnown(jobs[j].start)
      requires log == [] && !stopped
      modifies this`log, this`stopped
      ensures if stopped then |log| > 0 else |log| == |jobs|
      ensures AllEnd(jobs, store, log, stopped)
    {
      for j := 0 to |jobs|
        invariant |log| == j && !stopped && AllEnd(jobs, store, log, false)
      {
        var ok := RunJob(jobs[j], store, j);
        if !ok {
          stopped := true;
          break;
        }
      }
    }

    /** `execute`: job after job, stopping at the first one that does not complete; then
        every product is read again. Writing is armed only in between, and a run to the
        end names the products that are not as promised. */
    method Execute(jobs: seq<Job>, store: Store) returns (mismatches: seq<nat>)
      requires Answers(store) && forall j :: 0 <= j < |jobs| ==> WellFormed(jobs[j].start) && AllKnown(jobs[j].start)
      requires log == [] && !stopped
      modifies this
      ensures !armed && |log| <= |jobs|
      ensures if stopped then |log| > 0 else |log| == |jobs|
      ensures AllEnd(jobs, store, log, stopped)
      ensures !stopped ==> forall j :: j in mismatches <==> 0 <= j < |jobs| && !Verified(jobs[j], store, j)
    {
      mismatches := [];
      armed := true;
      RunAll(jobs, store);
      armed := false;
      if !stopped {
        mismatches := Verify(jobs, store);
      }
    }
  }

  /** The final re-read has no alternative. */
  lemma {:induction false} NothingElseAccepted(ops: seq<Op>)
    ensures FirstAdded(ops).alternative.None? && FinalFlags(ops).alternative.None?
  {
    if ops != [] {
      NothingElseAccepted(ops[1..]);
    }
  }

  lemma ReadIsVerified(job: Job, store: Store, j: nat, live: Product)
    requires FinalFlags(job.ops).alternative.None?
    requires SettledOn(store, j, |job.ops|, job.promise, FinalFlags(job.ops), false, live)
    ensures Accepted(job.promise, FinalFlags(job.ops), false, live) <==> Verified(job, store, j)
  {
    var a :| 0 <= a < SETTLE_READS
      && FirstAccepted(store, j, |job.ops|, job.promise, FinalFlags(job.ops), false, a, live);
    if Verified(job, store, j) {
      var b :| 0 <= b < SETTLE_READS
        && Matches(job.promise, store.again(j, |job.ops|, b), FinalFlags(job.ops).freeValues, false);
    }
  }

  /** A completed job that ends with the two ordering edits passes the final comparison,
      whatever the store answered on the way, if nobody edited the product since. */
  lemma CompletedIsVerified(job: Job, store: Store, j: nat, steps: seq<Entry>, a: nat)
    requires WellFormed(job.start) && AllKnown(job.start) && SoundJob(job.ops) && EndsOrdered(job.start, job.ops)
    requires Completed(job, steps) && RunsAll(job.start, job.ops) && job.promise == Expected(job.start, job.ops)
    requires a < SETTLE_READS && store.again(j, |job.ops|, a) == Trace(job.start, steps)[|job.ops|]
    ensures Verified(job, store, j)
  {
    CompletedRunsAgree(job.start, job.ops, Trace(job.start, steps));
    assert job.ops[|job.ops| - 2].ReorderValues?;
    assert Matches(job.promise, store.again(j, |job.ops|, a), FinalFlags(job.ops).freeValues, false);
  }

  ghost predicate AllCompleted(jobs: seq<Job>, log: seq<seq<Entry>>, n: nat) {
    n <= |jobs| && n <= |log| && forall j :: 0 <= j < n ==> Completed(jobs[j], log[j])
  }

  /** Every job the run reached ended well, but for the last one of a run that stopped. */
  ghost predicate AllEnd(jobs: seq<Job>, store: Store, log: seq<seq<Entry>>, stopped: bool) {
    |log| <= |jobs|
    && forall j :: 0 <= j < |log| ==> EndsAs(jobs[j], store, j, log[j], !(stopped && j == |log| - 1))
  }

  lemma EndedIsRun(job: Job, store: Store, j: nat, steps: seq<Entry>, ok: bool)
    requires EndsAs(job, store, j, steps, ok)
    ensures IsRun(job.start, job.ops, Trace(job.start, steps)) && (ok ==> Completed(job, steps))
  {
  }

  /** A run to the end completes every job. */
  lemma AllEndedCompleted(jobs: seq<Job>, store: Store, log: seq<seq<Entry>>)
    requires AllEnd(jobs, store, log, false) && |log| == |jobs|
    ensures AllCompleted(jobs, log, |jobs|)
  {
    forall j | 0 <= j < |jobs| ensures Completed(jobs[j], log[j]) {
      EndedIsRun(jobs[j], store, j, log[j], true);
    }
  }

  lemma NextIsStep(job: Job, store: Store, j: nat, i: nat, current: Product, next: Product)
    requires Answers(store) && i < |job.ops| && WellFormed(current) && AllKnown(current)
    requires NextIs(job, store, j, i, current, Some(next))
    ensures StoreStep(current, job.ops[i], RestoreFollows(job.ops, i), next) && WellFormed(next) && AllKnown(next)
  {
    PutBackFollows(job.ops, i);
  }

  lemma StepStays(job: Job, store: Store, j: nat, t: seq<Product>, steps: seq<Entry>, k: nat, next: Product, entry: Entry)
    requires StepAt(job, store, j, t, steps, k)
    ensures StepAt(job, store, j, t + [next], steps + [entry], k)
  {
  }

  lemma StepsMore(job: Job, store: Store, j: nat, steps: seq<Entry>, i: nat, current: Product, next: Product)
    requires StepsAre(job, store, j, steps) && |steps| == i < |job.ops| && |Trace(job.start, steps)| == i + 1
    requires Trace(job.start, steps)[i] == current && NextIs(job, store, j, i, current, Some(next)) && Answers(store)
    requires AllKnown(current)
    ensures StepsAre(job, store, j, steps + [EntryOf(current, job.ops[i], next)])
    ensures Trace(job.start, steps + [EntryOf(current, job.ops[i], next)]) == Trace(job.start, steps) + [next]
    ensures WellFormed(next) && AllKnown(next)
  {
    var entry, t := EntryOf(current, job.ops[i], next), Trace(job.start, steps);
    assert (steps + [entry])[..i] == steps;
    NextIsStep(job, store, j, i, current, next);
    TraceMore(job, steps, i, current, next);
    RunExtends(job, steps, entry, next, i);
    forall k | 0 <= k < i + 1 ensures StepAt(job, store, j, t + [next], steps + [entry], k) {
      if k < i {
        StepStays(job, store, j, t, steps, k, next, entry);
      }
    }
  }

  lemma TraceMore(job: Job, steps: seq<Entry>, i: nat, current: Product, next: Product)
    requires |Trace(job.start, steps)| == i + 1 && Trace(job.start, steps)[i] == current && i < |job.ops| && WellFormed(current)
    requires Conditional(job.ops[i]) && Satisfied(current, job.ops[i]) ==> next == current
    ensures Trace(job.start, steps + [EntryOf(current, job.ops[i], next)]) == Trace(job.start, steps) + [next]
  {
    assert (steps + [EntryOf(current, job.ops[i], next)])[..|steps|] == steps;
  }

  lemma StepsEnd(job: Job, store: Store, j: nat, steps: seq<Entry>, ended: seq<Entry>, current: Product, i: nat)
    requires StepsAre(job, store, j, steps) && |steps| == i < |job.ops| && |Trace(job.start, steps)| == i + 1
    requires Trace(job.start, steps)[i] == current && NextIs(job, store, j, i, current, None)
    requires EndsSteps(job, store, j, i, current, steps, ended)
    requires store.first(j) == job.start
    ensures EndsAs(job, store, j, ended, false)
  {
    if ended != steps {
      var t := Trace(job.start, steps);
      assert ended[..|ended| - 1] == steps;
      assert Trace(job.start, ended) == t;
      forall k | 0 <= k < i ensures StepAt(job, store, j, t, ended, k) {
        assert StepAt(job, store, j, t, steps, k) && ended[k] == ended[..i][k];
      }
    }
  }

  lemma RunExtends(job: Job, steps: seq<Entry>, entry: Entry, next: Product, i: nat)
    requires i < |job.ops| && |Trace(job.start, steps)| == i + 1
    requires IsRun(job.start, job.ops, Trace(job.start, steps))
    requires StoreStep(Trace(job.start, steps)[i], job.ops[i], RestoreFollows(job.ops, i), next)
    requires Trace(job.start, steps + [entry]) == Trace(job.start, steps) + [next]
    ensures IsRun(job.start, job.ops, Trace(job.start, steps + [entry]))
  {
  }
}
