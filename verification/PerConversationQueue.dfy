/** The queue that runs one job per conversation at a time: each job is chained onto the
    tail of its conversation, and a conversation is forgotten once its tail drained. */
module PerConversationQueue {
  import opened Catalogue
  import opened Inbox

  /** A job waits, runs, has settled (however), and then its tail promise has resolved. */
  datatype Stage = Queued | Running | Settled | Drained
  datatype Job = Job(conversation: Conversation, after: Maybe<int>, stage: Stage)

  /** `tails` is the queue's map; `jobs` the promises it chained, in the order they were
      enqueued. */
  datatype State = State(tails: map<Conversation, int>, jobs: seq<Job>)

  function TailOf(s: State, c: Conversation): Maybe<int> {
    if c in s.tails then Some(s.tails[c]) else None
  }

  function Enqueued(s: State, c: Conversation): State {
    State(s.tails[c := |s.jobs|], s.jobs + [Job(c, TailOf(s, c), Queued)])
  }

  function Moved(s: State, id: nat, stage: Stage): State
    requires id < |s.jobs|
  {
    s.(jobs := s.jobs[id := s.jobs[id].(stage := stage)])
  }

  /** The entry is dropped only when this job is still the last of its conversation. */
  function CleanedUp(s: State, id: nat): State
    requires id < |s.jobs|
  {
    var c := s.jobs[id].conversation;
    if c in s.tails && s.tails[c] == id then s.(tails := s.tails - {c}) else s
  }

  predicate DrainedAt(jobs: seq<Job>, k: int) {
    0 <= k < |jobs| && jobs[k].stage == Drained
  }

  /** A job may start when what it was chained onto has drained. */
  predicate Ready(s: State, id: nat) {
    id < |s.jobs| && s.jobs[id].stage == Queued
    && (s.jobs[id].after.Some? ==> DrainedAt(s.jobs, s.jobs[id].after.value))
  }

  datatype Step = Enqueue(c: Conversation) | Start(id: nat) | Settle(id: nat) | Drain(id: nat) | CleanUp(id: nat)

  predicate StepOk(s: State, step: Step) {
    match step
    case Enqueue(_) => true
    case Start(id) => Ready(s, id)
    case Settle(id) => id < |s.jobs| && s.jobs[id].stage == Running
    case Drain(id) => id < |s.jobs| && s.jobs[id].stage == Settled
    case CleanUp(id) => id < |s.jobs| && s.jobs[id].stage == Drained
  }

  function After(s: State, step: Step): State
    requires StepOk(s, step)
  {
    match step
    case Enqueue(c) => Enqueued(s, c)
    case Start(id) => Moved(s, id, Running)
    case Settle(id) => Moved(s, id, Settled)
    case Drain(id) => Moved(s, id, Drained)
    case CleanUp(id) => CleanedUp(s, id)
  }

  // ---- What every schedule keeps ----------------------------------------------------------------

  /** Job `a` was enqueued before `b` on the same conversation. */
  predicate Before(jobs: seq<Job>, a: int, b: int) {
    0 <= a < b < |jobs| && jobs[a].conversation == jobs[b].conversation
  }

  /** Of two jobs of a conversation, the later one starts after the earlier one drained,
      and is chained onto the earlier one or a job between them. */
  predicate PairOk(jobs: seq<Job>, a: int, b: int)
    requires Before(jobs, a, b)
  {
    && (jobs[b].stage != Queued ==> jobs[a].stage == Drained)
    && (jobs[b].after == None ==> jobs[a].stage == Drained)
    && (jobs[b].after.Some? ==> a <= jobs[b].after.value)
  }

  predicate LinkOk(jobs: seq<Job>, b: nat)
    requires b < |jobs|
  {
    jobs[b].after.Some? ==> Before(jobs, jobs[b].after.value, b)
  }

  ghost predicate ChainOk(jobs: seq<Job>) {
    && (forall b: nat :: b < |jobs| ==> LinkOk(jobs, b))
    && (forall a, b :: Before(jobs, a, b) ==> PairOk(jobs, a, b))
  }

  /** The tail of a conversation is its last job, and a conversation with a job that has
      not drained has one. */
  predicate TailOk(s: State, c: Conversation)
    requires c in s.tails
  {
    0 <= s.tails[c] < |s.jobs| && s.jobs[s.tails[c]].conversation == c
  }

  predicate LastOk(s: State, k: nat)
    requires k < |s.jobs|
  {
    var c := s.jobs[k].conversation;
    if c in s.tails then k <= s.tails[c] else s.jobs[k].stage == Drained
  }

  ghost predicate TailsOk(s: State) {
    && (forall c :: c in s.tails ==> TailOk(s, c))
    && (forall k: nat :: k < |s.jobs| ==> LastOk(s, k))
  }

  ghost predicate Valid(s: State) {
    ChainOk(s.jobs) && TailsOk(s)
  }

  const Empty: State := State(map[], [])

  lemma EnqueueKeeps(s: State, c: Conversation)
    requires Valid(s)
    ensures Valid(Enqueued(s, c))
  {
    var t := Enqueued(s, c);
    forall a, b | Before(t.jobs, a, b) ensures PairOk(t.jobs, a, b) {
      if b < |s.jobs| {
        assert Before(s.jobs, a, b);
      } else {
        assert LastOk(s, a);
      }
    }
    forall b: nat | b < |t.jobs| ensures LinkOk(t.jobs, b) {
      if b < |s.jobs| {
        assert LinkOk(s.jobs, b);
      } else if c in s.tails {
        assert TailOk(s, c);
      }
    }
    forall d | d in t.tails ensures TailOk(t, d) {
      assert d != c ==> TailOk(s, d);
    }
    forall k: nat | k < |t.jobs| ensures LastOk(t, k) {
      assert k < |s.jobs| ==> LastOk(s, k);
    }
  }

  /** A job starts only after every earlier job of its conversation has settled. */
  lemma StartsAlone(s: State, id: nat)
    requires Valid(s) && Ready(s, id)
    ensures forall a :: Before(s.jobs, a, id) ==> DrainedAt(s.jobs, a)
  {
    forall a | Before(s.jobs, a, id) ensures DrainedAt(s.jobs, a) {
      assert PairOk(s.jobs, a, id);
      if s.jobs[id].after.Some? {
        var m := s.jobs[id].after.value;
        assert LinkOk(s.jobs, id) && DrainedAt(s.jobs, m);
        if a < m {
          assert Before(s.jobs, a, m) && PairOk(s.jobs, a, m);
        }
      }
    }
  }

  /** A job moving on keeps the chain: it starts after all before it drained, and never
      goes back from drained. */
  lemma MovedKeeps(s: State, id: nat, stage: Stage)
    requires Valid(s) && id < |s.jobs| && s.jobs[id].stage != Drained && stage != Queued
    requires forall a :: Before(s.jobs, a, id) ==> DrainedAt(s.jobs, a)
    ensures Valid(Moved(s, id, stage))
  {
    var t := Moved(s, id, stage);
    forall a, b | Before(t.jobs, a, b) ensures PairOk(t.jobs, a, b) {
      assert Before(s.jobs, a, b) && PairOk(s.jobs, a, b);
    }
    forall b: nat | b < |t.jobs| ensures LinkOk(t.jobs, b) {
      assert LinkOk(s.jobs, b);
    }
    forall d | d in t.tails ensures TailOk(t, d) {
      assert TailOk(s, d);
    }
    forall k: nat | k < |t.jobs| ensures LastOk(t, k) {
      assert LastOk(s, k);
    }
  }

  lemma CleanUpKeeps(s: State, id: nat)
    requires Valid(s) && id < |s.jobs| && s.jobs[id].stage == Drained
    ensures Valid(CleanedUp(s, id))
  {
    var t := CleanedUp(s, id);
    forall d | d in t.tails ensures TailOk(t, d) {
      assert TailOk(s, d);
    }
    forall k: nat | k < |t.jobs| ensures LastOk(t, k) {
      assert LastOk(s, k);
      if s.jobs[k].conversation == s.jobs[id].conversation && k < id {
        assert Before(s.jobs, k, id) && PairOk(s.jobs, k, id);
      }
    }
  }

  lemma StepKeeps(s: State, step: Step)
    requires Valid(s) && StepOk(s, step)
    ensures Valid(After(s, step))
  {
    match step
    case Enqueue(c) => EnqueueKeeps(s, c);
    case Start(id) =>
      StartsAlone(s, id);
      MovedKeeps(s, id, Running);
    case Settle(id) =>
      EarlierDrained(s, id);
      MovedKeeps(s, id, Settled);
    case Drain(id) =>
      EarlierDrained(s, id);
      MovedKeeps(s, id, Drained);
    case CleanUp(id) => CleanUpKeeps(s, id);
  }

  lemma EarlierDrained(s: State, id: nat)
    requires Valid(s) && id < |s.jobs| && s.jobs[id].stage != Queued
    ensures forall a :: Before(s.jobs, a, id) ==> DrainedAt(s.jobs, a)
  {
    forall a | Before(s.jobs, a, id) ensures DrainedAt(s.jobs, a) {
      assert PairOk(s.jobs, a, id);
    }
  }

  // ---- Over every schedule -----------------------------------------------------------------------

  ghost predicate Next(s: State, step: Step, t: State) {
    StepOk(s, step) && t == After(s, step)
  }

  ghost predicate Schedule(states: seq<State>, steps: seq<Step>) {
    && |states| == |steps| + 1 && states[0] == Empty
    && forall k :: 0 <= k < |steps| ==> Next(states[k], steps[k], states[k + 1])
  }

  lemma {:induction false} ScheduleValid(states: seq<State>, steps: seq<Step>, i: nat)
    requires Schedule(states, steps) && i <= |steps|
    ensures Valid(states[i])
  {
    if i > 0 {
      ScheduleValid(states, steps, i - 1);
      assert Next(states[i - 1], steps[i - 1], states[i]);
      StepKeeps(states[i - 1], steps[i - 1]);
    }
  }

  /** In every schedule, whatever the jobs do and whenever the map is cleaned: a job
      starts only after all earlier jobs of its conversation have settled. */
  lemma OneAfterTheOther(states: seq<State>, steps: seq<Step>, i: nat)
    requires Schedule(states, steps) && i < |steps| && steps[i].Start?
    ensures forall a :: Before(states[i].jobs, a, steps[i].id) ==> DrainedAt(states[i].jobs, a)
  {
    ScheduleValid(states, steps, i);
    assert Next(states[i], steps[i], states[i + 1]);
    StartsAlone(states[i], steps[i].id);
  }

  /** Two jobs of a conversation never run together, and they start in the order they
      were enqueued. */
  lemma InOrderAndAlone(states: seq<State>, steps: seq<Step>, i: nat, a: int, b: int)
    requires Schedule(states, steps) && i <= |steps| && Before(states[i].jobs, a, b)
    ensures !(states[i].jobs[a].stage == Running && states[i].jobs[b].stage == Running)
    ensures states[i].jobs[b].stage != Queued ==> states[i].jobs[a].stage == Drained
  {
    ScheduleValid(states, steps, i);
    assert PairOk(states[i].jobs, a, b);
  }

  /** Every conversation with an unsettled job has its tail in the map, and that is its
      last job: the next one enqueued cannot slip past it. */
  lemma UnsettledKeepsItsTail(states: seq<State>, steps: seq<Step>, i: nat, id: nat)
    requires Schedule(states, steps) && i <= |steps| && id < |states[i].jobs| && states[i].jobs[id].stage != Drained
    ensures states[i].jobs[id].conversation in states[i].tails
    ensures id <= states[i].tails[states[i].jobs[id].conversation] < |states[i].jobs|
    ensures forall later :: !Before(states[i].jobs, states[i].tails[states[i].jobs[id].conversation], later)
  {
    var s := states[i];
    var c := s.jobs[id].conversation;
    ScheduleValid(states, steps, i);
    assert LastOk(s, id) && TailOk(s, c);
    forall later ensures !Before(s.jobs, s.tails[c], later) {
      assert 0 <= later < |s.jobs| ==> LastOk(s, later);
    }
  }

  /** No job is stuck: some job of its conversation, not after it, can take a step. */
  lemma {:induction false} NoneIsStuck(states: seq<State>, steps: seq<Step>, i: nat, id: nat) returns (m: nat)
    requires Schedule(states, steps) && i <= |steps| && id < |states[i].jobs| && states[i].jobs[id].stage != Drained
    ensures m <= id && states[i].jobs[m].conversation == states[i].jobs[id].conversation
    ensures Ready(states[i], m) || states[i].jobs[m].stage == Running || states[i].jobs[m].stage == Settled
    decreases id
  {
    var job := states[i].jobs[id];
    m := id;
    if job.stage == Queued && job.after.Some? && !DrainedAt(states[i].jobs, job.after.value) {
      ScheduleValid(states, steps, i);
      assert LinkOk(states[i].jobs, id);
      m := NoneIsStuck(states, steps, i, job.after.value);
    }
  }

  // ---- The class -------------------------------------------------------------------------------------

  class Queue {
    var tails: map<Conversation, int>
    var jobs: seq<Job>

    ghost function Value(): State
      reads this
    {
      State(tails, jobs)
    }

    constructor ()
      ensures Value() == Empty && Valid(Value())
    {
      tails, jobs := map[], [];
    }

    /** `enqueue`: chained onto the tail, or onto nothing when there is none. */
    method Enqueue(c: Conversation) returns (id: int)
      requires Valid(Value())
      modifies this
      ensures Valid(Value()) && Value() == Enqueued(old(Value()), c) && id == old(|jobs|)
      ensures tails == old(tails)[c := id]
      ensures jobs == old(jobs) + [Job(c, if c in old(tails) then Some(old(tails)[c]) else None, Queued)]
    {
      EnqueueKeeps(Value(), c);
      id := |jobs|;
      var previous := if c in tails then Some(tails[c]) else None;
      jobs := jobs + [Job(c, previous, Queued)];
      tails := tails[c := id];
    }

    /** The callback on a drained tail. */
    method CleanUp(id: nat)
      requires Valid(Value()) && DrainedAt(jobs, id)
      modifies this`tails
      ensures Valid(Value()) && Value() == CleanedUp(old(Value()), id)
      ensures forall c :: c in tails <==> c in old(tails) && old(tails)[c] != id
      ensures forall c :: c in tails ==> tails[c] == old(tails)[c]
    {
      CleanUpKeeps(Value(), id);
      var c := jobs[id].conversation;
      if c in tails && tails[c] == id {
        tails := tails - {c};
      }
    }
  }
}
