/** From the bridge's outbox to the server's inbox: every message that WhatsApp handed
    over is queued, accepted, ignored or discarded, and accepted ones sit in the inbox
    once each, in the order they came. */
module Pipeline {
  import opened Lists
  import opened Catalogue
  import opened Inbox
  import opened InboxRuns
  import O = Outbox

  /** The dedupe key of a payload, and whether the webhook keeps a row for it. */
  const keyOf: O.Payload -> Key
  const hasContent: O.Payload -> bool

  datatype Fate = NotYet | Accepted | Ignored | Discarded

  /** The bridge's rows, the server's table, and the history: every payload ever
      enqueued, what became of it, and the inbox id of each accepted one, in order. */
  datatype Pipe = Pipe(history: seq<O.Payload>, fates: seq<Fate>, rows: seq<O.Row>, nextId: int,
                       world: World, taken: seq<RowId>)

  datatype Move =
    | Enqueue(payload: O.Payload)
    | Post(conversation: Conversation, text: Text, now: int)
    | Confirm(recorded: bool)
    | Reject(recorded: bool)
    | Fail(recorded: bool)
    | Crash
    | Serve(step: Step)

  /** How many payloads have left the queue. */
  function Gone(p: Pipe): int {
    |p.history| - |p.rows|
  }

  predicate HeadIs(p: Pipe, fate: Fate) {
    0 <= Gone(p) < |p.fates| && p.fates[Gone(p)] == fate
  }

  function AcceptedOf(history: seq<O.Payload>, fates: seq<Fate>): (r: seq<O.Payload>)
    requires |history| == |fates|
    ensures |r| <= |history| && forall x :: x in r ==> x in history
  {
    if history == [] then []
    else
      var n := |history| - 1;
      var front := AcceptedOf(history[..n], fates[..n]);
      if fates[n] == Accepted then front + [history[n]] else front
  }

  /** The head is posted and its answer may be lost; only what the server said lets the
      bridge drop it. Rows of the head are not swept while it may be posted again. */
  ghost predicate MoveOk(p: Pipe, move: Move) {
    match move
    case Enqueue(payload) => forall x :: x in p.history ==> keyOf(x) != keyOf(payload)
    case Post(_, _, _) => p.rows != []
    case Confirm(_) => HeadIs(p, Accepted) || HeadIs(p, Ignored)
    case Reject(_) => p.rows != []
    case Serve(step) =>
      StepOk(p.world, step)
      && !step.Accept?
      && (step.AcceptAgent? ==> forall x :: keyOf(x) != step.key)
      && (step.SweepOld? && HeadIs(p, Accepted) ==> KeepsHead(p, step))
    case _ => true
  }

  ghost predicate KeepsHead(p: Pipe, step: Step)
    requires step.SweepOld? && HeadIs(p, Accepted)
  {
    |p.history| == |p.fates| && forall id :: id in p.world.db.rows && p.world.db.rows[id].key == keyOf(p.history[Gone(p)]) ==>
      !Stale(p.world.db.rows[id], step.now, step.doneDays, step.failedDays)
  }

  /** The server's part of a post: a row for content, none otherwise, 200 either way. */
  ghost function Posted(p: Pipe, conversation: Conversation, text: Text, now: int): Pipe
    requires p.rows != [] && 0 <= Gone(p) < |p.fates|
  {
    var payload := p.rows[0].payload;
    var fates := if p.fates[Gone(p)] == NotYet
                 then p.fates[Gone(p) := if hasContent(payload) then Accepted else Ignored] else p.fates;
    if !hasContent(payload) then p.(fates := fates)
    else
      var step := Accept(keyOf(payload), conversation, text, now);
      var world := World(After(p.world.db, step), Births(p.world, step));
      p.(fates := fates, world := world,
         taken := if HasKey(p.world.db, keyOf(payload)) then p.taken else p.taken + [RowId(p.world.db.nextId)])
  }

  ghost function MoveTo(p: Pipe, move: Move): Pipe
    requires MoveOk(p, move) && (p.rows != [] ==> 0 <= Gone(p) < |p.fates|)
  {
    match move
    case Enqueue(payload) =>
      p.(history := p.history + [payload], fates := p.fates + [NotYet],
         rows := O.RowsAfter(p.rows, p.nextId, O.Arrives(payload)), nextId := p.nextId + 1)
    case Post(conversation, text, now) => Posted(p, conversation, text, now)
    case Confirm(recorded) => p.(rows := O.RowsAfter(p.rows, p.nextId, O.Dispatches(O.Confirmed, recorded)))
    case Reject(recorded) =>
      if !recorded then p
      else p.(rows := O.RowsAfter(p.rows, p.nextId, O.Dispatches(O.Refused, true)),
              fates := if HeadIs(p, NotYet) then p.fates[Gone(p) := Discarded] else p.fates)
    case Fail(recorded) => p.(rows := O.RowsAfter(p.rows, p.nextId, O.Dispatches(O.Failed, recorded)))
    case Crash => p
    case Serve(step) => p.(world := World(After(p.world.db, step), Births(p.world, step)))
  }

  ghost predicate Moves(p: Pipe, move: Move, q: Pipe) {
    MoveOk(p, move) && (p.rows != [] ==> 0 <= Gone(p) < |p.fates|) && q == MoveTo(p, move)
  }

  const Start: Pipe := Pipe([], [], [], 1, Empty, [])

  // ---- What every state keeps ------------------------------------------------------------------

  /** The queue is the tail of the history: rows leave from the front only. */
  ghost predicate QueueOk(p: Pipe) {
    && |p.rows| <= |p.history| == |p.fates|
    && (forall i :: 0 <= i < |p.rows| ==> p.rows[i].payload == p.history[Gone(p) + i])
    && (forall i, j :: 0 <= i < j < |p.history| ==> keyOf(p.history[i]) != keyOf(p.history[j]))
  }

  /** What left the queue was settled; what is behind the head was not even tried. */
  ghost predicate FatesOk(p: Pipe) {
    && |p.rows| <= |p.history| == |p.fates|
    && (forall i :: 0 <= i < Gone(p) ==> p.fates[i] != NotYet)
    && (forall i :: Gone(p) < i < |p.fates| ==> p.fates[i] == NotYet)
    && !HeadIs(p, Discarded)
  }

  /** The accepted payloads have ascending inbox ids, given to their keys and no others. */
  ghost predicate InboxOk(p: Pipe) {
    && |p.history| == |p.fates|
    && Inv(p.world)
    && |p.taken| == |AcceptedOf(p.history, p.fates)|
    && (forall k :: 0 <= k < |p.taken| ==>
          p.taken[k] in p.world.born && p.world.born[p.taken[k]].key == keyOf(AcceptedOf(p.history, p.fates)[k]))
    && (forall j, k :: 0 <= j < k < |p.taken| ==> p.taken[j].n < p.taken[k].n)
    && (forall id :: id in p.world.born ==> id in p.taken || forall x :: keyOf(x) != p.world.born[id].key)
    && (HeadIs(p, Accepted) ==> HasKey(p.world.db, keyOf(p.history[Gone(p)])))
  }

  ghost predicate PipeOk(p: Pipe) {
    QueueOk(p) && FatesOk(p) && InboxOk(p)
  }

  // ---- Accepted payloads --------------------------------------------------------------------------

  lemma {:induction false} AcceptedTail(history: seq<O.Payload>, fates: seq<Fate>, n: nat)
    requires n <= |history| == |fates|
    requires forall i :: n <= i < |fates| ==> fates[i] == NotYet
    ensures AcceptedOf(history, fates) == AcceptedOf(history[..n], fates[..n])
  {
    if n < |history| {
      var m := |history| - 1;
      assert history[..m][..n] == history[..n] && fates[..m][..n] == fates[..n];
      AcceptedTail(history[..m], fates[..m], n);
    } else {
      assert history[..n] == history && fates[..n] == fates;
    }
  }

  /** Settling the head's fate appends it to the accepted payloads, or changes nothing. */
  lemma AcceptedHead(history: seq<O.Payload>, fates: seq<Fate>, n: nat, fate: Fate)
    requires n < |history| == |fates| && fates[n] == NotYet
    requires forall i :: n < i < |fates| ==> fates[i] == NotYet
    ensures AcceptedOf(history, fates[n := fate]) ==
      AcceptedOf(history, fates) + if fate == Accepted then [history[n]] else []
  {
    var then' := fates[n := fate];
    if fate == NotYet {
      assert then' == fates;
    } else {
      AcceptedTail(history, fates, n);
      AcceptedTail(history, then', n + 1);
      assert history[..n + 1][..n] == history[..n] && then'[..n + 1][..n] == fates[..n];
    }
  }

  lemma {:induction false} AcceptedMembers(history: seq<O.Payload>, fates: seq<Fate>, x: O.Payload)
    requires |history| == |fates|
    ensures x in AcceptedOf(history, fates) <==> exists i :: 0 <= i < |history| && history[i] == x && fates[i] == Accepted
  {
    if history != [] {
      AcceptedMembers(history[..|history| - 1], fates[..|history| - 1], x);
      if x in AcceptedOf(history[..|history| - 1], fates[..|history| - 1]) {
        var i :| 0 <= i < |history| - 1 && history[..|history| - 1][i] == x && fates[..|history| - 1][i] == Accepted;
        assert history[i] == x && fates[i] == Accepted;
      }
      if i :| 0 <= i < |history| && history[i] == x && fates[i] == Accepted {
        if i < |history| - 1 {
          assert history[..|history| - 1][i] == x && fates[..|history| - 1][i] == Accepted;
        }
      }
    }
  }

  // ---- The steps ------------------------------------------------------------------------------------

  lemma EnqueueAccepted(history: seq<O.Payload>, fates: seq<Fate>, payload: O.Payload)
    requires |history| == |fates|
    ensures AcceptedOf(history + [payload], fates + [NotYet]) == AcceptedOf(history, fates)
  {
    assert (history + [payload])[..|history|] == history && (fates + [NotYet])[..|fates|] == fates;
  }

  lemma EnqueueKeepsInbox(p: Pipe, payload: O.Payload, rows: seq<O.Row>, nextId: int)
    requires InboxOk(p) && |rows| == |p.rows| + 1 && |p.rows| <= |p.history|
    ensures InboxOk(p.(history := p.history + [payload], fates := p.fates + [NotYet], rows := rows, nextId := nextId))
  {
    EnqueueAccepted(p.history, p.fates, payload);
  }

  lemma EnqueueKeeps(p: Pipe, payload: O.Payload)
    requires PipeOk(p) && MoveOk(p, Enqueue(payload))
    ensures PipeOk(MoveTo(p, Enqueue(payload)))
  {
    EnqueueKeepsInbox(p, payload, O.RowsAfter(p.rows, p.nextId, O.Arrives(payload)), p.nextId + 1);
  }

  /** The server has no row yet under the key of a payload it was not seen to accept. */
  lemma HeadIsNew(p: Pipe)
    requires PipeOk(p) && p.rows != [] && HeadIs(p, NotYet)
    ensures !HasKey(p.world.db, keyOf(p.rows[0].payload))
  {
    var payload := p.rows[0].payload;
    assert payload == p.history[Gone(p)];
    forall id | id in p.world.db.rows ensures p.world.db.rows[id].key != keyOf(payload) {
      assert Same(p.world.db.rows[id], p.world.born[id]);
      if id in p.taken {
        var k :| 0 <= k < |p.taken| && p.taken[k] == id;
        var x := AcceptedOf(p.history, p.fates)[k];
        AcceptedMembers(p.history, p.fates, x);
        assert x in AcceptedOf(p.history, p.fates);
        var i :| 0 <= i < |p.history| && p.history[i] == x && p.fates[i] == Accepted;
        assert i != Gone(p);
      }
    }
  }

  lemma NewHeadInbox(p: Pipe, conversation: Conversation, text: Text, now: int)
    requires PipeOk(p) && p.rows != [] && HeadIs(p, NotYet) && hasContent(p.rows[0].payload)
    ensures InboxOk(Posted(p, conversation, text, now))
  {
    var payload, n := p.rows[0].payload, Gone(p);
    var step := Accept(keyOf(payload), conversation, text, now);
    var q := Posted(p, conversation, text, now);
    HeadIsNew(p);
    StepKeeps(p.world, step, q.world);
    AcceptedHead(p.history, p.fates, n, Accepted);
    var id := RowId(p.world.db.nextId);
    assert q.taken == p.taken + [id] && id in q.world.db.rows && id !in p.world.db.rows;
    assert q.world.born == p.world.born[id := q.world.db.rows[id]];
    assert q.world.db.rows[id].key == keyOf(payload);
    forall k | 0 <= k < |q.taken|
      ensures q.taken[k] in q.world.born
        && q.world.born[q.taken[k]].key == keyOf(AcceptedOf(q.history, q.fates)[k])
        && (k < |p.taken| ==> q.taken[k].n < id.n)
    {
      if k < |p.taken| {
        assert p.taken[k] in p.world.born;
      }
    }
  }

  lemma NewHeadAccepted(p: Pipe, conversation: Conversation, text: Text, now: int)
    requires PipeOk(p) && p.rows != [] && HeadIs(p, NotYet) && hasContent(p.rows[0].payload)
    ensures PipeOk(Posted(p, conversation, text, now))
  {
    NewHeadInbox(p, conversation, text, now);
  }

  lemma HeadPostedAgain(p: Pipe, conversation: Conversation, text: Text, now: int)
    requires PipeOk(p) && p.rows != [] && (!HeadIs(p, NotYet) || !hasContent(p.rows[0].payload))
    requires hasContent(p.rows[0].payload) ==> HeadIs(p, Accepted)
    ensures PipeOk(Posted(p, conversation, text, now))
  {
    if HeadIs(p, NotYet) {
      AcceptedHead(p.history, p.fates, Gone(p), Ignored);
    }
  }

  /** A payload is ignored only when it has no content, so a head with content that was
      posted before was accepted. */
  ghost predicate IgnoredOk(p: Pipe) {
    |p.history| == |p.fates| && forall i :: 0 <= i < |p.fates| ==>
      (p.fates[i] == Ignored ==> !hasContent(p.history[i])) && (p.fates[i] == Accepted ==> hasContent(p.history[i]))
  }

  /** Serving gives an id to agents' messages only. */
  lemma ServeBirths(w: World, step: Step, v: World)
    requires Inv(w) && Next(w, step, v) && !step.Accept?
    requires step.AcceptAgent? ==> forall x :: keyOf(x) != step.key
    ensures forall id :: id in v.born ==>
      (id in w.born && v.born[id] == w.born[id]) || forall x :: keyOf(x) != v.born[id].key
  {
    if step.RecordBatch? {
      RecordedKeeps(w.db, step.agent, step.turn, step.batch);
    }
  }

  lemma ServeHasKey(w: World, step: Step, v: World, key: Key)
    requires Next(w, step, v) && HasKey(w.db, key)
    requires step.SweepOld? ==> forall id :: id in w.db.rows && w.db.rows[id].key == key ==>
      !Stale(w.db.rows[id], step.now, step.doneDays, step.failedDays)
    requires forall id :: id in w.db.rows ==> id.n < w.db.nextId
    ensures HasKey(v.db, key)
  {
    if step.RecordBatch? {
      RecordedKeeps(w.db, step.agent, step.turn, step.batch);
    }
    var id :| id in w.db.rows && w.db.rows[id].key == key;
    assert id in v.db.rows && v.db.rows[id].key == key;
  }

  lemma ServedOk(p: Pipe, world: World)
    requires InboxOk(p) && Inv(world) && Kept(p.world, world)
    requires forall id :: id in world.born ==> id in p.world.born || forall x :: keyOf(x) != world.born[id].key
    requires HeadIs(p, Accepted) ==> HasKey(world.db, keyOf(p.history[Gone(p)]))
    ensures InboxOk(p.(world := world))
  {
  }

  lemma ServeOk(p: Pipe, step: Step, world: World)
    requires InboxOk(p) && Next(p.world, step, world) && !step.Accept?
    requires step.AcceptAgent? ==> forall x :: keyOf(x) != step.key
    requires step.SweepOld? && HeadIs(p, Accepted) ==> KeepsHead(p, step)
    ensures InboxOk(p.(world := world))
  {
    StepKeeps(p.world, step, world);
    StepKeepsRecords(p.world, step, world);
    ServeBirths(p.world, step, world);
    if HeadIs(p, Accepted) {
      ServeHasKey(p.world, step, world, keyOf(p.history[Gone(p)]));
    }
    ServedOk(p, world);
  }

  lemma ServeKeeps(p: Pipe, step: Step)
    requires PipeOk(p) && MoveOk(p, Serve(step))
    ensures PipeOk(MoveTo(p, Serve(step)))
  {
    ServeOk(p, step, World(After(p.world.db, step), Births(p.world, step)));
  }

  lemma DropKeeps(p: Pipe, fate: Fate)
    requires PipeOk(p) && p.rows != []
    requires fate == (if HeadIs(p, NotYet) then Discarded else p.fates[Gone(p)])
    ensures PipeOk(p.(rows := p.rows[1..], fates := p.fates[Gone(p) := fate]))
  {
    if HeadIs(p, NotYet) {
      AcceptedHead(p.history, p.fates, Gone(p), Discarded);
    } else {
      assert p.fates[Gone(p) := fate] == p.fates;
    }
  }

  lemma LeaveKeeps(p: Pipe, move: Move)
    requires PipeOk(p) && MoveOk(p, move) && (move.Confirm? || move.Reject?) && move.recorded
    requires p.rows != [] ==> 0 <= Gone(p) < |p.fates|
    ensures PipeOk(MoveTo(p, move))
  {
    if p.rows != [] {
      DropKeeps(p, if HeadIs(p, NotYet) then Discarded else p.fates[Gone(p)]);
      assert p.fates[Gone(p) := p.fates[Gone(p)]] == p.fates;
    }
  }

  lemma MoveKeeps(p: Pipe, move: Move)
    requires PipeOk(p) && IgnoredOk(p) && MoveOk(p, move) && (p.rows != [] ==> 0 <= Gone(p) < |p.fates|)
    ensures PipeOk(MoveTo(p, move))
  {
    match move
    case Enqueue(payload) => EnqueueKeeps(p, payload);
    case Post(conversation, text, now) =>
      if HeadIs(p, NotYet) && hasContent(p.rows[0].payload) {
        NewHeadAccepted(p, conversation, text, now);
      } else {
        HeadPostedAgain(p, conversation, text, now);
      }
    case Confirm(recorded) => if recorded { LeaveKeeps(p, move); }
    case Reject(recorded) => if recorded { LeaveKeeps(p, move); }
    case Fail(_) =>
    case Crash =>
    case Serve(step) => ServeKeeps(p, step);
  }

  lemma MoveKeepsIgnored(p: Pipe, move: Move)
    requires QueueOk(p) && IgnoredOk(p) && MoveOk(p, move) && (p.rows != [] ==> 0 <= Gone(p) < |p.fates|)
    ensures IgnoredOk(MoveTo(p, move))
  {
  }

  lemma {:induction false} RunOk(pipes: seq<Pipe>, moves: seq<Move>, i: nat)
    requires Walk(Moves, pipes, moves) && pipes[0] == Start && i <= |moves|
    ensures PipeOk(pipes[i]) && IgnoredOk(pipes[i])
  {
    if i > 0 {
      RunOk(pipes, moves, i - 1);
      assert Moves(pipes[i - 1], moves[i - 1], pipes[i]);
      MoveKeeps(pipes[i - 1], moves[i - 1]);
      MoveKeepsIgnored(pipes[i - 1], moves[i - 1]);
    }
  }

  /** In every state of every run, crashes between the post and the delete included: a
      payload has left the queue accepted, ignored or discarded, or it is still queued;
      only the head can be both queued and accepted. */
  lemma EveryPayloadHasOneFate(pipes: seq<Pipe>, moves: seq<Move>, i: nat, k: nat)
    requires Walk(Moves, pipes, moves) && pipes[0] == Start && i <= |moves| && k < |pipes[i].history|
    ensures var p := pipes[i];
      |p.fates| == |p.history| && |p.rows| <= |p.history|
      && (k < Gone(p) ==> p.fates[k] != NotYet)
      && (k >= Gone(p) ==> p.rows[k - Gone(p)].payload == p.history[k] && p.fates[k] != Discarded)
      && (k > Gone(p) ==> p.fates[k] == NotYet)
  {
    RunOk(pipes, moves, i);
  }

  /** Accepted payloads sit in the inbox once each, in the order they were enqueued: one
      id each, ascending, the only ids ever given to their keys. */
  lemma AcceptedOnceInOrder(pipes: seq<Pipe>, moves: seq<Move>, i: nat)
    requires Walk(Moves, pipes, moves) && pipes[0] == Start && i <= |moves|
    ensures var p := pipes[i];
      |p.fates| == |p.history|
      && var accepted := AcceptedOf(p.history, p.fates);
      |p.taken| == |accepted|
      && (forall k :: 0 <= k < |accepted| ==>
            p.taken[k] in p.world.born && p.world.born[p.taken[k]].key == keyOf(accepted[k]))
      && (forall j, k :: 0 <= j < k < |accepted| ==> p.taken[j].n < p.taken[k].n)
      && (forall id, k :: id in p.world.born && 0 <= k < |accepted| && p.world.born[id].key == keyOf(accepted[k]) ==>
            id == p.taken[k])
  {
    RunOk(pipes, moves, i);
    var p := pipes[i];
    var accepted := AcceptedOf(p.history, p.fates);
    forall id, k | id in p.world.born && 0 <= k < |accepted| && p.world.born[id].key == keyOf(accepted[k])
      ensures id == p.taken[k]
    {
      var j :| 0 <= j < |p.taken| && p.taken[j] == id;
      AcceptedDistinct(p.history, p.fates, j, k);
    }
  }

  lemma {:induction false} AcceptedDistinct(history: seq<O.Payload>, fates: seq<Fate>, j: nat, k: nat)
    requires |history| == |fates| && j < |AcceptedOf(history, fates)| && k < |AcceptedOf(history, fates)|
    requires forall a, b :: 0 <= a < b < |history| ==> keyOf(history[a]) != keyOf(history[b])
    requires keyOf(AcceptedOf(history, fates)[j]) == keyOf(AcceptedOf(history, fates)[k])
    ensures j == k
  {
    var n := |history| - 1;
    var front := AcceptedOf(history[..n], fates[..n]);
    if j < |front| && k < |front| {
      AcceptedDistinct(history[..n], fates[..n], j, k);
    } else {
      forall i | 0 <= i < |front| ensures keyOf(front[i]) != keyOf(history[n]) {
        assert front[i] in front;
        var a :| 0 <= a < n && history[..n][a] == front[i];
      }
    }
  }

  // ---- What the run says of each payload -------------------------------------------------------------

  /** The head posted is the k-th payload. */
  ghost predicate PostsIt(p: Pipe, move: Move, k: nat) {
    move.Post? && p.rows != [] && Gone(p) == k
  }

  /** The bridge deletes its row of the k-th payload, on a 200 or on a 400. */
  ghost predicate DropsIt(p: Pipe, move: Move, k: nat) {
    (move == Confirm(true) || move == Reject(true)) && p.rows != [] && Gone(p) == k
  }

  ghost predicate WasPosted(pipes: seq<Pipe>, moves: seq<Move>, i: nat, k: nat)
    requires i <= |moves| < |pipes|
  {
    exists j :: 0 <= j < i && PostsIt(pipes[j], moves[j], k)
  }

  ghost predicate WasDropped(pipes: seq<Pipe>, moves: seq<Move>, i: nat, k: nat)
    requires i <= |moves| < |pipes|
  {
    exists j :: 0 <= j < i && DropsIt(pipes[j], moves[j], k)
  }

  ghost predicate FateIs(p: Pipe, k: nat, posted: bool, dropped: bool)
    requires k < |p.history| == |p.fates|
  {
    && (p.fates[k] == Accepted <==> posted && hasContent(p.history[k]))
    && (p.fates[k] == Ignored <==> posted && !hasContent(p.history[k]))
    && (p.fates[k] == Discarded <==> !posted && dropped)
    && (dropped <==> k < Gone(p))
  }

  lemma MoveFate(p: Pipe, move: Move, q: Pipe, k: nat, posted: bool, dropped: bool)
    requires PipeOk(p) && IgnoredOk(p) && Moves(p, move, q) && k < |p.history| && FateIs(p, k, posted, dropped)
    ensures |q.history| == |q.fates| && k < |q.history|
    ensures FateIs(q, k, posted || PostsIt(p, move, k), dropped || DropsIt(p, move, k))
  {
    assert !HeadIs(p, Discarded);
  }

  lemma WasStep(pipes: seq<Pipe>, moves: seq<Move>, i: nat, k: nat)
    requires 0 < i <= |moves| < |pipes|
    ensures WasPosted(pipes, moves, i, k) <==> WasPosted(pipes, moves, i - 1, k) || PostsIt(pipes[i - 1], moves[i - 1], k)
    ensures WasDropped(pipes, moves, i, k) <==> WasDropped(pipes, moves, i - 1, k) || DropsIt(pipes[i - 1], moves[i - 1], k)
  {
  }

  lemma FateStep(p: Pipe, move: Move, q: Pipe, k: nat, posted: bool, dropped: bool)
    requires PipeOk(p) && IgnoredOk(p) && Moves(p, move, q) && k < |q.history|
    requires k < |p.history| ==> FateIs(p, k, posted, dropped)
    requires k >= |p.history| ==> !posted && !dropped
    ensures |q.history| == |q.fates|
    ensures FateIs(q, k, posted || PostsIt(p, move, k), dropped || DropsIt(p, move, k))
  {
    if k < |p.history| {
      MoveFate(p, move, q, k, posted, dropped);
    }
  }

  lemma {:induction false} FutureIsOpen(pipes: seq<Pipe>, moves: seq<Move>, i: nat, k: nat)
    requires Walk(Moves, pipes, moves) && pipes[0] == Start && i <= |moves| && k >= |pipes[i].history|
    ensures !WasPosted(pipes, moves, i, k) && !WasDropped(pipes, moves, i, k)
  {
    if i > 0 {
      RunOk(pipes, moves, i - 1);
      assert Moves(pipes[i - 1], moves[i - 1], pipes[i]);
      FutureIsOpen(pipes, moves, i - 1, k);
      WasStep(pipes, moves, i, k);
    }
  }

  /** What became of a payload is told by the run alone: it is accepted or ignored, by its
      content, exactly when it was posted; discarded exactly when the bridge dropped it
      without the server ever having seen it; and it is out of the queue exactly when
      the bridge dropped it. */
  lemma {:induction false} FateExactly(pipes: seq<Pipe>, moves: seq<Move>, i: nat, k: nat)
    requires Walk(Moves, pipes, moves) && pipes[0] == Start && i <= |moves| && k < |pipes[i].history|
    ensures |pipes[i].fates| == |pipes[i].history|
    ensures FateIs(pipes[i], k, WasPosted(pipes, moves, i, k), WasDropped(pipes, moves, i, k))
  {
    RunOk(pipes, moves, i - 1);
    var p, move, q := pipes[i - 1], moves[i - 1], pipes[i];
    assert Moves(p, move, q);
    var posted, dropped := WasPosted(pipes, moves, i - 1, k), WasDropped(pipes, moves, i - 1, k);
    if k < |p.history| {
      FateExactly(pipes, moves, i - 1, k);
    } else {
      FutureIsOpen(pipes, moves, i - 1, k);
    }
    FateStep(p, move, q, k, posted, dropped);
    WasStep(pipes, moves, i, k);
  }
}
