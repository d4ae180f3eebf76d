/** The agent door as a protocol: calls park, insert, are answered, time out or fail,
    while the batcher claims, retries and settles; in every interleaving a reply reaches
    only the caller that inserted the row it answers. */
module AgentDoor {
  import opened Lists
  import opened Catalogue
  import opened Inbox
  import opened InboxRuns
  import opened AgentReplies

  /** Texts with nothing to answer. */
  const isBlank: Text -> bool

  /** How often a batch's rows are tried before they are settled as failed. */
  const MAX_BATCH_ATTEMPTS := 3

  /** A parked call: its conversation, the row it inserted, and whether it came in the gap
      between giving up the conversation's batch before and telling so. */
  datatype Ask = Ask(conversation: Conversation, row: RowId, late: bool)

  /** A batch in progress. `Delivered` and `GivenUp` are between two awaits: the reply is
      out but the rows are not settled; the rows are settled failed but nobody was told. */
  datatype Phase = Running | Delivered | GivenUp
  datatype Turn = Turn(ids: seq<RowId>, phase: Phase)

  /** `targets` are the rows that name the agent they are for. */
  datatype Door = Door(world: World, spots: Spots, asked: map<Ticket, Ask>, callbacks: map<RowId, Url>, targets: set<RowId>,
                       turns: map<Conversation, Turn>, posts: seq<(Url, seq<RowId>)>)

  datatype Act =
    | SyncCall(key: Key, conversation: Conversation, text: Text, now: int)
    | CallbackCall(key: Key, conversation: Conversation, text: Text, now: int, url: Url)
    | StartTurn(conversation: Conversation, ids: seq<RowId>)
    | Answer(conversation: Conversation, reply: Reply, posted: bool)
    | SettleDone(conversation: Conversation, now: int)
    | FailTurn(conversation: Conversation, final: bool, now: int)
    | GiveUp(conversation: Conversation, now: int)
    | NotifyGivenUp(conversation: Conversation)
    | SettleSilently(conversation: Conversation, now: int)
    | SettleUntargeted(conversation: Conversation, now: int)
    | Expire(conversation: Conversation)
    | ReleaseSpot(ticket: Ticket)
    | Restart
    | Elsewhere(step: Step)

  ghost predicate InPhase(d: Door, c: Conversation, phase: Phase) {
    c in d.turns && d.turns[c].phase == phase
  }

  /** The row's callback, read off the batch's first row. */
  function ReplyTo(d: Door, ids: seq<RowId>): Maybe<Url> {
    if ids != [] && ids[0] in d.callbacks then Some(d.callbacks[ids[0]]) else None
  }

  /** Steps of the rest of the system leave the agent door's rows alone, but for the
      sweep and the conversation record. */
  ghost predicate LeavesAgents(w: World, step: Step) {
    match step
    case Accept(_, c, _, _) => !isAgent(c)
    case AcceptAgent(_, _, _, _) => false
    case ClaimAll(c) => !isAgent(c)
    case Settle(ids, _, _) => forall id :: id in ids && id in w.db.rows ==> !isAgent(w.db.rows[id].conversation)
    case Retry(ids) => forall id :: id in ids && id in w.db.rows ==> !isAgent(w.db.rows[id].conversation)
    case Transcribe(id, _) => id in w.db.rows ==> !isAgent(w.db.rows[id].conversation)
    case _ => true
  }

  ghost predicate AllBlank(d: Door, ids: seq<RowId>) {
    forall id :: id in ids ==> id in d.world.db.rows && isBlank(d.world.db.rows[id].text)
  }

  /** The highest attempt count in the batch is `n` or more. */
  ghost predicate Tried(d: Door, ids: seq<RowId>, n: nat) {
    exists id :: id in ids && id in d.world.db.rows && d.world.db.rows[id].attempts >= n
  }

  /** A turn that the cap lets run. */
  ghost predicate MayRun(d: Door, c: Conversation) {
    InPhase(d, c, Running) && !Tried(d, d.turns[c].ids, MAX_BATCH_ATTEMPTS + 1)
  }

  /** No batch is between being given up and being told of. */
  ghost predicate NoGap(d: Door) {
    forall c :: c in d.turns ==> d.turns[c].phase != GivenUp
  }

  /** A batch over the cap is given up, any other is run, and its failure is final at the
      cap. An agent's rows have no audio to remove, so nothing but settled promises is
      awaited in the gap and no timer fires there. */
  ghost predicate ActOk(d: Door, act: Act) {
    match act
    case SyncCall(_, c, text, _) => isAgent(c) && !isBlank(text)
    case CallbackCall(_, c, text, _, _) => isAgent(c) && !isBlank(text)
    case StartTurn(c, ids) => isAgent(c) && c !in d.turns && IsBatch(d.world.db, c, ids) && ids != []
    case Answer(c, _, _) => MayRun(d, c)
    case SettleDone(c, _) => InPhase(d, c, Delivered)
    case FailTurn(c, final, _) => MayRun(d, c) && (final <==> Tried(d, d.turns[c].ids, MAX_BATCH_ATTEMPTS))
    case GiveUp(c, _) => InPhase(d, c, Running) && Tried(d, d.turns[c].ids, MAX_BATCH_ATTEMPTS + 1)
    case NotifyGivenUp(c) => InPhase(d, c, GivenUp)
    case SettleSilently(c, _) => MayRun(d, c) && AllBlank(d, d.turns[c].ids)
    case SettleUntargeted(c, _) => InPhase(d, c, Running) && d.turns[c].ids != [] && d.turns[c].ids[0] !in d.targets
    case Expire(c) => c in d.spots.waiters && NoGap(d)
    case ReleaseSpot(t) => t in d.asked && t in d.spots.outcomes
    case Restart => true
    case Elsewhere(step) => StepOk(d.world, step) && LeavesAgents(d.world, step)
  }

  ghost function Stepped(w: World, step: Step): World {
    World(After(w.db, step), Births(w, step))
  }

  ghost function Inserts(w: World, key: Key, c: Conversation): bool {
    !InFlight(w.db, c) && !HasKey(w.db, key)
  }

  /** Park, insert, and leave the spot again when the insert was refused: one step, for
      nothing is awaited in between. */
  ghost function Called(d: Door, key: Key, c: Conversation, text: Text, now: int): Door {
    if c in d.spots.waiters || !Inserts(d.world, key, c) then d
    else
      d.(world := Stepped(d.world, AcceptAgent(key, c, text, now)),
         spots := Registered(d.spots, c),
         asked := d.asked[Ticket(d.spots.next) := Ask(c, RowId(d.world.db.nextId), InPhase(d, c, GivenUp))],
         targets := d.targets + {RowId(d.world.db.nextId)})
  }

  ghost function CalledBack(d: Door, key: Key, c: Conversation, text: Text, now: int, url: Url): Door {
    if !Inserts(d.world, key, c) then d
    else
      d.(world := Stepped(d.world, AcceptAgent(key, c, text, now)),
         callbacks := d.callbacks[RowId(d.world.db.nextId) := url], targets := d.targets + {RowId(d.world.db.nextId)})
  }

  /** The reply goes out; a failed callback is a failed attempt. */
  ghost function AnsweredBy(d: Door, c: Conversation, reply: Reply, posted: bool): Door
    requires c in d.turns
  {
    var ids := d.turns[c].ids;
    match DeliveryOf(d.spots, c, ReplyTo(d, ids), posted)
    case CallbackFailed => d
    case ToCallback(url) => d.(turns := d.turns[c := Turn(ids, Delivered)], posts := d.posts + [(url, ids)])
    case _ => d.(turns := d.turns[c := Turn(ids, Delivered)], spots := Ended(d.spots, c, Answered(reply, ids)))
  }

  /** The last attempt failed: the rows are settled and whoever is parked is told. */
  ghost function FailedFor(d: Door, c: Conversation, now: int): Door
    requires c in d.turns
  {
    d.(world := Stepped(d.world, Settle(d.turns[c].ids, Failed, now)), turns := d.turns - {c},
       spots := Ended(d.spots, c, TurnFailed))
  }

  ghost function ActTo(d: Door, act: Act): Door
    requires ActOk(d, act)
  {
    match act
    case SyncCall(key, c, text, now) => Called(d, key, c, text, now)
    case CallbackCall(key, c, text, now, url) => CalledBack(d, key, c, text, now, url)
    case StartTurn(c, ids) =>
      d.(world := Stepped(d.world, ClaimAll(c)), turns := d.turns[c := Turn(ids, Running)])
    case Answer(c, reply, posted) => AnsweredBy(d, c, reply, posted)
    case SettleDone(c, now) =>
      d.(world := Stepped(d.world, Settle(d.turns[c].ids, Done, now)), turns := d.turns - {c})
    case FailTurn(c, final, now) =>
      if final then FailedFor(d, c, now)
      else d.(world := Stepped(d.world, Retry(d.turns[c].ids)), turns := d.turns - {c})
    case GiveUp(c, now) =>
      d.(world := Stepped(d.world, Settle(d.turns[c].ids, Failed, now)),
         turns := d.turns[c := Turn(d.turns[c].ids, GivenUp)])
    case NotifyGivenUp(c) => d.(turns := d.turns - {c}, spots := Ended(d.spots, c, TurnFailed))
    case SettleSilently(c, now) =>
      d.(world := Stepped(d.world, Settle(d.turns[c].ids, Done, now)), turns := d.turns - {c})
    case SettleUntargeted(c, now) =>
      d.(world := Stepped(d.world, Settle(d.turns[c].ids, Failed, now)), turns := d.turns - {c})
    case Expire(c) => d.(spots := Ended(d.spots, c, TimedOut))
    case ReleaseSpot(t) => d.(spots := Released(d.spots, d.asked[t].conversation, t))
    case Restart => d.(spots := d.spots.(waiters := map[]), turns := map[])
    case Elsewhere(step) => d.(world := Stepped(d.world, step))
  }

  ghost predicate Acts(d: Door, act: Act, e: Door) {
    ActOk(d, act) && e == ActTo(d, act)
  }

  const Opened: Door := Door(Empty, Spots(map[], map[], 0), map[], map[], {}, map[], [])

  // ---- What every state keeps -------------------------------------------------------------------

  ghost predicate Waits(d: Door, c: Conversation, id: RowId) {
    Holds(d.world, id, c)
  }

  /** At most one un-settled row per conversation of the agent door, none of them blank,
      each for a named agent. */
  ghost predicate RowsOk(d: Door) {
    && Inv(d.world)
    && (forall c :: isAgent(c) ==> AtMostOne(d.world, c))
    && (forall c, id :: isAgent(c) && Holds(d.world, id, c) ==> !isBlank(d.world.db.rows[id].text))
    && (forall c, id :: isAgent(c) && Holds(d.world, id, c) ==> id in d.targets)
  }

  /** A running or delivered turn holds the one un-settled row of its conversation. */
  ghost predicate TurnAt(d: Door, c: Conversation)
    requires c in d.turns
  {
    && isAgent(c) && |d.turns[c].ids| == 1 && d.turns[c].ids[0] in d.world.born
    && (d.turns[c].phase != GivenUp ==> Waits(d, c, d.turns[c].ids[0]))
    && (d.turns[c].phase == Delivered ==> c !in d.spots.waiters)
  }

  ghost predicate TurnsOk(d: Door) {
    forall c :: c in d.turns ==> TurnAt(d, c)
  }

  /** A parked caller's row is un-settled. Either the caller came while its conversation's
      batch was given up, or its row has attempts left: a fourth claim follows a crash,
      and a crash leaves nobody parked. */
  ghost predicate ParkedAt(d: Door, c: Conversation)
    requires c in d.spots.waiters
  {
    var t := d.spots.waiters[c];
    && t in d.asked && d.asked[t].conversation == c && Waits(d, c, d.asked[t].row)
    && (d.asked[t].late <==> InPhase(d, c, GivenUp))
    && (d.asked[t].late || HasTries(d, c, d.world.db.rows[d.asked[t].row].attempts))
  }

  ghost predicate HasTries(d: Door, c: Conversation, attempts: nat) {
    attempts <= if c in d.turns then MAX_BATCH_ATTEMPTS else MAX_BATCH_ATTEMPTS - 1
  }

  ghost predicate AskAt(d: Door, t: Ticket)
    requires t in d.asked
  {
    && t.n < d.spots.next && isAgent(d.asked[t].conversation) && d.asked[t].row !in d.callbacks
    && d.asked[t].row in d.world.born && d.world.born[d.asked[t].row].conversation == d.asked[t].conversation
  }

  ghost predicate AskedOk(d: Door) {
    forall t :: t in d.asked ==> AskAt(d, t)
  }

  ghost predicate ParkedOk(d: Door) {
    SpotsOk(d.spots) && AskedOk(d) && forall c :: c in d.spots.waiters ==> ParkedAt(d, c)
  }

  /** Settled as failed, for as long as the row is kept. */
  ghost predicate FailedRow(w: World, id: RowId) {
    id in w.db.rows ==> w.db.rows[id].status == Failed
  }

  /** A reply answers the row its receiver inserted; whoever is told that the turn failed
      has a failed row, or came while the batch before was being given up. */
  ghost predicate OutcomeAt(d: Door, t: Ticket)
    requires t in d.asked && t in d.spots.outcomes
  {
    match d.spots.outcomes[t]
    case Answered(_, answers) => answers == [d.asked[t].row] && !d.asked[t].late
    case TimedOut => !d.asked[t].late
    case TurnFailed => d.asked[t].late || FailedRow(d.world, d.asked[t].row)
  }

  ghost predicate OutcomesOk(d: Door) {
    forall t :: t in d.spots.outcomes ==> t in d.asked && OutcomeAt(d, t)
  }

  ghost predicate PostsOk(d: Door) {
    && (forall k :: 0 <= k < |d.posts| ==>
          |d.posts[k].1| == 1 && d.posts[k].1[0] in d.callbacks && d.callbacks[d.posts[k].1[0]] == d.posts[k].0)
    && (forall id :: id in d.callbacks ==> id in d.world.born)
  }

  /** The rows, the turns and the parked callers fit each other. */
  ghost predicate PlacesOk(d: Door) {
    RowsOk(d) && TurnsOk(d) && ParkedOk(d)
  }

  ghost predicate DoorOk(d: Door) {
    PlacesOk(d) && OutcomesOk(d) && PostsOk(d)
  }

  // ---- What a step does to the rows waiting on agent conversations --------------------------------

  /** The same rows wait, with the same texts and attempts, on the agent door's conversations. */
  ghost predicate SameWaits(w: World, v: World) {
    && (forall c, id :: isAgent(c) ==> (Holds(v, id, c) <==> Holds(w, id, c)))
    && (forall c, id :: isAgent(c) && Holds(w, id, c) ==> SameTries(w, id, v))
  }

  ghost predicate SameTries(w: World, id: RowId, v: World)
    requires id in w.db.rows
  {
    id in v.db.rows && v.db.rows[id].text == w.db.rows[id].text && v.db.rows[id].attempts == w.db.rows[id].attempts
  }

  lemma ElsewhereWaits(w: World, step: Step, v: World)
    requires Inv(w) && Next(w, step, v) && LeavesAgents(w, step)
    ensures SameWaits(w, v)
  {
    if step.RecordBatch? {
      RecordedKeeps(w.db, step.agent, step.turn, step.batch);
    }
    if step.Accept? {
      assert RowId(w.db.nextId) !in w.db.rows;
    }
  }

  /** Settling takes the named rows away and nothing else. */
  ghost predicate WaitsLess(w: World, ids: seq<RowId>, v: World) {
    && (forall c, id :: Holds(v, id, c) <==> Holds(w, id, c) && id !in ids)
    && (forall c, id :: Holds(v, id, c) ==> SameTries(w, id, v))
  }

  /** An insert adds one row, not yet claimed. */
  ghost predicate WaitsMore(w: World, id: RowId, c: Conversation, text: Text, v: World) {
    && id !in w.db.rows && id !in w.born && id in v.born && v.born[id].conversation == c
    && Holds(v, id, c) && v.db.rows[id].text == text && v.db.rows[id].attempts == 0
    && (forall d, i :: i != id ==> (Holds(v, i, d) <==> Holds(w, i, d)))
    && (forall d, i :: i != id && Holds(w, i, d) ==> SameTries(w, i, v))
  }

  /** A claim adds one attempt to the rows of its conversation. */
  ghost predicate WaitsClaimed(w: World, c: Conversation, v: World) {
    && (forall k, id :: Holds(v, id, k) <==> Holds(w, id, k))
    && (forall k, id :: k != c && Holds(w, id, k) ==> SameTries(w, id, v))
    && (forall id :: Holds(w, id, c) ==>
          id in v.db.rows && v.db.rows[id].text == w.db.rows[id].text
          && v.db.rows[id].attempts == w.db.rows[id].attempts + 1)
  }

  lemma StepRows(d: Door, step: Step, world: World)
    requires RowsOk(d) && Next(d.world, step, world) && (step.Accept? ==> !isAgent(step.conversation))
    ensures Inv(world) && Kept(d.world, world) && forall c :: isAgent(c) ==> AtMostOne(world, c)
  {
    StepKeeps(d.world, step, world);
    StepKeepsRecords(d.world, step, world);
    forall c | isAgent(c) ensures AtMostOne(world, c) {
      StepKeepsOne(d.world, step, world, c);
    }
  }

  /** Two rows waiting on one conversation are one. */
  lemma OneWaits(d: Door, c: Conversation, a: RowId, b: RowId)
    requires RowsOk(d) && isAgent(c) && Waits(d, c, a) && Waits(d, c, b)
    ensures a == b
  {
    assert AtMostOne(d.world, c);
  }

  /** A step settles rows of the agent door only while they wait. */
  ghost predicate Spares(w: World, step: Step) {
    step.Settle? ==> forall id :: id in step.ids && id in w.db.rows ==>
      Unsettled(w.db.rows[id]) || !isAgent(w.db.rows[id].conversation)
  }

  lemma FailedStays(w: World, step: Step, v: World, id: RowId)
    requires Inv(w) && Next(w, step, v) && Spares(w, step)
    requires id in w.born && isAgent(w.born[id].conversation) && FailedRow(w, id)
    ensures FailedRow(v, id)
  {
    if step.RecordBatch? {
      RecordedKeeps(w.db, step.agent, step.turn, step.batch);
    }
  }

  /** What callers were told stays true. */
  lemma OutcomesStay(d: Door, step: Step, world: World)
    requires Inv(d.world) && AskedOk(d) && OutcomesOk(d) && Next(d.world, step, world) && Spares(d.world, step)
    ensures OutcomesOk(d.(world := world))
  {
    var e := d.(world := world);
    forall t | t in e.spots.outcomes ensures t in e.asked && OutcomeAt(e, t) {
      assert OutcomeAt(d, t) && AskAt(d, t);
      if FailedRow(d.world, d.asked[t].row) {
        FailedStays(d.world, step, world, d.asked[t].row);
      }
    }
  }

  lemma AsksStay(d: Door, world: World)
    requires AskedOk(d) && Kept(d.world, world)
    ensures AskedOk(d.(world := world))
  {
    forall t | t in d.asked ensures AskAt(d.(world := world), t) {
      assert AskAt(d, t);
    }
  }

  // ---- The acts -------------------------------------------------------------------------------------

  /** Steps that leave the waiting rows as they are leave the door as it is. */
  lemma SameWaitsKeeps(d: Door, step: Step, world: World)
    requires DoorOk(d) && Next(d.world, step, world) && SameWaits(d.world, world) && Spares(d.world, step)
    requires step.Accept? ==> !isAgent(step.conversation)
    ensures DoorOk(d.(world := world))
  {
    var e := d.(world := world);
    StepRows(d, step, world);
    OutcomesStay(d, step, world);
    AsksStay(d, world);
    forall k | k in e.turns ensures TurnAt(e, k) {
      assert TurnAt(d, k);
    }
    forall k | k in e.spots.waiters ensures ParkedAt(e, k) {
      assert ParkedAt(d, k) && AskAt(d, d.spots.waiters[k]);
    }
  }

  lemma InsertWaits(w: World, key: Key, c: Conversation, text: Text, now: int, v: World)
    requires Inv(w) && Inserts(w, key, c) && Next(w, AcceptAgent(key, c, text, now), v)
    ensures WaitsMore(w, RowId(w.db.nextId), c, text, v)
  {
  }

  lemma CallKeepsRows(d: Door, key: Key, c: Conversation, text: Text, now: int, world: World)
    requires RowsOk(d) && isAgent(c) && !isBlank(text) && Inserts(d.world, key, c)
    requires Next(d.world, AcceptAgent(key, c, text, now), world)
    ensures RowsOk(d.(world := world, targets := d.targets + {RowId(d.world.db.nextId)})) && Kept(d.world, world)
    ensures WaitsMore(d.world, RowId(d.world.db.nextId), c, text, world)
  {
    StepRows(d, AcceptAgent(key, c, text, now), world);
    InsertWaits(d.world, key, c, text, now, world);
  }

  lemma CalledKeeps(d: Door, key: Key, c: Conversation, text: Text, now: int)
    requires DoorOk(d) && isAgent(c) && !isBlank(text)
    ensures DoorOk(Called(d, key, c, text, now))
  {
    var e := Called(d, key, c, text, now);
    if c !in d.spots.waiters && Inserts(d.world, key, c) {
      var id, t := RowId(d.world.db.nextId), Ticket(d.spots.next);
      CallKeepsRows(d, key, c, text, now, e.world);
      MoreTurns(d, id, c, text, e);
      CallKeepsParked(d, c, id, t, text, e);
      CallKeepsOutcomes(d, key, c, text, now, e);
    }
  }

  lemma CallKeepsOutcomes(d: Door, key: Key, c: Conversation, text: Text, now: int, e: Door)
    requires RowsOk(d) && ParkedOk(d) && OutcomesOk(d) && Inserts(d.world, key, c)
    requires e == Called(d, key, c, text, now)
    ensures OutcomesOk(e)
  {
    OutcomesStay(d, AcceptAgent(key, c, text, now), Stepped(d.world, AcceptAgent(key, c, text, now)));
    forall t | t in e.spots.outcomes ensures t in e.asked && OutcomeAt(e, t) {
      assert t in d.asked && AskAt(d, t) && OutcomeAt(d.(world := e.world), t);
    }
  }

  /** A new row on a conversation with nothing in flight leaves the turns in place. */
  lemma MoreTurns(d: Door, id: RowId, c: Conversation, text: Text, e: Door)
    requires TurnsOk(d) && WaitsMore(d.world, id, c, text, e.world) && Kept(d.world, e.world)
    requires e.turns == d.turns && (forall k :: k in e.spots.waiters && k !in d.spots.waiters ==> k == c)
    requires forall i :: !Holds(d.world, i, c)
    ensures TurnsOk(e)
  {
    forall k | k in e.turns ensures TurnAt(e, k) {
      assert TurnAt(d, k);
    }
  }

  lemma CallKeepsParked(d: Door, c: Conversation, id: RowId, t: Ticket, text: Text, e: Door)
    requires ParkedOk(d) && PostsOk(d) && Kept(d.world, e.world) && WaitsMore(d.world, id, c, text, e.world) && isAgent(c)
    requires t == Ticket(d.spots.next) && c !in d.spots.waiters
    requires e == d.(world := e.world, spots := Registered(d.spots, c), targets := e.targets,
                    asked := d.asked[t := Ask(c, id, InPhase(d, c, GivenUp))])
    ensures ParkedOk(e)
  {
    assert id !in d.callbacks;
    forall u | u in e.asked ensures AskAt(e, u) {
      assert u != t ==> AskAt(d, u);
    }
    forall k | k in e.spots.waiters ensures ParkedAt(e, k) {
      if k != c {
        assert ParkedAt(d, k) && e.spots.waiters[k] == d.spots.waiters[k];
        assert AskAt(d, d.spots.waiters[k]);
      }
    }
  }

  lemma CalledBackKeeps(d: Door, key: Key, c: Conversation, text: Text, now: int, url: Url)
    requires DoorOk(d) && isAgent(c) && !isBlank(text)
    ensures DoorOk(CalledBack(d, key, c, text, now, url))
  {
    if Inserts(d.world, key, c) {
      var id, e := RowId(d.world.db.nextId), CalledBack(d, key, c, text, now, url);
      CallKeepsRows(d, key, c, text, now, e.world);
      MoreTurns(d, id, c, text, e);
      OutcomesStay(d, AcceptAgent(key, c, text, now), e.world);
      assert OutcomesOk(e) by {
        assert forall t :: t in e.spots.outcomes ==> OutcomeAt(d.(world := e.world), t) && OutcomeAt(e, t);
      }
      CallBackKeepsParked(d, c, id, text, url, e);
    }
  }

  lemma CallBackKeepsParked(d: Door, c: Conversation, id: RowId, text: Text, url: Url, e: Door)
    requires ParkedOk(d) && Kept(d.world, e.world) && WaitsMore(d.world, id, c, text, e.world)
    requires e == d.(world := e.world, callbacks := d.callbacks[id := url], targets := e.targets)
    ensures ParkedOk(e)
  {
    forall u | u in e.asked ensures AskAt(e, u) {
      assert AskAt(d, u);
    }
    forall k | k in e.spots.waiters ensures ParkedAt(e, k) {
      assert ParkedAt(d, k) && AskAt(d, d.spots.waiters[k]);
    }
  }

  lemma ClaimWaits(w: World, c: Conversation, v: World)
    requires Next(w, ClaimAll(c), v)
    ensures WaitsClaimed(w, c, v)
  {
  }

  lemma ClaimRows(d: Door, c: Conversation, world: World)
    requires RowsOk(d) && Next(d.world, ClaimAll(c), world)
    ensures RowsOk(d.(world := world)) && Kept(d.world, world) && WaitsClaimed(d.world, c, world)
  {
    StepRows(d, ClaimAll(c), world);
    ClaimWaits(d.world, c, world);
  }

  lemma ClaimParked(d: Door, c: Conversation, ids: seq<RowId>, e: Door)
    requires ParkedOk(d) && c !in d.turns && Kept(d.world, e.world) && WaitsClaimed(d.world, c, e.world)
    requires e == d.(world := e.world, turns := d.turns[c := Turn(ids, Running)])
    ensures ParkedOk(e)
  {
    AsksStay(d, e.world);
    assert forall t :: t in e.asked ==> AskAt(d.(world := e.world), t) && AskAt(e, t);
    forall k | k in e.spots.waiters ensures ParkedAt(e, k) {
      assert ParkedAt(d, k);
    }
  }

  lemma StartTurns(d: Door, c: Conversation, ids: seq<RowId>, e: Door)
    requires TurnsOk(d) && isAgent(c) && |ids| == 1 && Waits(d, c, ids[0]) && ids[0] in e.world.born
    requires Kept(d.world, e.world) && WaitsClaimed(d.world, c, e.world) && e.spots == d.spots
    requires e.turns == d.turns[c := Turn(ids, Running)]
    ensures TurnsOk(e)
  {
    forall k | k in e.turns ensures TurnAt(e, k) {
      assert k != c ==> TurnAt(d, k);
    }
  }

  lemma StartOutcomes(d: Door, c: Conversation, e: Door)
    requires Inv(d.world) && AskedOk(d) && OutcomesOk(d) && Next(d.world, ClaimAll(c), e.world)
    requires e.spots == d.spots && e.asked == d.asked
    ensures OutcomesOk(e)
  {
    OutcomesStay(d, ClaimAll(c), e.world);
    assert forall t :: t in e.spots.outcomes ==> OutcomeAt(d.(world := e.world), t) && OutcomeAt(e, t);
  }

  lemma StartKeeps(d: Door, c: Conversation, ids: seq<RowId>)
    requires DoorOk(d) && ActOk(d, StartTurn(c, ids))
    ensures DoorOk(ActTo(d, StartTurn(c, ids)))
  {
    var e := ActTo(d, StartTurn(c, ids));
    BatchIsOne(d, c, ids);
    ClaimRows(d, c, e.world);
    ClaimParked(d, c, ids, e);
    StartTurns(d, c, ids, e);
    StartOutcomes(d, c, e);
  }

  /** A claim of an agent conversation is its one row. */
  lemma BatchIsOne(d: Door, c: Conversation, ids: seq<RowId>)
    requires RowsOk(d) && isAgent(c) && IsBatch(d.world.db, c, ids) && ids != []
    ensures |ids| == 1 && Waits(d, c, ids[0]) && ids[0] in d.world.born
  {
    assert ids[0] in ids;
    if |ids| > 1 {
      BatchDistinct(d.world.db, c, ids, 1);
      assert ids[1] in ids && ids[..1][0] == ids[0];
      OneWaits(d, c, ids[0], ids[1]);
    }
  }

  /** A running turn holds the row of whoever is parked on its conversation. */
  lemma TurnIsCallers(d: Door, c: Conversation)
    requires PlacesOk(d) && InPhase(d, c, Running) && c in d.spots.waiters
    ensures ParkedAt(d, c) && !d.asked[d.spots.waiters[c]].late
    ensures d.turns[c].ids == [d.asked[d.spots.waiters[c]].row]
  {
    assert TurnAt(d, c);
    OneWaits(d, c, d.turns[c].ids[0], d.asked[d.spots.waiters[c]].row);
  }

  /** Whoever is parked has attempts left: a batch over the cap is nobody's. */
  lemma OverCapIsNobodys(d: Door, c: Conversation)
    requires PlacesOk(d) && InPhase(d, c, Running) && Tried(d, d.turns[c].ids, MAX_BATCH_ATTEMPTS + 1)
    ensures c !in d.spots.waiters
  {
    if c in d.spots.waiters {
      TurnIsCallers(d, c);
    }
  }

  /** A turn moves to another phase, or ends, with nobody parked who would notice. */
  lemma TurnMoves(d: Door, c: Conversation, e: Door)
    requires PlacesOk(d) && InPhase(d, c, Running)
    requires || (c !in d.spots.waiters && e == d.(turns := d.turns[c := Turn(d.turns[c].ids, Delivered)]))
             || (!Tried(d, d.turns[c].ids, MAX_BATCH_ATTEMPTS) && e == d.(turns := d.turns - {c}))
    ensures PlacesOk(e)
  {
    assert TurnAt(d, c);
    forall k | k in e.turns ensures TurnAt(e, k) {
      assert k != c ==> TurnAt(d, k);
    }
    if c in d.spots.waiters {
      TurnIsCallers(d, c);
      assert d.turns[c].ids[0] in d.turns[c].ids;
    }
    forall k | k in e.spots.waiters ensures ParkedAt(e, k) {
      assert ParkedAt(d, k);
    }
    assert forall t :: t in e.asked ==> AskAt(d, t) && AskAt(e, t);
  }

  lemma PostedKeeps(d: Door, c: Conversation, url: Url)
    requires DoorOk(d) && c in d.turns && ReplyTo(d, d.turns[c].ids) == Some(url)
    ensures DoorOk(d.(posts := d.posts + [(url, d.turns[c].ids)]))
  {
    assert TurnAt(d, c);
    var e := d.(posts := d.posts + [(url, d.turns[c].ids)]);
    assert RowsOk(e) && PostsOk(e);
    assert forall k :: k in e.turns ==> TurnAt(d, k) && TurnAt(e, k);
    assert forall t :: t in e.asked ==> AskAt(d, t) && AskAt(e, t);
    assert forall k :: k in e.spots.waiters ==> ParkedAt(d, k) && ParkedAt(e, k);
    assert forall t :: t in e.spots.outcomes ==> OutcomeAt(d, t) && OutcomeAt(e, t);
  }

  /** The turns and phases have no part in what callers were told. */
  lemma OutcomesIgnoreTurns(d: Door, turns: map<Conversation, Turn>)
    requires OutcomesOk(d)
    ensures OutcomesOk(d.(turns := turns))
  {
    assert forall t :: t in d.spots.outcomes ==> OutcomeAt(d, t) && OutcomeAt(d.(turns := turns), t);
  }

  lemma AnsweredKeeps(d: Door, c: Conversation, reply: Reply, posted: bool)
    requires DoorOk(d) && InPhase(d, c, Running)
    ensures DoorOk(AnsweredBy(d, c, reply, posted))
  {
    var ids := d.turns[c].ids;
    var delivered := d.turns[c := Turn(ids, Delivered)];
    if c in d.spots.waiters {
      TurnIsCallers(d, c);
      EndedPlaces(d, c, Answered(reply, ids));
      EndedOutcomes(d, c, Answered(reply, ids));
      var e := d.(spots := Ended(d.spots, c, Answered(reply, ids)));
      TurnMoves(e, c, e.(turns := delivered));
      OutcomesIgnoreTurns(e, delivered);
    } else if ReplyTo(d, ids).None? || posted {
      var e := d.(turns := delivered);
      TurnMoves(d, c, e);
      OutcomesIgnoreTurns(d, delivered);
      if ReplyTo(d, ids).Some? {
        PostedKeeps(e, c, ReplyTo(d, ids).value);
      }
    }
  }

  /** Whoever is parked leaves with an outcome. */
  lemma EndedPlaces(d: Door, c: Conversation, outcome: Outcome)
    requires PlacesOk(d)
    ensures PlacesOk(d.(spots := Ended(d.spots, c, outcome)))
  {
    var e := d.(spots := Ended(d.spots, c, outcome));
    EndedOk(d.spots, c, outcome);
    forall k | k in e.turns ensures TurnAt(e, k) {
      assert TurnAt(d, k);
    }
    forall k | k in e.spots.waiters ensures ParkedAt(e, k) {
      assert ParkedAt(d, k);
    }
    assert forall t :: t in e.asked ==> AskAt(d, t) && AskAt(e, t);
  }

  lemma EndedOk(s: Spots, c: Conversation, outcome: Outcome)
    requires SpotsOk(s)
    ensures SpotsOk(Ended(s, c, outcome))
  {
  }

  /** The outcome must be true of the caller who leaves. */
  lemma EndedOutcomes(d: Door, c: Conversation, outcome: Outcome)
    requires OutcomesOk(d)
    requires c in d.spots.waiters ==>
      d.spots.waiters[c] in d.asked && OutcomeAt(d.(spots := Ended(d.spots, c, outcome)), d.spots.waiters[c])
    ensures OutcomesOk(d.(spots := Ended(d.spots, c, outcome)))
  {
    var e := d.(spots := Ended(d.spots, c, outcome));
    if c in d.spots.waiters {
      forall t | t in e.spots.outcomes ensures t in e.asked && OutcomeAt(e, t) {
        assert t != d.spots.waiters[c] ==> OutcomeAt(d, t);
      }
    }
  }

  lemma SettledRows(d: Door, c: Conversation, status: Status, now: int, world: World)
    requires RowsOk(d) && c in d.turns && (status == Done || status == Failed)
    requires world == Stepped(d.world, Settle(d.turns[c].ids, status, now))
    ensures RowsOk(d.(world := world)) && Kept(d.world, world) && WaitsLess(d.world, d.turns[c].ids, world)
  {
    var step := Settle(d.turns[c].ids, status, now);
    assert Next(d.world, step, world);
    StepRows(d, step, world);
  }

  /** Settling the one row of a conversation nobody is parked on. */
  lemma SettlePlaces(d: Door, c: Conversation, status: Status, now: int, turns: map<Conversation, Turn>)
    requires PlacesOk(d) && c in d.turns && d.turns[c].phase != GivenUp && (status == Done || status == Failed)
    requires c !in d.spots.waiters
    requires turns == d.turns - {c} || turns == d.turns[c := Turn(d.turns[c].ids, GivenUp)]
    ensures PlacesOk(d.(world := Stepped(d.world, Settle(d.turns[c].ids, status, now)), turns := turns))
  {
    var world := Stepped(d.world, Settle(d.turns[c].ids, status, now));
    var e := d.(world := world, turns := turns);
    SettledRows(d, c, status, now, world);
    assert TurnAt(d, c);
    SettledTurns(d, c, e);
    SettledAsks(d, world, turns);
    forall k | k in e.spots.waiters ensures ParkedAt(e, k) {
      OthersStayParked(d, c, world, turns, k);
    }
  }

  lemma SettledTurns(d: Door, c: Conversation, e: Door)
    requires TurnsOk(d) && c in d.turns && d.turns[c].phase != GivenUp
    requires Kept(d.world, e.world) && WaitsLess(d.world, d.turns[c].ids, e.world)
    requires e.turns == d.turns - {c} || e.turns == d.turns[c := Turn(d.turns[c].ids, GivenUp)]
    requires e.spots == d.spots
    ensures TurnsOk(e)
  {
    assert TurnAt(d, c);
    forall k | k in e.turns ensures TurnAt(e, k) {
      assert TurnAt(d, k);
    }
  }

  lemma SettledAsks(d: Door, world: World, turns: map<Conversation, Turn>)
    requires AskedOk(d) && Kept(d.world, world)
    ensures AskedOk(d.(world := world, turns := turns))
  {
    AsksStay(d, world);
    assert forall t :: t in d.asked ==> AskAt(d.(world := world), t) && AskAt(d.(world := world, turns := turns), t);
  }

  /** Settling one conversation's row leaves the callers of the others parked. */
  lemma OthersStayParked(d: Door, c: Conversation, world: World, turns: map<Conversation, Turn>, k: Conversation)
    requires k in d.spots.waiters && ParkedAt(d, k) && k != c && c in d.turns
    requires TurnAt(d, c) && d.turns[c].phase != GivenUp && WaitsLess(d.world, d.turns[c].ids, world)
    requires turns == d.turns - {c} || turns == d.turns[c := Turn(d.turns[c].ids, GivenUp)]
    ensures ParkedAt(d.(world := world, turns := turns), k)
  {
  }

  lemma SettleOutcomes(d: Door, c: Conversation, status: Status, now: int)
    requires DoorOk(d) && c in d.turns && d.turns[c].phase != GivenUp && (status == Done || status == Failed)
    ensures OutcomesOk(d.(world := Stepped(d.world, Settle(d.turns[c].ids, status, now))))
  {
    assert TurnAt(d, c);
    var step := Settle(d.turns[c].ids, status, now);
    assert Spares(d.world, step) by {
      assert forall id :: id in step.ids ==> id == d.turns[c].ids[0];
    }
    OutcomesStay(d, step, Stepped(d.world, step));
  }

  lemma SettleKeeps(d: Door, c: Conversation, status: Status, now: int, turns: map<Conversation, Turn>)
    requires DoorOk(d) && c in d.turns && d.turns[c].phase != GivenUp && (status == Done || status == Failed)
    requires c !in d.spots.waiters
    requires turns == d.turns - {c} || turns == d.turns[c := Turn(d.turns[c].ids, GivenUp)]
    ensures DoorOk(d.(world := Stepped(d.world, Settle(d.turns[c].ids, status, now)), turns := turns))
  {
    SettlePlaces(d, c, status, now, turns);
    SettleOutcomes(d, c, status, now);
    SettledRows(d, c, status, now, Stepped(d.world, Settle(d.turns[c].ids, status, now)));
    OutcomesIgnoreTurns(d.(world := Stepped(d.world, Settle(d.turns[c].ids, status, now))), turns);
  }

  lemma FailedOutcomes(d: Door, c: Conversation, now: int)
    requires DoorOk(d) && InPhase(d, c, Running)
    ensures OutcomesOk(FailedFor(d, c, now))
  {
    SettleOutcomes(d, c, Failed, now);
    var f := d.(world := FailedFor(d, c, now).world);
    if c in d.spots.waiters {
      TurnIsCallers(d, c);
      assert d.asked[d.spots.waiters[c]].row in d.turns[c].ids;
      assert FailedRow(f.world, d.asked[d.spots.waiters[c]].row);
    }
    EndedOutcomes(f, c, TurnFailed);
    OutcomesIgnoreTurns(f.(spots := Ended(f.spots, c, TurnFailed)), d.turns - {c});
  }

  lemma FailedPosts(d: Door, c: Conversation, now: int)
    requires RowsOk(d) && PostsOk(d) && c in d.turns
    ensures PostsOk(FailedFor(d, c, now))
  {
    SettledRows(d, c, Failed, now, FailedFor(d, c, now).world);
  }

  /** The last attempt fails: the row is settled, and its caller told. */
  lemma FailForGood(d: Door, c: Conversation, now: int)
    requires DoorOk(d) && InPhase(d, c, Running)
    ensures DoorOk(FailedFor(d, c, now))
  {
    EndedPlaces(d, c, TurnFailed);
    SettlePlaces(d.(spots := Ended(d.spots, c, TurnFailed)), c, Failed, now, d.turns - {c});
    FailedOutcomes(d, c, now);
    FailedPosts(d, c, now);
  }

  lemma FailForNow(d: Door, c: Conversation)
    requires DoorOk(d) && InPhase(d, c, Running) && !Tried(d, d.turns[c].ids, MAX_BATCH_ATTEMPTS)
    ensures DoorOk(d.(world := Stepped(d.world, Retry(d.turns[c].ids)), turns := d.turns - {c}))
  {
    var step := Retry(d.turns[c].ids);
    var world := Stepped(d.world, step);
    assert TurnAt(d, c);
    assert StepOk(d.world, step) by {
      assert forall id :: id in step.ids ==> id == d.turns[c].ids[0];
    }
    SameWaitsKeeps(d, step, world);
    var e := d.(world := world);
    assert !Tried(e, d.turns[c].ids, MAX_BATCH_ATTEMPTS);
    TurnMoves(e, c, e.(turns := d.turns - {c}));
    OutcomesIgnoreTurns(e, d.turns - {c});
  }

  lemma NotifyKeeps(d: Door, c: Conversation)
    requires DoorOk(d) && InPhase(d, c, GivenUp)
    ensures DoorOk(d.(turns := d.turns - {c}, spots := Ended(d.spots, c, TurnFailed)))
  {
    var f := d.(spots := Ended(d.spots, c, TurnFailed));
    EndedPlaces(d, c, TurnFailed);
    if c in d.spots.waiters {
      assert ParkedAt(d, c);
    }
    EndedOutcomes(d, c, TurnFailed);
    var e := f.(turns := d.turns - {c});
    forall k | k in e.turns ensures TurnAt(e, k) {
      assert TurnAt(f, k);
    }
    forall k | k in e.spots.waiters ensures ParkedAt(e, k) {
      assert ParkedAt(f, k);
    }
    assert forall t :: t in e.asked ==> AskAt(f, t) && AskAt(e, t);
    OutcomesIgnoreTurns(f, d.turns - {c});
  }

  /** No timer fires in the gap, so whoever times out is not late. */
  lemma ExpireKeeps(d: Door, c: Conversation)
    requires DoorOk(d) && ActOk(d, Expire(c))
    ensures DoorOk(ActTo(d, Expire(c)))
  {
    assert ParkedAt(d, c);
    EndedPlaces(d, c, TimedOut);
    EndedOutcomes(d, c, TimedOut);
  }

  lemma RestartKeeps(d: Door)
    requires DoorOk(d)
    ensures DoorOk(ActTo(d, Restart))
  {
    var e := ActTo(d, Restart);
    assert forall t :: t in e.asked ==> AskAt(d, t) && AskAt(e, t);
    assert forall t :: t in e.spots.outcomes ==> OutcomeAt(d, t) && OutcomeAt(e, t);
  }

  /** The door lets no blank text in, so a running batch always has something to answer. */
  lemma NeverSilent(d: Door, c: Conversation)
    requires DoorOk(d) && InPhase(d, c, Running)
    ensures !AllBlank(d, d.turns[c].ids)
  {
    assert TurnAt(d, c);
    assert d.turns[c].ids[0] in d.turns[c].ids;
  }

  /** The door names a target on every row, so no batch of it is settled for want of one. */
  lemma AlwaysTargeted(d: Door, c: Conversation)
    requires DoorOk(d) && InPhase(d, c, Running)
    ensures d.turns[c].ids[0] in d.targets
  {
    assert TurnAt(d, c);
    assert Waits(d, c, d.turns[c].ids[0]);
  }

  lemma ReleaseKeeps(d: Door, t: Ticket)
    requires DoorOk(d) && t in d.asked && t in d.spots.outcomes
    ensures ActTo(d, ReleaseSpot(t)) == d
  {
  }

  lemma ElsewhereKeeps(d: Door, step: Step)
    requires DoorOk(d) && ActOk(d, Elsewhere(step))
    ensures DoorOk(ActTo(d, Elsewhere(step)))
  {
    ElsewhereWaits(d.world, step, Stepped(d.world, step));
    SameWaitsKeeps(d, step, Stepped(d.world, step));
  }

  lemma ActKeeps(d: Door, act: Act)
    requires DoorOk(d) && ActOk(d, act)
    ensures DoorOk(ActTo(d, act))
  {
    match act
    case SyncCall(key, c, text, now) => CalledKeeps(d, key, c, text, now);
    case CallbackCall(key, c, text, now, url) => CalledBackKeeps(d, key, c, text, now, url);
    case StartTurn(c, ids) => StartKeeps(d, c, ids);
    case Answer(c, reply, posted) => AnsweredKeeps(d, c, reply, posted);
    case SettleDone(c, now) =>
      assert TurnAt(d, c);
      SettleKeeps(d, c, Done, now, d.turns - {c});
    case FailTurn(c, final, now) => if final { FailForGood(d, c, now); } else { FailForNow(d, c); }
    case GiveUp(c, now) =>
      OverCapIsNobodys(d, c);
      SettleKeeps(d, c, Failed, now, d.turns[c := Turn(d.turns[c].ids, GivenUp)]);
    case NotifyGivenUp(c) => NotifyKeeps(d, c);
    case SettleSilently(c, now) => NeverSilent(d, c);
    case SettleUntargeted(c, now) => AlwaysTargeted(d, c);
    case Expire(c) => ExpireKeeps(d, c);
    case ReleaseSpot(t) => ReleaseKeeps(d, t);
    case Restart => RestartKeeps(d);
    case Elsewhere(step) => ElsewhereKeeps(d, step);
  }

  lemma {:induction false} RunOk(doors: seq<Door>, acts: seq<Act>, i: nat)
    requires Walk(Acts, doors, acts) && doors[0] == Opened && i <= |acts|
    ensures DoorOk(doors[i])
  {
    if i > 0 {
      RunOk(doors, acts, i - 1);
      assert Acts(doors[i - 1], acts[i - 1], doors[i]);
      ActKeeps(doors[i - 1], acts[i - 1]);
    }
  }

  /** No agent caller ever gets the answer to another caller's question: in every state
      of every run, a reply resolved for a caller, or posted to a callback, was made for
      exactly the one row that this caller's call inserted; and at most one row per
      agent conversation is un-settled. */
  lemma AnswersReachTheirAskers(doors: seq<Door>, acts: seq<Act>, i: nat)
    requires Walk(Acts, doors, acts) && doors[0] == Opened && i <= |acts|
    ensures forall t :: t in doors[i].spots.outcomes && doors[i].spots.outcomes[t].Answered? ==>
      t in doors[i].asked && doors[i].spots.outcomes[t].answers == [doors[i].asked[t].row]
    ensures forall k :: 0 <= k < |doors[i].posts| ==>
      |doors[i].posts[k].1| == 1 && doors[i].posts[k].1[0] in doors[i].callbacks
      && doors[i].callbacks[doors[i].posts[k].1[0]] == doors[i].posts[k].0
    ensures forall t :: t in doors[i].asked ==> doors[i].asked[t].row !in doors[i].callbacks
    ensures forall c :: isAgent(c) ==> AtMostOne(doors[i].world, c)
  {
    RunOk(doors, acts, i);
    assert forall t :: t in doors[i].spots.outcomes ==> OutcomeAt(doors[i], t);
    assert forall t :: t in doors[i].asked ==> AskAt(doors[i], t);
  }

  // ---- Who is told that a turn failed ------------------------------------------------------------------

  /** The step at which a caller learns that its turn failed. */
  ghost predicate IsTold(d: Door, t: Ticket, e: Door) {
    t !in d.spots.outcomes && t in e.spots.outcomes && e.spots.outcomes[t] == TurnFailed
  }

  /** The caller's row failed in this very step, or waits to be answered. */
  ghost predicate ToldTruly(e: Door, t: Ticket)
    requires t in e.asked
  {
    var ask := e.asked[t];
    && ask.row in e.world.db.rows
    && (e.world.db.rows[ask.row].status == Failed <==> !ask.late)
    && (ask.late ==> Waits(e, ask.conversation, ask.row))
  }

  lemma FinalFailTellsTruly(d: Door, c: Conversation, now: int, t: Ticket)
    requires DoorOk(d) && InPhase(d, c, Running) && IsTold(d, t, FailedFor(d, c, now))
    ensures t in d.asked && ToldTruly(FailedFor(d, c, now), t)
  {
    TurnIsCallers(d, c);
    assert t == d.spots.waiters[c] && d.asked[t].row in d.turns[c].ids;
  }

  lemma ActTellsTruly(d: Door, act: Act, t: Ticket)
    requires DoorOk(d) && ActOk(d, act) && IsTold(d, t, ActTo(d, act))
    ensures t in d.asked && t in ActTo(d, act).asked && ActTo(d, act).asked[t] == d.asked[t] && ToldTruly(ActTo(d, act), t)
    ensures act.NotifyGivenUp? <==> d.asked[t].late
  {
    match act
    case FailTurn(c, final, now) =>
      FinalFailTellsTruly(d, c, now, t);
    case NotifyGivenUp(c) =>
      assert ParkedAt(d, c);
    case _ =>
  }

  /** A caller is told that its turn failed exactly when the failure is its own: in every
      run, at the step at which a caller is told, its row has just been settled as failed
      if and only if its call was not made in the gap, while the batch before it had
      been given up and nobody told. A caller from the gap is told the moment the gap
      closes, with its row still waiting. */
  lemma TurnFailedExactly(doors: seq<Door>, acts: seq<Act>, i: nat, t: Ticket)
    requires Walk(Acts, doors, acts) && doors[0] == Opened && i < |acts| && IsTold(doors[i], t, doors[i + 1])
    ensures t in doors[i + 1].asked && ToldTruly(doors[i + 1], t)
    ensures acts[i].NotifyGivenUp? <==> doors[i + 1].asked[t].late
  {
    RunOk(doors, acts, i);
    assert Acts(doors[i], acts[i], doors[i + 1]);
    ActTellsTruly(doors[i], acts[i], t);
  }

  /** Told once, it stays so: in every state a caller who did not come in the gap and was
      told of a failure has a failed row, while it is kept; and a caller from the gap is
      never told anything else. */
  lemma FailureIsForGood(doors: seq<Door>, acts: seq<Act>, i: nat)
    requires Walk(Acts, doors, acts) && doors[0] == Opened && i <= |acts|
    ensures forall t :: t in doors[i].spots.outcomes ==> t in doors[i].asked
    ensures forall t :: t in doors[i].spots.outcomes && doors[i].asked[t].late ==> doors[i].spots.outcomes[t] == TurnFailed
    ensures forall t :: t in doors[i].spots.outcomes && doors[i].spots.outcomes[t] == TurnFailed && !doors[i].asked[t].late ==>
      FailedRow(doors[i].world, doors[i].asked[t].row)
  {
    RunOk(doors, acts, i);
    assert forall t :: t in doors[i].spots.outcomes ==> OutcomeAt(doors[i], t);
  }

  /** Nobody but a caller from the gap is parked when an over-cap batch is given up or its
      failure told. */
  lemma OwnCallerIsGone(doors: seq<Door>, acts: seq<Act>, i: nat, c: Conversation)
    requires Walk(Acts, doors, acts) && doors[0] == Opened && i < |acts|
    ensures acts[i].GiveUp? && acts[i].conversation == c ==> c !in doors[i].spots.waiters
    ensures acts[i].NotifyGivenUp? && acts[i].conversation == c && c in doors[i].spots.waiters ==>
      doors[i].spots.waiters[c] in doors[i].asked && doors[i].asked[doors[i].spots.waiters[c]].late
  {
    RunOk(doors, acts, i);
    assert Acts(doors[i], acts[i], doors[i + 1]);
    if acts[i].GiveUp? && acts[i].conversation == c {
      OverCapIsNobodys(doors[i], c);
    }
    if acts[i].NotifyGivenUp? && c in doors[i].spots.waiters {
      assert ParkedAt(doors[i], c);
    }
  }

  // ---- What the guards are for -----------------------------------------------------------------------

  function RowAs(key: Key, c: Conversation, text: Text, status: Status, attempts: nat): Row {
    Row(key, c, text, status, attempts, 0, 0)
  }

  /** A door whose first call on `c` inserted row 1, now in some state. */
  function OneCall(key: Key, c: Conversation, text: Text, status: Status, attempts: nat,
                   waiters: map<Conversation, Ticket>, turns: map<Conversation, Turn>): Door {
    Door(World(Db(map[RowId(1) := RowAs(key, c, text, status, attempts)], 2, map[]),
               map[RowId(1) := RowAs(key, c, text, Pending, 0)]),
         Spots(waiters, map[], 1), map[Ticket(0) := Ask(c, RowId(1), false)], map[], {RowId(1)}, turns, [])
  }

  function TurnOf(c: Conversation, id: RowId, phase: Phase): map<Conversation, Turn> {
    map[c := Turn([id], phase)]
  }

  lemma FirstCall(key: Key, c: Conversation, text: Text)
    ensures Called(Opened, key, c, text, 0) == OneCall(key, c, text, Pending, 0, map[c := Ticket(0)], map[])
  {
    var d := Called(Opened, key, c, text, 0);
    assert d.world.db.rows == map[RowId(1) := RowAs(key, c, text, Pending, 0)];
    assert RowId(1) in d.world.db.rows;
  }

  lemma FirstTurn(key: Key, c: Conversation, text: Text, status: Status, attempts: nat, waiters: map<Conversation, Ticket>)
    requires isAgent(c) && (status == Pending || status == Processing)
    ensures Acts(OneCall(key, c, text, status, attempts, waiters, map[]), StartTurn(c, [RowId(1)]),
                 OneCall(key, c, text, Processing, attempts + 1, waiters, TurnOf(c, RowId(1), Running)))
  {
    var d := OneCall(key, c, text, status, attempts, waiters, map[]);
    assert RowId(1) in d.world.db.rows;
    assert IsBatch(d.world.db, c, [RowId(1)]);
    assert Claimed(d.world.db, c).rows == map[RowId(1) := RowAs(key, c, text, Processing, attempts + 1)];
  }

  /** The rest of the run with a second row, inserted while row 1 is settled. */
  function TwoCalls(k1: Key, k2: Key, c: Conversation, one: Text, two: Text, settled: Status, tries: nat, status: Status,
                    attempts: nat, spots: Spots, asked: map<Ticket, Ask>, callbacks: map<RowId, Url>,
                    turns: map<Conversation, Turn>): Door {
    Door(World(Db(map[RowId(1) := RowAs(k1, c, one, settled, tries), RowId(2) := RowAs(k2, c, two, status, attempts)], 3, map[]),
               map[RowId(1) := RowAs(k1, c, one, Pending, 0), RowId(2) := RowAs(k2, c, two, Pending, 0)]),
         spots, asked, callbacks, {RowId(1), RowId(2)}, turns, [])
  }

  lemma SettledOne(key: Key, c: Conversation, text: Text, status: Status, tries: nat)
    requires status == Done || status == Failed
    ensures Stepped(OneCall(key, c, text, Processing, tries, map[], map[]).world, Settle([RowId(1)], status, 0))
         == OneCall(key, c, text, status, tries, map[], map[]).world
  {
    var d := OneCall(key, c, text, Processing, tries, map[], map[]);
    assert Marked(d.world.db, [RowId(1)], status, 0).rows == map[RowId(1) := RowAs(key, c, text, status, tries)];
  }

  lemma SecondRow(k1: Key, k2: Key, c: Conversation, one: Text, two: Text, settled: Status, tries: nat)
    requires k1 != k2 && (settled == Done || settled == Failed)
    ensures var w := OneCall(k1, c, one, settled, tries, map[], map[]).world;
      Inserts(w, k2, c)
      && Stepped(w, AcceptAgent(k2, c, two, 0))
         == TwoCalls(k1, k2, c, one, two, settled, tries, Pending, 0, Spots(map[], map[], 0), map[], map[], map[]).world
  {
    var w := OneCall(k1, c, one, settled, tries, map[], map[]).world;
    assert Inserted(w.db, k2, c, two, 0).rows
        == map[RowId(1) := RowAs(k1, c, one, settled, tries), RowId(2) := RowAs(k2, c, two, Pending, 0)];
    assert RowId(2) in Inserted(w.db, k2, c, two, 0).rows && RowId(2) !in w.db.rows;
  }

  lemma BlankSettles(k1: Key, c: Conversation, blank: Text)
    requires isAgent(c) && isBlank(blank)
    ensures Acts(OneCall(k1, c, blank, Processing, 1, map[c := Ticket(0)], TurnOf(c, RowId(1), Running)),
                 SettleSilently(c, 0), OneCall(k1, c, blank, Done, 1, map[c := Ticket(0)], map[]))
  {
    var d := OneCall(k1, c, blank, Processing, 1, map[c := Ticket(0)], TurnOf(c, RowId(1), Running));
    SettledOne(k1, c, blank, Done, 1);
    assert d.turns - {c} == map[];
  }

  lemma SecondCalls(k1: Key, k2: Key, c: Conversation, blank: Text, text: Text, url: Url)
    requires k1 != k2 && isAgent(c) && !isBlank(text)
    ensures Acts(OneCall(k1, c, blank, Done, 1, map[c := Ticket(0)], map[]), CallbackCall(k2, c, text, 0, url),
                 TwoCalls(k1, k2, c, blank, text, Done, 1, Pending, 0, Spots(map[c := Ticket(0)], map[], 1),
                          map[Ticket(0) := Ask(c, RowId(1), false)], map[RowId(2) := url], map[]))
  {
    var d := OneCall(k1, c, blank, Done, 1, map[c := Ticket(0)], map[]);
    SecondRow(k1, k2, c, blank, text, Done, 1);
    assert d.callbacks[RowId(2) := url] == map[RowId(2) := url];
  }

  lemma SecondTurn(k1: Key, k2: Key, c: Conversation, one: Text, two: Text, spots: Spots, asked: map<Ticket, Ask>,
                   callbacks: map<RowId, Url>)
    requires isAgent(c)
    ensures Acts(TwoCalls(k1, k2, c, one, two, Done, 1, Pending, 0, spots, asked, callbacks, map[]), StartTurn(c, [RowId(2)]),
                 TwoCalls(k1, k2, c, one, two, Done, 1, Processing, 1, spots, asked, callbacks, TurnOf(c, RowId(2), Running)))
  {
    var d := TwoCalls(k1, k2, c, one, two, Done, 1, Pending, 0, spots, asked, callbacks, map[]);
    assert RowId(2) in d.world.db.rows;
    assert IsBatch(d.world.db, c, [RowId(2)]);
    assert Claimed(d.world.db, c).rows
        == map[RowId(1) := RowAs(k1, c, one, Done, 1), RowId(2) := RowAs(k2, c, two, Processing, 1)];
    assert d.turns[c := Turn([RowId(2)], Running)] == TurnOf(c, RowId(2), Running);
  }

  /** A blank batch settles without a turn and leaves its caller parked. */
  lemma BlankParks(k1: Key, c: Conversation, blank: Text) returns (doors: seq<Door>, acts: seq<Act>)
    requires isAgent(c) && isBlank(blank)
    ensures Walk(Acts, doors, acts) && |acts| == 2
    ensures doors[0] == OneCall(k1, c, blank, Pending, 0, map[c := Ticket(0)], map[])
    ensures doors[2] == OneCall(k1, c, blank, Done, 1, map[c := Ticket(0)], map[])
  {
    FirstTurn(k1, c, blank, Pending, 0, map[c := Ticket(0)]);
    BlankSettles(k1, c, blank);
    doors := [OneCall(k1, c, blank, Pending, 0, map[c := Ticket(0)], map[]),
              OneCall(k1, c, blank, Processing, 1, map[c := Ticket(0)], TurnOf(c, RowId(1), Running)),
              OneCall(k1, c, blank, Done, 1, map[c := Ticket(0)], map[])];
    acts := [StartTurn(c, [RowId(1)]), SettleSilently(c, 0)];
  }

  /** Were a blank text let in, its batch would settle without a turn and leave its caller
      parked; the answer to a callback call that follows goes to that caller. */
  lemma BlankWouldLeak(k1: Key, k2: Key, c: Conversation, blank: Text, text: Text, url: Url, reply: Reply)
    returns (doors: seq<Door>, acts: seq<Act>)
    requires k1 != k2 && isAgent(c) && isBlank(blank) && !isBlank(text)
    ensures Walk(Acts, doors, acts) && doors[0] == Called(Opened, k1, c, blank, 0)
    ensures var d := doors[|acts|];
      && Ticket(0) in d.spots.outcomes && d.spots.outcomes[Ticket(0)] == Answered(reply, [RowId(2)])
      && Ticket(0) in d.asked && d.asked[Ticket(0)].row == RowId(1)
  {
    FirstCall(k1, c, blank);
    var before, first := BlankParks(k1, c, blank);
    var spots, asked := Spots(map[c := Ticket(0)], map[], 1), map[Ticket(0) := Ask(c, RowId(1), false)];
    var callbacks := map[RowId(2) := url];
    var d4 := TwoCalls(k1, k2, c, blank, text, Done, 1, Pending, 0, spots, asked, callbacks, map[]);
    var d5 := TwoCalls(k1, k2, c, blank, text, Done, 1, Processing, 1, spots, asked, callbacks, TurnOf(c, RowId(2), Running));
    SecondCalls(k1, k2, c, blank, text, url);
    SecondTurn(k1, k2, c, blank, text, spots, asked, callbacks);
    var d6 := AnsweredBy(d5, c, reply, true);
    assert Acts(d5, Answer(c, reply, true), d6);
    var after, second := [before[2], d4, d5, d6],
      [CallbackCall(k2, c, text, 0, url), StartTurn(c, [RowId(2)]), Answer(c, reply, true)];
    WalkJoin(Acts, before, first, after, second);
    doors, acts := Join(before, after), first + second;
  }

  /** A claim cut short by a crash: the row has one attempt more and nobody is parked. */
  lemma Crashes(key: Key, c: Conversation, text: Text, status: Status, attempts: nat, waiters: map<Conversation, Ticket>)
    returns (doors: seq<Door>, acts: seq<Act>)
    requires isAgent(c) && (status == Pending || status == Processing)
    ensures Walk(Acts, doors, acts) && |acts| == 2 && doors[0] == OneCall(key, c, text, status, attempts, waiters, map[])
    ensures doors[2] == OneCall(key, c, text, Processing, attempts + 1, map[], map[])
  {
    FirstTurn(key, c, text, status, attempts, waiters);
    var e := OneCall(key, c, text, Processing, attempts + 1, waiters, TurnOf(c, RowId(1), Running));
    var f := OneCall(key, c, text, Processing, attempts + 1, map[], map[]);
    assert Acts(e, Restart, f);
    doors := [OneCall(key, c, text, status, attempts, waiters, map[]), e, f];
    acts := [StartTurn(c, [RowId(1)]), Restart];
  }

  lemma IsGivenUp(key: Key, c: Conversation, text: Text)
    requires isAgent(c)
    ensures Acts(OneCall(key, c, text, Processing, 4, map[], TurnOf(c, RowId(1), Running)), GiveUp(c, 0),
                 OneCall(key, c, text, Failed, 4, map[], TurnOf(c, RowId(1), GivenUp)))
  {
    var d := OneCall(key, c, text, Processing, 4, map[], TurnOf(c, RowId(1), Running));
    SettledOne(key, c, text, Failed, 4);
    assert RowId(1) in d.turns[c].ids && RowId(1) in d.world.db.rows;
    assert d.turns[c := Turn([RowId(1)], GivenUp)] == TurnOf(c, RowId(1), GivenUp);
  }

  function Newcomer(k1: Key, k2: Key, c: Conversation, text: Text): Door {
    TwoCalls(k1, k2, c, text, text, Failed, 4, Pending, 0, Spots(map[c := Ticket(1)], map[], 2),
             map[Ticket(0) := Ask(c, RowId(1), false), Ticket(1) := Ask(c, RowId(2), true)], map[],
             TurnOf(c, RowId(1), GivenUp))
  }

  lemma NewcomerCalls(k1: Key, k2: Key, c: Conversation, text: Text)
    requires k1 != k2 && isAgent(c) && !isBlank(text)
    ensures Acts(OneCall(k1, c, text, Failed, 4, map[], TurnOf(c, RowId(1), GivenUp)), SyncCall(k2, c, text, 0),
                 Newcomer(k1, k2, c, text))
  {
    var d := OneCall(k1, c, text, Failed, 4, map[], TurnOf(c, RowId(1), GivenUp));
    SecondRow(k1, k2, c, text, text, Failed, 4);
    assert d.asked[Ticket(1) := Ask(c, RowId(2), true)]
        == map[Ticket(0) := Ask(c, RowId(1), false), Ticket(1) := Ask(c, RowId(2), true)];
    assert Called(d, k2, c, text, 0) == Newcomer(k1, k2, c, text);
  }

  /** A row claimed a fourth time, after three claims that a crash cut short. */
  lemma ClaimedFourTimes(key: Key, c: Conversation, text: Text) returns (doors: seq<Door>, acts: seq<Act>)
    requires isAgent(c) && !isBlank(text)
    ensures Walk(Acts, doors, acts) && doors[0] == Opened
    ensures doors[|acts|] == OneCall(key, c, text, Processing, 4, map[], TurnOf(c, RowId(1), Running))
  {
    FirstCall(key, c, text);
    var called := OneCall(key, c, text, Pending, 0, map[c := Ticket(0)], map[]);
    WalkOne(Acts, Opened, SyncCall(key, c, text, 0), called);
    var one, first := Crashes(key, c, text, Pending, 0, map[c := Ticket(0)]);
    var two, second := Crashes(key, c, text, Processing, 1, map[]);
    var three, third := Crashes(key, c, text, Processing, 2, map[]);
    WalkJoin(Acts, [Opened, called], [SyncCall(key, c, text, 0)], one, first);
    doors, acts := Join([Opened, called], one), [SyncCall(key, c, text, 0)] + first;
    WalkJoin(Acts, doors, acts, two, second);
    doors, acts := Join(doors, two), acts + second;
    WalkJoin(Acts, doors, acts, three, third);
    doors, acts := Join(doors, three), acts + third;
    var last := OneCall(key, c, text, Processing, 4, map[], TurnOf(c, RowId(1), Running));
    FirstTurn(key, c, text, Processing, 3, map[]);
    WalkOne(Acts, doors[|acts|], StartTurn(c, [RowId(1)]), last);
    WalkJoin(Acts, doors, acts, [doors[|acts|], last], [StartTurn(c, [RowId(1)])]);
    doors, acts := Join(doors, [doors[|acts|], last]), acts + [StartTurn(c, [RowId(1)])];
  }

  /** A gap the code leaves: a batch over the cap is settled, then something is awaited, and
      only then whoever is parked is told. A call made in between is told that its turn
      failed, though its row is still to be answered. */
  lemma GivenUpTellsANewcomer(k1: Key, k2: Key, c: Conversation, text: Text) returns (doors: seq<Door>, acts: seq<Act>)
    requires k1 != k2 && isAgent(c) && !isBlank(text)
    ensures Walk(Acts, doors, acts) && doors[0] == Opened
    ensures var d := doors[|acts|];
      && Ticket(1) in d.spots.outcomes && d.spots.outcomes[Ticket(1)] == TurnFailed
      && Ticket(1) in d.asked && d.asked[Ticket(1)] == Ask(c, RowId(2), true) && Waits(d, c, RowId(2))
  {
    var before, steps := ClaimedFourTimes(k1, c, text);
    var d9 := OneCall(k1, c, text, Failed, 4, map[], TurnOf(c, RowId(1), GivenUp));
    var d10 := Newcomer(k1, k2, c, text);
    var d11 := ActTo(d10, NotifyGivenUp(c));
    IsGivenUp(k1, c, text);
    NewcomerCalls(k1, k2, c, text);
    assert Waits(d11, c, RowId(2)) by {
      assert RowId(2) in d10.world.db.rows;
    }
    var last, gap := [before[|steps|], d9, d10, d11], [GiveUp(c, 0), SyncCall(k2, c, text, 0), NotifyGivenUp(c)];
    WalkJoin(Acts, before, steps, last, gap);
    doors, acts := Join(before, last), steps + gap;
  }
}
