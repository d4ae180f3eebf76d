/** What one step of the agent door does to its callers, its rows and its batches, told
    on the fields: who is told what, which row is settled how, and which batch runs. */
module DoorSteps {
  import opened Catalogue
  import opened Inbox
  import opened InboxRuns
  import opened AgentReplies
  import opened AgentDoor
  import opened Lists

  // ---- Callers ------------------------------------------------------------------------------------

  /** Whoever is parked on `c` is told something by this step. */
  predicate Tells(act: Act, c: Conversation) {
    match act
    case Answer(k, _, _) => k == c
    case FailTurn(k, final, _) => k == c && final
    case NotifyGivenUp(k) => k == c
    case Expire(k) => k == c
    case _ => false
  }

  /** And this is what. */
  ghost predicate ToldBy(d: Door, act: Act, c: Conversation, o: Outcome) {
    match act
    case Answer(_, reply, _) => c in d.turns && o == Answered(reply, d.turns[c].ids)
    case Expire(_) => o == TimedOut
    case _ => o == TurnFailed
  }

  /** The caller parked on `c` is told and gone, forgotten by a restart, or parked as before. */
  ghost predicate CallerAfter(d: Door, act: Act, e: Door, c: Conversation)
    requires c in d.spots.waiters
  {
    var t := d.spots.waiters[c];
    if Tells(act, c) then c !in e.spots.waiters && t in e.spots.outcomes && ToldBy(d, act, c, e.spots.outcomes[t])
    else
      && t !in e.spots.outcomes
      && (c in e.spots.waiters <==> act != Restart)
      && (c in e.spots.waiters ==> e.spots.waiters[c] == t)
  }

  /** A call is parked when nobody is parked there, nothing of its conversation is
      un-settled and its key is new; with a ticket and a row of its own. */
  ghost predicate Parks(d: Door, act: Act, c: Conversation) {
    && act.SyncCall? && act.conversation == c && c !in d.spots.waiters
    && (forall id :: id in d.world.db.rows ==>
          d.world.db.rows[id].key != act.key && (d.world.db.rows[id].conversation == c ==> !IsOpen(d.world.db.rows[id])))
  }

  ghost predicate ParkedWith(d: Door, e: Door, c: Conversation, text: Text) {
    && c in e.spots.waiters && e.spots.waiters[c] !in d.asked && e.spots.waiters[c] in e.asked
    && var ask := e.asked[e.spots.waiters[c]];
    && ask.conversation == c && ask.row !in d.world.born && ask.row in e.world.db.rows
    && e.world.db.rows[ask.row].text == text && (ask.late <==> c in d.turns && d.turns[c].phase == GivenUp)
  }

  lemma CallerIsTold(d: Door, act: Act, e: Door, c: Conversation)
    requires SpotsOk(d.spots) && Acts(d, act, e) && c in d.spots.waiters
    ensures CallerAfter(d, act, e, c)
  {
  }

  lemma CallIsParked(d: Door, act: Act, e: Door, c: Conversation)
    requires AskedOk(d) && Inv(d.world) && Acts(d, act, e) && c !in d.spots.waiters
    ensures c in e.spots.waiters <==> Parks(d, act, c)
    ensures Parks(d, act, c) ==> ParkedWith(d, e, c, act.text)
  {
    assert RowId(d.world.db.nextId) !in d.world.born;
    assert Ticket(d.spots.next) in d.asked ==> AskAt(d, Ticket(d.spots.next));
  }

  ghost predicate OutcomesAre(d: Door, act: Act, e: Door) {
    && (forall t :: t in d.spots.outcomes ==> t in e.spots.outcomes && e.spots.outcomes[t] == d.spots.outcomes[t])
    && (forall t :: t in e.spots.outcomes && t !in d.spots.outcomes ==>
          exists c :: c in d.spots.waiters && d.spots.waiters[c] == t && Tells(act, c))
  }

  lemma OutcomesGrow(d: Door, act: Act, e: Door)
    requires SpotsOk(d.spots) && Acts(d, act, e)
    ensures OutcomesAre(d, act, e)
  {
  }

  /** Every caller parked on a conversation is told by the step that answers, fails,
      gives up or times out its call, told what that step says, and by no other step;
      what was told stays as told, nobody else is told anything, and a call is parked
      exactly when its spot, its conversation and its key are free. */
  lemma CallersToldExactly(doors: seq<Door>, acts: seq<Act>, i: nat)
    requires Walk(Acts, doors, acts) && doors[0] == Opened && i < |acts|
    ensures var d, act, e := doors[i], acts[i], doors[i + 1];
      && (forall c :: c in d.spots.waiters ==> CallerAfter(d, act, e, c))
      && (forall c :: c !in d.spots.waiters ==> (c in e.spots.waiters <==> Parks(d, act, c)))
      && (forall c :: Parks(d, act, c) ==> ParkedWith(d, e, c, act.text))
      && OutcomesAre(d, act, e)
  {
    var d, act, e := doors[i], acts[i], doors[i + 1];
    RunOk(doors, acts, i);
    assert Acts(d, act, e);
    forall c | c in d.spots.waiters ensures CallerAfter(d, act, e, c) {
      CallerIsTold(d, act, e, c);
    }
    forall c | c !in d.spots.waiters
      ensures (c in e.spots.waiters <==> Parks(d, act, c)) && (Parks(d, act, c) ==> ParkedWith(d, e, c, act.text))
    {
      CallIsParked(d, act, e, c);
    }
    OutcomesGrow(d, act, e);
  }

  // ---- Rows ---------------------------------------------------------------------------------------

  /** What a step makes of a row of a batch it names. */
  ghost predicate RowAfter(was: Row, act: Act, row: Row) {
    match act
    case StartTurn(_, _) => row == was.(status := Processing, attempts := was.attempts + 1)
    case SettleDone(_, now) => row == was.(status := Done, processedAt := now)
    case FailTurn(_, final, now) =>
      row == if final then was.(status := Failed, processedAt := now) else was.(status := Pending)
    case GiveUp(_, now) => row == was.(status := Failed, processedAt := now)
    case _ => row == was
  }

  /** The step is about the conversation whose batch this row waits in. */
  predicate Concerns(act: Act, c: Conversation) {
    match act
    case StartTurn(k, _) => k == c
    case SettleDone(k, _) => k == c
    case FailTurn(k, _, _) => k == c
    case GiveUp(k, _) => k == c
    case _ => false
  }

  /** A batch's row is the one that waits in its conversation. */
  lemma BatchRow(d: Door, c: Conversation, id: RowId)
    requires DoorOk(d) && c in d.turns && d.turns[c].phase != GivenUp
    requires id in d.world.db.rows && isAgent(d.world.db.rows[id].conversation) && IsOpen(d.world.db.rows[id])
    ensures id in d.turns[c].ids <==> d.world.db.rows[id].conversation == c
  {
    assert TurnAt(d, c) && Waits(d, c, d.turns[c].ids[0]);
    if d.world.db.rows[id].conversation == c {
      assert Waits(d, c, id);
      OneWaits(d, c, id, d.turns[c].ids[0]);
    }
  }

  lemma ElsewhereRow(w: World, step: Step, id: RowId)
    requires LeavesAgents(w, step) && id in w.db.rows && isAgent(w.db.rows[id].conversation) && IsOpen(w.db.rows[id])
    requires w.db.nextId > id.n
    ensures id in After(w.db, step).rows && After(w.db, step).rows[id] == w.db.rows[id]
  {
    if step.RecordBatch? {
      RecordedKeeps(w.db, step.agent, step.turn, step.batch);
    }
  }

  ghost predicate Settles(was: Row, status: Status, now: int, row: Row) {
    row == if status == Pending then was.(status := Pending) else was.(status := status, processedAt := now)
  }

  /** Settling a conversation's batch settles the row that waits there and no other. */
  lemma BatchSettled(d: Door, c: Conversation, status: Status, now: int, id: RowId, db: Db)
    requires DoorOk(d) && c in d.turns && d.turns[c].phase != GivenUp
    requires id in d.world.db.rows && isAgent(d.world.db.rows[id].conversation) && IsOpen(d.world.db.rows[id])
    requires db == Marked(d.world.db, d.turns[c].ids, status, now)
    ensures id in db.rows
    ensures if d.world.db.rows[id].conversation == c then Settles(d.world.db.rows[id], status, now, db.rows[id])
            else db.rows[id] == d.world.db.rows[id]
  {
    BatchRow(d, c, id);
  }

  /** The steps that settle a batch or give it back, and what they make of its rows. */
  predicate Settling(act: Act) {
    act.SettleDone? || act.GiveUp? || act.FailTurn?
  }

  function NewStatus(act: Act): Status {
    match act
    case SettleDone(_, _) => Done
    case FailTurn(_, false, _) => Pending
    case _ => Failed
  }

  lemma SettlingDb(d: Door, act: Act, e: Door)
    requires Acts(d, act, e) && Settling(act)
    ensures act.conversation in d.turns && d.turns[act.conversation].phase != GivenUp
    ensures e.world.db == Marked(d.world.db, d.turns[act.conversation].ids, NewStatus(act), act.now)
  {
  }

  lemma QuietStep(d: Door, act: Act, e: Door, id: RowId)
    requires Acts(d, act, e) && id in d.world.db.rows && id.n < d.world.db.nextId
    requires isAgent(d.world.db.rows[id].conversation) && IsOpen(d.world.db.rows[id])
    requires !Settling(act) && !act.SettleSilently? && !act.SettleUntargeted?
    ensures id in e.world.db.rows
    ensures var was, row := d.world.db.rows[id], e.world.db.rows[id];
      if act.StartTurn? && act.conversation == was.conversation then RowAfter(was, act, row) else row == was
  {
    if act.Elsewhere? {
      ElsewhereRow(d.world, act.step, id);
    }
  }

  lemma NoQuietSettling(d: Door, act: Act)
    requires DoorOk(d) && ActOk(d, act)
    ensures !act.SettleSilently? && !act.SettleUntargeted?
  {
    if act.SettleSilently? {
      NeverSilent(d, act.conversation);
    }
    if act.SettleUntargeted? {
      AlwaysTargeted(d, act.conversation);
    }
  }

  lemma OpenRowAfter(d: Door, act: Act, e: Door, id: RowId)
    requires DoorOk(d) && Acts(d, act, e) && id in d.world.db.rows && isAgent(d.world.db.rows[id].conversation)
    requires IsOpen(d.world.db.rows[id])
    ensures id in e.world.db.rows
    ensures var was, row := d.world.db.rows[id], e.world.db.rows[id];
      if Concerns(act, was.conversation) then RowAfter(was, act, row) else row == was
  {
    NoQuietSettling(d, act);
    if Settling(act) {
      SettlingDb(d, act, e);
      BatchSettled(d, act.conversation, NewStatus(act), act.now, id, e.world.db);
    } else {
      QuietStep(d, act, e, id);
    }
  }

  /** Un-settled rows of the door change as the step on their conversation says, and no
      other step touches them. */
  lemma RowsSettledExactly(doors: seq<Door>, acts: seq<Act>, i: nat, id: RowId)
    requires Walk(Acts, doors, acts) && doors[0] == Opened && i < |acts|
    requires id in doors[i].world.db.rows && isAgent(doors[i].world.db.rows[id].conversation)
    requires IsOpen(doors[i].world.db.rows[id])
    ensures id in doors[i + 1].world.db.rows
    ensures var was, row := doors[i].world.db.rows[id], doors[i + 1].world.db.rows[id];
      if Concerns(acts[i], was.conversation) then RowAfter(was, acts[i], row) else row == was
  {
    var d, act, e := doors[i], acts[i], doors[i + 1];
    RunOk(doors, acts, i);
    assert Acts(d, act, e);
    OpenRowAfter(d, act, e, id);
  }

  // ---- Batches ------------------------------------------------------------------------------------

  /** The step that ends the batch of `c`. */
  predicate EndsBatch(act: Act, c: Conversation) {
    act == Restart || ((act.SettleDone? || act.FailTurn? || act.NotifyGivenUp?) && act.conversation == c)
  }

  /** The reply is out: handed to the caller, taken by the callback, or wanted by nobody. */
  predicate ReplyIsOut(d: Door, act: Act, c: Conversation, ids: seq<RowId>)
    requires ids != []
  {
    act.Answer? && act.conversation == c && (c in d.spots.waiters || act.posted || ids[0] !in d.callbacks)
  }

  predicate ReplyIsPosted(d: Door, act: Act, c: Conversation, ids: seq<RowId>)
    requires ids != []
  {
    act.Answer? && act.conversation == c && c !in d.spots.waiters && act.posted && ids[0] in d.callbacks
  }

  ghost predicate BatchAfter(d: Door, act: Act, e: Door, c: Conversation)
    requires c in d.turns && d.turns[c].ids != []
  {
    if EndsBatch(act, c) then c !in e.turns
    else
      && c in e.turns && e.turns[c].ids == d.turns[c].ids
      && e.turns[c].phase ==
         if act.GiveUp? && act.conversation == c then GivenUp
         else if ReplyIsOut(d, act, c, d.turns[c].ids) then Delivered
         else d.turns[c].phase
  }

  ghost predicate BatchBegins(d: Door, act: Act, e: Door, c: Conversation) {
    && act.StartTurn? && act.conversation == c && c in e.turns && e.turns[c].phase == Running
    && forall id :: id in e.turns[c].ids <==>
         id in d.world.db.rows && d.world.db.rows[id].conversation == c && IsOpen(d.world.db.rows[id])
  }

  ghost predicate PostsAfter(d: Door, act: Act, e: Door) {
    if act.Answer? && act.conversation in d.turns && d.turns[act.conversation].ids != []
      && ReplyIsPosted(d, act, act.conversation, d.turns[act.conversation].ids)
    then
      var ids := d.turns[act.conversation].ids;
      e.posts == d.posts + [(d.callbacks[ids[0]], ids)]
    else e.posts == d.posts
  }

  lemma BatchMoves(d: Door, act: Act, e: Door, c: Conversation)
    requires Acts(d, act, e) && c in d.turns && d.turns[c].ids != [] && !act.SettleSilently? && !act.SettleUntargeted?
    ensures BatchAfter(d, act, e, c)
  {
  }

  lemma PostsMove(d: Door, act: Act, e: Door)
    requires Acts(d, act, e) && (act.Answer? ==> act.conversation in d.turns && d.turns[act.conversation].ids != [])
    ensures PostsAfter(d, act, e)
  {
  }

  lemma NoneBegins(d: Door, act: Act, e: Door, c: Conversation)
    requires Acts(d, act, e) && c !in d.turns
    ensures c in e.turns <==> BatchBegins(d, act, e, c)
  {
  }

  /** A batch begins with exactly the un-settled rows of its conversation, keeps them
      while it lasts, is delivered exactly when its reply is out, and ends exactly when it
      is settled, given back, told of or forgotten by a restart; a callback is sent one
      reply exactly when nobody is parked and the batch's first row named it. */
  lemma BatchesMoveExactly(doors: seq<Door>, acts: seq<Act>, i: nat)
    requires Walk(Acts, doors, acts) && doors[0] == Opened && i < |acts|
    ensures var d, act, e := doors[i], acts[i], doors[i + 1];
      && (forall c :: c in d.turns ==> d.turns[c].ids != [] && BatchAfter(d, act, e, c))
      && (forall c :: c !in d.turns ==> (c in e.turns <==> BatchBegins(d, act, e, c)))
      && PostsAfter(d, act, e)
  {
    var d, act, e := doors[i], acts[i], doors[i + 1];
    RunOk(doors, acts, i);
    assert Acts(d, act, e);
    NoQuietSettling(d, act);
    forall c | c in d.turns ensures d.turns[c].ids != [] && BatchAfter(d, act, e, c) {
      assert TurnAt(d, c);
      BatchMoves(d, act, e, c);
    }
    forall c | c !in d.turns ensures c in e.turns <==> BatchBegins(d, act, e, c) {
      NoneBegins(d, act, e, c);
    }
    PostsMove(d, act, e);
  }
}
