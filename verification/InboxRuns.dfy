/** What every run of the inbox keeps: nothing accepted is lost before it is settled,
    records belong to the message they were written for, and a retried batch keeps its
    turn. */
module InboxRuns {
  import opened Lists
  import opened Catalogue
  import opened Inbox

  datatype Step =
    | Accept(key: Key, conversation: Conversation, text: Text, now: int)
    | AcceptAgent(key: Key, conversation: Conversation, text: Text, now: int)
    | ClaimAll(conversation: Conversation)
    | Settle(ids: seq<RowId>, status: Status, now: int)
    | Retry(ids: seq<RowId>)
    | SweepOld(now: int, doneDays: int, failedDays: int)
    | Transcribe(id: RowId, text: Text)
    | RecordBatch(agent: Id, turn: Key, batch: seq<(RowId, Row)>)
    | RecordReply(conversation: Conversation, agent: Id, turn: Key, body: Text, now: int)

  /** The table, and who each id was ever given to. */
  datatype World = World(db: Db, born: map<RowId, Row>)

  function After(db: Db, step: Step): Db {
    match step
    case Accept(key, conversation, text, now) => Inserted(db, key, conversation, text, now)
    case AcceptAgent(key, conversation, text, now) =>
      if InFlight(db, conversation) then db else Inserted(db, key, conversation, text, now)
    case ClaimAll(conversation) => Claimed(db, conversation)
    case Settle(ids, status, now) => Marked(db, ids, status, now)
    case Retry(ids) => Marked(db, ids, Pending, 0)
    case SweepOld(now, doneDays, failedDays) => Swept(db, now, doneDays, failedDays)
    case Transcribe(id, text) => Transcribed(db, id, text)
    case RecordBatch(agent, turn, batch) => Recorded(db, agent, turn, batch)
    case RecordReply(conversation, agent, turn, body, now) => Delivered(db, conversation, agent, turn, body, now)
  }

  predicate Same(row: Row, was: Row) {
    row.key == was.key && row.conversation == was.conversation && row.receivedAt == was.receivedAt
  }

  /** A batch is settled as done or failed; only claimed rows are retried; the rows
      recorded are rows the table handed out. */
  ghost predicate StepOk(w: World, step: Step) {
    match step
    case Settle(_, status, _) => status == Done || status == Failed
    case Retry(ids) => forall id :: id in ids && id in w.db.rows ==> Unsettled(w.db.rows[id])
    case RecordBatch(_, _, batch) =>
      forall k :: 0 <= k < |batch| ==> batch[k].0 in w.born && Same(batch[k].1, w.born[batch[k].0])
    case _ => true
  }

  ghost function Births(w: World, step: Step): map<RowId, Row> {
    var next := After(w.db, step);
    var id := RowId(w.db.nextId);
    if id in next.rows && id !in w.db.rows then w.born[id := next.rows[id]] else w.born
  }

  ghost predicate Next(w: World, step: Step, v: World) {
    StepOk(w, step) && v.db == After(w.db, step) && v.born == Births(w, step)
  }

  const Empty: World := World(Db(map[], 1, map[]), map[])

  // ---- What every state keeps -----------------------------------------------------------------

  ghost predicate Inv(w: World) {
    && (forall id :: id in w.db.rows ==> id in w.born && Same(w.db.rows[id], w.born[id]))
    && (forall id :: id in w.born ==> id.n < w.db.nextId)
    && (forall a, b :: a in w.db.rows && b in w.db.rows && a != b ==> w.db.rows[a].key != w.db.rows[b].key)
    && (forall id :: In(id) in w.db.records ==> id in w.born && RecordOf(w.db.records[In(id)], w.born[id]))
  }

  predicate RecordOf(record: Record, row: Row) {
    record.conversation == row.conversation && record.occurredAt == row.receivedAt
  }

  lemma InsertKeeps(w: World, key: Key, conversation: Conversation, text: Text, now: int, v: World)
    requires Inv(w) && Next(w, Accept(key, conversation, text, now), v)
    ensures Inv(v)
  {
    if HasKey(w.db, key) {
    } else {
      forall id | id in w.db.rows ensures w.db.rows[id].key != key {
      }
    }
  }

  lemma {:induction false} RecordedKeeps(db: Db, agent: Id, turn: Key, batch: seq<(RowId, Row)>)
    ensures var r := Recorded(db, agent, turn, batch);
      && r.rows == db.rows && r.nextId == db.nextId
      && (forall key :: key in db.records ==> key in r.records && r.records[key] == db.records[key])
      && (forall k :: 0 <= k < |batch| ==> In(batch[k].0) in r.records)
      && (forall key :: key in r.records && key !in db.records ==>
            exists k :: 0 <= k < |batch| && key == In(batch[k].0) &&
              r.records[key] == Record(batch[k].1.conversation, agent, batch[k].1.text, turn, batch[k].1.receivedAt))
  {
    if batch != [] {
      RecordedKeeps(db, agent, turn, batch[..|batch| - 1]);
    }
  }

  lemma StepKeeps(w: World, step: Step, v: World)
    requires Inv(w) && Next(w, step, v)
    ensures Inv(v)
  {
    match step
    case Accept(key, conversation, text, now) => InsertKeeps(w, key, conversation, text, now, v);
    case AcceptAgent(key, conversation, text, now) =>
      if !InFlight(w.db, conversation) {
        InsertKeeps(w, key, conversation, text, now, v);
      }
    case RecordBatch(agent, turn, batch) => RecordedKeeps(w.db, agent, turn, batch);
    case _ =>
  }

  lemma {:induction false} RunKeeps(worlds: seq<World>, steps: seq<Step>, i: nat)
    requires Walk(Next, worlds, steps) && Inv(worlds[0]) && i <= |steps|
    ensures Inv(worlds[i])
  {
    if i > 0 {
      RunKeeps(worlds, steps, i - 1);
      StepKeeps(worlds[i - 1], steps[i - 1], worlds[i]);
    }
  }

  // ---- What a step does, row by row ------------------------------------------------------------------

  /** What a step makes of a row that stays. */
  ghost predicate RowAfter(id: RowId, was: Row, step: Step, row: Row) {
    match step
    case ClaimAll(c) =>
      row == if was.conversation == c && IsOpen(was) then was.(status := Processing, attempts := was.attempts + 1) else was
    case Settle(ids, status, now) => row == if id in ids then was.(status := status, processedAt := now) else was
    case Retry(ids) => row == if id in ids then was.(status := Pending) else was
    case Transcribe(i, text) => row == if i == id then was.(text := text) else was
    case _ => row == was
  }

  /** A sweep takes this row. */
  ghost predicate SweptAway(was: Row, step: Step) {
    step.SweepOld?
    && ((was.status == Done && step.now - was.processedAt > step.doneDays * 86400)
        || (was.status == Failed && step.now - was.processedAt > step.failedDays * 86400))
  }

  /** The step brings a message: its key is new and, for an agent, nothing of its
      conversation is un-settled. */
  ghost predicate Brings(db: Db, step: Step) {
    && (step.Accept? || step.AcceptAgent?)
    && (forall id :: id in db.rows ==> db.rows[id].key != step.key)
    && (step.AcceptAgent? ==>
          forall id :: id in db.rows && db.rows[id].conversation == step.conversation ==> !IsOpen(db.rows[id]))
  }

  ghost predicate RecordsAfter(was: map<RecordKey, Record>, step: Step, records: map<RecordKey, Record>) {
    match step
    case RecordBatch(agent, turn, batch) => RecordsGrow(was, agent, turn, batch, records)
    case RecordReply(c, agent, turn, body, now) =>
      records == if Out(c, turn, body) in was then was else was[Out(c, turn, body) := Record(c, agent, body, turn, now)]
    case _ => records == was
  }

  lemma RowStays(w: World, step: Step, v: World, id: RowId)
    requires Next(w, step, v) && id in w.db.rows && id.n < w.db.nextId
    ensures id in v.db.rows <==> !SweptAway(w.db.rows[id], step)
    ensures id in v.db.rows ==> RowAfter(id, w.db.rows[id], step, v.db.rows[id])
  {
    if step.RecordBatch? {
      RecordedKeeps(w.db, step.agent, step.turn, step.batch);
    }
  }

  lemma RowComes(w: World, step: Step, v: World)
    requires Next(w, step, v) && forall id :: id in w.db.rows ==> id.n < w.db.nextId
    ensures v.db.nextId == w.db.nextId + if Brings(w.db, step) then 1 else 0
    ensures forall id :: id in v.db.rows && id !in w.db.rows <==> id == RowId(w.db.nextId) && Brings(w.db, step)
    ensures Brings(w.db, step) ==>
      v.db.rows[RowId(w.db.nextId)] == Row(step.key, step.conversation, step.text, Pending, 0, step.now, 0)
  {
    if step.RecordBatch? {
      RecordedKeeps(w.db, step.agent, step.turn, step.batch);
    }
  }

  /** What one statement does to the table, told on the fields: which rows go, what becomes
      of those that stay, which row comes, and which records are written. */
  lemma StepExactly(w: World, step: Step, v: World)
    requires Inv(w) && Next(w, step, v)
    ensures forall id :: id in w.db.rows ==> (id in v.db.rows <==> !SweptAway(w.db.rows[id], step))
    ensures forall id :: id in w.db.rows && id in v.db.rows ==> RowAfter(id, w.db.rows[id], step, v.db.rows[id])
    ensures forall id :: id in v.db.rows && id !in w.db.rows <==> id == RowId(w.db.nextId) && Brings(w.db, step)
    ensures Brings(w.db, step) ==>
      v.db.rows[RowId(w.db.nextId)] == Row(step.key, step.conversation, step.text, Pending, 0, step.now, 0)
    ensures RecordsAfter(w.db.records, step, v.db.records)
  {
    forall id | id in w.db.rows
      ensures id in v.db.rows <==> !SweptAway(w.db.rows[id], step)
      ensures id in v.db.rows ==> RowAfter(id, w.db.rows[id], step, v.db.rows[id])
    {
      RowStays(w, step, v, id);
    }
    RowComes(w, step, v);
    if step.RecordBatch? {
      RecordedIs(w.db, step.agent, step.turn, step.batch);
    }
  }

  // ---- Nothing accepted is lost --------------------------------------------------------------------

  ghost predicate Waiting(w: World, id: RowId, was: Row) {
    id in w.db.rows && Unsettled(w.db.rows[id]) && Same(w.db.rows[id], was)
  }

  lemma StepHolds(w: World, step: Step, v: World, id: RowId, was: Row)
    requires Inv(w) && Next(w, step, v) && Waiting(w, id, was)
    ensures Waiting(v, id, was) || (step.Settle? && id in step.ids)
  {
    match step
    case RecordBatch(agent, turn, batch) => RecordedKeeps(w.db, agent, turn, batch);
    case Accept(_, _, _, _) => assert id.n < w.db.nextId;
    case AcceptAgent(_, _, _, _) => assert id.n < w.db.nextId;
    case _ =>
  }

  lemma RunHolds(worlds: seq<World>, steps: seq<Step>, k: nat, id: RowId, was: Row)
    requires Walk(Next, worlds, steps) && Inv(worlds[0]) && k < |steps| && Waiting(worlds[k], id, was)
    ensures Waiting(worlds[k + 1], id, was) || (steps[k].Settle? && id in steps[k].ids)
  {
    RunKeeps(worlds, steps, k);
    StepHolds(worlds[k], steps[k], worlds[k + 1], id, was);
  }

  /** An accepted row stays un-settled, with its key, conversation and arrival, until a
      step settles it by name: no claim, retry, sweep or record removes it. */
  lemma {:induction false} KeptUntilSettled(worlds: seq<World>, steps: seq<Step>, i: nat, j: nat, id: RowId, was: Row)
    requires Walk(Next, worlds, steps) && Inv(worlds[0]) && i <= j <= |steps| && Waiting(worlds[i], id, was)
    ensures Waiting(worlds[j], id, was) || exists k :: i <= k < j && steps[k].Settle? && id in steps[k].ids
  {
    if i < j {
      KeptUntilSettled(worlds, steps, i, j - 1, id, was);
      if Waiting(worlds[j - 1], id, was) {
        RunHolds(worlds, steps, j - 1, id, was);
      }
    }
  }

  /** So the replay of the boot, and the next claim of its conversation, find it. */
  lemma WaitingIsReplayed(w: World, id: RowId, was: Row, replay: seq<RowId>, batch: seq<RowId>)
    requires Waiting(w, id, was) && IsReplay(w.db, replay) && IsBatch(w.db, was.conversation, batch)
    ensures id in replay && id in batch
  {
  }

  // ---- Records -----------------------------------------------------------------------------------------

  lemma StepKeepsRecords(w: World, step: Step, v: World)
    requires Next(w, step, v)
    ensures forall key :: key in w.db.records ==> key in v.db.records && v.db.records[key] == w.db.records[key]
    ensures Inv(w) ==> forall id :: id in w.born ==> id in v.born && v.born[id] == w.born[id]
  {
    if step.RecordBatch? {
      RecordedKeeps(w.db, step.agent, step.turn, step.batch);
    }
  }

  ghost predicate Kept(w: World, v: World) {
    && (forall key :: key in w.db.records ==> key in v.db.records && v.db.records[key] == w.db.records[key])
    && (forall id :: id in w.born ==> id in v.born && v.born[id] == w.born[id])
  }

  lemma RunKeepsRecords(worlds: seq<World>, steps: seq<Step>, k: nat)
    requires Walk(Next, worlds, steps) && Inv(worlds[0]) && k < |steps|
    ensures Kept(worlds[k], worlds[k + 1])
  {
    RunKeeps(worlds, steps, k);
    StepKeepsRecords(worlds[k], steps[k], worlds[k + 1]);
  }

  lemma {:induction false} RunKeepsAllRecords(worlds: seq<World>, steps: seq<Step>, i: nat, j: nat)
    requires Walk(Next, worlds, steps) && Inv(worlds[0]) && i <= j <= |steps|
    ensures Kept(worlds[i], worlds[j])
  {
    if i < j {
      RunKeepsAllRecords(worlds, steps, i, j - 1);
      RunKeepsRecords(worlds, steps, j - 1);
    }
  }

  /** A record never changes and an id never names another message: whatever is claimed,
      retried or swept in between, the one inbound record of an inbox id is the one of
      the message first accepted under it. */
  lemma RecordsAreForGood(worlds: seq<World>, steps: seq<Step>, i: nat, j: nat)
    requires Walk(Next, worlds, steps) && Inv(worlds[0]) && i <= j <= |steps|
    ensures Kept(worlds[i], worlds[j])
    ensures forall id :: In(id) in worlds[j].db.records ==>
      id in worlds[j].born && RecordOf(worlds[j].db.records[In(id)], worlds[j].born[id])
    ensures forall id :: id in worlds[j].db.rows ==> id in worlds[j].born && Same(worlds[j].db.rows[id], worlds[j].born[id])
  {
    RunKeepsAllRecords(worlds, steps, i, j);
    RunKeeps(worlds, steps, j);
  }

  /** Recording a batch again, however it grew, adds records for the new rows only. */
  lemma RecordingAgain(w: World, agent: Id, turn: Key, batch: seq<(RowId, Row)>, later: seq<(RowId, Row)>, v: World)
    requires Inv(w) && Next(w, RecordBatch(agent, turn, batch), v)
    ensures forall id :: In(id) in Recorded(v.db, agent, turn, later).records ==>
      In(id) in v.db.records || exists k :: 0 <= k < |later| && later[k].0 == id
    ensures forall key :: key in v.db.records ==>
      key in Recorded(v.db, agent, turn, later).records
      && Recorded(v.db, agent, turn, later).records[key] == v.db.records[key]
    ensures forall k :: 0 <= k < |batch| ==> In(batch[k].0) in v.db.records
  {
    RecordedKeeps(w.db, agent, turn, batch);
    RecordedKeeps(v.db, agent, turn, later);
  }

  // ---- The turn of a retried batch ---------------------------------------------------------------------

  /** A message of the same conversation is accepted with a stamp before row `h`'s. */
  ghost predicate Overtakes(w: World, step: Step, h: RowId) {
    && h in w.db.rows && (step.Accept? || step.AcceptAgent?) && step.conversation == w.db.rows[h].conversation
    && step.now < w.db.rows[h].receivedAt && RowId(w.db.nextId) in After(w.db, step).rows
  }

  predicate Beside(row: Row, conversation: Conversation) {
    Unsettled(row) && row.conversation == conversation
  }

  /** `h` is the first of its conversation's un-settled rows. */
  ghost predicate Leads(w: World, h: RowId) {
    && h in w.db.rows && Unsettled(w.db.rows[h])
    && forall id :: id in w.db.rows && id != h && Beside(w.db.rows[id], w.db.rows[h].conversation) ==>
         Earlier(w.db.rows, h, id)
  }

  lemma LeadsIsFirst(w: World, h: RowId, batch: seq<RowId>)
    requires h in w.db.rows && IsBatch(w.db, w.db.rows[h].conversation, batch)
    ensures Leads(w, h) <==> batch != [] && batch[0] == h
  {
    if Leads(w, h) {
      assert h in batch;
      var k :| 0 <= k < |batch| && batch[k] == h;
      assert batch[0] in batch;
    }
    if batch != [] && batch[0] == h {
      assert h in batch;
      forall id | id in w.db.rows && id != h && Beside(w.db.rows[id], w.db.rows[h].conversation)
        ensures Earlier(w.db.rows, h, id)
      {
        assert id in batch;
        var k :| 0 <= k < |batch| && batch[k] == id;
        assert 0 < k;
      }
    }
  }

  lemma StepKeepsLeader(w: World, step: Step, v: World, h: RowId)
    requires Inv(w) && Next(w, step, v) && !Overtakes(w, step, h) && Leads(w, h)
    requires !(step.Settle? && h in step.ids)
    ensures Leads(v, h) && Same(v.db.rows[h], w.db.rows[h])
  {
    StepHolds(w, step, v, h, w.db.rows[h]);
    if step.RecordBatch? {
      RecordedKeeps(w.db, step.agent, step.turn, step.batch);
    }
    forall id | id in v.db.rows && id != h && Beside(v.db.rows[id], v.db.rows[h].conversation)
      ensures Earlier(v.db.rows, h, id)
    {
      if id in w.db.rows {
        assert Beside(w.db.rows[id], w.db.rows[h].conversation) && Same(v.db.rows[id], w.db.rows[id]);
      } else {
        assert id == RowId(w.db.nextId) && h.n < w.db.nextId;
      }
    }
  }

  lemma OvertakenLeadsNoMore(w: World, step: Step, v: World, h: RowId)
    requires Inv(w) && Next(w, step, v) && Overtakes(w, step, h) && h in v.db.rows
    ensures !Leads(v, h)
  {
    var id := RowId(w.db.nextId);
    assert id !in w.db.rows && id in v.db.rows && id != h;
    assert Beside(v.db.rows[id], v.db.rows[h].conversation) && !Earlier(v.db.rows, h, id);
  }

  /** The turn key is stable: while the first row of a batch is not settled, every later
      claim of its conversation, however it grew, starts with that same row, unless a
      message of the conversation was stamped before it. */
  lemma {:induction false} TurnIsStable(worlds: seq<World>, steps: seq<Step>, i: nat, j: nat, first: seq<RowId>, again: seq<RowId>)
    requires Walk(Next, worlds, steps) && Inv(worlds[0]) && i <= j <= |steps|
    requires first != [] && forall k :: i <= k < j ==> !Overtakes(worlds[k], steps[k], first[0])
    requires first[0] in worlds[i].db.rows
    requires IsBatch(worlds[i].db, worlds[i].db.rows[first[0]].conversation, first)
    requires IsBatch(worlds[j].db, worlds[i].db.rows[first[0]].conversation, again)
    requires forall k :: i <= k < j && steps[k].Settle? ==> first[0] !in steps[k].ids
    ensures again != [] && again[0] == first[0] && again[0] in worlds[j].db.rows
    ensures worlds[j].db.rows[again[0]].key == worlds[i].db.rows[first[0]].key
  {
    LeadsIsFirst(worlds[i], first[0], first);
    LeaderStays(worlds, steps, i, j, first[0]);
    LeadsIsFirst(worlds[j], first[0], again);
  }

  lemma {:induction false} LeaderStays(worlds: seq<World>, steps: seq<Step>, i: nat, j: nat, h: RowId)
    requires Walk(Next, worlds, steps) && Inv(worlds[0]) && i <= j <= |steps| && Leads(worlds[i], h)
    requires forall k :: i <= k < j ==> !Overtakes(worlds[k], steps[k], h)
    requires forall k :: i <= k < j && steps[k].Settle? ==> h !in steps[k].ids
    ensures Leads(worlds[j], h) && Same(worlds[j].db.rows[h], worlds[i].db.rows[h])
  {
    if i < j {
      LeaderStays(worlds, steps, i, j - 1, h);
      RunKeeps(worlds, steps, j - 1);
      assert Next(worlds[j - 1], steps[j - 1], worlds[j]);
      assert !Overtakes(worlds[j - 1], steps[j - 1], h);
      StepKeepsLeader(worlds[j - 1], steps[j - 1], worlds[j], h);
    }
  }

  ghost predicate LeadsAt(worlds: seq<World>, h: RowId, k: nat)
    requires k < |worlds|
  {
    Leads(worlds[k], h)
  }

  ghost predicate OvertakenAt(worlds: seq<World>, steps: seq<Step>, h: RowId, k: nat)
    requires k < |worlds| && k < |steps|
  {
    Overtakes(worlds[k], steps[k], h)
  }

  /** Exactly when the turn key is stable: while the row is not settled, it stays the first
      of its conversation if and only if no accepted message of that conversation is
      stamped before it. */
  lemma {:induction false} LeaderExactly(worlds: seq<World>, steps: seq<Step>, i: nat, j: nat, h: RowId)
    requires Walk(Next, worlds, steps) && Inv(worlds[0]) && i <= j <= |steps| && LeadsAt(worlds, h, i)
    requires forall k :: i <= k < j && steps[k].Settle? ==> h !in steps[k].ids
    ensures (forall k :: i <= k <= j ==> LeadsAt(worlds, h, k))
      <==> (forall k :: i <= k < j ==> !OvertakenAt(worlds, steps, h, k))
  {
    if i == j {
    } else {
      LeaderExactly(worlds, steps, i, j - 1, h);
      LeaderAt(worlds, steps, h, j - 1);
    }
  }

  lemma LeaderAt(worlds: seq<World>, steps: seq<Step>, h: RowId, k: nat)
    requires Walk(Next, worlds, steps) && Inv(worlds[0]) && k < |steps| && (steps[k].Settle? ==> h !in steps[k].ids)
    ensures LeadsAt(worlds, h, k) ==> (LeadsAt(worlds, h, k + 1) <==> !OvertakenAt(worlds, steps, h, k))
  {
    RunKeeps(worlds, steps, k);
    assert Next(worlds[k], steps[k], worlds[k + 1]);
    if LeadsAt(worlds, h, k) {
      LeaderStep(worlds[k], steps[k], worlds[k + 1], h);
    }
  }

  lemma LeaderStep(w: World, step: Step, v: World, h: RowId)
    requires Inv(w) && Next(w, step, v) && Leads(w, h) && !(step.Settle? && h in step.ids)
    ensures Leads(v, h) <==> !Overtakes(w, step, h)
  {
    StepHolds(w, step, v, h, w.db.rows[h]);
    if Overtakes(w, step, h) {
      OvertakenLeadsNoMore(w, step, v, h);
    } else {
      StepKeepsLeader(w, step, v, h);
    }
  }

  /** The clock matters: a message stamped before the first row of a retried batch takes
      its place, and the turn changes its key. */
  lemma ClockMatters(a: Key, b: Key, c: Conversation, t: Text)
    requires a != b
    ensures var w := World(Inserted(Empty.db, a, c, t, 10), map[RowId(1) := Row(a, c, t, Pending, 0, 10, 0)]);
      var v := World(Inserted(w.db, b, c, t, 5), w.born[RowId(2) := Row(b, c, t, Pending, 0, 5, 0)]);
      && Inv(w) && Next(w, Accept(b, c, t, 5), v)
      && Leads(w, RowId(1)) && Leads(v, RowId(2)) && !Leads(v, RowId(1))
  {
    var w := World(Inserted(Empty.db, a, c, t, 10), map[RowId(1) := Row(a, c, t, Pending, 0, 10, 0)]);
    assert w.db.rows == map[RowId(1) := Row(a, c, t, Pending, 0, 10, 0)];
    assert !HasKey(w.db, b);
    var v := World(Inserted(w.db, b, c, t, 5), w.born[RowId(2) := Row(b, c, t, Pending, 0, 5, 0)]);
    assert v.db.rows == map[RowId(1) := Row(a, c, t, Pending, 0, 10, 0), RowId(2) := Row(b, c, t, Pending, 0, 5, 0)];
    assert RowId(2) in v.db.rows && RowId(1) in v.db.rows;
    assert Earlier(v.db.rows, RowId(2), RowId(1)) && !Earlier(v.db.rows, RowId(1), RowId(2));
  }

  // ---- One exchange at a time ----------------------------------------------------------------------------

  predicate Holds(w: World, id: RowId, conversation: Conversation) {
    id in w.db.rows && Beside(w.db.rows[id], conversation)
  }

  ghost predicate AtMostOne(w: World, conversation: Conversation) {
    forall a, b :: Holds(w, a, conversation) && Holds(w, b, conversation) ==> a == b
  }

  lemma StepKeepsOne(w: World, step: Step, v: World, conversation: Conversation)
    requires Inv(w) && Next(w, step, v) && AtMostOne(w, conversation)
    requires step.Accept? ==> step.conversation != conversation
    ensures AtMostOne(v, conversation)
  {
    if step.RecordBatch? {
      RecordedKeeps(w.db, step.agent, step.turn, step.batch);
    }
    forall a, b | Holds(v, a, conversation) && Holds(v, b, conversation) ensures a == b {
      if a in w.db.rows && b in w.db.rows {
        assert Holds(w, a, conversation) && Holds(w, b, conversation);
      }
    }
  }

  /** A conversation that only the agent door writes to has at most one un-settled row,
      in every state of every run. */
  lemma {:induction false} OneExchangeAtATime(worlds: seq<World>, steps: seq<Step>, i: nat, conversation: Conversation)
    requires Walk(Next, worlds, steps) && Inv(worlds[0]) && AtMostOne(worlds[0], conversation) && i <= |steps|
    requires forall k :: 0 <= k < |steps| && steps[k].Accept? ==> steps[k].conversation != conversation
    ensures AtMostOne(worlds[i], conversation)
  {
    if i > 0 {
      OneExchangeAtATime(worlds, steps, i - 1, conversation);
      RunKeeps(worlds, steps, i - 1);
      StepKeepsOne(worlds[i - 1], steps[i - 1], worlds[i], conversation);
    }
  }
}
