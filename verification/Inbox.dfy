/** The server's inbox table and the conversation record: accept once, claim a whole
    conversation, settle or retry, sweep what is settled, and record each message once. */
module Inbox {
  import opened Catalogue

  type Key(==, !new, 0)
  type Conversation(==, !new, 0)
  type Text(==, !new)

  /** Whether a conversation's key was minted by the agent door. */
  const isAgent: Conversation -> bool

  /** Ids are handed out in ascending order and never again. */
  datatype RowId = RowId(n: int)

  datatype Status = Pending | Processing | Done | Failed

  datatype Row = Row(key: Key, conversation: Conversation, text: Text, status: Status, attempts: nat,
                     receivedAt: int, processedAt: int)

  /** How a record is recognised as already written. */
  datatype RecordKey = In(id: RowId) | Out(conversation: Conversation, turn: Key, body: Text)

  datatype Record = Record(conversation: Conversation, agent: Id, body: Text, turn: Key, occurredAt: int)

  datatype Db = Db(rows: map<RowId, Row>, nextId: int, records: map<RecordKey, Record>)

  predicate Unsettled(row: Row) {
    row.status == Pending || row.status == Processing
  }

  /** By time of arrival, and by id within one instant. */
  predicate ArrivesBefore(rows: map<RowId, Row>, a: RowId, b: RowId) {
    a in rows && b in rows &&
    (rows[a].receivedAt < rows[b].receivedAt || (rows[a].receivedAt == rows[b].receivedAt && a.n < b.n))
  }

  /** Neither done nor failed. */
  predicate IsOpen(row: Row) {
    row.status != Done && row.status != Failed
  }

  // ---- What each statement does ------------------------------------------------------------------

  predicate HasKey(db: Db, key: Key) {
    exists id :: id in db.rows && db.rows[id].key == key
  }

  predicate InFlight(db: Db, conversation: Conversation) {
    exists id :: id in db.rows && db.rows[id].conversation == conversation && Unsettled(db.rows[id])
  }

  /** INSERT OR IGNORE on the dedupe key. */
  function Inserted(db: Db, key: Key, conversation: Conversation, text: Text, now: int): Db {
    if HasKey(db, key) then db
    else db.(rows := db.rows[RowId(db.nextId) := Row(key, conversation, text, Pending, 0, now, 0)], nextId := db.nextId + 1)
  }

  /** One claim of a row. */
  function Once(row: Row): Row {
    row.(status := Processing, attempts := row.attempts + 1)
  }

  function Claimed(db: Db, conversation: Conversation): Db {
    db.(rows := map id | id in db.rows ::
          if db.rows[id].conversation == conversation && Unsettled(db.rows[id]) then Once(db.rows[id]) else db.rows[id])
  }

  /** UPDATE the named rows; ids that are gone are no rows to update. */
  function Marked(db: Db, ids: seq<RowId>, status: Status, now: int): Db {
    db.(rows := map id | id in db.rows ::
          if id in ids
          then if status == Pending then db.rows[id].(status := Pending)
               else db.rows[id].(status := status, processedAt := now)
          else db.rows[id])
  }

  predicate Stale(row: Row, now: int, doneDays: int, failedDays: int) {
    || (row.status == Done && row.processedAt < now - doneDays * 86400)
    || (row.status == Failed && row.processedAt < now - failedDays * 86400)
  }

  function Swept(db: Db, now: int, doneDays: int, failedDays: int): Db {
    db.(rows := map id | id in db.rows && !Stale(db.rows[id], now, doneDays, failedDays) :: db.rows[id])
  }

  /** A voice note's text, kept with its row. */
  function Transcribed(db: Db, id: RowId, text: Text): Db {
    if id in db.rows then db.(rows := db.rows[id := db.rows[id].(text := text)]) else db
  }

  /** INSERT OR IGNORE of one record per claimed row. */
  function Recorded(db: Db, agent: Id, turn: Key, batch: seq<(RowId, Row)>): Db {
    if batch == [] then db
    else
      var front := Recorded(db, agent, turn, batch[..|batch| - 1]);
      var (id, row) := batch[|batch| - 1];
      if In(id) in front.records then front
      else front.(records := front.records[In(id) := Record(row.conversation, agent, row.text, turn, row.receivedAt)])
  }

  function Delivered(db: Db, conversation: Conversation, agent: Id, turn: Key, body: Text, now: int): Db {
    var key := Out(conversation, turn, body);
    if key in db.records then db
    else db.(records := db.records[key := Record(conversation, agent, body, turn, now)])
  }

  /** ORDER BY received_at, id. */
  predicate Earlier(rows: map<RowId, Row>, a: RowId, b: RowId)
    requires a in rows && b in rows
  {
    rows[a].receivedAt < rows[b].receivedAt || (rows[a].receivedAt == rows[b].receivedAt && a.n < b.n)
  }

  /** The ids of a claim: the un-settled rows of the conversation, in arrival order. */
  ghost predicate IsBatch(db: Db, conversation: Conversation, ids: seq<RowId>) {
    && (forall id :: id in ids <==> id in db.rows && db.rows[id].conversation == conversation && Unsettled(db.rows[id]))
    && (forall i, j :: 0 <= i < j < |ids| ==> ids[i] in db.rows && ids[j] in db.rows && Earlier(db.rows, ids[i], ids[j]))
  }

  lemma BatchDistinct(db: Db, conversation: Conversation, ids: seq<RowId>, k: nat)
    requires IsBatch(db, conversation, ids) && k < |ids|
    ensures ids[k] !in ids[..k]
  {
    forall i | 0 <= i < k ensures ids[i] != ids[k] {
      assert Earlier(db.rows, ids[i], ids[k]);
    }
  }

  /** ORDER BY id. */
  ghost predicate IsReplay(db: Db, ids: seq<RowId>) {
    && (forall id :: id in ids <==> id in db.rows && Unsettled(db.rows[id]))
    && (forall i, j :: 0 <= i < j < |ids| ==> ids[i].n < ids[j].n)
  }

  /** The record of a row of the batch: of its conversation and text, when it came in. */
  ghost predicate NewRecord(agent: Id, turn: Key, batch: seq<(RowId, Row)>, key: RecordKey, record: Record) {
    exists k :: 0 <= k < |batch| && key == In(batch[k].0)
      && record == Record(batch[k].1.conversation, agent, batch[k].1.text, turn, batch[k].1.receivedAt)
  }

  ghost predicate RecordsGrow(was: map<RecordKey, Record>, agent: Id, turn: Key, batch: seq<(RowId, Row)>,
                              records: map<RecordKey, Record>) {
    && (forall key :: key in was ==> key in records && records[key] == was[key])
    && (forall key :: key in records && key !in was ==> NewRecord(agent, turn, batch, key, records[key]))
    && (forall k :: 0 <= k < |batch| ==> In(batch[k].0) in records)
  }

  lemma {:induction false} RecordedIs(db: Db, agent: Id, turn: Key, batch: seq<(RowId, Row)>)
    ensures RecordsGrow(db.records, agent, turn, batch, Recorded(db, agent, turn, batch).records)
  {
    if batch != [] {
      var rest, id, row := batch[..|batch| - 1], batch[|batch| - 1].0, batch[|batch| - 1].1;
      var front, all := Recorded(db, agent, turn, rest).records, Recorded(db, agent, turn, batch).records;
      RecordedIs(db, agent, turn, rest);
      forall key | key in all && key !in db.records ensures NewRecord(agent, turn, batch, key, all[key]) {
        if key in front {
          var k :| 0 <= k < |rest| && key == In(rest[k].0)
            && front[key] == Record(rest[k].1.conversation, agent, rest[k].1.text, turn, rest[k].1.receivedAt);
          assert batch[k] == rest[k];
        } else {
          assert key == In(batch[|batch| - 1].0);
        }
      }
      assert forall k :: 0 <= k < |rest| ==> batch[k] == rest[k];
    }
  }

  // ---- The table ---------------------------------------------------------------------------------

  class InboxTable {
    var rows: map<RowId, Row>
    var nextId: int
    var records: map<RecordKey, Record>

    ghost function State(): Db
      reads this
    {
      Db(rows, nextId, records)
    }

    constructor ()
      ensures State() == Db(map[], 1, map[])
    {
      rows, nextId, records := map[], 1, map[];
    }

    method FindKey(key: Key) returns (found: bool)
      ensures found == HasKey(State(), key)
    {
      var todo: set<RowId> := rows.Keys;
      while todo != {}
        invariant todo <= rows.Keys && forall id :: id in rows && id !in todo ==> rows[id].key != key
      {
        var id :| id in todo;
        if rows[id].key == key {
          return true;
        }
        todo := todo - {id};
      }
      return false;
    }

    /** `insertInboxMessage`. */
    method Insert(key: Key, conversation: Conversation, text: Text, now: int) returns (id: Maybe<RowId>)
      modifies this`rows, this`nextId
      ensures State() == Inserted(old(State()), key, conversation, text, now)
      ensures id.None? <==> HasKey(old(State()), key)
      ensures id.Some? ==> id.value == RowId(old(nextId)) && id.value in rows
      ensures id.None? <==> exists r :: r in old(rows) && old(rows)[r].key == key
      ensures id.None? ==> rows == old(rows) && nextId == old(nextId)
      ensures id.Some? ==>
        nextId == old(nextId) + 1 && rows == old(rows)[id.value := Row(key, conversation, text, Pending, 0, now, 0)]
    {
      var known := FindKey(key);
      if known {
        return None;
      }
      id := Some(RowId(nextId));
      rows := rows[RowId(nextId) := Row(key, conversation, text, Pending, 0, now, 0)];
      nextId := nextId + 1;
    }

    method FindInFlight(conversation: Conversation) returns (busy: bool)
      ensures busy == InFlight(State(), conversation)
    {
      var todo: set<RowId> := rows.Keys;
      while todo != {}
        invariant todo <= rows.Keys
        invariant forall id :: id in rows && id !in todo ==>
          !(rows[id].conversation == conversation && Unsettled(rows[id]))
      {
        var id :| id in todo;
        if rows[id].conversation == conversation && Unsettled(rows[id]) {
          return true;
        }
        todo := todo - {id};
      }
      return false;
    }

    /** `insertAgentInboxMessage`: the look and the write in one transaction. */
    method InsertAgent(key: Key, conversation: Conversation, text: Text, now: int) returns (id: Maybe<RowId>, busy: bool)
      modifies this`rows, this`nextId
      ensures busy == InFlight(old(State()), conversation)
      ensures State() == if busy then old(State()) else Inserted(old(State()), key, conversation, text, now)
      ensures id.Some? <==> !busy && !HasKey(old(State()), key)
      ensures id.Some? ==> id.value == RowId(old(nextId)) && id.value in rows
      ensures busy <==> exists r :: r in old(rows) && old(rows)[r].conversation == conversation && IsOpen(old(rows)[r])
      ensures id.None? ==> rows == old(rows) && nextId == old(nextId)
      ensures id.Some? ==>
        nextId == old(nextId) + 1 && rows == old(rows)[id.value := Row(key, conversation, text, Pending, 0, now, 0)]
    {
      busy := FindInFlight(conversation);
      if busy {
        return None, true;
      }
      id := Insert(key, conversation, text, now);
    }

    method Earliest(ids: set<RowId>) returns (first: RowId)
      requires ids != {} && ids <= rows.Keys
      ensures first in ids && forall id :: id in ids && id != first ==> Earlier(rows, first, id)
    {
      first :| first in ids;
      var todo: set<RowId> := ids - {first};
      while todo != {}
        invariant first in ids && todo <= ids && first !in todo
        invariant forall id :: id in ids && id !in todo && id != first ==> Earlier(rows, first, id)
      {
        var id :| id in todo;
        if Earlier(rows, id, first) {
          first := id;
        }
        todo := todo - {id};
      }
    }

    /** SELECT of the un-settled rows of one conversation, in arrival order. */
    method SelectBatch(conversation: Conversation) returns (ids: seq<RowId>)
      ensures IsBatch(State(), conversation, ids)
    {
      ids := [];
      var todo: set<RowId> := set id | id in rows && rows[id].conversation == conversation && Unsettled(rows[id]);
      ghost var all := todo;
      while todo != {}
        invariant todo <= all <= rows.Keys && (forall id :: id in ids <==> id in all && id !in todo)
        invariant forall i, j :: 0 <= i < j < |ids| ==>
          ids[i] in rows && ids[j] in rows && Earlier(rows, ids[i], ids[j])
        invariant forall a, b :: a in ids && b in todo ==> a in rows && b in rows && Earlier(rows, a, b)
        decreases todo
      {
        var first := Earliest(todo);
        assert forall i :: 0 <= i < |ids| ==> ids[i] in ids;
        ids := ids + [first];
        todo := todo - {first};
      }
    }

    /** `claimInboxBatch`: every un-settled row of one conversation, in arrival order,
        one attempt more each. */
    method Claim(conversation: Conversation) returns (ids: seq<RowId>)
      modifies this`rows
      ensures IsBatch(old(State()), conversation, ids)
      ensures State() == Claimed(old(State()), conversation)
      ensures rows.Keys == old(rows).Keys
      ensures forall id :: id in ids <==> id in old(rows) && old(rows)[id].conversation == conversation && IsOpen(old(rows)[id])
      ensures forall id :: id in rows ==>
        rows[id] == if id in ids then old(rows)[id].(status := Processing, attempts := old(rows)[id].attempts + 1) else old(rows)[id]
      ensures forall i, j :: 0 <= i < j < |ids| ==> ArrivesBefore(old(rows), ids[i], ids[j])
    {
      ids := SelectBatch(conversation);
      ghost var was := State();
      for k := 0 to |ids|
        invariant rows.Keys == was.rows.Keys && nextId == was.nextId && records == was.records
        invariant forall id :: id in rows ==> rows[id] == if id in ids[..k] then Once(was.rows[id]) else was.rows[id]
      {
        assert ids[..k + 1] == ids[..k] + [ids[k]];
        assert ids[k] in ids;
        BatchDistinct(was, conversation, ids, k);
        rows := rows[ids[k] := Once(rows[ids[k]])];
      }
      assert ids[..|ids|] == ids;
      assert rows == Claimed(was, conversation).rows;
    }

    /** `markInboxBatchDone`, `markInboxBatchFailed` and `markInboxBatchPending`. */
    method Mark(ids: seq<RowId>, status: Status, now: int)
      modifies this`rows
      ensures State() == Marked(old(State()), ids, status, now)
      ensures rows.Keys == old(rows).Keys
      ensures forall id :: id in rows ==>
        var was, row := old(rows)[id], rows[id];
        && (id !in ids ==> row == was)
        && (id in ids ==> row == was.(status := status, processedAt := row.processedAt))
        && (id in ids ==> row.processedAt == if status == Pending then was.processedAt else now)
    {
      ghost var was := State();
      for k := 0 to |ids|
        invariant rows.Keys == was.rows.Keys && nextId == was.nextId && records == was.records
        invariant rows == Marked(was, ids[..k], status, now).rows
      {
        assert ids[..k + 1] == ids[..k] + [ids[k]];
        if ids[k] in rows {
          var row := rows[ids[k]];
          rows := rows[ids[k] := if status == Pending then row.(status := Pending)
                                 else row.(status := status, processedAt := now)];
        }
      }
      assert ids[..|ids|] == ids;
    }

    /** `listReplayableInbox`. */
    method ListReplayable() returns (ids: seq<RowId>)
      ensures IsReplay(State(), ids)
      ensures forall id :: id in ids <==> id in rows && IsOpen(rows[id])
    {
      ids := [];
      var todo: set<RowId> := set id | id in rows && Unsettled(rows[id]);
      ghost var all := todo;
      while todo != {}
        invariant todo <= all && (forall id :: id in ids <==> id in all && id !in todo)
        invariant forall i, j :: 0 <= i < j < |ids| ==> ids[i].n < ids[j].n
        invariant forall a, b :: a in ids && b in todo ==> a.n < b.n
        decreases todo
      {
        var first := Smallest(todo);
        assert forall i :: 0 <= i < |ids| ==> ids[i] in ids;
        ids := ids + [first];
        todo := todo - {first};
      }
    }

    static method Smallest(ids: set<RowId>) returns (first: RowId)
      requires ids != {}
      ensures first in ids && forall id :: id in ids ==> first.n <= id.n
    {
      first :| first in ids;
      var todo: set<RowId> := ids - {first};
      while todo != {}
        invariant first in ids && todo <= ids && first !in todo
        invariant forall id :: id in ids && id !in todo ==> first.n <= id.n
      {
        var id :| id in todo;
        if id.n < first.n {
          first := id;
        }
        todo := todo - {id};
      }
    }

    /** `deleteStaleInboxRows`, the settled rows past their days. */
    method Sweep(now: int, doneDays: int, failedDays: int) returns (deleted: nat)
      modifies this`rows
      ensures State() == Swept(old(State()), now, doneDays, failedDays)
      ensures forall id :: id in rows <==>
        id in old(rows) && !(old(rows)[id].status == Done && now - old(rows)[id].processedAt > doneDays * 86400)
        && !(old(rows)[id].status == Failed && now - old(rows)[id].processedAt > failedDays * 86400)
      ensures forall id :: id in rows ==> rows[id] == old(rows)[id]
      ensures deleted == |old(rows)| - |rows|
    {
      ghost var was := State();
      var todo: set<RowId> := rows.Keys;
      deleted := 0;
      while todo != {}
        invariant todo <= was.rows.Keys && rows.Keys <= was.rows.Keys && todo <= rows.Keys
        invariant nextId == was.nextId && records == was.records && deleted == |was.rows| - |rows|
        invariant forall id :: id in was.rows ==>
          (id in rows <==> id in todo || !Stale(was.rows[id], now, doneDays, failedDays))
        invariant forall id :: id in rows ==> rows[id] == was.rows[id]
        decreases todo
      {
        var id :| id in todo;
        if Stale(rows[id], now, doneDays, failedDays) {
          ghost var before := rows;
          rows := rows - {id};
          assert before.Keys == rows.Keys + {id};
          deleted := deleted + 1;
        }
        todo := todo - {id};
      }
      assert rows == Swept(was, now, doneDays, failedDays).rows;
    }

    /** `setInboxTranscript`: the text of the one row, if it is still there. */
    method SetTranscript(id: RowId, text: Text)
      modifies this`rows
      ensures State() == Transcribed(old(State()), id, text)
      ensures rows.Keys == old(rows).Keys
      ensures forall r :: r in rows ==> rows[r] == if r == id then old(rows)[r].(text := text) else old(rows)[r]
    {
      if id in rows {
        rows := rows[id := rows[id].(text := text)];
      }
    }

    /** `recordInboundMessages`: how many records are new. */
    method RecordInbound(agent: Id, turn: Key, batch: seq<(RowId, Row)>) returns (written: nat)
      modifies this`records
      ensures State() == Recorded(old(State()), agent, turn, batch)
      ensures written == |records| - |old(records)|
      ensures RecordsGrow(old(records), agent, turn, batch, records)
    {
      written := 0;
      for k := 0 to |batch|
        invariant State() == Recorded(old(State()), agent, turn, batch[..k])
        invariant written == |records| - |old(records)|
      {
        assert batch[..k + 1][..k] == batch[..k];
        var (id, row) := batch[k];
        if In(id) !in records {
          ghost var before := records;
          records := records[In(id) := Record(row.conversation, agent, row.text, turn, row.receivedAt)];
          assert records.Keys == before.Keys + {In(id)};
          written := written + 1;
        }
      }
      assert batch[..|batch|] == batch;
      RecordedIs(old(State()), agent, turn, batch);
    }

    /** `recordOutboundMessage`, after a successful send. */
    method RecordOutbound(conversation: Conversation, agent: Id, turn: Key, body: Text, now: int) returns (isNew: bool)
      modifies this`records
      ensures State() == Delivered(old(State()), conversation, agent, turn, body, now)
      ensures isNew <==> Out(conversation, turn, body) !in old(records)
      ensures records == if isNew then old(records)[Out(conversation, turn, body) := Record(conversation, agent, body, turn, now)]
                         else old(records)
    {
      isNew := Out(conversation, turn, body) !in records;
      if isNew {
        records := records[Out(conversation, turn, body) := Record(conversation, agent, body, turn, now)];
      }
    }
  }
}
