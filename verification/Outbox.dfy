/** The bridge's durable queue: rows in insertion order, delivered one at a time, kept
    until the server confirms; and its retry waits. */
module Outbox {
  import opened Catalogue

  type Payload(==, !new)

  datatype Row = Row(id: int, payload: Payload, attempts: nat)

  // ---- Retry waits ---------------------------------------------------------------------------

  const SECOND: int := 1_000_000_000
  const MINUTE: int := 60 * SECOND
  const TWO_TO_63: int := 0x8000_0000_0000_0000
  const TWO_TO_64: int := 0x1_0000_0000_0000_0000

  function Pow2(n: nat): (p: nat)
    ensures p >= 1
  {
    if n == 0 then 1 else 2 * Pow2(n - 1)
  }

  /** A signed 64-bit word. */
  function Wrap64(x: int): int {
    (x + TWO_TO_63) % TWO_TO_64 - TWO_TO_63
  }

  /** One second shifted left, as the machine computes it. */
  function Shifted(attempts: nat): int {
    Wrap64(SECOND * Pow2(attempts))
  }

  function Backoff(attempts: nat): int {
    var d := Shifted(attempts);
    if d > MINUTE || d <= 0 then MINUTE else d
  }

  lemma {:induction false} Pow2Adds(m: nat, n: nat)
    ensures Pow2(m + n) == Pow2(m) * Pow2(n)
  {
    if n > 0 {
      Pow2Adds(m, n - 1);
      assert Pow2(m + n) == 2 * Pow2(m + (n - 1));
    }
  }

  lemma {:induction false} Pow2Grows(m: nat, n: nat)
    requires m <= n
    ensures Pow2(m) <= Pow2(n)
  {
    Pow2Adds(m, n - m);
    assert Pow2(m) * Pow2(n - m) >= Pow2(m) * 1;
  }

  /** A multiple of 2^36 stays one when it wraps, so it is not a positive value under a minute. */
  lemma WrappedMultiple(k: int)
    ensures var d := Wrap64(0x10_0000_0000 * k); d <= 0 || d > MINUTE
  {
    var x := 0x10_0000_0000 * k;
    var q := (x + TWO_TO_63) / TWO_TO_64;
    assert Wrap64(x) == x - TWO_TO_64 * q;
    assert Wrap64(x) == 0x10_0000_0000 * (k - 0x1000_0000 * q);
  }

  lemma Pow2Of27()
    ensures Pow2(27) == 0x800_0000
  {
    Pow2Adds(9, 9);
    Pow2Adds(18, 9);
    assert Pow2(9) == 512;
  }

  lemma ShiftedFar(attempts: nat)
    requires attempts >= 27
    ensures Shifted(attempts) <= 0 || Shifted(attempts) > MINUTE
  {
    var rest := Pow2(attempts - 27);
    Pow2Adds(27, attempts - 27);
    Pow2Of27();
    assert SECOND * Pow2(attempts) == 0x10_0000_0000 * (1953125 * rest);
    WrappedMultiple(1953125 * rest);
  }

  lemma ShiftedNear(attempts: nat)
    requires attempts < 27
    ensures Shifted(attempts) == SECOND * Pow2(attempts)
  {
    Pow2Grows(attempts, 27);
    Pow2Of27();
  }

  /** Overflow and all, the wait is exactly min(2^attempts, 60) seconds. */
  lemma BackoffExactly(attempts: nat)
    ensures Backoff(attempts) == (if Pow2(attempts) < 60 then Pow2(attempts) else 60) * SECOND
  {
    if attempts >= 6 {
      Pow2Grows(6, attempts);
      assert Pow2(6) == 64;
    } else {
      Pow2Grows(attempts, 5);
      assert Pow2(5) == 32;
    }
    if attempts >= 27 {
      ShiftedFar(attempts);
    } else {
      ShiftedNear(attempts);
    }
  }

  lemma BackoffGrows(m: nat, n: nat)
    requires m <= n
    ensures Backoff(m) <= Backoff(n) <= MINUTE
    ensures 1 <= m ==> 2 * SECOND <= Backoff(m)
  {
    BackoffExactly(m);
    BackoffExactly(n);
    Pow2Grows(m, n);
    if 1 <= m {
      Pow2Grows(1, m);
      assert Pow2(1) == 2;
    }
  }

  // ---- The queue --------------------------------------------------------------------------------

  ghost predicate Ascending(rows: seq<Row>, nextId: int) {
    && (forall i, j :: 0 <= i < j < |rows| ==> rows[i].id < rows[j].id)
    && (forall i :: 0 <= i < |rows| ==> rows[i].id < nextId)
  }

  /** What a delivery comes to, and whether the write that follows it succeeds. */
  datatype Delivery = Confirmed | Refused | Failed
  datatype Turn = Arrives(payload: Payload) | Dispatches(delivery: Delivery, recorded: bool)

  /** The rows after one turn. */
  function RowsAfter(rows: seq<Row>, nextId: int, turn: Turn): seq<Row> {
    match turn
    case Arrives(payload) => rows + [Row(nextId, payload, 0)]
    case Dispatches(delivery, recorded) =>
      if rows == [] || !recorded then rows
      else if delivery == Failed then [rows[0].(attempts := rows[0].attempts + 1)] + rows[1..]
      else rows[1..]
  }

  function Payloads(rows: seq<Row>): (r: seq<Payload>)
    ensures |r| == |rows| && forall k :: 0 <= k < |r| ==> r[k] == rows[k].payload
  {
    seq(|rows|, k requires 0 <= k < |rows| => rows[k].payload)
  }

  function Arrivals(script: seq<Turn>): seq<Payload> {
    if script == [] then []
    else
      var last := script[|script| - 1];
      Arrivals(script[..|script| - 1]) + if last.Arrives? then [last.payload] else []
  }

  /** What left the queue and what is still in it is what was in it and what arrived, in
      that order. */
  ghost predicate InOrder(left: seq<Payload>, rows: seq<Row>, was: seq<Row>, script: seq<Turn>) {
    left + Payloads(rows) == Payloads(was) + Arrivals(script)
  }

  /** Whatever a turn does to the queue, order is kept if it does one of three things. */
  lemma EnqueueKeepsOrder(left: seq<Payload>, rows: seq<Row>, next: seq<Row>, was: seq<Row>, script: seq<Turn>, t: nat)
    requires t < |script| && script[t].Arrives? && InOrder(left, rows, was, script[..t])
    requires |next| == |rows| + 1 && next[..|rows|] == rows && next[|rows|].payload == script[t].payload
    ensures InOrder(left, next, was, script[..t + 1])
  {
    assert script[..t + 1][..t] == script[..t];
    assert Payloads(next) == Payloads(rows) + [script[t].payload] by {
      assert forall k :: 0 <= k < |rows| ==> next[k] == next[..|rows|][k];
    }
    assert left + Payloads(next) == (left + Payloads(rows)) + [script[t].payload];
    assert Payloads(was) + (Arrivals(script[..t]) + [script[t].payload])
        == (Payloads(was) + Arrivals(script[..t])) + [script[t].payload];
  }

  lemma StayKeepsOrder(left: seq<Payload>, rows: seq<Row>, next: seq<Row>, was: seq<Row>, script: seq<Turn>, t: nat)
    requires t < |script| && script[t].Dispatches? && InOrder(left, rows, was, script[..t])
    requires Payloads(next) == Payloads(rows)
    ensures InOrder(left, next, was, script[..t + 1])
  {
    assert script[..t + 1][..t] == script[..t];
    assert Arrivals(script[..t + 1]) == Arrivals(script[..t]) + [];
  }

  lemma RemoveKeepsOrder(left: seq<Payload>, rows: seq<Row>, was: seq<Row>, script: seq<Turn>, t: nat)
    requires t < |script| && script[t].Dispatches? && InOrder(left, rows, was, script[..t]) && rows != []
    ensures InOrder(left + [rows[0].payload], rows[1..], was, script[..t + 1])
  {
    assert script[..t + 1][..t] == script[..t];
    assert Arrivals(script[..t + 1]) == Arrivals(script[..t]) + [];
    assert Payloads(rows) == [rows[0].payload] + Payloads(rows[1..]);
    assert left + Payloads(rows) == (left + [rows[0].payload]) + Payloads(rows[1..]);
  }

  // ---- What a schedule comes to -----------------------------------------------------------------

  /** What one turn comes to: an arrival, an empty queue, the head removed, the head
      delivered or refused without its row being deleted, or the head to be tried again. */
  datatype Event =
    | Arrived(row: int) | Idle | Removed(row: int) | Kept(row: int)
    | Retries(row: int, counted: bool, pause: int)

  /** The event is one of this turn. */
  predicate Follows(turn: Turn, event: Event) {
    match turn
    case Arrives(_) => event.Arrived?
    case Dispatches(delivery, recorded) =>
      || event.Idle?
      || (delivery == Failed && event.Retries? && event.counted == recorded)
      || (delivery != Failed && if recorded then event.Removed? else event.Kept?)
  }

  /** The failures of a row that were written down. */
  function Failures(log: seq<Event>, row: int): nat {
    if log == [] then 0
    else
      var last := log[|log| - 1];
      Failures(log[..|log| - 1], row) + if last.Retries? && last.row == row && last.counted then 1 else 0
  }

  /** All its failures. */
  function Tries(log: seq<Event>, row: int): nat {
    if log == [] then 0
    else
      var last := log[|log| - 1];
      Tries(log[..|log| - 1], row) + if last.Retries? && last.row == row then 1 else 0
  }

  function AttemptsIn(rows: seq<Row>, id: int): nat {
    if rows == [] then 0
    else if rows[|rows| - 1].id == id then rows[|rows| - 1].attempts
    else AttemptsIn(rows[..|rows| - 1], id)
  }

  predicate Has(rows: seq<Row>, id: int) {
    exists i :: 0 <= i < |rows| && rows[i].id == id
  }

  /** The row is one of the first rows or arrived since, and was not removed. */
  predicate Came(was: seq<Row>, log: seq<Event>, id: int) {
    Has(was, id) || Arrived(id) in log
  }

  predicate Queued(was: seq<Row>, log: seq<Event>, id: int) {
    Came(was, log, id) && Removed(id) !in log
  }

  /** A new row comes after all before it; whatever else happens, happens to the first
      row still queued. */
  ghost predicate InTurn(was: seq<Row>, log: seq<Event>, event: Event) {
    match event
    case Arrived(id) => forall x :: Came(was, log, x) ==> x < id
    case Idle => forall x :: !Queued(was, log, x)
    case _ => Queued(was, log, event.row) && forall x :: Queued(was, log, x) ==> event.row <= x
  }

  /** A failed delivery waits for one more failure than was written down for its row. */
  ghost predicate WaitsFor(was: seq<Row>, log: seq<Event>, event: Event) {
    event.Retries? ==> event.pause == Backoff(AttemptsIn(was, event.row) + Failures(log, event.row) + 1)
  }

  /** The log of a schedule that started with the rows `was`. */
  ghost predicate Logs(was: seq<Row>, script: seq<Turn>, log: seq<Event>) {
    |log| == |script|
    && forall t :: 0 <= t < |log| ==>
         Follows(script[t], log[t]) && InTurn(was, log[..t], log[t]) && WaitsFor(was, log[..t], log[t])
  }

  /** The queue holds exactly the rows still queued, each with its failures counted. */
  ghost predicate Holds(was: seq<Row>, log: seq<Event>, rows: seq<Row>) {
    && (forall x :: Has(rows, x) <==> Queued(was, log, x))
    && (forall i :: 0 <= i < |rows| ==> rows[i].attempts == AttemptsIn(was, rows[i].id) + Failures(log, rows[i].id))
  }

  /** No event is about a row not numbered yet. */
  ghost predicate Numbered(was: seq<Row>, log: seq<Event>, nextId: int) {
    && (forall x :: Came(was, log, x) ==> x < nextId)
    && (forall t :: 0 <= t < |log| && !log[t].Idle? ==> log[t].row < nextId)
  }

  lemma {:induction false} AttemptsInIs(rows: seq<Row>, nextId: int, i: nat)
    requires Ascending(rows, nextId) && i < |rows|
    ensures AttemptsIn(rows, rows[i].id) == rows[i].attempts
  {
    if i < |rows| - 1 {
      AttemptsInIs(rows[..|rows| - 1], nextId, i);
    }
  }

  lemma {:induction false} NothingYet(rows: seq<Row>, log: seq<Event>, id: int)
    requires forall i :: 0 <= i < |rows| ==> rows[i].id != id
    requires forall t :: 0 <= t < |log| && log[t].Retries? ==> log[t].row != id
    ensures AttemptsIn(rows, id) == 0 && Failures(log, id) == 0
    decreases |rows| + |log|
  {
    if rows != [] {
      NothingYet(rows[..|rows| - 1], log, id);
    } else if log != [] {
      NothingYet(rows, log[..|log| - 1], id);
    }
  }

  lemma StartHolds(was: seq<Row>, nextId: int)
    requires Ascending(was, nextId)
    ensures Holds(was, [], was) && Numbered(was, [], nextId)
  {
    forall i | 0 <= i < |was| ensures was[i].attempts == AttemptsIn(was, was[i].id) {
      AttemptsInIs(was, nextId, i);
    }
  }

  lemma LogMore(was: seq<Row>, script: seq<Turn>, t: nat, log: seq<Event>, event: Event)
    requires t < |script| && Logs(was, script[..t], log)
    requires Follows(script[t], event) && InTurn(was, log, event) && WaitsFor(was, log, event)
    ensures Logs(was, script[..t + 1], log + [event])
  {
    var more := log + [event];
    forall u | 0 <= u < |more|
      ensures Follows(script[..t + 1][u], more[u]) && InTurn(was, more[..u], more[u]) && WaitsFor(was, more[..u], more[u])
    {
      assert more[..u] == if u < t then log[..u] else log;
      if u < t {
        assert script[..t][u] == script[..t + 1][u];
      }
    }
  }

  lemma MoreEvents(was: seq<Row>, log: seq<Event>, event: Event)
    ensures forall x :: Came(was, log + [event], x) <==> Came(was, log, x) || event == Arrived(x)
    ensures forall x :: Queued(was, log + [event], x) <==>
      (Came(was, log, x) || event == Arrived(x)) && Removed(x) !in log && event != Removed(x)
    ensures forall id ::
      Failures(log + [event], id) == Failures(log, id) + if event.Retries? && event.row == id && event.counted then 1 else 0
  {
    assert (log + [event])[..|log|] == log;
  }

  lemma HoldsArrived(was: seq<Row>, log: seq<Event>, rows: seq<Row>, nextId: int, payload: Payload)
    requires Ascending(rows, nextId) && Holds(was, log, rows) && Numbered(was, log, nextId)
    ensures Holds(was, log + [Arrived(nextId)], rows + [Row(nextId, payload, 0)])
    ensures Numbered(was, log + [Arrived(nextId)], nextId + 1) && InTurn(was, log, Arrived(nextId))
  {
    var more, next := log + [Arrived(nextId)], rows + [Row(nextId, payload, 0)];
    MoreEvents(was, log, Arrived(nextId));
    forall x ensures Has(next, x) <==> Has(rows, x) || x == nextId {
      if Has(rows, x) {
        var i :| 0 <= i < |rows| && rows[i].id == x;
        assert next[i].id == x;
      }
      assert next[|rows|].id == nextId;
    }
    assert Removed(nextId) !in log;
    forall i | 0 <= i < |was| ensures was[i].id != nextId {
      assert Came(was, log, was[i].id);
    }
    NothingYet(was, log, nextId);
  }

  lemma HeadIsFirst(was: seq<Row>, log: seq<Event>, rows: seq<Row>, nextId: int)
    requires Ascending(rows, nextId) && Holds(was, log, rows)
    ensures rows == [] ==> InTurn(was, log, Idle)
    ensures rows != [] ==> Queued(was, log, rows[0].id) && forall x :: Queued(was, log, x) ==> rows[0].id <= x
  {
    if rows != [] {
      assert Has(rows, rows[0].id);
    }
    forall x | Queued(was, log, x) ensures rows != [] && rows[0].id <= x {
      assert Has(rows, x);
    }
  }

  lemma HoldsRemoved(was: seq<Row>, log: seq<Event>, rows: seq<Row>, nextId: int)
    requires Ascending(rows, nextId) && Holds(was, log, rows) && Numbered(was, log, nextId) && rows != []
    ensures Holds(was, log + [Removed(rows[0].id)], rows[1..]) && Numbered(was, log + [Removed(rows[0].id)], nextId)
  {
    MoreEvents(was, log, Removed(rows[0].id));
    forall x ensures Has(rows[1..], x) <==> Has(rows, x) && x != rows[0].id {
      if Has(rows, x) && x != rows[0].id {
        var i :| 0 <= i < |rows| && rows[i].id == x;
        assert rows[1..][i - 1].id == x;
      }
    }
  }

  lemma HoldsTried(was: seq<Row>, log: seq<Event>, rows: seq<Row>, nextId: int, event: Event, next: seq<Row>)
    requires Ascending(rows, nextId) && Holds(was, log, rows) && Numbered(was, log, nextId) && rows != []
    requires event.Kept? || event.Retries?
    requires event.row == rows[0].id
    requires |next| == |rows| && next[1..] == rows[1..] && next[0].id == rows[0].id
    requires next[0].attempts == rows[0].attempts + if event.Retries? && event.counted then 1 else 0
    ensures Holds(was, log + [event], next) && Numbered(was, log + [event], nextId)
  {
    MoreEvents(was, log, event);
    assert forall i :: 0 < i < |rows| ==> next[i] == next[1..][i - 1] && rows[i] == rows[1..][i - 1];
    assert forall i :: 0 <= i < |rows| ==> next[i].id == rows[i].id;
    forall x ensures Has(next, x) <==> Has(rows, x) {
      if Has(rows, x) {
        var i :| 0 <= i < |rows| && rows[i].id == x;
        assert next[i].id == x;
      }
    }
  }

  lemma HoldsIdle(was: seq<Row>, log: seq<Event>, rows: seq<Row>, nextId: int)
    requires Holds(was, log, rows) && Numbered(was, log, nextId)
    ensures Holds(was, log + [Idle], rows) && Numbered(was, log + [Idle], nextId)
  {
    MoreEvents(was, log, Idle);
  }

  /** All that holds after the first turns of a schedule. */
  ghost predicate Stands(was: seq<Row>, script: seq<Turn>, log: seq<Event>, left: seq<Payload>, rows: seq<Row>, nextId: int) {
    && |log| <= |script| && Logs(was, script[..|log|], log) && Ascending(rows, nextId)
    && Holds(was, log, rows) && Numbered(was, log, nextId) && InOrder(left, rows, was, script[..|log|])
  }

  lemma StandsAtStart(was: seq<Row>, script: seq<Turn>, nextId: int)
    requires Ascending(was, nextId)
    ensures Stands(was, script, [], [], was, nextId)
  {
    StartHolds(was, nextId);
    assert script[..0] == [] && [] + Payloads(was) == Payloads(was) == Payloads(was) + [];
  }

  lemma ArrivalStands(was: seq<Row>, script: seq<Turn>, log: seq<Event>, left: seq<Payload>, rows: seq<Row>, nextId: int)
    requires Stands(was, script, log, left, rows, nextId) && |log| < |script| && script[|log|].Arrives?
    ensures Stands(was, script, log + [Arrived(nextId)], left, rows + [Row(nextId, script[|log|].payload, 0)], nextId + 1)
  {
    var payload := script[|log|].payload;
    HoldsArrived(was, log, rows, nextId, payload);
    EnqueueKeepsOrder(left, rows, rows + [Row(nextId, payload, 0)], was, script, |log|);
    LogMore(was, script, |log|, log, Arrived(nextId));
  }

  lemma IdleStands(was: seq<Row>, script: seq<Turn>, log: seq<Event>, left: seq<Payload>, nextId: int)
    requires Stands(was, script, log, left, [], nextId) && |log| < |script| && script[|log|].Dispatches?
    ensures Stands(was, script, log + [Idle], left, [], nextId)
  {
    HeadIsFirst(was, log, [], nextId);
    HoldsIdle(was, log, [], nextId);
    StayKeepsOrder(left, [], [], was, script, |log|);
    LogMore(was, script, |log|, log, Idle);
  }

  lemma RemovalStands(was: seq<Row>, script: seq<Turn>, log: seq<Event>, left: seq<Payload>, rows: seq<Row>, nextId: int)
    requires Stands(was, script, log, left, rows, nextId) && |log| < |script| && rows != []
    requires Follows(script[|log|], Removed(rows[0].id))
    ensures Stands(was, script, log + [Removed(rows[0].id)], left + [rows[0].payload], rows[1..], nextId)
  {
    HeadIsFirst(was, log, rows, nextId);
    HoldsRemoved(was, log, rows, nextId);
    RemoveKeepsOrder(left, rows, was, script, |log|);
    LogMore(was, script, |log|, log, Removed(rows[0].id));
  }

  /** The head after one more failure, if that was written down. */
  ghost predicate Tried(rows: seq<Row>, event: Event, next: seq<Row>) {
    && (event.Kept? || event.Retries?) && rows != [] && event.row == rows[0].id
    && (event.Retries? ==> event.pause == Backoff(rows[0].attempts + 1))
    && |next| == |rows| && next[1..] == rows[1..]
    && next[0] == rows[0].(attempts := next[0].attempts)
    && next[0].attempts == rows[0].attempts + if event.Retries? && event.counted then 1 else 0
  }

  lemma TriedPayloads(rows: seq<Row>, event: Event, next: seq<Row>)
    requires Tried(rows, event, next)
    ensures Payloads(next) == Payloads(rows)
  {
    assert forall i :: 0 < i < |rows| ==> next[i] == next[1..][i - 1] && rows[i] == rows[1..][i - 1];
  }

  lemma TryStands(was: seq<Row>, script: seq<Turn>, log: seq<Event>, left: seq<Payload>, rows: seq<Row>, nextId: int,
                  event: Event, next: seq<Row>)
    requires Stands(was, script, log, left, rows, nextId) && |log| < |script|
    requires Follows(script[|log|], event) && Tried(rows, event, next)
    ensures Stands(was, script, log + [event], left, next, nextId)
  {
    HeadIsFirst(was, log, rows, nextId);
    HoldsTried(was, log, rows, nextId, event, next);
    TriedPayloads(rows, event, next);
    StayKeepsOrder(left, rows, next, was, script, |log|);
    LogMore(was, script, |log|, log, event);
  }

  // ---- What the log says of the waits --------------------------------------------------------------

  lemma {:induction false} FailuresGrow(log: seq<Event>, t: nat, row: int)
    requires t <= |log|
    ensures Failures(log[..t], row) <= Failures(log, row)
  {
    if t < |log| {
      FailuresGrow(log[..|log| - 1], t, row);
      assert log[..|log| - 1][..t] == log[..t];
    } else {
      assert log[..t] == log;
    }
  }

  /** The attempt a wait after the events so far is for. */
  function AttemptAfter(was: seq<Row>, log: seq<Event>, row: int): nat {
    AttemptsIn(was, row) + Failures(log, row) + 1
  }

  lemma WaitIs(was: seq<Row>, script: seq<Turn>, log: seq<Event>, t: nat)
    requires Logs(was, script, log) && t < |log| && log[t].Retries?
    ensures log[t].pause == Backoff(AttemptAfter(was, log[..t], log[t].row))
  {
    assert WaitsFor(was, log[..t], log[t]);
  }

  lemma AttemptsGrow(was: seq<Row>, log: seq<Event>, t: nat, u: nat, row: int)
    requires t <= u <= |log|
    ensures AttemptAfter(was, log[..t], row) <= AttemptAfter(was, log[..u], row)
  {
    FailuresGrow(log[..u], t, row);
    assert log[..u][..t] == log[..t];
  }

  lemma WaitIsFit(was: seq<Row>, script: seq<Turn>, log: seq<Event>, t: nat)
    requires Logs(was, script, log) && t < |log| && log[t].Retries?
    ensures 2 * SECOND <= log[t].pause <= MINUTE
  {
    WaitIs(was, script, log, t);
    var n := AttemptAfter(was, log[..t], log[t].row);
    BackoffGrows(n, n);
  }

  lemma WaitGrows(was: seq<Row>, script: seq<Turn>, log: seq<Event>, t: nat, u: nat)
    requires Logs(was, script, log) && t < u < |log| && log[t].Retries? && log[u].Retries? && log[t].row == log[u].row
    ensures log[t].pause <= log[u].pause
  {
    WaitIs(was, script, log, t);
    WaitIs(was, script, log, u);
    AttemptsGrow(was, log, t, u, log[t].row);
    BackoffGrows(AttemptAfter(was, log[..t], log[t].row), AttemptAfter(was, log[..u], log[t].row));
  }

  /** Every wait is between 2 and 60 seconds, and a row's waits never get shorter. */
  ghost predicate WaitsFit(log: seq<Event>) {
    && (forall t :: 0 <= t < |log| && log[t].Retries? ==> 2 * SECOND <= log[t].pause <= MINUTE)
    && (forall t, u :: 0 <= t < u < |log| && log[t].Retries? && log[u].Retries? && log[t].row == log[u].row ==>
          log[t].pause <= log[u].pause)
  }

  lemma WaitsAreFit(was: seq<Row>, script: seq<Turn>, log: seq<Event>)
    requires Logs(was, script, log)
    ensures WaitsFit(log)
  {
    forall t | 0 <= t < |log| && log[t].Retries? ensures 2 * SECOND <= log[t].pause <= MINUTE {
      WaitIsFit(was, script, log, t);
    }
    forall t, u | 0 <= t < u < |log| && log[t].Retries? && log[u].Retries? && log[t].row == log[u].row
      ensures log[t].pause <= log[u].pause
    {
      WaitGrows(was, script, log, t, u);
    }
  }

  lemma {:induction false} AllCounted(log: seq<Event>, row: int)
    requires forall t :: 0 <= t < |log| && log[t].Retries? ==> log[t].counted
    ensures Failures(log, row) == Tries(log, row)
  {
    if log != [] {
      AllCounted(log[..|log| - 1], row);
    }
  }

  /** When every write is recorded, the k-th wait of a row that was never tried before is
      exactly min(2^k, 60) seconds. */
  lemma KthWaitExactly(was: seq<Row>, script: seq<Turn>, log: seq<Event>, t: nat)
    requires Logs(was, script, log) && t < |log| && log[t].Retries? && AttemptsIn(was, log[t].row) == 0
    requires forall u :: 0 <= u < |script| && script[u].Dispatches? ==> script[u].recorded
    ensures var k := Tries(log[..t + 1], log[t].row);
      k >= 1 && log[t].pause == (if Pow2(k) < 60 then Pow2(k) else 60) * SECOND
  {
    forall u | 0 <= u < |log| && log[u].Retries? ensures log[u].counted {
      assert Follows(script[u], log[u]);
    }
    assert WaitsFor(was, log[..t], log[t]);
    AllCounted(log[..t], log[t].row);
    assert log[..t + 1][..t] == log[..t];
    BackoffExactly(Tries(log[..t], log[t].row) + 1);
  }

  class Outbox {
    var rows: seq<Row>
    var nextId: int

    ghost predicate Valid()
      reads this
    {
      Ascending(rows, nextId)
    }

    constructor ()
      ensures Valid() && rows == []
    {
      rows, nextId := [], 1;
    }

    /** The event is durable at the end of the queue, before any delivery of it. */
    method Enqueue(payload: Payload)
      requires Valid()
      modifies this
      ensures Valid() && rows == old(rows) + [Row(old(nextId), payload, 0)] && nextId == old(nextId) + 1
    {
      rows := rows + [Row(nextId, payload, 0)];
      nextId := nextId + 1;
    }

    method Head() returns (row: Maybe<Row>)
      requires Valid()
      ensures row.None? <==> rows == []
      ensures row.Some? ==> row.value == rows[0] && forall i :: 0 < i < |rows| ==> row.value.id < rows[i].id
    {
      row := if rows == [] then None else Some(rows[0]);
    }

    method Delete(id: int)
      requires Valid() && rows != [] && rows[0].id == id
      modifies this`rows
      ensures Valid() && rows == old(rows)[1..]
    {
      rows := rows[1..];
    }

    method SetAttempts(id: int, attempts: nat)
      requires Valid() && rows != [] && rows[0].id == id
      modifies this`rows
      ensures Valid() && rows == [old(rows)[0].(attempts := attempts)] + old(rows)[1..]
    {
      rows := [rows[0].(attempts := attempts)] + rows[1..];
    }

    /** One pass of the dispatcher: the head is delivered, and only a confirmed or
        refused delivery removes it; a failed one is counted and waits. */
    method Dispatch(delivery: Delivery, recorded: bool) returns (event: Event)
      requires Valid()
      modifies this`rows
      ensures Valid() && Follows(Dispatches(delivery, recorded), event)
      ensures rows == RowsAfter(old(rows), nextId, Dispatches(delivery, recorded))
      ensures event.Idle? <==> old(rows) == []
      ensures event.Idle? ==> rows == old(rows)
      ensures event.Removed? ==> event.row == old(rows)[0].id && rows == old(rows)[1..]
      ensures event.Kept? || event.Retries? ==> Tried(old(rows), event, rows)
    {
      var head := Head();
      match head
      case None => event := Idle;
      case Some(row) =>
        if delivery != Failed {
          if recorded {
            Delete(row.id);
            event := Removed(row.id);
          } else {
            event := Kept(row.id);
          }
        } else {
          var attempts := row.attempts + 1;
          if recorded { SetAttempts(row.id, attempts); }
          event := Retries(row.id, recorded, Backoff(attempts));
        }
    }

    /** One arrival or one pass of the dispatcher, whatever comes first. */
    method Next(ghost was: seq<Row>, ghost script: seq<Turn>, ghost log: seq<Event>, turn: Turn, left: seq<Payload>)
      returns (event: Event, gone: seq<Payload>)
      requires Stands(was, script, log, left, rows, nextId) && |log| < |script| && turn == script[|log|]
      modifies this
      ensures Stands(was, script, log + [event], gone, rows, nextId)
    {
      ghost var before, id := rows, nextId;
      gone := left;
      match turn
      case Arrives(payload) =>
        Enqueue(payload);
        event := Arrived(nextId - 1);
        ArrivalStands(was, script, log, left, before, id);
      case Dispatches(delivery, recorded) =>
        var head := Head();
        event := Dispatch(delivery, recorded);
        if event.Idle? {
          IdleStands(was, script, log, left, id);
        } else if event.Removed? {
          gone := left + [head.value.payload];
          RemovalStands(was, script, log, left, before, id);
        } else {
          TryStands(was, script, log, left, before, id, event, rows);
        }
    }

    /** Over any schedule of arrivals and deliveries, lost writes included: what each turn
        comes to and how long it waits, the rows still queued with the failures counted for
        them, and the payloads that left, in the order in which they came. */
    method Run(script: seq<Turn>) returns (log: seq<Event>, left: seq<Payload>)
      requires Valid()
      modifies this
      ensures Valid() && Logs(old(rows), script, log) && Holds(old(rows), log, rows)
      ensures WaitsFit(log) && InOrder(left, rows, old(rows), script)
    {
      log, left := [], [];
      StandsAtStart(rows, script, nextId);
      for t := 0 to |script|
        invariant |log| == t && Stands(old(rows), script, log, left, rows, nextId)
      {
        var event, gone := Next(old(rows), script, log, script[t], left);
        log, left := log + [event], gone;
      }
      assert script[..|script|] == script;
      WaitsAreFit(old(rows), script, log);
    }
  }
}
