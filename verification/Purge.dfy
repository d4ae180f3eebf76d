/** The two-pass purge of customer conversations: driven by the stored sessions first and
    by the surviving messages second, and sparing agents and owners in both. */
module Purge {
  import opened Lists
  import opened Catalogue
  import opened Inbox
  import opened Handoff

  /** A stored session: its pair and the session id, if one is stored. */
  datatype Session = Session(pair: Pair, id: Maybe<Id>)

  /** The tables the purge touches; of a row of the last three only its pair matters. */
  datatype Tables = Tables(sessions: seq<Session>, messages: seq<Pair>, toolCalls: seq<Pair>, holds: seq<Pair>)

  /** Who is an owner: by assignment, and by the allowlist. */
  datatype Owners = Owners(appointed: set<Conversation>, listed: set<Conversation>)

  /** The form of a key both sources are asked with, and the agent owners talk to. */
  const normal: Conversation -> Conversation
  const ownerAgent: Id

  predicate IsOwnerKey(o: Owners, key: Conversation) {
    normal(key) in o.appointed || normal(key) in o.listed
  }

  predicate Spared(o: Owners, p: Pair) {
    isAgent(p.key) || IsOwnerKey(o, p.key) || p.agent == ownerAgent
  }

  /** Whether the purge can tell an owner from a customer at all. */
  predicate KnowsOwners(o: Owners) {
    o.listed != {} || o.appointed != {}
  }

  // ---- What the two passes remove ----------------------------------------------------------------

  /** The pairs of the stored sessions: those with an id. */
  function StoredPairs(sessions: seq<Session>): (r: seq<Pair>)
    ensures forall p :: p in r <==> exists x :: Session(p, Some(x)) in sessions
  {
    if sessions == [] then []
    else
      var front := StoredPairs(sessions[..|sessions| - 1]);
      var last := sessions[|sessions| - 1];
      if last.id.Some? then front + [last.pair] else front
  }

  function CustomersOf(o: Owners, pairs: seq<Pair>): (r: seq<Pair>)
    ensures forall p :: p in r <==> p in pairs && !Spared(o, p)
  {
    if pairs == [] then []
    else
      var front := CustomersOf(o, pairs[..|pairs| - 1]);
      var last := pairs[|pairs| - 1];
      if Spared(o, last) then front else front + [last]
  }

  /** A pair the purge forgets: a customer's, with a stored session or a message left. */
  ghost predicate Gone(o: Owners, t: Tables, p: Pair) {
    !Spared(o, p) && (p in StoredPairs(t.sessions) || p in t.messages)
  }

  ghost function GonePairs(o: Owners, t: Tables): (r: set<Pair>)
    ensures forall p :: p in r <==> Gone(o, t, p)
  {
    Elems(CustomersOf(o, StoredPairs(t.sessions))) + Elems(CustomersOf(o, t.messages))
  }

  function SessionsLeft(sessions: seq<Session>, ban: set<Pair>): (r: seq<Session>)
    ensures forall s :: s in r <==> s in sessions && s.pair !in ban
  {
    if sessions == [] then []
    else
      var front := SessionsLeft(sessions[..|sessions| - 1], ban);
      var last := sessions[|sessions| - 1];
      if last.pair in ban then front else front + [last]
  }

  ghost function Purged(o: Owners, t: Tables): Tables {
    Tables(
      SessionsLeft(t.sessions, Elems(CustomersOf(o, StoredPairs(t.sessions)))),
      Outside(t.messages, GonePairs(o, t)),
      Outside(t.toolCalls, GonePairs(o, t)),
      Outside(t.holds, GonePairs(o, t)))
  }

  // ---- What that means, pair by pair --------------------------------------------------------------

  function CountOf(rows: seq<Pair>, p: Pair): nat {
    if rows == [] then 0
    else CountOf(rows[..|rows| - 1], p) + if rows[|rows| - 1] == p then 1 else 0
  }

  lemma {:induction false} OutsideCount(rows: seq<Pair>, ban: set<Pair>, p: Pair)
    ensures CountOf(Outside(rows, ban), p) == if p in ban then 0 else CountOf(rows, p)
  {
    if rows != [] {
      OutsideCount(rows[..|rows| - 1], ban, p);
      var front := Outside(rows[..|rows| - 1], ban);
      var last := rows[|rows| - 1];
      assert (front + [last])[..|front|] == front;
    }
  }

  lemma {:induction false} CountsMembers(rows: seq<Pair>, p: Pair)
    ensures CountOf(rows, p) > 0 <==> p in rows
  {
    if rows != [] {
      CountsMembers(rows[..|rows| - 1], p);
      assert rows == rows[..|rows| - 1] + [rows[|rows| - 1]];
    }
  }

  /** What happens to a pair's rows: kept are all rows of a spared pair; of any other no
      message, and its tool calls and handoffs exactly when neither a stored session nor a
      message led the purge to it. */
  ghost predicate PairPurged(t: Tables, u: Tables, p: Pair, spared: bool) {
    var stored := exists x :: Session(p, Some(x)) in t.sessions;
    var found := stored || p in t.messages;
    && CountOf(u.messages, p) == (if spared then CountOf(t.messages, p) else 0)
    && CountOf(u.toolCalls, p) == (if spared || !found then CountOf(t.toolCalls, p) else 0)
    && CountOf(u.holds, p) == (if spared || !found then CountOf(t.holds, p) else 0)
    && (forall id :: Session(p, id) in u.sessions <==> Session(p, id) in t.sessions && (spared || !stored))
  }

  /** The purge is exact, and these it spares: the keys of agents, the keys of owners by
      either source, and every pair of the owners' agent. */
  lemma ExactlyTheCustomers(o: Owners, t: Tables, p: Pair)
    ensures PairPurged(t, Purged(o, t), p,
                       isAgent(p.key) || normal(p.key) in o.appointed || normal(p.key) in o.listed || p.agent == ownerAgent)
    ensures CountOf(Purged(o, t).messages, p) == if Spared(o, p) then CountOf(t.messages, p) else 0
    ensures CountOf(Purged(o, t).toolCalls, p) == if Gone(o, t, p) then 0 else CountOf(t.toolCalls, p)
    ensures CountOf(Purged(o, t).holds, p) == if Gone(o, t, p) then 0 else CountOf(t.holds, p)
    ensures Spared(o, p) ==> !Gone(o, t, p)
    ensures p in StoredPairs(Purged(o, t).sessions) <==> p in StoredPairs(t.sessions) && Spared(o, p)
  {
    var gone := GonePairs(o, t);
    OutsideCount(t.messages, gone, p);
    OutsideCount(t.toolCalls, gone, p);
    OutsideCount(t.holds, gone, p);
    CountsMembers(t.messages, p);
  }

  /** A customer with only a trace left (no stored session, no message) is never reached:
      its tool calls and handoffs outlive every purge. */
  lemma TraceAloneIsKept(o: Owners, t: Tables, p: Pair)
    requires !Spared(o, p) && p !in StoredPairs(t.sessions) && p !in t.messages
    ensures CountOf(Purged(o, t).toolCalls, p) == CountOf(t.toolCalls, p)
    ensures CountOf(Purged(o, t).holds, p) == CountOf(t.holds, p)
  {
    ExactlyTheCustomers(o, t, p);
  }

  /** A second purge finds nothing to remove. */
  lemma PurgeAgainIsNothing(o: Owners, t: Tables)
    ensures GonePairs(o, Purged(o, t)) == {}
    ensures Purged(o, Purged(o, t)) == Purged(o, t)
  {
    var u := Purged(o, t);
    forall p ensures !Gone(o, u, p) {
      ExactlyTheCustomers(o, t, p);
      CountsMembers(u.messages, p);
    }
    assert GonePairs(o, u) == {};
    OutsideNone(u.messages, {});
    OutsideNone(u.toolCalls, {});
    OutsideNone(u.holds, {});
    NothingLeft(u.sessions, Elems(CustomersOf(o, StoredPairs(u.sessions))));
  }

  lemma {:induction false} NothingLeft(sessions: seq<Session>, ban: set<Pair>)
    requires ban == {}
    ensures SessionsLeft(sessions, ban) == sessions
  {
    if sessions != [] {
      NothingLeft(sessions[..|sessions| - 1], ban);
    }
  }

  /** Removing in two passes is removing once. */
  lemma {:induction false} OutsideTwice(rows: seq<Pair>, a: set<Pair>, b: set<Pair>)
    ensures Outside(Outside(rows, a), b) == Outside(rows, a + b)
  {
    if rows != [] {
      OutsideTwice(rows[..|rows| - 1], a, b);
      var front := Outside(rows[..|rows| - 1], a);
      var last := rows[|rows| - 1];
      assert (front + [last])[..|front|] == front;
    }
  }

  lemma {:induction false} SessionsTwice(rows: seq<Session>, a: set<Pair>, b: set<Pair>)
    ensures SessionsLeft(SessionsLeft(rows, a), b) == SessionsLeft(rows, a + b)
  {
    if rows != [] {
      SessionsTwice(rows[..|rows| - 1], a, b);
      var front := SessionsLeft(rows[..|rows| - 1], a);
      var last := rows[|rows| - 1];
      assert (front + [last])[..|front|] == front;
    }
  }

  // ---- The database ----------------------------------------------------------------------------------

  datatype Result = Refused | Result(purged: int, kept: int, keptAgent: int, purgedMessages: int,
                                     purgedToolCalls: int, purgedOrphanPairs: int)

  function AgentsOf(pairs: seq<Pair>): nat {
    if pairs == [] then 0 else AgentsOf(pairs[..|pairs| - 1]) + if isAgent(pairs[|pairs| - 1].key) then 1 else 0
  }

  class Database {
    var sessions: seq<Session>
    var messages: seq<Pair>
    var toolCalls: seq<Pair>
    var holds: seq<Pair>

    ghost function Value(): Tables
      reads this
    {
      Tables(sessions, messages, toolCalls, holds)
    }

    constructor (t: Tables)
      ensures Value() == t
    {
      sessions, messages, toolCalls, holds := t.sessions, t.messages, t.toolCalls, t.holds;
    }

    /** `deleteConversationMessages`, with the number of rows it removed. */
    method DeleteMessages(p: Pair) returns (changes: int)
      modifies this`messages
      ensures messages == Outside(old(messages), {p}) && changes == |old(messages)| - |messages|
      ensures p in old(messages) ==> changes > 0
    {
      ShorterWithout(messages, p);
      var rows := DeleteRows(messages, p);
      changes := |messages| - |rows|;
      messages := rows;
    }

    method DeleteToolCalls(p: Pair) returns (changes: int)
      modifies this`toolCalls
      ensures toolCalls == Outside(old(toolCalls), {p}) && changes == |old(toolCalls)| - |toolCalls|
      ensures changes >= 0
    {
      ShorterWithout(toolCalls, p);
      var rows := DeleteRows(toolCalls, p);
      changes := |toolCalls| - |rows|;
      toolCalls := rows;
    }

    method DeleteHolds(p: Pair)
      modifies this`holds
      ensures holds == Outside(old(holds), {p})
    {
      holds := DeleteRows(holds, p);
    }

    method ClearSession(p: Pair)
      modifies this`sessions
      ensures sessions == SessionsLeft(old(sessions), {p})
    {
      var kept: seq<Session> := [];
      for i := 0 to |sessions|
        invariant sessions == old(sessions)
        invariant kept == SessionsLeft(sessions[..i], {p})
      {
        assert sessions[..i + 1][..i] == sessions[..i];
        if sessions[i].pair != p {
          kept := kept + [sessions[i]];
        }
      }
      assert sessions[..|sessions|] == sessions;
      sessions := kept;
    }

    /** The rows of a pair: words, trace and handoffs. */
    method ForgetRows(p: Pair) returns (words: int, calls: int)
      modifies this`messages, this`toolCalls, this`holds
      ensures IsWithout(old(Value()), {}, {p}, Value())
      ensures words == |old(messages)| - |messages| && calls == |old(toolCalls)| - |toolCalls|
      ensures p in old(messages) ==> words > 0
      ensures calls >= 0
    {
      NothingLeft(sessions, {});
      words := DeleteMessages(p);
      calls := DeleteToolCalls(p);
      DeleteHolds(p);
    }

    /** ... and its session, last. */
    method Forget(p: Pair) returns (words: int, calls: int)
      modifies this
      ensures IsWithout(old(Value()), {p}, {p}, Value())
      ensures words == |old(messages)| - |messages| && calls == |old(toolCalls)| - |toolCalls|
    {
      NothingLeft(sessions, {});
      words, calls := ForgetRows(p);
      ClearSession(p);
    }

    /** The first pass, over the customers among the stored sessions. */
    method PurgeSessions(customers: seq<Pair>) returns (words: int, calls: int)
      modifies this
      ensures IsWithout(old(Value()), Elems(customers), Elems(customers), Value())
      ensures words == |old(messages)| - |messages| && calls == |old(toolCalls)| - |toolCalls|
    {
      words, calls := 0, 0;
      ghost var gone: set<Pair> := {};
      NothingRemoved(Value());
      ghost var start := Value();
      for i := 0 to |customers|
        invariant gone == Elems(customers[..i])
        invariant IsWithout(start, gone, gone, Value())
        invariant words == |old(messages)| - |messages| && calls == |old(toolCalls)| - |toolCalls|
      {
        ghost var now, p := Value(), customers[i];
        var n, m := Forget(customers[i]);
        words, calls := words + n, calls + m;
        Onward(start, gone, gone, now, {p}, {p}, Value());
        ElemsTake(customers, i);
        gone := gone + {p};
      }
      assert customers[..|customers|] == customers;
    }

    /** The second pass, over the pairs that still have messages. */
    method PurgeOrphans(o: Owners, pairs: seq<Pair>) returns (words: int, calls: int, orphans: int)
      requires pairs == FirstSeen(messages)
      modifies this`messages, this`toolCalls, this`holds
      ensures IsWithout(old(Value()), {}, Elems(CustomersOf(o, pairs)), Value())
      ensures words == |old(messages)| - |messages| && calls == |old(toolCalls)| - |toolCalls|
      ensures orphans == |CustomersOf(o, pairs)|
    {
      words, calls, orphans := 0, 0, 0;
      ghost var gone: set<Pair> := {};
      NothingRemoved(Value());
      ghost var start := Value();
      for i := 0 to |pairs|
        invariant gone == Elems(CustomersOf(o, pairs[..i]))
        invariant IsWithout(start, {}, gone, Value())
        invariant words == |old(messages)| - |messages| && calls == |old(toolCalls)| - |toolCalls|
        invariant orphans == |CustomersOf(o, pairs[..i])|
      {
        var p := pairs[i];
        NextOrphan(o, start, pairs, i, gone, Value());
        if isAgent(p.key) { continue; }
        if IsOwnerKey(o, p.key) { continue; }
        if p.agent == ownerAgent { continue; }
        ghost var now := Value();
        var n, m := ForgetRows(p);
        Onward(start, {}, gone, now, {}, {p}, Value());
        if n > 0 || m > 0 {
          orphans := orphans + 1;
        }
        words, calls := words + n, calls + m;
        gone := gone + {p};
      }
      assert pairs[..|pairs|] == pairs;
    }

    /** `purgeCustomerSessions`: refuses when no owner is known; otherwise it leaves what
        the purge must leave and reports exactly what it removed. */
    method PurgeCustomerSessions(o: Owners) returns (r: Result)
      modifies this
      ensures r == Refused <==> !KnowsOwners(o)
      ensures r == Refused <==> o.listed == {} && o.appointed == {}
      ensures r == Refused ==> Value() == old(Value())
      ensures r != Refused ==> Value() == Purged(o, old(Value()))
      ensures r != Refused ==> r.purgedMessages == |old(messages)| - |messages| && r.purgedToolCalls == |old(toolCalls)| - |toolCalls|
      ensures r != Refused ==> var stored := StoredPairs(old(sessions));
        && r.purged == |CustomersOf(o, stored)| && r.keptAgent == AgentsOf(stored)
        && r.purged + r.kept + r.keptAgent == |stored|
      ensures r != Refused ==> Orphans(o, old(Value()), r.purgedOrphanPairs)
    {
      if o.listed == {} && o.appointed == {} {
        return Refused;
      }
      var stored := ListSessions();
      var customers := CustomersOf(o, stored);
      var words, calls := PurgeSessions(customers);
      var pairs := FirstSeen(messages);
      var moreWords, moreCalls, orphans := PurgeOrphans(o, pairs);
      TwoPassesAreOne(o, old(Value()));
      OrphansAre(o, old(Value()));
      return Result(|customers|, |stored| - |customers| - AgentsOf(stored), AgentsOf(stored),
                    words + moreWords, calls + moreCalls, orphans);
    }

    /** `listSessions`: the rows with a session id. */
    method ListSessions() returns (pairs: seq<Pair>)
      ensures pairs == StoredPairs(sessions)
    {
      pairs := [];
      for i := 0 to |sessions|
        invariant pairs == StoredPairs(sessions[..i])
      {
        assert sessions[..i + 1][..i] == sessions[..i];
        if sessions[i].id.Some? {
          pairs := pairs + [sessions[i].pair];
        }
      }
      assert sessions[..|sessions|] == sessions;
    }
  }

  method DeleteRows(rows: seq<Pair>, p: Pair) returns (kept: seq<Pair>)
    ensures kept == Outside(rows, {p})
  {
    kept := [];
    for i := 0 to |rows|
      invariant kept == Outside(rows[..i], {p})
    {
      assert rows[..i + 1][..i] == rows[..i];
      if rows[i] != p {
        kept := kept + [rows[i]];
      }
    }
    assert rows[..|rows|] == rows;
  }

  // ---- The two passes together -----------------------------------------------------------------------

  function WithoutPairs(t: Tables, sessions: set<Pair>, rows: set<Pair>): Tables {
    Tables(SessionsLeft(t.sessions, sessions), Outside(t.messages, rows), Outside(t.toolCalls, rows), Outside(t.holds, rows))
  }

  predicate IsWithout(t: Tables, sessions: set<Pair>, rows: set<Pair>, u: Tables) {
    u == WithoutPairs(t, sessions, rows)
  }

  lemma Onward(t: Tables, s: set<Pair>, r: set<Pair>, u: Tables, s': set<Pair>, r': set<Pair>, v: Tables)
    requires IsWithout(t, s, r, u) && IsWithout(u, s', r', v)
    ensures IsWithout(t, s + s', r + r', v)
  {
    RemovedTwice(t, s, r, s', r');
  }

  lemma NothingRemoved(t: Tables)
    ensures IsWithout(t, {}, {}, t)
  {
    NothingLeft(t.sessions, {});
    OutsideNone(t.messages, {});
    OutsideNone(t.toolCalls, {});
    OutsideNone(t.holds, {});
  }

  lemma RemovedTwice(t: Tables, s: set<Pair>, r: set<Pair>, s': set<Pair>, r': set<Pair>)
    ensures WithoutPairs(WithoutPairs(t, s, r), s', r') == WithoutPairs(t, s + s', r + r')
  {
    SessionsTwice(t.sessions, s, s');
    OutsideTwice(t.messages, r, r');
    OutsideTwice(t.toolCalls, r, r');
    OutsideTwice(t.holds, r, r');
  }

  lemma {:induction false} ShorterWithout(rows: seq<Pair>, p: Pair)
    ensures |Outside(rows, {p})| <= |rows|
    ensures p in rows ==> |Outside(rows, {p})| < |rows|
  {
    if rows != [] {
      ShorterWithout(rows[..|rows| - 1], p);
      assert rows == rows[..|rows| - 1] + [rows[|rows| - 1]];
    }
  }

  lemma NextCustomer(o: Owners, pairs: seq<Pair>, i: nat)
    requires i < |pairs|
    ensures CustomersOf(o, pairs[..i + 1]) == CustomersOf(o, pairs[..i]) + if Spared(o, pairs[i]) then [] else [pairs[i]]
  {
    assert pairs[..i + 1][..i] == pairs[..i];
  }

  /** The next pair of the second pass still has its messages: none comes twice. */
  lemma StillThere(o: Owners, t: Tables, pairs: seq<Pair>, i: nat, now: Tables)
    requires pairs == FirstSeen(t.messages) && i < |pairs| && IsWithout(t, {}, Elems(CustomersOf(o, pairs[..i])), now)
    ensures pairs[i] in now.messages && pairs[i] !in Elems(CustomersOf(o, pairs[..i]))
  {
    FirstSeenNoDup(t.messages);
    assert pairs[i] in pairs && pairs[i] !in pairs[..i];
  }

  /** The next pair of the second pass: a customer's still has its messages. */
  lemma NextOrphan(o: Owners, t: Tables, pairs: seq<Pair>, i: nat, gone: set<Pair>, now: Tables)
    requires pairs == FirstSeen(t.messages) && i < |pairs| && gone == Elems(CustomersOf(o, pairs[..i])) && IsWithout(t, {}, gone, now)
    ensures Elems(CustomersOf(o, pairs[..i + 1])) == if Spared(o, pairs[i]) then gone else gone + {pairs[i]}
    ensures |CustomersOf(o, pairs[..i + 1])| == |CustomersOf(o, pairs[..i])| + if Spared(o, pairs[i]) then 0 else 1
    ensures pairs[i] in now.messages
  {
    StillThere(o, t, pairs, i, now);
    NextCustomer(o, pairs, i);
    ElemsAppend(CustomersOf(o, pairs[..i]), pairs[i]);
    assert CustomersOf(o, pairs[..i]) + [] == CustomersOf(o, pairs[..i]);
  }

  lemma ElemsAppend(rows: seq<Pair>, p: Pair)
    ensures Elems(rows + [p]) == Elems(rows) + {p}
  {
  }

  lemma ElemsTake(rows: seq<Pair>, i: nat)
    requires i < |rows|
    ensures Elems(rows[..i + 1]) == Elems(rows[..i]) + {rows[i]}
  {
    assert rows[..i + 1] == rows[..i] + [rows[i]];
  }

  /** The second pass sees what the first left: together they remove each pair once. */
  lemma TwoPassesAreOne(o: Owners, t: Tables)
    ensures var first := Elems(CustomersOf(o, StoredPairs(t.sessions)));
      var u := WithoutPairs(t, first, first);
      WithoutPairs(u, {}, Elems(CustomersOf(o, FirstSeen(u.messages)))) == Purged(o, t)
  {
    var first := Elems(CustomersOf(o, StoredPairs(t.sessions)));
    var u := WithoutPairs(t, first, first);
    var second := Elems(CustomersOf(o, FirstSeen(u.messages)));
    RemovedTwice(t, first, first, {}, second);
    assert first + {} == first;
    assert first + second == GonePairs(o, t);
  }

  /** The orphan pairs counted: customers with messages and no stored session, each once. */
  ghost predicate Orphans(o: Owners, t: Tables, n: int) {
    exists pairs: seq<Pair> :: NoDup(pairs) && |pairs| == n && OrphanPairs(o, t, pairs)
  }

  ghost predicate OrphanPairs(o: Owners, t: Tables, pairs: seq<Pair>) {
    forall p :: p in pairs <==> !Spared(o, p) && p in t.messages && p !in StoredPairs(t.sessions)
  }

  lemma OrphansAre(o: Owners, t: Tables)
    ensures var first := Elems(CustomersOf(o, StoredPairs(t.sessions)));
      Orphans(o, t, |CustomersOf(o, FirstSeen(Outside(t.messages, first)))|)
  {
    var first := Elems(CustomersOf(o, StoredPairs(t.sessions)));
    var left := FirstSeen(Outside(t.messages, first));
    var pairs := CustomersOf(o, left);
    FirstSeenNoDup(Outside(t.messages, first));
    CustomersNoDup(o, left);
    assert OrphanPairs(o, t, pairs);
  }

  lemma {:induction false} CustomersNoDup(o: Owners, pairs: seq<Pair>)
    requires NoDup(pairs)
    ensures NoDup(CustomersOf(o, pairs))
  {
    if pairs != [] {
      CustomersNoDup(o, pairs[..|pairs| - 1]);
    }
  }
}
