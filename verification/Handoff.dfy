/** Leads and handoffs behind the admin console: taking a lead or writing into a
    conversation silences the agent there, and only some moves give it back. */
module Handoff {
  import opened Catalogue
  import opened Inbox

  type Admin(==, !new)

  /** A conversation is silenced for one agent at a time. */
  datatype Pair = Pair(key: Conversation, agent: Id)

  datatype LeadStatus = New | InProgress | Closed

  /** `key` and `agent` say which conversation a lead came from, when that is known. */
  datatype Lead = Lead(key: Maybe<Conversation>, agent: Maybe<Id>, status: LeadStatus, claimedBy: Maybe<Admin>)

  /** `cause` is the lead whose taking silenced the agent, if one did. */
  datatype Hold = Hold(pair: Pair, cause: Maybe<int>, live: bool)

  /** Lead and handoff rows in the order of their ids; `sessions` holds the pairs with a
      stored session. */
  datatype State = State(leads: seq<Lead>, holds: seq<Hold>, sessions: set<Pair>)

  // ---- Handoff rows -----------------------------------------------------------------------------------

  predicate LiveFor(hold: Hold, p: Pair) {
    hold.live && hold.pair == p
  }

  function LiveCount(holds: seq<Hold>, p: Pair): nat {
    if holds == [] then 0
    else LiveCount(holds[..|holds| - 1], p) + if LiveFor(holds[|holds| - 1], p) then 1 else 0
  }

  /** The oldest live handoff of a pair. */
  function LiveHold(holds: seq<Hold>, p: Pair): (r: Maybe<Hold>)
    ensures r.Some? <==> LiveCount(holds, p) > 0
    ensures r.Some? ==> LiveFor(r.value, p) && r.value in holds
  {
    if holds == [] then None
    else
      var older := LiveHold(holds[..|holds| - 1], p);
      var last := holds[|holds| - 1];
      if older.Some? then older else if LiveFor(last, p) then Some(last) else None
  }

  ghost predicate IsOldestLive(holds: seq<Hold>, p: Pair, i: int) {
    && 0 <= i < |holds| && holds[i].live && holds[i].pair == p
    && forall j :: 0 <= j < i ==> !(holds[j].live && holds[j].pair == p)
  }

  predicate Paused(s: State, p: Pair) {
    LiveHold(s.holds, p).Some?
  }

  function WithHold(holds: seq<Hold>, p: Pair, cause: Maybe<int>): seq<Hold> {
    if LiveHold(holds, p).Some? then holds else holds + [Hold(p, cause, true)]
  }

  function Ended(hold: Hold, p: Pair): Hold {
    if LiveFor(hold, p) then hold.(live := false) else hold
  }

  /** Every live handoff of the pair, ended. */
  function Released(holds: seq<Hold>, p: Pair): seq<Hold> {
    if holds == [] then [] else Released(holds[..|holds| - 1], p) + [Ended(holds[|holds| - 1], p)]
  }

  lemma {:induction false} ReleasedRows(holds: seq<Hold>, p: Pair)
    ensures |Released(holds, p)| == |holds|
    ensures forall i :: 0 <= i < |holds| ==>
      Released(holds, p)[i] == if holds[i].pair == p then holds[i].(live := false) else holds[i]
  {
    if holds != [] {
      ReleasedRows(holds[..|holds| - 1], p);
    }
  }

  /** Every handoff of the pair, gone. */
  function Forgotten(holds: seq<Hold>, p: Pair): seq<Hold> {
    if holds == [] then []
    else
      var rest := Forgotten(holds[..|holds| - 1], p);
      if holds[|holds| - 1].pair == p then rest else rest + [holds[|holds| - 1]]
  }

  lemma {:induction false} ReleasedLive(holds: seq<Hold>, p: Pair, q: Pair)
    ensures LiveCount(Released(holds, p), q) == if q == p then 0 else LiveCount(holds, q)
    ensures LiveHold(Released(holds, p), q) == if q == p then None else LiveHold(holds, q)
  {
    if holds != [] {
      var rest := holds[..|holds| - 1];
      ReleasedLive(rest, p, q);
    }
  }

  lemma {:induction false} ForgottenLive(holds: seq<Hold>, p: Pair, q: Pair)
    ensures LiveCount(Forgotten(holds, p), q) == if q == p then 0 else LiveCount(holds, q)
    ensures LiveHold(Forgotten(holds, p), q) == if q == p then None else LiveHold(holds, q)
  {
    if holds != [] {
      var rest := holds[..|holds| - 1];
      ForgottenLive(rest, p, q);
    }
  }

  lemma WithHoldLive(holds: seq<Hold>, p: Pair, cause: Maybe<int>, q: Pair)
    ensures LiveHold(WithHold(holds, p, cause), q) ==
      if q == p && LiveHold(holds, q).None? then Some(Hold(p, cause, true)) else LiveHold(holds, q)
    ensures LiveCount(holds, q) <= LiveCount(WithHold(holds, p, cause), q)
    ensures LiveCount(WithHold(holds, p, cause), q) <= 1 || LiveCount(WithHold(holds, p, cause), q) == LiveCount(holds, q)
  {
  }

  // ---- Leads ----------------------------------------------------------------------------------------------

  /** The conversation a lead can act on: none without a provenance, and none for a key of
      the agent door, which has no person behind it. */
  function TargetOf(lead: Lead): Maybe<Pair> {
    if lead.key.Some? && lead.agent.Some? && !isAgent(lead.key.value) then Some(Pair(lead.key.value, lead.agent.value))
    else None
  }

  /** A human holds lead `j`, which came from pair `p`. */
  predicate HoldsLead(leads: seq<Lead>, j: int, p: Pair) {
    0 <= j < |leads| && leads[j].status == InProgress && leads[j].key == Some(p.key) && leads[j].agent == Some(p.agent)
  }

  /** How many of the first `n` leads of the pair are held, not counting lead `but`. */
  function OthersHolding(leads: seq<Lead>, n: nat, p: Pair, but: int): (r: nat)
    requires n <= |leads|
    ensures r == 0 <==> forall j :: j < n && j != but ==> !HoldsLead(leads, j, p)
  {
    if n == 0 then 0
    else OthersHolding(leads, n - 1, p, but) + if HoldsLead(leads, n - 1, p) && n - 1 != but then 1 else 0
  }

  function WithStatus(lead: Lead, status: LeadStatus, who: Admin): Lead {
    lead.(status := status, claimedBy := if status == New then None else Some(who))
  }

  // ---- The routes -----------------------------------------------------------------------------------------

  datatype Step =
    | Pause(p: Pair)
    | Release(p: Pair)
    | Message(p: Pair)
    | MoveLead(id: int, status: LeadStatus, who: Admin)
    | Capture(key: Maybe<Conversation>, agent: Maybe<Id>)
    | TurnEnds(p: Pair)
    | SessionLost(p: Pair)
    | Purge(p: Pair)

  /** Whether moving lead `id` to `status` hands its conversation back: the lead was held
      and is new again, a lead silenced the agent, and no other lead of the pair is held. */
  predicate HandsBack(s: State, id: int, status: LeadStatus, p: Pair) {
    && 0 <= id < |s.leads| && TargetOf(s.leads[id]) == Some(p)
    && s.leads[id].status == InProgress && status == New
    && LiveHold(s.holds, p).Some? && LiveHold(s.holds, p).value.cause.Some?
    && OthersHolding(s.leads, |s.leads|, p, id) == 0
  }

  function LeadMoved(s: State, id: int, status: LeadStatus, who: Admin): State {
    if !(0 <= id < |s.leads|) then s
    else
      var leads := s.leads[id := WithStatus(s.leads[id], status, who)];
      match TargetOf(s.leads[id])
      case None => s.(leads := leads)
      case Some(p) =>
        if status == InProgress then s.(leads := leads, holds := WithHold(s.holds, p, Some(id)))
        else if HandsBack(s, id, status, p) then State(leads, Released(s.holds, p), s.sessions - {p})
        else s.(leads := leads)
  }

  function After(s: State, step: Step): State {
    match step
    case Pause(p) => s.(holds := WithHold(s.holds, p, None))
    case Release(p) =>
      s.(holds := Released(s.holds, p), sessions := if LiveCount(s.holds, p) > 0 then s.sessions - {p} else s.sessions)
    case Message(p) => if isAgent(p.key) then s else s.(holds := WithHold(s.holds, p, None))
    case MoveLead(id, status, who) => LeadMoved(s, id, status, who)
    case Capture(key, agent) => s.(leads := s.leads + [Lead(key, agent, New, None)])
    case TurnEnds(p) => s.(sessions := s.sessions + {p})
    case SessionLost(p) => s.(sessions := s.sessions - {p})
    case Purge(p) => s.(holds := Forgotten(s.holds, p), sessions := s.sessions - {p})
  }

  const Empty: State := State([], [], {})

  // ---- What every step keeps -----------------------------------------------------------------------------

  ghost predicate OneLive(s: State) {
    forall p :: LiveCount(s.holds, p) <= 1
  }

  /** Every step but those that end or forget handoffs leaves the live ones in place. */
  lemma StepHolds(s: State, step: Step, q: Pair)
    requires !(step.MoveLead? && HandsBack(s, step.id, step.status, q)) && step != Release(q) && step != Step.Purge(q)
    ensures LiveHold(s.holds, q).Some? ==> LiveHold(After(s, step).holds, q) == LiveHold(s.holds, q)
  {
    match step
    case Pause(p) => WithHoldLive(s.holds, p, None, q);
    case Release(p) => ReleasedLive(s.holds, p, q);
    case Message(p) => WithHoldLive(s.holds, p, None, q);
    case MoveLead(id, status, who) => MoveHolds(s, id, status, who, q);
    case Purge(p) => ForgottenLive(s.holds, p, q);
    case _ =>
  }

  lemma MoveHolds(s: State, id: int, status: LeadStatus, who: Admin, q: Pair)
    requires !HandsBack(s, id, status, q)
    ensures LiveHold(s.holds, q).Some? ==> LiveHold(LeadMoved(s, id, status, who).holds, q) == LiveHold(s.holds, q)
  {
    if 0 <= id < |s.leads| && TargetOf(s.leads[id]).Some? {
      var p := TargetOf(s.leads[id]).value;
      WithHoldLive(s.holds, p, Some(id), q);
      ReleasedLive(s.holds, p, q);
    }
  }

  /** One live handoff: no step leaves two live for one conversation and agent. */
  lemma StepKeepsOneLive(s: State, step: Step)
    requires OneLive(s)
    ensures OneLive(After(s, step))
  {
    forall q ensures LiveCount(After(s, step).holds, q) <= 1 {
      assert LiveCount(s.holds, q) <= 1;
      match step
      case Pause(p) => WithHoldLive(s.holds, p, None, q);
      case Release(p) => ReleasedLive(s.holds, p, q);
      case Message(p) => WithHoldLive(s.holds, p, None, q);
      case MoveLead(id, status, who) =>
        if 0 <= id < |s.leads| && TargetOf(s.leads[id]).Some? {
          var p := TargetOf(s.leads[id]).value;
          WithHoldLive(s.holds, p, Some(id), q);
          ReleasedLive(s.holds, p, q);
        }
      case Purge(p) => ForgottenLive(s.holds, p, q);
      case _ =>
    }
  }

  /** The lead came from the pair and a human holds it. */
  predicate HeldFrom(lead: Lead, p: Pair) {
    lead.status == InProgress && lead.key == Some(p.key) && lead.agent == Some(p.agent)
  }

  /** Lead `id` was the only held one of the pair, is new again, and some lead's taking
      silenced the agent. */
  ghost predicate LastHeldReturned(s: State, step: Step, p: Pair) {
    && step.MoveLead? && step.status == New && 0 <= step.id < |s.leads| && !isAgent(p.key)
    && HeldFrom(s.leads[step.id], p) && (forall j :: 0 <= j < |s.leads| && j != step.id ==> !HeldFrom(s.leads[j], p))
    && Paused(s, p) && LiveHold(s.holds, p).value.cause != None
  }

  lemma ReturnsExactly(s: State, step: Step, p: Pair)
    ensures LastHeldReturned(s, step, p) <==> step.MoveLead? && HandsBack(s, step.id, step.status, p)
  {
    if step.MoveLead? {
      assert forall j :: HoldsLead(s.leads, j, p) <==> 0 <= j < |s.leads| && HeldFrom(s.leads[j], p);
    }
  }

  /** What unpauses, exactly: the release route, the purge, and a hand-back of the last
      held lead of a conversation that a lead silenced. */
  lemma UnpausedExactly(s: State, step: Step, p: Pair)
    requires Paused(s, p)
    ensures !Paused(After(s, step), p) <==>
      step == Release(p) || step == Step.Purge(p) || LastHeldReturned(s, step, p)
  {
    ReturnsExactly(s, step, p);
    if step == Release(p) {
      ReleasedLive(s.holds, p, p);
    } else if step == Step.Purge(p) {
      ForgottenLive(s.holds, p, p);
    } else if step.MoveLead? && HandsBack(s, step.id, step.status, p) {
      ReleasedLive(s.holds, p, p);
    } else {
      StepHolds(s, step, p);
    }
  }

  /** The step takes a lead of the pair, which has a person behind it. */
  predicate Takes(s: State, step: Step, p: Pair) {
    && step.MoveLead? && step.status == InProgress && 0 <= step.id < |s.leads| && !isAgent(p.key)
    && s.leads[step.id].key == Some(p.key) && s.leads[step.id].agent == Some(p.agent)
  }

  lemma MovePauses(s: State, id: int, status: LeadStatus, who: Admin, p: Pair)
    requires LiveHold(s.holds, p).None?
    ensures var taken := Takes(s, MoveLead(id, status, who), p);
      LiveHold(LeadMoved(s, id, status, who).holds, p) == if taken then Some(Hold(p, Some(id), true)) else None
  {
    if 0 <= id < |s.leads| && TargetOf(s.leads[id]).Some? {
      WithHoldLive(s.holds, TargetOf(s.leads[id]).value, Some(id), p);
      ReleasedLive(s.holds, TargetOf(s.leads[id]).value, p);
    }
  }

  /** What pauses, exactly, and what is noted as the cause: the pause route, a message an
      admin writes to a person, and the taking of a lead, which alone is a cause. */
  lemma PausedExactly(s: State, step: Step, p: Pair)
    requires !Paused(s, p)
    ensures Paused(After(s, step), p) <==>
      step == Pause(p) || (step == Message(p) && !isAgent(p.key)) || Takes(s, step, p)
    ensures Paused(After(s, step), p) ==>
      LiveHold(After(s, step).holds, p) == Some(Hold(p, if Takes(s, step, p) then Some(step.id) else None, true))
  {
    match step
    case Pause(q) => WithHoldLive(s.holds, q, None, p);
    case Message(q) => WithHoldLive(s.holds, q, None, p);
    case Release(q) => ReleasedLive(s.holds, q, p);
    case Purge(q) => ForgottenLive(s.holds, q, p);
    case MoveLead(id, status, who) => MovePauses(s, id, status, who, p);
    case _ =>
  }

  /** A conversation is paused while a live handoff of it is in the table. */
  lemma {:induction false} PausedMeans(holds: seq<Hold>, p: Pair)
    ensures LiveHold(holds, p).Some? <==> exists i :: 0 <= i < |holds| && holds[i].live && holds[i].pair == p
  {
    if holds != [] {
      PausedMeans(holds[..|holds| - 1], p);
      assert LiveFor(holds[|holds| - 1], p) <==> holds[|holds| - 1].live && holds[|holds| - 1].pair == p;
    }
  }

  /** A stored session appears when a turn ends and goes when it is lost, purged, or its
      conversation given back, and at no other step. */
  lemma SessionsExactly(s: State, step: Step, p: Pair)
    ensures p in After(s, step).sessions <==>
      step == TurnEnds(p)
      || (p in s.sessions && step != SessionLost(p) && step != Step.Purge(p) && !(Paused(s, p) && !Paused(After(s, step), p)))
  {
    if Paused(s, p) {
      UnpausedExactly(s, step, p);
      ReturnsExactly(s, step, p);
    } else if step.Release? && step.p == p {
      IdleReleaseKeepsSession(s, p);
    }
  }

  /** A move changes its lead's status and who claims it: nobody when it is new again, the
      admin who moved it otherwise. A capture adds a new lead. Nothing else touches leads. */
  lemma LeadsExactly(s: State, step: Step)
    ensures var t := After(s, step);
      && (step.Capture? ==>
            t.leads == s.leads + [Lead(step.key, step.agent, New, None)])
      && (!step.Capture? ==> |t.leads| == |s.leads|)
      && (forall j :: 0 <= j < |s.leads| && !(step.MoveLead? && step.id == j) ==> t.leads[j] == s.leads[j])
      && (step.MoveLead? && 0 <= step.id < |s.leads| ==>
            t.leads[step.id] == Lead(s.leads[step.id].key, s.leads[step.id].agent, step.status,
                                     if step.status == New then None else Some(step.who)))
  {
  }

  /** A pause no lead caused ends only by the release route or the purge, and stays the
      same pause until then. */
  lemma ManualPauseStays(s: State, step: Step, p: Pair)
    requires Paused(s, p) && LiveHold(s.holds, p).value.cause == None && step != Release(p) && step != Step.Purge(p)
    ensures LiveHold(After(s, step).holds, p) == LiveHold(s.holds, p)
  {
    StepHolds(s, step, p);
  }

  /** A hand-back never unpauses a conversation another held lead came from. */
  lemma HandBackSparesOthers(s: State, id: int, status: LeadStatus, who: Admin, p: Pair, other: int)
    requires Paused(s, p) && other != id && HoldsLead(s.leads, other, p)
    ensures LiveHold(After(s, MoveLead(id, status, who)).holds, p) == LiveHold(s.holds, p)
  {
    StepHolds(s, MoveLead(id, status, who), p);
  }

  /** Whatever gives a conversation back also drops its stored session. */
  lemma UnpausedWithoutSession(s: State, step: Step, p: Pair)
    requires Paused(s, p) && !Paused(After(s, step), p)
    ensures p !in After(s, step).sessions
  {
    UnpausedExactly(s, step, p);
    ReturnsExactly(s, step, p);
  }

  /** A release of what is not paused drops no session and ends no handoff. */
  lemma IdleReleaseKeepsSession(s: State, p: Pair)
    requires !Paused(s, p)
    ensures After(s, Release(p)).sessions == s.sessions
    ensures forall q :: LiveHold(After(s, Release(p)).holds, q) == LiveHold(s.holds, q)
  {
    forall q ensures LiveHold(After(s, Release(p)).holds, q) == LiveHold(s.holds, q) {
      ReleasedLive(s.holds, p, q);
    }
  }

  // ---- Held leads -----------------------------------------------------------------------------------------

  /** While a human holds a lead of a person's conversation, the agent is silent there. */
  ghost predicate HeldIsPaused(s: State, p: Pair) {
    !isAgent(p.key) && (exists j :: HoldsLead(s.leads, j, p)) ==> Paused(s, p)
  }

  lemma StepKeepsHeldPaused(s: State, step: Step, p: Pair)
    requires HeldIsPaused(s, p) && step != Release(p) && step != Step.Purge(p)
    ensures HeldIsPaused(After(s, step), p)
  {
    var t := After(s, step);
    forall j | !isAgent(p.key) && HoldsLead(t.leads, j, p) ensures Paused(t, p) {
      if step.MoveLead? && step.id == j && step.status == InProgress {
        WithHoldLive(s.holds, p, Some(j), p);
      } else {
        assert HoldsLead(s.leads, j, p);
        StepHolds(s, step, p);
      }
    }
  }

  ghost predicate Next(s: State, step: Step, t: State) {
    t == After(s, step)
  }

  ghost predicate Run(states: seq<State>, steps: seq<Step>) {
    && |states| == |steps| + 1
    && forall k :: 0 <= k < |steps| ==> Next(states[k], steps[k], states[k + 1])
  }

  /** One live handoff in every reachable state. */
  lemma {:induction false} AlwaysOneLive(states: seq<State>, steps: seq<Step>, i: nat)
    requires Run(states, steps) && states[0] == Empty && i <= |steps|
    ensures OneLive(states[i])
  {
    if i > 0 {
      AlwaysOneLive(states, steps, i - 1);
      assert Next(states[i - 1], steps[i - 1], states[i]);
      StepKeepsOneLive(states[i - 1], steps[i - 1]);
    }
  }

  /** Held means silent: over every run in which nobody releases or purges the pair, a
      person's conversation with a lead in progress is paused. */
  lemma {:induction false} HeldStaysPaused(states: seq<State>, steps: seq<Step>, i: nat, p: Pair)
    requires Run(states, steps) && HeldIsPaused(states[0], p) && i <= |steps|
    requires forall k :: 0 <= k < i ==> steps[k] != Release(p) && steps[k] != Step.Purge(p)
    ensures HeldIsPaused(states[i], p)
  {
    if i > 0 {
      HeldStaysPaused(states, steps, i - 1, p);
      assert Next(states[i - 1], steps[i - 1], states[i]);
      StepKeepsHeldPaused(states[i - 1], steps[i - 1], p);
    }
  }

  /** Manual means manual: over every run in which nobody releases or purges the pair, a
      pause no lead caused stays, cause and all, whatever happens to leads meanwhile. */
  lemma {:induction false} ManualPauseLasts(states: seq<State>, steps: seq<Step>, i: nat, p: Pair)
    requires Run(states, steps) && i <= |steps|
    requires Paused(states[0], p) && LiveHold(states[0].holds, p).value.cause == None
    requires forall k :: 0 <= k < i ==> steps[k] != Release(p) && steps[k] != Step.Purge(p)
    ensures LiveHold(states[i].holds, p) == LiveHold(states[0].holds, p)
  {
    if i > 0 {
      ManualPauseLasts(states, steps, i - 1, p);
      assert Next(states[i - 1], steps[i - 1], states[i]);
      ManualPauseStays(states[i - 1], steps[i - 1], p);
    }
  }

  /** Releasing by hand breaks the tie: a lead can then be in progress while its agent
      answers. */
  lemma ReleaseUnderAHeldLead(p: Pair, who: Admin)
    requires !isAgent(p.key)
    ensures var s := After(After(After(Empty, Capture(Some(p.key), Some(p.agent))), MoveLead(0, InProgress, who)), Release(p));
      HoldsLead(s.leads, 0, p) && !Paused(s, p)
  {
    var s := After(After(Empty, Capture(Some(p.key), Some(p.agent))), MoveLead(0, InProgress, who));
    assert HoldsLead(s.leads, 0, p);
    ReleasedLive(s.holds, p, p);
  }

  // ---- The class -------------------------------------------------------------------------------------

  datatype Because = NoReason | Manual | OtherLeads
  datatype Answer = NotFound | NotAPerson | SendFailed | Moved(paused: bool, released: bool, because: Because)

  /** A message an admin wrote into a conversation, as it is recorded. */
  datatype Sent = Sent(pair: Pair, body: Text, author: Admin)

  class Console {
    var leads: seq<Lead>
    var holds: seq<Hold>
    var sessions: set<Pair>
    var sent: seq<Sent>

    ghost function Value(): State
      reads this
    {
      State(leads, holds, sessions)
    }

    constructor ()
      ensures Value() == Empty && sent == []
    {
      leads, holds, sessions, sent := [], [], {}, [];
    }

    /** `getLiveHandoff`: the oldest live row of the pair. */
    method GetLiveHold(p: Pair) returns (r: Maybe<Hold>)
      ensures r == LiveHold(holds, p)
      ensures r.None? ==> forall i :: 0 <= i < |holds| ==> !(holds[i].live && holds[i].pair == p)
      ensures r.Some? ==> exists i :: IsOldestLive(holds, p, i) && holds[i] == r.value
    {
      r := None;
      for i := 0 to |holds|
        invariant r == LiveHold(holds[..i], p)
        invariant r.None? ==> forall j :: 0 <= j < i ==> !(holds[j].live && holds[j].pair == p)
        invariant r.Some? ==> exists j :: 0 <= j < i && IsOldestLive(holds, p, j) && holds[j] == r.value
      {
        assert holds[..i + 1][..i] == holds[..i];
        if r.None? && LiveFor(holds[i], p) {
          assert IsOldestLive(holds, p, i);
          r := Some(holds[i]);
        }
      }
      assert holds[..|holds|] == holds;
    }

    /** `pauseConversation`: idempotent; the cause is kept by the call that pauses. */
    method PauseConversation(p: Pair, cause: Maybe<int>)
      modifies this`holds
      ensures holds == WithHold(old(holds), p, cause)
    {
      var live := GetLiveHold(p);
      if live.None? {
        holds := holds + [Hold(p, cause, true)];
      }
    }

    /** `releaseConversation`: ends every live row of the pair and counts them. */
    method ReleaseConversation(p: Pair) returns (closed: nat)
      modifies this`holds
      ensures holds == Released(old(holds), p) && closed == LiveCount(old(holds), p)
    {
      var ended: seq<Hold> := [];
      closed := 0;
      for i := 0 to |holds|
        invariant holds == old(holds)
        invariant ended == Released(holds[..i], p) && closed == LiveCount(holds[..i], p)
      {
        assert holds[..i + 1][..i] == holds[..i];
        if LiveFor(holds[i], p) {
          closed := closed + 1;
        }
        ended := ended + [Ended(holds[i], p)];
      }
      assert holds[..|holds|] == holds;
      holds := ended;
    }

    /** `countLeadsHolding`. */
    method CountLeadsHolding(p: Pair, but: int) returns (n: nat)
      ensures n == OthersHolding(leads, |leads|, p, but)
    {
      n := 0;
      for i := 0 to |leads|
        invariant n == OthersHolding(leads, i, p, but)
      {
        if HoldsLead(leads, i, p) && i != but {
          n := n + 1;
        }
      }
    }

    /** The pause route. */
    method PauseRoute(p: Pair)
      modifies this`holds
      ensures Value() == After(old(Value()), Pause(p)) && Paused(Value(), p)
      ensures holds == if Paused(old(Value()), p) then old(holds) else old(holds) + [Hold(p, None, true)]
    {
      PauseConversation(p, None);
      WithHoldLive(old(holds), p, None, p);
    }

    /** The release route: the session goes only when something was released. */
    method ReleaseRoute(p: Pair) returns (closed: nat)
      modifies this`holds, this`sessions
      ensures Value() == After(old(Value()), Release(p)) && !Paused(Value(), p)
      ensures closed > 0 <==> Paused(old(Value()), p)
      ensures leads == old(leads) && sessions == if closed > 0 then old(sessions) - {p} else old(sessions)
      ensures |holds| == |old(holds)| && forall i :: 0 <= i < |holds| ==>
        holds[i] == if old(holds)[i].pair == p then old(holds)[i].(live := false) else old(holds)[i]
    {
      closed := ReleaseConversation(p);
      if closed > 0 {
        sessions := sessions - {p};
      }
      ReleasedLive(old(holds), p, p);
      ReleasedRows(old(holds), p);
    }

    /** The message route: pauses before it sends, stays paused when sending fails, and
        records exactly what was sent. */
    method MessageRoute(p: Pair, body: Text, who: Admin, sendOk: bool) returns (answer: Answer)
      modifies this`holds, this`sent
      ensures Value() == After(old(Value()), Message(p))
      ensures sent == old(sent) + if sendOk && answer != NotAPerson then [Sent(p, body, who)] else []
      ensures answer == NotAPerson <==> isAgent(p.key)
      ensures answer != NotAPerson ==> Paused(Value(), p) && (answer == SendFailed <==> !sendOk)
    {
      if isAgent(p.key) {
        return NotAPerson;
      }
      var live := GetLiveHold(p);
      if live.None? {
        PauseConversation(p, None);
      }
      WithHoldLive(old(holds), p, None, p);
      if !sendOk {
        return SendFailed;
      }
      sent := sent + [Sent(p, body, who)];
      return Moved(true, false, NoReason);
    }

    /** The lead-status route. What it answers is what it did: whether the lead's
        conversation is paused now, and whether this call released it. */
    method LeadStatusRoute(id: int, status: LeadStatus, who: Admin) returns (answer: Answer)
      modifies this`leads, this`holds, this`sessions
      ensures Value() == After(old(Value()), MoveLead(id, status, who))
      ensures answer == NotFound <==> !(0 <= id < |old(leads)|)
      ensures answer != NotFound ==> answer.Moved? && Told(old(Value()), Value(), id, status, answer)
      ensures answer == NotFound ==> Value() == old(Value())
      ensures answer != NotFound ==>
        leads == old(leads)[id := old(leads)[id].(status := status, claimedBy := if status == New then None else Some(who))]
    {
      if !(0 <= id < |leads|) {
        return NotFound;
      }
      var before := leads[id];
      leads := leads[id := WithStatus(before, status, who)];
      var target := TargetOf(before);
      if target.None? {
        return Moved(false, false, NoReason);
      }
      var p := target.value;
      var live := GetLiveHold(p);
      OthersUnmoved(old(leads), |leads|, id, WithStatus(before, status, who), p);
      if status == InProgress {
        PauseConversation(p, Some(id));
        WithHoldLive(old(holds), p, Some(id), p);
        return Moved(true, false, NoReason);
      } else if before.status == InProgress && status == New {
        var others := CountLeadsHolding(p, id);
        if live.None? {
          return Moved(false, false, NoReason);
        } else if live.value.cause.None? {
          return Moved(true, false, Manual);
        } else if others > 0 {
          return Moved(true, false, OtherLeads);
        }
        var closed := ReleaseConversation(p);
        ReleasedLive(old(holds), p, p);
        sessions := sessions - {p};
        return Moved(false, true, NoReason);
      }
      return Moved(live.Some?, false, NoReason);
    }
  }

  /** The answer of the lead-status route against the states before and after. */
  predicate Told(s: State, t: State, id: int, status: LeadStatus, answer: Answer)
    requires 0 <= id < |s.leads| && answer.Moved?
  {
    match TargetOf(s.leads[id])
    case None => !answer.paused && !answer.released
    case Some(p) =>
      var handBack := s.leads[id].status == InProgress && status == New && Paused(s, p);
      var manual := handBack && LiveHold(s.holds, p).value.cause == None;
      && answer.paused == Paused(t, p)
      && answer.released == (Paused(s, p) && !Paused(t, p))
      && (answer.because == Manual <==> manual)
      && (answer.because == OtherLeads <==> handBack && !manual && OthersHolding(s.leads, |s.leads|, p, id) > 0)
  }

  /** Moving lead `id` does not change which other leads are held. */
  lemma {:induction false} OthersUnmoved(leads: seq<Lead>, n: nat, id: nat, lead: Lead, p: Pair)
    requires n <= |leads| && id < |leads|
    ensures OthersHolding(leads[id := lead], n, p, id) == OthersHolding(leads, n, p, id)
  {
    if n > 0 {
      OthersUnmoved(leads, n - 1, id, lead, p);
    }
  }
}
