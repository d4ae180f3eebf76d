/** The parking spots of the agent door: one caller per conversation, answered, failed,
    timed out or released, and never in another caller's place. */
module AgentReplies {
  import opened Catalogue
  import opened Inbox

  type Reply(==, !new)
  type Url(==, !new)

  /** One parked call. Tickets are handed out once. */
  datatype Ticket = Ticket(n: int)

  /** How a parked call ended. `answers` are the inbox rows the reply was made for. */
  datatype Outcome = Answered(reply: Reply, answers: seq<RowId>) | TimedOut | TurnFailed

  datatype Spots = Spots(waiters: map<Conversation, Ticket>, outcomes: map<Ticket, Outcome>, next: int)

  function Registered(s: Spots, c: Conversation): Spots {
    if c in s.waiters then s else s.(waiters := s.waiters[c := Ticket(s.next)], next := s.next + 1)
  }

  /** Only the spot that is still the caller's own is freed. */
  function Released(s: Spots, c: Conversation, t: Ticket): Spots {
    if c in s.waiters && s.waiters[c] == t then s.(waiters := s.waiters - {c}) else s
  }

  function Ended(s: Spots, c: Conversation, outcome: Outcome): Spots {
    if c in s.waiters then s.(waiters := s.waiters - {c}, outcomes := s.outcomes[s.waiters[c] := outcome]) else s
  }

  datatype Delivery = ToCaller(t: Ticket) | ToCallback(url: Url) | CallbackFailed | Nowhere

  function DeliveryOf(s: Spots, c: Conversation, replyTo: Maybe<Url>, posted: bool): Delivery {
    if c in s.waiters then ToCaller(s.waiters[c])
    else match replyTo
         case Some(url) => if posted then ToCallback(url) else CallbackFailed
         case None => Nowhere
  }

  class AgentReplies {
    var waiters: map<Conversation, Ticket>
    var outcomes: map<Ticket, Outcome>
    var next: int

    ghost function State(): Spots
      reads this
    {
      Spots(waiters, outcomes, next)
    }

    /** No ticket is parked twice, ended while parked, or handed out again. */
    ghost predicate Valid()
      reads this
    {
      SpotsOk(State())
    }

    constructor ()
      ensures Valid() && waiters == map[]
    {
      waiters, outcomes, next := map[], map[], 0;
    }

    method Register(c: Conversation) returns (t: Maybe<Ticket>)
      requires Valid()
      modifies this
      ensures Valid() && State() == Registered(old(State()), c)
      ensures t.None? <==> c in old(waiters)
      ensures t.None? ==> waiters == old(waiters)
      ensures outcomes == old(outcomes)
      ensures t.Some? ==> waiters == old(waiters)[c := t.value] && t.value !in old(outcomes)
      ensures t.Some? ==> forall d :: d in old(waiters) ==> old(waiters)[d] != t.value
    {
      if c in waiters {
        return None;
      }
      t := Some(Ticket(next));
      waiters := waiters[c := Ticket(next)];
      next := next + 1;
    }

    /** Releasing an old spot never frees a newer one. */
    method Release(c: Conversation, t: Ticket)
      requires Valid()
      modifies this`waiters
      ensures Valid() && State() == Released(old(State()), c, t)
      ensures waiters == if c in old(waiters) && old(waiters)[c] == t then old(waiters) - {c} else old(waiters)
      ensures forall d :: d in old(waiters) && old(waiters)[d] != t ==> d in waiters && waiters[d] == old(waiters)[d]
    {
      if c in waiters && waiters[c] == t {
        waiters := waiters - {c};
      }
    }

    /** A parked caller wins over a callback; the reply reaches the one parked here. */
    method Deliver(c: Conversation, replyTo: Maybe<Url>, reply: Reply, answers: seq<RowId>, posted: bool)
      returns (delivery: Delivery)
      requires Valid()
      modifies this
      ensures Valid() && State() == Ended(old(State()), c, Answered(reply, answers))
      ensures delivery == DeliveryOf(old(State()), c, replyTo, posted)
      ensures delivery.ToCaller? ==> delivery.t in outcomes && outcomes[delivery.t] == Answered(reply, answers)
      ensures c in old(waiters) ==>
        delivery == ToCaller(old(waiters)[c]) && waiters == old(waiters) - {c}
        && outcomes == old(outcomes)[old(waiters)[c] := Answered(reply, answers)]
      ensures c !in old(waiters) ==> waiters == old(waiters) && outcomes == old(outcomes)
      ensures c !in old(waiters) && replyTo.None? ==> delivery == Nowhere
      ensures c !in old(waiters) && replyTo.Some? ==> delivery == if posted then ToCallback(replyTo.value) else CallbackFailed
    {
      if c in waiters {
        var t := waiters[c];
        waiters := waiters - {c};
        outcomes := outcomes[t := Answered(reply, answers)];
        return ToCaller(t);
      }
      match replyTo
      case Some(url) => return if posted then ToCallback(url) else CallbackFailed;
      case None => return Nowhere;
    }

    method Fail(c: Conversation)
      requires Valid()
      modifies this
      ensures Valid() && State() == Ended(old(State()), c, TurnFailed)
      ensures c in old(waiters) ==> waiters == old(waiters) - {c} && outcomes == old(outcomes)[old(waiters)[c] := TurnFailed]
      ensures c !in old(waiters) ==> waiters == old(waiters) && outcomes == old(outcomes)
    {
      if c in waiters {
        var t := waiters[c];
        waiters := waiters - {c};
        outcomes := outcomes[t := TurnFailed];
      }
    }

    /** A timer runs only while its caller is parked: whoever leaves the spot clears it. */
    method TimeOut(c: Conversation, t: Ticket)
      requires Valid() && c in waiters && waiters[c] == t
      modifies this
      ensures Valid() && State() == Ended(old(State()), c, TimedOut)
      ensures waiters == old(waiters) - {c} && outcomes == old(outcomes)[t := TimedOut]
    {
      waiters := waiters - {c};
      outcomes := outcomes[t := TimedOut];
    }
  }

  ghost predicate SpotsOk(s: Spots) {
    && (forall c :: c in s.waiters ==> s.waiters[c].n < s.next && s.waiters[c] !in s.outcomes)
    && (forall c, d :: c in s.waiters && d in s.waiters && c != d ==> s.waiters[c] != s.waiters[d])
    && (forall t :: t in s.outcomes ==> t.n < s.next)
  }
}
