/**
 src/orchestrator/concurrency.ts and the accept, result and scoped-completion
 handlers of src/orchestrator/connection-handler.ts, put together with the daemon's
 job executor over a connection that delivers messages in order.

 The connection does not drop, storage calls succeed, accepts come from the daemon
 that was offered the job, and every offer has its own execution row.
 */
module Slots {
  import opened Basics
  import E = JobExecutor

  type OfferId = E.OfferId

  /** Where a claimed offer is, from the orchestrator's side. */
  datatype Phase =
    | Accepting   // in handleAccept, the payload not sent
    | Failing     // an accept error path: the row is failed, the slot not yet released
    | Sent        // job:payload sent
    | Handling    // its terminal message is being handled, the slot not yet released
    | Released

  datatype State = State(
    activeCount: nat,
    pending: set<OfferId>,           // pendingOffers
    phases: map<OfferId, Phase>,     // claimed offers
    terminal: set<OfferId>,          // rows that are completed or failed
    daemon: E.State,
    delivered: nat)                  // daemon messages received so far

  datatype Event =
    | Offer(o: OfferId)
    | Withdraw(o: OfferId)           // rejected or timed out
    | Accept(o: OfferId)
    | AcceptError(o: OfferId)
    | SendPayload(o: OfferId)
    | Daemon(e: E.Event)
    | Receive
    | ReleaseSlot(o: OfferId)        // the decrement of whichever handler is running
    | Finalize(o: OfferId)           // the terminal write that follows it

  const Init := State(0, {}, map[], {}, E.Init, 0)

  /** decrementActiveCount, clamped at zero. */
  function Decremented(count: nat): nat {
    if count > 0 then count - 1 else 0
  }

  function OnAccept(s: State, o: OfferId): State {
    if o !in s.pending then s
    else s.(pending := s.pending - {o}, activeCount := s.activeCount + 1, phases := s.phases[o := Accepting])
  }

  /** A result is handled at once; a scoped completion only if the row is still
      running. Either way the daemon owns the row. */
  function OnReceive(s: State): State
    requires s.delivered < |s.daemon.sent|
  {
    var m := s.daemon.sent[s.delivered];
    var s' := s.(delivered := s.delivered + 1);
    if !E.IsTerminal(m) || (m.Completion? && m.offer in s.terminal) then s'
    else s'.(phases := s.phases[m.offer := Handling], pending := if m.JobResult? then s.pending - {m.offer} else s.pending)
  }

  predicate Enabled(s: State, e: Event) {
    match e
    case Offer(o) => o !in s.phases && o !in s.pending
    case Withdraw(o) => o in s.pending
    case Accept(_) => true
    case AcceptError(o) => o in s.phases && s.phases[o].Accepting?
    case SendPayload(o) => o in s.phases && s.phases[o].Accepting?
    case Daemon(e) =>
      && E.Enabled(s.daemon, e)
      && (e.Execute? ==> e.offer in s.phases && s.phases[e.offer].Sent?)
    case Receive => s.delivered < |s.daemon.sent|
    case ReleaseSlot(o) => o in s.phases && s.phases[o] in {Failing, Handling}
    case Finalize(o) => o in s.phases && s.phases[o].Released?
  }

  function Next(s: State, e: Event): State
    requires Enabled(s, e)
  {
    match e
    case Offer(o) => s.(pending := s.pending + {o})
    case Withdraw(o) => s.(pending := s.pending - {o})
    case Accept(o) => OnAccept(s, o)
    case AcceptError(o) => s.(phases := s.phases[o := Failing], terminal := s.terminal + {o})
    case SendPayload(o) => s.(phases := s.phases[o := Sent])
    case Daemon(e) => s.(daemon := E.Next(s.daemon, e))
    case Receive => OnReceive(s)
    case ReleaseSlot(o) => s.(phases := s.phases[o := Released], activeCount := Decremented(s.activeCount))
    case Finalize(o) => s.(terminal := s.terminal + {o})
  }

  /** The terminal message, if any, that a `Receive` hands to its handler: a result
      always, a scoped completion only while the row is still running. */
  function Heard(s: State): Option<E.Message>
    requires s.delivered < |s.daemon.sent|
  {
    match s.daemon.sent[s.delivered]
    case JobResult(_, _, _, _) => Some(s.daemon.sent[s.delivered])
    case Completion(o, _, _, _) => if o in s.terminal then None else Some(s.daemon.sent[s.delivered])
    case Status(_, _) => None
  }

  /** Who writes what. An offer is pending from being made to being withdrawn,
      accepted or answered by a result; the count goes up with an accepted offer and
      down with a released slot; a row ends with a failed accept or the handler's
      terminal write. */
  lemma StepWrites(s: State, e: Event)
    requires Enabled(s, e)
    ensures Next(s, e).pending ==
      match e
      case Offer(o) => s.pending + {o}
      case Withdraw(o) => s.pending - {o}
      case Accept(o) => s.pending - {o}
      case Receive => if Heard(s).Some? && Heard(s).value.JobResult? then s.pending - {Heard(s).value.offer} else s.pending
      case _ => s.pending
    ensures Next(s, e).activeCount ==
      match e
      case Accept(o) => if o in s.pending then s.activeCount + 1 else s.activeCount
      case ReleaseSlot(_) => if s.activeCount == 0 then 0 else s.activeCount - 1
      case _ => s.activeCount
    ensures Next(s, e).terminal ==
      match e
      case AcceptError(o) => s.terminal + {o}
      case Finalize(o) => s.terminal + {o}
      case _ => s.terminal
    ensures Next(s, e).delivered == (if e.Receive? then s.delivered + 1 else s.delivered)
  {
    hide E.Next;
  }

  /** Where each step leaves its offer, every other staying where it was. */
  lemma StepPhases(s: State, e: Event)
    requires Enabled(s, e)
    ensures Next(s, e).phases ==
      match e
      case Accept(o) => if o in s.pending then s.phases[o := Accepting] else s.phases
      case AcceptError(o) => s.phases[o := Failing]
      case SendPayload(o) => s.phases[o := Sent]
      case Receive => if Heard(s).Some? then s.phases[Heard(s).value.offer := Handling] else s.phases
      case ReleaseSlot(o) => s.phases[o := Released]
      case _ => s.phases
  {
    hide E.Next;
  }

  function Run(events: seq<Event>): Option<State> {
    if events == [] then Some(Init)
    else
      match Run(events[..|events| - 1])
      case None => None
      case Some(s) =>
        var e := events[|events| - 1];
        if Enabled(s, e) then Some(Next(s, e)) else None
  }

  // ---------------------------------------------------------------------
  // Conservation

  /** Claimed offers whose terminal event has not yet released their slot. */
  function Open(s: State): set<OfferId> {
    set o | o in s.phases && !s.phases[o].Released?
  }

  function Received(s: State): (ms: seq<E.Message>)
    requires s.delivered <= |s.daemon.sent|
  {
    s.daemon.sent[..s.delivered]
  }

  /** How an offer's phase, its run at the daemon and the messages received fit
      together. */
  ghost predicate Fits(s: State, o: OfferId)
    requires s.delivered <= |s.daemon.sent|
  {
    && (o in s.daemon.executions ==> o in s.phases && !s.phases[o].Accepting? && !s.phases[o].Failing?)
    && (o in s.phases && s.phases[o] in {Accepting, Sent} ==> E.Terminals(Received(s), o) == 0 && o !in s.terminal)
    && (o !in s.phases ==> E.Terminals(Received(s), o) == 0 && o !in s.terminal)
    && (o in s.phases && s.phases[o].Handling? ==> E.Terminals(Received(s), o) == 1 && o !in s.terminal)
    && (o in s.daemon.executions && s.phases[o].Released? ==> E.Terminals(Received(s), o) == 1)
  }

  ghost predicate Inv(s: State) {
    && E.Inv(s.daemon)
    && s.delivered <= |s.daemon.sent|
    && (forall o: OfferId :: Fits(s, o))
    && (forall o | o in s.pending :: o !in s.phases)
    && s.activeCount == |Open(s)|
  }

  /** The daemon only adds to what it sent, and to what it ran only by executing. */
  lemma DaemonExtends(d: E.State, e: E.Event)
    requires E.Enabled(d, e)
    ensures d.sent <= E.Next(d, e).sent
    ensures E.Next(d, e).executions.Keys == d.executions.Keys + if e.Execute? then {e.offer} else {}
  {
  }

  lemma {:induction false} TerminalsOfPrefix(a: seq<E.Message>, b: seq<E.Message>, o: OfferId)
    requires a <= b
    ensures E.Terminals(a, o) <= E.Terminals(b, o)
  {
    if |a| < |b| {
      TerminalsOfPrefix(a, b[..|b| - 1], o);
    } else {
      assert a == b;
    }
  }

  /** The daemon ran on, and of this offer at most begins what was sent for it. */
  lemma FitsStill(s: State, daemon: E.State, o: OfferId)
    requires s.delivered <= |s.daemon.sent| && s.daemon.sent <= daemon.sent && Fits(s, o)
    requires o in daemon.executions ==> o in s.daemon.executions || (o in s.phases && s.phases[o].Sent?)
    ensures Fits(s.(daemon := daemon), o)
  {
    hide E.Terminals;
    assert Received(s.(daemon := daemon)) == Received(s);
  }

  lemma DaemonKeepsInv(s: State, e: E.Event)
    requires Inv(s) && Enabled(s, Daemon(e))
    ensures Inv(Next(s, Daemon(e)))
  {
    var daemon := E.Next(s.daemon, e);
    E.NextKeepsInv(s.daemon, e);
    DaemonExtends(s.daemon, e);
    hide E.Next, E.Inv, E.Enabled;
    forall o: OfferId ensures Fits(s.(daemon := daemon), o) {
      FitsStill(s, daemon, o);
    }
    hide Fits;
    assert Open(s.(daemon := daemon)) == Open(s);
  }

  /** A terminal message that arrives finds its offer with the payload sent and the
      row still running: it is the offer's first and only one. */
  lemma ReceiveFindsSent(s: State)
    requires Inv(s) && s.delivered < |s.daemon.sent| && E.IsTerminal(s.daemon.sent[s.delivered])
    ensures var o := s.daemon.sent[s.delivered].offer;
            && o in s.phases && s.phases[o].Sent? && o !in s.terminal
            && E.Terminals(s.daemon.sent[..s.delivered + 1], o) == 1
  {
    var m := s.daemon.sent[s.delivered];
    var before, upTo := Received(s), s.daemon.sent[..s.delivered + 1];
    assert upTo[..|upTo| - 1] == before && upTo[|upTo| - 1] == m;
    assert E.Terminals(upTo, m.offer) == E.Terminals(before, m.offer) + 1;
    TerminalsOfPrefix(upTo, s.daemon.sent, m.offer);
    assert E.Accounted(s.daemon, m.offer);
    assert Fits(s, m.offer);
  }

  lemma ReceiveKeepsInv(s: State)
    requires Inv(s) && s.delivered < |s.daemon.sent|
    ensures Inv(OnReceive(s))
  {
    var m, s' := s.daemon.sent[s.delivered], OnReceive(s);
    if E.IsTerminal(m) {
      ReceiveFindsSent(s);
    }
    var before, upTo := Received(s), s.daemon.sent[..s.delivered + 1];
    assert upTo[..|upTo| - 1] == before && upTo[|upTo| - 1] == m;
    forall o: OfferId
      ensures E.Terminals(upTo, o) == E.Terminals(before, o) + if E.IsTerminal(m) && m.offer == o then 1 else 0
    {
    }
    hide E.Terminals, E.Inv;
    forall o: OfferId ensures Fits(s', o) {
      assert Fits(s, o);
    }
    assert Open(s') == Open(s);
  }

  lemma AcceptKeepsInv(s: State, o: OfferId)
    requires Inv(s)
    ensures Inv(OnAccept(s, o))
  {
    hide E.Terminals, E.Inv;
    var s' := OnAccept(s, o);
    forall p: OfferId ensures Fits(s', p) {
      assert Fits(s, p);
    }
    if o in s.pending {
      assert Received(s') == Received(s);
      assert Fits(s, o);
      assert Open(s') == Open(s) + {o};
    }
  }

  lemma ReleaseKeepsInv(s: State, o: OfferId)
    requires Inv(s) && Enabled(s, ReleaseSlot(o))
    ensures Inv(Next(s, ReleaseSlot(o)))
    ensures s.activeCount > 0
  {
    hide E.Terminals, E.Inv;
    var s' := Next(s, ReleaseSlot(o));
    assert Received(s') == Received(s);
    forall p: OfferId ensures Fits(s', p) {
      assert Fits(s, p);
    }
    assert o in Open(s) && Open(s') == Open(s) - {o};
  }

  /** The steps that claim and release nothing. */
  lemma OtherKeepsInv(s: State, e: Event)
    requires Inv(s) && Enabled(s, e)
    requires e.Offer? || e.Withdraw? || e.AcceptError? || e.SendPayload? || e.Finalize?
    ensures Inv(Next(s, e))
  {
    hide E.Terminals, E.Inv;
    var s' := Next(s, e);
    assert Received(s') == Received(s);
    forall p: OfferId ensures Fits(s', p) {
      assert Fits(s, p);
    }
    assert Open(s') == Open(s);
  }

  lemma NextKeepsInv(s: State, e: Event)
    requires Inv(s) && Enabled(s, e)
    ensures Inv(Next(s, e))
  {
    match e
    case Accept(o) => AcceptKeepsInv(s, o);
    case Daemon(d) => DaemonKeepsInv(s, d);
    case Receive => ReceiveKeepsInv(s);
    case ReleaseSlot(o) => ReleaseKeepsInv(s, o);
    case _ => OtherKeepsInv(s, e);
  }

  lemma InitInv()
    ensures Inv(Init)
  {
    assert E.Inv(E.Init) by {
      E.RunKeepsInv([]);
    }
    assert Open(Init) == {};
  }

  lemma {:induction false} RunKeepsInv(events: seq<Event>)
    requires Run(events).Some?
    ensures Inv(Run(events).value)
  {
    if events == [] {
      InitInv();
    } else {
      RunKeepsInv(events[..|events| - 1]);
      NextKeepsInv(Run(events[..|events| - 1]).value, events[|events| - 1]);
    }
  }

  /** activeCount is the number of claimed offers whose terminal event, be it the
      result, the scoped completion or an accept failure, has not yet been
      processed; the clamp of the decrement is never what stops it. */
  lemma SlotsAreConserved(events: seq<Event>)
    requires Run(events).Some?
    ensures var s := Run(events).value;
            && s.activeCount == |Open(s)|
            && forall o | Enabled(s, ReleaseSlot(o)) :: s.activeCount > 0
  {
    RunKeepsInv(events);
    var s := Run(events).value;
    assert s.activeCount == |Open(s)|;
    forall o | Enabled(s, ReleaseSlot(o)) ensures s.activeCount > 0 {
      ReleaseKeepsInv(s, o);
    }
  }

  /** A claimed offer that was executed to its end and heard of is released once
      its handler has run: no terminal message is ignored and none is counted
      twice. */
  lemma EveryEndIsHeard(events: seq<Event>, o: OfferId)
    requires Run(events).Some?
    requires var s := Run(events).value;
             o in s.daemon.executions && s.daemon.executions[o].phase.Ended? && s.delivered == |s.daemon.sent|
    ensures var s := Run(events).value; o in s.phases && (s.phases[o].Handling? || s.phases[o].Released?)
  {
    RunKeepsInv(events);
    var s := Run(events).value;
    assert E.Accounted(s.daemon, o);
    assert Fits(s, o);
    assert Received(s) == s.daemon.sent;
  }

  /** When nothing is left to do, no slot is held. */
  lemma IdleHoldsNoSlot(events: seq<Event>)
    requires Run(events).Some?
    requires var s := Run(events).value; forall o | o in s.phases :: s.phases[o].Released?
    ensures Run(events).value.activeCount == 0
  {
    RunKeepsInv(events);
    assert Open(Run(events).value) == {};
  }

  // ---------------------------------------------------------------------
  // The counter

  class Concurrency {
    var activeCount: nat
    const maxConcurrentRequests: int

    constructor (maxConcurrentRequests: int)
      ensures activeCount == 0 && this.maxConcurrentRequests == maxConcurrentRequests
    {
      activeCount, this.maxConcurrentRequests := 0, maxConcurrentRequests;
    }

    method IncrementActiveCount()
      modifies this
      ensures activeCount == old(activeCount) + 1
    {
      activeCount := activeCount + 1;
    }

    method DecrementActiveCount()
      modifies this
      ensures activeCount == Decremented(old(activeCount))
    {
      if activeCount > 0 {
        activeCount := activeCount - 1;
      }
    }

    method IsAtCapacity() returns (full: bool)
      ensures full <==> activeCount >= maxConcurrentRequests
    {
      full := activeCount >= maxConcurrentRequests;
    }
  }

  // ---------------------------------------------------------------------
  // The module's counter

  class ActiveCount {
    var activeCount: nat

    constructor ()
      ensures activeCount == Init.activeCount
    {
      activeCount := 0;
    }

    method IncrementActiveCount()
      modifies this
      ensures activeCount == old(activeCount) + 1
    {
      activeCount := activeCount + 1;
    }

    /** A decrement at zero is only logged. */
    method DecrementActiveCount()
      modifies this
      ensures activeCount == Decremented(old(activeCount))
      ensures if old(activeCount) == 0 then activeCount == 0 else activeCount + 1 == old(activeCount)
    {
      if activeCount > 0 {
        activeCount := activeCount - 1;
      }
    }
  }
}
