/**
 src/orchestrator/connection-handler.ts: the two timers behind a daemon that
 speaks an older protocol, with a clock in milliseconds. Timers fire when they are
 due: time does not pass a due timer by. A socket's protocol never changes.
 */
module ProtocolUpdate {
  import opened Basics
  import L = Lifecycle

  type Socket = L.Socket
  type TimerId = nat

  const ACK_TIMEOUT_MS: nat := 5_000
  const DRAIN_GRACE_MS: nat := 2_000

  datatype Entry = Entry(phase: L.UpdatePhase, timer: TimerId)

  datatype Timer = Timer(ws: Socket, due: int)

  datatype State = State(
    clock: int,
    transitions: map<Socket, Entry>,   // protocolUpdateTransitions
    timers: map<TimerId, Timer>,       // armed, not yet fired
    nextTimer: TimerId,
    down: set<Socket>,                 // closed
    registeredAt: map<Socket, int>,    // when the outdated register was first handled
    ackedAt: map<Socket, int>)         // when it was first acknowledged

  datatype Event =
    | Register(ws: Socket)             // a register message of an older major version
    | Acknowledged(ws: Socket)
    | Fires(timer: TimerId)
    | Closed(ws: Socket)               // the close callback
    | Tick

  function Init(clock: int): State {
    State(clock, map[], map[], 0, {}, map[], map[])
  }

  /** setTimeout, for the entry of `ws` */
  function Arm(s: State, ws: Socket, phase: L.UpdatePhase, delay: nat): State {
    s.(transitions := s.transitions[ws := Entry(phase, s.nextTimer)],
       timers := s.timers[s.nextTimer := Timer(ws, s.clock + delay)],
       nextTimer := s.nextTimer + 1)
  }

  /** The first time something happened to a socket. */
  function Noted(times: map<Socket, int>, ws: Socket, now: int): map<Socket, int> {
    if ws in times then times else times[ws := now]
  }

  function OnRegister(s: State, ws: Socket): State {
    if ws in s.transitions then s
    else
      Arm(s, ws, L.AwaitingAck, ACK_TIMEOUT_MS).(registeredAt := Noted(s.registeredAt, ws, s.clock))
  }

  function OnAcknowledged(s: State, ws: Socket, drainTimeoutMs: nat): State {
    if ws !in s.transitions || s.transitions[ws].phase.DrainingUpdate? then s
    else
      Arm(s.(timers := s.timers - {s.transitions[ws].timer}), ws, L.DrainingUpdate, drainTimeoutMs + DRAIN_GRACE_MS)
        .(ackedAt := Noted(s.ackedAt, ws, s.clock))
  }

  function OnFires(s: State, timer: TimerId): State
    requires timer in s.timers
  {
    var ws := s.timers[timer].ws;
    s.(timers := s.timers - {timer}, transitions := s.transitions - {ws}, down := s.down + {ws})
  }

  function OnClosed(s: State, ws: Socket): State {
    s.(timers := if ws in s.transitions then s.timers - {s.transitions[ws].timer} else s.timers,
       transitions := s.transitions - {ws},
       down := s.down + {ws})
  }

  predicate Enabled(s: State, e: Event) {
    match e
    case Fires(timer) => timer in s.timers && s.timers[timer].due <= s.clock
    case Tick => forall t | t in s.timers :: s.clock < s.timers[t].due
    case _ => true
  }

  function Next(s: State, e: Event, drainTimeoutMs: nat): State
    requires Enabled(s, e)
  {
    match e
    case Register(ws) => OnRegister(s, ws)
    case Acknowledged(ws) => OnAcknowledged(s, ws, drainTimeoutMs)
    case Fires(timer) => OnFires(s, timer)
    case Closed(ws) => OnClosed(s, ws)
    case Tick => s.(clock := s.clock + 1)
  }

  function Run(start: int, events: seq<Event>, drainTimeoutMs: nat): Option<State> {
    if events == [] then Some(Init(start))
    else
      match Run(start, events[..|events| - 1], drainTimeoutMs)
      case None => None
      case Some(s) =>
        var e := events[|events| - 1];
        if Enabled(s, e) then Some(Next(s, e, drainTimeoutMs)) else None
  }

  // ---------------------------------------------------------------------
  // One live timer for each entry, and the deadlines

  /** An entry's timer is armed for its socket, and every armed timer belongs to
      the entry of its socket. */
  predicate OneTimerEach(s: State) {
    && (forall ws | ws in s.transitions ::
          s.transitions[ws].timer in s.timers && s.timers[s.transitions[ws].timer].ws == ws)
    && (forall t | t in s.timers ::
          t < s.nextTimer && s.timers[t].ws in s.transitions && s.transitions[s.timers[t].ws].timer == t)
  }

  /** When the entry's timer is due, counted from the first register and the first
      acknowledgement alone. */
  predicate DueOnTime(s: State, drainTimeoutMs: nat) {
    forall ws | ws in s.transitions && ws !in s.down && s.transitions[ws].timer in s.timers ::
      var due := s.timers[s.transitions[ws].timer].due;
      && ws in s.registeredAt
      && (s.transitions[ws].phase.AwaitingAck? ==> due == s.registeredAt[ws] + ACK_TIMEOUT_MS && ws !in s.ackedAt)
      && (s.transitions[ws].phase.DrainingUpdate? ==>
            && ws in s.ackedAt && s.ackedAt[ws] <= s.registeredAt[ws] + ACK_TIMEOUT_MS
            && due == s.ackedAt[ws] + drainTimeoutMs + DRAIN_GRACE_MS)
  }

  predicate Inv(s: State, drainTimeoutMs: nat) {
    && OneTimerEach(s)
    && DueOnTime(s, drainTimeoutMs)
    && (forall t | t in s.timers :: s.clock <= s.timers[t].due)
    && (forall ws | ws in s.registeredAt && ws !in s.down :: ws in s.transitions)
    && (forall ws | ws in s.ackedAt :: ws in s.registeredAt)
    && (forall ws | ws in s.transitions :: ws in s.registeredAt)
  }

  /** A fresh timer for a socket that has none. */
  lemma ArmKeepsTimers(s: State, ws: Socket, phase: L.UpdatePhase, delay: nat)
    requires OneTimerEach(s) && ws !in s.transitions
    ensures OneTimerEach(Arm(s, ws, phase, delay))
  {
  }

  lemma RegisterKeepsDue(s: State, ws: Socket, drainTimeoutMs: nat)
    requires Inv(s, drainTimeoutMs) && ws !in s.transitions
    ensures DueOnTime(OnRegister(s, ws), drainTimeoutMs)
  {
    assert ws in s.registeredAt ==> ws in s.down;
    var s' := OnRegister(s, ws);
    forall v | v in s.transitions && v != ws
      ensures s.transitions[v].timer in s'.timers
      ensures s'.timers[s.transitions[v].timer] == s.timers[s.transitions[v].timer]
    {
      assert s.transitions[v].timer < s.nextTimer;
    }
  }

  lemma RegisterKeepsInv(s: State, ws: Socket, drainTimeoutMs: nat)
    requires Inv(s, drainTimeoutMs)
    ensures Inv(OnRegister(s, ws), drainTimeoutMs)
  {
    if ws !in s.transitions {
      ArmKeepsTimers(s, ws, L.AwaitingAck, ACK_TIMEOUT_MS);
      RegisterKeepsDue(s, ws, drainTimeoutMs);
      assert OneTimerEach(OnRegister(s, ws));
      hide OneTimerEach, DueOnTime;
    }
  }

  /** Clearing the entry's timer and arming another moves the entry with it. */
  lemma RearmKeepsTimers(s: State, ws: Socket, delay: nat)
    requires OneTimerEach(s) && ws in s.transitions
    ensures OneTimerEach(Arm(s.(timers := s.timers - {s.transitions[ws].timer}), ws, L.DrainingUpdate, delay))
  {
  }

  lemma AcknowledgedKeepsDue(s: State, ws: Socket, drainTimeoutMs: nat)
    requires Inv(s, drainTimeoutMs) && ws in s.transitions && s.transitions[ws].phase.AwaitingAck?
    ensures DueOnTime(OnAcknowledged(s, ws, drainTimeoutMs), drainTimeoutMs)
  {
    assert s.transitions[ws].timer in s.timers && s.clock <= s.timers[s.transitions[ws].timer].due;
    var s' := OnAcknowledged(s, ws, drainTimeoutMs);
    forall v | v in s.transitions && v != ws
      ensures s.transitions[v].timer in s'.timers
      ensures s'.timers[s.transitions[v].timer] == s.timers[s.transitions[v].timer]
      ensures s'.transitions[v] == s.transitions[v]
    {
    }
  }

  lemma AcknowledgedKeepsInv(s: State, ws: Socket, drainTimeoutMs: nat)
    requires Inv(s, drainTimeoutMs)
    ensures Inv(OnAcknowledged(s, ws, drainTimeoutMs), drainTimeoutMs)
  {
    if ws in s.transitions && s.transitions[ws].phase.AwaitingAck? {
      RearmKeepsTimers(s, ws, drainTimeoutMs + DRAIN_GRACE_MS);
      AcknowledgedKeepsDue(s, ws, drainTimeoutMs);
      assert OneTimerEach(OnAcknowledged(s, ws, drainTimeoutMs));
      hide OneTimerEach, DueOnTime;
    }
  }

  /** Dropping an entry together with its timer, as the socket goes down. */
  lemma DropKeepsInv(s: State, s': State, ws: Socket, drainTimeoutMs: nat)
    requires Inv(s, drainTimeoutMs)
    requires s' == s.(timers := s'.timers, transitions := s.transitions - {ws}, down := s.down + {ws})
    requires s'.timers == if ws in s.transitions then s.timers - {s.transitions[ws].timer} else s.timers
    ensures Inv(s', drainTimeoutMs)
  {
  }

  lemma NextKeepsInv(s: State, e: Event, drainTimeoutMs: nat)
    requires Inv(s, drainTimeoutMs) && Enabled(s, e)
    ensures Inv(Next(s, e, drainTimeoutMs), drainTimeoutMs)
  {
    match e
    case Register(ws) => RegisterKeepsInv(s, ws, drainTimeoutMs);
    case Acknowledged(ws) => AcknowledgedKeepsInv(s, ws, drainTimeoutMs);
    case Fires(timer) =>
      assert s.transitions[s.timers[timer].ws].timer == timer;
      DropKeepsInv(s, OnFires(s, timer), s.timers[timer].ws, drainTimeoutMs);
    case Closed(ws) => DropKeepsInv(s, OnClosed(s, ws), ws, drainTimeoutMs);
    case Tick =>
  }

  lemma {:induction false} RunKeepsInv(start: int, events: seq<Event>, drainTimeoutMs: nat)
    requires Run(start, events, drainTimeoutMs).Some?
    ensures Inv(Run(start, events, drainTimeoutMs).value, drainTimeoutMs)
  {
    if events != [] {
      var before := events[..|events| - 1];
      RunKeepsInv(start, before, drainTimeoutMs);
      NextKeepsInv(Run(start, before, drainTimeoutMs).value, events[|events| - 1], drainTimeoutMs);
    }
  }

  function TimersOf(s: State, ws: Socket): set<TimerId> {
    set t | t in s.timers && s.timers[t].ws == ws
  }

  /** Time only passes. */
  lemma {:induction false} TimePasses(start: int, events: seq<Event>, drainTimeoutMs: nat)
    requires Run(start, events, drainTimeoutMs).Some?
    ensures start <= Run(start, events, drainTimeoutMs).value.clock <= start + |events|
  {
    if events != [] {
      TimePasses(start, events[..|events| - 1], drainTimeoutMs);
    }
  }

  /** Over every run, an outdated socket that is still open holds exactly one
      armed timer, and no later than five seconds after it registered, or the
      drain timeout and two seconds after it first acknowledged, it is closed. */
  lemma ClosedOnTime(start: int, events: seq<Event>, drainTimeoutMs: nat, ws: Socket)
    requires Run(start, events, drainTimeoutMs).Some?
    requires ws in Run(start, events, drainTimeoutMs).value.registeredAt
    ensures var s := Run(start, events, drainTimeoutMs).value;
            ws !in s.down ==>
              && ws in s.transitions && TimersOf(s, ws) == {s.transitions[ws].timer}
              && (ws !in s.ackedAt ==> s.clock <= s.registeredAt[ws] + 5_000)
              && (ws in s.ackedAt ==>
                    && s.ackedAt[ws] <= s.registeredAt[ws] + 5_000
                    && s.clock <= s.ackedAt[ws] + drainTimeoutMs + 2_000)
  {
    RunKeepsInv(start, events, drainTimeoutMs);
    var s := Run(start, events, drainTimeoutMs).value;
    if ws !in s.down {
      assert s.transitions[ws].timer in s.timers;
    }
  }

  /** A socket without an entry has no timer either, so none fires at a stranger. */
  lemma NoStrayTimer(start: int, events: seq<Event>, drainTimeoutMs: nat, ws: Socket)
    requires Run(start, events, drainTimeoutMs).Some?
    ensures var s := Run(start, events, drainTimeoutMs).value;
            (ws in s.transitions <==> TimersOf(s, ws) != {}) && |TimersOf(s, ws)| <= 1
  {
    RunKeepsInv(start, events, drainTimeoutMs);
    var s := Run(start, events, drainTimeoutMs).value;
    if ws in s.transitions {
      assert s.transitions[ws].timer in TimersOf(s, ws);
      assert TimersOf(s, ws) == {s.transitions[ws].timer};
    }
  }

  /** A second acknowledgement changes nothing, and neither does a second register
      while the socket is open. */
  lemma RepeatsAreIgnored(start: int, events: seq<Event>, drainTimeoutMs: nat, ws: Socket)
    requires Run(start, events, drainTimeoutMs).Some?
    ensures var s := Run(start, events, drainTimeoutMs).value;
            && (ws in s.ackedAt && ws !in s.down ==> Next(s, Acknowledged(ws), drainTimeoutMs) == s)
            && (ws in s.registeredAt && ws !in s.down ==> Next(s, Register(ws), drainTimeoutMs) == s)
  {
    RunKeepsInv(start, events, drainTimeoutMs);
    var s := Run(start, events, drainTimeoutMs).value;
    if ws in s.ackedAt && ws !in s.down {
      assert s.transitions[ws].timer in s.timers;
      assert s.transitions[ws].phase.DrainingUpdate?;
    }
  }

  // ---------------------------------------------------------------------
  // The untimed transition

  /** The phases without their timers, as the lifecycle keeps them. */
  function Untimed(s: State): map<Socket, L.UpdatePhase> {
    map ws | ws in s.transitions :: s.transitions[ws].phase
  }

  /** The timed handlers take the lifecycle's steps: an outdated register, an
      acknowledgement, a timer and a close callback each leave the phases that the
      corresponding step of the lifecycle leaves, and time leaves them alone. */
  lemma RefinesLifecycle(s: State, t: L.State, e: Event, r: L.RegId, drainTimeoutMs: nat)
    requires Inv(s, drainTimeoutMs) && Enabled(s, e) && t.updating == Untimed(s)
    requires e.Register? ==> r in t.regs && t.regs[r].ws == e.ws && e.ws.protocol.Outdated?
    ensures var s' := Next(s, e, drainTimeoutMs);
            match e
            case Register(ws) => L.BeginRegister(t, r).updating == Untimed(s')
            case Acknowledged(ws) => L.AckUpdate(t, ws).updating == Untimed(s')
            case Fires(timer) =>
              var expired := L.UpdateExpired(t, s.timers[timer].ws);
              expired.updating == Untimed(s') && s.timers[timer].ws in s'.down * expired.down
            case Closed(ws) => L.WsClose(t, ws).updating == Untimed(s')
            case Tick => Untimed(s') == Untimed(s)
  {
    hide Inv, L.BeginRegister, L.WsClose;
    match e
    case Register(ws) => BeginUpdates(t, r);
    case Closed(ws) => CloseUpdates(t, ws);
    case _ =>
  }

  lemma AtUpdates(t: L.State, r: L.RegId, pc: L.RegPc)
    requires r in t.regs
    ensures L.At(t, r, pc).updating == t.updating
  {
  }

  lemma BeginUpdates(t: L.State, r: L.RegId)
    requires r in t.regs && t.regs[r].ws.protocol.Outdated?
    ensures var ws := t.regs[r].ws;
            L.BeginRegister(t, r).updating == if ws in t.updating then t.updating else t.updating[ws := L.AwaitingAck]
  {
    hide L.AfterGate, L.At;
    var ws := t.regs[r].ws;
    AtUpdates(t, r, L.Settled);
    AtUpdates(t.(updating := t.updating[ws := L.AwaitingAck]), r, L.Settled);
  }

  lemma CloseUpdates(t: L.State, ws: Socket)
    ensures L.WsClose(t, ws).updating == t.updating - {ws}
  {
  }

  // ---------------------------------------------------------------------
  // The handlers

  class ProtocolUpdates {
    const drainTimeoutMs: nat
    var clock: int
    var transitions: map<Socket, Entry>
    var timers: map<TimerId, Timer>
    var nextTimer: TimerId
    var down: set<Socket>
    ghost var registeredAt: map<Socket, int>
    ghost var ackedAt: map<Socket, int>

    ghost function View(): State
      reads this
    {
      State(clock, transitions, timers, nextTimer, down, registeredAt, ackedAt)
    }

    /** One armed timer for each entry, due when it should be. */
    ghost predicate Valid()
      reads this
    {
      Inv(View(), drainTimeoutMs)
    }

    constructor (drainTimeoutMs: nat, clock: int)
      ensures Valid() && this.drainTimeoutMs == drainTimeoutMs && View() == Init(clock)
    {
      this.drainTimeoutMs, this.clock := drainTimeoutMs, clock;
      transitions, timers, nextTimer, down := map[], map[], 0, {};
      registeredAt, ackedAt := map[], map[];
    }

    /** setTimeout, and the entry that remembers it */
    method ArmTimer(ws: Socket, phase: L.UpdatePhase, delay: nat)
      modifies this`timers, this`nextTimer, this`transitions
      ensures View() == Arm(old(View()), ws, phase, delay)
    {
      timers := timers[nextTimer := Timer(ws, clock + delay)];
      transitions := transitions[ws := Entry(phase, nextTimer)];
      nextTimer := nextTimer + 1;
    }

    method ClearTimer(timer: TimerId)
      modifies this`timers
      ensures View() == old(View()).(timers := old(View()).timers - {timer})
    {
      timers := timers - {timer};
    }

    method Drop(ws: Socket)
      modifies this`transitions, this`down
      ensures View() == old(View()).(transitions := old(View()).transitions - {ws}, down := old(View()).down + {ws})
    {
      transitions := transitions - {ws};
      down := down + {ws};
    }

    ghost method NoteRegistered(ws: Socket)
      modifies this`registeredAt
      ensures View() == old(View()).(registeredAt := Noted(old(View()).registeredAt, ws, old(View()).clock))
    {
      registeredAt := Noted(registeredAt, ws, clock);
    }

    ghost method NoteAcknowledged(ws: Socket)
      modifies this`ackedAt
      ensures View() == old(View()).(ackedAt := Noted(old(View()).ackedAt, ws, old(View()).clock))
    {
      ackedAt := Noted(ackedAt, ws, clock);
    }

    /** The outdated branch of handleRegister. */
    method RegisterOutdated(ws: Socket)
      requires Valid()
      modifies this
      ensures Valid() && View() == OnRegister(old(View()), ws)
      ensures HasTimer(View(), ws, drainTimeoutMs)
    {
      RegisterKeepsInv(View(), ws, drainTimeoutMs);
      RegisteredHasTimer(View(), ws, drainTimeoutMs);
      if ws in transitions {
        return;
      }
      hide View, Inv, HasTimer;
      ArmTimer(ws, L.AwaitingAck, ACK_TIMEOUT_MS);
      NoteRegistered(ws);
    }

    method Acknowledge(ws: Socket)
      modifies this
      ensures View() == OnAcknowledged(old(View()), ws, drainTimeoutMs)
    {
      if ws !in transitions || transitions[ws].phase.DrainingUpdate? {
        return;
      }
      ClearTimer(transitions[ws].timer);
      ArmTimer(ws, L.DrainingUpdate, drainTimeoutMs + DRAIN_GRACE_MS);
      NoteAcknowledged(ws);
    }

    /** handleUpdateAcknowledged, up to where a current daemon's status is set. Only
        the first acknowledgement of an open socket moves its deadline. */
    method HandleUpdateAcknowledged(ws: Socket)
      requires Valid()
      modifies this
      ensures Valid() && View() == OnAcknowledged(old(View()), ws, drainTimeoutMs)
      ensures ws in old(View()).ackedAt && ws !in old(View()).down ==> View() == old(View())
      ensures ws in old(View()).transitions ==> HasTimer(View(), ws, drainTimeoutMs)
    {
      hide View, Inv, HasTimer, OnAcknowledged;
      AcknowledgedKeepsInv(View(), ws, drainTimeoutMs);
      AcknowledgedHasTimer(View(), ws, drainTimeoutMs);
      Acknowledge(ws);
    }

    /** Either timer's callback: the socket is closed and out of the transition. */
    method TimerCallback(timer: TimerId)
      requires Valid() && timer in timers && timers[timer].due <= clock
      modifies this
      ensures Valid() && View() == OnFires(old(View()), timer)
      ensures old(timers)[timer].ws in down && old(timers)[timer].ws !in transitions
    {
      assert Enabled(View(), Fires(timer));
      NextKeepsInv(View(), Fires(timer), drainTimeoutMs);
      hide Inv;
      var ws := timers[timer].ws;
      ClearTimer(timer);
      Drop(ws);
    }

    /** The first lines of handleWsClose. */
    method HandleWsClose(ws: Socket)
      requires Valid()
      modifies this
      ensures Valid() && View() == OnClosed(old(View()), ws)
      ensures TimersOf(View(), ws) == {}
    {
      NextKeepsInv(View(), Closed(ws), drainTimeoutMs);
      ClosedHasNoTimer(View(), ws, drainTimeoutMs);
      hide Inv, TimersOf;
      if ws in transitions {
        ClearTimer(transitions[ws].timer);
      }
      Drop(ws);
    }
  }

  /** The socket is in the transition with one armed timer, due on time if it is
      still open. */
  ghost predicate HasTimer(s: State, ws: Socket, drainTimeoutMs: nat) {
    && ws in s.transitions && TimersOf(s, ws) == {s.transitions[ws].timer}
    && (ws !in s.down && s.transitions[ws].timer in s.timers ==>
          var due := s.timers[s.transitions[ws].timer].due;
          match s.transitions[ws].phase
          case AwaitingAck => ws in s.registeredAt && due == s.registeredAt[ws] + 5_000
          case DrainingUpdate => ws in s.ackedAt && due == s.ackedAt[ws] + drainTimeoutMs + 2_000)
  }

  lemma EntryHasTimer(s: State, ws: Socket, drainTimeoutMs: nat)
    requires Inv(s, drainTimeoutMs) && ws in s.transitions
    ensures HasTimer(s, ws, drainTimeoutMs)
  {
    assert s.transitions[ws].timer in s.timers;
  }

  lemma RegisteredHasTimer(s: State, ws: Socket, drainTimeoutMs: nat)
    requires Inv(s, drainTimeoutMs)
    ensures HasTimer(OnRegister(s, ws), ws, drainTimeoutMs)
  {
    hide Inv, HasTimer;
    RegisterKeepsInv(s, ws, drainTimeoutMs);
    EntryHasTimer(OnRegister(s, ws), ws, drainTimeoutMs);
  }

  lemma AcknowledgedHasTimer(s: State, ws: Socket, drainTimeoutMs: nat)
    requires Inv(s, drainTimeoutMs)
    ensures ws in s.transitions ==> HasTimer(OnAcknowledged(s, ws, drainTimeoutMs), ws, drainTimeoutMs)
    ensures ws in s.ackedAt && ws !in s.down ==> OnAcknowledged(s, ws, drainTimeoutMs) == s
  {
    hide Inv, HasTimer;
    AckedIsDraining(s, ws, drainTimeoutMs);
    AcknowledgedKeepsInv(s, ws, drainTimeoutMs);
    if ws in s.transitions {
      EntryHasTimer(OnAcknowledged(s, ws, drainTimeoutMs), ws, drainTimeoutMs);
    }
  }

  lemma ClosedHasNoTimer(s: State, ws: Socket, drainTimeoutMs: nat)
    requires Inv(s, drainTimeoutMs)
    ensures TimersOf(OnClosed(s, ws), ws) == {}
  {
    if ws in s.transitions {
      EntryHasTimer(s, ws, drainTimeoutMs);
    }
  }

  lemma AckedIsDraining(s: State, ws: Socket, drainTimeoutMs: nat)
    requires Inv(s, drainTimeoutMs)
    ensures ws in s.ackedAt && ws !in s.down ==> ws in s.transitions && s.transitions[ws].phase.DrainingUpdate?
  {
    if ws in s.ackedAt && ws !in s.down {
      assert s.transitions[ws].timer in s.timers;
    }
  }
}
