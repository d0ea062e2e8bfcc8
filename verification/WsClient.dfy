/**
 src/daemon/ws-client.ts: the daemon's reconnecting socket. Socket and timer
 callbacks run to completion, so each is one event. Besides the fields of the
 class the state holds what the runtime owes it: the sockets whose close event is
 still to come and the timers that have yet to fire.
 */
module WsClient {
  import opened Basics

  type SocketId = nat
  type TimerId = nat

  const BASE_BACKOFF_MS: real := 1000.0
  const CAP_BACKOFF_MS: real := 30000.0

  datatype State = State(
    ws: Option<SocketId>,
    reconnecting: bool,
    closed: bool,
    backoffMs: real,
    reconnectTimer: Option<TimerId>,
    attempt: nat,
    // the runtime and the owner
    started: bool,           // the owner has made its one connect() call
    live: set<SocketId>,     // created, close event not yet delivered
    closing: set<SocketId>,  // close() was called on it
    nextSocket: SocketId,
    armed: set<TimerId>,
    nextTimer: TimerId,
    fatal: nat)              // onFatal calls

  datatype Event =
    | ConnectCalled(refused: bool, jitter: real)  // refused: the WebSocket constructor throws
    | Opened(socket: SocketId)
    | Closed(socket: SocketId, incompatible: bool, jitter: real)
    | TimerFired(timer: TimerId, refused: bool, jitter: real)
    | CloseCalled

  function Init(): State {
    State(None, false, false, BASE_BACKOFF_MS, None, 0, false, {}, {}, 0, {}, 0, 0)
  }

  predicate IsJitter(r: real) {
    0.0 <= r < 1.0
  }

  function MinReal(a: real, b: real): real {
    if a < b then a else b
  }

  function MaxReal(a: real, b: real): real {
    if a < b then b else a
  }

  function Jittered(jitter: real, spread: real): real {
    jitter * spread
  }

  /** nextBackoff; `jitter` is Math.random(). */
  function NextBackoff(previous: real, base: real, cap: real, jitter: real): real {
    var ceiling := MaxReal(base, previous * 3.0);
    MinReal(cap, base + Jittered(jitter, ceiling - base))
  }

  lemma ProductOfNonNegatives(a: real, b: real)
    requires a >= 0.0 && b >= 0.0
    ensures a * b >= 0.0
  {
  }

  lemma Parts(a: real, b: real)
    ensures a * b + (1.0 - a) * b == b
  {
    var whole := (a + (1.0 - a)) * b;
    assert whole == a * b + (1.0 - a) * b;
    assert a + (1.0 - a) == 1.0;
  }

  lemma Scaled(jitter: real, spread: real)
    requires IsJitter(jitter) && spread >= 0.0
    ensures 0.0 <= Jittered(jitter, spread) <= spread
  {
    var kept, left := jitter * spread, (1.0 - jitter) * spread;
    ProductOfNonNegatives(jitter, spread);
    ProductOfNonNegatives(1.0 - jitter, spread);
    Parts(jitter, spread);
    assert kept + left == spread;
  }

  lemma BackoffStaysInRange(previous: real, base: real, cap: real, jitter: real)
    requires IsJitter(jitter) && 0.0 < base <= cap
    ensures base <= NextBackoff(previous, base, cap, jitter) <= cap
    ensures NextBackoff(previous, base, cap, jitter) <= MaxReal(base, previous * 3.0)
  {
    var ceiling := MaxReal(base, previous * 3.0);
    Scaled(jitter, ceiling - base);
    hide Jittered;
  }

  lemma Smaller(a: real, b: real, whole: real)
    requires whole > 0.0 && a * whole < b * whole
    ensures a < b
  {
    if a >= b {
      ProductOfNonNegatives(a - b, whole);
    }
  }

  lemma Ratio(part: real, whole: real)
    requires 0.0 <= part < whole
    ensures IsJitter(part / whole) && Jittered(part / whole, whole) == part
  {
    var r := part / whole;
    assert r * whole == part;
    Smaller(r, 1.0, whole);
    if part > 0.0 {
      Smaller(0.0, r, whole);
    }
  }

  lemma JitterIsPartial(jitter: real, spread: real)
    requires IsJitter(jitter) && spread > 0.0
    ensures Jittered(jitter, spread) < spread
  {
    Parts(jitter, spread);
    Positive(1.0 - jitter, spread);
  }

  lemma Positive(a: real, b: real)
    requires a > 0.0 && b > 0.0
    ensures a * b > 0.0
  {
  }

  /** The backoff spreads over the whole of its range: the delays it can come to are
      the base, and every delay up to the cap that is less than three times the
      previous one. */
  lemma BackoffReaches(previous: real, base: real, cap: real, delay: real)
    requires 0.0 < base <= cap
    ensures (exists jitter :: IsJitter(jitter) && NextBackoff(previous, base, cap, jitter) == delay) <==>
            base <= delay <= cap && (delay == base || delay < previous * 3.0)
  {
    hide Jittered;
    var ceiling := MaxReal(base, previous * 3.0);
    if jitter :| IsJitter(jitter) && NextBackoff(previous, base, cap, jitter) == delay {
      Scaled(jitter, ceiling - base);
      if ceiling > base {
        JitterIsPartial(jitter, ceiling - base);
      }
    }
    if base <= delay <= cap && (delay == base || delay < previous * 3.0) {
      if delay < ceiling {
        Ratio(delay - base, ceiling - base);
        assert NextBackoff(previous, base, cap, (delay - base) / (ceiling - base)) == delay;
      } else {
        Scaled(0.0, ceiling - base);
        assert NextBackoff(previous, base, cap, 0.0) == delay;
      }
    }
  }

  function ScheduleReconnect(s: State, jitter: real): State {
    if s.closed || s.reconnecting then s
    else s.(
      reconnecting := true,
      backoffMs := NextBackoff(s.backoffMs, BASE_BACKOFF_MS, CAP_BACKOFF_MS, jitter),
      armed := s.armed + {s.nextTimer},
      reconnectTimer := Some(s.nextTimer),
      nextTimer := s.nextTimer + 1)
  }

  function Connect(s: State, refused: bool, jitter: real): State {
    if s.closed then s
    else
      var t := s.(attempt := s.attempt + 1);
      if refused then ScheduleReconnect(t, jitter)
      else t.(ws := Some(s.nextSocket), live := s.live + {s.nextSocket}, nextSocket := s.nextSocket + 1)
  }

  function OnOpen(s: State): State {
    s.(backoffMs := BASE_BACKOFF_MS, attempt := 0, reconnecting := false)
  }

  function OnClose(s: State, socket: SocketId, incompatible: bool, jitter: real): State {
    var t := s.(live := s.live - {socket});
    if incompatible then t.(closed := true, fatal := t.fatal + 1)
    else if !t.closed then ScheduleReconnect(t, jitter)
    else t
  }

  function OnTimer(s: State, timer: TimerId, refused: bool, jitter: real): State {
    Connect(s.(armed := s.armed - {timer}, reconnecting := false), refused, jitter)
  }

  function OnCloseCalled(s: State): State {
    s.(closed := true,
       armed := if s.reconnectTimer.Some? then s.armed - {s.reconnectTimer.value} else s.armed,
       reconnectTimer := None,
       closing := if s.ws.Some? then s.closing + {s.ws.value} else s.closing,
       ws := None)
  }

  predicate Enabled(s: State, e: Event) {
    match e
    case ConnectCalled(_, jitter) => !s.started && IsJitter(jitter)
    case Opened(socket) => socket in s.live
    case Closed(socket, _, jitter) => socket in s.live && IsJitter(jitter)
    case TimerFired(timer, _, jitter) => timer in s.armed && IsJitter(jitter)
    case CloseCalled => true
  }

  function Next(s: State, e: Event): State {
    match e
    case ConnectCalled(refused, jitter) => Connect(s.(started := true), refused, jitter)
    case Opened(_) => OnOpen(s)
    case Closed(socket, incompatible, jitter) => OnClose(s, socket, incompatible, jitter)
    case TimerFired(timer, refused, jitter) => OnTimer(s, timer, refused, jitter)
    case CloseCalled => OnCloseCalled(s)
  }

  function Run(events: seq<Event>): Option<State> {
    if events == [] then Some(Init())
    else
      match Run(events[..|events| - 1])
      case None => None
      case Some(s) =>
        var e := events[|events| - 1];
        if Enabled(s, e) then Some(Next(s, e)) else None
  }

  // ---------------------------------------------------------------------
  // Safety

  predicate Inv(s: State) {
    && (forall a | a in s.live :: a < s.nextSocket && (s.ws == Some(a) || a in s.closing))
    && (forall a, b | a in s.live && b in s.live :: a == b)
    && (forall t | t in s.armed :: s.reconnectTimer == Some(t))
    && (s.live != {} ==> s.armed == {})
    && (s.closed ==> s.armed == {} && s.live <= s.closing)
    && (!s.closed ==> s.closing == {} && (s.reconnecting <==> s.armed != {}))
    && (!s.closed ==> (s.started <==> s.live != {} || s.armed != {}))
    && (!s.started ==> s.live == {} && s.armed == {})
    && BASE_BACKOFF_MS <= s.backoffMs <= CAP_BACKOFF_MS
  }

  lemma NextKeepsInv(s: State, e: Event)
    requires Inv(s) && Enabled(s, e)
    ensures Inv(Next(s, e))
  {
    hide NextBackoff;
    match e
    case ConnectCalled(_, jitter) =>
      BackoffStaysInRange(s.backoffMs, BASE_BACKOFF_MS, CAP_BACKOFF_MS, jitter);
    case Closed(socket, _, jitter) =>
      BackoffStaysInRange(s.backoffMs, BASE_BACKOFF_MS, CAP_BACKOFF_MS, jitter);
      assert forall a | a in s.live :: a == socket;
      assert s.live - {socket} == {};
    case TimerFired(timer, _, jitter) =>
      BackoffStaysInRange(s.backoffMs, BASE_BACKOFF_MS, CAP_BACKOFF_MS, jitter);
      assert forall t | t in s.armed :: t == timer;
      assert s.armed - {timer} == {};
    case _ =>
  }

  lemma {:induction false} RunKeepsInv(events: seq<Event>)
    requires Run(events).Some?
    ensures Inv(Run(events).value)
  {
    if events != [] {
      RunKeepsInv(events[..|events| - 1]);
      NextKeepsInv(Run(events[..|events| - 1]).value, events[|events| - 1]);
    }
  }

  /** A started client that is not closed has either one live socket or one armed
      reconnect timer, never both and never neither; its backoff is in range. */
  lemma SocketOrTimer(events: seq<Event>)
    requires Run(events).Some?
    ensures var s := Run(events).value;
            && 1000.0 <= s.backoffMs <= 30000.0
            && |s.live| <= 1 && |s.armed| <= 1 && (s.live == {} || s.armed == {})
            && (s.started && !s.closed ==> |s.live| + |s.armed| == 1)
  {
    RunKeepsInv(events);
    var s := Run(events).value;
    AtMostOne(s.live);
    forall a, b | a in s.armed && b in s.armed ensures a == b {
      assert Some(a) == s.reconnectTimer == Some(b);
    }
    AtMostOne(s.armed);
  }

  lemma AtMostOne(xs: set<nat>)
    requires forall a, b | a in xs && b in xs :: a == b
    ensures |xs| <= 1 && (xs != {} ==> |xs| == 1)
  {
    if xs != {} {
      var a := Pick(xs);
      assert xs == {a};
    }
  }

  /** Once closed: closed for good, no socket is created, no timer is armed, and
      what is still alive was told to close. */
  lemma {:induction false} ClosedForGood(events: seq<Event>, more: seq<Event>)
    requires Run(events).Some? && Run(events).value.closed && Run(events + more).Some?
    ensures var s, t := Run(events).value, Run(events + more).value;
            t.closed && t.nextSocket == s.nextSocket && t.armed == {} && t.live <= s.live * t.closing
    decreases |more|
  {
    RunKeepsInv(events + more);
    if more == [] {
      assert events + more == events;
    } else {
      var init := more[..|more| - 1];
      assert (events + more)[..|events + more| - 1] == events + init;
      RunKeepsInv(events + init);
      ClosedForGood(events, init);
      ClosedStep(Run(events + init).value, more[|more| - 1]);
    }
  }

  lemma ClosedStep(s: State, e: Event)
    requires Inv(s) && s.closed && Enabled(s, e)
    ensures var t := Next(s, e);
            t.closed && t.nextSocket == s.nextSocket && t.live <= s.live && s.closing <= t.closing
  {
    hide NextBackoff;
  }

  // ---------------------------------------------------------------------
  // The class

  class DaemonWsClient {
    var ws: Option<SocketId>
    var reconnecting: bool
    var closed: bool
    var backoffMs: real
    var reconnectTimer: Option<TimerId>
    var attempt: nat
    // what the runtime keeps: pending close events, pending timers, fresh handles
    var live: set<SocketId>
    var closing: set<SocketId>
    var nextSocket: SocketId
    var armed: set<TimerId>
    var nextTimer: TimerId
    var fatal: nat
    var started: bool

    function View(): State
      reads this
    {
      State(ws, reconnecting, closed, backoffMs, reconnectTimer, attempt, started, live, closing, nextSocket, armed,
            nextTimer, fatal)
    }

    /** At most one live socket or armed timer, never both, and none once closed. */
    ghost predicate Valid()
      reads this
    {
      Inv(View())
    }

    constructor ()
      ensures Valid() && View() == Init()
    {
      ws, reconnecting, closed, backoffMs, reconnectTimer := None, false, false, BASE_BACKOFF_MS, None;
      attempt, live, closing, nextSocket, armed, nextTimer, fatal, started := 0, {}, {}, 0, {}, 0, 0, false;
    }

    method ConnectNow(refused: bool, jitter: real)
      modifies this
      ensures View() == Connect(old(View()), refused, jitter)
    {
      if closed {
        return;
      }
      attempt := attempt + 1;
      if refused {
        ScheduleNow(jitter);
        return;
      }
      ws := Some(nextSocket);
      live := live + {nextSocket};
      nextSocket := nextSocket + 1;
    }

    method ScheduleNow(jitter: real)
      modifies this
      ensures View() == ScheduleReconnect(old(View()), jitter)
    {
      if closed || reconnecting {
        return;
      }
      reconnecting := true;
      backoffMs := NextBackoff(backoffMs, BASE_BACKOFF_MS, CAP_BACKOFF_MS, jitter);
      armed := armed + {nextTimer};
      reconnectTimer := Some(nextTimer);
      nextTimer := nextTimer + 1;
    }

    /** The owner's connect() call. */
    method Start(refused: bool, jitter: real)
      requires Valid() && Enabled(View(), ConnectCalled(refused, jitter))
      modifies this
      ensures Valid() && View() == Next(old(View()), ConnectCalled(refused, jitter))
      ensures !closed ==> live != {} || armed != {}
    {
      NextKeepsInv(View(), ConnectCalled(refused, jitter));
      started := true;
      ConnectNow(refused, jitter);
    }

    method HandleOpen(socket: SocketId)
      requires Valid() && Enabled(View(), Opened(socket))
      modifies this
      ensures Valid() && View() == Next(old(View()), Opened(socket))
      ensures armed == {} && backoffMs == BASE_BACKOFF_MS
    {
      NextKeepsInv(View(), Opened(socket));
      backoffMs := BASE_BACKOFF_MS;
      attempt := 0;
      reconnecting := false;
    }

    /** No socket is left; a reconnect is on its way unless the client is closed, and
        an incompatible peer closes it. */
    method HandleClose(socket: SocketId, incompatible: bool, jitter: real)
      requires Valid() && Enabled(View(), Closed(socket, incompatible, jitter))
      modifies this
      ensures Valid() && View() == Next(old(View()), Closed(socket, incompatible, jitter))
      ensures live == {} && (armed != {} <==> !closed) && closed == (old(closed) || incompatible)
      ensures fatal == old(fatal) + if incompatible then 1 else 0
    {
      NextKeepsInv(View(), Closed(socket, incompatible, jitter));
      live := live - {socket};
      if incompatible {
        closed := true;
        fatal := fatal + 1;
      } else if !closed {
        ScheduleNow(jitter);
      }
    }

    method HandleTimer(timer: TimerId, refused: bool, jitter: real)
      requires Valid() && Enabled(View(), TimerFired(timer, refused, jitter))
      modifies this
      ensures Valid() && View() == Next(old(View()), TimerFired(timer, refused, jitter))
      ensures !refused ==> armed == {} && live == {old(nextSocket)}
    {
      NextKeepsInv(View(), TimerFired(timer, refused, jitter));
      armed := armed - {timer};
      reconnecting := false;
      ConnectNow(refused, jitter);
    }

    /** No timer is left, and whatever is alive was told to close. */
    method Close()
      requires Valid()
      modifies this
      ensures Valid() && View() == Next(old(View()), CloseCalled)
      ensures closed && armed == {} && ws.None? && live <= closing && live == old(live)
    {
      NextKeepsInv(View(), CloseCalled);
      closed := true;
      if reconnectTimer.Some? {
        armed := armed - {reconnectTimer.value};
        reconnectTimer := None;
      }
      if ws.Some? {
        closing := closing + {ws.value};
        ws := None;
      }
    }
  }
}
