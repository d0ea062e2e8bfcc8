/**
 The synchronous code of `connection-handler.ts` in its own form: an object whose
 fields are the module's maps and sets, and the segments its handlers run between
 two awaits. Each is proved to take the step the transition system gives it.
 */
module ConnectionHandler {
  import opened Basics
  import opened Ledger
  import opened Lifecycle
  import opened Guarantees
  import opened Fencing

  class Orchestrator {
    var connections: map<DaemonId, Socket>
    var info: set<DaemonId>
    var heartbeats: set<DaemonId>
    var draining: set<DaemonId>
    var cleanups: map<DaemonId, CleanupId>
    var regTail: map<DaemonId, RegId>
    var updating: map<Socket, UpdatePhase>
    // attributes of the socket objects
    var data: map<Socket, DaemonId>
    var down: set<Socket>
    // promises handed to the runtime
    var regs: map<RegId, Reg>
    var cleans: map<CleanupId, Cleanup>
    var next: nat
    // the storage as it stands; no segment below writes it
    var tables: Tables
    var keys: set<DaemonId>
    var locked: Option<DaemonId>
    var clock: int

    function View(): State
      reads this
    {
      State(connections, info, heartbeats, draining, cleanups, regTail, updating, data, down,
            regs, cleans, next, tables, keys, locked, clock)
    }

    constructor ()
      ensures View() == Init
    {
      connections, info, heartbeats, draining := map[], {}, {}, {};
      cleanups, regTail, updating, data, down := map[], map[], map[], map[], {};
      regs, cleans, next := map[], map[], 0;
      tables, keys, locked, clock := Tables(map[], map[], map[], map[]), {}, None, 0;
    }

    /** What every step of the lifecycle keeps. */
    ghost predicate Valid()
      reads this
    {
      Inv(View())
    }

    // -------------------------------------------------------------------
    // The code between two awaits

    method StartDisconnectCleanup(d: DaemonId) returns (cleanup: CleanupId)
      modifies this`cleanups, this`cleans, this`next
      ensures (View(), cleanup) == StartCleanup(old(View()), d)
    {
      if d in cleanups {
        return cleanups[d];
      }
      cleanup := next;
      next := next + 1;
      cleans := cleans[cleanup := Cleanup(d, FailTx)];
      cleanups := cleanups[d := cleanup];
    }

    method ForgetConnection(d: DaemonId)
      modifies this`heartbeats, this`connections, this`info, this`draining
      ensures View() == Forget(old(View()), d)
    {
      heartbeats, connections, info, draining := heartbeats - {d}, connections - {d}, info - {d}, draining - {d};
    }

    method DropConnection(d: DaemonId)
      modifies this`heartbeats, this`connections, this`info, this`draining, this`cleanups, this`cleans, this`next
      ensures View() == Disconnect(old(View()), d)
    {
      hide View, Forget, StartCleanup;
      ForgetConnection(d);
      var _ := StartDisconnectCleanup(d);
    }

    method CloseSocket(ws: Socket)
      modifies this`updating, this`data, this`heartbeats, this`connections, this`info, this`draining
      modifies this`cleanups, this`cleans, this`next
      ensures View() == WsClose(old(View()), ws)
    {
      hide Disconnect;
      updating := updating - {ws};
      if ws !in data {
        return;
      }
      var d := data[ws];
      data := data - {ws};
      if d !in connections || connections[d] != ws {
        return;
      }
      DropConnection(d);
    }

    method MarkDown(ws: Socket)
      modifies this`down
      ensures View() == old(View()).(down := old(View()).down + {ws})
    {
      down := down + {ws};
    }

    method Enqueue(ws: Socket, d: DaemonId) returns (transition: RegId)
      modifies this`regs, this`regTail, this`next
      ensures View() == Lifecycle.QueueRegistration(old(View()), ws, d) && transition == old(View()).next
    {
      var previous := if d in regTail then Some(regTail[d]) else None;
      transition := next;
      next := next + 1;
      regs := regs[transition := Reg(ws, d, Waiting(previous))];
      regTail := regTail[d := transition];
    }

    method Suspend(r: RegId, pc: RegPc)
      requires r in regs
      modifies this`regs
      ensures View() == At(old(View()), r, pc)
    {
      regs := regs[r := regs[r].(pc := pc)];
    }

    method SupersedeConnection(d: DaemonId)
      requires d in connections
      modifies this`data, this`down, this`heartbeats, this`connections, this`draining
      ensures View() == Supersede(old(View()), d)
    {
      var existing := connections[d];
      data, down := data - {existing}, down + {existing};
      heartbeats, connections, draining := heartbeats - {d}, connections - {d}, draining - {d};
    }

    /** From the end of the cleanup gate to the next await. */
    method PassGate(r: RegId)
      requires r in View().regs
      modifies this`data, this`down, this`heartbeats, this`connections, this`draining, this`regs
      ensures View() == AfterGate(old(View()), r)
    {
      hide Supersede;
      var d := regs[r].daemon;
      if d in connections {
        SupersedeConnection(d);
        Suspend(r, OrphanQuery);
      } else {
        Suspend(r, SetLive);
      }
    }

    method BeginRegistration(r: RegId)
      requires r in View().regs
      modifies this
      ensures View() == BeginRegister(old(View()), r)
    {
      hide AfterGate;
      var ws, d := regs[r].ws, regs[r].daemon;
      if ws in updating {
        Suspend(r, Settled);
        return;
      }
      if ws.protocol != Compatible {
        if ws.protocol == Outdated {
          updating := updating[ws := AwaitingAck];
        } else {
          down := down + {ws};
        }
        Suspend(r, Settled);
        return;
      }
      if d in cleanups {
        Suspend(r, CleanupWait(cleanups[d]));
        return;
      }
      PassGate(r);
    }

    method AddConnection(ws: Socket, d: DaemonId)
      modifies this`info, this`data, this`connections, this`heartbeats
      ensures View() == Connect(old(View()), ws, d)
    {
      info := info + {d};
      data := data[ws := d];
      connections := connections[d := ws];
      heartbeats := heartbeats + {d};
    }

    method InstallOrFence(r: RegId)
      requires r in View().regs
      modifies this
      ensures View() == Install(old(View()), r)
    {
      var ws, d := regs[r].ws, regs[r].daemon;
      hide Connect, StartCleanup;
      if ws in down {
        var c := StartDisconnectCleanup(d);
        Suspend(r, OwnCleanupWait(c));
      } else {
        AddConnection(ws, d);
        Suspend(r, Settled);
      }
    }

    method Acknowledge(ws: Socket)
      modifies this`updating
      ensures View() == AckUpdate(old(View()), ws)
    {
      if ws in updating {
        if updating[ws] == DrainingUpdate {
          return;
        }
        updating := updating[ws := DrainingUpdate];
      }
    }

    method EndTransition(r: RegId)
      requires r in View().regs
      modifies this`regs, this`regTail
      ensures View() == FinishRegistration(old(View()), r)
    {
      var d := regs[r].daemon;
      regs := regs[r := regs[r].(pc := Gone)];
      if d in regTail && regTail[d] == r {
        regTail := regTail - {d};
      }
    }

    method EndCleanup(c: CleanupId)
      requires c in View().cleans
      modifies this`cleans, this`cleanups
      ensures View() == FinishCleanup(old(View()), c)
    {
      var d := cleans[c].daemon;
      cleans := cleans[c := cleans[c].(pc := CGone)];
      if d in cleanups && cleanups[d] == c {
        cleanups := cleanups - {d};
      }
    }

    method AddDraining(ws: Socket)
      modifies this`draining
      ensures draining == old(draining) + (if ws in data then {data[ws]} else {})
      ensures View() == Next(old(View()), Drain(ws))
    {
      hide WsClose, Resume, CleanupStep, FailOwnership;
      if ws !in data {
        return;
      }
      draining := draining + {data[ws]};
    }

    // -------------------------------------------------------------------
    // The handlers, for whoever holds a valid orchestrator

    /** What a dispatcher finds in `getConnections()`: a daemon it is given a socket
        for is active, alive, monitored, and no cleanup is after it. */
    method GetConnection(d: DaemonId) returns (ws: Option<Socket>)
      requires Valid()
      ensures ws.Some? <==> d in connections
      ensures ws.Some? ==> ws.value == connections[d] && ws.value.protocol.Compatible?
      ensures ws.Some? ==> d !in cleanups && tables.RowActive(d) && d in keys && d in heartbeats && d in info
    {
      if d !in connections {
        return None;
      }
      ConnectedFacts(View(), d);
      return Some(connections[d]);
    }

    /** The daemon the socket was installed for is away with its cleanup pending, and
        no other connection moved. */
    method HandleWsClose(ws: Socket)
      requires Valid()
      modifies this
      ensures Valid()
      ensures Closes(old(View()), View(), ws)
      ensures Forgets(old(View()), View(), ws)
    {
      hide View, Inv, Closes, Forgets, WsClose;
      CloseKeepsInv(View(), ws);
      CloseForgets(View(), ws);
      CloseCloses(View(), ws);
      CloseSocket(ws);
    }

    /** The reaction that ends a registration: the map lets go of the daemon's queue
        only if no later registration has joined it. */
    method FinishTransition(r: RegId)
      requires r in View().regs && View().regs[r].pc == Settled && Valid()
      modifies this
      ensures Valid()
      ensures View() == FinishRegistration(old(View()), r)
    {
      hide View, Inv, FinishRegistration;
      EndRegisterKeepsInv(View(), r);
      EndTransition(r);
    }

    /** The reaction that ends a cleanup reopens the gate for its daemon. */
    method FinishDisconnectCleanup(c: CleanupId)
      requires c in View().cleans && View().cleans[c].pc == CSettled && Valid()
      modifies this
      ensures Valid()
      ensures View() == FinishCleanup(old(View()), c) && old(View()).cleans[c].daemon !in View().cleanups
    {
      hide View, Inv, FinishCleanup;
      EndCleanKeepsInv(View(), c);
      EndCleanReopens(View(), c);
      EndCleanup(c);
    }

    /** The daemon of an identified socket is out of dispatch; an unidentified socket
        changes nothing. */
    method HandleDraining(ws: Socket)
      requires Valid()
      modifies this`draining
      ensures Valid()
      ensures draining == old(draining) + (if ws in data then {data[ws]} else {})
    {
      hide View, Inv, Next;
      DrainKeepsInv(View(), ws);
      AddDraining(ws);
    }

    /** A register message joins the daemon's queue. */
    method QueueRegistration(ws: Socket, d: DaemonId) returns (transition: RegId)
      requires Valid()
      modifies this
      ensures Valid()
      ensures View() == Lifecycle.QueueRegistration(old(View()), ws, d) && transition == old(View()).next
    {
      hide View, Inv, Lifecycle.QueueRegistration;
      RegisterKeepsInv(View(), ws, d);
      transition := Enqueue(ws, d);
    }

    /** `handleRegister` from its first line to its first await. Past the gate the
        daemon has neither a connection nor a pending cleanup. */
    method HandleRegister(r: RegId)
      requires Valid() && Resumable(View(), r, 0) && View().regs[r].pc.Waiting?
      modifies this
      ensures Valid() && View() == BeginRegister(old(View()), r)
      ensures PassesGate(old(View()), r) ==> Cleared(View(), old(View()).regs[r].daemon)
    {
      hide View, Inv, BeginRegister, Cleared, PassesGate;
      BeginKeepsInv(View(), r, 0);
      BeginClears(View(), r);
      BeginRegistration(r);
    }

    /** `handleRegister` when the cleanup it awaited has ended. */
    method HandleRegisterAfterCleanup(r: RegId)
      requires Valid() && Resumable(View(), r, 0) && View().regs[r].pc.CleanupWait?
      modifies this
      ensures Valid() && View() == AfterGate(old(View()), r)
      ensures Cleared(View(), old(View()).regs[r].daemon)
    {
      hide View, Inv, AfterGate, Cleared;
      GateIsClear(View(), r, 0);
      AfterGateKeepsInv(View(), r, 0);
      GateClears(View(), r);
      PassGate(r);
    }

    /** `handleRegister` once `registerDaemon` has resolved. A live socket becomes the
        connection of a daemon that no cleanup is after and whose row and key are
        set; for a dead one a cleanup is pending and awaited. */
    method HandleRegistered(r: RegId)
      requires Valid() && Resumable(View(), r, 0) && View().regs[r].pc.Registered?
      modifies this
      ensures Valid()
      ensures InstalledOrFenced(old(View()), View(), r)
    {
      hide View, Inv, Install, InstalledOrFenced;
      InstallOutcome(View(), r, 0);
      InstallOrFence(r);
    }

    method HandleUpdateAcknowledged(ws: Socket)
      requires Valid()
      modifies this
      ensures Valid() && View() == AckUpdate(old(View()), ws)
    {
      hide View, Inv, AckUpdate;
      AckKeepsInv(View(), ws);
      Acknowledge(ws);
    }

    /** The loop closes a snapshot of the connections, one callback after another. */
    method BeginDaemonConnectionShutdown(sockets: seq<Socket>)
      requires Valid()
      requires forall ws :: ws in sockets <==> ws in View().connections.Values
      modifies this
      ensures Valid()
      ensures ShutDownFrom(old(View()), View())
    {
      ghost var s := View();
      AllToClose(s, sockets);
      hide View, Inv, Closing, ShutDownFrom;
      for i := 0 to |sockets|
        invariant Valid()
        invariant Closing(s, View(), sockets[..i])
      {
        var ws := sockets[i];
        ghost var t := View();
        HandleWsClose(ws);
        ghost var u := View();
        MarkDown(ws);
        UnwatchedKeepsInv(u, View());
        ClosedOne(s, t, u, View(), sockets[..i], ws);
        assert sockets[..i + 1] == sockets[..i] + [ws];
      }
      assert sockets[..|sockets|] == sockets;
      AllClosed(s, View(), sockets);
    }
  }

  // ---------------------------------------------------------------------
  // What a caller learns

  /** A close callback, for its caller: the daemon the socket was installed for is
      away with its cleanup pending, and no other connection moved. */
  ghost predicate Closes(s: State, s': State, ws: Socket)
  {
    && s'.data == s.data - {ws} && s'.down == s.down
    && s'.connections == (map d | d in s.connections && !(s.connections[d] == ws && Tied(s, d)) :: s.connections[d])
    && s.cleanups.Keys + (s.connections.Keys - s'.connections.Keys) <= s'.cleanups.Keys
  }

  lemma ConnectedFacts(s: State, d: DaemonId)
    requires Inv(s) && d in s.connections
    ensures d !in s.cleanups && s.tables.RowActive(d) && d in s.keys && d in s.heartbeats && d in s.info
    ensures s.connections[d].protocol.Compatible?
  {
    assert Connected(s, d);
  }

  lemma CloseCloses(s: State, ws: Socket)
    ensures Closes(s, WsClose(s, ws), ws)
  {
    hide WsClose;
    CloseEffect(s, ws);
    CloseKeepsDown(s, ws);
  }

  /** The close of an installed socket also forgets its daemon's heartbeat, its
      record and that it was draining; the close of any other keeps all of them. */
  ghost predicate Forgets(s: State, s': State, ws: Socket)
  {
    if ws in s.data && s.data[ws] in s.connections && s.connections[s.data[ws]] == ws then
      && s'.heartbeats == s.heartbeats - {s.data[ws]} && s'.info == s.info - {s.data[ws]}
      && s'.draining == s.draining - {s.data[ws]}
    else
      s'.heartbeats == s.heartbeats && s'.info == s.info && s'.draining == s.draining
  }

  lemma CloseForgets(s: State, ws: Socket)
    ensures Forgets(s, WsClose(s, ws), ws)
  {
    hide WsClose;
    if ws in s.data && Installed(s, ws, s.data[ws]) {
      CloseShape(s, ws);
    } else {
      CloseMissShape(s, ws);
    }
  }

  /** The cleanup that ends is the one its daemon's entry names. */
  lemma EndCleanReopens(s: State, c: CleanupId)
    requires Inv(s) && Enabled(s, EndClean(c))
    ensures s.cleans[c].daemon !in FinishCleanup(s, c).cleanups
  {
  }

  lemma DrainKeepsInv(s: State, ws: Socket)
    requires Inv(s)
    ensures Inv(Next(s, Drain(ws)))
  {
    QuietKeepsInv(s, Drain(ws));
  }

  /** Neither connected nor with a cleanup pending. */
  predicate Cleared(s: State, d: DaemonId)
  {
    d !in s.connections && d !in s.cleanups
  }

  /** The register message is neither ignored nor refused, and nothing is awaited. */
  predicate PassesGate(s: State, r: RegId)
    requires r in s.regs
  {
    && s.regs[r].ws !in s.updating && s.regs[r].ws.protocol.Compatible?
    && s.regs[r].daemon !in s.cleanups
  }

  lemma GateClears(s: State, r: RegId)
    requires r in s.regs && s.regs[r].daemon !in s.cleanups
    ensures Cleared(AfterGate(s, r), s.regs[r].daemon)
  {
    if s.regs[r].daemon in s.connections {
      GateSupersedes(s, r);
    }
  }

  lemma BeginClears(s: State, r: RegId)
    requires r in s.regs
    ensures PassesGate(s, r) ==> Cleared(BeginRegister(s, r), s.regs[r].daemon)
  {
    hide AfterGate;
    if PassesGate(s, r) {
      GateClears(s, r);
    }
  }

  ghost predicate InstalledOrFenced(s: State, s': State, r: RegId)
    requires r in s.regs
  {
    var ws, d := s.regs[r].ws, s.regs[r].daemon;
    if ws in s.down then d !in s'.connections && d in s'.cleanups
    else
      Installed(s', ws, d) && d in s'.heartbeats && d !in s'.cleanups && s'.tables.RowActive(d) && d in s'.keys
  }

  lemma InstallOutcome(s: State, r: RegId, x: DeliveryId)
    requires Inv(s) && Resumable(s, r, x) && s.regs[r].pc.Registered?
    ensures Inv(Install(s, r)) && InstalledOrFenced(s, Install(s, r), r)
  {
    assert RegOk(s, s.regs[r]);
    hide Inv;
    if s.regs[r].ws in s.down {
      InstallDeadKeepsInv(s, r, x);
      InstallDeadWaits(s, r);
      InstallDeadShape(s, r);
    } else {
      InstallLiveKeepsInv(s, r, x);
      InstallLiveConnects(s, r);
    }
  }

  lemma AckKeepsInv(s: State, ws: Socket)
    requires Inv(s)
    ensures Inv(AckUpdate(s, ws))
  {
    hide Inv;
    UnwatchedKeepsInv(s, AckUpdate(s, ws));
  }

  // ---------------------------------------------------------------------
  // The shutdown loop

  /** Every connected socket was told to close; the connections their sockets answer
      for are gone, each with a cleanup; exactly the others are left. */
  ghost predicate ShutDownFrom(s: State, t: State)
  {
    && t.connections == (map d | d in s.connections && !Tied(s, d) :: s.connections[d])
    && (forall d :: d in s.connections ==> s.connections[d] in t.down)
    && (forall d :: d in s.connections && Tied(s, d) ==> d in t.cleanups)
  }

  /** `t` is what is left of `s` once the sockets in `closed` were closed. */
  ghost predicate Closing(s: State, t: State, closed: seq<Socket>)
  {
    && (forall ws :: ws in t.data <==> ws in s.data && ws !in closed)
    && (forall ws :: ws in t.data ==> t.data[ws] == s.data[ws])
    && (forall d :: d in t.connections <==> d in s.connections && !(s.connections[d] in closed && Tied(s, d)))
    && (forall d :: d in t.connections ==> t.connections[d] == s.connections[d])
    && (forall d :: d in s.connections && d !in t.connections ==> d in t.cleanups)
    && (forall ws :: ws in closed ==> ws in t.down)
  }

  lemma AllToClose(s: State, sockets: seq<Socket>)
    ensures Closing(s, s, sockets[..0])
  {
  }

  /** One turn of the shutdown loop: the callback takes `t` to `u`, and the close
      itself takes `u` to `v`. */
  lemma ClosedOne(s: State, t: State, u: State, v: State, closed: seq<Socket>, ws: Socket)
    requires Closing(s, t, closed) && Closes(t, u, ws) && v == u.(down := u.down + {ws})
    ensures Closing(s, v, closed + [ws])
  {
    forall d | d in t.connections && t.connections[d] == ws ensures Tied(t, d) <==> Tied(s, d) && ws !in closed {
    }
  }

  lemma AllClosed(s: State, t: State, sockets: seq<Socket>)
    requires Closing(s, t, sockets) && forall ws :: ws in sockets <==> ws in s.connections.Values
    ensures ShutDownFrom(s, t)
  {
    assert forall d :: d in s.connections ==> s.connections[d] in sockets;
  }
}
