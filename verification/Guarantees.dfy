/** What the lifecycle guarantees in every state it can reach. */
module Guarantees {
  import opened Basics
  import opened Ledger
  import opened Lifecycle
  import opened Fencing

  ghost predicate Reachable(s: State)
  {
    exists es :: IsRun(Init, es) && After(Init, es) == s
  }

  lemma ReachableInv(s: State)
    requires Reachable(s)
    ensures Inv(s)
  {
    var es :| IsRun(Init, es) && After(Init, es) == s;
    RunKeepsInv(Init, es);
  }

  /** An unfinished disconnect cleanup of `d` exists. */
  ghost predicate CleanupRunning(s: State, d: DaemonId)
  {
    exists c :: c in s.cleans && s.cleans[c].daemon == d && !s.cleans[c].pc.CGone?
  }

  /** Fencing, in every reachable state: a connected daemon has no cleanup pending
      or running, its row is active, its liveness key is set, and it has a
      heartbeat; nobody else has one. */
  lemma ConnectedIsFenced(s: State, d: DaemonId)
    requires Reachable(s)
    ensures d in s.connections <==> d in s.heartbeats
    ensures d in s.connections ==>
      !CleanupRunning(s, d) && d !in s.cleanups && s.tables.RowActive(d) && d in s.keys && d in s.info
  {
    ReachableInv(s);
    if d in s.connections {
      assert Connected(s, d);
      forall c | c in s.cleans && s.cleans[c].daemon == d
        ensures s.cleans[c].pc.CGone?
      {
        assert !s.cleans[c].pc.CGone? ==> d in s.cleanups;
      }
    }
  }

  /** No step of an old cleanup, however late, touches a daemon that is connected
      or on its way to be: its own daemon is away, and everyone else's row, key and
      connection stay as they are. */
  lemma LateCleanupIsHarmless(s: State, c: CleanupId, o: Outcome)
    requires Reachable(s) && Enabled(s, Clean(c, o))
    ensures Unharmed(s, CleanupStep(s, c, o), s.cleans[c].daemon)
  {
    hide Reachable, CleanupStep, Inv, CleanShape;
    ReachableInv(s);
    CleanKeepsInv(s, c, o);
    CleanHasShape(s, c, o);
    ShapeIsHarmless(s, CleanupStep(s, c, o), c);
  }

  /** Daemon `d` is away, and whoever is connected stays connected, active and live. */
  ghost predicate Unharmed(s: State, s': State, d: DaemonId)
  {
    && d !in s.connections && s'.connections == s.connections && s'.heartbeats == s.heartbeats
    && (forall r :: r in s.regs && s.regs[r].daemon == d ==> !Critical(s.regs[r].pc))
    && (forall d' :: d' in s.connections ==> s'.tables.RowActive(d') && d' in s'.keys)
  }

  lemma ShapeIsHarmless(s: State, s': State, c: CleanupId)
    requires c in s.cleans && !s.cleans[c].pc.CGone? && CleanShape(s, s', c)
    requires Inv(s) && Inv(s')
    ensures Unharmed(s, s', s.cleans[c].daemon)
  {
    PendingMeansAway(s, s.cleans[c].daemon);
    forall d' | d' in s.connections
      ensures s'.tables.RowActive(d') && d' in s'.keys
    {
      assert Connected(s', d');
    }
  }

  /** A socket that dies while its registration is awaiting storage is not
      installed; its row is fenced by a cleanup before the registration ends. */
  lemma DeadSocketIsFenced(s: State, r: RegId, x: DeliveryId, o: Outcome)
    requires Reachable(s) && Resumable(s, r, x) && s.regs[r].pc.Registered? && s.regs[r].ws in s.down
    ensures var s', d := Next(s, Continue(r, o, x)), s.regs[r].daemon;
      && d !in s'.connections && CleanupRunning(s', d) && s'.connections == s.connections
      && (exists c :: c in s'.cleans && s'.cleans[c] == Cleanup(d, FailTx) && s'.regs[r].pc == OwnCleanupWait(c))
  {
    hide Install, Queue, Reachable;
    ReachableInv(s);
    assert RegOk(s, s.regs[r]);
    var s', d := Install(s, r), s.regs[r].daemon;
    InstallDeadShape(s, r);
    var c := StartCleanup(s, d).1;
    assert s'.cleans[c] == Cleanup(d, FailTx) && s'.regs[r].pc == OwnCleanupWait(c);
  }

  /** Registrations of one daemon run one at a time and in arrival order, and the
      map holds the last one queued while any of them is unfinished. */
  lemma RegistrationsAreSerial(s: State, r: RegId, q: RegId)
    requires Reachable(s) && r in s.regs && q in s.regs && s.regs[r].daemon == s.regs[q].daemon
    ensures r < q && Started(s.regs[q].pc) ==> Finished(s.regs[r].pc)
    ensures Active(s.regs[r].pc) && Active(s.regs[q].pc) ==> r == q
    ensures !Finished(s.regs[r].pc) ==> s.regs[r].daemon in s.regTail && q <= s.regTail[s.regs[r].daemon]
  {
    ReachableInv(s);
    OneActive(s.regs, r, q);
    if r < q {
      assert Behind(r, s.regs[r], s.regs[q]);
    }
  }

  /** A close callback touches the connection maps exactly when its socket is the
      installed one: a superseded socket's is inert. */
  lemma CloseActsIffInstalled(s: State, ws: Socket)
    requires Reachable(s)
    ensures var s', hit := WsClose(s, ws), ws in s.data && Installed(s, ws, s.data[ws]);
      && (!hit ==> s' == s.(updating := s'.updating, data := s'.data))
      && (hit ==> s'.connections != s.connections && s'.heartbeats != s.heartbeats
                  && CleanupRunning(s', s.data[ws]) && s.data[ws] !in s'.connections)
  {
    ReachableInv(s);
    if ws in s.data && Installed(s, ws, s.data[ws]) {
      CloseShape(s, ws);
      var s', d := WsClose(s, ws), s.data[ws];
      assert Connected(s, d);
      assert s'.cleans[s'.cleanups[d]].daemon == d;
      assert d in s.connections && d !in s'.connections;
      assert d in s.heartbeats && d !in s'.heartbeats;
    } else {
      CloseMissShape(s, ws);
    }
  }

  /** A socket in the protocol-update transition is never the installed one, and
      an outdated or incompatible socket never becomes it. */
  lemma OutdatedIsNeverInstalled(s: State, ws: Socket)
    requires Reachable(s)
    ensures ws in s.updating || !ws.protocol.Compatible? ==> ws !in s.connections.Values
  {
    ReachableInv(s);
    if ws in s.connections.Values {
      var d :| d in s.connections && s.connections[d] == ws;
      assert Connected(s, d);
    }
  }

  // ---------------------------------------------------------------------
  // What a close callback leaves behind

  /** The connection of `d` is one its socket still answers for. */
  predicate Tied(s: State, d: DaemonId)
  {
    d in s.connections && s.connections[d] in s.data && s.data[s.connections[d]] == d
  }

  /** The socket holds a connection other than that of the daemon it answers for. */
  ghost predicate HoldsAnother(s: State, ws: Socket)
  {
    exists d :: d in s.connections && s.connections[d] == ws && !Tied(s, d)
  }

  /** What a close does to the maps: it takes the one connection the socket answers
      for, if it holds it, and no other. */
  lemma CloseEffect(s: State, ws: Socket)
    ensures var s' := WsClose(s, ws);
      && s'.data == s.data - {ws}
      && s'.connections == (map d | d in s.connections && !(s.connections[d] == ws && Tied(s, d)) :: s.connections[d])
      && s.cleanups.Keys + (s.connections.Keys - s'.connections.Keys) <= s'.cleanups.Keys
  {
    hide WsClose;
    if ws in s.data && Installed(s, ws, s.data[ws]) {
      CloseShape(s, ws);
    } else {
      CloseMissShape(s, ws);
    }
  }

  /** A close callback leaves its socket behind in `connections` if and only if the
      socket holds a connection other than that of the daemon it answers for. */
  lemma StrandedIff(s: State, ws: Socket)
    ensures ws in WsClose(s, ws).connections.Values <==> HoldsAnother(s, ws)
  {
    hide WsClose;
    CloseEffect(s, ws);
    var s' := WsClose(s, ws);
    if ws in s'.connections.Values {
      var d :| d in s'.connections && s'.connections[d] == ws;
      assert s.connections[d] == ws && !Tied(s, d);
    }
    if d :| d in s.connections && s.connections[d] == ws && !Tied(s, d) {
      assert d in s'.connections && s'.connections[d] == ws;
    }
  }

  /** The same of the callback after any run. */
  lemma StrandedAfterRun(es: seq<Event>, ws: Socket)
    requires IsRun(Init, es)
    ensures ws in Next(After(Init, es), Closed(ws)).connections.Values <==> HoldsAnother(After(Init, es), ws)
  {
    hide WsClose;
    var s := After(Init, es);
    StrandedIff(s.(down := s.down + {ws}), ws);
  }

  // ---------------------------------------------------------------------
  // A socket that registers twice

  lemma {:induction false} RunAppends(s: State, es: seq<Event>, e: Event)
    requires IsRun(s, es) && Enabled(After(s, es), e)
    ensures IsRun(s, es + [e]) && After(s, es + [e]) == Next(After(s, es), e)
    decreases |es|
  {
    hide Next, Enabled;
    if es == [] {
      assert es + [e] == [e] && [e][1..] == [];
      assert IsRun(Next(s, e), [e][1..]) && After(Next(s, e), [e][1..]) == Next(s, e);
    } else {
      assert (es + [e])[1..] == es[1..] + [e] && (es + [e])[0] == es[0];
      RunAppends(Next(s, es[0]), es[1..], e);
    }
  }

  /** A registration of `d` over `ws` is at `pc`, and nothing else has moved. */
  predicate InProgress(start: State, s: State, r: RegId, ws: Socket, d: DaemonId, pc: RegPc)
  {
    && r in s.regs && s.regs[r] == Reg(ws, d, pc) && s.regTail == start.regTail[d := r]
    && s.connections == start.connections && s.data == start.data && s.cleanups == start.cleanups
    && s.updating == start.updating && s.down == start.down && s.locked == start.locked
  }

  /** Nothing keeps `d` from registering over `ws` at once. */
  predicate Free(s: State, ws: Socket, d: DaemonId)
  {
    && ws.protocol.Compatible? && ws !in s.updating && ws !in s.down && s.locked.None?
    && d !in s.regTail && d !in s.cleanups && d !in s.connections
  }

  lemma Advances(start: State, s: State, r: RegId, ws: Socket, d: DaemonId, pc: RegPc) returns (pc': RegPc)
    requires Free(start, ws, d) && InProgress(start, s, r, ws, d, pc)
    requires pc in {Waiting(None), SetLive, Index, UpsertRow}
    ensures Enabled(s, Continue(r, Done, 0)) && InProgress(start, Next(s, Continue(r, Done, 0)), r, ws, d, pc')
    ensures pc' == match pc
              case Waiting(_) => SetLive
              case SetLive => Index
              case Index => UpsertRow
              case _ => Registered
  {
    hide UpsertDaemon;
    pc' := match pc
      case Waiting(_) => SetLive
      case SetLive => Index
      case Index => UpsertRow
      case _ => Registered;
  }

  lemma Installs(start: State, s: State, r: RegId, ws: Socket, d: DaemonId)
    requires Free(start, ws, d) && InProgress(start, s, r, ws, d, Registered)
    ensures Enabled(s, Continue(r, Done, 0))
    ensures var s' := Next(s, Continue(r, Done, 0));
      && Enabled(s', EndRegister(r))
      && Next(s', EndRegister(r)).connections == start.connections[d := ws]
      && Next(s', EndRegister(r)).data == start.data[ws := d]
      && Next(s', EndRegister(r)).regTail == start.regTail
      && Next(s', EndRegister(r)).cleanups == start.cleanups && Next(s', EndRegister(r)).updating == start.updating
      && Next(s', EndRegister(r)).down == start.down && Next(s', EndRegister(r)).locked == start.locked
  {
    var s' := Next(s, Continue(r, Done, 0));
    assert s'.regs[r] == Reg(ws, d, Settled) && s'.regTail == start.regTail[d := r];
    assert start.regTail[d := r] - {d} == start.regTail;
  }

  /** A registration that nothing gets in the way of, from its message to its end. */
  lemma RegistrationRuns(es: seq<Event>, ws: Socket, d: DaemonId) returns (es': seq<Event>)
    requires IsRun(Init, es) && Free(After(Init, es), ws, d)
    ensures IsRun(Init, es') && es <= es'
    ensures var s, s' := After(Init, es), After(Init, es');
      && s'.connections == s.connections[d := ws] && s'.data == s.data[ws := d] && s'.regTail == s.regTail
      && s'.cleanups == s.cleanups && s'.updating == s.updating && s'.down == s.down && s'.locked == s.locked
  {
    var start := After(Init, es);
    var r, e := start.next, Continue(start.next, Done, 0);
    assert InProgress(start, Next(start, Register(ws, d)), r, ws, d, Waiting(None));
    assert Enabled(start, Register(ws, d));
    hide Next, Enabled, InProgress, Free, IsRun, After;
    RunAppends(Init, es, Register(ws, d));
    es' := es + [Register(ws, d)];
    var pc := Waiting(None);
    var k := 0;
    while k < 4
      invariant k <= 4 && es <= es' && IsRun(Init, es')
      invariant InProgress(start, After(Init, es'), r, ws, d, pc)
      invariant pc == match k
                  case 0 => Waiting(None)
                  case 1 => SetLive
                  case 2 => Index
                  case 3 => UpsertRow
                  case _ => Registered
    {
      pc := Advances(start, After(Init, es'), r, ws, d, pc);
      RunAppends(Init, es', e);
      es', k := es' + [e], k + 1;
    }
    Installs(start, After(Init, es'), r, ws, d);
    RunAppends(Init, es', e);
    es' := es' + [e];
    RunAppends(Init, es', EndRegister(r));
    es' := es' + [EndRegister(r)];
  }

  /** Such a run exists: a socket registers for one daemon and then for another, and
      closes. The first daemon stays in `connections` with a closed socket. */
  lemma SecondRegistrationStrands(ws: Socket, d: DaemonId, d': DaemonId) returns (es: seq<Event>)
    requires ws.protocol.Compatible? && d != d'
    ensures IsRun(Init, es)
    ensures var s := Next(After(Init, es), Closed(ws)); d in s.connections && s.connections[d] == ws && ws in s.down
  {
    assert Free(Init, ws, d);
    es := RegistrationRuns([], ws, d);
    es := RegistrationRuns(es, ws, d');
    hide WsClose, IsRun, After;
    var s := After(Init, es);
    var t := s.(down := s.down + {ws});
    assert s.connections[d] == ws && s.data[ws] == d';
    CloseEffect(t, ws);
    CloseKeepsDown(t, ws);
  }

  lemma CloseKeepsDown(s: State, ws: Socket)
    ensures WsClose(s, ws).down == s.down
  {
  }

  // ---------------------------------------------------------------------
  // A socket that registers for one daemon only

  /** A run in which `ws` sends register messages for `d` alone; what the other
      sockets send is arbitrary. */
  ghost predicate IsSoleRun(s: State, es: seq<Event>, ws: Socket, d: DaemonId)
    decreases |es|
  {
    es == [] ||
    (Enabled(s, es[0]) && (es[0].Register? && es[0].ws == ws ==> es[0].d == d) && IsSoleRun(Next(s, es[0]), es[1..], ws, d))
  }

  /** `ws` has to do with `d` alone, and answers for the connection it holds. */
  ghost predicate Sole(s: State, ws: Socket, d: DaemonId)
  {
    && (forall r :: r in s.regs && s.regs[r].ws == ws ==> s.regs[r].daemon == d)
    && (ws in s.data ==> s.data[ws] == d)
    && (forall x :: x in s.connections && s.connections[x] == ws ==> x == d && ws in s.data)
  }

  lemma SoleShape(s: State, s': State, ws: Socket, d: DaemonId)
    requires Sole(s, ws, d) && s'.regs == s.regs && s'.data == s.data && s'.connections == s.connections
    ensures Sole(s', ws, d)
  {
  }

  lemma SoleMoves(s: State, s': State, r: RegId, pc: RegPc, ws: Socket, d: DaemonId)
    requires Sole(s, ws, d) && r in s.regs && s'.regs == s.regs[r := s.regs[r].(pc := pc)]
    requires s'.data == s.data && s'.connections == s.connections
    ensures Sole(s', ws, d)
  {
  }

  lemma CloseKeepsSole(s: State, closing: Socket, ws: Socket, d: DaemonId)
    requires Sole(s, ws, d)
    ensures Sole(WsClose(s, closing), ws, d)
  {
    hide WsClose;
    CloseEffect(s, closing);
    var s' := WsClose(s, closing);
    assert s'.regs == s.regs by {
      if closing in s.data && Installed(s, closing, s.data[closing]) {
        CloseShape(s, closing);
      } else {
        CloseMissShape(s, closing);
      }
    }
    forall x | x in s'.connections && s'.connections[x] == ws ensures x == d && ws in s'.data {
      assert x in s.connections && s.connections[x] == ws;
      assert closing == ws ==> Tied(s, x);
    }
  }

  lemma GateKeepsSole(s: State, r: RegId, ws: Socket, d: DaemonId)
    requires Sole(s, ws, d) && r in s.regs
    ensures Sole(AfterGate(s, r), ws, d)
  {
    var taken := s.regs[r].daemon;
    if taken in s.connections {
      GateSupersedes(s, r);
      hide AfterGate;
      var s', existing := AfterGate(s, r), s.connections[taken];
      assert s'.connections == s.connections - {taken} && s'.data == s.data - {existing};
    } else {
      SoleMoves(s, At(s, r, SetLive), r, SetLive, ws, d);
    }
  }

  lemma InstallLiveKeepsSole(s: State, r: RegId, ws: Socket, d: DaemonId)
    requires Sole(s, ws, d) && r in s.regs && s.regs[r].ws !in s.down
    ensures Sole(Install(s, r), ws, d)
  {
    var s', sender, taken := Install(s, r), s.regs[r].ws, s.regs[r].daemon;
    assert s'.data == s.data[sender := taken] && s'.connections == s.connections[taken := sender];
    assert s'.regs == s.regs[r := s.regs[r].(pc := Settled)];
    hide Install;
  }

  lemma InstallKeepsSole(s: State, r: RegId, ws: Socket, d: DaemonId)
    requires Sole(s, ws, d) && r in s.regs
    ensures Sole(Install(s, r), ws, d)
  {
    if s.regs[r].ws in s.down {
      InstallDeadShape(s, r);
      hide Install;
      var (t, c) := StartCleanup(s, s.regs[r].daemon);
      assert t.data == s.data && t.connections == s.connections;
      SoleMoves(s, Install(s, r), r, OwnCleanupWait(c), ws, d);
    } else {
      InstallLiveKeepsSole(s, r, ws, d);
    }
  }

  lemma AtKeepsSole(s: State, t: State, r: RegId, pc: RegPc, ws: Socket, d: DaemonId)
    requires Sole(s, ws, d) && r in s.regs
    requires t.regs == s.regs && t.data == s.data && t.connections == s.connections
    ensures Sole(At(t, r, pc), ws, d)
  {
    SoleMoves(s, At(t, r, pc), r, pc, ws, d);
  }

  lemma BeginKeepsSole(s: State, r: RegId, ws: Socket, d: DaemonId)
    requires Sole(s, ws, d) && r in s.regs
    ensures Sole(BeginRegister(s, r), ws, d)
  {
    hide Sole, AfterGate, StartCleanup, At;
    var sender := s.regs[r].ws;
    if sender in s.updating {
      AtKeepsSole(s, s, r, Settled, ws, d);
    } else if sender.protocol.Outdated? {
      AtKeepsSole(s, s.(updating := s.updating[sender := AwaitingAck]), r, Settled, ws, d);
    } else if sender.protocol.Incompatible? {
      AtKeepsSole(s, s.(down := s.down + {sender}), r, Settled, ws, d);
    } else if s.regs[r].daemon in s.cleanups {
      AtKeepsSole(s, s, r, CleanupWait(s.cleanups[s.regs[r].daemon]), ws, d);
    } else {
      GateKeepsSole(s, r, ws, d);
    }
  }

  lemma ContinueKeepsSole(s: State, r: RegId, o: Outcome, x: DeliveryId, ws: Socket, d: DaemonId)
    requires Sole(s, ws, d) && Resumable(s, r, x)
    ensures Sole(Resume(s, r, o, x), ws, d)
  {
    hide Sole;
    var pc := s.regs[r].pc;
    if pc.Waiting? {
      BeginKeepsSole(s, r, ws, d);
    } else if pc.CleanupWait? {
      GateKeepsSole(s, r, ws, d);
    } else if pc.Registered? {
      InstallKeepsSole(s, r, ws, d);
    } else if pc.OrphanQuery? || pc.OrphanFail? {
      var t, pc' := OrphanShape(s, r, o, x);
      hide Resume;
      AtKeepsSole(s, s.(tables := t), r, pc', ws, d);
    } else {
      StorageKeepsSole(s, r, o, x, ws, d);
    }
  }

  lemma StorageKeepsSole(s: State, r: RegId, o: Outcome, x: DeliveryId, ws: Socket, d: DaemonId)
    requires Sole(s, ws, d) && Resumable(s, r, x)
    requires s.regs[r].pc in {SetLive, Index, UpsertRow} || s.regs[r].pc.OwnCleanupWait?
    ensures Sole(Resume(s, r, o, x), ws, d)
  {
    hide Sole;
    if s.regs[r].pc.UpsertRow? {
      UpsertShape(s, r, o, x);
      hide Resume;
      AtKeepsSole(s, Resume(s, r, o, x).(regs := s.regs), r, if o.Done? then Registered else Settled, ws, d);
    } else if s.regs[r].pc.OwnCleanupWait? {
      AtKeepsSole(s, s, r, Settled, ws, d);
    } else {
      var keys, pc := KeyStepShape(s, r, o, x);
      hide Resume;
      AtKeepsSole(s, s.(keys := keys), r, pc, ws, d);
    }
  }

  lemma CleanKeepsSole(s: State, c: CleanupId, o: Outcome, ws: Socket, d: DaemonId)
    requires Sole(s, ws, d) && Enabled(s, Clean(c, o))
    ensures Sole(CleanupStep(s, c, o), ws, d)
  {
    hide CleanupStep, Sole;
    CleanHasShape(s, c, o);
    SoleShape(s, CleanupStep(s, c, o), ws, d);
  }

  lemma ClosedKeepsSole(s: State, closing: Socket, ws: Socket, d: DaemonId)
    requires Sole(s, ws, d)
    ensures Sole(WsClose(s.(down := s.down + {closing}), closing), ws, d)
    ensures var s' := WsClose(s, closing); Sole(s'.(down := s'.down + {closing}), ws, d)
  {
    hide WsClose, Sole;
    SoleShape(s, s.(down := s.down + {closing}), ws, d);
    CloseKeepsSole(s.(down := s.down + {closing}), closing, ws, d);
    CloseKeepsSole(s, closing, ws, d);
    var s' := WsClose(s, closing);
    SoleShape(s', s'.(down := s'.down + {closing}), ws, d);
  }

  lemma EndRegisterKeepsSole(s: State, r: RegId, ws: Socket, d: DaemonId)
    requires Sole(s, ws, d) && r in s.regs
    ensures Sole(FinishRegistration(s, r), ws, d)
  {
    hide Sole;
    SoleMoves(s, FinishRegistration(s, r), r, Gone, ws, d);
  }

  /** The events of neither a registration nor a cleanup nor a closing socket. */
  lemma OtherShape(s: State, e: Event)
    requires Enabled(s, e) && !e.Register? && !e.Continue? && !e.EndRegister? && !e.Clean? && !e.Closed? && !e.ShutDown?
    ensures Next(s, e).regs == s.regs && Next(s, e).data == s.data && Next(s, e).connections == s.connections
  {
    hide WsClose, Resume, CleanupStep, FailOwnership, QueueRegistration, FinishRegistration;
  }

  lemma NextKeepsSole(s: State, e: Event, ws: Socket, d: DaemonId)
    requires Sole(s, ws, d) && Enabled(s, e) && (e.Register? && e.ws == ws ==> e.d == d)
    ensures Sole(Next(s, e), ws, d)
  {
    hide Sole, WsClose, Resume, CleanupStep, FailOwnership, QueueRegistration, FinishRegistration, FinishCleanup;
    match e
    case Register(sender, taken) => RegisterKeepsSole(s, sender, taken, ws, d);
    case Continue(r, o, x) => ContinueKeepsSole(s, r, o, x, ws, d);
    case EndRegister(r) => EndRegisterKeepsSole(s, r, ws, d);
    case Clean(c, o) => CleanKeepsSole(s, c, o, ws, d);
    case Closed(closing) => ClosedKeepsSole(s, closing, ws, d);
    case ShutDown(x) => ClosedKeepsSole(s, s.connections[x], ws, d);
    case _ =>
      OtherShape(s, e);
      SoleShape(s, Next(s, e), ws, d);
  }

  lemma RegisterKeepsSole(s: State, sender: Socket, taken: DaemonId, ws: Socket, d: DaemonId)
    requires Sole(s, ws, d) && (sender == ws ==> taken == d)
    ensures Sole(QueueRegistration(s, sender, taken), ws, d)
  {
  }

  lemma {:induction false} SoleRunKeepsSole(s: State, es: seq<Event>, ws: Socket, d: DaemonId)
    requires Sole(s, ws, d) && IsSoleRun(s, es, ws, d)
    ensures IsRun(s, es) && Sole(After(s, es), ws, d)
    decreases |es|
  {
    if es != [] {
      hide Next, Sole;
      NextKeepsSole(s, es[0], ws, d);
      SoleRunKeepsSole(Next(s, es[0]), es[1..], ws, d);
    }
  }

  /** A socket that has only ever registered for one daemon is not left behind by
      its close callback, whatever the other sockets do. */
  lemma NoStrandedSocket(es: seq<Event>, ws: Socket, d: DaemonId)
    requires IsSoleRun(Init, es, ws, d)
    ensures IsRun(Init, es)
    ensures ws !in Next(After(Init, es), Closed(ws)).connections.Values
  {
    hide Next;
    SoleRunKeepsSole(Init, es, ws, d);
    StrandedAfterRun(es, ws);
  }
}
