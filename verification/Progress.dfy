/** No routine of the lifecycle is ever stuck: whatever waits, waits for something
    that can move. */
module Progress {
  import opened Basics
  import opened Ledger
  import opened Lifecycle
  import opened Fencing
  import opened Guarantees

  /** What a suspended registration waits for exists, and is its own daemon's. */
  ghost predicate WaitOk(s: State, reg: Reg)
  {
    && (reg.pc.OwnCleanupWait? ==> reg.pc.cleanup in s.cleans && s.cleans[reg.pc.cleanup].daemon == reg.daemon)
    && (reg.pc.OrphanFail? ==> reg.pc.todo != {})
  }

  ghost predicate Waits(s: State)
  {
    forall r :: r in s.regs ==> WaitOk(s, s.regs[r])
  }

  /** Cleanups are never forgotten and never change hands. */
  ghost predicate CleansKept(s: State, s': State)
  {
    forall c :: c in s.cleans ==> c in s'.cleans && s'.cleans[c].daemon == s.cleans[c].daemon
  }

  /** At most registration `r` moves. */
  ghost predicate Moves(s: State, s': State, r: RegId)
  {
    && r in s'.regs && (forall q :: q in s'.regs && q != r ==> q in s.regs && s'.regs[q] == s.regs[q])
    && CleansKept(s, s')
    && WaitOk(s', s'.regs[r])
  }

  ghost predicate Stays(s: State, s': State)
  {
    s'.regs == s.regs && CleansKept(s, s')
  }

  lemma MovesKeepsWaits(s: State, s': State, r: RegId)
    requires Waits(s) && Moves(s, s', r)
    ensures Waits(s')
  {
    forall q | q in s'.regs ensures WaitOk(s', s'.regs[q]) {
      assert q != r ==> WaitOk(s, s.regs[q]);
    }
  }

  lemma StaysKeepsWaits(s: State, s': State)
    requires Waits(s) && Stays(s, s')
    ensures Waits(s')
  {
    forall q | q in s'.regs ensures WaitOk(s', s'.regs[q]) {
      assert WaitOk(s, s.regs[q]);
    }
  }

  lemma GateMoves(s: State, r: RegId)
    requires r in s.regs
    ensures Moves(s, AfterGate(s, r), r)
  {
  }

  lemma AtMoves(s: State, t: State, r: RegId, pc: RegPc)
    requires r in s.regs && t.regs == s.regs && t.cleans == s.cleans && WaitOk(t, s.regs[r].(pc := pc))
    ensures Moves(s, At(t, r, pc), r)
  {
  }

  lemma BeginMoves(s: State, r: RegId)
    requires r in s.regs
    ensures Moves(s, BeginRegister(s, r), r)
  {
    hide AfterGate, At, Moves;
    var ws, d := s.regs[r].ws, s.regs[r].daemon;
    if ws in s.updating {
      AtMoves(s, s, r, Settled);
    } else if ws.protocol.Outdated? {
      AtMoves(s, s.(updating := s.updating[ws := AwaitingAck]), r, Settled);
    } else if ws.protocol.Incompatible? {
      AtMoves(s, s.(down := s.down + {ws}), r, Settled);
    } else if d in s.cleanups {
      AtMoves(s, s, r, CleanupWait(s.cleanups[d]));
    } else {
      GateMoves(s, r);
    }
  }

  lemma InstallMoves(s: State, r: RegId)
    requires r in s.regs && Cleaning(s)
    ensures Moves(s, Install(s, r), r)
  {
    if s.regs[r].ws in s.down {
      hide Install;
      InstallDeadShape(s, r);
      StartKeepsCleanupMap(s, s.regs[r].daemon);
    }
  }

  lemma StorageMoves(s: State, r: RegId, o: Outcome, x: DeliveryId)
    requires Resumable(s, r, x)
    requires s.regs[r].pc in {SetLive, Index, UpsertRow} || s.regs[r].pc.OwnCleanupWait?
    ensures Moves(s, Resume(s, r, o, x), r)
  {
    hide UpsertDaemon;
  }

  lemma OrphanMoves(s: State, r: RegId, o: Outcome, x: DeliveryId)
    requires Resumable(s, r, x) && (s.regs[r].pc.OrphanQuery? || s.regs[r].pc.OrphanFail?)
    ensures Moves(s, Resume(s, r, o, x), r)
  {
    hide MarkFailed, OrphansOf, At, Moves;
    var d := s.regs[r].daemon;
    if s.regs[r].pc.OrphanQuery? {
      var todo := OrphansOf(s.tables, d);
      AtMoves(s, s, r, if !o.Done? then Settled else if todo == {} then SetLive else OrphanFail(todo));
    } else {
      var todo := s.regs[r].pc.todo;
      assert todo != {x} ==> todo - {x} != {};
      AtMoves(s, s.(tables := if o.Applied() then MarkFailed(s.tables, x, RECONNECTED, s.clock) else s.tables), r,
              if todo == {x} then SetLive else OrphanFail(todo - {x}));
    }
  }

  lemma ContinueMoves(s: State, r: RegId, o: Outcome, x: DeliveryId)
    requires Resumable(s, r, x) && Cleaning(s)
    ensures Moves(s, Resume(s, r, o, x), r)
  {
    hide Moves, Cleaning;
    var pc := s.regs[r].pc;
    if pc.Waiting? {
      BeginMoves(s, r);
    } else if pc.CleanupWait? {
      GateMoves(s, r);
    } else if pc.Registered? {
      InstallMoves(s, r);
    } else if pc.OrphanQuery? || pc.OrphanFail? {
      OrphanMoves(s, r, o, x);
    } else {
      StorageMoves(s, r, o, x);
    }
  }

  lemma CloseStays(s: State, ws: Socket)
    requires CleanupMap(s.cleans, s.cleanups, s.next)
    ensures Stays(s, WsClose(s, ws))
  {
    if ws in s.data && Installed(s, ws, s.data[ws]) {
      CloseShape(s, ws);
    } else {
      CloseMissShape(s, ws);
    }
  }

  lemma RegisterMoves(s: State, ws: Socket, d: DaemonId)
    ensures Moves(s, QueueRegistration(s, ws, d), s.next)
  {
  }

  lemma EndRegisterMoves(s: State, r: RegId)
    requires r in s.regs
    ensures Moves(s, FinishRegistration(s, r), r)
  {
  }

  lemma CleanStays(s: State, c: CleanupId, o: Outcome)
    requires Enabled(s, Clean(c, o))
    ensures Stays(s, CleanupStep(s, c, o))
  {
    hide CleanupStep;
    CleanHasShape(s, c, o);
  }

  lemma ShutDownStays(s: State, s': State, ws: Socket)
    requires CleanupMap(s.cleans, s.cleanups, s.next)
    requires s'.regs == WsClose(s, ws).regs && s'.cleans == WsClose(s, ws).cleans
    ensures Stays(s, s')
  {
    CloseStays(s, ws);
  }

  /** The events of neither a registration nor a cleanup nor a closing socket. */
  lemma QuietStays(s: State, e: Event)
    requires Enabled(s, e) && !e.Register? && !e.Continue? && !e.EndRegister? && !e.Clean? && !e.Closed? && !e.ShutDown?
    ensures Stays(s, Next(s, e))
  {
    hide WsClose, Resume, CleanupStep, FailOwnership, QueueRegistration, FinishRegistration;
  }

  lemma NextKeepsWaits(s: State, e: Event)
    requires Waits(s) && Inv(s) && Enabled(s, e)
    ensures Waits(Next(s, e))
  {
    InvCleans(s);
    hide Waits, Inv, Cleaning, CleanupMap, Moves, Stays, CleansKept;
    hide WsClose, Resume, CleanupStep, FailOwnership, QueueRegistration, FinishRegistration, FinishCleanup;
    match e
    case Register(ws, d) =>
      RegisterMoves(s, ws, d);
      MovesKeepsWaits(s, Next(s, e), s.next);
    case Continue(r, o, x) =>
      ContinueMoves(s, r, o, x);
      MovesKeepsWaits(s, Next(s, e), r);
    case EndRegister(r) =>
      EndRegisterMoves(s, r);
      MovesKeepsWaits(s, Next(s, e), r);
    case Clean(c, o) =>
      CleanStays(s, c, o);
      StaysKeepsWaits(s, Next(s, e));
    case Closed(ws) =>
      var t := s.(down := s.down + {ws});
      CloseStays(t, ws);
      DownStays(s, t, Next(s, e));
      StaysKeepsWaits(s, Next(s, e));
    case ShutDown(d) =>
      ShutDownStays(s, Next(s, e), s.connections[d]);
      StaysKeepsWaits(s, Next(s, e));
    case _ =>
      QuietStays(s, e);
      StaysKeepsWaits(s, Next(s, e));
  }

  lemma DownStays(s: State, t: State, s': State)
    requires t.regs == s.regs && t.cleans == s.cleans && Stays(t, s')
    ensures Stays(s, s')
  {
  }

  lemma InvCleans(s: State)
    requires Inv(s)
    ensures Cleaning(s) && CleanupMap(s.cleans, s.cleanups, s.next)
  {
  }

  // ---------------------------------------------------------------------
  // Somebody can move

  /** A step of a routine of daemon `d`, or the end of the reaper's transaction on
      its row: what happens without any message, socket or timer. */
  predicate About(s: State, e: Event, d: DaemonId)
  {
    match e
    case Continue(r, _, _) => r in s.regs && s.regs[r].daemon == d
    case EndRegister(r) => r in s.regs && s.regs[r].daemon == d
    case Clean(c, _) => c in s.cleans && s.cleans[c].daemon == d
    case EndClean(c) => c in s.cleans && s.cleans[c].daemon == d
    case ReapCommit => s.locked == Some(d)
    case _ => false
  }

  ghost predicate CanMove(s: State, d: DaemonId)
  {
    exists e :: About(s, e, d) && Enabled(s, e)
  }

  lemma CleanupCanMove(s: State, c: CleanupId)
    requires c in s.cleans && !s.cleans[c].pc.CGone?
    ensures CanMove(s, s.cleans[c].daemon)
  {
    var d := s.cleans[c].daemon;
    if s.cleans[c].pc.CSettled? {
      assert About(s, EndClean(c), d) && Enabled(s, EndClean(c));
    } else if s.locked == Some(d) {
      assert About(s, ReapCommit, d) && Enabled(s, ReapCommit);
    } else {
      assert About(s, Clean(c, Done), d) && Enabled(s, Clean(c, Done));
    }
  }

  lemma ResumableCanMove(s: State, r: RegId, x: DeliveryId)
    requires Resumable(s, r, x)
    ensures CanMove(s, s.regs[r].daemon)
  {
    assert About(s, Continue(r, Done, x), s.regs[r].daemon) && Enabled(s, Continue(r, Done, x));
  }

  /** Following the queue of a daemon back from a waiting registration ends at one
      that can move, or at one that waits for a cleanup of that daemon that can. */
  lemma {:induction false} RegistrationCanMove(s: State, r: RegId)
    requires Queue(s) && Fence(s) && Waits(s) && r in s.regs && !s.regs[r].pc.Gone?
    ensures CanMove(s, s.regs[r].daemon)
    decreases r
  {
    var pc, d := s.regs[r].pc, s.regs[r].daemon;
    assert WaitOk(s, s.regs[r]) && RegOk(s, s.regs[r]);
    hide CanMove;
    match pc
    case Waiting(p) =>
      if p.None? || Finished(s.regs[p.value].pc) {
        ResumableCanMove(s, r, 0);
      } else {
        RegistrationCanMove(s, p.value);
      }
    case CleanupWait(c) =>
      if s.cleans[c].pc.CGone? {
        ResumableCanMove(s, r, 0);
      } else {
        CleanupCanMove(s, c);
      }
    case OwnCleanupWait(c) =>
      if s.cleans[c].pc.CGone? {
        ResumableCanMove(s, r, 0);
      } else {
        CleanupCanMove(s, c);
      }
    case OrphanFail(todo) => ResumableCanMove(s, r, Pick(todo));
    case UpsertRow =>
      if s.locked == Some(d) {
        LockCanEnd(s, d);
      } else {
        ResumableCanMove(s, r, 0);
      }
    case Settled => SettledCanEnd(s, r);
    case OrphanQuery => ResumableCanMove(s, r, 0);
    case SetLive => ResumableCanMove(s, r, 0);
    case Index => ResumableCanMove(s, r, 0);
    case Registered => ResumableCanMove(s, r, 0);
  }

  lemma LockCanEnd(s: State, d: DaemonId)
    requires s.locked == Some(d)
    ensures CanMove(s, d)
  {
    assert About(s, ReapCommit, d) && Enabled(s, ReapCommit);
  }

  lemma SettledCanEnd(s: State, r: RegId)
    requires r in s.regs && s.regs[r].pc.Settled?
    ensures CanMove(s, s.regs[r].daemon)
  {
    assert About(s, EndRegister(r), s.regs[r].daemon) && Enabled(s, EndRegister(r));
  }

  lemma {:induction false} RunKeepsWaits(s: State, es: seq<Event>)
    requires Inv(s) && Waits(s) && IsRun(s, es)
    ensures Inv(After(s, es)) && Waits(After(s, es))
    decreases |es|
  {
    if es != [] {
      hide Next, Inv, Waits;
      NextKeepsInv(s, es[0]);
      NextKeepsWaits(s, es[0]);
      RunKeepsWaits(Next(s, es[0]), es[1..]);
    }
  }

  /** Every unfinished routine of a daemon has a step of that daemon to hope for. */
  ghost predicate NobodyStuck(s: State)
  {
    && (forall r :: r in s.regs && !s.regs[r].pc.Gone? ==> CanMove(s, s.regs[r].daemon))
    && (forall c :: c in s.cleans && !s.cleans[c].pc.CGone? ==> CanMove(s, s.cleans[c].daemon))
  }

  lemma InvMeansNobodyStuck(s: State)
    requires Inv(s) && Waits(s)
    ensures NobodyStuck(s)
  {
    hide CanMove, Queue, Cleaning, Fence, Waits;
    forall r | r in s.regs && !s.regs[r].pc.Gone? ensures CanMove(s, s.regs[r].daemon) {
      RegistrationCanMove(s, r);
    }
    forall c | c in s.cleans && !s.cleans[c].pc.CGone? ensures CanMove(s, s.cleans[c].daemon) {
      CleanupCanMove(s, c);
    }
  }

  lemma InitWaits()
    ensures Inv(Init) && Waits(Init)
  {
  }

  /** In every reachable state, each daemon with an unfinished registration or an
      unfinished disconnect cleanup has a routine of its own that can take a step,
      or its row is locked by the reaper's transaction, which can end: no cycle of
      waits forms between its queue, the cleanup gate and its cleanups, and no
      daemon waits for another. */
  lemma NeverStuck(es: seq<Event>)
    requires IsRun(Init, es)
    ensures NobodyStuck(After(Init, es))
  {
    hide Inv, Waits, NobodyStuck;
    InitWaits();
    RunKeepsWaits(Init, es);
    InvMeansNobodyStuck(After(Init, es));
  }
}
