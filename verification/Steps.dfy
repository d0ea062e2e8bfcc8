/**
 Which awaited calls a registration and a disconnect cleanup make, in which
 order, which of their failures end the routine, and who writes the liveness keys.
 */
module Steps {
  import opened Basics
  import opened Ledger
  import Ownership
  import opened Lifecycle
  import opened Fencing
  import opened LedgerSafety
  import opened Guarantees
  import Reconnect

  // ---------------------------------------------------------------------
  // Order of the calls

  /** The calls of `registerDaemon`: liveness key, index, row. A rejected call ends
      the registration, even one that took effect. */
  lemma RegistrationOrder(s: State, r: RegId, o: Outcome, x: DeliveryId)
    requires Resumable(s, r, x) && s.regs[r].pc in {SetLive, Index, UpsertRow}
    ensures var s' := Next(s, Continue(r, o, x));
      && r in s'.regs
      && s'.regs[r] == s.regs[r].(pc :=
           if o != Done then Settled
           else match s.regs[r].pc
                case SetLive => Index
                case Index => UpsertRow
                case _ => Registered)
  {
    hide UpsertDaemon;
  }

  lemma TransactionThen(s: State, c: CleanupId, o: Outcome)
    requires c in s.cleans && s.cleans[c].pc == FailTx
    ensures CleanupStep(s, c, o).cleans == s.cleans[c := s.cleans[c].(pc := DelKey)]
  {
    hide FailOwnership;
  }

  lemma MarkingThen(s: State, c: CleanupId, o: Outcome)
    requires c in s.cleans && s.cleans[c].pc == MarkRow
    ensures CleanupStep(s, c, o).cleans == s.cleans[c := s.cleans[c].(pc := CSettled)]
  {
    hide DeactivateDaemon;
  }

  lemma KeyCallsThen(s: State, c: CleanupId, o: Outcome)
    requires c in s.cleans && s.cleans[c].pc in {DelKey, Unindex}
    ensures CleanupStep(s, c, o).cleans ==
            s.cleans[c := s.cleans[c].(pc := if o != Done then CSettled else if s.cleans[c].pc == DelKey then Unindex else MarkRow)]
  {
  }

  /** The calls of `cleanupAfterDisconnect`: the failing transaction, whose failure
      is logged and passed over, then the key, the index and the row, where the first
      rejected call ends the routine. */
  lemma CleanupOrder(s: State, c: CleanupId, o: Outcome)
    requires Enabled(s, Clean(c, o))
    ensures Next(s, Clean(c, o)).cleans ==
            s.cleans[c := s.cleans[c].(pc :=
              match s.cleans[c].pc
              case FailTx => DelKey
              case DelKey => if o == Done then Unindex else CSettled
              case Unindex => if o == Done then MarkRow else CSettled
              case _ => CSettled)]
  {
    hide CleanupStep, WsClose, Resume, FailOwnership;
    match s.cleans[c].pc
    case FailTx => TransactionThen(s, c, o);
    case MarkRow => MarkingThen(s, c, o);
    case _ => KeyCallsThen(s, c, o);
  }

  // ---------------------------------------------------------------------
  // The liveness keys

  lemma CloseKeys(s: State, ws: Socket)
    ensures WsClose(s, ws).keys == s.keys
  {
    hide WsClose;
    if ws in s.data && Installed(s, ws, s.data[ws]) {
      CloseShape(s, ws);
    } else {
      CloseMissShape(s, ws);
    }
  }

  lemma InstallKeys(s: State, r: RegId)
    requires r in s.regs
    ensures Install(s, r).keys == s.keys
  {
    if s.regs[r].ws in s.down {
      InstallDeadShape(s, r);
      hide Install;
    }
  }

  lemma AtKeys(s: State, r: RegId, pc: RegPc)
    requires r in s.regs
    ensures At(s, r, pc).keys == s.keys
  {
  }

  lemma GateKeys(s: State, r: RegId)
    requires r in s.regs
    ensures AfterGate(s, r).keys == s.keys
  {
  }

  lemma BeginKeys(s: State, r: RegId)
    requires r in s.regs
    ensures BeginRegister(s, r).keys == s.keys
  {
    hide AfterGate, At;
    var ws, d := s.regs[r].ws, s.regs[r].daemon;
    AtKeys(s, r, Settled);
    AtKeys(s.(updating := s.updating[ws := AwaitingAck]), r, Settled);
    AtKeys(s.(down := s.down + {ws}), r, Settled);
    if d in s.cleanups {
      AtKeys(s, r, CleanupWait(s.cleanups[d]));
    }
    GateKeys(s, r);
  }

  lemma OrphanKeys(s: State, r: RegId, o: Outcome, x: DeliveryId)
    requires Resumable(s, r, x) && (s.regs[r].pc.OrphanQuery? || s.regs[r].pc.OrphanFail?)
    ensures Resume(s, r, o, x).keys == s.keys
  {
    var t, pc := OrphanShape(s, r, o, x);
    hide Resume;
  }

  lemma StorageKeys(s: State, r: RegId, o: Outcome, x: DeliveryId)
    requires Resumable(s, r, x) && (s.regs[r].pc in {SetLive, Index, UpsertRow} || s.regs[r].pc.OwnCleanupWait?)
    ensures Resume(s, r, o, x).keys == if s.regs[r].pc == SetLive && o != Refused then s.keys + {s.regs[r].daemon} else s.keys
  {
    hide UpsertDaemon;
  }

  lemma ContinueKeys(s: State, r: RegId, o: Outcome, x: DeliveryId)
    requires Resumable(s, r, x)
    ensures Resume(s, r, o, x).keys == if s.regs[r].pc == SetLive && o != Refused then s.keys + {s.regs[r].daemon} else s.keys
  {
    match s.regs[r].pc
    case Waiting(_) => BeginKeys(s, r);
    case CleanupWait(_) => GateKeys(s, r);
    case Registered => InstallKeys(s, r);
    case OrphanQuery => OrphanKeys(s, r, o, x);
    case OrphanFail(_) => OrphanKeys(s, r, o, x);
    case _ => StorageKeys(s, r, o, x);
  }

  lemma CleanKeys(s: State, c: CleanupId, o: Outcome)
    requires Enabled(s, Clean(c, o))
    ensures CleanupStep(s, c, o).keys ==
            if s.cleans[c].pc == DelKey && o != Refused then s.keys - {s.cleans[c].daemon} else s.keys
  {
    hide DeactivateDaemon, FailOwnership;
  }

  /** A liveness key is set by its daemon's registration or by a pong, and deleted
      by its daemon's cleanup; no other event writes one. */
  lemma StepKeys(s: State, e: Event)
    requires Enabled(s, e)
    ensures Next(s, e).keys ==
      if e.Refresh? then s.keys + {e.d}
      else if e.Continue? && s.regs[e.r].pc == SetLive && e.o != Refused then s.keys + {s.regs[e.r].daemon}
      else if e.Clean? && s.cleans[e.c].pc == DelKey && e.o != Refused then s.keys - {s.cleans[e.c].daemon}
      else s.keys
  {
    hide WsClose, Resume, CleanupStep, FailOwnership;
    match e
    case Continue(r, o, x) => ContinueKeys(s, r, o, x);
    case Clean(c, o) => CleanKeys(s, c, o);
    case Closed(ws) => CloseKeys(s.(down := s.down + {ws}), ws);
    case ShutDown(d) => CloseKeys(s, s.connections[d]);
    case _ =>
  }

  // ---------------------------------------------------------------------
  // A deleted key stays deleted while the cleanup lasts

  /** Cleanup `c` has started and is not over. */
  ghost predicate Lasts(s: State, c: CleanupId)
  {
    c in s.cleans && !s.cleans[c].pc.CGone?
  }

  lemma CloseKeepsCleans(s: State, ws: Socket, c: CleanupId)
    requires c in s.cleans && c < s.next
    ensures c in WsClose(s, ws).cleans && WsClose(s, ws).cleans[c] == s.cleans[c]
  {
    hide WsClose;
    if ws in s.data && Installed(s, ws, s.data[ws]) {
      CloseHitShape(s, ws);
    } else {
      CloseMissShape(s, ws);
    }
  }

  lemma InstallKeepsCleans(s: State, r: RegId, c: CleanupId)
    requires r in s.regs && c in s.cleans && c < s.next
    ensures c in Install(s, r).cleans && Install(s, r).cleans[c] == s.cleans[c]
  {
    if s.regs[r].ws in s.down {
      InstallDeadShape(s, r);
      hide Install;
    }
  }

  lemma ResumeKeepsCleans(s: State, r: RegId, o: Outcome, x: DeliveryId, c: CleanupId)
    requires Resumable(s, r, x) && c in s.cleans && c < s.next
    ensures c in Resume(s, r, o, x).cleans && Resume(s, r, o, x).cleans[c] == s.cleans[c]
  {
    var pc := s.regs[r].pc;
    if pc.Waiting? {
      BeginTables(s, r);
    } else if pc.CleanupWait? {
      GateTables(s, r);
    } else if pc.Registered? {
      InstallKeepsCleans(s, r, c);
    } else if pc.OrphanQuery? || pc.OrphanFail? {
      var _ := OrphanOp(s, r, o, x);
    } else {
      var _ := StorageOp(s, r, o, x);
    }
  }

  /** A cleanup keeps its daemon, and one that is over stays over. */
  lemma CleanupKeeps(s: State, e: Event, c: CleanupId)
    requires Enabled(s, e) && c in s.cleans && c < s.next
    ensures c in Next(s, e).cleans && Next(s, e).cleans[c].daemon == s.cleans[c].daemon
    ensures s.cleans[c].pc.CGone? ==> Next(s, e).cleans[c].pc.CGone?
    ensures c < Next(s, e).next
  {
    hide WsClose, Resume, CleanupStep, FailOwnership;
    match e
    case Continue(r, o, x) =>
      ResumeKeepsCleans(s, r, o, x, c);
      Reconnect.ResumeMoves(s, r, o, x);
    case Clean(k, o) => CleanHasShape(s, k, o);
    case Closed(ws) =>
      CloseKeepsCleans(s.(down := s.down + {ws}), ws, c);
      Reconnect.CloseKeepsRegs(s.(down := s.down + {ws}), ws);
    case ShutDown(d) =>
      CloseKeepsCleans(s, s.connections[d], c);
      Reconnect.CloseKeepsRegs(s, s.connections[d]);
    case _ =>
  }

  lemma {:induction false} LastingKeyRun(s: State, es: seq<Event>, c: CleanupId)
    requires Inv(s) && IsRun(s, es) && c in s.cleans && s.cleans[c].daemon !in s.keys
    requires Refresh(s.cleans[c].daemon) !in es
    requires Lasts(After(s, es), c)
    ensures s.cleans[c].daemon !in After(s, es).keys
    decreases |es|
  {
    if es != [] {
      var s1, d := Next(s, es[0]), s.cleans[c].daemon;
      LastsBefore(s, es, c);
      KeyStep(s, es[0], c);
      NextKeepsInv(s, es[0]);
      CleanupKeeps(s, es[0], c);
      hide Next, Inv;
      assert Refresh(d) !in es[1..];
      LastingKeyRun(s1, es[1..], c);
    }
  }

  lemma KeyStep(s: State, e: Event, c: CleanupId)
    requires Inv(s) && Enabled(s, e) && Lasts(s, c) && s.cleans[c].daemon !in s.keys && e != Refresh(s.cleans[c].daemon)
    ensures s.cleans[c].daemon !in Next(s, e).keys
  {
    hide Next;
    StepKeys(s, e);
    if e.Continue? && s.regs[e.r].pc.SetLive? {
      assert RegOk(s, s.regs[e.r]);
    }
  }

  /** What lasts at the end of a run has lasted throughout. */
  lemma {:induction false} LastsBefore(s: State, es: seq<Event>, c: CleanupId)
    requires Inv(s) && IsRun(s, es) && c in s.cleans && Lasts(After(s, es), c)
    ensures Lasts(s, c)
    decreases |es|
  {
    if es != [] {
      CleanupKeeps(s, es[0], c);
      NextKeepsInv(s, es[0]);
      hide Next, Inv;
      LastsBefore(Next(s, es[0]), es[1..], c);
    }
  }

  /** Once a cleanup has deleted its daemon's liveness key, the key stays away until
      the cleanup is over, whatever else runs: no registration of the daemon can set
      it meanwhile, so only the answer to a late pong can. */
  lemma DeletedKeyStaysAway(s: State, es: seq<Event>, c: CleanupId)
    requires Reachable(s) && IsRun(s, es) && es != []
    requires c in s.cleans && s.cleans[c].pc == DelKey && es[0].Clean? && es[0].c == c && es[0].o != Refused
    requires Refresh(s.cleans[c].daemon) !in es
    requires c in After(s, es).cleans && After(s, es).cleans[c].pc != CGone
    ensures s.cleans[c].daemon !in After(s, es).keys
  {
    ReachableInv(s);
    StepKeys(s, es[0]);
    NextKeepsInv(s, es[0]);
    CleanupKeeps(s, es[0], c);
    hide Next, Inv, Reachable;
    LastingKeyRun(Next(s, es[0]), es[1..], c);
  }

  // ---------------------------------------------------------------------
  // The reaper

  /** One daemon of the reaper's pass: with its row locked and its key found missing
      its socket is told to close, no offer to it can commit meanwhile, and the
      transaction fences it. A daemon whose key is there is left alone. */
  lemma ReaperFences(s: State, d: DaemonId, x: DeliveryId)
    requires d in s.tables.daemons && s.locked == None
    ensures Enabled(s, ReapLock(d)) <==> d !in s.keys
    ensures d !in s.keys ==>
      var between := Next(s, ReapLock(d));
      && between == s.(locked := Some(d), down := s.down + (if d in s.connections then {s.connections[d]} else {}))
      && !Enabled(between, Dispatch(Ownership.Offer(x, d)))
      && Enabled(between, ReapCommit)
      && Next(between, ReapCommit) == between.(locked := None,
           tables := FailOwnership(s.tables, d, DaemonFailure("owner daemon is no longer alive", "Owning daemon is no longer alive", false),
                                   s.clock))
  {
    hide WsClose, Resume, CleanupStep, FailOwnership;
  }
}
