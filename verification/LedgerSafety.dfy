/**
 The ledger under the whole lifecycle: every interleaving of registrations,
 disconnect cleanups, the reaper and the other writers of executions.
 */
module LedgerSafety {
  import opened Basics
  import opened Ledger
  import opened Ownership
  import opened Lifecycle
  import opened Fencing

  // ---------------------------------------------------------------------
  // Each step of the lifecycle is at most one ledger operation

  lemma ContinueOp(s: State, r: RegId, o: Outcome, x: DeliveryId) returns (op: Option<Op>)
    requires Resumable(s, r, x)
    ensures op.None? ==> Resume(s, r, o, x).tables == s.tables
    ensures op.Some? ==> Resume(s, r, o, x).tables == Apply(s.tables, op.value, s.clock)
    ensures op == match s.regs[r].pc
                  case OrphanFail(_) => if o == Refused then None else Some(Fail(x, RECONNECTED))
                  case UpsertRow => if o == Refused then None else Some(Upsert(s.regs[r].daemon))
                  case _ => None
  {
    op := None;
    var pc := s.regs[r].pc;
    if pc.Waiting? {
      BeginTables(s, r);
    } else if pc.CleanupWait? {
      GateTables(s, r);
    } else if pc.Registered? {
      InstallTables(s, r);
    } else if pc.OrphanQuery? || pc.OrphanFail? {
      op := OrphanOp(s, r, o, x);
    } else {
      op := StorageOp(s, r, o, x);
    }
  }

  lemma OrphanOp(s: State, r: RegId, o: Outcome, x: DeliveryId) returns (op: Option<Op>)
    requires Resumable(s, r, x) && (s.regs[r].pc.OrphanQuery? || s.regs[r].pc.OrphanFail?)
    ensures op.None? ==> Resume(s, r, o, x).tables == s.tables
    ensures op.Some? ==> Resume(s, r, o, x).tables == Apply(s.tables, op.value, s.clock)
    ensures op == if s.regs[r].pc.OrphanFail? && o != Refused then Some(Fail(x, RECONNECTED)) else None
    ensures Resume(s, r, o, x).cleans == s.cleans
  {
    hide OrphansOf, MarkFailed;
    op := if s.regs[r].pc.OrphanFail? && o.Applied() then Some(Fail(x, RECONNECTED)) else None;
  }

  lemma StorageOp(s: State, r: RegId, o: Outcome, x: DeliveryId) returns (op: Option<Op>)
    requires Resumable(s, r, x) && (s.regs[r].pc in {SetLive, Index, UpsertRow} || s.regs[r].pc.OwnCleanupWait?)
    ensures op.None? ==> Resume(s, r, o, x).tables == s.tables
    ensures op.Some? ==> Resume(s, r, o, x).tables == Apply(s.tables, op.value, s.clock)
    ensures op == if s.regs[r].pc.UpsertRow? && o != Refused then Some(Upsert(s.regs[r].daemon)) else None
    ensures Resume(s, r, o, x).cleans == s.cleans
  {
    hide UpsertDaemon;
    op := if s.regs[r].pc.UpsertRow? && o.Applied() then Some(Upsert(s.regs[r].daemon)) else None;
  }

  lemma GateTables(s: State, r: RegId)
    requires r in s.regs
    ensures AfterGate(s, r).tables == s.tables && AfterGate(s, r).cleans == s.cleans
  {
  }

  lemma BeginTables(s: State, r: RegId)
    requires r in s.regs
    ensures BeginRegister(s, r).tables == s.tables && BeginRegister(s, r).cleans == s.cleans
  {
    hide AfterGate, At;
    var ws, d := s.regs[r].ws, s.regs[r].daemon;
    if ws in s.updating {
      AtTables(s, r, Settled);
    } else if ws.protocol.Outdated? {
      AtTables(s.(updating := s.updating[ws := AwaitingAck]), r, Settled);
    } else if ws.protocol.Incompatible? {
      AtTables(s.(down := s.down + {ws}), r, Settled);
    } else if d in s.cleanups {
      AtTables(s, r, CleanupWait(s.cleanups[d]));
    } else {
      GateTables(s, r);
    }
  }

  lemma AtTables(s: State, r: RegId, pc: RegPc)
    requires r in s.regs
    ensures At(s, r, pc).tables == s.tables && At(s, r, pc).cleans == s.cleans
  {
  }

  lemma InstallTables(s: State, r: RegId)
    requires r in s.regs
    ensures Install(s, r).tables == s.tables
  {
  }

  lemma TransactionTables(s: State, c: CleanupId, o: Outcome)
    requires c in s.cleans && s.cleans[c].pc.FailTx?
    ensures CleanupStep(s, c, o).tables ==
            if o.Applied() then FailOwnership(s.tables, s.cleans[c].daemon, DISCONNECTED, s.clock) else s.tables
  {
    hide FailOwnership;
  }

  lemma MarkingTables(s: State, c: CleanupId, o: Outcome)
    requires c in s.cleans && s.cleans[c].pc.MarkRow?
    ensures CleanupStep(s, c, o).tables ==
            if o.Applied() then DeactivateDaemon(s.tables, s.cleans[c].daemon, s.clock) else s.tables
  {
    hide DeactivateDaemon;
  }

  lemma KeyStepTables(s: State, c: CleanupId, o: Outcome)
    requires c in s.cleans && s.cleans[c].pc in {DelKey, Unindex}
    ensures CleanupStep(s, c, o).tables == s.tables
  {
  }

  lemma CleanOp(s: State, c: CleanupId, o: Outcome) returns (op: Option<Op>)
    requires Enabled(s, Clean(c, o))
    ensures op.None? ==> CleanupStep(s, c, o).tables == s.tables
    ensures op.Some? ==> CleanupStep(s, c, o).tables == Apply(s.tables, op.value, s.clock)
    ensures op == match s.cleans[c].pc
                  case FailTx => if o == Refused then None else Some(Fence(s.cleans[c].daemon, DISCONNECTED))
                  case MarkRow => if o == Refused then None else Some(Deactivate(s.cleans[c].daemon))
                  case _ => None
  {
    hide FailOwnership, DeactivateDaemon, CleanupStep;
    var d := s.cleans[c].daemon;
    op := None;
    if s.cleans[c].pc.FailTx? {
      TransactionTables(s, c, o);
      if o.Applied() {
        op := Some(Fence(d, DISCONNECTED));
      }
    } else if s.cleans[c].pc.MarkRow? {
      MarkingTables(s, c, o);
      if o.Applied() {
        op := Some(Deactivate(d));
      }
    } else {
      KeyStepTables(s, c, o);
    }
  }

  lemma CloseTables(s: State, ws: Socket)
    ensures WsClose(s, ws).tables == s.tables
  {
    if ws in s.data && Installed(s, ws, s.data[ws]) {
      CloseShape(s, ws);
    }
  }

  /** The events that write no table. */
  predicate Tableless(e: Event) {
    !e.Continue? && !e.Clean? && !e.Dispatch? && !e.ReapCommit? && !e.Closed? && !e.ShutDown?
  }

  lemma TablelessTables(s: State, e: Event)
    requires Enabled(s, e) && Tableless(e)
    ensures Next(s, e).tables == s.tables
  {
    hide WsClose, Resume, CleanupStep, FailOwnership;
  }

  lemma CloseEventTables(s: State, e: Event)
    requires Enabled(s, e) && (e.Closed? || e.ShutDown?)
    ensures Next(s, e).tables == s.tables
  {
    hide WsClose, Resume, CleanupStep, FailOwnership;
    match e
    case Closed(ws) => CloseTables(s.(down := s.down + {ws}), ws);
    case ShutDown(d) => CloseTables(s, s.connections[d]);
  }

  /** An event performs at most one operation on the tables, and this is which: a
      reconnecting daemon's registration fails one execution of its list or upserts
      its row, a disconnect cleanup fences or deactivates its daemon, and the reaper
      fences the daemon whose row it has locked. */
  lemma StepOp(s: State, e: Event) returns (op: Option<Op>)
    requires Enabled(s, e)
    ensures Next(s, e).tables == if op.Some? then Apply(s.tables, op.value, s.clock) else s.tables
    ensures e.Continue? ==>
      op == match s.regs[e.r].pc
            case OrphanFail(todo) =>
              if e.o == Refused || e.x !in todo then None
              else Some(Fail(e.x, "daemon reconnected, previous session orphaned"))
            case UpsertRow => if e.o == Refused then None else Some(Upsert(s.regs[e.r].daemon))
            case _ => None
    ensures e.Clean? ==>
      op == match s.cleans[e.c].pc
            case FailTx =>
              if e.o == Refused then None
              else Some(Fence(s.cleans[e.c].daemon,
                              DaemonFailure("daemon disconnected during execution", "daemon disconnected during execution", true)))
            case MarkRow => if e.o == Refused then None else Some(Deactivate(s.cleans[e.c].daemon))
            case _ => None
    ensures e.Dispatch? ==> op == Some(e.op)
    ensures e.ReapCommit? ==>
      op == Some(Fence(s.locked.value,
                       DaemonFailure("owner daemon is no longer alive", "Owning daemon is no longer alive", false)))
    ensures !(e.Continue? || e.Clean? || e.Dispatch? || e.ReapCommit?) ==> op == None
  {
    hide WsClose, Resume, CleanupStep, FailOwnership, QueueRegistration, FinishRegistration, FinishCleanup;
    op := None;
    if Tableless(e) {
      TablelessTables(s, e);
    } else if e.Closed? || e.ShutDown? {
      CloseEventTables(s, e);
    } else {
      match e
      case Continue(r, o, x) => op := ContinueOp(s, r, o, x);
      case Clean(c, o) => op := CleanOp(s, c, o);
      case Dispatch(p) => op := Some(p);
      case ReapCommit => op := Some(Fence(s.locked.value, REAPED));
    }
  }

  // ---------------------------------------------------------------------
  // Terminal rows absorb over whole runs

  lemma {:induction false} RunAbsorbs(s: State, es: seq<Event>, x: DeliveryId)
    requires IsRun(s, es)
    requires x in s.tables.executions && !s.tables.executions[x].Live()
    ensures x in After(s, es).tables.executions && After(s, es).tables.executions[x] == s.tables.executions[x]
    decreases |es|
  {
    if es != [] {
      hide Next;
      var op := StepOp(s, es[0]);
      if op.Some? {
        OpFollowsArrows(s.tables, op.value, s.clock, x);
      }
      RunAbsorbs(Next(s, es[0]), es[1..], x);
    }
  }

  // ---------------------------------------------------------------------
  // Ownership over whole runs

  predicate PastFence(pc: CleanupPc) {
    pc in {DelKey, Unindex, MarkRow, CSettled}
  }

  /** Once a cleanup is past its transaction, its daemon's row stays inactive. */
  ghost predicate FencedAway(s: State)
  {
    forall c :: c in s.cleans && PastFence(s.cleans[c].pc) ==> !s.tables.RowActive(s.cleans[c].daemon)
  }

  /** The failing transaction of a cleanup commits, whether or not its answer arrives. */
  predicate Commits(s: State, e: Event)
    requires Enabled(s, e)
  {
    e.Clean? && s.cleans[e.c].pc.FailTx? ==> e.o.Applied()
  }

  ghost predicate IsCommittedRun(s: State, es: seq<Event>)
    decreases |es|
  {
    es == [] || (Enabled(s, es[0]) && Commits(s, es[0]) && IsCommittedRun(Next(s, es[0]), es[1..]))
  }

  /** Only a cleanup's own steps move it; other events at most start one. */
  lemma CleansOnlyStart(s: State, e: Event)
    requires Enabled(s, e) && !e.Clean? && !e.EndClean?
    ensures forall c :: c in Next(s, e).cleans ==>
      (c in s.cleans && Next(s, e).cleans[c] == s.cleans[c]) || Next(s, e).cleans[c].pc.FailTx?
  {
    hide WsClose, Resume, FailOwnership;
    match e
    case Continue(r, o, x) => ContinueStarts(s, r, o, x);
    case Closed(ws) => CloseStarts(s.(down := s.down + {ws}), ws);
    case ShutDown(d) => CloseStarts(s, s.connections[d]);
    case _ =>
  }

  ghost predicate OnlyStarted(s: State, s': State)
  {
    forall c :: c in s'.cleans ==> (c in s.cleans && s'.cleans[c] == s.cleans[c]) || s'.cleans[c].pc.FailTx?
  }

  lemma CloseStarts(s: State, ws: Socket)
    ensures OnlyStarted(s, WsClose(s, ws))
  {
    if ws in s.data && Installed(s, ws, s.data[ws]) {
      CloseShape(s, ws);
    }
  }

  lemma SameStarts(s: State, s': State)
    requires s'.cleans == s.cleans
    ensures OnlyStarted(s, s')
  {
  }

  lemma InstallStarts(s: State, r: RegId)
    requires r in s.regs
    ensures OnlyStarted(s, Install(s, r))
  {
    if s.regs[r].ws in s.down {
      InstallDeadShape(s, r);
      hide Install;
    }
  }

  lemma ContinueStarts(s: State, r: RegId, o: Outcome, x: DeliveryId)
    requires Resumable(s, r, x)
    ensures OnlyStarted(s, Resume(s, r, o, x))
  {
    hide OnlyStarted;
    var pc := s.regs[r].pc;
    if pc.Waiting? {
      BeginTables(s, r);
      SameStarts(s, BeginRegister(s, r));
    } else if pc.CleanupWait? {
      GateTables(s, r);
      SameStarts(s, AfterGate(s, r));
    } else if pc.Registered? {
      InstallStarts(s, r);
    } else {
      if pc.OrphanQuery? || pc.OrphanFail? {
        var _ := OrphanOp(s, r, o, x);
      } else {
        var _ := StorageOp(s, r, o, x);
      }
      SameStarts(s, Resume(s, r, o, x));
    }
  }

  lemma NextKeepsFencedAway(s: State, e: Event)
    requires Inv(s) && Enabled(s, e) && Commits(s, e) && FencedAway(s)
    ensures FencedAway(Next(s, e))
  {
    hide Next, Inv;
    if e.Clean? {
      CleanKeepsFencedAway(s, e.c, e.o);
    } else if e.EndClean? {
      EndCleanFenced(s, e.c);
    } else {
      OtherKeepsFencedAway(s, e);
    }
  }

  lemma EndCleanFenced(s: State, c: CleanupId)
    requires FencedAway(s) && Enabled(s, EndClean(c))
    ensures FencedAway(Next(s, EndClean(c)))
  {
    hide WsClose, Resume, CleanupStep, FailOwnership;
    assert Next(s, EndClean(c)).tables == s.tables;
  }

  /** A committed cleanup step leaves its own daemon inactive, and activates nobody. */
  ghost predicate StepFences(s: State, s': State, c: CleanupId)
    requires c in s.cleans
  {
    && c in s'.cleans
    && (PastFence(s'.cleans[c].pc) ==> !s'.tables.RowActive(s.cleans[c].daemon))
    && (forall d :: s'.tables.RowActive(d) ==> s.tables.RowActive(d))
  }

  lemma TransactionFences(s: State, c: CleanupId, o: Outcome)
    requires c in s.cleans && s.cleans[c].pc.FailTx? && o.Applied()
    ensures StepFences(s, CleanupStep(s, c, o), c)
  {
    hide FailOwnership;
    FailOwnershipRows(s.tables, s.cleans[c].daemon, DISCONNECTED, s.clock);
  }

  lemma MarkingFences(s: State, c: CleanupId, o: Outcome)
    requires c in s.cleans && s.cleans[c].pc.MarkRow? && !s.tables.RowActive(s.cleans[c].daemon)
    ensures StepFences(s, CleanupStep(s, c, o), c)
  {
    hide DeactivateDaemon;
    DeactivateRows(s.tables, s.cleans[c].daemon, s.clock);
  }

  lemma KeyStepFences(s: State, c: CleanupId, o: Outcome)
    requires c in s.cleans && s.cleans[c].pc in {DelKey, Unindex} && !s.tables.RowActive(s.cleans[c].daemon)
    ensures StepFences(s, CleanupStep(s, c, o), c)
  {
  }

  lemma CleanFences(s: State, c: CleanupId, o: Outcome)
    requires Enabled(s, Clean(c, o)) && Commits(s, Clean(c, o)) && FencedAway(s)
    ensures StepFences(s, CleanupStep(s, c, o), c)
  {
    hide CleanupStep, StepFences;
    assert PastFence(s.cleans[c].pc) ==> !s.tables.RowActive(s.cleans[c].daemon);
    match s.cleans[c].pc
    case FailTx => TransactionFences(s, c, o);
    case MarkRow => MarkingFences(s, c, o);
    case _ => KeyStepFences(s, c, o);
  }

  lemma CleanKeepsFencedAway(s: State, c: CleanupId, o: Outcome)
    requires Enabled(s, Clean(c, o)) && Commits(s, Clean(c, o)) && FencedAway(s)
    ensures FencedAway(Next(s, Clean(c, o)))
  {
    hide WsClose, Resume, FailOwnership, CleanupStep;
    var s', d := CleanupStep(s, c, o), s.cleans[c].daemon;
    CleanHasShape(s, c, o);
    CleanFences(s, c, o);
    forall k | k in s'.cleans && PastFence(s'.cleans[k].pc)
      ensures !s'.tables.RowActive(s'.cleans[k].daemon)
    {
      assert k in s.cleans;
      assert k != c ==> PastFence(s.cleans[k].pc);
    }
  }

  lemma OtherKeepsFencedAway(s: State, e: Event)
    requires Inv(s) && Enabled(s, e) && !e.Clean? && !e.EndClean? && FencedAway(s)
    ensures FencedAway(Next(s, e))
  {
    hide Next;
    CleansOnlyStart(s, e);
    var op := StepOp(s, e);
    var s' := Next(s, e);
    forall c | c in s'.cleans && PastFence(s'.cleans[c].pc)
      ensures !s'.tables.RowActive(s'.cleans[c].daemon)
    {
      var d := s.cleans[c].daemon;
      assert c in s.cleans && s'.cleans[c] == s.cleans[c] && d in s.cleanups;
      if op.Some? {
        if op.value.Upsert? {
          assert RegOk(s, s.regs[e.r]);
        }
        OnlyUpsertActivates(s.tables, op.value, s.clock, d);
      }
    }
  }

  lemma OnlyUpsertActivates(t: Tables, op: Op, now: int, d: DaemonId)
    requires !t.RowActive(d) && op != Upsert(d)
    ensures !Apply(t, op, now).RowActive(d)
  {
    hide FailOwnership;
    if op.Fence? {
      FailOwnershipRows(t, op.d, op.failure, now);
    }
  }

  lemma NextKeepsOwned(s: State, e: Event)
    requires Enabled(s, e) && FencedAway(s) && Owned(s.tables)
    ensures Owned(Next(s, e).tables)
  {
    hide Next, Owned;
    var op := StepOp(s, e);
    if op.Some? {
      if op.value.Deactivate? {
        FencedOwnsNothing(s.tables, op.value.d);
      }
      OpKeepsOwned(s.tables, op.value, s.clock);
    }
  }

  lemma {:induction false} CommittedRunKeepsOwned(s: State, es: seq<Event>)
    requires Inv(s) && FencedAway(s) && Owned(s.tables) && IsCommittedRun(s, es)
    ensures IsRun(s, es) && Owned(After(s, es).tables) && FencedAway(After(s, es))
    decreases |es|
  {
    if es != [] {
      hide Next, Inv, Owned, FencedAway;
      NextKeepsInv(s, es[0]);
      NextKeepsFencedAway(s, es[0]);
      NextKeepsOwned(s, es[0]);
      CommittedRunKeepsOwned(Next(s, es[0]), es[1..]);
    }
  }

  lemma InitIsOwned()
    ensures Inv(Init) && FencedAway(Init) && Owned(Init.tables)
  {
  }

  /** Ownership: after any run in which the failing transactions commit, every
      offered or running execution without an attempt of its own belongs to a
      daemon whose row is active, and every queued one to nobody. */
  lemma OwnershipHolds(es: seq<Event>)
    requires IsCommittedRun(Init, es)
    ensures IsRun(Init, es)
    ensures forall x :: x in After(Init, es).tables.executions ==>
      var t, e := After(Init, es).tables, After(Init, es).tables.executions[x];
      && (e.Assigned() && e.offerId.None? ==> e.daemonId.Some? && t.RowActive(e.daemonId.value))
      && (e.status.Queued? ==> e.daemonId.None? && e.offerId.None?)
  {
    hide Inv, FencedAway;
    InitIsOwned();
    CommittedRunKeepsOwned(Init, es);
    var t := After(Init, es).tables;
    assert forall x :: x in t.executions ==> RowOwned(t, t.executions[x]);
  }
  /** The fence, from a cleanup's transaction to its last reaction: the daemon's row
      is inactive and no execution is assigned to it, whatever else runs. */
  lemma FencedUntilFinished(es: seq<Event>, c: CleanupId)
    requires IsCommittedRun(Init, es)
    ensures IsRun(Init, es)
    ensures var s := After(Init, es);
      c in s.cleans && s.cleans[c].pc in {DelKey, Unindex, MarkRow, CSettled} ==>
        && !(s.cleans[c].daemon in s.tables.daemons && s.tables.daemons[s.cleans[c].daemon].active)
        && (forall x :: x in s.tables.executions ==>
              var e := s.tables.executions[x];
              e.daemonId == Some(s.cleans[c].daemon) && e.offerId == None ==> e.status in {Completed, Failed})
  {
    hide Inv;
    InitIsOwned();
    CommittedRunKeepsOwned(Init, es);
    var s := After(Init, es);
    if c in s.cleans && PastFence(s.cleans[c].pc) {
      forall x | x in s.tables.executions && s.tables.executions[x].daemonId == Some(s.cleans[c].daemon)
                 && s.tables.executions[x].offerId == None
        ensures s.tables.executions[x].status in {Completed, Failed}
      {
        assert RowOwned(s.tables, s.tables.executions[x]);
      }
    }
  }
}
