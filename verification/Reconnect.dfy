/**
 What becomes of the executions of a session that a reconnecting daemon
 supersedes, over every run of the lifecycle.
 */
module Reconnect {
  import opened Basics
  import opened Ledger
  import opened Ownership
  import opened Lifecycle
  import opened Fencing
  import opened LedgerSafety
  import opened Guarantees

  // ---------------------------------------------------------------------
  // Whose step moves a registration

  lemma CloseKeepsRegs(s: State, ws: Socket)
    ensures WsClose(s, ws).regs == s.regs && WsClose(s, ws).next >= s.next
  {
    hide WsClose;
    if ws in s.data && Installed(s, ws, s.data[ws]) {
      CloseShape(s, ws);
    } else {
      CloseMissShape(s, ws);
    }
  }

  /** The registration `q` moved and no other did. */
  ghost predicate OnlyMoves(s: State, s': State, q: RegId)
  {
    && s'.next >= s.next && s'.regs.Keys == s.regs.Keys
    && forall r :: r in s.regs && r != q ==> s'.regs[r] == s.regs[r]
  }

  lemma AtMoves(s: State, s1: State, q: RegId, pc: RegPc)
    requires q in s.regs && s1.regs == s.regs && s1.next >= s.next
    ensures OnlyMoves(s, At(s1, q, pc), q)
  {
  }

  lemma GateMoves(s: State, q: RegId)
    requires q in s.regs
    ensures OnlyMoves(s, AfterGate(s, q), q)
  {
    var d := s.regs[q].daemon;
    if d in s.connections {
      AtMoves(s, Supersede(s, d), q, OrphanQuery);
    } else {
      AtMoves(s, s, q, SetLive);
    }
  }

  lemma BeginMoves(s: State, q: RegId)
    requires q in s.regs
    ensures OnlyMoves(s, BeginRegister(s, q), q)
  {
    hide AfterGate, At, OnlyMoves;
    var ws, d := s.regs[q].ws, s.regs[q].daemon;
    AtMoves(s, s, q, Settled);
    AtMoves(s, s.(updating := s.updating[ws := AwaitingAck]), q, Settled);
    AtMoves(s, s.(down := s.down + {ws}), q, Settled);
    if d in s.cleanups {
      AtMoves(s, s, q, CleanupWait(s.cleanups[d]));
    }
    GateMoves(s, q);
  }

  lemma InstallMoves(s: State, q: RegId)
    requires q in s.regs
    ensures OnlyMoves(s, Install(s, q), q)
  {
    if s.regs[q].ws in s.down {
      InstallDeadShape(s, q);
      hide Install;
    }
  }

  lemma OrphanMoves(s: State, q: RegId, o: Outcome, y: DeliveryId)
    requires Resumable(s, q, y) && (s.regs[q].pc.OrphanQuery? || s.regs[q].pc.OrphanFail?)
    ensures OnlyMoves(s, Resume(s, q, o, y), q)
  {
    var t, pc := OrphanShape(s, q, o, y);
    hide Resume, At;
    AtMoves(s, s.(tables := t), q, pc);
  }

  lemma StorageMoves(s: State, q: RegId, o: Outcome, y: DeliveryId)
    requires Resumable(s, q, y) && (s.regs[q].pc in {SetLive, Index, UpsertRow} || s.regs[q].pc.OwnCleanupWait?)
    ensures OnlyMoves(s, Resume(s, q, o, y), q)
  {
    hide UpsertDaemon;
  }

  lemma ResumeMoves(s: State, q: RegId, o: Outcome, y: DeliveryId)
    requires Resumable(s, q, y)
    ensures OnlyMoves(s, Resume(s, q, o, y), q)
  {
    hide OnlyMoves;
    match s.regs[q].pc
    case Waiting(_) => BeginMoves(s, q);
    case CleanupWait(_) => GateMoves(s, q);
    case Registered => InstallMoves(s, q);
    case OrphanQuery => OrphanMoves(s, q, o, y);
    case OrphanFail(_) => OrphanMoves(s, q, o, y);
    case _ => StorageMoves(s, q, o, y);
  }

  lemma OthersKeep(s: State, e: Event, r: RegId)
    requires Enabled(s, e) && r in s.regs && r < s.next
    ensures r in Next(s, e).regs && r < Next(s, e).next
    ensures !(e.Continue? && e.r == r) && e != EndRegister(r) ==> Next(s, e).regs[r] == s.regs[r]
  {
    hide WsClose, Resume, CleanupStep, FinishCleanup, FailOwnership;
    match e
    case Continue(q, o, y) => ResumeMoves(s, q, o, y);
    case Clean(c, o) => CleanHasShape(s, c, o);
    case EndClean(c) => assert FinishCleanup(s, c).regs == s.regs && FinishCleanup(s, c).next == s.next by { FinishKeepsRegs(s, c); }
    case Closed(ws) => CloseKeepsRegs(s.(down := s.down + {ws}), ws);
    case ShutDown(d) => CloseKeepsRegs(s, s.connections[d]);
    case _ =>
  }

  lemma FinishKeepsRegs(s: State, c: CleanupId)
    requires c in s.cleans
    ensures FinishCleanup(s, c).regs == s.regs && FinishCleanup(s, c).next == s.next
  {
  }

  // ---------------------------------------------------------------------
  // The two steps of the supersede path

  /** The answer to the query for orphans: exactly the daemon's offered and running
      executions, and a failing query ends the registration. */
  lemma OrphanQueryStep(s: State, r: RegId, o: Outcome, y: DeliveryId)
    requires Resumable(s, r, y) && s.regs[r].pc == OrphanQuery
    ensures var s' := Next(s, Continue(r, o, y));
      var left := set x | x in s.tables.executions && s.tables.executions[x].daemonId == Some(s.regs[r].daemon)
                          && s.tables.executions[x].status in {Offered, Running};
      && s' == s.(regs := s'.regs) && r in s'.regs
      && s'.regs[r].pc == (if o != Done then Settled else if left == {} then SetLive else OrphanFail(left))
  {
    assert OrphansOf(s.tables, s.regs[r].daemon) ==
           set x | x in s.tables.executions && s.tables.executions[x].daemonId == Some(s.regs[r].daemon)
                   && s.tables.executions[x].status in {Offered, Running};
  }

  /** One turn of the loop over the orphans: a failing update is logged, and either
      way the loop goes on with the rest. */
  lemma OrphanFailStep(s: State, r: RegId, o: Outcome, x: DeliveryId)
    requires Resumable(s, r, x) && s.regs[r].pc.OrphanFail?
    ensures var s', todo := Next(s, Continue(r, o, x)), s.regs[r].pc.todo;
      && x in todo && r in s'.regs
      && s'.regs[r].pc == (if todo == {x} then SetLive else OrphanFail(todo - {x}))
      && s' == s.(regs := s'.regs, tables := s'.tables)
  {
    hide MarkFailed;
  }

  /** From the end of the loop on, a registration never comes back to it. */
  predicate Later(pc: RegPc) {
    pc in {SetLive, Index, UpsertRow, Registered, Settled, Gone} || pc.OwnCleanupWait?
  }

  lemma InstallStaysLater(s: State, r: RegId)
    requires r in s.regs
    ensures r in Install(s, r).regs && Later(Install(s, r).regs[r].pc)
  {
    if s.regs[r].ws in s.down {
      InstallDeadShape(s, r);
      hide Install;
    }
  }

  lemma StorageStaysLater(s: State, r: RegId, o: Outcome, y: DeliveryId)
    requires Resumable(s, r, y) && (s.regs[r].pc in {SetLive, Index, UpsertRow} || s.regs[r].pc.OwnCleanupWait?)
    ensures r in Resume(s, r, o, y).regs && Later(Resume(s, r, o, y).regs[r].pc)
  {
    hide UpsertDaemon;
  }

  lemma LaterStays(s: State, r: RegId, o: Outcome, y: DeliveryId)
    requires Resumable(s, r, y) && Later(s.regs[r].pc)
    ensures r in Resume(s, r, o, y).regs && Later(Resume(s, r, o, y).regs[r].pc)
  {
    if s.regs[r].pc.Registered? {
      InstallStaysLater(s, r);
    } else {
      StorageStaysLater(s, r, o, y);
    }
  }

  // ---------------------------------------------------------------------
  // Over runs

  /** Queued, offered or running. */
  predicate Unfinished(s: State, x: DeliveryId)
  {
    x in s.tables.executions && s.tables.executions[x].status in {Queued, Offered, Running}
  }

  /** No update that registration `r` issues for an orphan is refused. */
  ghost predicate UpdatesApply(s: State, es: seq<Event>, r: RegId)
    requires IsRun(s, es)
    decreases |es|
  {
    es == [] ||
    (&& (es[0].Continue? && es[0].r == r && s.regs[r].pc.OrphanFail? ==> es[0].o != Refused)
     && UpdatesApply(Next(s, es[0]), es[1..], r))
  }

  /** The steps of registration `r` write no execution outside `xs`. */
  ghost predicate WritesOnly(s: State, es: seq<Event>, r: RegId, xs: set<DeliveryId>)
    requires IsRun(s, es)
    decreases |es|
  {
    es == [] ||
    (var s' := Next(s, es[0]);
     && (es[0].Continue? && es[0].r == r ==>
           forall x :: x !in xs ==>
             && (x in s'.tables.executions <==> x in s.tables.executions)
             && (x in s.tables.executions ==> s'.tables.executions[x] == s.tables.executions[x]))
     && WritesOnly(s', es[1..], r, xs))
  }

  /** A step of registration `r` turned the unfinished execution `x` into `row`. */
  ghost predicate FailedByIt(s: State, es: seq<Event>, r: RegId, x: DeliveryId, row: Execution)
    requires IsRun(s, es)
    decreases |es|
  {
    es != [] &&
    (|| (&& es[0].Continue? && es[0].r == r && es[0].x == x && Unfinished(s, x)
         && row == s.tables.executions[x].(status := Failed, completedAt := Some(s.clock),
                                           errorMessage := Some("daemon reconnected, previous session orphaned")))
     || FailedByIt(Next(s, es[0]), es[1..], r, x, row))
  }

  /** Some other event ended the execution `x`. */
  ghost predicate EndedElsewhere(s: State, es: seq<Event>, r: RegId, x: DeliveryId)
    requires IsRun(s, es)
    decreases |es|
  {
    es != [] &&
    (|| (&& !(es[0].Continue? && es[0].r == r)
         && Unfinished(s, x) && !Unfinished(Next(s, es[0]), x))
     || EndedElsewhere(Next(s, es[0]), es[1..], r, x))
  }

  /** An execution on the list of registration `r` is still on it at the end of the
      run, or has ended: by a step of `r`, by another event, or before the start. */
  ghost predicate Dealt(s: State, es: seq<Event>, r: RegId, x: DeliveryId)
    requires IsRun(s, es) && x in s.tables.executions
  {
    var s' := After(s, es);
    && x in s'.tables.executions
    && (|| (r in s'.regs && s'.regs[r].pc.OrphanFail? && x in s'.regs[r].pc.todo)
        || (&& s'.tables.executions[x].status in {Completed, Failed}
            && (|| s'.tables.executions[x] == s.tables.executions[x]
                || FailedByIt(s, es, r, x, s'.tables.executions[x])
                || EndedElsewhere(s, es, r, x))))
  }

  lemma OwnTurn(s: State, es: seq<Event>, r: RegId, x: DeliveryId)
    requires IsRun(s, es) && es != [] && es[0].Continue? && es[0].r == r && es[0].x == x
    requires r in s.regs && s.regs[r].pc.OrphanFail? && x in s.regs[r].pc.todo && x in s.tables.executions
    requires es[0].o != Refused
    ensures Dealt(s, es, r, x)
  {
    hide Next, Apply;
    var s1 := Next(s, es[0]);
    var op := StepOp(s, es[0]);
    assert op.value == Fail(x, "daemon reconnected, previous session orphaned");
    FailEffect(s.tables, s1.tables, x, "daemon reconnected, previous session orphaned", s.clock);
    RunAbsorbs(s1, es[1..], x);
    EndedIs(s1.tables.executions[x]);
  }

  /** An unfinished row is failed, and an ended one left as it is. */
  lemma FailEffect(t: Tables, t': Tables, x: DeliveryId, reason: string, now: int)
    requires t' == Apply(t, Fail(x, reason), now) && x in t.executions
    ensures x in t'.executions && !t'.executions[x].Live()
    ensures t'.executions[x] ==
            if t.executions[x].status in {Queued, Offered, Running} then
              t.executions[x].(status := Failed, completedAt := Some(now), errorMessage := Some(reason))
            else t.executions[x]
  {
    hide FailOwnership;
  }

  lemma EndedIs(e: Execution)
    requires !e.Live()
    ensures e.status in {Completed, Failed}
  {
    match e.status
    case Completed =>
    case Failed =>
    case _ =>
  }

  lemma OtherTurn(s: State, es: seq<Event>, r: RegId, x: DeliveryId)
    requires IsRun(s, es) && es != [] && x in s.tables.executions && x in Next(s, es[0]).tables.executions
    requires es[0].Continue? && es[0].r == r ==> Next(s, es[0]).tables.executions[x] == s.tables.executions[x]
    requires Dealt(Next(s, es[0]), es[1..], r, x)
    requires !Unfinished(s, x) ==> Next(s, es[0]).tables.executions[x] == s.tables.executions[x]
    ensures Dealt(s, es, r, x)
  {
    hide Next;
  }

  lemma {:induction false} ListedIsDealtWith(s: State, es: seq<Event>, r: RegId, x: DeliveryId)
    requires IsRun(s, es) && r in s.regs && r < s.next && UpdatesApply(s, es, r)
    requires s.regs[r].pc.OrphanFail? && x in s.regs[r].pc.todo && x in s.tables.executions
    ensures Dealt(s, es, r, x)
    decreases |es|
  {
    if es != [] {
      hide Next, Dealt;
      var e, s1 := es[0], Next(s, es[0]);
      OthersKeep(s, e, r);
      var op := StepOp(s, e);
      if op.Some? {
        OpFollowsArrows(s.tables, op.value, s.clock, x);
      }
      hide Apply;
      if e.Continue? && e.r == r {
        OrphanFailStep(s, r, e.o, e.x);
        if e.x == x {
          OwnTurn(s, es, r, x);
        } else {
          ListedIsDealtWith(s1, es[1..], r, x);
          OtherTurn(s, es, r, x);
        }
      } else {
        ListedIsDealtWith(s1, es[1..], r, x);
        OtherTurn(s, es, r, x);
      }
    }
  }

  /** Where a registration with the list `left` can be, from the query on. */
  ghost predicate Working(s: State, r: RegId, left: set<DeliveryId>)
  {
    r in s.regs && r < s.next && (Later(s.regs[r].pc) || (s.regs[r].pc.OrphanFail? && s.regs[r].pc.todo <= left))
  }

  /** The executions outside `xs` are what they were. */
  ghost predicate Spares(t: Tables, t': Tables, xs: set<DeliveryId>)
  {
    forall x :: x !in xs ==>
      && (x in t'.executions <==> x in t.executions)
      && (x in t.executions ==> t'.executions[x] == t.executions[x])
  }

  lemma LoopStep(s: State, e: Event, r: RegId, left: set<DeliveryId>)
    requires Enabled(s, e) && Working(s, r, left) && e.Continue? && e.r == r && s.regs[r].pc.OrphanFail?
    ensures Working(Next(s, e), r, left) && Spares(s.tables, Next(s, e).tables, left)
  {
    hide Next;
    OthersKeep(s, e, r);
    OrphanFailStep(s, r, e.o, e.x);
    var op := StepOp(s, e);
    if op.Some? {
      OpWritesNothingElse(s.tables, op.value, s.clock);
      hide Apply;
    }
  }

  lemma LaterStep(s: State, e: Event, r: RegId, left: set<DeliveryId>)
    requires Enabled(s, e) && Working(s, r, left) && e.Continue? && e.r == r && Later(s.regs[r].pc)
    ensures Working(Next(s, e), r, left) && Spares(s.tables, Next(s, e).tables, left)
  {
    hide Next;
    OthersKeep(s, e, r);
    ContinueIsLater(s, e, r);
    var op := StepOp(s, e);
    if op.Some? {
      OpWritesNothingElse(s.tables, op.value, s.clock);
      hide Apply;
    }
  }

  lemma WorkingStep(s: State, e: Event, r: RegId, left: set<DeliveryId>)
    requires Enabled(s, e) && Working(s, r, left)
    ensures Working(Next(s, e), r, left)
    ensures e.Continue? && e.r == r ==> Spares(s.tables, Next(s, e).tables, left)
  {
    hide Next, Later, Spares;
    if e.Continue? && e.r == r {
      if s.regs[r].pc.OrphanFail? {
        LoopStep(s, e, r, left);
      } else {
        LaterStep(s, e, r, left);
      }
    } else {
      OthersKeep(s, e, r);
      if e == EndRegister(r) {
        EndIsLater(s, r);
      }
    }
  }

  lemma EndIsLater(s: State, r: RegId)
    requires Enabled(s, EndRegister(r))
    ensures r in Next(s, EndRegister(r)).regs && Later(Next(s, EndRegister(r)).regs[r].pc)
  {
    hide WsClose, Resume, CleanupStep, FinishCleanup, FailOwnership;
  }

  lemma ContinueIsLater(s: State, e: Event, r: RegId)
    requires Enabled(s, e) && e.Continue? && e.r == r && Later(s.regs[r].pc)
    ensures r in Next(s, e).regs && Later(Next(s, e).regs[r].pc)
  {
    hide WsClose, Resume, CleanupStep, FinishCleanup, FailOwnership;
    LaterStays(s, r, e.o, e.x);
  }

  lemma {:induction false} WorkingRun(s: State, es: seq<Event>, r: RegId, left: set<DeliveryId>)
    requires IsRun(s, es) && Working(s, r, left)
    ensures WritesOnly(s, es, r, left) && r in After(s, es).regs
    decreases |es|
  {
    if es != [] {
      hide Next, Working;
      WorkingStep(s, es[0], r, left);
      WorkingRun(Next(s, es[0]), es[1..], r, left);
    } else {
      assert Working(s, r, left);
    }
  }

  /** What the query found has ended when the loop is over. */
  lemma LeftHasEnded(s: State, es: seq<Event>, r: RegId, left: set<DeliveryId>, x: DeliveryId)
    requires IsRun(s, es) && r in s.regs && r < s.next && UpdatesApply(s, es, r)
    requires s.regs[r].pc == OrphanFail(left) && x in left && Unfinished(s, x)
    requires r in After(s, es).regs && !After(s, es).regs[r].pc.OrphanFail?
    ensures x in After(s, es).tables.executions && After(s, es).tables.executions[x].status in {Completed, Failed}
    ensures FailedByIt(s, es, r, x, After(s, es).tables.executions[x]) || EndedElsewhere(s, es, r, x)
  {
    ListedIsDealtWith(s, es, r, x);
    hide Next, After, FailedByIt, EndedElsewhere;
  }

  /** The session a reconnecting daemon supersedes: from the answer to the query on,
      whatever else runs in between, the registration's own steps write no execution
      but those that were offered to the daemon or running on it; and once the loop
      over them is over and no update was refused, every one of them has ended, by
      one of these steps with the reconnect message, or by somebody else's. */
  lemma SupersededSessionEnds(s: State, es: seq<Event>, r: RegId)
    requires Reachable(s) && IsRun(s, es) && UpdatesApply(s, es, r)
    requires r in s.regs && s.regs[r].pc == OrphanQuery
    requires es != [] && es[0].Continue? && es[0].r == r && es[0].o == Done
    ensures var s' := After(s, es);
      var left := set x | x in s.tables.executions && s.tables.executions[x].daemonId == Some(s.regs[r].daemon)
                          && s.tables.executions[x].status in {Offered, Running};
      && WritesOnly(s, es, r, left)
      && r in s'.regs
      && (!s'.regs[r].pc.OrphanFail? ==>
            forall x :: x in left ==>
              && x in s'.tables.executions && s'.tables.executions[x].status in {Completed, Failed}
              && (FailedByIt(s, es, r, x, s'.tables.executions[x]) || EndedElsewhere(s, es, r, x)))
  {
    var left := set x | x in s.tables.executions && s.tables.executions[x].daemonId == Some(s.regs[r].daemon)
                        && s.tables.executions[x].status in {Offered, Running};
    var s1, s' := Next(s, es[0]), After(s, es);
    RegIsOld(s, r);
    OrphanQueryStep(s, r, es[0].o, es[0].x);
    OthersKeep(s, es[0], r);
    hide Next, Reachable;
    WorkingRun(s1, es[1..], r, left);
    if !s'.regs[r].pc.OrphanFail? {
      forall x | x in left
        ensures x in s'.tables.executions && s'.tables.executions[x].status in {Completed, Failed}
        ensures FailedByIt(s, es, r, x, s'.tables.executions[x]) || EndedElsewhere(s, es, r, x)
      {
        LeftHasEnded(s1, es[1..], r, left, x);
      }
    }
  }

  lemma RegIsOld(s: State, r: RegId)
    requires Reachable(s) && r in s.regs
    ensures r < s.next
  {
    ReachableInv(s);
  }
}
