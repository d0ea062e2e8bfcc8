/**
 The durable execution ledger: the tables `daemons`, `executions`,
 `workflow_runs` and `scheduled_action_state`, and every guarded statement of
 `history.ts` and `daemon-registry.ts` that writes them, as functions on values.
 */
module Ledger {
  import opened Basics

  // Identifiers are compared for equality and never computed with.
  type DaemonId = nat
  type DeliveryId = nat
  type RunId = nat
  type AttemptId = nat
  type ActionId = nat

  datatype ExecutionStatus = Queued | Offered | Running | Completed | Failed

  datatype Execution = Execution(
    status: ExecutionStatus,
    daemonId: Option<DaemonId>,
    offerId: Option<AttemptId>,
    createdAt: int,
    startedAt: Option<int>,
    completedAt: Option<int>,
    errorMessage: Option<string>)
  {
    /** status IN ('queued', 'offered', 'running') */
    predicate Live() {
      status in {Queued, Offered, Running}
    }

    /** Assigned to a shared daemon that has not finished with it. */
    predicate Assigned() {
      status in {Offered, Running}
    }
  }

  datatype WorkflowStatus = WQueued | WRunning | WSucceeded | WFailed | WIncomplete
  datatype OwnerKind = Orchestrator | Daemon
  datatype Json = Text(text: string) | Number(number: int)

  datatype Workflow = Workflow(
    status: WorkflowStatus,
    ownerKind: Option<OwnerKind>,
    ownerId: Option<DaemonId>,
    attemptId: Option<AttemptId>,
    parentRunId: Option<RunId>,
    parentStepIndex: Option<int>,
    executionDeliveryId: Option<DeliveryId>,
    attemptCompletedAt: Option<int>,
    state: map<string, Json>)
  {
    predicate Live() {
      status in {WQueued, WRunning}
    }
  }

  datatype DaemonRow = DaemonRow(active: bool, lastSeenAt: int)

  /** The single-flight lock of one scheduled action. */
  datatype Lock = Lock(inFlightJobId: Option<DeliveryId>, inFlightStartedAt: Option<int>)

  datatype Tables = Tables(
    daemons: map<DaemonId, DaemonRow>,
    executions: map<DeliveryId, Execution>,
    workflows: map<RunId, Workflow>,
    locks: map<ActionId, Lock>)
  {
    predicate RowActive(d: DaemonId) {
      d in daemons && daemons[d].active
    }
  }

  function Coalesce(t: Option<int>, now: int): Option<int> {
    if t.Some? then t else Some(now)
  }

  // ---------------------------------------------------------------------
  // Single-row statements

  datatype OfferOutcome = WasOffered | DaemonInactive | Stale

  function CreateExecution(t: Tables, x: DeliveryId, now: int): Tables
    requires x !in t.executions
  {
    t.(executions := t.executions[x := Execution(Queued, None, None, now, None, None, None)])
  }

  function MarkOffered(t: Tables, x: DeliveryId, d: DaemonId): (Tables, OfferOutcome)
  {
    if !t.RowActive(d) then (t, DaemonInactive)
    else if x in t.executions && t.executions[x].status.Queued? then
      (t.(executions := t.executions[x := t.executions[x].(status := Offered, daemonId := Some(d))]), WasOffered)
    else (t, Stale)
  }

  function MarkRunning(t: Tables, x: DeliveryId, now: int): Tables
  {
    if x in t.executions && t.executions[x].status.Offered? then
      t.(executions := t.executions[x := t.executions[x].(status := Running, startedAt := Some(now))])
    else t
  }

  function MarkCompleted(t: Tables, x: DeliveryId, now: int): Tables
  {
    if x in t.executions && t.executions[x].status.Running? then
      t.(executions := t.executions[x := t.executions[x].(status := Completed, completedAt := Some(now))])
    else t
  }

  function FailRow(e: Execution, reason: string, now: int): Execution
  {
    e.(status := Failed, completedAt := Some(now), errorMessage := Some(reason))
  }

  function MarkFailed(t: Tables, x: DeliveryId, reason: string, now: int): Tables
  {
    if x in t.executions && t.executions[x].Live() then
      t.(executions := t.executions[x := FailRow(t.executions[x], reason, now)])
    else t
  }

  function Requeue(t: Tables, x: DeliveryId): (Tables, bool)
  {
    if x in t.executions && t.executions[x].status.Offered? then
      (t.(executions := t.executions[x := t.executions[x].(status := Queued, daemonId := None)]), true)
    else (t, false)
  }

  /** The upsert at the end of `registerDaemon`. */
  function UpsertDaemon(t: Tables, d: DaemonId, now: int): Tables
  {
    t.(daemons := t.daemons[d := DaemonRow(true, now)])
  }

  /** The unconditional UPDATE at the end of `deregisterDaemon`. */
  function DeactivateDaemon(t: Tables, d: DaemonId, now: int): Tables
  {
    if d in t.daemons then t.(daemons := t.daemons[d := DaemonRow(false, now)]) else t
  }

  /** The isolated runner's claim: the row leaves the queue with an attempt of its own. */
  function ClaimForRunner(t: Tables, x: DeliveryId, runner: DaemonId, attempt: AttemptId, now: int): Tables
  {
    if x in t.executions && t.executions[x].status.Queued? then
      t.(executions := t.executions[x := t.executions[x].(status := Running, daemonId := Some(runner),
                                                          offerId := Some(attempt), startedAt := Some(now))])
    else t
  }

  // ---------------------------------------------------------------------
  // Startup recovery

  const RESTARTED := "server restarted, execution state unknown"

  function RecoverRow(t: Tables, x: DeliveryId, now: int): Tables
  {
    if x in t.executions && t.executions[x].Assigned() then
      t.(executions := t.executions[x := FailRow(t.executions[x], RESTARTED, now)])
    else t
  }

  // ---------------------------------------------------------------------
  // failDaemonOwnershipInTransaction

  datatype DaemonFailure = DaemonFailure(workflowReason: string, executionReason: string, clearOwner: bool)

  const DISCONNECTED := DaemonFailure("daemon disconnected during execution", "daemon disconnected during execution", true)

  /** The WHERE clause of the first CTE. */
  predicate OwnedLiveWorkflow(w: Workflow, d: DaemonId)
  {
    w.ownerKind == Some(Daemon) && w.ownerId == Some(d) && w.attemptId.None? && w.Live()
  }

  function OwnedWorkflows(ws: map<RunId, Workflow>, d: DaemonId): set<RunId>
  {
    set r | r in ws && OwnedLiveWorkflow(ws[r], d)
  }

  /** COALESCE(parent_step_index, -1) */
  function StepOf(w: Workflow): int
  {
    if w.parentStepIndex.Some? then w.parentStepIndex.value else -1
  }

  /** The step indices of the rows in `failed` whose parent is `p`. */
  function FailedSteps(ws: map<RunId, Workflow>, failed: set<RunId>, p: RunId): set<int>
    requires failed <= ws.Keys
  {
    set r | r in failed && ws[r].parentRunId == Some(p) :: StepOf(ws[r])
  }

  /** The running parents reached by one level of propagation. */
  function PropagatedParents(ws: map<RunId, Workflow>, failed: set<RunId>): set<RunId>
    requires failed <= ws.Keys
  {
    set p | p in ws && p !in failed && ws[p].status.WRunning? && FailedSteps(ws, failed, p) != {}
  }

  function FailOwned(w: Workflow, f: DaemonFailure, now: int): Workflow
  {
    w.(status := WFailed,
       ownerKind := if f.clearOwner then None else w.ownerKind,
       ownerId := if f.clearOwner then None else w.ownerId,
       attemptCompletedAt := Coalesce(w.attemptCompletedAt, now),
       state := w.state + map["phase" := Text("orphaned"), "failedReason" := Text(f.workflowReason)])
  }

  function FailParent(w: Workflow, f: DaemonFailure, step: int, now: int): Workflow
  {
    w.(status := WFailed,
       attemptCompletedAt := Coalesce(w.attemptCompletedAt, now),
       state := w.state + map["phase" := Text("orphaned"), "failedAtStepIndex" := Number(step),
                              "failedReason" := Text(f.workflowReason)])
  }

  ghost function FailWorkflows(ws: map<RunId, Workflow>, failed: set<RunId>, f: DaemonFailure, now: int): map<RunId, Workflow>
    requires failed <= ws.Keys
  {
    map r | r in ws ::
      if r in failed then FailOwned(ws[r], f, now)
      else if r in PropagatedParents(ws, failed) then
        FailParent(ws[r], f, MinOf(FailedSteps(ws, failed, r)), now)
      else ws[r]
  }

  /** The delivery keys carried by the directly failed workflows. */
  function DeliveriesOf(ws: map<RunId, Workflow>, failed: set<RunId>): set<DeliveryId>
    requires failed <= ws.Keys
  {
    set r | r in failed && ws[r].executionDeliveryId.Some? :: ws[r].executionDeliveryId.value
  }

  predicate DoomedExecution(es: map<DeliveryId, Execution>, d: DaemonId, deliveries: set<DeliveryId>, x: DeliveryId)
    requires x in es
  {
    var e := es[x];
    (e.daemonId == Some(d) || x in deliveries) && e.offerId.None? && e.Live()
  }

  function DoomedExecutions(es: map<DeliveryId, Execution>, d: DaemonId, deliveries: set<DeliveryId>): set<DeliveryId>
  {
    set x | x in es && DoomedExecution(es, d, deliveries, x)
  }

  function FailExecutions(es: map<DeliveryId, Execution>, doomed: set<DeliveryId>, f: DaemonFailure, now: int): map<DeliveryId, Execution>
  {
    map x | x in es :: if x in doomed then FailRow(es[x], f.executionReason, now) else es[x]
  }

  function ReleaseLocks(ls: map<ActionId, Lock>, doomed: set<DeliveryId>): map<ActionId, Lock>
  {
    map a | a in ls ::
      if ls[a].inFlightJobId.Some? && ls[a].inFlightJobId.value in doomed then Lock(None, None) else ls[a]
  }

  function FenceRow(t: Tables, d: DaemonId, now: int): map<DaemonId, DaemonRow>
  {
    if t.RowActive(d) then t.daemons[d := DaemonRow(false, now)] else t.daemons
  }

  datatype FailedOwnership = FailedOwnership(
    daemonMarkedInactive: bool,
    executionDeliveryIds: set<DeliveryId>,
    workflowRunIds: set<RunId>,
    directWorkflows: set<RunId>)

  /** The tables after the whole transaction. */
  ghost function FailOwnership(t: Tables, d: DaemonId, f: DaemonFailure, now: int): Tables
  {
    var failed := OwnedWorkflows(t.workflows, d);
    var doomed := DoomedExecutions(t.executions, d, DeliveriesOf(t.workflows, failed));
    Tables(FenceRow(t, d, now), FailExecutions(t.executions, doomed, f, now),
           FailWorkflows(t.workflows, failed, f, now), ReleaseLocks(t.locks, doomed))
  }

  /** What the transaction returns to its caller. */
  function FailureReport(t: Tables, d: DaemonId): FailedOwnership
  {
    var failed := OwnedWorkflows(t.workflows, d);
    FailedOwnership(t.RowActive(d), DoomedExecutions(t.executions, d, DeliveriesOf(t.workflows, failed)),
                    failed + PropagatedParents(t.workflows, failed), failed)
  }

  // ---------------------------------------------------------------------
  // The transaction is exact

  /** Every workflow row after the transaction. A live row that the daemon owns and
      that no attempt has taken over fails; a running parent of such a row fails
      with the least failed step among its own failed children, a child without a
      step counting as -1; every other row, grandparents included, is the row it was. */
  lemma {:induction false} FailOwnershipWorkflows(t: Tables, d: DaemonId, f: DaemonFailure, now: int, r: RunId)
    requires r in t.workflows
    ensures r in FailOwnership(t, d, f, now).workflows
    ensures
      var w, w' := t.workflows[r], FailOwnership(t, d, f, now).workflows[r];
      var owned := set c | c in t.workflows && t.workflows[c].ownerKind == Some(Daemon) && t.workflows[c].ownerId == Some(d)
                           && t.workflows[c].attemptId == None && t.workflows[c].status in {WQueued, WRunning};
      var steps := set c | c in owned && t.workflows[c].parentRunId == Some(r) ::
                     if t.workflows[c].parentStepIndex.Some? then t.workflows[c].parentStepIndex.value else -1;
      var completed := if w.attemptCompletedAt.Some? then w.attemptCompletedAt else Some(now);
      if r in owned then
        w' == w.(status := WFailed,
                 ownerKind := if f.clearOwner then None else w.ownerKind,
                 ownerId := if f.clearOwner then None else w.ownerId,
                 attemptCompletedAt := completed,
                 state := w.state + map["phase" := Text("orphaned"), "failedReason" := Text(f.workflowReason)])
      else if w.status == WRunning && steps != {} then
        exists least :: least in steps && (forall i <- steps :: least <= i) &&
          w' == w.(status := WFailed,
                   attemptCompletedAt := completed,
                   state := w.state + map["phase" := Text("orphaned"), "failedAtStepIndex" := Number(least),
                                          "failedReason" := Text(f.workflowReason)])
      else
        w' == w
  {
    var owned := OwnedWorkflows(t.workflows, d);
    var steps := FailedSteps(t.workflows, owned, r);
    assert owned == set c | c in t.workflows && t.workflows[c].ownerKind == Some(Daemon) && t.workflows[c].ownerId == Some(d)
                            && t.workflows[c].attemptId == None && t.workflows[c].status in {WQueued, WRunning};
    assert steps == set c | c in owned && t.workflows[c].parentRunId == Some(r) ::
                      if t.workflows[c].parentStepIndex.Some? then t.workflows[c].parentStepIndex.value else -1;
    if r !in owned && r in PropagatedParents(t.workflows, owned) {
      var least := MinOf(steps);
      assert least in steps && forall i <- steps :: least <= i;
    }
  }

  /** The rest of the tables. An execution fails exactly when it is queued, offered
      or running without an attempt of its own, and is either the daemon's or
      carried by a workflow that fails with it; the locks it held are released; and
      the daemon's row is inactive. */
  lemma FailOwnershipRest(t: Tables, d: DaemonId, f: DaemonFailure, now: int)
    ensures
      var t' := FailOwnership(t, d, f, now);
      var reached := set x | x in t.executions && t.executions[x].status in {Queued, Offered, Running} && t.executions[x].offerId == None &&
        (t.executions[x].daemonId == Some(d) ||
         exists r :: r in t.workflows && t.workflows[r].executionDeliveryId == Some(x)
                     && t.workflows[r].ownerKind == Some(Daemon) && t.workflows[r].ownerId == Some(d)
                     && t.workflows[r].attemptId == None && t.workflows[r].status in {WQueued, WRunning});
      && t'.executions == (map x | x in t.executions ::
           if x in reached then
             t.executions[x].(status := Failed, completedAt := Some(now), errorMessage := Some(f.executionReason))
           else t.executions[x])
      && t'.locks == (map a | a in t.locks ::
           if t.locks[a].inFlightJobId.Some? && t.locks[a].inFlightJobId.value in reached then Lock(None, None) else t.locks[a])
      && t'.daemons == (if d in t.daemons && t.daemons[d].active then t.daemons[d := DaemonRow(false, now)] else t.daemons)
      && t'.workflows.Keys == t.workflows.Keys
  {
    var failed := OwnedWorkflows(t.workflows, d);
    var deliveries := DeliveriesOf(t.workflows, failed);
    forall x | x in t.executions
      ensures x in deliveries <==>
              exists r :: r in t.workflows && t.workflows[r].executionDeliveryId == Some(x)
                          && t.workflows[r].ownerKind == Some(Daemon) && t.workflows[r].ownerId == Some(d)
                          && t.workflows[r].attemptId == None && t.workflows[r].status in {WQueued, WRunning}
    {
      if x in deliveries {
        var r :| r in failed && t.workflows[r].executionDeliveryId == Some(x);
      }
      if r :| r in t.workflows && OwnedLiveWorkflow(t.workflows[r], d) && t.workflows[r].executionDeliveryId == Some(x) {
        assert r in failed;
      }
    }
  }

  /** The returned identifiers are exactly those of the rows the transaction changed. */
  lemma FailureReportIsExact(t: Tables, d: DaemonId, f: DaemonFailure, now: int)
    ensures var t', rep := FailOwnership(t, d, f, now), FailureReport(t, d);
      && rep.executionDeliveryIds == (set x | x in t.executions && t'.executions[x] != t.executions[x])
      && rep.workflowRunIds == (set r | r in t.workflows && t'.workflows[r] != t.workflows[r])
      && rep.directWorkflows == (set r | r in t.workflows && t.workflows[r].ownerKind == Some(Daemon) && t.workflows[r].ownerId == Some(d)
                                         && t.workflows[r].attemptId == None && t.workflows[r].status in {WQueued, WRunning})
      && (rep.daemonMarkedInactive <==> d in t.daemons && t'.daemons[d] != t.daemons[d])
  {
    var t', rep := FailOwnership(t, d, f, now), FailureReport(t, d);
    forall x | x in t.executions
      ensures x in rep.executionDeliveryIds <==> t'.executions[x] != t.executions[x]
    {
      assert FailRow(t.executions[x], f.executionReason, now).status.Failed?;
    }
    forall r | r in t.workflows
      ensures r in rep.workflowRunIds <==> t'.workflows[r] != t.workflows[r]
    {
      assert r in rep.workflowRunIds ==> t.workflows[r].Live() && t'.workflows[r].status.WFailed?;
    }
  }

  /** Nothing the daemon could still be running survives the transaction. */
  lemma FailOwnershipLeavesNothing(t: Tables, d: DaemonId, f: DaemonFailure, now: int)
    ensures var t' := FailOwnership(t, d, f, now);
      && (forall r :: r in t'.workflows ==>
            !(t'.workflows[r].ownerKind == Some(Daemon) && t'.workflows[r].ownerId == Some(d)
              && t'.workflows[r].attemptId == None && t'.workflows[r].status in {WQueued, WRunning}))
      && (forall x :: x in t'.executions ==>
            !(t'.executions[x].daemonId == Some(d) && t'.executions[x].offerId == None
              && t'.executions[x].status in {Queued, Offered, Running}))
      && !(d in t'.daemons && t'.daemons[d].active)
  {
    var t' := FailOwnership(t, d, f, now);
    forall r | r in t'.workflows
      ensures !OwnedLiveWorkflow(t'.workflows[r], d)
    {
      assert t'.workflows[r] == t.workflows[r] || t'.workflows[r].status.WFailed?;
    }
    forall x | x in t'.executions
      ensures !DoomedExecution(t'.executions, d, {}, x)
    {
    }
  }

  /** Running the transaction again, with any reason and at any later time, changes no row. */
  lemma FailOwnershipIdempotent(t: Tables, d: DaemonId, f: DaemonFailure, now: int, f': DaemonFailure, now': int)
    ensures var t' := FailOwnership(t, d, f, now);
      && FailOwnership(t', d, f', now') == t'
      && FailureReport(t', d) == FailedOwnership(false, {}, {}, {})
  {
    var t' := FailOwnership(t, d, f, now);
    FailOwnershipLeavesNothing(t, d, f, now);
    assert OwnedWorkflows(t'.workflows, d) == {};
    assert DeliveriesOf(t'.workflows, {}) == {};
    assert DoomedExecutions(t'.executions, d, {}) == {};
    assert PropagatedParents(t'.workflows, {}) == {} by {
      forall p | p in t'.workflows
        ensures FailedSteps(t'.workflows, {}, p) == {}
      {
      }
    }
    var t'' := FailOwnership(t', d, f', now');
    assert t''.executions == t'.executions;
    assert t''.workflows == t'.workflows;
    assert t''.locks == t'.locks;
  }
}
