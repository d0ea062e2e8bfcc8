/** `history.ts` in its own form: an object whose fields are the tables it writes. */
module History {
  import opened Basics
  import opened Ledger

  /** DECR_IF_POSITIVE_LUA on one counter; a missing key reads as zero and stays missing. */
  function DecrIfPositive(counters: map<DaemonId, int>, d: DaemonId): map<DaemonId, int>
  {
    if d in counters && counters[d] > 0 then counters[d := counters[d] - 1] else counters
  }

  function OwnerOf(t: Tables, x: DeliveryId): Option<DaemonId>
  {
    if x in t.executions then t.executions[x].daemonId else None
  }

  /** The owners of `rows` whose counter was reached, in order; a decrement that
      fails is logged and the loop goes on. */
  function OwnersOf(t: Tables, rows: seq<DeliveryId>, reached: seq<bool>): seq<DaemonId>
    requires |reached| == |rows|
  {
    if rows == [] then []
    else
      var n := |rows| - 1;
      var owner := OwnerOf(t, rows[n]);
      OwnersOf(t, rows[..n], reached[..n]) + (if owner.Some? && reached[n] then [owner.value] else [])
  }

  function DecrEach(counters: map<DaemonId, int>, owners: seq<DaemonId>): map<DaemonId, int>
  {
    if owners == [] then counters
    else DecrIfPositive(DecrEach(counters, owners[..|owners| - 1]), owners[|owners| - 1])
  }

  /** A counter falls by one per recovered row of its daemon and never below zero. */
  lemma {:induction false} DecrEachClamps(counters: map<DaemonId, int>, owners: seq<DaemonId>, d: DaemonId)
    requires d in counters && counters[d] >= 0
    ensures DecrEach(counters, owners).Keys == counters.Keys
    ensures DecrEach(counters, owners)[d] ==
            if counters[d] >= multiset(owners)[d] then counters[d] - multiset(owners)[d] else 0
  {
    if owners != [] {
      var init := owners[..|owners| - 1];
      assert owners == init + [owners[|owners| - 1]];
      DecrEachClamps(counters, init, d);
    }
  }

  /** The rows after the recovery loop has updated those in `rows`, one by one. */
  function Recovered(es: map<DeliveryId, Execution>, rows: seq<DeliveryId>, now: int): map<DeliveryId, Execution> {
    if rows == [] then es
    else
      var before, x := Recovered(es, rows[..|rows| - 1], now), rows[|rows| - 1];
      if x in before && before[x].Assigned() then before[x := FailRow(before[x], RESTARTED, now)] else before
  }

  /** The loop fails exactly the rows it was given, if they were assigned. */
  lemma {:induction false} RecoveredRows(es: map<DeliveryId, Execution>, rows: seq<DeliveryId>, now: int)
    requires forall x | x in rows :: x in es && es[x].Assigned()
    ensures Recovered(es, rows, now) ==
            map x | x in es :: if x in rows then FailRow(es[x], RESTARTED, now) else es[x]
  {
    if rows != [] {
      var init, last := rows[..|rows| - 1], rows[|rows| - 1];
      assert rows == init + [last];
      RecoveredRows(es, init, now);
    }
  }

  /** `inputs` is the aggregate over the rows in `seen`. */
  ghost predicate GroupedMinimum(ws: map<RunId, Workflow>, seen: set<RunId>, inputs: map<RunId, int>)
    requires seen <= ws.Keys
  {
    && (forall p :: p in inputs <==> FailedSteps(ws, seen, p) != {})
    && (forall p :: p in inputs ==> inputs[p] == MinOf(FailedSteps(ws, seen, p)))
  }

  lemma StepsOneMore(ws: map<RunId, Workflow>, seen: set<RunId>, r: RunId, p: RunId)
    requires seen <= ws.Keys && r in ws
    ensures FailedSteps(ws, seen + {r}, p) ==
            FailedSteps(ws, seen, p) + (if ws[r].parentRunId == Some(p) then {StepOf(ws[r])} else {})
  {
  }

  lemma GroupOneMore(ws: map<RunId, Workflow>, seen: set<RunId>, r: RunId, before: map<RunId, int>, after: map<RunId, int>)
    requires seen <= ws.Keys && r in ws && GroupedMinimum(ws, seen, before)
    requires ws[r].parentRunId.None? ==> after == before
    requires ws[r].parentRunId.Some? ==>
      var p, step := ws[r].parentRunId.value, StepOf(ws[r]);
      after == before[p := if p in before && before[p] <= step then before[p] else step]
    ensures GroupedMinimum(ws, seen + {r}, after)
  {
    forall p: RunId
      ensures p in after <==> FailedSteps(ws, seen + {r}, p) != {}
      ensures p in after ==> after[p] == MinOf(FailedSteps(ws, seen + {r}, p))
    {
      StepsOneMore(ws, seen, r, p);
      var steps, steps' := FailedSteps(ws, seen, p), FailedSteps(ws, seen + {r}, p);
      if ws[r].parentRunId == Some(p) {
        assert StepOf(ws[r]) in steps';
        MinUnique(steps', after[p]);
      } else {
        assert steps' == steps;
      }
    }
  }

  class ExecutionStore {
    var daemons: map<DaemonId, DaemonRow>
    var executions: map<DeliveryId, Execution>
    var workflows: map<RunId, Workflow>
    var locks: map<ActionId, Lock>
    var activeJobs: map<DaemonId, int>

    function View(): Tables
      reads this
    {
      Tables(daemons, executions, workflows, locks)
    }

    constructor ()
      ensures View() == Tables(map[], map[], map[], map[]) && activeJobs == map[]
    {
      daemons, executions, workflows, locks, activeJobs := map[], map[], map[], map[], map[];
    }

    method MarkExecutionOffered(x: DeliveryId, d: DaemonId) returns (outcome: OfferOutcome)
      modifies this`executions
      ensures (View(), outcome) == MarkOffered(old(View()), x, d)
      ensures outcome == if !(d in daemons && daemons[d].active) then DaemonInactive
                         else if x in old(executions) && old(executions)[x].status == Queued then WasOffered
                         else Stale
      ensures executions == if outcome == WasOffered
                            then old(executions)[x := old(executions)[x].(status := Offered, daemonId := Some(d))]
                            else old(executions)
    {
      if d !in daemons || !daemons[d].active {
        return DaemonInactive;
      }
      if x in executions && executions[x].status.Queued? {
        executions := executions[x := executions[x].(status := Offered, daemonId := Some(d))];
        return WasOffered;
      }
      return Stale;
    }

    method MarkExecutionRunning(x: DeliveryId, now: int)
      modifies this`executions
      ensures View() == MarkRunning(old(View()), x, now)
      ensures executions == if x in old(executions) && old(executions)[x].status == Offered
                            then old(executions)[x := old(executions)[x].(status := Running, startedAt := Some(now))]
                            else old(executions)
    {
      if x in executions && executions[x].status.Offered? {
        executions := executions[x := executions[x].(status := Running, startedAt := Some(now))];
      }
    }

    method MarkExecutionCompleted(x: DeliveryId, now: int)
      modifies this`executions
      ensures View() == MarkCompleted(old(View()), x, now)
      ensures executions == if x in old(executions) && old(executions)[x].status == Running
                            then old(executions)[x := old(executions)[x].(status := Completed, completedAt := Some(now))]
                            else old(executions)
    {
      if x in executions && executions[x].status.Running? {
        executions := executions[x := executions[x].(status := Completed, completedAt := Some(now))];
      }
    }

    method MarkExecutionFailed(x: DeliveryId, reason: string, now: int)
      modifies this`executions
      ensures View() == MarkFailed(old(View()), x, reason, now)
      ensures executions == if x in old(executions) && old(executions)[x].status in {Queued, Offered, Running}
                            then old(executions)[x := old(executions)[x].(status := Failed, completedAt := Some(now), errorMessage := Some(reason))]
                            else old(executions)
    {
      if x in executions && executions[x].status in {Queued, Offered, Running} {
        executions := executions[x := executions[x].(status := Failed, completedAt := Some(now), errorMessage := Some(reason))];
      }
    }

    method RequeueExecution(x: DeliveryId) returns (requeued: bool)
      modifies this`executions
      ensures (View(), requeued) == Requeue(old(View()), x)
      ensures requeued <==> x in old(executions) && old(executions)[x].status == Offered
      ensures executions == if requeued
                            then old(executions)[x := old(executions)[x].(status := Queued, daemonId := None)]
                            else old(executions)
    {
      requeued := x in executions && executions[x].status.Offered?;
      if requeued {
        executions := executions[x := executions[x].(status := Queued, daemonId := None)];
      }
    }

    /** SELECT parent_run_id, min(COALESCE(parent_step_index, -1)) ... GROUP BY parent_run_id */
    method FailedParentInputs(failed: set<RunId>) returns (inputs: map<RunId, int>)
      requires failed <= workflows.Keys
      ensures GroupedMinimum(workflows, failed, inputs)
    {
      inputs := map[];
      var todo := failed;
      while todo != {}
        invariant todo <= failed
        invariant GroupedMinimum(workflows, failed - todo, inputs)
        decreases |todo|
      {
        var r := PickOne(todo);
        ghost var seen := failed - todo;
        var step := StepOf(workflows[r]);
        var parent := workflows[r].parentRunId;
        ghost var before := inputs;
        if parent.Some? {
          var p := parent.value;
          inputs := inputs[p := if p in inputs && inputs[p] <= step then inputs[p] else step];
        }
        todo := todo - {r};
        assert failed - todo == seen + {r};
        GroupOneMore(workflows, seen, r, before, inputs);
      }
      assert failed - todo == failed;
    }

    /** The common table expression: both updates read the same snapshot. */
    method FailWorkflowsOf(d: DaemonId, failure: DaemonFailure, now: int)
      returns (failed: set<RunId>, parents: set<RunId>, deliveries: set<DeliveryId>)
      modifies this`workflows
      ensures failed == OwnedWorkflows(old(workflows), d) && failed <= old(workflows).Keys
      ensures parents == PropagatedParents(old(workflows), failed)
      ensures deliveries == DeliveriesOf(old(workflows), failed)
      ensures workflows == FailWorkflows(old(workflows), failed, failure, now)
    {
      failed := set r | r in workflows && OwnedLiveWorkflow(workflows[r], d);
      var inputs := FailedParentInputs(failed);
      parents := set p | p in workflows && p in inputs && workflows[p].status.WRunning? && p !in failed;
      deliveries := set r | r in failed && workflows[r].executionDeliveryId.Some? :: workflows[r].executionDeliveryId.value;
      workflows := map r | r in workflows ::
        if r in failed then FailOwned(workflows[r], failure, now)
        else if r in parents then FailParent(workflows[r], failure, inputs[r], now)
        else workflows[r];
    }

    /** UPDATE executions. The shorter statement for an empty list is the same update. */
    method FailExecutionsOf(d: DaemonId, deliveries: set<DeliveryId>, failure: DaemonFailure, now: int)
      returns (doomed: set<DeliveryId>)
      modifies this`executions
      ensures doomed == DoomedExecutions(old(executions), d, deliveries)
      ensures executions == FailExecutions(old(executions), doomed, failure, now)
      ensures executions == map x | x in old(executions) ::
                if x in doomed then
                  old(executions)[x].(status := Failed, completedAt := Some(now), errorMessage := Some(failure.executionReason))
                else old(executions)[x]
    {
      if deliveries == {} {
        doomed := set x | x in executions && executions[x].daemonId == Some(d)
                          && executions[x].offerId.None? && executions[x].status in {Queued, Offered, Running};
      } else {
        doomed := set x | x in executions && (executions[x].daemonId == Some(d) || x in deliveries)
                          && executions[x].offerId.None? && executions[x].status in {Queued, Offered, Running};
      }
      executions := map x | x in executions ::
        if x in doomed then
          executions[x].(status := Failed, completedAt := Some(now), errorMessage := Some(failure.executionReason))
        else executions[x];
    }

    /** UPDATE daemons ... AND status = 'active' RETURNING id */
    method MarkInactive(d: DaemonId, now: int) returns (marked: bool)
      modifies this`daemons
      ensures marked == old(View()).RowActive(d)
      ensures daemons == FenceRow(old(View()), d, now)
    {
      marked := d in daemons && daemons[d].active;
      if marked {
        daemons := daemons[d := DaemonRow(false, now)];
      }
    }

    /** UPDATE scheduled_action_state, skipped when no execution was failed. */
    method ReleaseLocksOf(doomed: set<DeliveryId>)
      modifies this`locks
      ensures locks == ReleaseLocks(old(locks), doomed)
    {
      if doomed != {} {
        locks := map a | a in locks ::
          if locks[a].inFlightJobId.Some? && locks[a].inFlightJobId.value in doomed then Lock(None, None) else locks[a];
      }
    }

    method FailDaemonOwnershipInTransaction(d: DaemonId, failure: DaemonFailure, now: int)
      returns (report: FailedOwnership)
      modifies this`daemons, this`executions, this`workflows, this`locks
      ensures View() == FailOwnership(old(View()), d, failure, now)
      ensures report == FailureReport(old(View()), d)
      ensures executions == map x | x in old(executions) ::
                if x in report.executionDeliveryIds then
                  old(executions)[x].(status := Failed, completedAt := Some(now), errorMessage := Some(failure.executionReason))
                else old(executions)[x]
    {
      hide FailWorkflows, FailExecutions, ReleaseLocks, OwnedWorkflows, DoomedExecutions, PropagatedParents, DeliveriesOf, FenceRow;
      var marked := MarkInactive(d, now);
      var failed, parents, deliveries := FailWorkflowsOf(d, failure, now);
      var doomed := FailExecutionsOf(d, deliveries, failure, now);
      ReleaseLocksOf(doomed);
      report := FailedOwnership(marked, doomed, failed + parents, failed);
    }

    /** The transaction a disconnect runs: what it fails, and with which texts. */
    method FailDisconnectedDaemon(d: DaemonId, now: int)
      returns (executionIds: set<DeliveryId>, runIds: set<RunId>)
      modifies this`daemons, this`executions, this`workflows, this`locks
      ensures View() == FailOwnership(old(View()), d, DISCONNECTED, now)
      ensures executionIds == set x | x in old(executions) && old(executions)[x].offerId == None
                && old(executions)[x].status in {Queued, Offered, Running}
                && (old(executions)[x].daemonId == Some(d) ||
                    exists r :: r in old(workflows) && old(workflows)[r].executionDeliveryId == Some(x)
                                && old(workflows)[r].ownerKind == Some(Daemon) && old(workflows)[r].ownerId == Some(d)
                                && old(workflows)[r].attemptId == None && old(workflows)[r].status in {WQueued, WRunning})
      ensures executions == map x | x in old(executions) ::
                if x in executionIds then
                  old(executions)[x].(status := Failed, completedAt := Some(now),
                                      errorMessage := Some("daemon disconnected during execution"))
                else old(executions)[x]
      ensures runIds == set r | r in old(workflows) && workflows[r] != old(workflows)[r]
      ensures forall r :: r in runIds ==>
                && r in workflows && workflows[r].status == WFailed
                && "failedReason" in workflows[r].state
                && workflows[r].state["failedReason"] == Text("daemon disconnected during execution")
    {
      ghost var t := View();
      var report := FailDaemonOwnershipInTransaction(d, DISCONNECTED, now);
      executionIds, runIds := report.executionDeliveryIds, report.workflowRunIds;
      FailOwnershipRest(t, d, DISCONNECTED, now);
      FailureReportIsExact(t, d, DISCONNECTED, now);
      hide FailOwnership, FailureReport;
      forall r | r in runIds
        ensures r in workflows && workflows[r].status == WFailed && "failedReason" in workflows[r].state
        ensures workflows[r].state["failedReason"] == Text("daemon disconnected during execution")
      {
        FailOwnershipWorkflows(t, d, DISCONNECTED, now, r);
      }
    }

    /** FM-4. `rows` is the SELECT's result in the order the database returns it;
        `reached` says of which rows the counter's decrement took effect. */
    method RecoverStaleExecutions(rows: seq<DeliveryId>, reached: seq<bool>, cutoff: int, now: int)
      requires forall x :: x in rows <==>
        x in executions && executions[x].offerId == None &&
        ((executions[x].status == Running && executions[x].startedAt.Some? && executions[x].startedAt.value < cutoff)
         || (executions[x].status == Offered && executions[x].createdAt < cutoff))
      requires |reached| == |rows|
      modifies this`executions, this`activeJobs
      ensures executions == map x | x in old(executions) ::
                var e := old(executions)[x];
                if e.offerId == None && ((e.status == Running && e.startedAt.Some? && e.startedAt.value < cutoff)
                                         || (e.status == Offered && e.createdAt < cutoff)) then
                  e.(status := Failed, completedAt := Some(now),
                     errorMessage := Some("server restarted, execution state unknown"))
                else e
      ensures activeJobs == DecrEach(old(activeJobs), OwnersOf(old(View()), rows, reached))
    {
      ghost var t, counters := View(), activeJobs;
      for i := 0 to |rows|
        invariant executions == Recovered(t.executions, rows[..i], now)
        invariant activeJobs == DecrEach(counters, OwnersOf(t, rows[..i], reached[..i]))
      {
        var x := rows[i];
        RecoveredOwner(t, rows[..i], now, x);
        RowsOneMore(t, rows, reached, counters, i);
        hide OwnersOf, DecrEach, DecrIfPositive, FailRow;
        assert rows[..i + 1][..i] == rows[..i];
        var owner := if x in executions then executions[x].daemonId else None;
        if x in executions && executions[x].Assigned() {
          executions := executions[x := FailRow(executions[x], RESTARTED, now)];
        }
        if owner.Some? && reached[i] {
          activeJobs := DecrIfPositive(activeJobs, owner.value);
        }
      }
      assert rows[..|rows|] == rows && reached[..|rows|] == reached;
      RecoveredRows(t.executions, rows, now);
    }
  }

  /** Failing a row leaves its owner in place. */
  lemma {:induction false} RecoveredOwner(t: Tables, rows: seq<DeliveryId>, now: int, x: DeliveryId)
    ensures var es := Recovered(t.executions, rows, now);
            (if x in es then es[x].daemonId else None) == OwnerOf(t, x)
  {
    if rows != [] {
      RecoveredOwner(t, rows[..|rows| - 1], now, x);
    }
  }

  /** One more row of the loop, for the counters. */
  lemma RowsOneMore(t: Tables, rows: seq<DeliveryId>, reached: seq<bool>, counters: map<DaemonId, int>, i: nat)
    requires i < |rows| == |reached|
    ensures var owner := OwnerOf(t, rows[i]);
            var before := DecrEach(counters, OwnersOf(t, rows[..i], reached[..i]));
            DecrEach(counters, OwnersOf(t, rows[..i + 1], reached[..i + 1])) ==
              if owner.Some? && reached[i] then DecrIfPositive(before, owner.value) else before
  {
    var owner, owners := OwnerOf(t, rows[i]), OwnersOf(t, rows[..i], reached[..i]);
    assert rows[..i + 1][..i] == rows[..i] && reached[..i + 1][..i] == reached[..i];
    if owner.Some? && reached[i] {
      assert (owners + [owner.value])[..|owners|] == owners;
    } else {
      assert owners + [] == owners;
    }
  }
}
