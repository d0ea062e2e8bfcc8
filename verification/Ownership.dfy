/**
 Ownership of executions over whole histories of the ledger: every way the
 modelled code can write a row, one statement or transaction at a time.
 */
module Ownership {
  import opened Basics
  import opened Ledger

  /** One committed statement or transaction. */
  datatype Op =
    | Create(x: DeliveryId)
    | Offer(x: DeliveryId, d: DaemonId)
    | Run(x: DeliveryId)
    | Complete(x: DeliveryId)
    | Fail(x: DeliveryId, reason: string)
    | RequeueRow(x: DeliveryId)
    | Claim(x: DeliveryId, runner: DaemonId, attempt: AttemptId)
    | Recover(x: DeliveryId)
    | Upsert(d: DaemonId)
    | Fence(d: DaemonId, failure: DaemonFailure)
    | Deactivate(d: DaemonId)

  /** `delivery_id` is unique, so a second insert is refused and changes nothing. */
  ghost function Apply(t: Tables, op: Op, now: int): Tables
  {
    match op
    case Create(x) => if x in t.executions then t else CreateExecution(t, x, now)
    case Offer(x, d) => MarkOffered(t, x, d).0
    case Run(x) => MarkRunning(t, x, now)
    case Complete(x) => MarkCompleted(t, x, now)
    case Fail(x, reason) => MarkFailed(t, x, reason, now)
    case RequeueRow(x) => Requeue(t, x).0
    case Claim(x, runner, attempt) => ClaimForRunner(t, x, runner, attempt, now)
    case Recover(x) => RecoverRow(t, x, now)
    case Upsert(d) => UpsertDaemon(t, d, now)
    case Fence(d, failure) => FailOwnership(t, d, failure, now)
    case Deactivate(d) => DeactivateDaemon(t, d, now)
  }

  /** An offered or running row without an isolated attempt belongs to a daemon
      whose row is active; a queued row belongs to nobody; and only the isolated
      claim, which goes straight to running, writes an attempt. */
  ghost predicate RowOwned(t: Tables, e: Execution)
  {
    && (e.Assigned() && e.offerId.None? ==> e.daemonId.Some? && t.RowActive(e.daemonId.value))
    && (e.status.Queued? ==> e.daemonId.None?)
    && (e.status in {Queued, Offered} ==> e.offerId.None?)
  }

  ghost predicate Owned(t: Tables)
  {
    forall x :: x in t.executions ==> RowOwned(t, t.executions[x])
  }

  /** A daemon that still has an assigned row of its own. */
  ghost predicate HasAssigned(t: Tables, d: DaemonId)
  {
    exists x :: x in t.executions && t.executions[x].Assigned() && t.executions[x].offerId.None?
                && t.executions[x].daemonId == Some(d)
  }

  lemma FenceKeepsOwned(t: Tables, d: DaemonId, f: DaemonFailure, now: int)
    requires Owned(t)
    ensures Owned(FailOwnership(t, d, f, now))
  {
    FailOwnershipRest(t, d, f, now);
    hide FailOwnership;
    var t' := FailOwnership(t, d, f, now);
    forall x | x in t'.executions ensures RowOwned(t', t'.executions[x]) {
      assert RowOwned(t, t.executions[x]);
    }
  }

  /** A row is activated, or deactivated with nothing assigned to it. */
  lemma RowChangeKeepsOwned(t: Tables, t': Tables, d: DaemonId)
    requires Owned(t) && t'.executions == t.executions && !(HasAssigned(t, d) && !t'.RowActive(d))
    requires forall d' :: d' != d && t.RowActive(d') ==> t'.RowActive(d')
    ensures Owned(t')
  {
    forall x | x in t'.executions ensures RowOwned(t', t'.executions[x]) {
      assert RowOwned(t, t.executions[x]);
    }
  }

  /** One execution row is written. */
  lemma RowWriteKeepsOwned(t: Tables, t': Tables, x: DeliveryId)
    requires Owned(t) && t'.daemons == t.daemons && x in t'.executions && RowOwned(t, t'.executions[x])
    requires t'.executions == t.executions[x := t'.executions[x]]
    ensures Owned(t')
  {
    forall y | y in t'.executions ensures RowOwned(t', t'.executions[y]) {
      assert y != x ==> RowOwned(t, t.executions[y]);
    }
  }

  predicate WritesRow(op: Op) {
    !op.Upsert? && !op.Fence? && !op.Deactivate?
  }

  lemma RowOpShape(t: Tables, op: Op, now: int)
    requires Owned(t) && WritesRow(op)
    ensures var t' := Apply(t, op, now);
            t' == t || (t'.daemons == t.daemons && op.x in t'.executions && RowOwned(t, t'.executions[op.x])
                        && t'.executions == t.executions[op.x := t'.executions[op.x]])
  {
    hide FailOwnership;
    assert op.x in t.executions ==> RowOwned(t, t.executions[op.x]);
  }

  lemma OpKeepsOwned(t: Tables, op: Op, now: int)
    requires Owned(t)
    requires op.Deactivate? ==> !HasAssigned(t, op.d)
    ensures Owned(Apply(t, op, now))
  {
    hide FailOwnership, Owned;
    match op
    case Fence(d, failure) => FenceKeepsOwned(t, d, failure, now);
    case Upsert(d) => RowChangeKeepsOwned(t, UpsertDaemon(t, d, now), d);
    case Deactivate(d) => RowChangeKeepsOwned(t, DeactivateDaemon(t, d, now), d);
    case _ =>
      RowOpShape(t, op, now);
      if Apply(t, op, now) != t {
        RowWriteKeepsOwned(t, Apply(t, op, now), op.x);
      }
  }

  /** Of all the operations only the registry's unconditional UPDATE can break
      ownership, and it does so exactly when the daemon still has assigned rows:
      this is what the fencing transaction before it is for. */
  lemma DeactivateKeepsOwnedIff(t: Tables, d: DaemonId, now: int)
    requires Owned(t)
    ensures Owned(DeactivateDaemon(t, d, now)) <==> !HasAssigned(t, d)
  {
    if HasAssigned(t, d) {
      var x :| x in t.executions && t.executions[x].Assigned() && t.executions[x].offerId.None?
               && t.executions[x].daemonId == Some(d);
      assert RowOwned(t, t.executions[x]);
      assert !RowOwned(DeactivateDaemon(t, d, now), t.executions[x]);
    } else {
      OpKeepsOwned(t, Deactivate(d), now);
    }
  }

  /** A fenced daemon owns nothing, so deactivating it afterwards is harmless. */
  lemma FencedOwnsNothing(t: Tables, d: DaemonId)
    requires Owned(t) && !t.RowActive(d)
    ensures !HasAssigned(t, d)
  {
    forall x | x in t.executions
      ensures !(t.executions[x].Assigned() && t.executions[x].offerId.None? && t.executions[x].daemonId == Some(d))
    {
      assert RowOwned(t, t.executions[x]);
    }
  }

  // ---------------------------------------------------------------------
  // Terminal rows absorb, over whole histories

  ghost function Replay(t: Tables, history: seq<(Op, int)>): Tables
    decreases |history|
  {
    if history == [] then t else Replay(Apply(t, history[0].0, history[0].1), history[1..])
  }

  /** A row that an operation changes tells which operation it was, from which
      status, and every field it wrote; in particular only `Complete` reaches
      completed, and nothing leaves completed or failed. */
  lemma OpFollowsArrows(t: Tables, op: Op, now: int, x: DeliveryId)
    requires x in t.executions
    ensures x in Apply(t, op, now).executions
    ensures
      var e, e' := t.executions[x], Apply(t, op, now).executions[x];
      e' != e ==>
        match e'.status
        case Queued => op == RequeueRow(x) && e.status == Offered && e' == e.(status := Queued, daemonId := None)
        case Offered =>
          && op.Offer? && op.x == x && e.status == Queued
          && op.d in t.daemons && t.daemons[op.d].active
          && e' == e.(status := Offered, daemonId := Some(op.d))
        case Running =>
          || (op == Run(x) && e.status == Offered && e' == e.(status := Running, startedAt := Some(now)))
          || (op.Claim? && op.x == x && e.status == Queued
              && e' == e.(status := Running, daemonId := Some(op.runner), offerId := Some(op.attempt), startedAt := Some(now)))
        case Completed => op == Complete(x) && e.status == Running && e' == e.(status := Completed, completedAt := Some(now))
        case Failed =>
          exists reason :: e' == e.(status := Failed, completedAt := Some(now), errorMessage := Some(reason)) &&
            (|| (op == Fail(x, reason) && e.status in {Queued, Offered, Running})
             || (op == Recover(x) && e.status in {Offered, Running} && reason == "server restarted, execution state unknown")
             || (op.Fence? && e.status in {Queued, Offered, Running} && e.offerId == None && reason == op.failure.executionReason))
  {
    hide FailOwnership;
    if op.Fence? {
      FailOwnershipRest(t, op.d, op.failure, now);
    }
  }

  /** And an operation on one row takes effect exactly under its guard. */
  lemma OpTakesEffect(t: Tables, op: Op, now: int)
    requires WritesRow(op) && !op.Create? && op.x in t.executions
    ensures
      var status := t.executions[op.x].status;
      Apply(t, op, now).executions[op.x] != t.executions[op.x] <==>
        match op
        case Offer(_, d) => status == Queued && d in t.daemons && t.daemons[d].active
        case Run(_) => status == Offered
        case Complete(_) => status == Running
        case Fail(_, _) => status in {Queued, Offered, Running}
        case RequeueRow(_) => status == Offered
        case Claim(_, _, _) => status == Queued
        case Recover(_) => status in {Offered, Running}
  {
    hide FailOwnership;
  }

  /** Nothing else is written: an operation on a row leaves every other row and
      every other table alone, and a daemon's two updates only its own row. */
  lemma OpWritesNothingElse(t: Tables, op: Op, now: int)
    ensures op.Upsert? ==> Apply(t, op, now) == t.(daemons := t.daemons[op.d := DaemonRow(true, now)])
    ensures op.Deactivate? ==>
      Apply(t, op, now) == if op.d in t.daemons then t.(daemons := t.daemons[op.d := DaemonRow(false, now)]) else t
    ensures WritesRow(op) ==>
      var t' := Apply(t, op, now);
      && t' == t.(executions := t'.executions)
      && (forall y :: y != op.x ==> (y in t'.executions <==> y in t.executions))
      && (forall y :: y != op.x && y in t.executions ==> t'.executions[y] == t.executions[y])
      && (op.x in t'.executions <==> op.x in t.executions || op.Create?)
      && (op.Create? && op.x !in t.executions ==> t'.executions[op.x] == Execution(Queued, None, None, now, None, None, None))
  {
    hide FailOwnership;
  }

  /** Once completed or failed, a row is never written again, by any history. */
  lemma {:induction false} TerminalAbsorbs(t: Tables, history: seq<(Op, int)>, x: DeliveryId)
    requires x in t.executions && !t.executions[x].Live()
    ensures x in Replay(t, history).executions && Replay(t, history).executions[x] == t.executions[x]
    decreases |history|
  {
    if history != [] {
      OpFollowsArrows(t, history[0].0, history[0].1, x);
      TerminalAbsorbs(Apply(t, history[0].0, history[0].1), history[1..], x);
    }
  }

  /** A workflow row, too, never leaves a terminal status under the transaction. */
  lemma FenceKeepsTerminalWorkflows(t: Tables, d: DaemonId, f: DaemonFailure, now: int, r: RunId)
    requires r in t.workflows && !t.workflows[r].Live()
    ensures FailOwnership(t, d, f, now).workflows[r] == t.workflows[r]
  {
    FailOwnershipWorkflows(t, d, f, now, r);
  }
}
