/**
 src/daemon/job-executor.ts: running jobs and cancelling them. A step is the code
 between two `await`s. Each offer id is executed at most once, and `send` does not
 throw. Between the completion of a scoped job and the clean-up of its caller only
 microtasks run, so a cancel, which arrives as a message of its own, does not come
 in between.
 */
module JobExecutor {
  import opened Basics

  type OfferId = nat

  datatype ActiveJob = ActiveJob(deliveryId: string, workDir: string)

  /** What a job:payload asks for. */
  datatype Job =
    | Malformed(partialId: Option<string>)  // a critical context field is missing
    | DryRun(deliveryId: string)
    | Legacy(deliveryId: string)
    | Scoped(deliveryId: string, jobKind: string)

  /** How the awaited pipeline or scoped executor ends. */
  datatype Outcome = Returned(success: bool, status: string) | Threw(message: string)

  datatype Message =
    | Status(offer: OfferId, status: string)
    | JobResult(offer: OfferId, deliveryId: string, success: bool, error: Option<string>)
    | Completion(offer: OfferId, deliveryId: string, jobKind: string, status: string)

  datatype Phase =
    | Running    // awaiting runPipeline or the scoped executor
    | Returning  // runScopedJob returned, the finally block of its caller is next
    | Ended

  /** `aborted` is the state of the run's own AbortController. */
  datatype Execution = Execution(job: Job, phase: Phase, aborted: bool)

  datatype State = State(
    activeJobs: map<OfferId, ActiveJob>,
    controllers: set<OfferId>,             // keys of jobAbortControllers
    executions: map<OfferId, Execution>,
    sent: seq<Message>,
    reclaimed: seq<string>)                // workspaces removed by cancels

  const Init := State(map[], {}, map[], [], [])

  datatype Event =
    | Execute(offer: OfferId, job: Job)
    | WorkDirReady(offer: OfferId, dir: string)
    | Settle(offer: OfferId, outcome: Outcome)
    | Return(offer: OfferId)
    | Cancel(offer: OfferId, reason: string)

  const MALFORMED := "Malformed context: missing deliveryId, owner, repo, or entityNumber"

  function Send(s: State, m: Message): State {
    s.(sent := s.sent + [m])
  }

  function Track(s: State, o: OfferId, job: Job): State
    requires !job.Malformed?
  {
    s.(controllers := s.controllers + {o},
       activeJobs := s.activeJobs[o := ActiveJob(job.deliveryId, "")],
       executions := s.executions[o := Execution(job, Running, false)])
  }

  /** The finally block. */
  function Untrack(s: State, o: OfferId): State
    requires o in s.executions
  {
    s.(activeJobs := s.activeJobs - {o},
       controllers := s.controllers - {o},
       executions := s.executions[o := s.executions[o].(phase := Ended)])
  }

  function OnExecute(s: State, o: OfferId, job: Job): State {
    match job
    case Scoped(_, _) => Track(s, o, job)
    case Malformed(partialId) =>
      var id := if partialId.Some? then partialId.value else "unknown";
      Send(s, JobResult(o, id, false, Some(MALFORMED))).(executions := s.executions[o := Execution(job, Ended, false)])
    case DryRun(id) => Untrack(Send(Send(Track(s, o, job), Status(o, "cloning")), JobResult(o, id, true, None)), o)
    case Legacy(_) => Send(Send(Track(s, o, job), Status(o, "cloning")), Status(o, "executing"))
  }

  /** The terminal message of a run that was not cancelled. */
  function OwnMessage(o: OfferId, job: Job, outcome: Outcome): Message
    requires job.Legacy? || job.Scoped?
  {
    match job
    case Legacy(id) =>
      (match outcome
       case Returned(success, _) =>
         JobResult(o, id, success, if success then None else Some("Pipeline completed with failure"))
       case Threw(message) => JobResult(o, id, false, Some(message)))
    case Scoped(id, kind) => Completion(o, id, kind, if outcome.Returned? then outcome.status else "failed")
  }

  function OnSettle(s: State, o: OfferId, outcome: Outcome): State
    requires o in s.executions && (s.executions[o].job.Legacy? || s.executions[o].job.Scoped?)
  {
    var run := s.executions[o];
    var s' := if run.aborted then s else Send(s, OwnMessage(o, run.job, outcome));
    if run.job.Legacy? then Untrack(s', o)
    else s'.(executions := s'.executions[o := run.(phase := Returning)])
  }

  function OnCancel(s: State, o: OfferId, reason: string): State {
    if o !in s.activeJobs then s
    else
      var job := s.activeJobs[o];
      var s1 := if o in s.controllers && o in s.executions then
          s.(controllers := s.controllers - {o},
             executions := s.executions[o := s.executions[o].(aborted := true)])
        else s;
      var s2 := if job.workDir != "" then s1.(reclaimed := s1.reclaimed + [job.workDir]) else s1;
      Send(s2.(activeJobs := s2.activeJobs - {o}), JobResult(o, job.deliveryId, false, Some("Cancelled: " + reason)))
  }

  predicate NoneReturning(s: State) {
    forall o | o in s.executions :: !s.executions[o].phase.Returning?
  }

  predicate Enabled(s: State, e: Event) {
    match e
    case Execute(o, _) => o !in s.executions
    case WorkDirReady(o, _) => o in s.executions && s.executions[o].phase.Running? && s.executions[o].job.Legacy?
    case Settle(o, _) =>
      && o in s.executions && s.executions[o].phase.Running?
      && (s.executions[o].job.Legacy? || s.executions[o].job.Scoped?)
    case Return(o) => o in s.executions && s.executions[o].phase.Returning?
    case Cancel(_, _) => NoneReturning(s)
  }

  function Next(s: State, e: Event): State
    requires Enabled(s, e)
  {
    match e
    case Execute(o, job) => OnExecute(s, o, job)
    case WorkDirReady(o, dir) =>
      // a cancelled job's record is no longer in the map, and is set unseen
      if o in s.activeJobs then s.(activeJobs := s.activeJobs[o := s.activeJobs[o].(workDir := dir)]) else s
    case Settle(o, outcome) => OnSettle(s, o, outcome)
    case Return(o) => Untrack(s, o)
    case Cancel(o, reason) => OnCancel(s, o, reason)
  }

  function Run(events: seq<Event>): Option<State> {
    if events == [] then Some(Init)
    else
      match Run(events[..|events| - 1])
      case None => None
      case Some(s) =>
        var e := events[|events| - 1];
        if Enabled(s, e) then Some(Next(s, e)) else None
  }

  // ---------------------------------------------------------------------
  // Exactly one terminal message

  predicate IsTerminal(m: Message) {
    m.JobResult? || m.Completion?
  }

  function Terminals(sent: seq<Message>, o: OfferId): (n: nat)
    ensures n <= |sent|
  {
    if sent == [] then 0
    else
      var last := sent[|sent| - 1];
      Terminals(sent[..|sent| - 1], o) + if IsTerminal(last) && last.offer == o then 1 else 0
  }

  lemma TerminalsOfSend(s: State, m: Message)
    ensures forall o :: Terminals(Send(s, m).sent, o) ==
                        Terminals(s.sent, o) + if IsTerminal(m) && m.offer == o then 1 else 0
  {
    assert Send(s, m).sent[..|s.sent|] == s.sent;
  }

  /** What the maps and the messages so far say of one offer. */
  predicate Accounted(s: State, o: OfferId) {
    && (o in s.activeJobs <==> o in s.controllers)
    && (o in s.activeJobs <==> o in s.executions && !s.executions[o].phase.Ended? && !s.executions[o].aborted)
    && Terminals(s.sent, o) ==
         (if o !in s.executions || (s.executions[o].phase.Running? && !s.executions[o].aborted) then 0 else 1)
  }

  ghost predicate Inv(s: State) {
    && (forall o: OfferId :: Accounted(s, o))
    && (forall o | o in s.executions && !s.executions[o].phase.Ended? ::
          s.executions[o].job.Legacy? || s.executions[o].job.Scoped?)
  }

  lemma ExecuteKeepsInv(s: State, o: OfferId, job: Job)
    requires Inv(s) && o !in s.executions
    ensures Inv(OnExecute(s, o, job))
  {
    hide Terminals;
    assert Accounted(s, o);
    var s' := OnExecute(s, o, job);
    forall p: OfferId ensures Accounted(s', p) {
      assert Accounted(s, p);
      match job
      case Scoped(_, _) =>
      case Malformed(partialId) =>
        TerminalsOfSend(s, JobResult(o, if partialId.Some? then partialId.value else "unknown", false, Some(MALFORMED)));
      case DryRun(id) =>
        var s1 := Send(Track(s, o, job), Status(o, "cloning"));
        TerminalsOfSend(Track(s, o, job), Status(o, "cloning"));
        TerminalsOfSend(s1, JobResult(o, id, true, None));
      case Legacy(_) =>
        var s1 := Send(Track(s, o, job), Status(o, "cloning"));
        TerminalsOfSend(Track(s, o, job), Status(o, "cloning"));
        TerminalsOfSend(s1, Status(o, "executing"));
    }
  }

  lemma SettleKeepsInv(s: State, o: OfferId, outcome: Outcome)
    requires Inv(s) && Enabled(s, Settle(o, outcome))
    ensures Inv(OnSettle(s, o, outcome))
  {
    hide Terminals;
    var s' := OnSettle(s, o, outcome);
    TerminalsOfSend(s, OwnMessage(o, s.executions[o].job, outcome));
    forall p: OfferId ensures Accounted(s', p) {
      assert Accounted(s, p);
    }
  }

  lemma CancelKeepsInv(s: State, o: OfferId, reason: string)
    requires Inv(s) && NoneReturning(s)
    ensures Inv(OnCancel(s, o, reason))
  {
    hide Terminals;
    var s' := OnCancel(s, o, reason);
    assert Accounted(s, o);
    if o in s.activeJobs {
      TerminalsOfSend(s, JobResult(o, s.activeJobs[o].deliveryId, false, Some("Cancelled: " + reason)));
    }
    forall p: OfferId ensures Accounted(s', p) {
      assert Accounted(s, p);
    }
  }

  lemma NextKeepsInv(s: State, e: Event)
    requires Inv(s) && Enabled(s, e)
    ensures Inv(Next(s, e))
  {
    match e
    case Execute(o, job) => ExecuteKeepsInv(s, o, job);
    case Settle(o, outcome) => SettleKeepsInv(s, o, outcome);
    case Cancel(o, reason) => CancelKeepsInv(s, o, reason);
    case WorkDirReady(o, dir) =>
      hide Terminals;
      forall p: OfferId ensures Accounted(Next(s, e), p) {
        assert Accounted(s, p);
      }
    case Return(o) =>
      hide Terminals;
      forall p: OfferId ensures Accounted(Next(s, e), p) {
        assert Accounted(s, p);
      }
  }

  lemma {:induction false} RunKeepsInv(events: seq<Event>)
    requires Run(events).Some?
    ensures Inv(Run(events).value)
  {
    if events != [] {
      RunKeepsInv(events[..|events| - 1]);
      NextKeepsInv(Run(events[..|events| - 1]).value, events[|events| - 1]);
    }
  }

  /** For every interleaving of executions and cancels: never more than one
      terminal message per offer, exactly one once its execution has ended, and
      the two maps hold the same offers at every await. */
  lemma ExactlyOneTerminal(events: seq<Event>, o: OfferId)
    requires Run(events).Some?
    ensures var s := Run(events).value;
            && Terminals(s.sent, o) <= 1
            && (Terminals(s.sent, o) == 1 <==>
                  o in s.executions && (!s.executions[o].phase.Running? || s.executions[o].aborted))
            && (o in s.activeJobs <==> o in s.controllers)
  {
    RunKeepsInv(events);
    assert Accounted(Run(events).value, o);
  }

  // ---------------------------------------------------------------------
  // What the terminal message says

  /** The terminal message of offer `o` is what the events say of it: the fixed
      answers of a malformed payload and of a dry run, the reason of its
      cancellation, or the outcome its pipeline or scoped executor settled with. */
  ghost predicate TrueReport(events: seq<Event>, o: OfferId, job: Job, aborted: bool, m: Message)
  {
    && Execute(o, job) in events
    && match job
       case Malformed(partialId) =>
         m == JobResult(o, if partialId.Some? then partialId.value else "unknown", false,
                        Some("Malformed context: missing deliveryId, owner, repo, or entityNumber"))
       case DryRun(id) => m == JobResult(o, id, true, None)
       case Legacy(id) =>
         if aborted then
           exists reason :: Cancel(o, reason) in events && m == JobResult(o, id, false, Some("Cancelled: " + reason))
         else
           exists outcome :: Settle(o, outcome) in events &&
             m == (match outcome
                   case Returned(true, _) => JobResult(o, id, true, None)
                   case Returned(false, _) => JobResult(o, id, false, Some("Pipeline completed with failure"))
                   case Threw(message) => JobResult(o, id, false, Some(message)))
       case Scoped(id, kind) =>
         if aborted then
           exists reason :: Cancel(o, reason) in events && m == JobResult(o, id, false, Some("Cancelled: " + reason))
         else
           exists outcome :: Settle(o, outcome) in events &&
             m == (match outcome
                   case Returned(_, status) => Completion(o, id, kind, status)
                   case Threw(_) => Completion(o, id, kind, "failed"))
  }

  /** The jobs are those of the offers, and the records carry their delivery ids. */
  ghost predicate Given(events: seq<Event>, s: State)
  {
    && (forall o :: o in s.executions ==> Execute(o, s.executions[o].job) in events)
    && (forall o :: o in s.activeJobs ==>
          && o in s.executions && !s.executions[o].job.Malformed?
          && s.activeJobs[o].deliveryId == s.executions[o].job.deliveryId)
  }

  lemma ExecuteIsGiven(before: seq<Event>, s: State, o: OfferId, job: Job)
    requires Given(before, s) && o !in s.executions
    ensures Given(before + [Execute(o, job)], OnExecute(s, o, job))
  {
    assert forall x :: x in before ==> x in before + [Execute(o, job)];
    assert Execute(o, job) in before + [Execute(o, job)];
  }

  lemma NextIsGiven(before: seq<Event>, e: Event, s: State)
    requires Given(before, s) && Enabled(s, e)
    ensures Given(before + [e], Next(s, e))
  {
    if e.Execute? {
      ExecuteIsGiven(before, s, e.offer, e.job);
    } else {
      assert forall x :: x in before ==> x in before + [e];
    }
  }

  lemma {:induction false} RunIsGiven(events: seq<Event>)
    requires Run(events).Some?
    ensures Given(events, Run(events).value)
  {
    if events != [] {
      var before, e := events[..|events| - 1], events[|events| - 1];
      assert events == before + [e];
      RunIsGiven(before);
      NextIsGiven(before, e, Run(before).value);
    }
  }

  lemma {:induction false} TerminalIsCounted(sent: seq<Message>, m: Message)
    requires m in sent && IsTerminal(m)
    ensures Terminals(sent, m.offer) > 0
  {
    var init, last := sent[..|sent| - 1], sent[|sent| - 1];
    assert sent == init + [last];
    if m != last {
      TerminalIsCounted(init, m);
    }
  }

  /** Once a report is out, the run keeps its job and is not aborted any more. */
  lemma ReportedIsFixed(s: State, e: Event, m: Message)
    requires Inv(s) && Enabled(s, e) && m in s.sent && IsTerminal(m) && m.offer in s.executions
    ensures var s', o := Next(s, e), m.offer;
      o in s'.executions && s'.executions[o].job == s.executions[o].job && s'.executions[o].aborted == s.executions[o].aborted
  {
    TerminalIsCounted(s.sent, m);
    assert Accounted(s, m.offer);
    hide Terminals, Inv;
  }

  /** A report stays as true as it was. */
  lemma ReportStays(before: seq<Event>, e: Event, o: OfferId, job: Job, aborted: bool, m: Message)
    requires TrueReport(before, o, job, aborted, m)
    ensures TrueReport(before + [e], o, job, aborted, m)
  {
    assert forall x :: x in before ==> x in before + [e];
  }

  lemma NewFromExecute(before: seq<Event>, s: State, o: OfferId, job: Job, m: Message)
    requires o !in s.executions && m in OnExecute(s, o, job).sent && m !in s.sent && IsTerminal(m)
    ensures var s' := OnExecute(s, o, job);
      m.offer == o && o in s'.executions && s'.executions[o].job == job
      && TrueReport(before + [Execute(o, job)], o, job, s'.executions[o].aborted, m)
  {
    assert Execute(o, job) in before + [Execute(o, job)];
  }

  lemma NewFromSettle(before: seq<Event>, s: State, o: OfferId, outcome: Outcome, m: Message)
    requires Given(before, s) && Enabled(s, Settle(o, outcome))
    requires m in OnSettle(s, o, outcome).sent && m !in s.sent && IsTerminal(m)
    ensures var s' := OnSettle(s, o, outcome);
      m.offer == o && o in s'.executions
      && TrueReport(before + [Settle(o, outcome)], o, s'.executions[o].job, s'.executions[o].aborted, m)
  {
    var events := before + [Settle(o, outcome)];
    assert forall x :: x in before ==> x in events;
    assert Settle(o, outcome) in events;
  }

  lemma NewFromCancel(before: seq<Event>, s: State, o: OfferId, reason: string, m: Message)
    requires Inv(s) && Given(before, s) && Enabled(s, Cancel(o, reason))
    requires m in OnCancel(s, o, reason).sent && m !in s.sent && IsTerminal(m)
    ensures var s' := OnCancel(s, o, reason);
      m.offer == o && o in s'.executions
      && TrueReport(before + [Cancel(o, reason)], o, s'.executions[o].job, s'.executions[o].aborted, m)
  {
    var events := before + [Cancel(o, reason)];
    assert Accounted(s, o);
    assert forall x :: x in before ==> x in events;
    assert Cancel(o, reason) in events;
    hide Inv, Terminals;
  }

  /** A new report is about the event that sends it. */
  lemma NewReport(before: seq<Event>, e: Event, s: State, m: Message)
    requires Inv(s) && Given(before, s) && Enabled(s, e) && m in Next(s, e).sent && m !in s.sent && IsTerminal(m)
    ensures var s', o := Next(s, e), m.offer;
      o in s'.executions && TrueReport(before + [e], o, s'.executions[o].job, s'.executions[o].aborted, m)
  {
    hide Inv, Given, TrueReport, OnExecute, OnSettle, OnCancel;
    match e
    case Execute(o, job) => NewFromExecute(before, s, o, job, m);
    case Settle(o, outcome) => NewFromSettle(before, s, o, outcome, m);
    case Cancel(o, reason) => NewFromCancel(before, s, o, reason, m);
    case _ =>
  }

  /** Every terminal message of every run says what happened to its offer. */
  lemma {:induction false} TerminalSaysWhatHappened(events: seq<Event>, m: Message)
    requires Run(events).Some? && m in Run(events).value.sent && (m.JobResult? || m.Completion?)
    ensures var s, o := Run(events).value, m.offer;
      o in s.executions && TrueReport(events, o, s.executions[o].job, s.executions[o].aborted, m)
  {
    if events != [] {
      var before, e := events[..|events| - 1], events[|events| - 1];
      var s := Run(before).value;
      assert events == before + [e];
      RunKeepsInv(before);
      RunIsGiven(before);
      hide Inv, Given, TrueReport, Next;
      if m in s.sent {
        TerminalSaysWhatHappened(before, m);
        ReportedIsFixed(s, e, m);
        ReportStays(before, e, m.offer, s.executions[m.offer].job, s.executions[m.offer].aborted, m);
      } else {
        NewReport(before, e, s, m);
      }
    }
  }

  lemma {:induction false} SettledIsOver(events: seq<Event>, o: OfferId, outcome: Outcome)
    requires Run(events).Some? && Settle(o, outcome) in events
    ensures o in Run(events).value.executions && !Run(events).value.executions[o].phase.Running?
  {
    var before, e := events[..|events| - 1], events[|events| - 1];
    assert events == before + [e];
    if Settle(o, outcome) in before {
      SettledIsOver(before, o, outcome);
    }
  }

  /** An offer's run settles once, so the outcome its report tells is the only one. */
  lemma {:induction false} SettlesOnce(events: seq<Event>, i: nat, j: nat)
    requires Run(events).Some? && i <= j < |events|
    requires events[i].Settle? && events[j].Settle? && events[i].offer == events[j].offer
    ensures i == j
  {
    var before, e := events[..|events| - 1], events[|events| - 1];
    if j < |events| - 1 {
      SettlesOnce(before, i, j);
    } else if i < j {
      assert before[i] == events[i];
      SettledIsOver(before, e.offer, events[i].outcome);
    }
  }

  /** The order of microtasks matters: were a cancel handled between the completion
      of a scoped job and its caller's clean-up, the offer would end twice. */
  lemma CancelBeforeCleanupEndsTwice(o: OfferId, id: string, kind: string, reason: string)
    ensures var s := OnSettle(OnExecute(Init, o, Scoped(id, kind)), o, Returned(true, "succeeded"));
            !NoneReturning(s) && Terminals(OnCancel(s, o, reason).sent, o) == 2
  {
    var s := OnSettle(OnExecute(Init, o, Scoped(id, kind)), o, Returned(true, "succeeded"));
    assert s.executions[o].phase.Returning?;
    TerminalsOfSend(OnExecute(Init, o, Scoped(id, kind)), Completion(o, id, kind, "succeeded"));
    TerminalsOfSend(s, JobResult(o, id, false, Some("Cancelled: " + reason)));
  }

  // ---------------------------------------------------------------------
  // The module's state and functions

  class Executor {
    var activeJobs: map<OfferId, ActiveJob>
    var jobAbortControllers: set<OfferId>
    var executions: map<OfferId, Execution>
    var sent: seq<Message>
    var reclaimed: seq<string>
    ghost var history: seq<Event>          // the run so far

    function View(): State
      reads this
    {
      State(activeJobs, jobAbortControllers, executions, sent, reclaimed)
    }

    /** The object is where its history leads, so that whatever holds of all runs
        holds of it: offers end once, and their reports say what happened. */
    ghost predicate Valid()
      reads this
    {
      Run(history) == Some(View())
    }

    constructor ()
      ensures Valid() && View() == Init && history == []
    {
      activeJobs, jobAbortControllers, executions, sent, reclaimed := map[], {}, map[], [], [];
      history := [];
    }

    method Emit(m: Message)
      modifies this`sent
      ensures View() == Send(old(View()), m)
    {
      sent := sent + [m];
    }

    method Finally(o: OfferId)
      requires o in executions
      modifies this`activeJobs, this`jobAbortControllers, this`executions
      ensures View() == Untrack(old(View()), o)
    {
      activeJobs := activeJobs - {o};
      jobAbortControllers := jobAbortControllers - {o};
      executions := executions[o := executions[o].(phase := Ended)];
    }

    method Begin(o: OfferId, job: Job)
      modifies this`activeJobs, this`jobAbortControllers, this`executions, this`sent
      ensures View() == OnExecute(old(View()), o, job)
    {
      if job.Malformed? {
        executions := executions[o := Execution(job, Ended, false)];
        var id := if job.partialId.Some? then job.partialId.value else "unknown";
        Emit(JobResult(o, id, false, Some(MALFORMED)));
        return;
      }
      jobAbortControllers := jobAbortControllers + {o};
      activeJobs := activeJobs[o := ActiveJob(job.deliveryId, "")];
      executions := executions[o := Execution(job, Running, false)];
      if job.Scoped? {
        return;
      }
      Emit(Status(o, "cloning"));
      if job.DryRun? {
        Emit(JobResult(o, job.deliveryId, true, None));
        Finally(o);
        return;
      }
      Emit(Status(o, "executing"));
    }

    method Report(o: OfferId, outcome: Outcome)
      requires o in View().executions && (View().executions[o].job.Legacy? || View().executions[o].job.Scoped?)
      modifies this`activeJobs, this`jobAbortControllers, this`executions, this`sent
      ensures View() == OnSettle(old(View()), o, outcome)
    {
      var run := executions[o];
      if !run.aborted {
        Emit(OwnMessage(o, run.job, outcome));
      }
      if run.job.Legacy? {
        Finally(o);
      } else {
        executions := executions[o := run.(phase := Returning)];
      }
    }

    method SetWorkDir(o: OfferId, dir: string)
      requires Enabled(View(), WorkDirReady(o, dir))
      modifies this`activeJobs
      ensures View() == Next(old(View()), WorkDirReady(o, dir))
    {
      if o in activeJobs {
        activeJobs := activeJobs[o := activeJobs[o].(workDir := dir)];
      }
    }

    method Abort(o: OfferId, reason: string)
      modifies this`activeJobs, this`jobAbortControllers, this`executions, this`sent, this`reclaimed
      ensures View() == OnCancel(old(View()), o, reason)
    {
      if o !in activeJobs {
        return;
      }
      var job := activeJobs[o];
      if o in jobAbortControllers && o in executions {
        executions := executions[o := executions[o].(aborted := true)];
        jobAbortControllers := jobAbortControllers - {o};
      }
      if job.workDir != "" {
        reclaimed := reclaimed + [job.workDir];
      }
      activeJobs := activeJobs - {o};
      Emit(JobResult(o, job.deliveryId, false, Some("Cancelled: " + reason)));
    }

    // -------------------------------------------------------------------
    // The entry points

    /** executeJob up to its first await, or its end: an offer that needs no agent
        has had its one report, any other none yet. */
    method ExecuteJob(o: OfferId, job: Job)
      requires Valid() && o !in View().executions
      modifies this
      ensures Valid() && history == old(history) + [Execute(o, job)]
      ensures sent == old(sent) +
        if job.Malformed? then
          [JobResult(o, if job.partialId.Some? then job.partialId.value else "unknown", false,
                     Some("Malformed context: missing deliveryId, owner, repo, or entityNumber"))]
        else if job.DryRun? then [Status(o, "cloning"), JobResult(o, job.deliveryId, true, None)]
        else if job.Legacy? then [Status(o, "cloning"), Status(o, "executing")]
        else []
      ensures Terminals(View().sent, o) == if job.Malformed? || job.DryRun? then 1 else 0
    {
      ghost var s, e := View(), Execute(o, job);
      RunKeepsInv(history);
      ExecuteReports(s, o, job);
      OneMore(history, e);
      hide Inv, OnExecute, Terminals, Run;
      Begin(o, job);
      history := history + [e];
    }

    /** onWorkDirReady: the directory a later cancel will remove. */
    method OnWorkDirReady(o: OfferId, dir: string)
      requires Valid() && Enabled(View(), WorkDirReady(o, dir))
      modifies this
      ensures Valid() && history == old(history) + [WorkDirReady(o, dir)]
      ensures activeJobs == if o in old(activeJobs) then old(activeJobs)[o := old(activeJobs)[o].(workDir := dir)]
                            else old(activeJobs)
    {
      OneMore(history, WorkDirReady(o, dir));
      hide Run;
      SetWorkDir(o, dir);
      history := history + [WorkDirReady(o, dir)];
    }

    /** The rest of a legacy run, or of runScopedJob: the outcome is reported, unless
        the run was cancelled in the meantime, and then there is one report of the
        offer however it went. */
    method Settled(o: OfferId, outcome: Outcome)
      requires Valid() && Enabled(View(), Settle(o, outcome))
      modifies this
      ensures Valid() && history == old(history) + [Settle(o, outcome)]
      ensures var run := old(executions)[o];
        sent == old(sent) +
          if run.aborted then []
          else if run.job.Scoped? then
            [Completion(o, run.job.deliveryId, run.job.jobKind, if outcome.Returned? then outcome.status else "failed")]
          else if outcome.Threw? then [JobResult(o, run.job.deliveryId, false, Some(outcome.message))]
          else if outcome.success then [JobResult(o, run.job.deliveryId, true, None)]
          else [JobResult(o, run.job.deliveryId, false, Some("Pipeline completed with failure"))]
      ensures Terminals(View().sent, o) == 1
    {
      ghost var s, e := View(), Settle(o, outcome);
      RunKeepsInv(history);
      SettleReports(s, o, outcome);
      OneMore(history, e);
      hide Inv, OnSettle, Terminals, Run;
      Report(o, outcome);
      history := history + [e];
    }

    /** The finally block around runScopedJob: the offer leaves both maps. */
    method ScopedReturned(o: OfferId)
      requires Valid() && Enabled(View(), Return(o))
      modifies this
      ensures Valid() && history == old(history) + [Return(o)]
      ensures activeJobs == old(activeJobs) - {o} && jobAbortControllers == old(jobAbortControllers) - {o}
      ensures sent == old(sent) && Terminals(sent, o) == 1
    {
      RunKeepsInv(history);
      assert Accounted(View(), o);
      OneMore(history, Return(o));
      hide Inv, Terminals, Run;
      Finally(o);
      history := history + [Return(o)];
    }

    /** handleJobCancel: a tracked job is reported once and forgotten, its workspace
        reclaimed; for any other nothing happens. */
    method HandleJobCancel(o: OfferId, reason: string)
      requires Valid() && NoneReturning(View())
      modifies this
      ensures Valid() && history == old(history) + [Cancel(o, reason)]
      ensures if o in old(activeJobs)
        then
          && o in old(executions) && !old(executions)[o].job.Malformed?
          && sent == old(sent) + [JobResult(o, old(executions)[o].job.deliveryId, false, Some("Cancelled: " + reason))]
          && reclaimed == old(reclaimed) + (if old(activeJobs)[o].workDir != "" then [old(activeJobs)[o].workDir] else [])
          && activeJobs == old(activeJobs) - {o} && jobAbortControllers == old(jobAbortControllers) - {o}
          && Terminals(sent, o) == 1
        else View() == old(View())
    {
      ghost var s, e := View(), Cancel(o, reason);
      RunKeepsInv(history);
      RunIsGiven(history);
      CancelReports(s, o, reason);
      if o in s.activeJobs {
        CancelSends(history, s, o, reason);
      }
      OneMore(history, e);
      hide Inv, Given, OnCancel, Terminals, Run;
      Abort(o, reason);
      history := history + [e];
    }
  }

  lemma OneMore(events: seq<Event>, e: Event)
    requires Run(events).Some? && Enabled(Run(events).value, e)
    ensures Run(events + [e]) == Some(Next(Run(events).value, e))
  {
    assert (events + [e])[..|events|] == events;
  }

  lemma ExecuteReports(s: State, o: OfferId, job: Job)
    requires Inv(s) && o !in s.executions
    ensures var s' := OnExecute(s, o, job);
      && Terminals(s'.sent, o) == (if job.Malformed? || job.DryRun? then 1 else 0)
      && s'.sent == s.sent +
        if job.Malformed? then
          [JobResult(o, if job.partialId.Some? then job.partialId.value else "unknown", false,
                     Some("Malformed context: missing deliveryId, owner, repo, or entityNumber"))]
        else if job.DryRun? then [Status(o, "cloning"), JobResult(o, job.deliveryId, true, None)]
        else if job.Legacy? then [Status(o, "cloning"), Status(o, "executing")]
        else []
  {
    ExecuteKeepsInv(s, o, job);
    assert Accounted(OnExecute(s, o, job), o);
    hide Inv, Terminals;
  }

  lemma SettleReports(s: State, o: OfferId, outcome: Outcome)
    requires Inv(s) && Enabled(s, Settle(o, outcome))
    ensures var s', run := OnSettle(s, o, outcome), s.executions[o];
      && Terminals(s'.sent, o) == 1
      && s'.sent == s.sent +
          if run.aborted then []
          else if run.job.Scoped? then
            [Completion(o, run.job.deliveryId, run.job.jobKind, if outcome.Returned? then outcome.status else "failed")]
          else if outcome.Threw? then [JobResult(o, run.job.deliveryId, false, Some(outcome.message))]
          else if outcome.success then [JobResult(o, run.job.deliveryId, true, None)]
          else [JobResult(o, run.job.deliveryId, false, Some("Pipeline completed with failure"))]
  {
    SettleKeepsInv(s, o, outcome);
    assert Accounted(OnSettle(s, o, outcome), o);
    hide Inv, Terminals;
  }

  lemma CancelReports(s: State, o: OfferId, reason: string)
    requires Inv(s) && NoneReturning(s)
    ensures var s' := OnCancel(s, o, reason);
            if o in s.activeJobs then Terminals(s'.sent, o) == 1 else s' == s
  {
    CancelKeepsInv(s, o, reason);
    assert Accounted(s, o) && Accounted(OnCancel(s, o, reason), o);
    hide Inv, Terminals;
  }

  lemma CancelSends(events: seq<Event>, s: State, o: OfferId, reason: string)
    requires Inv(s) && Given(events, s) && o in s.activeJobs
    ensures var s', job := OnCancel(s, o, reason), s.activeJobs[o];
      && o in s.executions && !s.executions[o].job.Malformed?
      && s'.sent == s.sent + [JobResult(o, s.executions[o].job.deliveryId, false, Some("Cancelled: " + reason))]
      && s'.reclaimed == s.reclaimed + (if job.workDir != "" then [job.workDir] else [])
      && s'.activeJobs == s.activeJobs - {o} && s'.controllers == s.controllers - {o}
  {
    assert Accounted(s, o);
    hide Inv, Terminals;
  }
}
