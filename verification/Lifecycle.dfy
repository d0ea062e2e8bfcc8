/**
 The daemon lifecycle of one orchestrator process as a transition system.

 A step is the code between two `await`s, which JavaScript runs to completion,
 or the effect of one awaited database or Valkey call. Steps of different
 routines interleave freely, with two orderings the runtime guarantees: a
 database transaction is atomic and holds its row lock, and the reaction that
 drops a finished cleanup from its map runs before any routine that awaited the
 cleanup, because it was attached first.
 */
module Lifecycle {
  import opened Basics
  import opened Ledger
  import Ownership

  /** What the major version in a register message means for this process. */
  datatype Protocol = Compatible | Outdated | Incompatible

  /** A socket speaks one protocol version for its whole life. */
  datatype Socket = Socket(id: nat, protocol: Protocol)

  datatype UpdatePhase = AwaitingAck | DrainingUpdate

  type RegId = nat
  type CleanupId = nat

  /** Where a run of `handleRegister` is suspended. */
  datatype RegPc =
    | Waiting(previous: Option<RegId>)     // on the transition queued before it
    | CleanupWait(cleanup: CleanupId)      // await pendingCleanup
    | OrphanQuery                          // await getOrphanedExecutions
    | OrphanFail(todo: set<DeliveryId>)    // await markExecutionFailed, in a loop
    | SetLive                              // SETEX daemon:{id}
    | Index                                // SET daemon:{id}:active_jobs, SADD active_daemons
    | UpsertRow                            // INSERT ... ON CONFLICT DO UPDATE
    | Registered                           // registerDaemon resolved, continuation pending
    | OwnCleanupWait(cleanup: CleanupId)   // the socket died: await startDisconnectCleanup
    | Settled                              // the promise settled, its reaction pending
    | Gone

  datatype Reg = Reg(ws: Socket, daemon: DaemonId, pc: RegPc)

  /** Where a run of `cleanupAfterDisconnect` is suspended. */
  datatype CleanupPc = FailTx | DelKey | Unindex | MarkRow | CSettled | CGone

  datatype Cleanup = Cleanup(daemon: DaemonId, pc: CleanupPc)

  datatype State = State(
    // in memory
    connections: map<DaemonId, Socket>,
    info: set<DaemonId>,                    // keys of daemonInfoMap
    heartbeats: set<DaemonId>,              // keys of heartbeatTimers
    draining: set<DaemonId>,
    cleanups: map<DaemonId, CleanupId>,     // disconnectCleanupsByDaemon
    regTail: map<DaemonId, RegId>,          // registrationTransitionsByDaemon
    updating: map<Socket, UpdatePhase>,     // protocolUpdateTransitions
    data: map<Socket, DaemonId>,            // ws.data.daemonId
    down: set<Socket>,                      // readyState is no longer OPEN
    // suspended routines
    regs: map<RegId, Reg>,
    cleans: map<CleanupId, Cleanup>,
    next: nat,
    // durable
    tables: Tables,
    keys: set<DaemonId>,                    // Valkey keys daemon:{id}
    locked: Option<DaemonId>,               // the reaper's SELECT ... FOR UPDATE
    clock: int)

  const Init := State(map[], {}, {}, {}, map[], map[], map[], map[], {}, map[], map[], 0,
                      Tables(map[], map[], map[], map[]), {}, None, 0)

  // ---------------------------------------------------------------------
  // Sockets closing and disconnect cleanup

  function StartCleanup(s: State, d: DaemonId): (State, CleanupId)
  {
    if d in s.cleanups then (s, s.cleanups[d])
    else
      (s.(cleanups := s.cleanups[d := s.next],
          cleans := s.cleans[s.next := Cleanup(d, FailTx)],
          next := s.next + 1), s.next)
  }

  /** The socket that owns this daemon's entry in `connections`. */
  predicate Installed(s: State, ws: Socket, d: DaemonId)
  {
    d in s.connections && s.connections[d] == ws
  }

  function Forget(s: State, d: DaemonId): State
  {
    s.(heartbeats := s.heartbeats - {d}, connections := s.connections - {d},
       info := s.info - {d}, draining := s.draining - {d})
  }

  /** Forgetting a connected daemon and starting its cleanup. */
  function Disconnect(s: State, d: DaemonId): State
  {
    StartCleanup(Forget(s, d), d).0
  }

  function WsClose(s: State, ws: Socket): State
  {
    var s1 := s.(updating := s.updating - {ws});
    if ws !in s1.data then s1
    else
      var d := s1.data[ws];
      var s2 := s1.(data := s1.data - {ws});
      if !Installed(s2, ws, d) then s2 else Disconnect(s2, d)
  }

  /** One step of `cleanupAfterDisconnect`. A failing transaction is logged and
      `deregisterDaemon` still runs; a failing registry call ends the routine. */
  ghost function CleanupStep(s: State, c: CleanupId, o: Outcome): State
    requires c in s.cleans
  {
    var k := s.cleans[c];
    match k.pc
    case FailTx =>
      s.(tables := if o.Applied() then FailOwnership(s.tables, k.daemon, DISCONNECTED, s.clock) else s.tables,
         cleans := s.cleans[c := k.(pc := DelKey)])
    case DelKey =>
      s.(keys := if o.Applied() then s.keys - {k.daemon} else s.keys,
         cleans := s.cleans[c := k.(pc := if o.Done? then Unindex else CSettled)])
    case Unindex => s.(cleans := s.cleans[c := k.(pc := if o.Done? then MarkRow else CSettled)])
    case MarkRow =>
      s.(tables := if o.Applied() then DeactivateDaemon(s.tables, k.daemon, s.clock) else s.tables,
         cleans := s.cleans[c := k.(pc := CSettled)])
    case CSettled => s
    case CGone => s
  }

  function FinishCleanup(s: State, c: CleanupId): State
    requires c in s.cleans
  {
    var k := s.cleans[c];
    s.(cleans := s.cleans[c := k.(pc := CGone)],
       cleanups := if k.daemon in s.cleanups && s.cleanups[k.daemon] == c then s.cleanups - {k.daemon} else s.cleanups)
  }

  // ---------------------------------------------------------------------
  // Registration

  function At(s: State, r: RegId, pc: RegPc): State
    requires r in s.regs
  {
    s.(regs := s.regs[r := s.regs[r].(pc := pc)])
  }

  function QueueRegistration(s: State, ws: Socket, d: DaemonId): State
  {
    var previous := if d in s.regTail then Some(s.regTail[d]) else None;
    s.(regs := s.regs[s.next := Reg(ws, d, Waiting(previous))],
       regTail := s.regTail[d := s.next],
       next := s.next + 1)
  }

  /** Taking the daemon away from the socket that holds it: the identity is cleared
      before the close, so that socket's own callback finds nothing to do. */
  function Supersede(s: State, d: DaemonId): State
    requires d in s.connections
  {
    var existing := s.connections[d];
    s.(data := s.data - {existing}, down := s.down + {existing},
       heartbeats := s.heartbeats - {d}, connections := s.connections - {d},
       draining := s.draining - {d})
  }

  /** From the end of the cleanup gate to the next await: supersede an existing
      connection, or go straight to `registerDaemon`. */
  function AfterGate(s: State, r: RegId): State
    requires r in s.regs
  {
    var d := s.regs[r].daemon;
    if d in s.connections then At(Supersede(s, d), r, OrphanQuery) else At(s, r, SetLive)
  }

  /** The body of `handleRegister` up to its first await. */
  function BeginRegister(s: State, r: RegId): State
    requires r in s.regs
  {
    var ws, d := s.regs[r].ws, s.regs[r].daemon;
    if ws in s.updating then At(s, r, Settled)
    else if ws.protocol.Outdated? then At(s.(updating := s.updating[ws := AwaitingAck]), r, Settled)
    else if ws.protocol.Incompatible? then At(s.(down := s.down + {ws}), r, Settled)
    else if d in s.cleanups then At(s, r, CleanupWait(s.cleanups[d]))
    else AfterGate(s, r)
  }

  function Connect(s: State, ws: Socket, d: DaemonId): State
  {
    s.(info := s.info + {d}, data := s.data[ws := d],
       connections := s.connections[d := ws], heartbeats := s.heartbeats + {d})
  }

  /** The continuation of `registerDaemon`, up to the end or to the next await. */
  function Install(s: State, r: RegId): State
    requires r in s.regs
  {
    var ws, d := s.regs[r].ws, s.regs[r].daemon;
    if ws in s.down then
      var (s', c) := StartCleanup(s, d);
      At(s', r, OwnCleanupWait(c))
    else
      At(Connect(s, ws, d), r, Settled)
  }

  function OrphansOf(t: Tables, d: DaemonId): set<DeliveryId>
  {
    set x | x in t.executions && t.executions[x].daemonId == Some(d) && t.executions[x].Assigned()
  }

  const RECONNECTED := "daemon reconnected, previous session orphaned"

  predicate Finished(pc: RegPc) {
    pc.Settled? || pc.Gone?
  }

  /** Whether the routine's awaited promise can settle now. */
  predicate Resumable(s: State, r: RegId, x: DeliveryId)
  {
    r in s.regs &&
    match s.regs[r].pc
    case Waiting(p) => p.Some? ==> p.value in s.regs && Finished(s.regs[p.value].pc)
    case CleanupWait(c) => c in s.cleans && s.cleans[c].pc.CGone?
    case OwnCleanupWait(c) => c in s.cleans && s.cleans[c].pc.CGone?
    case OrphanFail(todo) => x in todo
    case UpsertRow => s.locked != Some(s.regs[r].daemon)
    case Settled => false
    case Gone => false
    case _ => true
  }

  /** One step of a registration: the awaited call ends with outcome `o`, and the
      code runs on to its next await. */
  function Resume(s: State, r: RegId, o: Outcome, x: DeliveryId): State
    requires Resumable(s, r, x)
  {
    var d := s.regs[r].daemon;
    match s.regs[r].pc
    case Waiting(_) => BeginRegister(s, r)
    case CleanupWait(_) => AfterGate(s, r)
    case OrphanQuery =>
      var todo := OrphansOf(s.tables, d);
      At(s, r, if !o.Done? then Settled else if todo == {} then SetLive else OrphanFail(todo))
    case OrphanFail(todo) =>
      At(s.(tables := if o.Applied() then MarkFailed(s.tables, x, RECONNECTED, s.clock) else s.tables), r,
         if todo == {x} then SetLive else OrphanFail(todo - {x}))
    case SetLive =>
      At(s.(keys := if o.Applied() then s.keys + {d} else s.keys), r, if o.Done? then Index else Settled)
    case Index => At(s, r, if o.Done? then UpsertRow else Settled)
    case UpsertRow =>
      At(s.(tables := if o.Applied() then UpsertDaemon(s.tables, d, s.clock) else s.tables), r,
         if o.Done? then Registered else Settled)
    case Registered => Install(s, r)
    case OwnCleanupWait(_) => At(s, r, Settled)
    case _ => s
  }

  function FinishRegistration(s: State, r: RegId): State
    requires r in s.regs
  {
    var d := s.regs[r].daemon;
    At(s, r, Gone).(regTail := if d in s.regTail && s.regTail[d] == r then s.regTail - {d} else s.regTail)
  }

  /** `handleUpdateAcknowledged` for a socket in the update transition. */
  function AckUpdate(s: State, ws: Socket): State
  {
    if ws in s.updating then s.(updating := s.updating[ws := DrainingUpdate]) else s
  }

  /** Either timer of the update transition. */
  function UpdateExpired(s: State, ws: Socket): State
  {
    s.(updating := s.updating - {ws}, down := s.down + {ws})
  }

  // ---------------------------------------------------------------------
  // The transition system

  datatype Event =
    | Register(ws: Socket, d: DaemonId)             // a daemon:register message
    | Continue(r: RegId, o: Outcome, x: DeliveryId) // a registration resumes
    | EndRegister(r: RegId)                         // its finally reaction
    | Clean(c: CleanupId, o: Outcome)               // a cleanup resumes
    | EndClean(c: CleanupId)                        // its finally reaction
    | Drop(ws: Socket)                              // the socket leaves OPEN, for any reason
    | Closed(ws: Socket)                            // its close callback
    | Ack(ws: Socket)                               // daemon:update-acknowledged
    | UpdateTimer(ws: Socket)                       // either update timer fires
    | Drain(ws: Socket)                             // daemon:draining
    | ShutDown(d: DaemonId)                         // one turn of beginDaemonConnectionShutdown
    | Refresh(d: DaemonId)                          // the SETEX of a pong, however late
    | Dispatch(op: Ownership.Op)                    // any other writer of executions
    | ReapLock(d: DaemonId)                         // the reaper locks a row and finds no key
    | ReapCommit
    | ReapAbort
    | Tick

  predicate Enabled(s: State, e: Event)
  {
    match e
    case Continue(r, _, x) => Resumable(s, r, x)
    case EndRegister(r) => r in s.regs && s.regs[r].pc.Settled?
    case Clean(c, _) =>
      && c in s.cleans && s.cleans[c].pc in {FailTx, DelKey, Unindex, MarkRow}
      && (s.cleans[c].pc in {FailTx, MarkRow} ==> s.locked != Some(s.cleans[c].daemon))
    case EndClean(c) => c in s.cleans && s.cleans[c].pc.CSettled?
    case UpdateTimer(ws) => ws in s.updating
    case ShutDown(d) => d in s.connections
    case Dispatch(op) =>
      && !op.Upsert? && !op.Fence? && !op.Deactivate?
      && (op.Offer? ==> s.locked != Some(op.d))
    case ReapLock(d) => s.locked.None? && d in s.tables.daemons && d !in s.keys
    case ReapCommit => s.locked.Some?
    case ReapAbort => s.locked.Some?
    case _ => true
  }

  const REAPED := DaemonFailure("owner daemon is no longer alive", "Owning daemon is no longer alive", false)

  ghost function Next(s: State, e: Event): State
    requires Enabled(s, e)
  {
    match e
    case Register(ws, d) => QueueRegistration(s, ws, d)
    case Continue(r, o, x) => Resume(s, r, o, x)
    case EndRegister(r) => FinishRegistration(s, r)
    case Clean(c, o) => CleanupStep(s, c, o)
    case EndClean(c) => FinishCleanup(s, c)
    case Drop(ws) => s.(down := s.down + {ws})
    case Closed(ws) => WsClose(s.(down := s.down + {ws}), ws)
    case Ack(ws) => AckUpdate(s, ws)
    case UpdateTimer(ws) => UpdateExpired(s, ws)
    case Drain(ws) => if ws in s.data then s.(draining := s.draining + {s.data[ws]}) else s
    case ShutDown(d) => var ws := s.connections[d]; var s' := WsClose(s, ws); s'.(down := s'.down + {ws})
    case Refresh(d) => s.(keys := s.keys + {d})
    case Dispatch(op) => s.(tables := Ownership.Apply(s.tables, op, s.clock))
    case ReapLock(d) =>
      s.(locked := Some(d), down := if d in s.connections then s.down + {s.connections[d]} else s.down)
    case ReapCommit => s.(tables := FailOwnership(s.tables, s.locked.value, REAPED, s.clock), locked := None)
    case ReapAbort => s.(locked := None)
    case Tick => s.(clock := s.clock + 1)
  }

  /** The states of a run: each event is enabled where it happens. */
  ghost predicate IsRun(s: State, es: seq<Event>)
    decreases |es|
  {
    es == [] || (Enabled(s, es[0]) && IsRun(Next(s, es[0]), es[1..]))
  }

  ghost function After(s: State, es: seq<Event>): State
    requires IsRun(s, es)
    decreases |es|
  {
    if es == [] then s else After(Next(s, es[0]), es[1..])
  }
}
