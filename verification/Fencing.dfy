/** What every step of the lifecycle keeps, and what follows over whole runs. */
module Fencing {
  import opened Basics
  import opened Ledger
  import opened Lifecycle
  import Ownership

  type Regs = map<RegId, Reg>
  type Cleans = map<CleanupId, Cleanup>

  predicate Started(pc: RegPc) {
    !pc.Waiting?
  }

  /** Past the cleanup gate and not yet installed. */
  predicate Critical(pc: RegPc) {
    pc.OrphanQuery? || pc.OrphanFail? || pc.SetLive? || pc.Index? || pc.UpsertRow? || pc.Registered?
  }

  predicate Active(pc: RegPc) {
    Started(pc) && !Finished(pc)
  }

  // ---------------------------------------------------------------------
  // The registration queue

  /** The map holds the last registration queued for a daemon, and it holds one
      while any registration of that daemon is unfinished. */
  ghost predicate TailIsLatest(regs: Regs, tail: map<DaemonId, RegId>, next: nat)
  {
    && (forall r :: r in regs ==> r < next)
    && (forall d :: d in tail ==> tail[d] in regs && regs[tail[d]].daemon == d)
    && (forall r :: r in regs && regs[r].daemon in tail ==> r <= tail[regs[r].daemon])
    && (forall r :: r in regs && !Finished(regs[r].pc) ==> regs[r].daemon in tail)
  }

  /** What the position of `q` says about `r`, queued before it for the same daemon. */
  predicate Behind(r: RegId, before: Reg, after: Reg)
  {
    match after.pc
    case Waiting(p) => if p.Some? then r <= p.value else Finished(before.pc)
    case _ => Finished(before.pc)
  }

  /** A registration that has started, or waits for nothing, comes after finished
      ones only; one that waits does so for the one queued right before it. */
  ghost predicate Serial(regs: Regs)
  {
    && (forall r, q :: r in regs && q in regs && r < q && regs[r].daemon == regs[q].daemon ==> Behind(r, regs[r], regs[q]))
    && (forall q :: q in regs && regs[q].pc.Waiting? && regs[q].pc.previous.Some? ==>
          var p := regs[q].pc.previous.value;
          p in regs && p < q && regs[p].daemon == regs[q].daemon)
  }

  ghost predicate Queue(s: State)
  {
    TailIsLatest(s.regs, s.regTail, s.next) && Serial(s.regs)
  }

  /** Registration `r` moves forward from where it is suspended. */
  lemma AdvanceKeepsSerial(regs: Regs, r: RegId, pc: RegPc)
    requires Serial(regs) && r in regs && !Finished(regs[r].pc) && Started(pc)
    requires regs[r].pc.Waiting? && regs[r].pc.previous.Some? ==>
      regs[r].pc.previous.value in regs && Finished(regs[regs[r].pc.previous.value].pc)
    ensures Serial(regs[r := regs[r].(pc := pc)])
  {
    var regs' := regs[r := regs[r].(pc := pc)];
    forall a, q | a in regs' && q in regs' && a < q && regs'[a].daemon == regs'[q].daemon
      ensures Behind(a, regs'[a], regs'[q])
    {
      assert Behind(a, regs[a], regs[q]);
      if q == r && regs[r].pc.Waiting? && regs[r].pc.previous.Some? {
        var p := regs[r].pc.previous.value;
        if a < p {
          assert Behind(a, regs[a], regs[p]);
        }
      }
    }
  }

  function Enqueued(regs: Regs, tail: map<DaemonId, RegId>, next: nat, ws: Socket, d: DaemonId): Regs
  {
    regs[next := Reg(ws, d, Waiting(if d in tail then Some(tail[d]) else None))]
  }

  lemma QueueingKeepsTail(regs: Regs, tail: map<DaemonId, RegId>, next: nat, ws: Socket, d: DaemonId)
    requires TailIsLatest(regs, tail, next)
    ensures TailIsLatest(Enqueued(regs, tail, next, ws, d), tail[d := next], next + 1)
  {
  }

  lemma QueueingKeepsSerial(regs: Regs, tail: map<DaemonId, RegId>, next: nat, ws: Socket, d: DaemonId)
    requires TailIsLatest(regs, tail, next) && Serial(regs)
    ensures Serial(Enqueued(regs, tail, next, ws, d))
  {
    var regs' := Enqueued(regs, tail, next, ws, d);
    forall a, q | a in regs' && q in regs' && a < q && regs'[a].daemon == regs'[q].daemon
      ensures Behind(a, regs'[a], regs'[q])
    {
      assert a in regs;
      if q != next {
        assert Behind(a, regs[a], regs[q]);
      }
    }
  }

  /** Everything queued before a settled registration has finished. */
  lemma OlderAreFinished(regs: Regs, r: RegId)
    requires Serial(regs) && r in regs && regs[r].pc.Settled?
    ensures forall a | a in regs && regs[a].daemon == regs[r].daemon && a <= r :: Finished(regs[a].pc)
  {
    forall a | a in regs && regs[a].daemon == regs[r].daemon && a < r ensures Finished(regs[a].pc) {
      assert Behind(a, regs[a], regs[r]);
    }
  }

  lemma FinishKeepsTail(regs: Regs, tail: map<DaemonId, RegId>, next: nat, r: RegId)
    requires TailIsLatest(regs, tail, next) && Serial(regs) && r in regs && regs[r].pc.Settled?
    ensures var d := regs[r].daemon;
      TailIsLatest(regs[r := regs[r].(pc := Gone)], if d in tail && tail[d] == r then tail - {d} else tail, next)
  {
    OlderAreFinished(regs, r);
    hide Serial;
    var d, regs' := regs[r].daemon, regs[r := regs[r].(pc := Gone)];
    assert forall a :: a in regs' <==> a in regs;
    assert forall a | a in regs :: regs'[a].daemon == regs[a].daemon && (Finished(regs[a].pc) ==> Finished(regs'[a].pc));
  }

  lemma FinishKeepsSerial(regs: Regs, r: RegId)
    requires Serial(regs) && r in regs && regs[r].pc.Settled?
    ensures Serial(regs[r := regs[r].(pc := Gone)])
  {
    var regs' := regs[r := regs[r].(pc := Gone)];
    forall a, q | a in regs' && q in regs' && a < q && regs'[a].daemon == regs'[q].daemon
      ensures Behind(a, regs'[a], regs'[q])
    {
      assert Behind(a, regs[a], regs[q]);
    }
  }

  lemma FinishKeepsQueue(regs: Regs, tail: map<DaemonId, RegId>, next: nat, r: RegId)
    requires TailIsLatest(regs, tail, next) && Serial(regs) && r in regs && regs[r].pc.Settled?
    ensures var d := regs[r].daemon;
      var regs' := regs[r := regs[r].(pc := Gone)];
      var tail' := if d in tail && tail[d] == r then tail - {d} else tail;
      TailIsLatest(regs', tail', next) && Serial(regs')
  {
    hide TailIsLatest, Serial;
    FinishKeepsTail(regs, tail, next, r);
    FinishKeepsSerial(regs, r);
  }

  /** At most one registration of a daemon is running, and none when the next may start. */
  lemma OneActive(regs: Regs, r: RegId, q: RegId)
    requires Serial(regs) && r in regs && q in regs && regs[r].daemon == regs[q].daemon
    ensures Active(regs[r].pc) && Active(regs[q].pc) ==> r == q
  {
    if r < q {
      assert Behind(r, regs[r], regs[q]);
    } else if q < r {
      assert Behind(q, regs[q], regs[r]);
    }
  }

  lemma NoneActiveBefore(s: State, r: RegId, q: RegId, x: DeliveryId)
    requires Serial(s.regs) && Resumable(s, r, x) && s.regs[r].pc.Waiting?
    requires q in s.regs && s.regs[q].daemon == s.regs[r].daemon
    ensures !Active(s.regs[q].pc)
  {
    if q < r {
      assert Behind(q, s.regs[q], s.regs[r]);
      if s.regs[r].pc.previous.Some? && q < s.regs[r].pc.previous.value {
        assert Behind(q, s.regs[q], s.regs[s.regs[r].pc.previous.value]);
      }
    } else if r < q {
      assert Behind(r, s.regs[r], s.regs[q]);
    }
  }

  // ---------------------------------------------------------------------
  // Pending cleanups

  ghost predicate CleanupMap(cleans: Cleans, cleanups: map<DaemonId, CleanupId>, next: nat)
  {
    && (forall c :: c in cleans ==> c < next)
    && (forall c :: c in cleans && !cleans[c].pc.CGone? ==>
          cleans[c].daemon in cleanups && cleanups[cleans[c].daemon] == c)
    && (forall d :: d in cleanups ==>
          cleanups[d] in cleans && cleans[cleanups[d]].daemon == d && !cleans[cleanups[d]].pc.CGone?)
  }

  ghost predicate Cleaning(s: State)
  {
    CleanupMap(s.cleans, s.cleanups, s.next)
  }

  lemma StartKeepsCleanupMap(s: State, d: DaemonId)
    requires Cleaning(s)
    ensures Cleaning(StartCleanup(s, d).0)
    ensures StartCleanup(s, d).1 in StartCleanup(s, d).0.cleans
    ensures StartCleanup(s, d).0.cleans[StartCleanup(s, d).1].daemon == d
  {
  }

  // ---------------------------------------------------------------------
  // The fence

  /** What holds of an installed connection at every await point. */
  ghost predicate Connected(s: State, d: DaemonId)
    requires d in s.connections
  {
    && d !in s.cleanups
    && s.tables.RowActive(d)
    && d in s.keys
    && s.locked != Some(d)
    && s.connections[d].protocol.Compatible?
  }

  /** What holds of one registration, wherever it is suspended. */
  ghost predicate RegOk(s: State, reg: Reg)
  {
    var d := reg.daemon;
    && (Active(reg.pc) ==> d !in s.connections && reg.ws.protocol.Compatible?)
    && (Critical(reg.pc) ==> d !in s.cleanups)
    && (reg.pc in {Index, UpsertRow, Registered} ==> d in s.keys)
    && (reg.pc.Registered? ==> s.tables.RowActive(d) && s.locked != Some(d))
    && (reg.pc.CleanupWait? ==>
          && reg.pc.cleanup in s.cleans && s.cleans[reg.pc.cleanup].daemon == d
          && (d in s.cleanups ==> s.cleanups[d] == reg.pc.cleanup))
  }

  ghost predicate Fence(s: State)
  {
    && s.connections.Keys == s.heartbeats && s.connections.Keys <= s.info
    && (forall d :: d in s.connections ==> Connected(s, d))
    && (forall r :: r in s.regs ==> RegOk(s, s.regs[r]))
    && (forall ws :: ws in s.updating ==> ws.protocol.Outdated?)
  }

  ghost predicate Inv(s: State)
  {
    Queue(s) && Cleaning(s) && Fence(s)
  }

  /** A registration not of daemon `d` is unaffected by what happens to `d`. */
  ghost predicate OnlyTouches(s: State, s': State, d: DaemonId)
  {
    forall d' :: d' != d ==>
      && (d' in s'.connections <==> d' in s.connections)
      && (d' in s.connections ==> s'.connections[d'] == s.connections[d'])
      && (d' in s'.cleanups <==> d' in s.cleanups)
      && (d' in s.cleanups ==> s'.cleanups[d'] == s.cleanups[d'])
      && (d' in s.keys ==> d' in s'.keys)
      && (s.tables.RowActive(d') ==> s'.tables.RowActive(d'))
      && (s'.locked == Some(d') ==> s.locked == Some(d'))
  }

  ghost predicate CleansGrow(s: State, s': State)
  {
    forall c :: c in s.cleans ==> c in s'.cleans && s'.cleans[c].daemon == s.cleans[c].daemon
  }

  /** A step that concerns one daemon keeps the fence if it keeps it there. */
  lemma FenceLocal(s: State, s': State, d: DaemonId)
    requires Fence(s) && OnlyTouches(s, s', d) && CleansGrow(s, s')
    requires s'.connections.Keys == s'.heartbeats && s'.connections.Keys <= s'.info
    requires forall ws :: ws in s'.updating ==> ws.protocol.Outdated?
    requires d in s'.connections ==> Connected(s', d)
    requires forall r :: r in s'.regs && s'.regs[r].daemon == d ==> RegOk(s', s'.regs[r])
    requires forall r :: r in s'.regs && s'.regs[r].daemon != d ==> r in s.regs && s'.regs[r] == s.regs[r]
    ensures Fence(s')
  {
    forall r | r in s'.regs
      ensures RegOk(s', s'.regs[r])
    {
      if s'.regs[r].daemon != d {
        assert RegOk(s, s.regs[r]);
      }
    }
    forall d' | d' in s'.connections
      ensures Connected(s', d')
    {
      if d' != d {
        assert Connected(s, d');
      }
    }
  }

  lemma MapMinus<K, V>(m: map<K, V>, m': map<K, V>, k: K)
    requires m' - {k} == m - {k}
    ensures forall x :: x != k ==> (x in m' <==> x in m) && (x in m ==> m'[x] == m[x])
  {
    forall x | x != k
      ensures (x in m' <==> x in m) && (x in m ==> m'[x] == m[x])
    {
      assert x in m' <==> x in m' - {k};
      assert x in m <==> x in m - {k};
      assert x in m ==> (m' - {k})[x] == (m - {k})[x];
    }
  }

  // Closing sockets

  lemma CloseShape(s: State, ws: Socket)
    requires ws in s.data && Installed(s, ws, s.data[ws])
    ensures var d := s.data[ws];
      WsClose(s, ws) == StartCleanup(s, d).0.(
        updating := s.updating - {ws}, data := s.data - {ws}, heartbeats := s.heartbeats - {d},
        connections := s.connections - {d}, info := s.info - {d}, draining := s.draining - {d})
  {
  }

  /** What a hit leaves of the maps, component by component. */
  lemma CloseHitShape(s: State, ws: Socket)
    requires ws in s.data && Installed(s, ws, s.data[ws])
    ensures var s', d := WsClose(s, ws), s.data[ws];
      && s'.connections == s.connections - {d} && s'.heartbeats == s.heartbeats - {d} && s'.info == s.info - {d}
      && s'.regs == s.regs && s'.keys == s.keys && s'.tables == s.tables && s'.locked == s.locked
      && s'.updating == s.updating - {ws}
      && s'.cleanups - {d} == s.cleanups - {d}
      && (forall c :: c in s.cleans && c < s.next ==> c in s'.cleans && s'.cleans[c] == s.cleans[c])
  {
    hide WsClose;
    CloseShape(s, ws);
  }

  lemma CloseHitKeepsFence(s: State, ws: Socket)
    requires Fence(s) && Cleaning(s) && ws in s.data && Installed(s, ws, s.data[ws])
    ensures Fence(WsClose(s, ws))
  {
    hide WsClose;
    var d, s' := s.data[ws], WsClose(s, ws);
    CloseHitShape(s, ws);
    assert d !in s.cleanups by {
      assert Connected(s, d);
    }
    MapMinus(s.cleanups, s'.cleanups, d);
    forall r | r in s'.regs && s'.regs[r].daemon == d
      ensures RegOk(s', s'.regs[r])
    {
      assert RegOk(s, s.regs[r]);
    }
    assert OnlyTouches(s, s', d) && CleansGrow(s, s');
    hide OnlyTouches, CleansGrow, Connected, RegOk;
    FenceLocal(s, s', d);
  }

  lemma CloseMissShape(s: State, ws: Socket)
    requires !(ws in s.data && Installed(s, ws, s.data[ws]))
    ensures WsClose(s, ws) == s.(updating := s.updating - {ws}, data := s.data - {ws})
  {
  }

  lemma CloseHitKeepsInv(s: State, ws: Socket)
    requires Inv(s) && ws in s.data && Installed(s, ws, s.data[ws])
    ensures Inv(WsClose(s, ws))
  {
    CloseShape(s, ws);
    StartKeepsCleanupMap(s, s.data[ws]);
    CloseHitKeepsFence(s, ws);
  }

  lemma CloseKeepsInv(s: State, ws: Socket)
    requires Inv(s)
    ensures Inv(WsClose(s, ws))
  {
    if ws in s.data && Installed(s, ws, s.data[ws]) {
      CloseHitKeepsInv(s, ws);
    } else {
      CloseMissShape(s, ws);
      SameInv(s, s.(updating := s.updating - {ws}, data := s.data - {ws}));
    }
  }

  /** Changes outside the fence, or in its favour. */
  lemma SameFence(s: State, s': State)
    requires Fence(s)
    requires s'.connections == s.connections && s'.heartbeats == s.heartbeats && s.info <= s'.info
    requires s'.cleanups == s.cleanups && s'.cleans == s.cleans && s'.regs == s.regs
    requires s.keys <= s'.keys && (s'.locked == s.locked || s'.locked.None?)
    requires forall d :: s.tables.RowActive(d) ==> s'.tables.RowActive(d)
    requires forall ws :: ws in s'.updating ==> ws.protocol.Outdated?
    ensures Fence(s')
  {
    forall r | r in s'.regs
      ensures RegOk(s', s'.regs[r])
    {
      assert RegOk(s, s.regs[r]);
    }
    forall d | d in s'.connections
      ensures Connected(s', d)
    {
      assert Connected(s, d);
    }
  }

  lemma SameInv(s: State, s': State)
    requires Inv(s)
    requires s'.connections == s.connections && s'.heartbeats == s.heartbeats && s.info <= s'.info
    requires s'.cleanups == s.cleanups && s'.cleans == s.cleans
    requires s'.regs == s.regs && s'.regTail == s.regTail && s'.next == s.next
    requires s.keys <= s'.keys && (s'.locked == s.locked || s'.locked.None?)
    requires forall d :: s.tables.RowActive(d) ==> s'.tables.RowActive(d)
    requires forall ws :: ws in s'.updating ==> ws.protocol.Outdated?
    ensures Inv(s')
  {
    SameFence(s, s');
  }

  // Disconnect cleanups

  /** While a cleanup is pending its daemon is neither connected nor being
      registered past the gate: this is the whole point of the gate. */
  lemma PendingMeansAway(s: State, d: DaemonId)
    requires Fence(s) && d in s.cleanups
    ensures d !in s.connections
    ensures forall r :: r in s.regs && s.regs[r].daemon == d ==> !Critical(s.regs[r].pc)
  {
    assert d in s.connections ==> Connected(s, d);
    forall r | r in s.regs && s.regs[r].daemon == d
      ensures !Critical(s.regs[r].pc)
    {
      assert RegOk(s, s.regs[r]);
    }
  }

  /** What the steps of a cleanup of `d` may do, once nobody relies on `d`. */
  lemma AwayKeepsFence(s: State, s': State, d: DaemonId)
    requires Fence(s) && d in s.cleanups
    requires s'.connections == s.connections && s'.heartbeats == s.heartbeats && s'.info == s.info
    requires s'.regs == s.regs && s'.updating == s.updating && CleansGrow(s, s') && s'.locked == s.locked
    requires s'.cleanups == s.cleanups || s'.cleanups == s.cleanups - {d}
    requires s'.keys == s.keys || s'.keys == s.keys - {d}
    requires forall d' :: d' != d && s.tables.RowActive(d') ==> s'.tables.RowActive(d')
    ensures Fence(s')
  {
    PendingMeansAway(s, d);
    forall r | r in s'.regs && s'.regs[r].daemon == d
      ensures RegOk(s', s'.regs[r])
    {
      assert RegOk(s, s.regs[r]);
    }
    FenceLocal(s, s', d);
  }

  lemma FailOwnershipRows(t: Tables, d: DaemonId, f: DaemonFailure, now: int)
    ensures !FailOwnership(t, d, f, now).RowActive(d)
    ensures forall d' :: d' != d ==> (FailOwnership(t, d, f, now).RowActive(d') <==> t.RowActive(d'))
  {
  }

  /** A cleanup of `k.daemon` that is suspended elsewhere, or finished, afterwards. */
  ghost predicate CleanShape(s: State, s': State, c: CleanupId)
    requires c in s.cleans
  {
    var d := s.cleans[c].daemon;
    && c in s'.cleans && s'.cleans == s.cleans[c := s'.cleans[c]] && s'.cleans[c].daemon == d
    && s'.connections == s.connections && s'.heartbeats == s.heartbeats && s'.info == s.info
    && s'.regs == s.regs && s'.regTail == s.regTail && s'.next == s.next
    && s'.updating == s.updating && s'.locked == s.locked && s'.data == s.data
    && (s'.keys == s.keys || s'.keys == s.keys - {d})
    && (forall d' :: d' != d && s.tables.RowActive(d') ==> s'.tables.RowActive(d'))
    && (if s'.cleans[c].pc.CGone? then s'.cleanups == s.cleanups - {d} else s'.cleanups == s.cleanups)
  }

  lemma DeactivateRows(t: Tables, d: DaemonId, now: int)
    ensures forall d' :: d' != d ==> (DeactivateDaemon(t, d, now).RowActive(d') <==> t.RowActive(d'))
    ensures !DeactivateDaemon(t, d, now).RowActive(d)
  {
  }

  lemma TransactionHasShape(s: State, c: CleanupId, o: Outcome)
    requires Enabled(s, Clean(c, o)) && s.cleans[c].pc.FailTx?
    ensures CleanShape(s, CleanupStep(s, c, o), c)
  {
    hide FailOwnership;
    FailOwnershipRows(s.tables, s.cleans[c].daemon, DISCONNECTED, s.clock);
  }

  lemma KeyStepHasShape(s: State, c: CleanupId, o: Outcome)
    requires Enabled(s, Clean(c, o)) && s.cleans[c].pc in {DelKey, Unindex}
    ensures CleanShape(s, CleanupStep(s, c, o), c)
  {
  }

  lemma MarkStepHasShape(s: State, c: CleanupId, o: Outcome)
    requires Enabled(s, Clean(c, o)) && s.cleans[c].pc.MarkRow?
    ensures CleanShape(s, CleanupStep(s, c, o), c)
  {
    hide DeactivateDaemon;
    DeactivateRows(s.tables, s.cleans[c].daemon, s.clock);
  }

  lemma CleanHasShape(s: State, c: CleanupId, o: Outcome)
    requires Enabled(s, Clean(c, o))
    ensures CleanShape(s, CleanupStep(s, c, o), c)
  {
    hide CleanupStep, CleanShape;
    if s.cleans[c].pc.FailTx? {
      TransactionHasShape(s, c, o);
    } else if s.cleans[c].pc.MarkRow? {
      MarkStepHasShape(s, c, o);
    } else {
      KeyStepHasShape(s, c, o);
    }
  }

  lemma CleanShapeKeepsInv(s: State, s': State, c: CleanupId)
    requires Inv(s) && c in s.cleans && !s.cleans[c].pc.CGone? && CleanShape(s, s', c)
    ensures Inv(s')
  {
    var d := s.cleans[c].daemon;
    assert CleanupMap(s'.cleans, s'.cleanups, s'.next);
    AwayKeepsFence(s, s', d);
  }

  lemma CleanKeepsInv(s: State, c: CleanupId, o: Outcome)
    requires Inv(s) && Enabled(s, Clean(c, o))
    ensures Inv(CleanupStep(s, c, o))
  {
    CleanHasShape(s, c, o);
    CleanShapeKeepsInv(s, CleanupStep(s, c, o), c);
  }

  lemma EndCleanKeepsInv(s: State, c: CleanupId)
    requires Inv(s) && Enabled(s, EndClean(c))
    ensures Inv(FinishCleanup(s, c))
  {
    assert CleanShape(s, FinishCleanup(s, c), c);
    CleanShapeKeepsInv(s, FinishCleanup(s, c), c);
  }

  // Registrations

  lemma IdleOk(s: State, reg: Reg)
    requires !Active(reg.pc)
    ensures RegOk(s, reg)
  {
  }

  /** Registration `r` moved on to another await, or settled. */
  ghost predicate RegShape(s: State, s': State, r: RegId)
  {
    && r in s.regs && r in s'.regs && s'.regs == s.regs[r := s.regs[r].(pc := s'.regs[r].pc)]
    && Started(s'.regs[r].pc) && s'.regTail == s.regTail && s'.next >= s.next
    && OnlyTouches(s, s', s.regs[r].daemon) && CleansGrow(s, s')
    && s'.connections.Keys == s'.heartbeats && s'.connections.Keys <= s'.info
    && (forall ws :: ws in s'.updating ==> ws.protocol.Outdated?)
  }

  lemma RegStepKeepsQueue(s: State, s': State, r: RegId, x: DeliveryId)
    requires Queue(s) && Resumable(s, r, x) && RegShape(s, s', r)
    ensures Queue(s')
  {
    AdvanceKeepsSerial(s.regs, r, s'.regs[r].pc);
  }

  lemma RegStepKeepsFence(s: State, s': State, r: RegId, x: DeliveryId)
    requires Fence(s) && Serial(s.regs) && Resumable(s, r, x) && RegShape(s, s', r)
    requires s.regs[r].daemon in s'.connections ==> Connected(s', s.regs[r].daemon)
    requires RegOk(s', s'.regs[r])
    ensures Fence(s')
  {
    var d := s.regs[r].daemon;
    forall q | q in s'.regs && s'.regs[q].daemon == d
      ensures RegOk(s', s'.regs[q])
    {
      if q != r {
        if s.regs[r].pc.Waiting? {
          NoneActiveBefore(s, r, q, x);
        } else {
          OneActive(s.regs, r, q);
        }
        IdleOk(s', s'.regs[q]);
      }
    }
    FenceLocal(s, s', d);
  }

  lemma RegStepKeepsInv(s: State, s': State, r: RegId, x: DeliveryId)
    requires Inv(s) && Resumable(s, r, x) && RegShape(s, s', r) && Cleaning(s')
    requires s.regs[r].daemon in s'.connections ==> Connected(s', s.regs[r].daemon)
    requires RegOk(s', s'.regs[r])
    ensures Inv(s')
  {
    RegStepKeepsQueue(s, s', r, x);
    RegStepKeepsFence(s, s', r, x);
  }

  /** The gate is passed only when no cleanup of the daemon is pending. */
  lemma GateIsClear(s: State, r: RegId, x: DeliveryId)
    requires Inv(s) && Resumable(s, r, x) && s.regs[r].pc.CleanupWait?
    ensures s.regs[r].daemon !in s.cleanups
    ensures s.regs[r].daemon !in s.connections && s.regs[r].ws.protocol.Compatible?
  {
    assert RegOk(s, s.regs[r]);
  }

  /** Superseding the connection of `d`: the map entries go, nothing else moves. */
  lemma SupersedeKeepsInv(s: State, s': State, r: RegId, x: DeliveryId)
    requires Inv(s) && Resumable(s, r, x) && (s.regs[r].pc.Waiting? || s.regs[r].pc.CleanupWait?)
    requires s.regs[r].daemon !in s.cleanups && s.regs[r].ws.protocol.Compatible?
    requires r in s'.regs && s'.regs == s.regs[r := s.regs[r].(pc := OrphanQuery)] && s'.regTail == s.regTail
    requires s'.next == s.next && s'.cleanups == s.cleanups && s'.cleans == s.cleans && s'.updating == s.updating
    requires s'.keys == s.keys && s'.tables == s.tables && s'.locked == s.locked && s'.info == s.info
    requires s'.connections == s.connections - {s.regs[r].daemon} && s'.heartbeats == s.heartbeats - {s.regs[r].daemon}
    ensures Inv(s')
  {
    SupersedeShape(s, s', r);
    assert RegOk(s', s'.regs[r]) && s.regs[r].daemon !in s'.connections;
    hide Queue, Fence, Cleaning, RegShape, Connected, RegOk;
    RegStepKeepsInv(s, s', r, x);
  }

  lemma SupersedeShape(s: State, s': State, r: RegId)
    requires Fence(s) && Cleaning(s) && r in s.regs
    requires r in s'.regs && s'.regs == s.regs[r := s.regs[r].(pc := OrphanQuery)] && s'.regTail == s.regTail
    requires s'.next == s.next && s'.cleanups == s.cleanups && s'.cleans == s.cleans && s'.updating == s.updating
    requires s'.keys == s.keys && s'.tables == s.tables && s'.locked == s.locked && s'.info == s.info
    requires s'.connections == s.connections - {s.regs[r].daemon} && s'.heartbeats == s.heartbeats - {s.regs[r].daemon}
    ensures RegShape(s, s', r) && Cleaning(s')
  {
    hide RegOk, Connected;
  }

  /** Steps that only move a registration and leave the fenced parts alone. */
  lemma MoveKeepsInv(s: State, s': State, r: RegId, x: DeliveryId)
    requires Inv(s) && Resumable(s, r, x) && r in s'.regs
    requires s'.regs == s.regs[r := s.regs[r].(pc := s'.regs[r].pc)] && Started(s'.regs[r].pc)
    requires s'.regTail == s.regTail && s'.next == s.next && s'.cleanups == s.cleanups && s'.cleans == s.cleans
    requires s'.connections == s.connections && s'.heartbeats == s.heartbeats && s'.info == s.info
    requires s'.locked == s.locked && s.keys <= s'.keys
    requires forall d :: s.tables.RowActive(d) ==> s'.tables.RowActive(d)
    requires forall ws :: ws in s'.updating ==> ws.protocol.Outdated?
    requires RegOk(s', s'.regs[r])
    ensures Inv(s')
  {
    MoveShape(s, s', r);
    hide Queue, Fence, Cleaning, RegShape, Connected, RegOk;
    RegStepKeepsInv(s, s', r, x);
  }

  lemma MoveShape(s: State, s': State, r: RegId)
    requires Fence(s) && Cleaning(s) && r in s.regs && r in s'.regs
    requires s'.regs == s.regs[r := s.regs[r].(pc := s'.regs[r].pc)] && Started(s'.regs[r].pc)
    requires s'.regTail == s.regTail && s'.next == s.next && s'.cleanups == s.cleanups && s'.cleans == s.cleans
    requires s'.connections == s.connections && s'.heartbeats == s.heartbeats && s'.info == s.info
    requires s'.locked == s.locked && s.keys <= s'.keys
    requires forall d :: s.tables.RowActive(d) ==> s'.tables.RowActive(d)
    requires forall ws :: ws in s'.updating ==> ws.protocol.Outdated?
    ensures RegShape(s, s', r) && Cleaning(s')
    ensures s.regs[r].daemon in s'.connections ==> Connected(s', s.regs[r].daemon)
  {
    hide RegOk;
    var d := s.regs[r].daemon;
    assert d in s.connections ==> Connected(s, d);
  }

  lemma GateSupersedes(s: State, r: RegId)
    requires r in s.regs && s.regs[r].daemon in s.connections
    ensures var d, existing := s.regs[r].daemon, s.connections[s.regs[r].daemon];
            AfterGate(s, r) == s.(data := s.data - {existing}, down := s.down + {existing},
                                  heartbeats := s.heartbeats - {d}, connections := s.connections - {d},
                                  draining := s.draining - {d},
                                  regs := s.regs[r := s.regs[r].(pc := OrphanQuery)])
  {
  }

  lemma GateSupersedesKeepsInv(s: State, r: RegId, x: DeliveryId)
    requires Inv(s) && Resumable(s, r, x) && (s.regs[r].pc.Waiting? || s.regs[r].pc.CleanupWait?)
    requires s.regs[r].daemon !in s.cleanups && s.regs[r].ws.protocol.Compatible?
    requires s.regs[r].daemon in s.connections
    ensures Inv(AfterGate(s, r))
  {
    GateSupersedes(s, r);
    hide AfterGate, Inv;
    SupersedeKeepsInv(s, AfterGate(s, r), r, x);
  }

  lemma GateMovesKeepsInv(s: State, r: RegId, x: DeliveryId)
    requires Inv(s) && Resumable(s, r, x) && (s.regs[r].pc.Waiting? || s.regs[r].pc.CleanupWait?)
    requires s.regs[r].daemon !in s.cleanups && s.regs[r].ws.protocol.Compatible?
    requires s.regs[r].daemon !in s.connections
    ensures Inv(At(s, r, SetLive))
  {
    OnlyOutdatedUpdate(s);
    hide Inv;
    MoveKeepsInv(s, At(s, r, SetLive), r, x);
  }

  lemma AfterGateKeepsInv(s: State, r: RegId, x: DeliveryId)
    requires Inv(s) && Resumable(s, r, x) && (s.regs[r].pc.Waiting? || s.regs[r].pc.CleanupWait?)
    requires s.regs[r].daemon !in s.cleanups && s.regs[r].ws.protocol.Compatible?
    ensures Inv(AfterGate(s, r))
  {
    hide Inv, Supersede, At;
    if s.regs[r].daemon in s.connections {
      GateSupersedesKeepsInv(s, r, x);
    } else {
      GateMovesKeepsInv(s, r, x);
    }
  }

  lemma BeginStopsKeepsInv(s: State, r: RegId, x: DeliveryId)
    requires Inv(s) && Resumable(s, r, x) && s.regs[r].pc.Waiting?
    requires s.regs[r].ws in s.updating || !s.regs[r].ws.protocol.Compatible?
    ensures Inv(BeginRegister(s, r))
  {
    hide Inv, RegOk, AfterGate;
    OnlyOutdatedUpdate(s);
    var ws := s.regs[r].ws;
    var s1 := if ws in s.updating then s
              else if ws.protocol.Outdated? then s.(updating := s.updating[ws := AwaitingAck])
              else s.(down := s.down + {ws});
    IdleOk(At(s1, r, Settled), s.regs[r].(pc := Settled));
    MoveKeepsInv(s, At(s1, r, Settled), r, x);
  }

  lemma BeginWaitsKeepsInv(s: State, r: RegId, x: DeliveryId)
    requires Inv(s) && Resumable(s, r, x) && s.regs[r].pc.Waiting?
    requires s.regs[r].ws.protocol.Compatible? && s.regs[r].daemon in s.cleanups
    ensures Inv(At(s, r, CleanupWait(s.cleanups[s.regs[r].daemon])))
  {
    var s' := At(s, r, CleanupWait(s.cleanups[s.regs[r].daemon]));
    PendingMeansAway(s, s.regs[r].daemon);
    assert RegOk(s', s'.regs[r]);
    MoveKeepsInv(s, s', r, x);
  }

  lemma BeginKeepsInv(s: State, r: RegId, x: DeliveryId)
    requires Inv(s) && Resumable(s, r, x) && s.regs[r].pc.Waiting?
    ensures Inv(BeginRegister(s, r))
  {
    var ws, d := s.regs[r].ws, s.regs[r].daemon;
    if ws in s.updating || !ws.protocol.Compatible? {
      BeginStopsKeepsInv(s, r, x);
    } else if d in s.cleanups {
      BeginWaitsKeepsInv(s, r, x);
    } else {
      AfterGateKeepsInv(s, r, x);
    }
  }

  /** The awaited calls between the gate and the installation, one after another. */
  lemma OrphanShape(s: State, r: RegId, o: Outcome, x: DeliveryId) returns (t: Tables, pc: RegPc)
    requires Resumable(s, r, x) && (s.regs[r].pc.OrphanQuery? || s.regs[r].pc.OrphanFail?)
    ensures Resume(s, r, o, x) == At(s.(tables := t), r, pc)
    ensures t.daemons == s.tables.daemons && (pc.OrphanFail? || pc.SetLive? || pc.Settled?)
  {
    hide OrphansOf;
    t := if s.regs[r].pc.OrphanFail? && o.Applied() then MarkFailed(s.tables, x, RECONNECTED, s.clock) else s.tables;
    pc := Resume(s, r, o, x).regs[r].pc;
  }

  lemma OrphanStepsKeepInv(s: State, r: RegId, o: Outcome, x: DeliveryId)
    requires Inv(s) && Resumable(s, r, x) && (s.regs[r].pc.OrphanQuery? || s.regs[r].pc.OrphanFail?)
    ensures Inv(Resume(s, r, o, x))
  {
    assert RegOk(s, s.regs[r]);
    OnlyOutdatedUpdate(s);
    var t, pc := OrphanShape(s, r, o, x);
    hide Resume, Queue, Cleaning, Fence;
    MoveKeepsInv(s, Resume(s, r, o, x), r, x);
  }

  lemma KeyStepShape(s: State, r: RegId, o: Outcome, x: DeliveryId) returns (keys: set<DaemonId>, pc: RegPc)
    requires Resumable(s, r, x) && (s.regs[r].pc.SetLive? || s.regs[r].pc.Index?)
    ensures Resume(s, r, o, x) == At(s.(keys := keys), r, pc) && s.keys <= keys
    ensures pc.Settled? || (pc.Index? && s.regs[r].daemon in keys) || (pc.UpsertRow? && s.regs[r].pc.Index?)
  {
    keys := if s.regs[r].pc.SetLive? && o.Applied() then s.keys + {s.regs[r].daemon} else s.keys;
    pc := Resume(s, r, o, x).regs[r].pc;
  }

  lemma KeyStepsKeepInv(s: State, r: RegId, o: Outcome, x: DeliveryId)
    requires Inv(s) && Resumable(s, r, x) && (s.regs[r].pc.SetLive? || s.regs[r].pc.Index?)
    ensures Inv(Resume(s, r, o, x))
  {
    assert RegOk(s, s.regs[r]);
    OnlyOutdatedUpdate(s);
    var keys, pc := KeyStepShape(s, r, o, x);
    hide Resume, Queue, Cleaning, Fence;
    MoveKeepsInv(s, Resume(s, r, o, x), r, x);
  }

  lemma UpsertRows(t: Tables, d: DaemonId, now: int)
    ensures UpsertDaemon(t, d, now).RowActive(d)
    ensures forall d' :: t.RowActive(d') ==> UpsertDaemon(t, d, now).RowActive(d')
  {
  }

  lemma UpsertShape(s: State, r: RegId, o: Outcome, x: DeliveryId)
    requires Resumable(s, r, x) && s.regs[r].pc.UpsertRow?
    ensures var t := if o.Applied() then UpsertDaemon(s.tables, s.regs[r].daemon, s.clock) else s.tables;
            Resume(s, r, o, x) == At(s.(tables := t), r, if o.Done? then Registered else Settled)
  {
  }

  lemma UpsertKeepsInv(s: State, r: RegId, o: Outcome, x: DeliveryId)
    requires Inv(s) && Resumable(s, r, x) && s.regs[r].pc.UpsertRow?
    ensures Inv(Resume(s, r, o, x))
  {
    assert RegOk(s, s.regs[r]);
    UpsertShape(s, r, o, x);
    UpsertRows(s.tables, s.regs[r].daemon, s.clock);
    OnlyOutdatedUpdate(s);
    hide Resume, UpsertDaemon, Queue, Cleaning, Fence;
    MoveKeepsInv(s, Resume(s, r, o, x), r, x);
  }

  lemma InstallLiveShape(s: State, r: RegId)
    requires Fence(s) && Cleaning(s) && r in s.regs && s.regs[r].ws !in s.down
    ensures RegShape(s, Install(s, r), r) && Cleaning(Install(s, r))
  {
    hide Connected, RegOk;
  }

  /** The row and the key were set on the way, so the new connection is fenced. */
  lemma InstallLiveConnects(s: State, r: RegId)
    requires r in s.regs && RegOk(s, s.regs[r]) && s.regs[r].pc.Registered? && s.regs[r].ws !in s.down
    ensures var s' := Install(s, r);
            s.regs[r].daemon in s'.connections && Connected(s', s.regs[r].daemon) && RegOk(s', s'.regs[r])
  {
  }

  lemma InstallLiveKeepsInv(s: State, r: RegId, x: DeliveryId)
    requires Inv(s) && Resumable(s, r, x) && s.regs[r].pc.Registered? && s.regs[r].ws !in s.down
    ensures Inv(Install(s, r))
  {
    assert RegOk(s, s.regs[r]);
    InstallLiveShape(s, r);
    InstallLiveConnects(s, r);
    hide Install, Queue, Fence, Cleaning, RegShape, Connected, RegOk;
    RegStepKeepsInv(s, Install(s, r), r, x);
  }

  lemma InstallDeadShape(s: State, r: RegId)
    requires r in s.regs && s.regs[r].ws in s.down
    ensures var (s', c) := StartCleanup(s, s.regs[r].daemon);
            Install(s, r) == s'.(regs := s.regs[r := s.regs[r].(pc := OwnCleanupWait(c))])
  {
  }

  lemma StartTouches(s: State, d: DaemonId)
    requires Cleaning(s)
    ensures var s' := StartCleanup(s, d).0;
            && OnlyTouches(s, s', d) && CleansGrow(s, s')
            && s' == s.(cleanups := s'.cleanups, cleans := s'.cleans, next := s'.next) && s'.next >= s.next
  {
  }

  /** A step that has started a cleanup and then moves the registration. */
  lemma StartedMoves(s: State, t: State, s': State, r: RegId, pc: RegPc)
    requires Fence(s) && r in s.regs && Started(pc)
    requires OnlyTouches(s, t, s.regs[r].daemon) && CleansGrow(s, t)
    requires t == s.(cleanups := t.cleanups, cleans := t.cleans, next := t.next) && t.next >= s.next
    requires s' == t.(regs := s.regs[r := s.regs[r].(pc := pc)])
    ensures RegShape(s, s', r)
  {
    hide Connected, RegOk;
  }

  lemma InstallDeadMoves(s: State, r: RegId)
    requires Fence(s) && Cleaning(s) && r in s.regs && s.regs[r].ws in s.down
    ensures RegShape(s, Install(s, r), r) && Cleaning(Install(s, r))
  {
    var d := s.regs[r].daemon;
    var (t, c) := StartCleanup(s, d);
    InstallDeadShape(s, r);
    StartTouches(s, d);
    StartKeepsCleanupMap(s, d);
    hide Install, StartCleanup, Fence, OnlyTouches, CleansGrow, RegShape;
    StartedMoves(s, t, Install(s, r), r, OwnCleanupWait(c));
  }

  lemma InstallDeadWaits(s: State, r: RegId)
    requires r in s.regs && RegOk(s, s.regs[r]) && s.regs[r].pc.Registered? && s.regs[r].ws in s.down
    ensures s.regs[r].daemon !in Install(s, r).connections && RegOk(Install(s, r), Install(s, r).regs[r])
  {
    hide Install;
    InstallDeadShape(s, r);
  }

  lemma InstallDeadKeepsInv(s: State, r: RegId, x: DeliveryId)
    requires Inv(s) && Resumable(s, r, x) && s.regs[r].pc.Registered? && s.regs[r].ws in s.down
    ensures Inv(Install(s, r))
  {
    assert RegOk(s, s.regs[r]);
    InstallDeadMoves(s, r);
    InstallDeadWaits(s, r);
    hide Install, Queue, Fence, Cleaning, RegShape, Connected, RegOk;
    RegStepKeepsInv(s, Install(s, r), r, x);
  }

  lemma ContinueKeepsInv(s: State, r: RegId, o: Outcome, x: DeliveryId)
    requires Inv(s) && Resumable(s, r, x)
    ensures Inv(Resume(s, r, o, x))
  {
    match s.regs[r].pc
    case Waiting(_) => BeginKeepsInv(s, r, x);
    case CleanupWait(_) =>
      GateIsClear(s, r, x);
      AfterGateKeepsInv(s, r, x);
    case Registered =>
      if s.regs[r].ws in s.down {
        InstallDeadKeepsInv(s, r, x);
      } else {
        InstallLiveKeepsInv(s, r, x);
      }
    case OwnCleanupWait(_) =>
      IdleOk(At(s, r, Settled), s.regs[r].(pc := Settled));
      MoveKeepsInv(s, At(s, r, Settled), r, x);
    case UpsertRow => UpsertKeepsInv(s, r, o, x);
    case SetLive => KeyStepsKeepInv(s, r, o, x);
    case Index => KeyStepsKeepInv(s, r, o, x);
    case _ => OrphanStepsKeepInv(s, r, o, x);
  }

  /** A registration that starts waiting, or is forgotten, concerns nobody else. */
  lemma IdleRegKeepsFence(s: State, s': State, r: RegId, reg: Reg)
    requires Fence(s) && !Active(reg.pc) && s'.regs == s.regs[r := reg]
    requires s'.connections == s.connections && s'.heartbeats == s.heartbeats && s'.info == s.info
    requires s'.cleanups == s.cleanups && s'.cleans == s.cleans && s'.keys == s.keys && s'.tables == s.tables
    requires s'.locked == s.locked && s'.updating == s.updating
    ensures Fence(s')
  {
    forall q | q in s'.regs
      ensures RegOk(s', s'.regs[q])
    {
      if q != r {
        assert RegOk(s, s.regs[q]);
      }
    }
    forall d | d in s'.connections
      ensures Connected(s', d)
    {
      assert Connected(s, d);
    }
  }

  lemma RegisterKeepsInv(s: State, ws: Socket, d: DaemonId)
    requires Inv(s)
    ensures Inv(QueueRegistration(s, ws, d))
  {
    hide Fence, Serial, TailIsLatest;
    var s' := QueueRegistration(s, ws, d);
    QueueingKeepsTail(s.regs, s.regTail, s.next, ws, d);
    QueueingKeepsSerial(s.regs, s.regTail, s.next, ws, d);
    assert s'.regs == Enqueued(s.regs, s.regTail, s.next, ws, d);
    IdleRegKeepsFence(s, s', s.next, s'.regs[s.next]);
  }

  lemma EndRegisterKeepsInv(s: State, r: RegId)
    requires Inv(s) && Enabled(s, EndRegister(r))
    ensures Inv(FinishRegistration(s, r))
  {
    hide Fence, Serial, TailIsLatest;
    var s' := FinishRegistration(s, r);
    FinishKeepsQueue(s.regs, s.regTail, s.next, r);
    IdleRegKeepsFence(s, s', r, s'.regs[r]);
  }

  // The reaper

  /** Locking a row whose Valkey key is gone: nobody relies on that daemon. */
  lemma LockKeepsInv(s: State, s': State, d: DaemonId)
    requires Inv(s) && s.locked.None? && d !in s.keys && s' == s.(locked := Some(d), down := s'.down)
    ensures Inv(s')
  {
    assert d in s.connections ==> Connected(s, d);
    forall q | q in s'.regs
      ensures RegOk(s', s'.regs[q])
    {
      assert RegOk(s, s.regs[q]);
    }
    forall d' | d' in s'.connections
      ensures Connected(s', d')
    {
      assert Connected(s, d');
    }
  }

  /** Committing under the lock: the daemon is still neither connected nor registered. */
  lemma UnlockKeepsInv(s: State, s': State, d: DaemonId)
    requires Inv(s) && s.locked == Some(d) && s' == s.(locked := None, tables := s'.tables)
    requires forall d' :: d' != d && s.tables.RowActive(d') ==> s'.tables.RowActive(d')
    ensures Inv(s')
  {
    assert d in s.connections ==> Connected(s, d);
    forall q | q in s'.regs
      ensures RegOk(s', s'.regs[q])
    {
      assert RegOk(s, s.regs[q]);
    }
    forall d' | d' in s'.connections
      ensures Connected(s', d')
    {
      assert Connected(s, d');
    }
  }

  // ---------------------------------------------------------------------
  // Every step keeps the invariant

  /** The events that leave the fenced parts as they are. */
  predicate Quiet(e: Event) {
    e.Drop? || e.Ack? || e.UpdateTimer? || e.Drain? || e.Refresh? || e.ReapAbort? || e.Tick?
  }

  lemma DispatchKeepsInv(s: State, op: Ownership.Op)
    requires Inv(s) && Enabled(s, Dispatch(op))
    ensures Inv(s.(tables := Ownership.Apply(s.tables, op, s.clock)))
  {
    hide Inv;
    OnlyOutdatedUpdate(s);
    assert Ownership.Apply(s.tables, op, s.clock).daemons == s.tables.daemons;
    SameInv(s, s.(tables := Ownership.Apply(s.tables, op, s.clock)));
  }

  lemma OnlyOutdatedUpdate(s: State)
    requires Inv(s)
    ensures forall ws :: ws in s.updating ==> ws.protocol.Outdated?
  {
  }

  /** Sockets going down, daemons draining and time passing. */
  lemma UnwatchedKeepsInv(s: State, s': State)
    requires Inv(s)
    requires s' == s.(updating := s'.updating, down := s'.down, draining := s'.draining, keys := s'.keys,
                      locked := s'.locked, clock := s'.clock)
    requires s.keys <= s'.keys && (s'.locked == s.locked || s'.locked.None?)
    requires forall ws :: ws in s'.updating ==> ws in s.updating
    ensures Inv(s')
  {
    OnlyOutdatedUpdate(s);
    hide Inv;
    SameInv(s, s');
  }

  lemma QuietShape(s: State, e: Event)
    requires Enabled(s, e) && Quiet(e)
    ensures var s' := Next(s, e);
            && s' == s.(updating := s'.updating, down := s'.down, draining := s'.draining, keys := s'.keys,
                        locked := s'.locked, clock := s'.clock)
            && s.keys <= s'.keys && (s'.locked == s.locked || s'.locked.None?)
            && forall ws :: ws in s'.updating ==> ws in s.updating
  {
    hide WsClose, Resume, QueueRegistration, FinishRegistration, CleanupStep, FinishCleanup, FailOwnership;
    match e
    case Drop(_) =>
    case Ack(_) =>
    case UpdateTimer(_) =>
    case Drain(_) =>
    case Refresh(_) =>
    case ReapAbort =>
    case Tick =>
  }

  lemma QuietKeepsInv(s: State, e: Event)
    requires Inv(s) && Enabled(s, e) && Quiet(e)
    ensures Inv(Next(s, e))
  {
    hide Inv, Next, Enabled;
    QuietShape(s, e);
    UnwatchedKeepsInv(s, Next(s, e));
  }

  lemma ClosingKeepsInv(s: State, ws: Socket)
    requires Inv(s)
    ensures Inv(WsClose(s.(down := s.down + {ws}), ws))
    ensures var s' := WsClose(s, ws); Inv(s'.(down := s'.down + {ws}))
  {
    hide Inv, WsClose;
    OnlyOutdatedUpdate(s);
    SameInv(s, s.(down := s.down + {ws}));
    CloseKeepsInv(s.(down := s.down + {ws}), ws);
    CloseKeepsInv(s, ws);
    var s' := WsClose(s, ws);
    OnlyOutdatedUpdate(s');
    SameInv(s', s'.(down := s'.down + {ws}));
  }

  lemma NextKeepsInv(s: State, e: Event)
    requires Inv(s) && Enabled(s, e)
    ensures Inv(Next(s, e))
  {
    hide Inv, WsClose, Resume, QueueRegistration, FinishRegistration, CleanupStep, FinishCleanup, FailOwnership;
    match e
    case Register(ws, d) => RegisterKeepsInv(s, ws, d);
    case Continue(r, o, x) => ContinueKeepsInv(s, r, o, x);
    case EndRegister(r) => EndRegisterKeepsInv(s, r);
    case Clean(c, o) => CleanKeepsInv(s, c, o);
    case EndClean(c) => EndCleanKeepsInv(s, c);
    case Closed(ws) => ClosingKeepsInv(s, ws);
    case ShutDown(d) => ClosingKeepsInv(s, s.connections[d]);
    case ReapLock(d) => LockKeepsInv(s, Next(s, e), d);
    case ReapCommit =>
      FailOwnershipRows(s.tables, s.locked.value, REAPED, s.clock);
      UnlockKeepsInv(s, Next(s, e), s.locked.value);
    case Dispatch(op) => DispatchKeepsInv(s, op);
    case _ => QuietKeepsInv(s, e);
  }

  lemma {:induction false} RunKeepsInv(s: State, es: seq<Event>)
    requires Inv(s) && IsRun(s, es)
    ensures Inv(After(s, es))
    decreases |es|
  {
    if es != [] {
      NextKeepsInv(s, es[0]);
      RunKeepsInv(Next(s, es[0]), es[1..]);
    }
  }
}
