/**
 src/orchestrator/daemon-registry.ts in its own form: the Valkey keys of each
 daemon, the `active_daemons` index, and the daemons table. Keys may expire at any
 time between two operations; the index does not.
 */
module DaemonRegistry {
  import opened Basics
  import opened Ledger
  import History
  import SpawnCooldown

  /** The JSON under `daemon:{id}`, if it can be read as capabilities. */
  datatype Capabilities = Readable(ephemeral: bool, maxConcurrentJobs: int) | Unreadable

  datatype State = State(
    live: map<DaemonId, Capabilities>,   // daemon:{id}
    activeJobs: map<DaemonId, int>,      // daemon:{id}:active_jobs
    index: set<DaemonId>,                // active_daemons
    rows: map<DaemonId, DaemonRow>)

  datatype Op =
    | Register(d: DaemonId, capabilities: Capabilities)
    | Deregister(d: DaemonId)
    | Refresh(d: DaemonId, capabilities: Capabilities)
    | Increment(d: DaemonId)
    | Decrement(d: DaemonId)
    | ExpireLive(d: DaemonId)
    | ExpireCounter(d: DaemonId)

  function Apply(s: State, op: Op, now: int): State {
    match op
    case Register(d, capabilities) =>
      State(s.live[d := capabilities], s.activeJobs[d := 0], s.index + {d}, s.rows[d := DaemonRow(true, now)])
    case Deregister(d) =>
      State(s.live - {d}, s.activeJobs - {d}, s.index - {d},
            if d in s.rows then s.rows[d := DaemonRow(false, now)] else s.rows)
    case Refresh(d, capabilities) =>
      s.(live := s.live[d := capabilities],
         rows := if d in s.rows then s.rows[d := s.rows[d].(lastSeenAt := now)] else s.rows)
    case Increment(d) => s.(activeJobs := s.activeJobs[d := JobsOf(s, d) + 1])
    case Decrement(d) => s.(activeJobs := History.DecrIfPositive(s.activeJobs, d))
    case ExpireLive(d) => s.(live := s.live - {d})
    case ExpireCounter(d) => s.(activeJobs := s.activeJobs - {d})
  }

  /** GET on a missing counter reads as zero. */
  function JobsOf(s: State, d: DaemonId): int {
    if d in s.activeJobs then s.activeJobs[d] else 0
  }

  function Replay(s: State, ops: seq<(Op, int)>): State {
    if ops == [] then s else Apply(Replay(s, ops[..|ops| - 1]), ops[|ops| - 1].0, ops[|ops| - 1].1)
  }

  /** No history of operations and expiries takes a counter below zero. */
  lemma {:induction false} CountersStayNatural(s: State, ops: seq<(Op, int)>, d: DaemonId)
    requires forall x | x in s.activeJobs :: s.activeJobs[x] >= 0
    ensures forall x | x in Replay(s, ops).activeJobs :: Replay(s, ops).activeJobs[x] >= 0
    ensures JobsOf(Replay(s, ops), d) >= 0
  {
    if ops != [] {
      CountersStayNatural(s, ops[..|ops| - 1], d);
    }
  }

  /** Deregistering undoes registering but for the row, which stays, inactive; a
      registration starts afresh whatever was left of an earlier one. */
  lemma RegisterThenDeregister(s: State, d: DaemonId, c: Capabilities, before: int, now: int)
    ensures var t := Apply(Apply(s, Register(d, c), before), Deregister(d), now);
            && t.live == s.live - {d} && t.activeJobs == s.activeJobs - {d} && t.index == s.index - {d}
            && t.rows == s.rows[d := DaemonRow(false, now)]
    ensures Apply(Apply(s, Deregister(d), before), Register(d, c), now) == Apply(s, Register(d, c), now)
  {
    var t := Apply(s, Deregister(d), before);
    assert t.live[d := c] == s.live[d := c] && t.activeJobs[d := 0] == s.activeJobs[d := 0];
    assert t.index + {d} == s.index + {d};
  }

  // ---------------------------------------------------------------------
  // Free slots of the persistent pool

  function Slots(s: State, d: DaemonId): nat {
    if d in s.live && s.live[d].Readable? && !s.live[d].ephemeral && s.live[d].maxConcurrentJobs - JobsOf(s, d) > 0
    then s.live[d].maxConcurrentJobs - JobsOf(s, d) else 0
  }

  function TotalSlots(s: State, ids: seq<DaemonId>): nat {
    if ids == [] then 0 else TotalSlots(s, ids[..|ids| - 1]) + Slots(s, ids[|ids| - 1])
  }

  /** A persistent daemon that is indexed, alive and not full. */
  predicate HasRoom(s: State, d: DaemonId) {
    && d in s.index && d in s.live && s.live[d].Readable? && !s.live[d].ephemeral
    && JobsOf(s, d) < s.live[d].maxConcurrentJobs
  }

  lemma {:induction false} NoSlotsMeansFull(s: State, ids: seq<DaemonId>)
    ensures TotalSlots(s, ids) == 0 <==> forall d | d in ids :: Slots(s, d) == 0
  {
    if ids != [] {
      var init := ids[..|ids| - 1];
      assert ids == init + [ids[|ids| - 1]];
      NoSlotsMeansFull(s, init);
    }
  }

  /** One more job on a daemon with room takes one slot, wherever it is counted. */
  lemma {:induction false} JobTakesASlot(s: State, ids: seq<DaemonId>, d: DaemonId)
    requires d in s.index && HasRoom(s, d)
    ensures TotalSlots(Apply(s, Increment(d), 0), ids) == TotalSlots(s, ids) - multiset(ids)[d]
  {
    if ids != [] {
      var init := ids[..|ids| - 1];
      assert ids == init + [ids[|ids| - 1]];
      JobTakesASlot(s, init, d);
    }
  }

  /** Without a heavy request a spawn is signalled exactly when the queue is long
      enough and no persistent daemon has room. */
  lemma OverflowMeansSaturated(s: State, ids: seq<DaemonId>, config: SpawnCooldown.Config, queueLength: int)
    requires forall d :: d in ids <==> d in s.index && d in s.live
    ensures SpawnCooldown.HasSignal(config, SpawnCooldown.Signals(false, queueLength, TotalSlots(s, ids))) <==>
              queueLength >= config.queueThreshold && forall d | d in s.index :: !HasRoom(s, d)
  {
    NoSlotsMeansFull(s, ids);
    assert forall d | d in s.index :: HasRoom(s, d) <==> d in ids && Slots(s, d) != 0;
    assert forall d | d in ids :: Slots(s, d) == 0 <==> !HasRoom(s, d);
  }

  class Registry {
    var live: map<DaemonId, Capabilities>
    var activeJobs: map<DaemonId, int>
    var index: set<DaemonId>
    var rows: map<DaemonId, DaemonRow>

    function View(): State
      reads this
    {
      State(live, activeJobs, index, rows)
    }

    constructor ()
      ensures View() == State(map[], map[], {}, map[])
    {
      live, activeJobs, index, rows := map[], map[], {}, map[];
    }

    method RegisterDaemon(d: DaemonId, capabilities: Capabilities, now: int)
      modifies this
      ensures View() == Apply(old(View()), Register(d, capabilities), now)
    {
      live := live[d := capabilities];
      activeJobs := activeJobs[d := 0];
      index := index + {d};
      rows := rows[d := DaemonRow(true, now)];
    }

    method DeregisterDaemon(d: DaemonId, now: int)
      modifies this
      ensures View() == Apply(old(View()), Deregister(d), now)
    {
      live := live - {d};
      activeJobs := activeJobs - {d};
      index := index - {d};
      if d in rows {
        rows := rows[d := DaemonRow(false, now)];
      }
    }

    method RefreshDaemonTtl(d: DaemonId, capabilities: Capabilities, now: int)
      modifies this
      ensures View() == Apply(old(View()), Refresh(d, capabilities), now)
    {
      live := live[d := capabilities];
      if d in rows {
        rows := rows[d := rows[d].(lastSeenAt := now)];
      }
    }

    method IncrementDaemonActiveJobs(d: DaemonId)
      modifies this
      ensures View() == Apply(old(View()), Increment(d), 0)
    {
      activeJobs := activeJobs[d := if d in activeJobs then activeJobs[d] + 1 else 1];
    }

    method DecrementDaemonActiveJobs(d: DaemonId)
      modifies this
      ensures View() == Apply(old(View()), Decrement(d), 0)
    {
      if d in activeJobs && activeJobs[d] > 0 {
        activeJobs := activeJobs[d := activeJobs[d] - 1];
      }
    }

    /** The loop of getPersistentPoolFreeSlots, once the daemons are known. */
    method SumFreeSlots(ids: seq<DaemonId>) returns (free: nat)
      ensures free == TotalSlots(View(), ids)
    {
      free := 0;
      for i := 0 to |ids|
        invariant free == TotalSlots(View(), ids[..i])
      {
        var d := ids[i];
        assert ids[..i + 1][..i] == ids[..i];
        if d !in live || live[d].Unreadable? || live[d].ephemeral {
          continue;
        }
        var active := if d in activeJobs then activeJobs[d] else 0;
        var slots := live[d].maxConcurrentJobs - active;
        if slots > 0 {
          free := free + slots;
        }
      }
      assert ids[..|ids|] == ids;
    }
  }
}
