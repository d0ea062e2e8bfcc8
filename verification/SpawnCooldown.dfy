/**
 src/orchestrator/ephemeral-daemon-scaler.ts, as src/webhook/router.ts drives it:
 a spawn is decided and its cooldown slot reserved in one synchronous stretch;
 the Kubernetes call settles at some later time, and a failure gives the slot back.
 */
module SpawnCooldown {
  import opened Basics

  datatype Trigger = TriageHeavy | QueueOverflow

  datatype Verdict = Spawn(trigger: Trigger) | NoSignal | Cooldown

  datatype Config = Config(queueThreshold: int, cooldownMs: nat)

  datatype Signals = Signals(heavy: bool, queueLength: int, persistentFreeSlots: int)

  predicate HasSignal(config: Config, input: Signals) {
    input.heavy || (input.queueLength >= config.queueThreshold && input.persistentFreeSlots <= 0)
  }

  function Decide(config: Config, last: int, input: Signals, now: int): Verdict {
    if !HasSignal(config, input) then NoSignal
    else if now - last < config.cooldownMs then Cooldown
    else Spawn(if input.heavy then TriageHeavy else QueueOverflow)
  }

  function RolledBack(last: int, expected: int): int {
    if last == expected then 0 else last
  }

  class EphemeralScaler {
    const config: Config
    var lastSpawnAtMs: int

    constructor (config: Config)
      ensures this.config == config && lastSpawnAtMs == 0
    {
      this.config := config;
      lastSpawnAtMs := 0;
    }

    method DecideEphemeralSpawn(input: Signals, now: int) returns (verdict: Verdict)
      ensures verdict == Decide(config, lastSpawnAtMs, input, now)
    {
      var overflow := input.queueLength >= config.queueThreshold && input.persistentFreeSlots <= 0;
      if !(input.heavy || overflow) {
        return NoSignal;
      }
      if now - lastSpawnAtMs < config.cooldownMs {
        return Cooldown;
      }
      return Spawn(if input.heavy then TriageHeavy else QueueOverflow);
    }

    method MarkSpawn(now: int)
      modifies this
      ensures lastSpawnAtMs == now
    {
      lastSpawnAtMs := now;
    }

    method RollbackSpawn(expectedTimestampMs: int)
      modifies this
      ensures lastSpawnAtMs == RolledBack(old(lastSpawnAtMs), expectedTimestampMs)
    {
      if lastSpawnAtMs == expectedTimestampMs {
        lastSpawnAtMs := 0;
      }
    }

    /** The router's stretch: the clock is read once to decide and once to mark. */
    method Reserve(input: Signals, configured: bool, decideAt: int, markAt: int) returns (reserved: bool)
      modifies this
      ensures reserved <==> configured && Decide(config, old(lastSpawnAtMs), input, decideAt).Spawn?
      ensures lastSpawnAtMs == if reserved then markAt else old(lastSpawnAtMs)
    {
      var verdict := DecideEphemeralSpawn(input, decideAt);
      if !verdict.Spawn? || !configured {
        return false;
      }
      MarkSpawn(markAt);
      return true;
    }
  }

  // ---------------------------------------------------------------------
  // Whole runs, with every reservation ever made

  datatype Reservation = Reservation(at: int, rolledBack: bool)

  datatype State = State(clock: int, last: int, reservations: seq<Reservation>)

  datatype Event =
    | Webhook(input: Signals, configured: bool, decideAt: int, markAt: int)
    | SpawnFailed(i: nat)   // the Kubernetes call of reservation i is rejected

  predicate Enabled(s: State, e: Event) {
    match e
    case Webhook(_, _, decideAt, markAt) => s.clock <= decideAt <= markAt
    case SpawnFailed(i) => i < |s.reservations| && !s.reservations[i].rolledBack
  }

  function Next(config: Config, s: State, e: Event): State
    requires Enabled(s, e)
  {
    match e
    case Webhook(input, configured, decideAt, markAt) =>
      if configured && Decide(config, s.last, input, decideAt).Spawn? then
        State(markAt, markAt, s.reservations + [Reservation(markAt, false)])
      else s.(clock := markAt)
    case SpawnFailed(i) =>
      s.(last := RolledBack(s.last, s.reservations[i].at),
         reservations := s.reservations[i := s.reservations[i].(rolledBack := true)])
  }

  /** The state after the events in order, from a fresh process whose clock reads
      `start`; `None` when some event could not happen. */
  function Run(config: Config, start: int, events: seq<Event>): Option<State> {
    if events == [] then Some(State(start, 0, []))
    else
      match Run(config, start, events[..|events| - 1])
      case None => None
      case Some(s) =>
        var e := events[|events| - 1];
        if Enabled(s, e) then Some(Next(config, s, e)) else None
  }

  /** Any two reservations of which the earlier still stands. */
  predicate Apart(config: Config, rs: seq<Reservation>) {
    forall i, j | 0 <= i < j < |rs| :: rs[i].rolledBack || rs[j].at - rs[i].at >= config.cooldownMs
  }

  predicate Ordered(s: State) {
    && (forall i, j | 0 <= i <= j < |s.reservations| :: s.reservations[i].at <= s.reservations[j].at)
    && (forall i | 0 <= i < |s.reservations| :: 0 < s.reservations[i].at <= s.clock)
    && s.last <= s.clock
  }

  /** Only the newest reservation can hold the cooldown, and it does unless it
      was rolled back. Without a cooldown a rollback may also clear the timestamp
      of a namesake. */
  predicate Held(config: Config, s: State) {
    var n := |s.reservations|;
    && (s.last != 0 ==> n > 0 && s.reservations[n - 1] == Reservation(s.last, false))
    && (s.last == 0 && n > 0 && config.cooldownMs > 0 ==> s.reservations[n - 1].rolledBack)
  }

  predicate Inv(config: Config, s: State) {
    s.clock > 0 && Ordered(s) && Apart(config, s.reservations) && Held(config, s)
  }

  lemma WebhookKeepsInv(config: Config, s: State, e: Event)
    requires Inv(config, s) && e.Webhook? && Enabled(s, e)
    ensures Inv(config, Next(config, s, e))
  {
    var t := Next(config, s, e);
    var n := |s.reservations|;
    if n > 0 && |t.reservations| > n {
      forall i | 0 <= i < n ensures s.reservations[i].rolledBack || e.markAt - s.reservations[i].at >= config.cooldownMs {
        assert i < n - 1 ==> s.reservations[i].rolledBack || s.reservations[n - 1].at - s.reservations[i].at >= config.cooldownMs;
      }
    }
  }

  /** A late rollback finds its own timestamp only when it is the newest. */
  lemma RollbackKeepsInv(config: Config, s: State, e: Event)
    requires Inv(config, s) && e.SpawnFailed? && Enabled(s, e)
    ensures Inv(config, Next(config, s, e))
  {
    var n := |s.reservations|;
    var rs := Next(config, s, e).reservations;
    assert forall k | 0 <= k < n :: rs[k].at == s.reservations[k].at && (s.reservations[k].rolledBack ==> rs[k].rolledBack);
    if s.last != 0 && s.last == s.reservations[e.i].at && config.cooldownMs > 0 {
      assert s.reservations[n - 1].at == s.last;
    }
  }

  lemma {:induction false} RunKeepsInv(config: Config, start: int, events: seq<Event>)
    requires start > 0 && Run(config, start, events).Some?
    ensures Inv(config, Run(config, start, events).value)
  {
    if events != [] {
      var before := events[..|events| - 1];
      RunKeepsInv(config, start, before);
      var s, e := Run(config, start, before).value, events[|events| - 1];
      if e.Webhook? {
        WebhookKeepsInv(config, s, e);
      } else {
        RollbackKeepsInv(config, s, e);
      }
    }
  }

  /** Over every run, reservations that were not rolled back are a cooldown apart,
      whatever order the rollbacks arrive in. */
  lemma SpawnsAreApart(config: Config, start: int, events: seq<Event>, i: nat, j: nat)
    requires start > 0 && Run(config, start, events).Some?
    requires i < j < |Run(config, start, events).value.reservations|
    ensures var rs := Run(config, start, events).value.reservations;
            !rs[i].rolledBack ==> rs[j].at - rs[i].at >= config.cooldownMs
  {
    RunKeepsInv(config, start, events);
  }

  /** A reservation that still stands is younger than the cooldown. */
  ghost predicate CoolingDown(config: Config, s: State, now: int) {
    exists k: nat :: k < |s.reservations| && !s.reservations[k].rolledBack
                     && now - s.reservations[k].at < config.cooldownMs
  }

  /** With a clock already past the cooldown, a signal is turned away exactly while
      a standing reservation is younger than the cooldown, and spawns otherwise, for
      the heavy request if there is one; a failed spawn leaves nothing behind. */
  lemma CooldownIsExact(config: Config, start: int, events: seq<Event>, input: Signals, now: int)
    requires start > 0 && start >= config.cooldownMs && Run(config, start, events).Some?
    requires now >= Run(config, start, events).value.clock
    ensures var s := Run(config, start, events).value;
            var verdict := Decide(config, s.last, input, now);
            && (verdict.NoSignal? <==> !HasSignal(config, input))
            && (verdict.Cooldown? <==> HasSignal(config, input) && CoolingDown(config, s, now))
            && (verdict == Spawn(TriageHeavy) <==> input.heavy && !CoolingDown(config, s, now))
  {
    RunKeepsInv(config, start, events);
    ClockMovesOn(config, start, events);
    var s := Run(config, start, events).value;
    var n := |s.reservations|;
    if s.last != 0 {
      assert !s.reservations[n - 1].rolledBack && s.reservations[n - 1].at == s.last;
    }
  }

  lemma {:induction false} ClockMovesOn(config: Config, start: int, events: seq<Event>)
    requires Run(config, start, events).Some?
    ensures Run(config, start, events).value.clock >= start
  {
    if events != [] {
      ClockMovesOn(config, start, events[..|events| - 1]);
    }
  }

  /** A clock that has not reached the cooldown is turned away with no reservation
      at all: the fresh timestamp zero counts as a spawn at time zero. */
  lemma YoungClockIsRefused(config: Config, input: Signals, now: int)
    requires HasSignal(config, input)
    ensures Decide(config, 0, input, now).Cooldown? <==> now < config.cooldownMs
  {
  }
}
