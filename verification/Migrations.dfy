/**
 src/db/migrate.ts: replicas that start together and bring one database up to the
 same list of migrations. Each works over one reserved session, which Postgres may
 end at any time; ending it frees its advisory lock and rolls back its
 transaction. What the replica then sends on it is refused.
 */
module Migrations {
  import opened Basics

  type Replica = nat
  type Version = string

  datatype Phase =
    | Idle                                  // before pg_advisory_lock
    | Waiting                               // blocked in pg_advisory_lock
    | Selecting                             // locked = true
    | Applying(applied: set<Version>, i: nat)
    | Unlocking(failed: bool)               // in the finally block
    | Exited(failed: bool)

  datatype Local = Local(phase: Phase, session: bool)  // session: not ended by the server

  datatype Database = Database(committed: seq<Version>, holder: Option<Replica>)

  datatype State = State(db: Database, replicas: map<Replica, Local>)

  /** How one statement, or one migration's transaction, ends. */
  datatype Answer =
    | Fine
    | Rejected          // the statement throws, the transaction rolls back
    | CommittedUnheard  // the transaction commits, its answer is lost with the session

  datatype Event =
    | Request(r: Replica)
    | Acquire(r: Replica)
    | Select(r: Replica, answer: Answer)
    | Advance(r: Replica, answer: Answer)   // one turn of the loop, or its end
    | Unlock(r: Replica)
    | SessionEnds(r: Replica)

  predicate Distinct(files: seq<Version>) {
    forall i, j | 0 <= i < j < |files| :: files[i] != files[j]
  }

  function Goes(s: State, r: Replica, phase: Phase): State
    requires r in s.replicas
  {
    s.(replicas := s.replicas[r := s.replicas[r].(phase := phase)])
  }

  function Freed(db: Database, r: Replica): Database {
    if db.holder == Some(r) then db.(holder := None) else db
  }

  /** Ending the session, whatever the replica knows of it. */
  function EndSession(s: State, r: Replica): State
    requires r in s.replicas
  {
    State(Freed(s.db, r), s.replicas[r := s.replicas[r].(session := false)])
  }

  predicate Enabled(s: State, e: Event) {
    e.r in s.replicas &&
    match e
    case Request(r) => s.replicas[r].phase.Idle?
    case Acquire(r) => s.replicas[r].phase.Waiting? && (s.replicas[r].session ==> s.db.holder.None?)
    case Select(r, answer) => s.replicas[r].phase.Selecting? && !answer.CommittedUnheard?
    case Advance(r, _) => s.replicas[r].phase.Applying?
    case Unlock(r) => s.replicas[r].phase.Unlocking?
    case SessionEnds(r) => s.replicas[r].session
  }

  function Next(files: seq<Version>, s: State, e: Event): State
    requires Enabled(s, e)
  {
    var l := s.replicas[e.r];
    match e
    case Request(r) => Goes(s, r, Waiting)
    case Acquire(r) =>
      // `locked` stays false when the statement throws
      if l.session then Goes(s.(db := s.db.(holder := Some(r))), r, Selecting)
      else Goes(s, r, Exited(true))
    case Select(r, answer) =>
      if l.session && answer.Fine? then Goes(s, r, Applying(set v | v in s.db.committed, 0))
      else Goes(s, r, Unlocking(true))
    case Advance(r, answer) => NextMigration(files, s, r, answer)
    case Unlock(r) => Goes(s.(db := if l.session then Freed(s.db, r) else s.db), r, Exited(l.phase.failed || !l.session))
    case SessionEnds(r) => EndSession(s, r)
  }

  function NextMigration(files: seq<Version>, s: State, r: Replica, answer: Answer): State
    requires r in s.replicas && s.replicas[r].phase.Applying?
  {
    var l := s.replicas[r];
    var i, applied := l.phase.i, l.phase.applied;
    if i >= |files| then Goes(s, r, Unlocking(false))
    else if files[i] in applied then Goes(s, r, Applying(applied, i + 1))
    // version is the primary key of the table
    else if !l.session || answer.Rejected? || files[i] in s.db.committed then Goes(s, r, Unlocking(true))
    else
      var t := s.(db := s.db.(committed := s.db.committed + [files[i]]));
      if answer.Fine? then Goes(t, r, Applying(applied, i + 1))
      else Goes(EndSession(t, r), r, Unlocking(true))
  }

  // ---------------------------------------------------------------------
  // Runs

  predicate Initial(files: seq<Version>, s: State) {
    && Distinct(files)
    && s.db.committed <= files
    && s.db.holder.None?
    && forall r | r in s.replicas :: s.replicas[r] == Local(Idle, true)
  }

  function Run(files: seq<Version>, start: State, events: seq<Event>): Option<State> {
    if events == [] then Some(start)
    else
      match Run(files, start, events[..|events| - 1])
      case None => None
      case Some(s) =>
        var e := events[|events| - 1];
        if Enabled(s, e) then Some(Next(files, s, e)) else None
  }

  /** Between lock and unlock. */
  predicate Critical(p: Phase) {
    p.Selecting? || p.Applying? || p.Unlocking?
  }

  predicate LockInv(s: State) {
    && (s.db.holder.Some? ==> s.db.holder.value in s.replicas)
    && forall r | r in s.replicas ::
         s.db.holder == Some(r) <==> Critical(s.replicas[r].phase) && s.replicas[r].session
  }

  /** The `k` versions it read are the first ones, and the loop is not ahead of the
      database. While the session stands, nobody else has moved the database on. */
  predicate AtPosition(committed: seq<Version>, l: Local, k: nat)
    requires l.phase.Applying?
  {
    && k <= |committed| && l.phase.applied == AsSet(committed[..k])
    && l.phase.i <= |committed|
    && (l.session ==> |committed| == Max(k, l.phase.i))
  }

  ghost predicate Position(committed: seq<Version>, l: Local) {
    l.phase.Applying? ==> exists k: nat :: AtPosition(committed, l, k)
  }

  function Max(a: nat, b: nat): nat {
    if a < b then b else a
  }

  function AsSet(vs: seq<Version>): set<Version> {
    set v | v in vs
  }

  predicate Finished(files: seq<Version>, committed: seq<Version>, l: Local) {
    l.phase in {Unlocking(false), Exited(false)} ==> committed == files
  }

  ghost predicate Inv(files: seq<Version>, s: State) {
    && Distinct(files)
    && s.db.committed <= files
    && LockInv(s)
    && (forall r | r in s.replicas :: Position(s.db.committed, s.replicas[r]))
    && (forall r | r in s.replicas :: Finished(files, s.db.committed, s.replicas[r]))
  }

  /** In a prefix of distinct files the file at `i` is present exactly when the
      prefix is longer. */
  lemma InPrefix(files: seq<Version>, n: nat, i: nat)
    requires Distinct(files) && n <= |files| && i < |files|
    ensures files[i] in files[..n] <==> i < n
  {
    if i < n {
      assert files[..n][i] == files[i];
    }
  }

  /** Growing the database disturbs nobody whose session is gone. */
  lemma PositionSurvives(committed: seq<Version>, more: seq<Version>, l: Local)
    requires committed <= more && Position(committed, l)
    requires committed == more || !l.session
    ensures Position(more, l)
  {
    if l.phase.Applying? {
      var k: nat :| AtPosition(committed, l, k);
      assert committed[..k] == more[..k];
      assert AtPosition(more, l, k);
    }
  }

  /** Steps that leave the table alone. */
  lemma QuietStep(files: seq<Version>, s: State, s': State, r: Replica)
    requires Inv(files, s) && r in s.replicas
    requires s'.db.committed == s.db.committed
    requires r in s'.replicas && s'.replicas == s.replicas[r := s'.replicas[r]]
    requires s'.db.holder.Some? ==> s'.db.holder.value in s'.replicas
    requires s'.db.holder == Some(r) <==> Critical(s'.replicas[r].phase) && s'.replicas[r].session
    requires forall q: Replica | q != r :: s'.db.holder == Some(q) <==> s.db.holder == Some(q)
    requires Position(s.db.committed, s'.replicas[r]) && Finished(files, s.db.committed, s'.replicas[r])
    ensures Inv(files, s')
  {
    hide Position, Finished;
    forall q | q in s'.replicas && q != r ensures s'.replicas[q] == s.replicas[q] {
    }
  }

  /** One turn of the loop. */
  lemma AdvanceKeepsInv(files: seq<Version>, s: State, r: Replica, answer: Answer)
    requires Inv(files, s) && Enabled(s, Advance(r, answer))
    ensures Inv(files, NextMigration(files, s, r, answer))
  {
    var l, committed := s.replicas[r], s.db.committed;
    var s' := NextMigration(files, s, r, answer);
    assert Position(committed, l);
    var k: nat :| AtPosition(committed, l, k);
    var i := l.phase.i;
    if i >= |files| {
      assert committed == files;
      QuietStep(files, s, s', r);
    } else {
      PresenceOf(files, committed, i);
      PresenceOf(files, committed[..k], i);
      if files[i] in l.phase.applied {
        assert AtPosition(committed, s'.replicas[r], k);
        QuietStep(files, s, s', r);
      } else if s'.db.committed == committed {
        QuietStep(files, s, s', r);
      } else {
        assert i == |committed| && l.session;
        CommitStep(files, s, s', r, k);
      }
    }
  }

  lemma PresenceOf(files: seq<Version>, vs: seq<Version>, i: nat)
    requires Distinct(files) && vs <= files && i < |files|
    ensures files[i] in vs <==> i < |vs|
  {
    assert vs == files[..|vs|];
    InPrefix(files, |vs|, i);
  }

  /** The turn that commits: the version at the end of the prefix. */
  lemma CommitStep(files: seq<Version>, s: State, s': State, r: Replica, k: nat)
    requires Inv(files, s) && r in s.replicas && s.replicas[r].session && s.replicas[r].phase.Applying?
    requires AtPosition(s.db.committed, s.replicas[r], k)
    requires s.replicas[r].phase.i == |s.db.committed| < |files|
    requires s'.db.committed == s.db.committed + [files[|s.db.committed|]]
    requires r in s'.replicas && s'.replicas == s.replicas[r := s'.replicas[r]]
    requires (s'.replicas[r] == Local(Applying(s.replicas[r].phase.applied, s.replicas[r].phase.i + 1), true)
              && s'.db.holder == s.db.holder)
          || (s'.replicas[r] == Local(Unlocking(true), false) && s'.db.holder == Freed(s.db, r).holder)
    ensures Inv(files, s')
  {
    var committed, more := s.db.committed, s'.db.committed;
    assert more <= files;
    assert s.db.holder == Some(r);
    forall q | q in s'.replicas
      ensures Position(more, s'.replicas[q]) && Finished(files, more, s'.replicas[q])
      ensures s'.db.holder == Some(q) <==> Critical(s'.replicas[q].phase) && s'.replicas[q].session
    {
      if q == r {
        assert committed[..k] == more[..k];
        assert s'.replicas[r].phase.Applying? ==> AtPosition(more, s'.replicas[r], k);
      } else {
        assert Position(committed, s.replicas[q]) && Finished(files, committed, s.replicas[q]);
        if s.replicas[q].phase.Applying? {
          PositionSurvives(committed, more, s.replicas[q]);
        }
      }
    }
  }

  lemma SelectKeepsInv(files: seq<Version>, s: State, r: Replica, answer: Answer)
    requires Inv(files, s) && Enabled(s, Select(r, answer))
    ensures Inv(files, Next(files, s, Select(r, answer)))
  {
    var s' := Next(files, s, Select(r, answer));
    var committed := s.db.committed;
    if s'.replicas[r].phase.Applying? {
      assert committed[..|committed|] == committed;
      assert AtPosition(committed, s'.replicas[r], |committed|);
    }
    QuietStep(files, s, s', r);
  }

  lemma NextKeepsInv(files: seq<Version>, s: State, e: Event)
    requires Inv(files, s) && Enabled(s, e)
    ensures Inv(files, Next(files, s, e))
  {
    match e
    case Advance(r, answer) => AdvanceKeepsInv(files, s, r, answer);
    case Select(r, answer) => SelectKeepsInv(files, s, r, answer);
    case SessionEnds(r) =>
      var l, l' := s.replicas[r], Next(files, s, e).replicas[r];
      assert Position(s.db.committed, l) && Finished(files, s.db.committed, l);
      if l.phase.Applying? {
        var k: nat :| AtPosition(s.db.committed, l, k);
        assert AtPosition(s.db.committed, l', k);
      }
      QuietStep(files, s, Next(files, s, e), r);
    case _ =>
      assert Finished(files, s.db.committed, s.replicas[e.r]);
      QuietStep(files, s, Next(files, s, e), e.r);
  }

  lemma {:induction false} RunKeepsInv(files: seq<Version>, start: State, events: seq<Event>)
    requires Initial(files, start) && Run(files, start, events).Some?
    ensures Inv(files, Run(files, start, events).value)
  {
    if events != [] {
      RunKeepsInv(files, start, events[..|events| - 1]);
      NextKeepsInv(files, Run(files, start, events[..|events| - 1]).value, events[|events| - 1]);
    }
  }

  // ---------------------------------------------------------------------
  // What operators rely on

  /** The migrations whose transaction committed in a run, in order. */
  function Executed(files: seq<Version>, start: State, events: seq<Event>): (done: seq<Version>)
    requires Run(files, start, events).Some?
    ensures start.db.committed + done == Run(files, start, events).value.db.committed
  {
    if events == [] then []
    else
      var before := events[..|events| - 1];
      var s, s' := Run(files, start, before).value, Run(files, start, events).value;
      Executed(files, start, before) +
      if s'.db.committed == s.db.committed then []
      else [files[s.replicas[events[|events| - 1].r].phase.i]]
  }

  /** Under every interleaving, failure and lost session, what a run executed
      continues the starting prefix along the list: the database holds a prefix of
      the files, and each migration was executed once and in order. */
  lemma EachOnceInOrder(files: seq<Version>, start: State, events: seq<Event>)
    requires Initial(files, start) && Run(files, start, events).Some?
    ensures start.db.committed + Executed(files, start, events) == Run(files, start, events).value.db.committed
    ensures start.db.committed + Executed(files, start, events) <= files
    ensures Distinct(start.db.committed + Executed(files, start, events))
  {
    RunKeepsInv(files, start, events);
    hide Run, Executed;
    var committed := Run(files, start, events).value.db.committed;
    assert committed == files[..|committed|];
  }

  predicate Working(l: Local) {
    Critical(l.phase) && l.session
  }

  /** At most one replica works under the lock, every exit has given it up, and a
      replica that exits without an error leaves every migration applied. */
  lemma LockIsExclusiveAndReleased(files: seq<Version>, start: State, events: seq<Event>)
    requires Initial(files, start) && Run(files, start, events).Some?
    ensures var s := Run(files, start, events).value;
            && (forall a, b | a in s.replicas && b in s.replicas && Working(s.replicas[a]) && Working(s.replicas[b]) ::
                  a == b)
            && (forall r | r in s.replicas && s.replicas[r].phase.Exited? :: s.db.holder != Some(r))
            && (forall r | r in s.replicas && s.replicas[r].phase == Exited(false) :: s.db.committed == files)
  {
    RunKeepsInv(files, start, events);
    var s := Run(files, start, events).value;
    forall r | r in s.replicas ensures Finished(files, s.db.committed, s.replicas[r]) {
    }
  }

  /** Nothing goes wrong with what `r` asks of the database. */
  predicate Faultless(events: seq<Event>, r: Replica) {
    forall e | e in events && e.r == r :: !e.SessionEnds? && (e.Select? || e.Advance? ==> e.answer == Fine)
  }

  /** Its session stands and it is not on its way to an error. */
  predicate Well(s: State, r: Replica) {
    r in s.replicas && s.replicas[r].session && s.replicas[r].phase !in {Unlocking(true), Exited(true)}
  }

  lemma TurnStaysWell(files: seq<Version>, s: State, r: Replica)
    requires Inv(files, s) && Well(s, r) && s.replicas[r].phase.Applying?
    ensures Well(NextMigration(files, s, r, Fine), r)
  {
    var l, committed := s.replicas[r], s.db.committed;
    assert Position(committed, l);
    var k: nat :| AtPosition(committed, l, k);
    if l.phase.i < |files| {
      PresenceOf(files, committed, l.phase.i);
      PresenceOf(files, committed[..k], l.phase.i);
    }
  }

  lemma StepStaysWell(files: seq<Version>, s: State, e: Event, r: Replica)
    requires Inv(files, s) && Enabled(s, e) && Well(s, r)
    requires e.r == r ==> !e.SessionEnds? && (e.Select? || e.Advance? ==> e.answer == Fine)
    ensures Well(Next(files, s, e), r)
  {
    if e.Advance? && e.r == r {
      TurnStaysWell(files, s, r);
    } else {
      hide Inv;
    }
  }

  /** A replica fails only if something it asked failed or its session was ended:
      whatever the others do, and however their sessions end, it does not. */
  lemma {:induction false} NoFaultNoFailure(files: seq<Version>, start: State, events: seq<Event>, r: Replica)
    requires Initial(files, start) && Run(files, start, events).Some?
    requires r in start.replicas && Faultless(events, r)
    ensures Well(Run(files, start, events).value, r)
  {
    if events != [] {
      var before, e := events[..|events| - 1], events[|events| - 1];
      NoFaultNoFailure(files, start, before, r);
      RunKeepsInv(files, start, before);
      hide Inv, Next, Well;
      StepStaysWell(files, Run(files, start, before).value, e, r);
    }
  }

  /** What is left of a replica's run. */
  function Rank(files: seq<Version>, l: Local): nat {
    match l.phase
    case Idle => |files| + 5
    case Waiting => |files| + 4
    case Selecting => |files| + 3
    case Applying(_, i) => if i <= |files| then |files| - i + 2 else 2
    case Unlocking(_) => 1
    case Exited(_) => 0
  }

  lemma OwnStepsDescend(files: seq<Version>, s: State, e: Event)
    requires Enabled(s, e) && !e.SessionEnds?
    requires s.replicas[e.r].phase.Applying? ==> s.replicas[e.r].phase.i <= |files|
    ensures Rank(files, Next(files, s, e).replicas[e.r]) < Rank(files, s.replicas[e.r])
  {
  }

  /** The holder always has a step of its own to take, and each brings it nearer
      its exit, so the lock is handed on. */
  lemma HolderMovesOn(files: seq<Version>, start: State, events: seq<Event>, r: Replica, answer: Answer)
    requires Initial(files, start) && Run(files, start, events).Some?
    requires Run(files, start, events).value.db.holder == Some(r) && !answer.CommittedUnheard?
    ensures var s := Run(files, start, events).value;
            r in s.replicas && exists e: Event ::
              e.r == r && Enabled(s, e) && Rank(files, Next(files, s, e).replicas[r]) < Rank(files, s.replicas[r])
  {
    RunKeepsInv(files, start, events);
    hide Run, Next, Rank;
    var s := Run(files, start, events).value;
    var e := match s.replicas[r].phase
      case Selecting => Select(r, answer)
      case Applying(_, _) => Advance(r, answer)
      case _ => Unlock(r);
    if s.replicas[r].phase.Applying? {
      assert Position(s.db.committed, s.replicas[r]);
    }
    OwnStepsDescend(files, s, e);
  }

  // ---------------------------------------------------------------------
  // One replica under the lock

  /** How far the loop brings the database when the transactions end as in
      `answers`, one per file. */
  function Reach(answers: seq<Answer>, i: nat): (n: nat)
    requires i <= |answers|
    ensures i <= n <= |answers|
    decreases |answers| - i
  {
    if i == |answers| then i
    else match answers[i]
      case Fine => Reach(answers, i + 1)
      case Rejected => i
      case CommittedUnheard => i + 1
  }

  class Session {
    var committed: seq<Version>
    var locked: bool      // pg_advisory_lock is held by this session
    var open: bool

    constructor (committed: seq<Version>)
      ensures this.committed == committed && !locked && open
    {
      this.committed := committed;
      locked, open := false, true;
    }

    method EndedByServer()
      modifies this
      ensures !open && !locked && committed == old(committed)
    {
      open, locked := false, false;
    }

    /** The transaction of one migration. */
    method Begin(version: Version, answer: Answer) returns (thrown: bool)
      modifies this
      ensures thrown <==> !old(open) || !answer.Fine? || version in old(committed)
      ensures !old(open) || answer.Rejected? || version in old(committed) ==>
                committed == old(committed) && open == old(open) && locked == old(locked)
      ensures old(open) && !answer.Rejected? && version !in old(committed) ==>
                && committed == old(committed) + [version]
                && open == answer.Fine? && locked == (old(locked) && answer.Fine?)
    {
      if !open || answer.Rejected? || version in committed {
        return true;
      }
      committed := committed + [version];
      if answer.CommittedUnheard? {
        EndedByServer();
        return true;
      }
      return false;
    }

    /** One turn of the loop: a version that was read is skipped, any other is
        applied, and the session may end before it. */
    method TakeTurn(files: seq<Version>, applied: set<Version>, ghost known: nat, i: nat, answer: Answer, ends: bool)
      returns (thrown: bool)
      requires Distinct(files) && i < |files| && known <= |files| && applied == AsSet(files[..known])
      requires committed == files[..Max(known, i)] && (locked ==> open)
      modifies this
      ensures i < known ==> !thrown && committed == old(committed) && open == (old(open) && !ends)
      ensures i >= known ==>
                var heard := if old(open) && !ends then answer else Rejected;
                && (thrown <==> !heard.Fine?)
                && committed == files[..if heard.Rejected? then i else i + 1]
                && (!thrown ==> open)
      ensures locked ==> old(locked) && open
    {
      PresenceOf(files, files[..known], i);
      PresenceOf(files, committed, i);
      thrown := false;
      if ends {
        EndedByServer();
      }
      if files[i] !in applied {
        thrown := Begin(files[i], answer);
      }
    }

    /** runMigrations from the reserved session on: lock, read, apply, and unlock
        on the way out however the loop ended. The server ends the session before
        statement `ends`: the SELECT is statement 0, the turn of file `i` is i + 1,
        the unlock comes last; a later number means never. */
    method RunMigrations(files: seq<Version>, selectAnswer: Answer, answers: seq<Answer>, ends: nat)
      returns (failed: bool)
      requires open && !locked && Distinct(files) && |answers| == |files| && committed <= files
      requires !selectAnswer.CommittedUnheard?
      modifies this
      ensures !locked
      ensures selectAnswer.Rejected? || ends == 0 ==> failed && committed == old(committed)
      ensures selectAnswer.Fine? && ends > 0 ==>
                && committed == files[..Reach(Heard(answers, ends), |old(committed)|)]
                && (failed <==> ends <= |files| + 1 || exists k | |old(committed)| <= k < |files| :: !answers[k].Fine?)
      ensures !failed ==> committed == files
    {
      locked := true;
      if ends == 0 {
        EndedByServer();
      }
      failed := selectAnswer.Rejected? || !open;
      if !failed {
        var applied := set v | v in committed;
        ghost var known, heard := |committed|, Heard(answers, ends);
        assert committed == files[..known];
        var i := 0;
        while i < |files| && !failed
          invariant i <= |files|
          invariant !failed ==> (open <==> ends > i) && committed == files[..Max(known, i)]
          invariant !failed ==> (forall k | known <= k < i :: heard[k].Fine?) && Reach(heard, known) == Reach(heard, Max(known, i))
          invariant failed ==> committed == files[..Reach(heard, known)] && exists k | known <= k < |files| :: !heard[k].Fine?
          invariant locked ==> open
        {
          ReachTurn(heard, i);
          hide Reach, Heard, Distinct, AsSet;
          failed := TakeTurn(files, applied, known, i, answers[i], i + 1 == ends);
          i := i + 1;
        }
        if ends == |files| + 1 {
          EndedByServer();
        }
      }
      if open {
        locked := false;
      } else {
        failed := true;
      }
    }
  }

  lemma ReachTurn(answers: seq<Answer>, i: nat)
    requires i <= |answers|
    ensures i < |answers| && answers[i].Fine? ==> Reach(answers, i) == Reach(answers, i + 1)
    ensures i < |answers| && answers[i].Rejected? ==> Reach(answers, i) == i
    ensures i < |answers| && answers[i].CommittedUnheard? ==> Reach(answers, i) == i + 1
  {
  }

  /** What the transactions come to when the session ends before statement `ends`. */
  function Heard(answers: seq<Answer>, ends: nat): (heard: seq<Answer>)
    ensures |heard| == |answers|
    ensures forall i | 0 <= i < |answers| :: heard[i] == if ends <= i + 1 then Rejected else answers[i]
  {
    seq(|answers|, i requires 0 <= i < |answers| => if ends <= i + 1 then Rejected else answers[i])
  }
}
