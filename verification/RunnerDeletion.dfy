/**
 src/k8s/workflow-runner-spawner.ts, deleteWorkflowRunnerResources, while anybody
 else creates, changes and deletes objects between its calls. The API server never
 gives out a uid twice; a delete with a uid precondition is refused with 409 when
 the object of that name has another uid.
 */
module RunnerDeletion {
  import opened Basics
  import R = RunnerResources

  type Uid = string

  datatype Kind = Pod | Secret

  /** An object as deletion sees it. `doomed`: its deletion was accepted. */
  datatype Object = Object(meta: R.Meta, doomed: bool)

  /** The two objects of one name that the attempt's resources are stored under. */
  datatype Pc =
    | Read(kind: Kind)
    | Delete(kind: Kind, uid: Uid)
    | Finished
    | Threw(error: R.ErrorKind)

  datatype State = State(
    objects: map<Kind, Object>,      // what exists under the attempt's name
    used: set<Uid>,                  // every uid ever given out
    pc: Pc,
    validated: map<Uid, R.Meta>,     // what was read, at the uid it was read with
    removed: set<Uid>)               // uids this routine had deleted

  datatype Answer = Served | Unserved(status: Option<int>)

  datatype Event =
    | Step(answer: Answer)                 // the call of this routine
    | Lost(status: Option<int>)            // a delete that was applied, its answer lost
    | Created(kind: Kind, meta: R.Meta)    // somebody else
    | Changed(kind: Kind, meta: R.Meta)
    | Removed(kind: Kind)

  function After(kind: Kind): Pc {
    if kind.Pod? then Read(Secret) else Finished
  }

  /** validateResourceOwnership and ownedDeleteOptions */
  function Judge(m: R.Meta, a: R.Attempt, namespace: string): Option<R.ErrorKind> {
    if !R.ExactMeta(m, a, namespace) || m.uid == "" then Some(R.Permanent) else None
  }

  function OnRead(s: State, a: R.Attempt, namespace: string, answer: Answer): State
    requires s.pc.Read?
  {
    var kind := s.pc.kind;
    match answer
    case Unserved(status) =>
      s.(pc := if status == Some(404) then After(kind) else Threw(R.ClassifyResourceError(status)))
    case Served =>
      if kind !in s.objects then s.(pc := After(kind))
      else
        var m := s.objects[kind].meta;
        var error := Judge(m, a, namespace);
        if error.Some? then s.(pc := Threw(error.value))
        else s.(pc := Delete(kind, m.uid), validated := s.validated[m.uid := m])
  }

  /** The effect of a delete with its uid precondition, whatever is answered. */
  function Deleted(s: State, kind: Kind, uid: Uid): State {
    if kind in s.objects && s.objects[kind].meta.uid == uid then
      s.(objects := s.objects[kind := s.objects[kind].(doomed := true)], removed := s.removed + {uid})
    else s
  }

  function OnDelete(s: State, answer: Answer): State
    requires s.pc.Delete?
  {
    var kind, uid := s.pc.kind, s.pc.uid;
    match answer
    case Unserved(status) =>
      s.(pc := if status == Some(404) then After(kind) else Threw(R.ClassifyResourceError(status)))
    case Served =>
      if kind !in s.objects then s.(pc := After(kind))
      else if s.objects[kind].meta.uid != uid then s.(pc := Threw(R.ClassifyResourceError(Some(409))))
      else Deleted(s, kind, uid).(pc := After(kind))
  }

  predicate Enabled(s: State, e: Event) {
    match e
    // a genuine 404 is `Served` with nothing there
    case Step(answer) => (s.pc.Read? || s.pc.Delete?) && answer != Unserved(Some(404))
    case Lost(status) => s.pc.Delete? && status != Some(404)
    case Created(kind, meta) => kind !in s.objects && meta.uid !in s.used
    case Changed(kind, meta) => kind in s.objects && meta.uid == s.objects[kind].meta.uid
    case Removed(kind) => kind in s.objects
  }

  function Next(a: R.Attempt, namespace: string, s: State, e: Event): State
    requires Enabled(s, e)
  {
    match e
    case Step(answer) => if s.pc.Read? then OnRead(s, a, namespace, answer) else OnDelete(s, answer)
    case Lost(status) => Deleted(s, s.pc.kind, s.pc.uid).(pc := Threw(R.ClassifyResourceError(status)))
    case Created(kind, meta) => s.(objects := s.objects[kind := Object(meta, false)], used := s.used + {meta.uid})
    case Changed(kind, meta) => s.(objects := s.objects[kind := s.objects[kind].(meta := meta)])
    case Removed(kind) => s.(objects := s.objects - {kind})
  }

  /** The routine has not begun, and every existing uid has been given out. */
  predicate Initial(s: State) {
    && s.pc == Read(Pod) && s.validated == map[] && s.removed == {}
    && (forall k | k in s.objects :: s.objects[k].meta.uid in s.used)
  }

  function Run(a: R.Attempt, namespace: string, start: State, events: seq<Event>): Option<State> {
    if events == [] then Some(start)
    else
      match Run(a, namespace, start, events[..|events| - 1])
      case None => None
      case Some(s) =>
        var e := events[|events| - 1];
        if Enabled(s, e) then Some(Next(a, namespace, s, e)) else None
  }

  // ---------------------------------------------------------------------
  // Only what was validated is removed

  /** The object of this kind that was there at the start is gone, or its deletion
      was accepted. */
  predicate Settled(start: State, s: State, kind: Kind) {
    kind in start.objects && kind in s.objects && s.objects[kind].meta.uid == start.objects[kind].meta.uid ==>
      s.objects[kind].doomed
  }

  /** Past this kind in the routine's order. */
  predicate Past(pc: Pc, kind: Kind) {
    match pc
    case Read(k) => kind.Pod? && k.Secret?
    case Delete(k, _) => kind.Pod? && k.Secret?
    case Finished => true
    case Threw(_) => false
  }

  predicate Inv(a: R.Attempt, namespace: string, start: State, s: State) {
    && (forall u | u in s.removed :: u in s.validated)
    && (forall u | u in s.validated :: s.validated[u].uid == u && u != "" && R.ExactMeta(s.validated[u], a, namespace))
    && (s.pc.Delete? ==> s.pc.uid in s.validated)
    && start.used <= s.used
    && (forall k | k in s.objects :: s.objects[k].meta.uid in s.used)
    && (forall k | k in start.objects :: start.objects[k].meta.uid in start.used)
    && (forall k: Kind | Past(s.pc, k) :: Settled(start, s, k))
    // while it is about to delete what it read, the original is that or gone
    && (s.pc.Delete? && s.pc.kind in start.objects && s.pc.kind in s.objects
        && s.objects[s.pc.kind].meta.uid == start.objects[s.pc.kind].meta.uid ==>
          s.pc.uid == start.objects[s.pc.kind].meta.uid)
  }

  lemma ReadKeepsInv(a: R.Attempt, namespace: string, start: State, s: State, answer: Answer)
    requires Inv(a, namespace, start, s) && s.pc.Read? && answer != Unserved(Some(404))
    ensures Inv(a, namespace, start, OnRead(s, a, namespace, answer))
  {
    hide R.ExactMeta;
    var s' := OnRead(s, a, namespace, answer);
    forall k: Kind | Past(s'.pc, k) ensures Settled(start, s', k) {
      assert k != s.pc.kind ==> Past(s.pc, k);
    }
  }

  lemma DeleteKeepsInv(a: R.Attempt, namespace: string, start: State, s: State, answer: Answer)
    requires Inv(a, namespace, start, s) && s.pc.Delete? && answer != Unserved(Some(404))
    ensures Inv(a, namespace, start, OnDelete(s, answer))
  {
    hide R.ExactMeta;
    var s' := OnDelete(s, answer);
    forall k: Kind | Past(s'.pc, k) ensures Settled(start, s', k) {
      assert k != s.pc.kind ==> Past(s.pc, k);
    }
  }

  /** An object of the start never comes back once it is gone: its uid is spent. */
  lemma OthersKeepInv(a: R.Attempt, namespace: string, start: State, s: State, e: Event)
    requires Inv(a, namespace, start, s) && Enabled(s, e) && (e.Created? || e.Changed? || e.Removed?)
    ensures Inv(a, namespace, start, Next(a, namespace, s, e))
  {
    hide R.ExactMeta;
    var s' := Next(a, namespace, s, e);
    forall k: Kind | Past(s'.pc, k) ensures Settled(start, s', k) {
      assert Settled(start, s, k);
    }
  }

  lemma NextKeepsInv(a: R.Attempt, namespace: string, start: State, s: State, e: Event)
    requires Inv(a, namespace, start, s) && Enabled(s, e)
    ensures Inv(a, namespace, start, Next(a, namespace, s, e))
  {
    match e
    case Step(answer) =>
      if s.pc.Read? {
        ReadKeepsInv(a, namespace, start, s, answer);
      } else {
        DeleteKeepsInv(a, namespace, start, s, answer);
      }
    case Lost(status) => hide R.ExactMeta;
    case _ => OthersKeepInv(a, namespace, start, s, e);
  }

  lemma {:induction false} RunKeepsInv(a: R.Attempt, namespace: string, start: State, events: seq<Event>)
    requires Initial(start) && Run(a, namespace, start, events).Some?
    ensures Inv(a, namespace, start, Run(a, namespace, start, events).value)
  {
    if events != [] {
      var before := events[..|events| - 1];
      RunKeepsInv(a, namespace, start, before);
      NextKeepsInv(a, namespace, start, Run(a, namespace, start, before).value, events[|events| - 1]);
    }
  }

  /** Whatever others do between its calls, deletion only removes objects whose uid
      it read together with this attempt's exact metadata, so never one created
      under the name since. */
  lemma OnlyValidatedIsRemoved(a: R.Attempt, namespace: string, start: State, events: seq<Event>, u: Uid)
    requires Initial(start) && Run(a, namespace, start, events).Some?
    requires u in Run(a, namespace, start, events).value.removed
    ensures var s := Run(a, namespace, start, events).value;
            u in s.validated && s.validated[u].uid == u && R.ExactMeta(s.validated[u], a, namespace)
  {
    RunKeepsInv(a, namespace, start, events);
  }

  /** A normal return leaves nothing of what it set out to delete: what existed at
      the start is gone, or its deletion was accepted. */
  lemma NormalReturnSettles(a: R.Attempt, namespace: string, start: State, events: seq<Event>, kind: Kind)
    requires Initial(start) && Run(a, namespace, start, events).Some?
    requires Run(a, namespace, start, events).value.pc.Finished?
    ensures Settled(start, Run(a, namespace, start, events).value, kind)
  {
    RunKeepsInv(a, namespace, start, events);
    assert Past(Finished, kind);
  }

  /** A step of the routine dooms one object at most, the one it validated, and
      leaves an object that took the name meanwhile as it was. */
  lemma StrangersAreSpared(a: R.Attempt, namespace: string, start: State, events: seq<Event>, e: Event, kind: Kind)
    requires Initial(start) && Run(a, namespace, start, events).Some?
    requires e.Step? || e.Lost?
    requires Enabled(Run(a, namespace, start, events).value, e)
    ensures var s := Run(a, namespace, start, events).value;
            kind in s.objects && s.objects[kind].meta.uid !in s.validated ==>
              kind in Next(a, namespace, s, e).objects && Next(a, namespace, s, e).objects[kind] == s.objects[kind]
  {
    RunKeepsInv(a, namespace, start, events);
  }

  // ---------------------------------------------------------------------
  // The routine between its calls

  class Deletion {
    const attempt: R.Attempt
    const namespace: string
    ghost const start: State
    var objects: map<Kind, Object>
    ghost var used: set<Uid>
    var pc: Pc
    ghost var validated: map<Uid, R.Meta>
    ghost var removed: set<Uid>

    ghost function View(): State
      reads this
    {
      State(objects, used, pc, validated, removed)
    }

    /** Only validated uids were removed, and what the routine is past is settled. */
    ghost predicate Valid()
      reads this
    {
      Inv(attempt, namespace, start, View())
    }

    constructor (attempt: R.Attempt, namespace: string, objects: map<Kind, Object>, ghost used: set<Uid>)
      requires Initial(State(objects, used, Read(Pod), map[], {}))
      ensures this.attempt == attempt && this.namespace == namespace && start == View()
      ensures Valid() && View() == State(objects, used, Read(Pod), map[], {})
    {
      this.attempt, this.namespace, this.objects, this.used := attempt, namespace, objects, used;
      pc, validated, removed := Read(Pod), map[], {};
      start := State(objects, used, Read(Pod), map[], {});
    }

    /** Somebody else creates, changes or removes an object between two calls. */
    method OthersAct(e: Event)
      requires Valid() && Enabled(View(), e) && (e.Created? || e.Changed? || e.Removed?)
      modifies this
      ensures Valid() && View() == Next(attempt, namespace, old(View()), e)
    {
      OthersKeepInv(attempt, namespace, start, View(), e);
      hide Inv;
      match e
      case Created(kind, meta) =>
        objects := objects[kind := Object(meta, false)];
        used := used + {meta.uid};
      case Changed(kind, meta) => objects := objects[kind := objects[kind].(meta := meta)];
      case Removed(kind) => objects := objects - {kind};
    }

    /** readForDelete and the two checks of what it returned: nothing is deleted, and
        a delete follows only for an object with this attempt's exact metadata. */
    method ReadForDelete(answer: Answer)
      requires Valid() && pc.Read? && answer != Unserved(Some(404))
      modifies this
      ensures Valid() && View() == OnRead(old(View()), attempt, namespace, answer)
      ensures objects == old(objects) && removed == old(removed)
      ensures pc.Delete? ==> pc.kind in objects && pc.uid == objects[pc.kind].meta.uid
                             && R.ExactMeta(objects[pc.kind].meta, attempt, namespace)
      ensures pc.Finished? ==> forall k: Kind :: Settled(start, View(), k)
    {
      ReadKeepsInv(attempt, namespace, start, View(), answer);
      FinishedSettles(attempt, namespace, start, OnRead(View(), attempt, namespace, answer));
      hide Inv, Settled;
      var kind := pc.kind;
      if answer.Unserved? {
        pc := Threw(R.ClassifyResourceError(answer.status));
        return;
      }
      if kind !in objects {
        pc := After(kind);
        return;
      }
      var meta := objects[kind].meta;
      if !R.ExactMeta(meta, attempt, namespace) || meta.uid == "" {
        pc := Threw(R.Permanent);
        return;
      }
      validated := validated[meta.uid := meta];
      pc := Delete(kind, meta.uid);
    }

    /** deleteIgnoringNotFound: at most the object with the validated uid is doomed. */
    method DeleteOwned(answer: Answer)
      requires Valid() && pc.Delete? && answer != Unserved(Some(404))
      modifies this
      ensures Valid() && View() == OnDelete(old(View()), answer)
      ensures removed <= old(removed) + {old(pc).uid} && old(pc).uid in validated
      ensures forall k | k in old(objects) && (k != old(pc).kind || old(objects)[k].meta.uid != old(pc).uid) ::
                k in objects && objects[k] == old(objects)[k]
      ensures pc.Finished? ==> forall k: Kind :: Settled(start, View(), k)
    {
      DeleteKeepsInv(attempt, namespace, start, View(), answer);
      FinishedSettles(attempt, namespace, start, OnDelete(View(), answer));
      assert pc.uid in validated;
      hide Inv, Settled;
      var kind, uid := pc.kind, pc.uid;
      if answer.Unserved? {
        pc := Threw(R.ClassifyResourceError(answer.status));
        return;
      }
      if kind in objects {
        if objects[kind].meta.uid != uid {
          pc := Threw(R.ClassifyResourceError(Some(409)));
          return;
        }
        objects := objects[kind := objects[kind].(doomed := true)];
        removed := removed + {uid};
      }
      pc := After(kind);
    }
  }

  lemma FinishedSettles(a: R.Attempt, namespace: string, start: State, s: State)
    requires s.pc.Finished? ==> Inv(a, namespace, start, s)
    ensures s.pc.Finished? ==> forall k: Kind :: Settled(start, s, k)
  {
    if s.pc.Finished? {
      forall k: Kind ensures Settled(start, s, k) {
        assert Past(s.pc, k);
      }
    }
  }
}
