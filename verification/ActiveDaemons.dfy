/**
 src/orchestrator/daemon-registry.ts, getActiveDaemons, one Valkey command at a
 time. Between its awaited commands anybody may set, delete or lose a liveness key
 and add to or remove from the index.
 */
module ActiveDaemons {
  import opened Ledger

  datatype Command =
    | SetLive(d: DaemonId)   // SETEX of a registration or of a pong
    | DropLive(d: DaemonId)  // DEL, or the key expires
    | Add(d: DaemonId)       // SADD active_daemons
    | Remove(d: DaemonId)    // SREM active_daemons

  datatype Store = Store(live: set<DaemonId>, index: set<DaemonId>)

  function Apply(v: Store, c: Command): Store {
    match c
    case SetLive(d) => v.(live := v.live + {d})
    case DropLive(d) => v.(live := v.live - {d})
    case Add(d) => v.(index := v.index + {d})
    case Remove(d) => v.(index := v.index - {d})
  }

  function After(v: Store, cs: seq<Command>): Store {
    if cs == [] then v else Apply(After(v, cs[..|cs| - 1]), cs[|cs| - 1])
  }

  /** What others do before the EXISTS of a member, and between it and its SREM. */
  datatype Others = Others(before: seq<Command>, between: seq<Command>)

  /** The store at the EXISTS of a member. */
  function Checked(v: Store, o: Others): Store {
    After(v, o.before)
  }

  /** The turn of one member: kept if it has a key when it is checked, otherwise
      removed from the index after whatever happens in between. */
  function Turn(v: Store, d: DaemonId, o: Others): Store {
    if d in Checked(v, o).live then Checked(v, o) else Apply(After(Checked(v, o), o.between), Remove(d))
  }

  /** The store after the turns of the first members. */
  function Turns(v: Store, members: seq<DaemonId>, others: seq<Others>): Store
    requires |others| == |members|
  {
    if members == [] then v
    else
      var n := |members| - 1;
      Turn(Turns(v, members[..n], others[..n]), members[n], others[n])
  }

  /** The store at the EXISTS of member `i`. */
  function At(v: Store, members: seq<DaemonId>, others: seq<Others>, i: nat): Store
    requires |others| == |members| && i < |members|
  {
    Checked(Turns(v, members[..i], others[..i]), others[i])
  }

  /** What the loop returns. */
  function Alive(v: Store, members: seq<DaemonId>, others: seq<Others>): seq<DaemonId>
    requires |others| == |members|
  {
    if members == [] then []
    else
      var n := |members| - 1;
      var checked := Checked(Turns(v, members[..n], others[..n]), others[n]);
      Alive(v, members[..n], others[..n]) + if members[n] in checked.live then [members[n]] else []
  }

  predicate NoRepeats(ds: seq<DaemonId>) {
    forall i, j | 0 <= i < j < |ds| :: ds[i] != ds[j]
  }

  lemma Prefix(v: Store, members: seq<DaemonId>, others: seq<Others>, n: nat)
    requires |others| == |members| && n < |members|
    ensures forall i | 0 <= i < n :: members[..n][i] == members[i] && members[i] in members[..n]
                                      && At(v, members[..n], others[..n], i) == At(v, members, others, i)
  {
    forall i | 0 <= i < n ensures At(v, members[..n], others[..n], i) == At(v, members, others, i) {
      assert members[..n][..i] == members[..i] && others[..n][..i] == others[..i];
    }
  }

  lemma AliveUnfolds(v: Store, members: seq<DaemonId>, others: seq<Others>)
    requires |others| == |members| > 0
    ensures var n := |members| - 1;
            Alive(v, members, others) ==
              Alive(v, members[..n], others[..n]) + if members[n] in At(v, members, others, n).live then [members[n]] else []
  {
  }

  /** The members that had a key when they were checked, each once. */
  lemma {:induction false} AliveWhenChecked(v: Store, members: seq<DaemonId>, others: seq<Others>)
    requires |others| == |members| && NoRepeats(members)
    ensures forall d | d in Alive(v, members, others) :: d in members
    ensures forall i | 0 <= i < |members| ::
              members[i] in Alive(v, members, others) <==> members[i] in At(v, members, others, i).live
    ensures NoRepeats(Alive(v, members, others))
  {
    if members != [] {
      var n := |members| - 1;
      AliveWhenChecked(v, members[..n], others[..n]);
      AliveUnfolds(v, members, others);
      Prefix(v, members, others, n);
      hide At, Alive;
      assert members == members[..n] + [members[n]];
      assert members[n] !in members[..n];
    }
  }

  // ---------------------------------------------------------------------
  // Who is pruned

  /** The key was set, and not dropped since. */
  predicate SetSince(cs: seq<Command>, d: DaemonId) {
    exists i | 0 <= i < |cs| :: cs[i] == SetLive(d) && forall j | i < j < |cs| :: cs[j] != DropLive(d)
  }

  lemma SetSinceLast(cs: seq<Command>, d: DaemonId)
    requires cs != []
    ensures var init, last := cs[..|cs| - 1], cs[|cs| - 1];
            SetSince(cs, d) <==> last == SetLive(d) || (last != DropLive(d) && SetSince(init, d))
  {
    var init, last := cs[..|cs| - 1], cs[|cs| - 1];
    assert forall k | 0 <= k < |init| :: init[k] == cs[k];
    if SetSince(cs, d) && last != SetLive(d) {
      var i :| 0 <= i < |cs| && cs[i] == SetLive(d) && forall j | i < j < |cs| :: cs[j] != DropLive(d);
      assert init[i] == SetLive(d) && forall j | i < j < |init| :: init[j] != DropLive(d);
    }
    if last != DropLive(d) && SetSince(init, d) {
      var i :| 0 <= i < |init| && init[i] == SetLive(d) && forall j | i < j < |init| :: init[j] != DropLive(d);
      assert cs[i] == SetLive(d) && forall j | i < j < |cs| :: cs[j] != DropLive(d);
    }
  }

  lemma {:induction false} LiveAfter(v: Store, cs: seq<Command>, d: DaemonId)
    requires d !in v.live
    ensures d in After(v, cs).live <==> SetSince(cs, d)
  {
    if cs != [] {
      LiveAfter(v, cs[..|cs| - 1], d);
      SetSinceLast(cs, d);
    }
  }

  /** Member `i` is taken out of the index while its key is there. */
  predicate PrunedAlive(v: Store, members: seq<DaemonId>, others: seq<Others>, i: nat)
    requires |others| == |members| && i < |members|
  {
    && members[i] !in At(v, members, others, i).live
    && members[i] in After(At(v, members, others, i), others[i].between).live
  }

  /** Exactly when the loop prunes a live daemon: its key was missing at the EXISTS
      and was set, for good, before the SREM that the answer led to. */
  lemma PrunedAliveIff(v: Store, members: seq<DaemonId>, others: seq<Others>, i: nat)
    requires |others| == |members| && i < |members|
    ensures PrunedAlive(v, members, others, i) <==>
              members[i] !in At(v, members, others, i).live && SetSince(others[i].between, members[i])
  {
    if members[i] !in At(v, members, others, i).live {
      LiveAfter(At(v, members, others, i), others[i].between, members[i]);
    }
  }

  lemma AfterTwo(v: Store, c: Command, c': Command)
    ensures After(v, [c, c']) == Apply(Apply(v, c), c')
  {
    var first, both := [c], [c, c'];
    assert first[..0] == [] && both[..1] == first;
    assert After(v, first) == Apply(After(v, first[..0]), c);
  }

  lemma OneTurn(v: Store, d: DaemonId, o: Others)
    ensures Turns(v, [d], [o]) == Turn(v, d, o) && At(v, [d], [o], 0) == Checked(v, o)
  {
    var ms, os := [d], [o];
    assert ms[..0] == [] && os[..0] == [];
  }

  /** Such a run: a daemon whose key expired registers again between the EXISTS and
      the SREM. It ends with its key and without its entry, and no later pong, which
      sets the key alone, brings the entry back. */
  lemma RegistrationIsPruned(v: Store, d: DaemonId, pongs: seq<Command>)
    requires d in v.index && d !in v.live
    requires forall i | 0 <= i < |pongs| :: pongs[i] == SetLive(d)
    ensures var o := Others([], [SetLive(d), Add(d)]);
            var w := After(Turns(v, [d], [o]), pongs);
            PrunedAlive(v, [d], [o], 0) && d in w.live && d !in w.index
  {
    var o := Others([], [SetLive(d), Add(d)]);
    AfterTwo(v, SetLive(d), Add(d));
    OneTurn(v, d, o);
    hide After, Turns, At;
    assert Checked(v, o) == v by {
      NothingHappens(v);
    }
    PongsSetTheKey(Turns(v, [d], [o]), d, pongs);
  }

  lemma NothingHappens(v: Store)
    ensures After(v, []) == v
  {
  }

  lemma {:induction false} PongsSetTheKey(v: Store, d: DaemonId, pongs: seq<Command>)
    requires d in v.live && forall i | 0 <= i < |pongs| :: pongs[i] == SetLive(d)
    ensures d in After(v, pongs).live && After(v, pongs).index == v.index
  {
    if pongs != [] {
      PongsSetTheKey(v, d, pongs[..|pongs| - 1]);
    }
  }

  /** When nobody else writes meanwhile the index ends as the daemons with a key. */
  lemma {:induction false} UndisturbedIsExact(v: Store, members: seq<DaemonId>, others: seq<Others>)
    requires |others| == |members| && forall o | o in others :: o == Others([], [])
    ensures Turns(v, members, others).live == v.live
    ensures Turns(v, members, others).index == set d | d in v.index && (d in members ==> d in v.live)
  {
    if members != [] {
      var n := |members| - 1;
      assert members == members[..n] + [members[n]] && others[n] in others;
      assert forall o | o in others[..n] :: o in others;
      UndisturbedIsExact(v, members[..n], others[..n]);
    }
  }

  class Valkey {
    var live: set<DaemonId>
    var index: set<DaemonId>

    function View(): Store
      reads this
    {
      Store(live, index)
    }

    constructor (live: set<DaemonId>, index: set<DaemonId>)
      ensures View() == Store(live, index)
    {
      this.live, this.index := live, index;
    }

    method Run(c: Command)
      modifies this
      ensures View() == Apply(old(View()), c)
    {
      match c
      case SetLive(d) => live := live + {d};
      case DropLive(d) => live := live - {d};
      case Add(d) => index := index + {d};
      case Remove(d) => index := index - {d};
    }

    method RunAll(cs: seq<Command>)
      modifies this
      ensures View() == After(old(View()), cs)
    {
      ghost var v := View();
      for i := 0 to |cs|
        invariant View() == After(v, cs[..i])
      {
        assert cs[..i + 1][..i] == cs[..i];
        Run(cs[i]);
      }
      assert cs[..|cs|] == cs;
    }

    /** `members` is what SMEMBERS returned. */
    method GetActiveDaemons(members: seq<DaemonId>, others: seq<Others>) returns (alive: seq<DaemonId>)
      requires |others| == |members|
      modifies this
      ensures View() == Turns(old(View()), members, others)
      ensures alive == Alive(old(View()), members, others)
    {
      ghost var v := View();
      alive := [];
      for i := 0 to |members|
        invariant View() == Turns(v, members[..i], others[..i])
        invariant alive == Alive(v, members[..i], others[..i])
      {
        OneMoreTurn(v, members, others, i);
        hide Turns, Alive, After;
        var d := members[i];
        RunAll(others[i].before);
        if d in live {
          alive := alive + [d];
        } else {
          RunAll(others[i].between);
          Run(Remove(d));
        }
      }
      assert members[..|members|] == members && others[..|others|] == others;
    }
  }

  lemma OneMoreTurn(v: Store, members: seq<DaemonId>, others: seq<Others>, i: nat)
    requires |others| == |members| && i < |members|
    ensures var before := Turns(v, members[..i], others[..i]);
            && Turns(v, members[..i + 1], others[..i + 1]) == Turn(before, members[i], others[i])
            && Alive(v, members[..i + 1], others[..i + 1]) ==
                 Alive(v, members[..i], others[..i]) +
                 if members[i] in After(before, others[i].before).live then [members[i]] else []
  {
    var ms, os := members[..i + 1], others[..i + 1];
    assert ms[..i] == members[..i] && os[..i] == others[..i];
  }
}
