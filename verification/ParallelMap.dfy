/**
 src/core/fetcher.ts, pMap: workers that share one cursor. A worker runs from one
 `await` to the next without interruption, so claiming an index is one step and
 the settling of a call is another; any worker may be the next to step.
 */
module ParallelMap {
  import opened Basics

  datatype Worker =
    | Ready             // at the head of its loop
    | Busy(idx: nat)    // awaiting fn(items[idx])
    | Returned
    | Threw(idx: nat)   // the call was rejected, and the worker with it

  datatype State<R> = State(next: nat, results: map<nat, R>, workers: seq<Worker>)

  datatype Event = Claim(w: nat) | Settle(w: nat) | Reject(w: nat)

  function Workers(concurrency: int, n: nat): nat {
    if concurrency < 1 then (if n < 1 then 0 else 1)
    else if concurrency < n then concurrency else n
  }

  function Init<R>(concurrency: int, n: nat): State<R> {
    State(0, map[], seq(Workers(concurrency, n), _ => Ready))
  }

  predicate Enabled<R>(s: State<R>, e: Event) {
    e.w < |s.workers| &&
    match e
    case Claim(w) => s.workers[w].Ready?
    case Settle(w) => s.workers[w].Busy?
    case Reject(w) => s.workers[w].Busy?
  }

  /** A worker is never busy past the last item, as `Inv` says of every run; the
      step is defined there too. */
  ghost function Next<T, R>(items: seq<T>, fn: T -> R, s: State<R>, e: Event): State<R>
    requires Enabled(s, e)
  {
    match e
    case Claim(w) =>
      s.(next := s.next + 1,
         workers := s.workers[w := if s.next >= |items| then Returned else Busy(s.next)])
    case Settle(w) =>
      var idx := s.workers[w].idx;
      s.(results := if idx < |items| then s.results[idx := fn(items[idx])] else s.results,
         workers := s.workers[w := Ready])
    case Reject(w) => s.(workers := s.workers[w := Threw(s.workers[w].idx)])
  }

  /** The worker an index is with. */
  predicate With<R>(s: State<R>, w: nat, idx: nat) {
    w < |s.workers| && (s.workers[w] == Busy(idx) || s.workers[w] == Threw(idx))
  }

  /** Every index below the cursor is settled or with exactly one worker, none
      above it has been touched, and what is settled is what the call returns. */
  ghost predicate Inv<T, R>(items: seq<T>, fn: T -> R, concurrency: int, s: State<R>) {
    && |s.workers| == Workers(concurrency, |items|)
    && (forall i: nat | i in s.results :: i < s.next && i < |items| && s.results[i] == fn(items[i]))
    && (forall w: nat, i: nat | With(s, w, i) :: i < s.next && i < |items| && i !in s.results)
    && (forall w: nat, v: nat, i: nat | With(s, w, i) && With(s, v, i) :: w == v)
    && (forall i: nat | i < s.next && i < |items| && i !in s.results :: exists w: nat :: With(s, w, i))
    && (forall w | 0 <= w < |s.workers| && s.workers[w].Returned? :: s.next > |items|)
  }

  lemma ClaimKeepsInv<T, R>(items: seq<T>, fn: T -> R, concurrency: int, s: State<R>, w: nat)
    requires Inv(items, fn, concurrency, s) && w < |s.workers| && s.workers[w].Ready?
    ensures Inv(items, fn, concurrency, Next(items, fn, s, Claim(w)))
  {
    var s' := Next(items, fn, s, Claim(w));
    forall v: nat, i: nat | v != w ensures With(s', v, i) <==> With(s, v, i) {
    }
    forall i: nat ensures !With(s, w, i) && (With(s', w, i) <==> s.next < |items| && i == s.next) {
    }
    forall i: nat | i < s'.next && i < |items| && i !in s'.results ensures exists v: nat :: With(s', v, i) {
      if i == s.next {
        assert With(s', w, i);
      } else {
        var v: nat :| With(s, v, i);
        assert With(s', v, i);
      }
    }
  }

  lemma SettleKeepsInv<T, R>(items: seq<T>, fn: T -> R, concurrency: int, s: State<R>, w: nat)
    requires Inv(items, fn, concurrency, s) && w < |s.workers| && s.workers[w].Busy?
    ensures Inv(items, fn, concurrency, Next(items, fn, s, Settle(w)))
  {
    var s', idx := Next(items, fn, s, Settle(w)), s.workers[w].idx;
    assert With(s, w, idx);
    forall v: nat, i: nat | v != w ensures With(s', v, i) <==> With(s, v, i) {
    }
    forall i: nat ensures !With(s', w, i) {
    }
    forall i: nat | i < s'.next && i < |items| && i !in s'.results ensures exists v: nat :: With(s', v, i) {
      var v: nat :| With(s, v, i);
      assert v != w;
      assert With(s', v, i);
    }
  }

  lemma RejectKeepsInv<T, R>(items: seq<T>, fn: T -> R, concurrency: int, s: State<R>, w: nat)
    requires Inv(items, fn, concurrency, s) && w < |s.workers| && s.workers[w].Busy?
    ensures Inv(items, fn, concurrency, Next(items, fn, s, Reject(w)))
  {
    var s' := Next(items, fn, s, Reject(w));
    forall v: nat, i: nat ensures With(s', v, i) <==> With(s, v, i) {
    }
    forall i: nat | i < s'.next && i < |items| && i !in s'.results ensures exists v: nat :: With(s', v, i) {
      var v: nat :| With(s, v, i);
      assert With(s', v, i);
    }
  }

  /** The states after each event of a schedule. */
  ghost predicate IsRun<T, R>(items: seq<T>, fn: T -> R, concurrency: int, events: seq<Event>, states: seq<State<R>>) {
    && |states| == |events| + 1
    && states[0] == Init(concurrency, |items|)
    && forall k | 0 <= k < |events| ::
         && Enabled(states[k], events[k])
         && states[k + 1] == Next(items, fn, states[k], events[k])
  }

  lemma {:induction false} RunKeepsInv<T, R>(items: seq<T>, fn: T -> R, concurrency: int, events: seq<Event>,
                                             states: seq<State<R>>, k: nat)
    requires IsRun(items, fn, concurrency, events, states) && k < |states|
    ensures Inv(items, fn, concurrency, states[k])
  {
    if k > 0 {
      RunKeepsInv(items, fn, concurrency, events, states, k - 1);
      var s := states[k - 1];
      assert states[k - 1 + 1] == Next(items, fn, s, events[k - 1]);
      match events[k - 1]
      case Claim(w) => ClaimKeepsInv(items, fn, concurrency, s, w);
      case Settle(w) => SettleKeepsInv(items, fn, concurrency, s, w);
      case Reject(w) => RejectKeepsInv(items, fn, concurrency, s, w);
    }
  }

  // ---------------------------------------------------------------------
  // What pMap promises

  /** The indices claimed in the first `k` steps, in order of claiming. */
  ghost function Claimed<T, R>(items: seq<T>, events: seq<Event>, states: seq<State<R>>, k: nat): seq<nat>
    requires k <= |events| < |states|
  {
    if k == 0 then []
    else
      var taken := if events[k - 1].Claim? && states[k - 1].next < |items| then [states[k - 1].next] else [];
      Claimed(items, events, states, k - 1) + taken
  }

  /** Each index is claimed once, in input order, whatever the schedule. */
  lemma {:induction false} ClaimedInOrder<T, R>(items: seq<T>, fn: T -> R, concurrency: int, events: seq<Event>,
                                                states: seq<State<R>>, k: nat)
    requires IsRun(items, fn, concurrency, events, states) && k <= |events|
    ensures Claimed(items, events, states, k) == seq(Least(states[k].next, |items|), i => i)
  {
    if k > 0 {
      ClaimedInOrder(items, fn, concurrency, events, states, k - 1);
      assert states[k - 1 + 1] == Next(items, fn, states[k - 1], events[k - 1]);
    }
  }

  function Least(a: nat, b: nat): nat {
    if a < b then a else b
  }

  function InFlight(workers: seq<Worker>): (n: nat)
    ensures n <= |workers|
  {
    if workers == [] then 0 else (if workers[0].Busy? then 1 else 0) + InFlight(workers[1..])
  }

  /** Never more calls in flight than max(concurrency, 1), nor than items. */
  lemma InFlightIsBounded<T, R>(items: seq<T>, fn: T -> R, concurrency: int, events: seq<Event>,
                                states: seq<State<R>>, k: nat)
    requires IsRun(items, fn, concurrency, events, states) && k < |states|
    ensures InFlight(states[k].workers) <= Least(if concurrency < 1 then 1 else concurrency, |items|)
  {
    RunKeepsInv(items, fn, concurrency, events, states, k);
  }

  /** The workers once the first `j` of them have claimed. */
  function Starting(m: nat, j: nat): seq<Worker> {
    seq(m, w requires 0 <= w < m => if w < j then Busy(w) else Ready)
  }

  lemma {:induction false} IdleCount(workers: seq<Worker>)
    requires forall w | w in workers :: !w.Busy?
    ensures InFlight(workers) == 0
  {
    if workers != [] {
      IdleCount(workers[1..]);
    }
  }

  lemma {:induction false} OneMoreBusy(workers: seq<Worker>, w: nat, idx: nat)
    requires w < |workers| && !workers[w].Busy?
    ensures InFlight(workers[w := Busy(idx)]) == InFlight(workers) + 1
  {
    if w > 0 {
      OneMoreBusy(workers[1..], w - 1, idx);
      assert workers[w := Busy(idx)][1..] == workers[1..][w - 1 := Busy(idx)];
    } else {
      assert workers[w := Busy(idx)][1..] == workers[1..];
    }
  }

  lemma {:induction false} FirstClaims<T, R>(items: seq<T>, fn: T -> R, concurrency: int, j: nat)
    returns (events: seq<Event>, states: seq<State<R>>)
    requires j <= Workers(concurrency, |items|)
    ensures IsRun(items, fn, concurrency, events, states) && |events| == j
    ensures states[j] == State(j, map[], Starting(Workers(concurrency, |items|), j)) && InFlight(states[j].workers) == j
  {
    var m := Workers(concurrency, |items|);
    if j == 0 {
      events, states := [], [Init(concurrency, |items|)];
      IdleCount(states[0].workers);
    } else {
      var before, reached := FirstClaims(items, fn, concurrency, j - 1);
      var s, e := reached[j - 1], Claim(j - 1);
      events, states := before + [e], reached + [Next(items, fn, s, e)];
      OneMoreBusy(s.workers, j - 1, j - 1);
      assert Starting(m, j) == Starting(m, j - 1)[j - 1 := Busy(j - 1)];
      forall k | 0 <= k < |events| ensures Enabled(states[k], events[k]) && states[k + 1] == Next(items, fn, states[k], events[k]) {
        if k < j - 1 {
          assert states[k + 1] == reached[k + 1] && events[k] == before[k];
        }
      }
    }
  }

  /** And the bound is reached: there is a run in which that many calls are in
      flight at once. */
  lemma FullParallelism<T, R>(items: seq<T>, fn: T -> R, concurrency: int)
    ensures exists events: seq<Event>, states: seq<State<R>> ::
      && IsRun(items, fn, concurrency, events, states)
      && InFlight(states[|events|].workers) == Least(if concurrency < 1 then 1 else concurrency, |items|)
  {
    var events, states := FirstClaims(items, fn, concurrency, Workers(concurrency, |items|));
    assert IsRun(items, fn, concurrency, events, states);
  }

  ghost function Mapped<T, R>(items: seq<T>, fn: T -> R): (r: seq<R>)
  {
    seq(|items|, i requires 0 <= i < |items| => fn(items[i]))
  }

  /** The result array once every worker returned. */
  ghost function Results<R>(s: State<R>, n: nat): seq<R>
    requires forall i: nat | i < n :: i in s.results
  {
    seq(n, i requires 0 <= i < n => s.results[i])
  }

  /** When all workers have returned, the results are those of mapping `fn` over
      the items one after the other, in input order. */
  lemma RefinesSequentialMap<T, R>(items: seq<T>, fn: T -> R, concurrency: int, events: seq<Event>,
                                   states: seq<State<R>>, k: nat)
    requires IsRun(items, fn, concurrency, events, states) && k < |states|
    requires forall w | 0 <= w < |states[k].workers| :: states[k].workers[w].Returned?
    ensures forall i: nat | i < |items| :: i in states[k].results
    ensures Results(states[k], |items|) == Mapped(items, fn)
  {
    RunKeepsInv(items, fn, concurrency, events, states, k);
    AllReturned(items, fn, concurrency, states[k]);
  }

  lemma AllReturned<T, R>(items: seq<T>, fn: T -> R, concurrency: int, s: State<R>)
    requires Inv(items, fn, concurrency, s)
    requires forall w | 0 <= w < |s.workers| :: s.workers[w].Returned?
    ensures forall i: nat | i < |items| :: i in s.results && s.results[i] == fn(items[i])
  {
    forall i: nat | i < |items| ensures i in s.results {
      assert s.workers[0].Returned?;
      assert forall w: nat :: !With(s, w, i);
    }
  }

  /** Some worker can always step until all have returned or thrown, and an index
      is given up on only by a rejected call. */
  lemma NothingIsLost<T, R>(items: seq<T>, fn: T -> R, concurrency: int, events: seq<Event>,
                            states: seq<State<R>>, k: nat, i: nat)
    requires IsRun(items, fn, concurrency, events, states) && k < |states|
    requires forall e: Event :: !Enabled(states[k], e)
    requires i < |items| && i !in states[k].results
    ensures exists w: nat :: w < |states[k].workers| && states[k].workers[w].Threw?
  {
    RunKeepsInv(items, fn, concurrency, events, states, k);
    var s := states[k];
    assert !Enabled(s, Claim(0)) && !Enabled(s, Settle(0));
    assert s.workers[0].Returned? || s.workers[0].Threw?;
    if s.workers[0].Returned? {
      var w: nat :| With(s, w, i);
      assert !Enabled(s, Settle(w));
      assert s.workers[w].Threw?;
    }
  }

  // ---------------------------------------------------------------------
  // The shared cursor and the result array

  class Pool<T, R> {
    const items: seq<T>
    const concurrency: int
    const fn: T -> R
    var next: nat
    var results: map<nat, R>
    var workers: seq<Worker>

    ghost function View(): State<R>
      reads this
    {
      State(next, results, workers)
    }

    ghost predicate Valid()
      reads this
    {
      Inv(items, fn, concurrency, View())
    }

    constructor (items: seq<T>, concurrency: int, fn: T -> R)
      ensures this.items == items && this.concurrency == concurrency && this.fn == fn
      ensures Valid() && View() == Init(concurrency, |items|)
    {
      this.items, this.concurrency, this.fn := items, concurrency, fn;
      next, results := 0, map[];
      workers := seq(Workers(concurrency, |items|), _ => Ready);
    }

    /** The head of a worker's loop, up to its `await` or its return. */
    method TakeNext(w: nat)
      requires Valid() && Enabled(View(), Claim(w))
      modifies this
      ensures Valid() && View() == Next(items, fn, old(View()), Claim(w))
    {
      ClaimKeepsInv(items, fn, concurrency, View(), w);
      hide Inv;
      var idx := next;
      next := next + 1;
      if idx >= |items| {
        workers := workers[w := Returned];
        return;
      }
      workers := workers[w := Busy(idx)];
    }

    /** The `await` returns. */
    method Store(w: nat)
      requires Valid() && Enabled(View(), Settle(w))
      modifies this
      ensures Valid() && View() == Next(items, fn, old(View()), Settle(w))
    {
      assert With(View(), w, workers[w].idx);
      SettleKeepsInv(items, fn, concurrency, View(), w);
      var idx := workers[w].idx;
      assert idx < |items|;
      hide Inv;
      results := results[idx := fn(items[idx])];
      workers := workers[w := Ready];
    }

    /** `await Promise.all(workers)`: the array the caller gets. */
    method Collect() returns (r: seq<R>)
      requires Valid() && forall w | 0 <= w < |workers| :: workers[w].Returned?
      ensures r == Mapped(items, fn)
    {
      AllReturned(items, fn, concurrency, View());
      r := seq(|items|, i requires 0 <= i < |items| && i in results reads this => results[i]);
    }
  }
}
