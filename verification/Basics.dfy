/** Types shared by the modules of this project. */
module Basics {

  datatype Option<+T> = None | Some(value: T)

  /** How an awaited call to a database or to Valkey ends: it took effect and
      resolved, it took effect but the promise rejected, or it had no effect. */
  datatype Outcome = Done | Lost | Refused {
    predicate Applied() {
      Done? || Lost?
    }
  }

  /** Some element of a non-empty set. */
  ghost function Pick<T>(xs: set<T>): (x: T)
    requires xs != {}
    ensures x in xs
  {
    var x :| x in xs;
    x
  }

  /** The same choice, for loops over a set. */
  method PickOne<T(==)>(xs: set<T>) returns (x: T)
    requires xs != {}
    ensures x in xs
  {
    x :| x in xs;
  }

  /** The least element of a non-empty finite set of integers. */
  ghost function MinOf(xs: set<int>): (m: int)
    requires xs != {}
    ensures m in xs && forall x <- xs :: m <= x
  {
    MinExists(xs);
    var m :| m in xs && forall x <- xs :: m <= x;
    m
  }

  lemma {:induction false} MinExists(xs: set<int>)
    requires xs != {}
    ensures exists m :: m in xs && forall x <- xs :: m <= x
    decreases |xs|
  {
    var a := Pick(xs);
    var rest := xs - {a};
    if rest == {} {
      assert xs == {a};
    } else {
      MinExists(rest);
      var b :| b in rest && forall x <- rest :: b <= x;
      var m := if a <= b then a else b;
      assert forall x <- xs :: x == a || x in rest;
      assert m in xs && forall x <- xs :: m <= x;
    }
  }

  /** A minimum is determined by its two defining properties. */
  lemma MinUnique(xs: set<int>, m: int)
    requires m in xs && forall x <- xs :: m <= x
    ensures m == MinOf(xs)
  {
    assert MinOf(xs) <= m;
  }
}
