/** The two result shapes every other module uses. */
module Common {

  /** A nullable value: Go's nil pointer, or SQL's NULL, is `None`. */
  datatype Option<+T> = None | Some(value: T)

  /** A value or an error: Go's `(T, error)` pair. */
  datatype Result<+T, +E> = Ok(value: T) | Err(error: E)

  /** The integers from `lo` to `hi`. */
  function Interval(lo: int, hi: int): (s: set<int>)
    ensures forall v :: v in s <==> lo <= v <= hi
    decreases hi - lo + 1
  {
    if hi < lo then {} else Interval(lo, hi - 1) + {hi}
  }

  lemma {:induction false} IntervalSize(lo: int, hi: int)
    requires lo <= hi + 1
    ensures |Interval(lo, hi)| == hi - lo + 1
    decreases hi - lo + 1
  {
    if hi < lo {
    } else {
      IntervalSize(lo, hi - 1);
    }
  }

  /** `m` is in the set and comes no later than any other element. */
  ghost predicate Leads<T(!new)>(m: T, s: set<T>, order: (T, T) -> bool) {
    m in s && forall x :: x in s ==> order(m, x)
  }

  /** A finite nonempty set has a first element in any total order. */
  lemma {:induction false} FirstExists<T(!new)>(s: set<T>, order: (T, T) -> bool)
    requires s != {}
    requires forall x, y :: x in s && y in s ==> order(x, y) || order(y, x)
    requires forall x, y, z :: x in s && y in s && z in s && order(x, y) && order(y, z) ==> order(x, z)
    ensures exists m :: Leads(m, s, order)
  {
    assert exists x :: x in s by {
      if forall x :: x !in s {
        assert false;
      }
    }
    var x :| x in s;
    var rest := s - {x};
    assert forall z :: z in s ==> z == x || z in rest;
    if rest == {} {
      assert Leads(x, s, order);
    } else {
      FirstExists(rest, order);
      var y :| Leads(y, rest, order);
      assert Leads(if order(y, x) then y else x, s, order);
    }
  }
}
