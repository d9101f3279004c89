/** Types and small facts shared by the models. */
module Prelude {

  datatype Option<+T> = None | Some(value: T)

  datatype Result<+T, +E> = Ok(value: T) | Err(error: E)

  predicate Increasing(ids: seq<int>) {
    forall i, j :: 0 <= i < j < |ids| ==> ids[i] < ids[j]
  }

  lemma Pick<T>(s: set<T>) returns (x: T)
    requires s != {}
    ensures x in s
  {
    x :| x in s;
  }

  lemma {:induction false} LeastExists(s: set<int>)
    requires s != {}
    ensures exists m :: m in s && forall x :: x in s ==> m <= x
  {
    var a := Pick(s);
    if s - {a} == {} {
      assert forall x :: x in s ==> x !in s - {a} ==> x == a;
    } else {
      LeastExists(s - {a});
      var m :| m in s - {a} && forall x :: x in s - {a} ==> m <= x;
      var least := if a < m then a else m;
      forall x | x in s ensures least <= x {
        assert x == a || x in s - {a};
      }
      assert least in s;
    }
  }

  lemma {:induction false} GreatestExists(s: set<int>)
    requires s != {}
    ensures exists m :: m in s && forall x :: x in s ==> x <= m
  {
    var a := Pick(s);
    if s - {a} == {} {
      assert forall x :: x in s ==> x !in s - {a} ==> x == a;
    } else {
      GreatestExists(s - {a});
      var m :| m in s - {a} && forall x :: x in s - {a} ==> x <= m;
      var greatest := if a > m then a else m;
      forall x | x in s ensures x <= greatest {
        assert x == a || x in s - {a};
      }
      assert greatest in s;
    }
  }

  /** The elements of a finite set in increasing order, as `order by` returns them. */
  function Sorted(s: set<int>): (r: seq<int>)
    ensures Increasing(r)
    ensures forall x :: x in r <==> x in s
  {
    if s == {} then []
    else
      LeastExists(s);
      var m :| m in s && forall x :: x in s ==> m <= x;
      [m] + Sorted(s - {m})
  }
}
