/** Small shared vocabulary: optional values, results and time. */
module Prelude {

  datatype Option<+T> = None | Some(value: T)

  datatype Result<+T, +E> = Ok(value: T) | Err(error: E)

  /** Points in time and durations, in seconds; rounding is not the point here. */
  type Time = real

  function MaxTime(a: Time, b: Time): Time { if a < b then b else a }

  function MinTime(a: Time, b: Time): Time { if a < b then a else b }

  /** A set with no element is the empty one. */
  lemma SomethingIn(s: set<int>)
    ensures s == {} || exists x :: x in s
  {
    if forall x :: x !in s {
      assert s == {};
    }
  }

  predicate Smallest(m: nat, s: set<nat>) {
    m in s && forall x :: x in s ==> m <= x
  }

  /** A nonempty set of sequences has a smallest one. */
  lemma {:induction false} SmallestExists(s: set<nat>)
    requires s != {}
    ensures exists m :: Smallest(m, s)
    decreases |s|
  {
    SomethingIn(s);
    var m :| m in s;
    var rest := s - {m};
    if rest == {} {
      assert forall x :: x in s ==> x == m || x in rest;
      assert Smallest(m, s);
    } else {
      SmallestExists(rest);
      var k :| Smallest(k, rest);
      assert forall x :: x in s ==> x == m || x in rest;
      assert Smallest(if m < k then m else k, s);
    }
  }

  /** An identifier or token nobody was given before; which one does not matter. */
  method FreshIdentifier(used: set<int>) returns (id: int)
    ensures id !in used
  {
    id := 0;
    var rest := used;
    while rest != {}
      invariant forall other :: other in used && other !in rest ==> other < id
      decreases rest
    {
      SomethingIn(rest);
      var other :| other in rest;
      rest := rest - {other};
      if other >= id {
        id := other + 1;
      }
    }
  }
}
