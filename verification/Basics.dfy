// Vocabulary shared by every model here.
module Basics {

  datatype Option<+T> = None | Some(value: T)

  /** How one external call ends: a failing call may fail before or after it takes effect. */
  datatype Outcome = Succeeds | FailsBefore | FailsAfter

  function Bit(b: bool): int
  {
    if b then 1 else 0
  }

  function Min(a: int, b: int): int
  {
    if a < b then a else b
  }

  /** A number that no id of the set has reached. */
  lemma {:induction false} UnusedNat(ids: set<nat>) returns (id: nat)
    ensures forall x :: x in ids ==> x < id
    decreases |ids|
  {
    if ids == {} {
      id := 0;
    } else {
      var x :| x in ids;
      var below := UnusedNat(ids - {x});
      id := if below > x then below else x + 1;
      forall y | y in ids ensures y < id {
        assert y == x || y in ids - {x};
      }
    }
  }
}
