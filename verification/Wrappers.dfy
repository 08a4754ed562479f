/** Optional values, results with an error, and unused numbers. */
module Wrappers {
  datatype Option<+T> = None | Some(value: T)

  datatype Result<+T, +E> = Ok(value: T) | Err(error: E)

  lemma UnusedNumber(used: set<nat>) returns (n: nat)
    ensures n !in used
  {
    n := 0;
    var rest := used;
    while rest != {}
      invariant rest <= used && forall x :: x in used && x !in rest ==> x < n
    {
      var x :| x in rest;
      n := if x < n then n else x + 1;
      rest := rest - {x};
    }
  }
}
