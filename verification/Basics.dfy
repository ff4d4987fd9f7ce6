/** Small vocabulary shared by every component: optional values, results, and the
    decimal helpers the services use. */
module Basics {

  datatype Option<+T> = None | Some(value: T)

  datatype Result<+T, +E> = Ok(value: T) | Err(error: E)

  // Quantities at or below this magnitude count as nothing.
  const EPSILON: real := 0.000000001

  function Abs(x: real): real {
    if x < 0.0 then -x else x
  }

  function Max(x: real, y: real): real {
    if x < y then y else x
  }

  function Min(x: real, y: real): real {
    if y < x then y else x
  }

  lemma ProductSign(x: real, y: real)
    requires x >= 0.0 && y >= 0.0
    ensures x * y >= 0.0
  {
  }

  // A product is bounded by the bound on its left factor.
  lemma ScaledBound(d: real, bound: real, x: real)
    requires Abs(d) <= bound
    ensures Abs(d * x) <= bound * Abs(x)
  {
    ProductSign(bound - d, Abs(x));
    ProductSign(bound + d, Abs(x));
    assert (bound - d) * Abs(x) == bound * Abs(x) - d * Abs(x);
    assert (bound + d) * Abs(x) == bound * Abs(x) + d * Abs(x);
    assert d * x == d * Abs(x) || d * x == -(d * Abs(x));
  }

  lemma AnyMember<T>(s: set<T>) returns (x: T)
    requires s != {}
    ensures x in s
  {
    x :| x in s;
  }
}
