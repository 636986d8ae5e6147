/** Small datatypes shared by every model. */
module Basics {
  datatype Option<+T> = None | Some(value: T)

  // A database call or transaction either yields a value or fails and is rolled back.
  datatype Result<+T> = Ok(value: T) | Err

  function Min(a: int, b: int): int { if a <= b then a else b }

  function Max(a: int, b: int): int { if a <= b then b else a }

  function Pow2(n: nat): nat { if n == 0 then 1 else 2 * Pow2(n - 1) }

  lemma Largest(s: set<nat>) returns (m: nat)
    requires s != {}
    ensures m in s && forall x :: x in s ==> x <= m
  {
    m :| m in s;
    if s - {m} != {} {
      var n := Largest(s - {m});
      forall x | x in s ensures x <= Max(m, n) { assert x == m || x in s - {m}; }
      if m < n { m := n; }
    } else {
      forall x | x in s ensures x <= m { assert x == m || x in s - {m}; }
    }
  }
}
