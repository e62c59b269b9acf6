/** Notions shared by the models. */
module Common {
  datatype Option<+T> = None | Some(value: T)

  type byte = bv8

  type bytes = seq<byte>

  /** A byte in arithmetic. */
  type octet = x: int | 0 <= x < 256

  type text = seq<octet>

  /** No element occurs twice. */
  predicate Distinct(s: seq<nat>) { forall i, j :: 0 <= i < j < |s| ==> s[i] != s[j] }

  function Pow2(n: nat): (r: nat)
    ensures r > 0
  {
    if n == 0 then 1 else 2 * Pow2(n - 1)
  }
}
