/** Failure-carrying types and machine integers shared by the whole model. */
module Wrappers {

  datatype Option<+T> = None | Some(value: T)

  /** An operation that returns, or the exception it throws instead. */
  datatype Result<+T, +E> = Ok(value: T) | Err(error: E)

  const TWO_64: int := 0x1_0000_0000_0000_0000

  /** `uint64_t`. Every arithmetic operation on this type is checked not to leave the
      range, so a model written in it is a model in which nothing wraps. */
  newtype uint64 = x: int | 0 <= x < 0x1_0000_0000_0000_0000

  function Min64(a: uint64, b: uint64): (r: uint64)
    ensures r <= a && r <= b && (r == a || r == b)
  {
    if a < b then a else b
  }

  function Min(a: int, b: int): int { if a < b then a else b }

  /** `n * k`, kept out of the solver's nonlinear arithmetic. */
  function Times(n: nat, k: nat): nat {
    if n == 0 then 0 else Times(n - 1, k) + k
  }

  lemma {:induction false} TimesIsProduct(n: nat, k: nat)
    ensures Times(n, k) == n * k
  {
    if n > 0 { TimesIsProduct(n - 1, k); }
  }

  lemma {:induction false} TimesAdds(m: nat, n: nat, k: nat)
    ensures Times(m + n, k) == Times(m, k) + Times(n, k)
  {
    if n > 0 { TimesAdds(m, n - 1, k); }
  }

  lemma {:induction false} TimesMonotone(m: nat, n: nat, k: nat)
    requires m <= n
    ensures Times(m, k) <= Times(n, k)
  {
    TimesAdds(m, n - m, k);
  }

  lemma {:induction false} QuotientRange(room: nat, k: nat)
    requires k > 0
    ensures Times(room / k, k) <= room < Times(room / k + 1, k)
  {
    TimesIsProduct(room / k, k);
  }

  /** Checking a product by division decides whether it fits. */
  lemma {:induction false} QuotientFits(n: nat, k: nat, room: nat)
    requires k > 0
    ensures n <= room / k <==> Times(n, k) <= room
  {
    var q := room / k;
    QuotientRange(room, k);
    if n <= q { TimesMonotone(n, q, k); } else { TimesMonotone(q + 1, n, k); }
  }
}
