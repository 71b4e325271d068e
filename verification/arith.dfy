/** Repeated addition, and the facts about real products that the solver
    does not find on its own. */
module Arith {

  /** The sign of a product of a non-negative and a positive factor. */
  lemma ProductSign(u: real, a: real)
    requires 0.0 <= u && 0.0 < a
    ensures 0.0 <= u * a
    ensures 0.0 < u ==> 0.0 < u * a
  {
  }

  /** `v` added up `k` times. */
  function Times(k: nat, v: real): real {
    if k == 0 then 0.0 else Times(k - 1, v) + v
  }

  /** Adding up `v` k times is the product k * v. */
  lemma {:induction false} TimesIsProduct(k: nat, v: real)
    ensures Times(k, v) == k as real * v
  {
    if k > 0 {
      TimesIsProduct(k - 1, v);
      assert k as real * v == (k - 1) as real * v + v;
    }
  }

  /** Adding up `v` m + n times is adding it up m times, then n times. */
  lemma {:induction false} TimesAdd(m: nat, n: nat, v: real)
    ensures Times(m + n, v) == Times(m, v) + Times(n, v)
  {
    if n > 0 {
      TimesAdd(m, n - 1, v);
    }
  }

  /** Dividing by a non-zero divisor and multiplying back gives the dividend. */
  lemma QuotientTimesDivisor(a: real, m: real)
    requires m != 0.0
    ensures m * (a / m) == a
  {
  }
}
