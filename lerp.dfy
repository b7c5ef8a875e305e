/** The linear blend `(1 - t)·a + t·b` that both variants of the
    Time-to-Value hazard use, with the facts their proofs rest on. */
module Lerp {
  import opened RealArith

  /** `(1 - t)·a + t·b`: `a` at `t = 0`, `b` at `t = 1`. */
  function Blend(t: real, a: real, b: real): real
  {
    (1.0 - t) * a + t * b
  }

  /** The blend moves away from `a` by `t` times the gap, and falls short of
      `b` by `1 - t` times it. */
  lemma BlendOffsets(t: real, a: real, b: real)
    ensures Blend(t, a, b) - a == t * (b - a)
    ensures b - Blend(t, a, b) == (1.0 - t) * (b - a)
  {
  }

  lemma BlendEndpoints(a: real, b: real)
    ensures Blend(0.0, a, b) == a
    ensures Blend(1.0, a, b) == b
  {
  }

  lemma BlendConstant(t: real, a: real)
    ensures Blend(t, a, a) == a
  {
    BlendOffsets(t, a, a);
  }

  /** For `t` in [0, 1] the blend stays between its two endpoints. */
  lemma BlendBetween(t: real, a: real, b: real)
    requires 0.0 <= t <= 1.0
    ensures Min(a, b) <= Blend(t, a, b) <= Max(a, b)
  {
    BlendOffsets(t, a, b);
    if a <= b {
      NonNegProduct(t, b - a);
      NonNegProduct(1.0 - t, b - a);
    } else {
      BlendOffsets(1.0 - t, b, a);
      NonNegProduct(t, a - b);
      NonNegProduct(1.0 - t, a - b);
      assert Blend(t, a, b) == Blend(1.0 - t, b, a);
    }
  }

  /** The blend is monotone in `t`: rising towards a larger `b`, falling
      towards a smaller one. */
  lemma BlendMonotone(t1: real, t2: real, a: real, b: real)
    requires t1 <= t2
    ensures a <= b ==> Blend(t1, a, b) <= Blend(t2, a, b)
    ensures b <= a ==> Blend(t2, a, b) <= Blend(t1, a, b)
  {
    BlendOffsets(t1, a, b);
    BlendOffsets(t2, a, b);
    assert Blend(t2, a, b) - Blend(t1, a, b) == (t2 - t1) * (b - a);
    if a <= b {
      NonNegProduct(t2 - t1, b - a);
    } else {
      NonNegProduct(t2 - t1, a - b);
      assert (t2 - t1) * (b - a) == -((t2 - t1) * (a - b));
    }
  }

  /** `k / n` for `0 <= k <= n`, `n > 0`, is a fraction in [0, 1]. */
  lemma FractionInUnit(k: int, n: int)
    requires n > 0 && 0 <= k <= n
    ensures 0.0 <= k as real / n as real <= 1.0
  {
  }

  /** A non-zero number divided by itself is 1. */
  lemma FractionWhole(n: int)
    requires n != 0
    ensures n as real / n as real == 1.0
  {
  }

  /** For a positive `n` the quotient `k / n` grows with `k`. */
  lemma FractionMonotone(k1: int, k2: int, n: int)
    requires n > 0 && k1 <= k2
    ensures k1 as real / n as real <= k2 as real / n as real
  {
  }
}
