// Small arithmetic shared by the envelope, delay, effect-chain, stream,
// timing and interleaving models: clamps, the minimum of two counts,
// monotonicity of products and uniqueness of Euclidean division.
module Arith {
  /** A clamp to [0, 1], as `clamp(0.0, 1.0)` or `max(0.0).min(1.0)`. */
  function Clamp01(x: real): (r: real)
    ensures 0.0 <= r <= 1.0
    ensures 0.0 <= x <= 1.0 ==> r == x
    ensures x < 0.0 ==> r == 0.0
    ensures x > 1.0 ==> r == 1.0
  {
    if x < 0.0 then 0.0 else if x > 1.0 then 1.0 else x
  }

  /** The smaller of two counts, as `usize::min`. */
  function MinNat(a: nat, b: nat): (r: nat)
    ensures r <= a && r <= b && (r == a || r == b)
  {
    if a <= b then a else b
  }

  /** Quotient and remainder are unique: any q, r with a == q * len + r and 0 <= r < len are them. */
  lemma DivModUnique(a: int, q: int, r: int, len: int)
    requires len > 0 && 0 <= r < len && a == q * len + r
    ensures a / len == q && a % len == r
  {
    var q' := a / len;
    var r' := a % len;
    assert (q - q') * len == r' - r;
    if q > q' {
      MulAtLeast(q - q', len);
    } else if q < q' {
      MulAtLeast(q' - q, len);
    }
  }

  /** n steps of size s are n - 1 steps and one more. */
  lemma MulSucc(n: nat, s: real)
    requires n >= 1
    ensures n as real * s == (n - 1) as real * s + s
  {
  }

  /** Multiplying by a non-negative count keeps the order of two counts. */
  lemma MulMono(a: nat, b: nat, n: nat)
    requires a <= b
    ensures a * n <= b * n
  {
    var d := b - a;
    assert b * n == a * n + d * n;
  }

  /** Multiplying by a positive length keeps the order of two counts. */
  lemma RealMulMono(m: nat, n: nat, d: real)
    requires m <= n && d > 0.0
    ensures m as real * d <= n as real * d
  {
    assert n as real * d - m as real * d == (n - m) as real * d;
  }

  lemma MulAtLeast(k: int, n: int)
    requires k >= 1 && n > 0
    ensures k * n >= n
  {
    assert k * n == (k - 1) * n + n;
  }
}
