/** Small facts of integer arithmetic the layout proofs share. */
module Arith {

  /** Multiplying by a non-negative factor keeps the order. */
  lemma MulMono(a: int, b: int, m: int)
    requires a <= b && m >= 0
    ensures a * m <= b * m
  {
  }

  /** The only multiple of `m` strictly between `-m` and `m` is 0. */
  lemma MulSmall(k: int, m: int)
    requires m > 0 && -m < k * m < m
    ensures k == 0
  {
    if k >= 1 {
      MulMono(1, k, m);
      assert false;
    } else if k <= -1 {
      MulMono(k, -1, m);
      assert false;
    }
  }

  /** Division by a positive `m` recovers quotient and remainder. */
  lemma DivUnique(q: int, t: int, m: int)
    requires m > 0 && 0 <= t < m
    ensures (q * m + t) / m == q && (q * m + t) % m == t
  {
    var a := q * m + t;
    var q' := a / m;
    assert q' * m + a % m == a;
    assert (q' - q) * m == t - a % m;
    MulSmall(q' - q, m);
  }

  /** Flooring by `a` then by `b` is flooring by `a * b`. */
  lemma DivDiv(v: int, a: int, b: int)
    requires a > 0 && b > 0
    ensures (v / a) / b == v / (a * b)
  {
    var t, r := v / a, v % a;
    var c, s := t / b, t % b;
    assert v == (c * b + s) * a + r;
    MulMono(s, b - 1, a);
    assert (c * b + s) * a == c * (a * b) + s * a;
    DivUnique(c, s * a + r, a * b);
  }

  /** The floor of `v / m` is the multiple of `m` at or just below `v`. */
  lemma FloorBounds(v: int, m: int)
    requires m > 0
    ensures (v / m) * m <= v < (v / m + 1) * m
  {
    assert v == (v / m) * m + v % m;
    assert (v / m + 1) * m == (v / m) * m + m;
  }
}
