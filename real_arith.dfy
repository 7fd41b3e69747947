/** Small facts about multiplying and comparing reals, stated once so that
    the proofs about weights and ratios do not ask the solver for
    non-linear reasoning. */
module RealArith {

  lemma ScaleStrict(u: real, v: real, d: real)
    requires u < v && d > 0.0
    ensures u * d < v * d
  {
  }

  lemma ScaleMonotone(w: real, x: real, y: real)
    requires w >= 0.0 && x <= y
    ensures w * x <= w * y
  {
  }

  lemma CancelPositive(u: real, v: real, d: real)
    requires d > 0.0 && u * d >= v * d
    ensures u >= v
  {
    if u < v {
      ScaleStrict(u, v, d);
    }
  }

  /** A quotient `q` of `total` by a positive `d` exceeds `c` exactly when
      `c * d` is below `total`. */
  lemma QuotientAbove(q: real, d: real, total: real, c: real)
    requires d > 0.0 && q * d == total
    ensures (q > c) <==> (c * d < total)
  {
    if q > c {
      QuotientAboveImplies(q, d, total, c);
    } else {
      QuotientAtMostImplies(q, d, total, c);
    }
  }

  lemma QuotientAboveImplies(q: real, d: real, total: real, c: real)
    requires d > 0.0 && q * d == total && q > c
    ensures c * d < total
  {
    ScaleStrict(c, q, d);
  }

  lemma QuotientAtMostImplies(q: real, d: real, total: real, c: real)
    requires d > 0.0 && q * d == total && q <= c
    ensures total <= c * d
  {
    ScaleMonotone(d, q, c);
  }

  /** Quotients of one non-negative total by two ordered positive
      denominators are in the opposite order. */
  lemma InverseOrder(total: real, di: real, dj: real, wi: real, wj: real)
    requires 0.0 < di <= dj && wj >= 0.0
    requires wi * di == total && wj * dj == total
    ensures wi >= wj
  {
    ScaleMonotone(wj, di, dj);
    CancelPositive(wi, wj, di);
  }

  /** One more share `q` on top of `a` shares. */
  lemma OneMoreShare(a: real, q: real)
    ensures (a + 1.0) * q == a * q + q
  {
  }

  /** A product of three reals regrouped. */
  lemma Regroup(w: real, k: real, n: real)
    ensures w * (k * n) == (n * w) * k
  {
  }

  /** The quotient of `t` by a positive `k` is the `x` with `x * k == t`. */
  lemma QuotientUnique(x: real, k: real, t: real)
    requires k > 0.0 && x * k == t
    ensures x == t / k
  {
  }

  /** Multiplying a quotient back by its divisor. */
  lemma TimesQuotient(k: real, t: real)
    requires k > 0.0
    ensures k * (t / k) == t
  {
  }

  lemma PositiveProduct(a: real, b: real)
    requires a > 0.0 && b > 0.0
    ensures a * b > 0.0
  {
    ScaleStrict(0.0, a, b);
  }

  /** Converting a product of naturals to a real multiplies the conversions. */
  lemma CastProduct(a: nat, b: nat)
    ensures (a * b) as real == (a as real) * (b as real)
  {
  }

  /** Two quotients of one total by `a * ni` and `a * nj`, with `ni <= nj`,
      are in the opposite order. */
  lemma InverseCounts(a: nat, ni: nat, nj: nat, total: real, wi: real, wj: real)
    requires a > 0 && 0 < ni <= nj && wj >= 0.0
    requires wi * ((a * ni) as real) == total && wj * ((a * nj) as real) == total
    ensures wi >= wj
  {
    CastProduct(a, ni);
    CastProduct(a, nj);
    ScaleMonotone(a as real, ni as real, nj as real);
    PositiveProduct(a as real, ni as real);
    InverseOrder(total, (a * ni) as real, (a * nj) as real, wi, wj);
  }

  /** A quotient of `t` by `a * n` exceeds 1 exactly when `a * n` is below `t`. */
  lemma QuotientAboveOne(a: nat, n: nat, t: nat, w: real)
    requires a > 0 && n > 0 && w * ((a * n) as real) == t as real
    ensures w > 1.0 <==> a * n < t
  {
    CastProduct(a, n);
    PositiveProduct(a as real, n as real);
    QuotientAbove(w, (a * n) as real, t as real, 1.0);
  }
}
