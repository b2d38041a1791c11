/** Scalar helpers: absolute value, numpy's `sign`, and the transcendental
    functions the module calls (`np.sqrt`, `np.arccos`, `np.pi`).

    The transcendental functions are not defined here: they are carried as
    function values in a `Transcendentals` record, and `Valid()` states the
    only facts the proofs rely on. Every operation that needs them takes the
    record as a parameter. */
module Numerics {

  function Abs(x: real): (r: real)
    ensures r >= 0.0
    ensures r == x || r == -x
  {
    if x < 0.0 then -x else x
  }

  /** numpy's `sign`: -1, 0 or 1. */
  function Sign(x: real): (r: real)
    ensures r * x == Abs(x)
    ensures r == 0.0 <==> x == 0.0
    ensures r == 1.0 || r == 0.0 || r == -1.0
    ensures x > 0.0 ==> r == 1.0
    ensures x < 0.0 ==> r == -1.0
  {
    if x > 0.0 then 1.0 else if x < 0.0 then -1.0 else 0.0
  }

  datatype Transcendentals = Transcendentals(sqrt: real -> real, arccos: real -> real, pi: real) {

    /** The axioms: `sqrt` is the non-negative square root on [0, oo), and
        `arccos` maps [-1, 1] into [0, pi] with its exact values at -1 and 1,
        and pi exceeds 3. */
    ghost predicate Valid() {
      && (forall x: real :: 0.0 <= x ==> 0.0 <= sqrt(x) && sqrt(x) * sqrt(x) == x)
      && (forall x: real :: -1.0 <= x <= 1.0 ==> 0.0 <= arccos(x) <= pi)
      && sqrt(0.0) == 0.0
      && arccos(1.0) == 0.0
      && arccos(-1.0) == pi
      && pi > 3.0
    }
  }

  /** Two non-negative numbers with the same square are equal. */
  lemma SquareRootUnique(x: real, y: real)
    requires x >= 0.0 && y >= 0.0
    requires x * x == y * y
    ensures x == y
  {
    var p := Product(x - y, x + y);
    assert p == x * x - y * y;
    if x + y == 0.0 {
      assert x == 0.0 && y == 0.0;
    } else {
      assert x + y > 0.0 && p == 0.0;
    }
  }

  /** The square root of a non-negative number is positive exactly when the
      number is. */
  lemma SqrtSign(t: Transcendentals, x: real)
    requires t.Valid()
    requires x >= 0.0
    ensures t.sqrt(x) >= 0.0 && t.sqrt(x) * t.sqrt(x) == x
    ensures x > 0.0 <==> t.sqrt(x) > 0.0
  {
    assert t.sqrt(x) * t.sqrt(x) == x;
  }

  /** The square root of a product is the product of the square roots. */
  lemma SqrtOfProduct(t: Transcendentals, a: real, b: real)
    requires t.Valid()
    requires a >= 0.0 && b >= 0.0
    ensures t.sqrt(a * b) == t.sqrt(a) * t.sqrt(b)
  {
    var p, q := t.sqrt(a), t.sqrt(b);
    assert 0.0 <= a * b;
    assert (p * q) * (p * q) == (p * p) * (q * q);
    SquareRootUnique(t.sqrt(a * b), p * q);
  }

  /** The square root of a square is the absolute value. */
  lemma SqrtOfSquare(t: Transcendentals, x: real)
    requires t.Valid()
    ensures t.sqrt(x * x) == Abs(x)
  {
    assert 0.0 <= x * x;
    SquareRootUnique(t.sqrt(x * x), Abs(x));
  }

  /** Scaling a non-negative number by `k * k` scales its square root by |k|. */
  lemma SqrtOfScaled(t: Transcendentals, k: real, d: real, e: real)
    requires t.Valid()
    requires d >= 0.0
    requires e == (k * k) * d
    ensures t.sqrt(e) == Abs(k) * t.sqrt(d)
  {
    var kk := Square(k);
    assert e == kk * d;
    SqrtOfProduct(t, kk, d);
    SqrtOfSquare(t, k);
  }

  /** With a positive factor `b`, a product `a * b` is zero exactly when `a` is. */
  lemma ZeroProduct(a: real, b: real, c: real)
    requires b > 0.0
    requires a * b == c
    ensures a == 0.0 <==> c == 0.0
  {
  }

  /** The product form of Cauchy-Schwarz turned into a bound on the cosine:
      from |u|^2 |v|^2 = (u.v)^2 + c with `c >= 0`, the quotient
      `(u.v) / (|u| |v|)` lies in [-1, 1]. The product `m` of the norms is
      passed on its own so that the conclusion is stated on it directly. */
  lemma CosineBound(a: real, nu: real, nv: real, m: real, c: real)
    requires nu > 0.0 && nv > 0.0 && m == nu * nv
    requires (nu * nu) * (nv * nv) == a * a + c
    requires c >= 0.0
    ensures m > 0.0
    ensures -1.0 <= a / m <= 1.0
  {
    var p := Product(nu, nv);
    assert m * m == (nu * nu) * (nv * nv);
    SquareBound(a, m);
    QuotientBound(a, m);
  }

  /** When the Cauchy-Schwarz slack is zero (`du * dv = a * a` for the squared
      lengths `du = nu * nu`, `dv = nv * nv`) the cosine `c` with `a = c * m`,
      `m = nu * nv`, is 1 or -1. */
  lemma CosineExtreme(a: real, nu: real, nv: real, du: real, dv: real, m: real, c: real)
    requires nu > 0.0 && nv > 0.0 && m == nu * nv
    requires du == nu * nu && dv == nv * nv
    requires a == c * m
    requires du * dv == a * a
    ensures c == 1.0 || c == -1.0
  {
    var p := Product(nu, nv);
    var mm := Square(m);
    var cc := Square(c);
    assert mm == du * dv;
    assert a * a == cc * mm;
    assert cc * mm == 1.0 * mm;
    CancelFactor(cc, 1.0, mm);
    var d := Product(c - 1.0, c + 1.0);
    assert d == cc - 1.0;
  }

  /** The absolute value of `k` times a square root of `d`, times that root
      again, is the absolute value of `k * d`. */
  lemma ScaledRoot(k: real, n: real, d: real)
    requires n >= 0.0 && n * n == d
    ensures (Abs(k) * n) * n == Abs(k * d)
  {
    assert (Abs(k) * n) * n == Abs(k) * (n * n);
    ProductOfAbs(k, d);
  }

  /** A length `x = |a / d| n`, with `n` the root of `d > 0`, times `n` is
      `|a|`. */
  lemma ScaledLength(k: real, n: real, d: real, a: real, x: real)
    requires n >= 0.0 && n * n == d && d > 0.0
    requires k == a / d && x == Abs(k) * n
    ensures x * n == Abs(a)
  {
    ScaledRoot(k, n, d);
    assert k * d == a;
  }

  /** `a * a <= b * b` with `b` non-negative bounds `a` by `b` in absolute value. */
  lemma SquareBound(a: real, b: real)
    requires b >= 0.0
    requires a * a <= b * b
    ensures -b <= a <= b
  {
    var d := Product(a - b, a + b);
    assert d == a * a - b * b;
  }

  /** The product `a * b` with its sign. The result is returned as a value so
      that callers hold the sign fact about a name rather than about a
      product expression. */
  lemma Product(a: real, b: real) returns (p: real)
    ensures p == a * b
    ensures (a > 0.0 && b > 0.0) || (a < 0.0 && b < 0.0) ==> p > 0.0
    ensures (a >= 0.0 && b >= 0.0) || (a <= 0.0 && b <= 0.0) ==> p >= 0.0
    ensures (a > 0.0 && b < 0.0) || (a < 0.0 && b > 0.0) ==> p < 0.0
  {
    p := a * b;
  }

  /** A common factor of a difference of two products comes out. */
  lemma ScaledDifference(k: real, p: real, q: real, r: real, s: real, scaled: real, plain: real)
    requires scaled == (k * p) * q - (k * r) * s
    requires plain == p * q - r * s
    ensures scaled == k * plain
  {
    assert (k * p) * q == k * (p * q);
    assert (k * r) * s == k * (r * s);
  }

  /** A square is non-negative, and positive unless its root is zero. */
  lemma Square(a: real) returns (p: real)
    ensures p == a * a
    ensures p >= 0.0
    ensures a != 0.0 ==> p > 0.0
  {
    p := Product(a, a);
  }

  lemma QuotientBound(a: real, m: real)
    requires m > 0.0
    requires -m <= a <= m
    ensures -1.0 <= a / m <= 1.0
  {
  }

  lemma QuotientOfMultiple(a: real, c: real, m: real)
    requires m != 0.0
    requires a == c * m
    ensures a / m == c
  {
  }

  lemma ProductOfAbs(k: real, n: real)
    requires n >= 0.0
    ensures Abs(k) * n == Abs(k * n)
  {
  }

  lemma QuotientTimes(a: real, m: real)
    requires m != 0.0
    ensures (a / m) * m == a
  {
  }

  lemma CancelFactor(a: real, b: real, m: real)
    requires m != 0.0
    requires a * m == b * m
    ensures a == b
  {
    var d := Product(a - b, m);
    assert d == a * m - b * m;
  }

  /** Scaling by `1 / n` for a positive root `n` of `d`. */
  lemma UnitScale(k: real, n: real, d: real)
    requires n > 0.0 && n * n == d && k == 1.0 / n
    ensures Abs(k) * n == 1.0
    ensures k * d == n
  {
    assert k * n == 1.0;
    assert k * d == (k * n) * n;
  }

  /** Square roots are monotone: of two non-negative roots, the one with the
      larger square is the larger. */
  lemma RootMonotone(x: real, y: real, dx: real, dy: real)
    requires x >= 0.0 && y >= 0.0
    requires x * x == dx && y * y == dy
    requires dx >= dy
    ensures x >= y
  {
    var p := Product(y - x, y + x);
    assert p == dy - dx;
  }

  /** The product of the roots of `dr` and `dv` is the root of `dr * dv`. */
  lemma RootOfProduct(nr: real, nv: real, nc: real, dr: real, dv: real, dc: real)
    requires nr >= 0.0 && nv >= 0.0 && nc >= 0.0
    requires nr * nr == dr && nv * nv == dv && nc * nc == dc
    requires dr * dv == dc
    ensures nr * nv == nc
  {
    var p := Product(nr, nv);
    assert p * p == dr * dv;
    SquareRootUnique(p, nc);
  }

  /** Dividing by a positive `n` and taking the absolute value commute. */
  lemma AbsScaledQuotient(k: real, n: real, a: real)
    requires n > 0.0 && k == 1.0 / n
    ensures Abs(k * a) * n == Abs(a)
  {
    assert k > 0.0;
    assert k * n == 1.0;
    ProductOfAbs(a, k);
    assert Abs(k * a) == Abs(a) * k;
  }

  /** Multiplying by a positive factor keeps the sign. */
  lemma SignOfPositiveMultiple(k: real, a: real)
    requires k > 0.0
    ensures Sign(k * a) == Sign(a)
  {
    var p := Product(k, a);
  }

  /** Scaling `a` by its own sign `s` gives `|a|`; when `|a| m == |b|` for a
      positive `m`, the sign is a unit exactly when `b` is non-zero. */
  lemma SignScaling(a: real, s: real, m: real, b: real, x: real)
    requires s == Sign(a) && x == s * a
    requires m > 0.0
    requires Abs(a) * m == Abs(b)
    ensures x >= 0.0
    ensures x * m == Abs(b)
    ensures b != 0.0 ==> Abs(s) == 1.0
    ensures b == 0.0 ==> s == 0.0
  {
    ZeroProduct(Abs(a), m, Abs(b));
  }

  /** `a * sign(x)`: the magnitude `a` with the sign of `x`, or zero when `x`
      is zero. */
  function Signed(a: real, x: real): (r: real)
    ensures x > 0.0 ==> r == a
    ensures x < 0.0 ==> r == -a
    ensures x == 0.0 ==> r == 0.0
  {
    a * Sign(x)
  }
}
