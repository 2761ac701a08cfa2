/** Vector arithmetic over the reals. The square root is a parameter known by its square. */
module Vectors {
  import opened Options

  type Vector = seq<real>

  type Sqrt = real -> real

  ghost predicate IsSqrt(sqrt: Sqrt) { forall x :: x >= 0.0 ==> sqrt(x) >= 0.0 && sqrt(x) * sqrt(x) == x }

  lemma Root(sqrt: Sqrt, x: real)
    requires IsSqrt(sqrt) && x >= 0.0
    ensures sqrt(x) >= 0.0 && sqrt(x) * sqrt(x) == x
    ensures sqrt(x) == 0.0 <==> x == 0.0
  {
    var m := sqrt(x);
    var mm := m * m;
    Square(m, mm);
    ZeroSum(0.0, m, mm);
  }

  /** The sum of products over the first `n` coordinates. */
  function Dot(a: Vector, b: Vector, n: nat): real
    requires n <= |a| && n <= |b|
  {
    if n == 0 then 0.0 else Dot(a, b, n - 1) + a[n - 1] * b[n - 1]
  }

  function SumOfSquares(a: Vector): real { Dot(a, a, |a|) }

  lemma {:induction false} SquaresAreNonNegative(a: Vector, n: nat)
    requires n <= |a|
    ensures Dot(a, a, n) >= 0.0
    ensures Dot(a, a, n) == 0.0 ==> forall i :: 0 <= i < n ==> a[i] == 0.0
  {
    if n > 0 {
      SquaresAreNonNegative(a, n - 1);
      var p := a[n - 1];
      var pp := p * p;
      Square(p, pp);
      ZeroSum(Dot(a, a, n - 1), p, pp);
    }
  }

  lemma ZeroSum(d: real, p: real, pp: real)
    requires d >= 0.0 && pp >= 0.0 && (p != 0.0 ==> pp > 0.0)
    ensures d + pp == 0.0 ==> d == 0.0 && p == 0.0
  {
  }

  lemma Square(p: real, pp: real)
    requires pp == p * p
    ensures pp >= 0.0
    ensures p != 0.0 ==> pp > 0.0
  {
    if p > 0.0 { PositiveFactor(p, p); }
    if p < 0.0 {
      PositiveFactor(-p, -p);
      assert (-p) * (-p) == p * p;
    }
  }

  // ---- Cauchy-Schwarz ----

  /** The sum of (t a - s b)^2, multiplied out. */
  lemma {:induction false} QuadraticForm(a: Vector, b: Vector, s: real, t: real, n: nat)
    requires n <= |a| && n <= |b|
    ensures t * t * Dot(a, a, n) - 2.0 * t * s * Dot(a, b, n) + s * s * Dot(b, b, n) >= 0.0
  {
    if n > 0 {
      QuadraticForm(a, b, s, t, n - 1);
      var p, q := a[n - 1], b[n - 1];
      OneMoreSquare(s, t, p, q);
      Distribute(t * t, Dot(a, a, n - 1), p * p);
      Distribute(2.0 * t * s, Dot(a, b, n - 1), p * q);
      Distribute(s * s, Dot(b, b, n - 1), q * q);
    }
  }

  lemma OneMoreSquare(s: real, t: real, p: real, q: real)
    ensures t * t * (p * p) - 2.0 * t * s * (p * q) + s * s * (q * q) >= 0.0
  {
    var d := t * p - s * q;
    Square(d, d * d);
    assert d * d == t * t * (p * p) - 2.0 * t * s * (p * q) + s * s * (q * q);
  }

  lemma Distribute(k: real, x: real, y: real)
    ensures k * (x + y) == k * x + k * y
  {
  }

  lemma CauchySchwarz(a: Vector, b: Vector, n: nat)
    requires n <= |a| && n <= |b|
    ensures Dot(a, b, n) * Dot(a, b, n) <= Dot(a, a, n) * Dot(b, b, n)
  {
    var x, y, z := Dot(a, a, n), Dot(b, b, n), Dot(a, b, n);
    SquaresAreNonNegative(a, n);
    SquaresAreNonNegative(b, n);
    if y == 0.0 {
      ZeroDot(a, b, n);
    } else {
      QuadraticForm(a, b, z, y, n);
      Discriminant(x, y, z);
    }
  }

  lemma Discriminant(x: real, y: real, z: real)
    requires y > 0.0 && y * y * x - 2.0 * y * z * z + z * z * y >= 0.0
    ensures z * z <= x * y
  {
    assert y * y * x - 2.0 * y * z * z + z * z * y == y * (x * y - z * z);
    PositiveFactor(y, x * y - z * z);
  }

  lemma {:induction false} ZeroDot(a: Vector, b: Vector, n: nat)
    requires n <= |a| && n <= |b| && Dot(b, b, n) == 0.0
    ensures Dot(a, b, n) == 0.0
  {
    SquaresAreNonNegative(b, n);
    if n > 0 {
      SquaresAreNonNegative(b, n - 1);
      assert b[n - 1] == 0.0;
      ZeroDot(a, b, n - 1);
    }
  }

  lemma PositiveFactor(y: real, w: real)
    requires y > 0.0
    ensures y * w >= 0.0 ==> w >= 0.0
    ensures y * w == 0.0 <==> w == 0.0
    ensures w > 0.0 ==> y * w > 0.0
  {
    if w < 0.0 { assert y * (-w) > 0.0; }
  }

  // ---- cosine similarity ----

  function Quotient(z: real, na: real, nb: real): real
    requires na != 0.0 && nb != 0.0
  {
    NonZeroProduct(na, nb);
    z / (na * nb)
  }

  /** None is the error on vectors of different length. */
  function Cosine(sqrt: Sqrt, a: Vector, b: Vector): Option<real> {
    if |a| != |b| then None
    else
      var na, nb := sqrt(SumOfSquares(a)), sqrt(SumOfSquares(b));
      if na == 0.0 || nb == 0.0 then Some(0.0)
      else Some(Quotient(Dot(a, b, |a|), na, nb))
  }

  lemma NonZeroProduct(x: real, y: real)
    ensures x != 0.0 && y != 0.0 ==> x * y != 0.0
  {
    if x > 0.0 { PositiveFactor(x, y); }
    if x < 0.0 {
      PositiveFactor(-x, y);
      assert (-x) * y == -(x * y);
    }
  }

  lemma LargerSquare(z: real, m: real)
    requires m > 0.0
    ensures z > m ==> z * z > m * m
  {
    if z > m {
      PositiveFactor(z - m, z + m);
      assert (z - m) * (z + m) == z * z - m * m;
    }
  }

  lemma Squeeze(z: real, na: real, nb: real)
    requires na > 0.0 && nb > 0.0 && z * z <= (na * na) * (nb * nb)
    ensures -1.0 <= Quotient(z, na, nb) <= 1.0
  {
    var m := na * nb;
    PositiveFactor(na, nb);
    ProductOfSquares(na, nb);
    LargerSquare(z, m);
    LargerSquare(-z, m);
    assert (-z) * (-z) == z * z;
    var q := z / m;
    assert q * m == z;
    assert (1.0 - q) * m == m - z && (q + 1.0) * m == z + m;
    PositiveFactor(m, 1.0 - q);
    PositiveFactor(m, q + 1.0);
  }

  lemma ProductOfSquares(x: real, y: real)
    ensures (x * y) * (x * y) == (x * x) * (y * y)
  {
  }

  /** Similarity is defined for all vectors of equal length and lies between -1 and 1. */
  lemma CosineIsBounded(sqrt: Sqrt, a: Vector, b: Vector)
    requires IsSqrt(sqrt) && |a| == |b|
    ensures Cosine(sqrt, a, b).Some? && -1.0 <= Cosine(sqrt, a, b).value <= 1.0
  {
    var n := |a|;
    var x, y, z := SumOfSquares(a), SumOfSquares(b), Dot(a, b, n);
    SquaresAreNonNegative(a, n);
    SquaresAreNonNegative(b, n);
    var na, nb := sqrt(x), sqrt(y);
    if na != 0.0 && nb != 0.0 {
      CauchySchwarz(a, b, n);
      Squeeze(z, na, nb);
    }
  }

  /** What the similarity is: the dot product over the two norms, zero against a zero vector, one
      against itself, minus one against its opposite. */
  lemma CosineIs(sqrt: Sqrt, a: Vector, b: Vector)
    requires IsSqrt(sqrt) && |a| == |b|
    ensures Cosine(sqrt, a, b).Some?
    ensures (exists i :: 0 <= i < |a| && a[i] != 0.0) && (exists i :: 0 <= i < |b| && b[i] != 0.0) ==>
              Cosine(sqrt, a, b).value * (sqrt(SumOfSquares(a)) * sqrt(SumOfSquares(b))) == Dot(a, b, |a|)
    ensures (forall i :: 0 <= i < |a| ==> a[i] == 0.0) || (forall i :: 0 <= i < |b| ==> b[i] == 0.0) ==>
              Cosine(sqrt, a, b) == Some(0.0)
  {
    SquaresAreNonNegative(a, |a|);
    SquaresAreNonNegative(b, |b|);
    ZeroVector(a, |a|);
    ZeroVector(b, |b|);
    Root(sqrt, SumOfSquares(a));
    Root(sqrt, SumOfSquares(b));
    var na, nb := sqrt(SumOfSquares(a)), sqrt(SumOfSquares(b));
    if na != 0.0 && nb != 0.0 { QuotientTimes(Dot(a, b, |a|), na, nb); }
  }

  lemma QuotientTimes(z: real, na: real, nb: real)
    requires na != 0.0 && nb != 0.0
    ensures Quotient(z, na, nb) * (na * nb) == z
  {
    NonZeroProduct(na, nb);
  }

  lemma CosineOfSelf(sqrt: Sqrt, v: Vector)
    requires IsSqrt(sqrt) && exists i :: 0 <= i < |v| && v[i] != 0.0
    ensures Cosine(sqrt, v, v) == Some(1.0)
  {
    SquaresAreNonNegative(v, |v|);
    Root(sqrt, SumOfSquares(v));
    SelfQuotient(sqrt(SumOfSquares(v)), SumOfSquares(v));
  }

  lemma SelfQuotient(m: real, x: real)
    requires m != 0.0 && x == m * m
    ensures Quotient(x, m, m) == 1.0
  {
    Square(m, x);
    OverItself(x);
  }

  lemma OverItself(y: real)
    requires y != 0.0
    ensures y / y == 1.0
  {
  }

  function Opposite(v: Vector): Vector { seq(|v|, i requires 0 <= i < |v| => -v[i]) }

  lemma {:induction false} DotOfOpposite(a: Vector, b: Vector, n: nat)
    requires n <= |a| && n <= |b|
    ensures Dot(a, Opposite(b), n) == -Dot(a, b, n) && Dot(Opposite(b), Opposite(b), n) == Dot(b, b, n)
  {
    if n > 0 {
      DotOfOpposite(a, b, n - 1);
      NegatedProducts(a[n - 1], b[n - 1]);
    }
  }

  lemma NegatedProducts(x: real, y: real)
    ensures x * (-y) == -(x * y) && (-y) * (-y) == y * y
  {
  }

  /** Turning a vector round turns its similarity to everything round. */
  lemma CosineOfOpposite(sqrt: Sqrt, a: Vector, b: Vector)
    requires IsSqrt(sqrt) && |a| == |b|
    ensures Cosine(sqrt, a, b).Some? && Cosine(sqrt, a, Opposite(b)) == Some(-Cosine(sqrt, a, b).value)
  {
    DotOfOpposite(a, b, |a|);
    DotOfOpposite(b, b, |b|);
    var na, nb := sqrt(SumOfSquares(a)), sqrt(SumOfSquares(b));
    assert SumOfSquares(Opposite(b)) == SumOfSquares(b);
    if na != 0.0 && nb != 0.0 { NegatedQuotient(Dot(a, b, |a|), na, nb); }
  }

  lemma NegatedQuotient(z: real, na: real, nb: real)
    requires na != 0.0 && nb != 0.0
    ensures Quotient(-z, na, nb) == -Quotient(z, na, nb)
  {
    NonZeroProduct(na, nb);
  }

  /** The vector with a one at `i` and zeros elsewhere. */
  function Unit(n: nat, i: nat): Vector { seq(n, j => if j == i then 1.0 else 0.0) }

  /** Coordinates read off by the dot product. */
  lemma {:induction false} DotPicks(a: Vector, i: nat, n: nat)
    requires n <= |a|
    ensures Dot(a, Unit(|a|, i), n) == if i < n then a[i] else 0.0
    ensures Dot(Unit(|a|, i), a, n) == if i < n then a[i] else 0.0
  {
    if n > 0 { DotPicks(a, i, n - 1); }
  }

  /** It is symmetric, and additive in each argument. */
  lemma {:induction false} DotIsBilinear(a: Vector, b: Vector, c: Vector, n: nat)
    requires n <= |a| && n <= |b| && |b| == |c|
    ensures Dot(a, b, n) == Dot(b, a, n)
    ensures Dot(a, Sum(b, c), n) == Dot(a, b, n) + Dot(a, c, n)
  {
    if n > 0 {
      DotIsBilinear(a, b, c, n - 1);
      Distribute(a[n - 1], b[n - 1], c[n - 1]);
    }
  }

  function Sum(b: Vector, c: Vector): Vector
    requires |b| == |c|
  {
    seq(|b|, i requires 0 <= i < |b| => b[i] + c[i])
  }

  // ---- truncation ----

  /** A slice keeps the first `k` elements, or for a negative bound all but the last `-k`. */
  lemma SliceIs<T>(xs: seq<T>, k: int)
    ensures Slice(xs, k) <= xs
    ensures 0 <= k <= |xs| ==> |Slice(xs, k)| == k
    ensures k > |xs| ==> Slice(xs, k) == xs
    ensures -|xs| <= k < 0 ==> |Slice(xs, k)| == |xs| + k
    ensures k < -|xs| ==> Slice(xs, k) == []
  {
  }

  /** Python's `xs[:k]`. */
  function Slice<T>(xs: seq<T>, k: int): seq<T> {
    if k >= |xs| then xs else if k >= 0 then xs[..k] else if -k <= |xs| then xs[..|xs| + k] else []
  }

  function Divided(v: Vector, divisor: real): Vector
    requires divisor != 0.0
  {
    seq(|v|, i requires 0 <= i < |v| => v[i] / divisor)
  }

  function TruncateAndRenormalize(sqrt: Sqrt, v: Vector, target: int): Vector {
    var truncated := Slice(v, target);
    var norm := sqrt(SumOfSquares(truncated));
    if norm == 0.0 then truncated else Divided(truncated, norm)
  }

  lemma {:induction false} DotOfDivided(q: Vector, v: Vector, m: real, n: nat)
    requires m != 0.0 && n <= |q| && n <= |v|
    ensures Dot(q, Divided(v, m), n) * m == Dot(q, v, n)
  {
    if n > 0 {
      DotOfDivided(q, v, m, n - 1);
      var w := v[n - 1] / m;
      assert w * m == v[n - 1];
      assert (q[n - 1] * w) * m == q[n - 1] * v[n - 1];
      Distribute(m, Dot(q, Divided(v, m), n - 1), q[n - 1] * w);
    }
  }

  lemma {:induction false} SquaresOfDivided(v: Vector, m: real, mm: real, n: nat)
    requires m != 0.0 && mm == m * m && n <= |v|
    ensures Dot(Divided(v, m), Divided(v, m), n) * mm == Dot(v, v, n)
  {
    if n > 0 {
      SquaresOfDivided(v, m, mm, n - 1);
      var w := v[n - 1] / m;
      assert w * m == v[n - 1];
      ProductOfSquares(w, m);
      assert (w * w) * mm == v[n - 1] * v[n - 1];
      Distribute(mm, Dot(Divided(v, m), Divided(v, m), n - 1), w * w);
    }
  }

  /** A truncated vector that is not zero comes out with norm one; a zero one comes out as it is. */
  lemma RenormalizedIsUnit(sqrt: Sqrt, v: Vector, target: int)
    requires IsSqrt(sqrt)
    ensures var t := Slice(v, target);
            var r := TruncateAndRenormalize(sqrt, v, target);
            && |r| == |t|
            && ((exists i :: 0 <= i < |t| && t[i] != 0.0) ==> SumOfSquares(r) == 1.0 && sqrt(SumOfSquares(r)) == 1.0)
            && ((forall i :: 0 <= i < |t| ==> t[i] == 0.0) ==> r == t)
  {
    var t := Slice(v, target);
    var x := SumOfSquares(t);
    SquaresAreNonNegative(t, |t|);
    ZeroVector(t, |t|);
    Root(sqrt, x);
    if x != 0.0 {
      DividedIsUnit(t, sqrt(x), x);
      Root(sqrt, 1.0);
      UnitRoot(sqrt(1.0));
    }
  }

  lemma {:induction false} ZeroVector(t: Vector, n: nat)
    requires n <= |t|
    ensures (forall i :: 0 <= i < n ==> t[i] == 0.0) ==> Dot(t, t, n) == 0.0
  {
    if n > 0 { ZeroVector(t, n - 1); }
  }

  lemma DividedIsUnit(t: Vector, m: real, x: real)
    requires m != 0.0 && x == m * m && x == SumOfSquares(t) && x > 0.0
    ensures SumOfSquares(Divided(t, m)) == 1.0
  {
    SquaresOfDivided(t, m, x, |t|);
    UnitFactor(Dot(Divided(t, m), Divided(t, m), |t|), x);
  }

  lemma UnitFactor(y: real, x: real)
    requires y * x == x && x > 0.0
    ensures y == 1.0
  {
    assert x * (y - 1.0) == 0.0;
    PositiveFactor(x, y - 1.0);
  }

  lemma UnitRoot(s: real)
    requires s >= 0.0 && s * s == 1.0
    ensures s == 1.0
  {
    assert (s + 1.0) * (s - 1.0) == 0.0;
    PositiveFactor(s + 1.0, s - 1.0);
  }

  /** Renormalizing changes no similarity: against every query the score is that of the
      truncated vector. */
  lemma RenormalizingKeepsCosine(sqrt: Sqrt, v: Vector, target: int, query: Vector)
    requires IsSqrt(sqrt)
    ensures Cosine(sqrt, query, TruncateAndRenormalize(sqrt, v, target)) == Cosine(sqrt, query, Slice(v, target))
  {
    var t := Slice(v, target);
    var r := TruncateAndRenormalize(sqrt, v, target);
    RenormalizedIsUnit(sqrt, v, target);
    SquaresAreNonNegative(t, |t|);
    ZeroVector(t, |t|);
    Root(sqrt, SumOfSquares(t));
    SquaresAreNonNegative(query, |query|);
    Root(sqrt, SumOfSquares(query));
    var m, nq := sqrt(SumOfSquares(t)), sqrt(SumOfSquares(query));
    if m != 0.0 && |query| == |t| && nq != 0.0 {
      DotOfDivided(query, t, m, |t|);
      SameQuotient(Dot(query, r, |t|), Dot(query, t, |t|), m, nq);
    }
  }

  lemma SameQuotient(d: real, z: real, m: real, nq: real)
    requires d * m == z && m > 0.0 && nq > 0.0
    ensures Quotient(d, nq, 1.0) == Quotient(z, nq, m)
  {
    var w := d / nq;
    assert w * nq == d;
    PositiveFactor(nq, m);
    assert w * (nq * m) == (w * nq) * m == z;
  }
}
