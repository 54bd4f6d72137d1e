/**
 * Embedding vectors and the numpy arithmetic the core applies to them, over exact reals.
 * Square roots are a parameter `sqrt` that satisfies `IsSqrt`, since a square root of a real
 * number cannot be computed here; every fact about norms is proved from that property.
 */
module Vectors {
  import opened Lists
  import opened Sums

  type Vector = seq<real>

  /** Every row of a matrix (a list of embeddings) has `d` components. */
  predicate AllDim(vs: seq<Vector>, d: nat) {
    forall i :: 0 <= i < |vs| ==> |vs[i]| == d
  }

  function Zero(d: nat): (z: Vector)
    ensures |z| == d && forall j :: 0 <= j < d ==> z[j] == 0.0
  {
    seq(d, j => 0.0)
  }

  predicate IsZero(v: Vector) {
    forall j :: 0 <= j < |v| ==> v[j] == 0.0
  }

  function Add(a: Vector, b: Vector): (r: Vector)
    requires |a| == |b|
    ensures |r| == |a| && forall j :: 0 <= j < |a| ==> r[j] == a[j] + b[j]
  {
    seq(|a|, j requires 0 <= j < |a| => a[j] + b[j])
  }

  function Sub(a: Vector, b: Vector): (r: Vector)
    requires |a| == |b|
    ensures |r| == |a| && forall j :: 0 <= j < |a| ==> r[j] == a[j] - b[j]
  {
    seq(|a|, j requires 0 <= j < |a| => a[j] - b[j])
  }

  function Scale(c: real, a: Vector): (r: Vector)
    ensures |r| == |a| && forall j :: 0 <= j < |a| ==> r[j] == c * a[j]
  {
    seq(|a|, j requires 0 <= j < |a| => c * a[j])
  }

  /** `np.dot(a, b)`. */
  function Dot(a: Vector, b: Vector): real
    requires |a| == |b|
  {
    if a == [] then 0.0 else Dot(a[..|a| - 1], b[..|b| - 1]) + a[|a| - 1] * b[|b| - 1]
  }

  function NormSq(a: Vector): real {
    Dot(a, a)
  }

  /** `sqrt` returns the non-negative square root of every non-negative number. */
  ghost predicate IsSqrt(sqrt: real -> real) {
    forall x :: 0.0 <= x ==> 0.0 <= sqrt(x) && sqrt(x) * sqrt(x) == x
  }

  /** `np.linalg.norm(a)`. */
  function Norm(sqrt: real -> real, a: Vector): real {
    sqrt(NormSq(a))
  }

  /** The `+ 1e-8` that keeps every normalisation in the source away from a division by zero. */
  const Eps: real := 0.00000001

  /** `a / (np.linalg.norm(a) + 1e-8)`. */
  function Normalize(sqrt: real -> real, a: Vector): (r: Vector)
    requires IsSqrt(sqrt)
    ensures |r| == |a|
  {
    NormNonNegative(sqrt, a);
    Scale(1.0 / (Norm(sqrt, a) + Eps), a)
  }

  lemma {:induction false} DotSymmetric(a: Vector, b: Vector)
    requires |a| == |b|
    ensures Dot(a, b) == Dot(b, a)
  {
    if a != [] {
      DotSymmetric(a[..|a| - 1], b[..|b| - 1]);
    }
  }

  lemma {:induction false} NormSqNonNegative(a: Vector)
    ensures NormSq(a) >= 0.0
  {
    if a != [] {
      NormSqNonNegative(a[..|a| - 1]);
    }
  }

  /** The squared norm is zero exactly for the zero vector. */
  lemma {:induction false} NormSqZero(a: Vector)
    ensures NormSq(a) == 0.0 ==> IsZero(a)
    ensures IsZero(a) ==> NormSq(a) == 0.0
  {
    if a != [] {
      var init := a[..|a| - 1];
      var x := a[|a| - 1];
      NormSqZero(init);
      NormSqNonNegative(init);
      assert NormSq(a) == NormSq(init) + x * x;
      SquareNonNegative(x);
      if x != 0.0 {
        SquarePositive(x);
      }
      assert forall j :: 0 <= j < |init| ==> init[j] == a[j];
      assert IsZero(a) <==> IsZero(init) && x == 0.0;
      if NormSq(a) == 0.0 {
        assert x * x == 0.0 && NormSq(init) == 0.0;
        ProductZero(x, x);
      }
    }
  }

  lemma SquareNonNegative(x: real)
    ensures x * x >= 0.0
  {
    if x < 0.0 {
      assert x * x == (-x) * (-x);
    }
  }

  lemma ProductZero(x: real, y: real)
    requires x * y == 0.0
    ensures x == 0.0 || y == 0.0
  {
  }

  lemma SquarePositive(x: real)
    requires x != 0.0
    ensures x * x > 0.0
  {
    if x < 0.0 {
      assert x * x == (-x) * (-x);
    }
  }

  /** Two non-negative numbers with the same square are equal. */
  lemma SquareInjective(y: real, z: real)
    requires y >= 0.0 && z >= 0.0 && y * y == z * z
    ensures y == z
  {
    assert (y - z) * (y + z) == 0.0;
    ProductZero(y - z, y + z);
  }

  lemma NormNonNegative(sqrt: real -> real, a: Vector)
    requires IsSqrt(sqrt)
    ensures Norm(sqrt, a) >= 0.0
    ensures Norm(sqrt, a) * Norm(sqrt, a) == NormSq(a)
  {
    NormSqNonNegative(a);
    assert Norm(sqrt, a) == sqrt(NormSq(a));
  }

  /** The norm is zero exactly for the zero vector. */
  lemma NormZero(sqrt: real -> real, a: Vector)
    requires IsSqrt(sqrt)
    ensures Norm(sqrt, a) == 0.0 <==> IsZero(a)
  {
    NormNonNegative(sqrt, a);
    NormSqZero(a);
    var n := Norm(sqrt, a);
    if NormSq(a) == 0.0 {
      ProductZero(n, n);
    }
  }

  lemma {:induction false} DotScale(c: real, a: Vector, b: Vector)
    requires |a| == |b|
    ensures Dot(Scale(c, a), b) == c * Dot(a, b)
  {
    if a != [] {
      var n := |a| - 1;
      assert forall j :: 0 <= j < n ==> Scale(c, a)[..n][j] == Scale(c, a[..n])[j];
      assert Scale(c, a)[..n] == Scale(c, a[..n]);
      DotScale(c, a[..|a| - 1], b[..|b| - 1]);
    }
  }

  /** Scaling a vector scales its norm by the absolute value of the factor. */
  lemma NormScale(sqrt: real -> real, c: real, a: Vector)
    requires IsSqrt(sqrt)
    ensures Norm(sqrt, Scale(c, a)) == (if c < 0.0 then -c else c) * Norm(sqrt, a)
  {
    NormSqScale(c, a);
    NormNonNegative(sqrt, a);
    NormNonNegative(sqrt, Scale(c, a));
    ScaledRoot(c, Norm(sqrt, a), Norm(sqrt, Scale(c, a)));
  }

  lemma NormSqScale(c: real, a: Vector)
    ensures NormSq(Scale(c, a)) == c * c * NormSq(a)
  {
    var s := Scale(c, a);
    DotScale(c, a, s);
    DotSymmetric(a, s);
    DotScale(c, a, a);
  }

  /** The non-negative root of `c² n²` is `|c| n`. */
  lemma ScaledRoot(c: real, n: real, m: real)
    requires n >= 0.0 && m >= 0.0 && m * m == c * c * (n * n)
    ensures m == (if c < 0.0 then -c else c) * n
  {
    var ac := if c < 0.0 then -c else c;
    assert ac * ac == c * c;
    assert (ac * n) * (ac * n) == (ac * ac) * (n * n);
    SquareInjective(m, ac * n);
  }

  /** A normalised vector has norm below 1, and is zero exactly when the input is. */
  lemma NormalizeNorm(sqrt: real -> real, a: Vector)
    requires IsSqrt(sqrt)
    ensures Norm(sqrt, Normalize(sqrt, a)) * (Norm(sqrt, a) + Eps) == Norm(sqrt, a)
    ensures 0.0 <= Norm(sqrt, Normalize(sqrt, a)) < 1.0
    ensures Norm(sqrt, Normalize(sqrt, a)) == 0.0 <==> IsZero(a)
  {
    NormNonNegative(sqrt, a);
    var n := Norm(sqrt, a);
    NormScale(sqrt, 1.0 / (n + Eps), a);
    NormZero(sqrt, a);
    assert (1.0 / (n + Eps)) * n * (n + Eps) == n;
  }

  /** Cauchy–Schwarz: the square of a dot product is at most the product of the squared norms. */
  lemma {:induction false} CauchySchwarz(a: Vector, b: Vector)
    requires |a| == |b|
    ensures Dot(a, b) * Dot(a, b) <= NormSq(a) * NormSq(b)
  {
    if a != [] {
      var a0, b0 := a[..|a| - 1], b[..|b| - 1];
      var x, y := a[|a| - 1], b[|b| - 1];
      CauchySchwarz(a0, b0);
      NormSqNonNegative(a0);
      NormSqNonNegative(b0);
      var s, p, q := Dot(a0, b0), NormSq(a0), NormSq(b0);
      assert Dot(a, b) == s + x * y;
      assert NormSq(a) == p + x * x;
      assert NormSq(b) == q + y * y;
      CrossTermBound(s, p, q, x, y);
    }
  }

  /** The step of Cauchy–Schwarz: `2sxy <= p y^2 + q x^2` whenever `s^2 <= pq` for non-negative p, q. */
  lemma CrossTermBound(s: real, p: real, q: real, x: real, y: real)
    requires p >= 0.0 && q >= 0.0 && s * s <= p * q
    ensures (s + x * y) * (s + x * y) <= (p + x * x) * (q + y * y)
  {
    if p == 0.0 {
      assert s * s <= 0.0;
      SquareNonNegative(s);
      ProductZero(s, s);
      assert q * x * x >= 0.0;
    } else {
      assert p * (p * y * y + q * x * x - 2.0 * s * x * y)
          == (p * y - s * x) * (p * y - s * x) + x * x * (p * q - s * s);
      assert (p * y - s * x) * (p * y - s * x) >= 0.0;
      assert x * x * (p * q - s * s) >= 0.0;
      assert p * y * y + q * x * x - 2.0 * s * x * y >= 0.0;
    }
  }

  /** Cosine similarity, zero when either vector is zero (the convention of `util.cos_sim` on normalised inputs). */
  function CosSim(sqrt: real -> real, a: Vector, b: Vector): real
    requires |a| == |b|
  {
    var na, nb := Norm(sqrt, a), Norm(sqrt, b);
    if na == 0.0 || nb == 0.0 then 0.0 else Dot(a, b) / (na * nb)
  }

  /** Cosine similarity lies in [-1, 1]. */
  lemma CosSimRange(sqrt: real -> real, a: Vector, b: Vector)
    requires IsSqrt(sqrt) && |a| == |b|
    ensures -1.0 <= CosSim(sqrt, a, b) <= 1.0
  {
    var na, nb := Norm(sqrt, a), Norm(sqrt, b);
    NormNonNegative(sqrt, a);
    NormNonNegative(sqrt, b);
    if na != 0.0 && nb != 0.0 {
      CauchySchwarz(a, b);
      var d, m := Dot(a, b), na * nb;
      assert m > 0.0;
      assert d * d <= m * m;
      BoundedBySquare(d, m);
      assert -m <= d <= m;
      DivideBound(d, m);
    }
  }

  lemma BoundedBySquare(d: real, m: real)
    requires m > 0.0 && d * d <= m * m
    ensures -m <= d <= m
  {
    if d > m {
      SquareStrict(d, m);
      assert false;
    }
    if d < -m {
      SquareStrict(-d, m);
      assert false;
    }
  }

  lemma SquareStrict(y: real, z: real)
    requires y > z > 0.0
    ensures y * y > z * z
  {
    assert y * y > z * y > z * z;
  }

  lemma DivideBound(d: real, m: real)
    requires m > 0.0 && -m <= d <= m
    ensures -1.0 <= d / m <= 1.0
  {
  }

  lemma CosSimSymmetric(sqrt: real -> real, a: Vector, b: Vector)
    requires |a| == |b|
    ensures CosSim(sqrt, a, b) == CosSim(sqrt, b, a)
  {
    DotSymmetric(a, b);
  }

  /** Component `j` of a vector, and 0 past its end. */
  function At(v: Vector, j: nat): real {
    if j < |v| then v[j] else 0.0
  }

  /** `sum(f(x) for x in xs)` for vectors of dimension `d`, starting from the zero vector. */
  function VSumOf<T>(xs: seq<T>, f: T -> Vector, d: nat): (r: Vector)
    requires forall i :: 0 <= i < |xs| ==> |f(xs[i])| == d
    ensures |r| == d
  {
    if xs == [] then Zero(d) else Add(VSumOf(xs[..|xs| - 1], f, d), f(xs[|xs| - 1]))
  }

  /** A vector sum is the sum of each component. */
  lemma {:induction false} VSumOfAt<T>(xs: seq<T>, f: T -> Vector, d: nat, j: nat)
    requires forall i :: 0 <= i < |xs| ==> |f(xs[i])| == d
    requires j < d
    ensures VSumOf(xs, f, d)[j] == SumOf(xs, x => At(f(x), j))
  {
    if xs != [] {
      VSumOfAt(xs[..|xs| - 1], f, d, j);
    }
  }

  /** A vector sum does not depend on the order of its terms. */
  lemma VSumOfPermutation<T>(xs: seq<T>, ys: seq<T>, f: T -> Vector, d: nat)
    requires multiset(xs) == multiset(ys)
    requires forall i :: 0 <= i < |xs| ==> |f(xs[i])| == d
    requires forall i :: 0 <= i < |ys| ==> |f(ys[i])| == d
    ensures VSumOf(xs, f, d) == VSumOf(ys, f, d)
  {
    forall j | 0 <= j < d ensures VSumOf(xs, f, d)[j] == VSumOf(ys, f, d)[j] {
      VSumOfAt(xs, f, d, j);
      VSumOfAt(ys, f, d, j);
      SumOfPermutation(xs, ys, x => At(f(x), j));
    }
  }

  /** Terms that are all zero vectors sum to the zero vector. */
  lemma {:induction false} VSumOfZero<T>(xs: seq<T>, f: T -> Vector, d: nat)
    requires forall i :: 0 <= i < |xs| ==> |f(xs[i])| == d && f(xs[i]) == Zero(d)
    ensures VSumOf(xs, f, d) == Zero(d)
  {
    if xs != [] {
      VSumOfZero(xs[..|xs| - 1], f, d);
    }
  }

  /** Dropping terms that are zero vectors does not change a vector sum. */
  lemma {:induction false} VSumOfDropZeros<T>(xs: seq<T>, keep: T -> bool, f: T -> Vector, d: nat)
    requires forall x :: |f(x)| == d
    requires forall i :: 0 <= i < |xs| ==> !keep(xs[i]) ==> f(xs[i]) == Zero(d)
    ensures VSumOf(Filter(xs, keep), f, d) == VSumOf(xs, f, d)
  {
    if xs != [] {
      var init := xs[..|xs| - 1];
      var x := xs[|xs| - 1];
      VSumOfDropZeros(init, keep, f, d);
      if !keep(x) {
        AddZero(VSumOf(init, f, d));
      }
    }
  }

  /** Scaling every term scales the sum. */
  lemma {:induction false} VSumOfScale<T>(xs: seq<T>, f: T -> Vector, g: T -> Vector, c: real, d: nat)
    requires forall x :: |f(x)| == d && |g(x)| == d && g(x) == Scale(c, f(x))
    ensures VSumOf(xs, g, d) == Scale(c, VSumOf(xs, f, d))
  {
    if xs != [] {
      var init := xs[..|xs| - 1];
      var x := xs[|xs| - 1];
      VSumOfScale(init, f, g, c, d);
      var a, b := VSumOf(init, f, d), f(x);
      assert |b| == d && g(x) == Scale(c, b);
      forall j | 0 <= j < d ensures Add(Scale(c, a), Scale(c, b))[j] == Scale(c, Add(a, b))[j] {
        assert c * (a[j] + b[j]) == c * a[j] + c * b[j];
      }
      assert Add(Scale(c, a), Scale(c, b)) == Scale(c, Add(a, b));
    }
  }

  /** Two term functions that agree on every element give the same vector sum. */
  lemma {:induction false} VSumOfPointwise<T>(xs: seq<T>, f: T -> Vector, g: T -> Vector, d: nat)
    requires forall i :: 0 <= i < |xs| ==> |f(xs[i])| == d && f(xs[i]) == g(xs[i])
    ensures VSumOf(xs, f, d) == VSumOf(xs, g, d)
  {
    if xs != [] {
      VSumOfPointwise(xs[..|xs| - 1], f, g, d);
    }
  }

  lemma AddZero(a: Vector)
    ensures Add(a, Zero(|a|)) == a
  {
  }

  lemma AddAssoc(a: Vector, b: Vector, c: Vector)
    requires |a| == |b| == |c|
    ensures Add(Add(a, b), c) == Add(a, Add(b, c))
  {
  }

  lemma ScaleZero(a: Vector)
    ensures Scale(0.0, a) == Zero(|a|)
  {
  }

  function Row(v: Vector): Vector { v }

  /** `np.sum(vs, axis=0)`. */
  function VSum(vs: seq<Vector>, d: nat): (r: Vector)
    requires AllDim(vs, d)
    ensures |r| == d
  {
    VSumOf(vs, Row, d)
  }

  /** `np.mean(vs, axis=0)` for a non-empty list of rows. */
  function Mean(vs: seq<Vector>, d: nat): (r: Vector)
    requires AllDim(vs, d) && |vs| > 0
    ensures |r| == d
  {
    Scale(1.0 / |vs| as real, VSum(vs, d))
  }

  /** Component `j` of a row sum is the sum of the rows' component `j`. */
  lemma VSumAt(vs: seq<Vector>, d: nat, j: nat)
    requires AllDim(vs, d) && |vs| > 0 && j < d
    ensures VSum(vs, d)[j] == SumOf(vs, x => At(Row(x), j))
  {
    VSumOfAt(vs, Row, d, j);
  }

  lemma MeanOfSum(vs: seq<Vector>, d: nat, j: nat, t: real)
    requires AllDim(vs, d) && |vs| > 0 && j < d && VSum(vs, d)[j] == t
    ensures Mean(vs, d)[j] == t / |vs| as real
  {
  }

  /** Component `j` of the mean is the average of the rows' component `j`. */
  lemma MeanAt(vs: seq<Vector>, d: nat, j: nat)
    requires AllDim(vs, d) && |vs| > 0 && j < d
    ensures Mean(vs, d)[j] == SumOf(vs, x => At(Row(x), j)) / |vs| as real
  {
    VSumAt(vs, d, j);
    MeanOfSum(vs, d, j, SumOf(vs, x => At(Row(x), j)));
  }

  /** `a - b` negated is `b - a`. */
  lemma SubSwap(a: Vector, b: Vector)
    requires |a| == |b|
    ensures Sub(b, a) == Scale(-1.0, Sub(a, b))
  {
  }

  /** Squared distance of `x` from `m`. */
  function SqDev(m: real, x: real): real {
    (x - m) * (x - m)
  }

  /** `np.std(xs)`: the population standard deviation of a non-empty list. */
  function Std(sqrt: real -> real, xs: seq<real>): real
    requires |xs| > 0
  {
    var m := Sum(xs) / |xs| as real;
    sqrt(SumOf(xs, x => SqDev(m, x)) / |xs| as real)
  }

  /** A standard deviation is never negative. */
  lemma StdNonNegative(sqrt: real -> real, xs: seq<real>)
    requires IsSqrt(sqrt) && |xs| > 0
    ensures Std(sqrt, xs) >= 0.0
  {
    var m := Sum(xs) / |xs| as real;
    SumOfNonNegative(xs, x => SqDev(m, x));
  }
}
