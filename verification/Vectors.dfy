/** Cosine similarity over the reals, with the square root left abstract. */
module Vectors {
  import opened Wrappers

  type Vector = seq<real>

  /** Any function that gives non-negative square roots. */
  ghost predicate IsSquareRoot(sqrt: real -> real) {
    forall x {:trigger sqrt(x)} :: x >= 0.0 ==> sqrt(x) >= 0.0 && sqrt(x) * sqrt(x) == x
  }

  function Dot(left: Vector, right: Vector): real
    requires |left| == |right|
  {
    if left == [] then 0.0 else left[0] * right[0] + Dot(left[1..], right[1..])
  }

  /** A quotient that is zero for zero norms. */
  function Ratio(dot: real, norms: real): real {
    if norms != 0.0 then dot / norms else 0.0
  }

  /** The product of two lengths, from their squares. */
  function Lengths(sqrt: real -> real, a: real, b: real): real {
    sqrt(a) * sqrt(b)
  }

  function Norms(sqrt: real -> real, left: Vector, right: Vector): real {
    Lengths(sqrt, Dot(left, left), Dot(right, right))
  }

  function Cosine(sqrt: real -> real, left: Vector, right: Vector): real
    requires |left| == |right|
  {
    Ratio(Dot(left, right), Norms(sqrt, left, right))
  }

  /** `cosine_similarity`; `None` is the `ValueError` for vectors of different widths. */
  function CosineSimilarity(sqrt: real -> real, left: Vector, right: Vector): Option<real> {
    if |left| != |right| then None else Some(Cosine(sqrt, left, right))
  }

  // ---------------------------------------------------- Cauchy and Schwarz

  lemma Positive(x: real, n: real)
    ensures x > 0.0 && n > 0.0 ==> x * n > 0.0
  {
  }

  lemma SquareGrows(a: real, b: real)
    requires b >= 0.0
    ensures a > b ==> a * a > b * b
  {
    Positive(a - b, a + b);
    assert a * a - b * b == (a - b) * (a + b);
  }

  lemma SquaresOrder(a: real, b: real)
    requires b >= 0.0 && a * a <= b * b
    ensures -b <= a <= b
  {
    SquareGrows(a, b);
    SquareGrows(-a, b);
  }

  lemma SquareIsPositive(x: real)
    ensures x * x >= 0.0 && (x * x == 0.0 <==> x == 0.0)
  {
    SquareGrows(x, 0.0);
    SquareGrows(-x, 0.0);
  }

  lemma TwiceTheProduct(u: real, v: real)
    ensures 4.0 * (u * v) <= (u + v) * (u + v)
  {
    assert (u + v) * (u + v) - 4.0 * (u * v) == (u - v) * (u - v);
  }

  lemma MulMono(a: real, b: real, c: real)
    requires a <= b && c >= 0.0
    ensures a * c <= b * c
  {
    assert (b - a) * c >= 0.0;
  }

  /** The cross term of one more coordinate. */
  lemma CrossTerm(x: real, y: real, d: real, a: real, b: real)
    requires a >= 0.0 && b >= 0.0 && d * d <= a * b
    ensures 2.0 * (x * y) * d <= x * x * b + y * y * a
  {
    var u, v, w := x * x * b, y * y * a, 2.0 * (x * y) * d;
    TwiceTheProduct(u, v);
    MulMono(d * d, a * b, (x * y) * (x * y));
    assert u * v == (a * b) * ((x * y) * (x * y));
    assert w * w == 4.0 * ((d * d) * ((x * y) * (x * y)));
    SquaresOrder(w, u + v);
  }

  lemma {:induction false} DotSelf(v: Vector)
    ensures Dot(v, v) >= 0.0
    ensures Dot(v, v) == 0.0 <==> forall i :: 0 <= i < |v| ==> v[i] == 0.0
  {
    if v != [] {
      DotSelf(v[1..]);
      SquareIsPositive(v[0]);
      assert forall i :: 1 <= i < |v| ==> v[i] == v[1..][i - 1];
    }
  }

  lemma {:induction false} CauchySchwarz(left: Vector, right: Vector)
    requires |left| == |right|
    ensures Dot(left, right) * Dot(left, right) <= Dot(left, left) * Dot(right, right)
  {
    if left != [] {
      var x, y, l, r := left[0], right[0], left[1..], right[1..];
      CauchySchwarz(l, r);
      DotSelf(l);
      DotSelf(r);
      var d, a, b := Dot(l, r), Dot(l, l), Dot(r, r);
      CrossTerm(x, y, d, a, b);
      Expand(x, y, d, a, b);
    }
  }

  lemma Expand(x: real, y: real, d: real, a: real, b: real)
    requires d * d <= a * b && 2.0 * (x * y) * d <= x * x * b + y * y * a
    ensures (x * y + d) * (x * y + d) <= (x * x + a) * (y * y + b)
  {
    assert (x * y + d) * (x * y + d) == (x * y) * (x * y) + 2.0 * (x * y) * d + d * d;
    assert (x * x + a) * (y * y + b) == (x * y) * (x * y) + x * x * b + y * y * a + a * b;
  }

  lemma LengthsSquared(sqrt: real -> real, a: real, b: real)
    requires IsSquareRoot(sqrt) && a >= 0.0 && b >= 0.0
    ensures Lengths(sqrt, a, b) >= 0.0 && Lengths(sqrt, a, b) * Lengths(sqrt, a, b) == a * b
  {
    ProductSquared(sqrt(a), sqrt(b), a, b);
  }

  lemma ProductSquared(p: real, q: real, a: real, b: real)
    requires p >= 0.0 && q >= 0.0 && p * p == a && q * q == b
    ensures p * q >= 0.0 && (p * q) * (p * q) == a * b
  {
    assert (p * q) * (p * q) == (p * p) * (q * q);
  }

  lemma RatioIsBounded(d: real, n: real)
    requires n >= 0.0 && d * d <= n * n
    ensures -1.0 <= Ratio(d, n) <= 1.0
  {
    SquaresOrder(d, n);
    if n != 0.0 {
      QuotientBounds(d, n);
    }
  }

  lemma QuotientBounds(d: real, n: real)
    requires n > 0.0 && -n <= d <= n
    ensures -1.0 <= d / n <= 1.0
  {
    assert (d / n) * n == d;
    Positive(d / n - 1.0, n);
    Positive(-1.0 - d / n, n);
  }

  /** Cosine similarity lies in [-1, 1], for all vectors of one width. */
  lemma CosineIsBounded(sqrt: real -> real, left: Vector, right: Vector)
    requires IsSquareRoot(sqrt) && |left| == |right|
    ensures -1.0 <= Cosine(sqrt, left, right) <= 1.0
  {
    DotSelf(left);
    DotSelf(right);
    CauchySchwarz(left, right);
    LengthsSquared(sqrt, Dot(left, left), Dot(right, right));
    RatioIsBounded(Dot(left, right), Norms(sqrt, left, right));
  }

  // ---------------------------------------------------------- its symmetries

  lemma {:induction false} DotCommutes(left: Vector, right: Vector)
    requires |left| == |right|
    ensures Dot(left, right) == Dot(right, left)
  {
    if left != [] {
      DotCommutes(left[1..], right[1..]);
    }
  }

  lemma CosineIsSymmetric(sqrt: real -> real, left: Vector, right: Vector)
    ensures CosineSimilarity(sqrt, left, right) == CosineSimilarity(sqrt, right, left)
  {
    if |left| == |right| {
      DotCommutes(left, right);
      assert Norms(sqrt, left, right) == Norms(sqrt, right, left);
    }
  }

  function Scaled(c: real, v: Vector): Vector {
    seq(|v|, i requires 0 <= i < |v| => c * v[i])
  }

  lemma {:induction false} DotScaled(c: real, left: Vector, right: Vector)
    requires |left| == |right|
    ensures Dot(Scaled(c, left), right) == c * Dot(left, right)
  {
    if left != [] {
      var s := Scaled(c, left);
      assert forall i :: 0 <= i < |left| - 1 ==> s[1..][i] == Scaled(c, left[1..])[i];
      assert s[1..] == Scaled(c, left[1..]);
      DotScaled(c, left[1..], right[1..]);
      assert c * left[0] * right[0] == c * (left[0] * right[0]);
    }
  }

  lemma RootOfScaled(sqrt: real -> real, c: real, n: real, m: real)
    requires IsSquareRoot(sqrt) && c > 0.0 && n >= 0.0 && m == c * (c * n)
    ensures sqrt(m) == c * sqrt(n)
  {
    var p := c * sqrt(n);
    assert m >= 0.0 && p >= 0.0;
    assert p * p == c * (c * (sqrt(n) * sqrt(n)));
    assert p * p == m && sqrt(m) * sqrt(m) == m;
    SquaresOrder(p, sqrt(m));
    SquaresOrder(sqrt(m), p);
  }

  /** Only the direction of a vector matters. */
  lemma CosineIgnoresLength(sqrt: real -> real, c: real, left: Vector, right: Vector)
    requires IsSquareRoot(sqrt) && |left| == |right| && c > 0.0
    ensures Cosine(sqrt, Scaled(c, left), right) == Cosine(sqrt, left, right) == Cosine(sqrt, left, Scaled(c, right))
  {
    ScalingLeft(sqrt, c, left, right);
    ScalingLeft(sqrt, c, right, left);
    CosineIsSymmetric(sqrt, left, right);
    CosineIsSymmetric(sqrt, Scaled(c, right), left);
  }

  lemma DotScaledSelf(c: real, v: Vector)
    ensures Dot(Scaled(c, v), Scaled(c, v)) == c * (c * Dot(v, v))
  {
    var s := Scaled(c, v);
    DotScaled(c, v, s);
    DotCommutes(v, s);
    DotScaled(c, v, v);
  }

  lemma NormsScaled(sqrt: real -> real, c: real, left: Vector, right: Vector)
    requires IsSquareRoot(sqrt) && c > 0.0
    ensures Norms(sqrt, Scaled(c, left), right) == c * Norms(sqrt, left, right)
  {
    DotSelf(left);
    DotScaledSelf(c, left);
    RootOfScaled(sqrt, c, Dot(left, left), Dot(Scaled(c, left), Scaled(c, left)));
    Regroup(c, sqrt(Dot(left, left)), sqrt(Dot(right, right)));
  }

  lemma Regroup(c: real, p: real, q: real)
    ensures (c * p) * q == c * (p * q)
  {
  }

  lemma RatioScaled(c: real, d: real, n: real, d': real, n': real)
    requires c > 0.0 && d' == c * d && n' == c * n
    ensures Ratio(d', n') == Ratio(d, n)
  {
    if n != 0.0 {
      CancelFactor(c, d, n);
    }
  }

  lemma ScalingLeft(sqrt: real -> real, c: real, left: Vector, right: Vector)
    requires IsSquareRoot(sqrt) && |left| == |right| && c > 0.0
    ensures Cosine(sqrt, Scaled(c, left), right) == Cosine(sqrt, left, right)
  {
    DotScaled(c, left, right);
    NormsScaled(sqrt, c, left, right);
    RatioScaled(c, Dot(left, right), Norms(sqrt, left, right), Dot(Scaled(c, left), right),
                Norms(sqrt, Scaled(c, left), right));
  }

  lemma CancelFactor(c: real, d: real, n: real)
    requires c > 0.0 && n != 0.0
    ensures c * n != 0.0 && (c * d) / (c * n) == d / n
  {
    assert c * d == (d / n) * (c * n) by { assert (d / n) * n == d; assert c * ((d / n) * n) == (d / n) * (c * n); }
  }

  lemma Whole(n: real)
    requires n != 0.0
    ensures n / n == 1.0
  {
  }

  /** A vector is exactly like itself, unless it is zero: then it is like nothing. */
  lemma CosineOfItself(sqrt: real -> real, v: Vector, w: Vector)
    requires IsSquareRoot(sqrt) && |v| == |w|
    ensures Cosine(sqrt, v, v) == if forall i :: 0 <= i < |v| ==> v[i] == 0.0 then 0.0 else 1.0
    ensures (forall i :: 0 <= i < |v| ==> v[i] == 0.0) ==> Cosine(sqrt, v, w) == 0.0
  {
    DotSelf(v);
    var n, p := Dot(v, v), sqrt(Dot(v, v));
    SquareIsPositive(p);
    assert Norms(sqrt, v, v) == n;
    if n != 0.0 {
      Whole(n);
    } else {
      assert p == 0.0 && Norms(sqrt, v, w) == 0.0;
    }
  }

  // ------------------------------------------------- what a dot product is

  function Sum(left: Vector, right: Vector): Vector
    requires |left| == |right|
  {
    seq(|left|, i requires 0 <= i < |left| => left[i] + right[i])
  }

  /** One in position `i`, zero elsewhere. */
  function Unit(n: nat, i: nat): Vector {
    seq(n, j => if j == i then 1.0 else 0.0)
  }

  /** The dot product adds up over either side. */
  lemma {:induction false} DotAdds(left: Vector, other: Vector, right: Vector)
    requires |left| == |other| == |right|
    ensures Dot(Sum(left, other), right) == Dot(left, right) + Dot(other, right)
  {
    if left != [] {
      DotAdds(left[1..], other[1..], right[1..]);
      assert Sum(left, other)[1..] == Sum(left[1..], other[1..]);
      Distribute(left[0], other[0], right[0]);
    }
  }

  lemma Distribute(a: real, b: real, c: real)
    ensures (a + b) * c == a * c + b * c
  {
  }

  lemma {:induction false} DotNothing(z: Vector, v: Vector)
    requires |z| == |v| && forall i :: 0 <= i < |z| ==> z[i] == 0.0
    ensures Dot(z, v) == 0.0
  {
    if z != [] {
      DotNothing(z[1..], v[1..]);
    }
  }

  /** And with a unit vector it reads a coordinate off. */
  lemma {:induction false} DotUnit(v: Vector, i: nat)
    requires i < |v|
    ensures Dot(Unit(|v|, i), v) == v[i]
  {
    var u := Unit(|v|, i);
    if i == 0 {
      DotNothing(u[1..], v[1..]);
    } else {
      DotUnit(v[1..], i - 1);
      assert u[1..] == Unit(|v| - 1, i - 1);
    }
  }

  /** Opposite directions have opposite cosines. */
  lemma CosineOfOpposite(sqrt: real -> real, left: Vector, right: Vector)
    requires |left| == |right|
    ensures Cosine(sqrt, Scaled(-1.0, left), right) == -Cosine(sqrt, left, right)
  {
    DotScaled(-1.0, left, right);
    DotScaledSelf(-1.0, left);
    var d, n := Dot(left, right), Norms(sqrt, left, right);
    if n != 0.0 {
      Opposite(d, n);
    }
  }

  lemma Opposite(d: real, n: real)
    requires n != 0.0
    ensures (-1.0 * d) / n == -(d / n)
  {
  }
}
