/** Sums and inner products of real sequences. */
module Vectors {

  function Sum(x: seq<real>): real {
    if x == [] then 0.0 else x[0] + Sum(x[1..])
  }

  function Dot(x: seq<real>, y: seq<real>): real
    requires |x| == |y|
  {
    if x == [] then 0.0 else x[0] * y[0] + Dot(x[1..], y[1..])
  }

  lemma Product(a: real, b: real, p: real)
    requires (a > 0.0 && b > 0.0) || (a < 0.0 && b < 0.0)
    requires p == a * b
    ensures p > 0.0
  {
    if a < 0.0 {
      assert (-a) * (-b) > 0.0;
    }
  }

  lemma Square(a: real, p: real)
    requires a != 0.0 && p == a * a
    ensures p > 0.0
  {
    Product(a, a, p);
  }

  lemma {:induction false} DotSelf(x: seq<real>)
    ensures Dot(x, x) >= 0.0
  {
    if x != [] {
      DotSelf(x[1..]);
      assert x[0] * x[0] >= 0.0;
    }
  }

  lemma {:induction false} DotPos(x: seq<real>, i: nat)
    requires i < |x| && x[i] != 0.0
    ensures Dot(x, x) > 0.0
  {
    var p := x[0] * x[0];
    if i == 0 {
      DotSelf(x[1..]);
      Square(x[0], p);
    } else {
      DotPos(x[1..], i - 1);
      assert p >= 0.0;
    }
    assert Dot(x, x) == p + Dot(x[1..], x[1..]);
  }

  lemma {:induction false} DotCommutes(x: seq<real>, y: seq<real>)
    requires |x| == |y|
    ensures Dot(x, y) == Dot(y, x)
  {
    if x != [] {
      DotCommutes(x[1..], y[1..]);
    }
  }

  lemma {:induction false} Zeros(x: seq<real>)
    requires forall i | 0 <= i < |x| :: x[i] == 0.0
    ensures Sum(x) == 0.0 && Dot(x, x) == 0.0
  {
    if x != [] {
      Zeros(x[1..]);
    }
  }

  /** z = x + k * y, element by element. */
  ghost predicate Combines(z: seq<real>, x: seq<real>, k: real, y: seq<real>) {
    |z| == |x| == |y| && forall i | 0 <= i < |z| :: z[i] == x[i] + k * y[i]
  }

  predicate IsSum(z: real, x: real, k: real, y: real) {
    z == x + k * y
  }

  lemma CombinesTail(z: seq<real>, x: seq<real>, k: real, y: seq<real>)
    requires Combines(z, x, k, y) && z != []
    ensures Combines(z[1..], x[1..], k, y[1..])
  {
  }

  lemma {:induction false} SumCombines(z: seq<real>, x: seq<real>, k: real, y: seq<real>)
    requires Combines(z, x, k, y)
    ensures IsSum(Sum(z), Sum(x), k, Sum(y))
  {
    if z != [] {
      CombinesTail(z, x, k, y);
      SumCombines(z[1..], x[1..], k, y[1..]);
      TermCombines(z[0], x[0], k, y[0], 1.0, Sum(z[1..]), Sum(x[1..]), Sum(y[1..]), Sum(z), Sum(x), Sum(y));
    }
  }

  lemma {:induction false} DotCombines(z: seq<real>, x: seq<real>, k: real, y: seq<real>, s: seq<real>)
    requires Combines(z, x, k, y) && |s| == |z|
    ensures IsSum(Dot(z, s), Dot(x, s), k, Dot(y, s))
  {
    if z != [] {
      CombinesTail(z, x, k, y);
      DotCombines(z[1..], x[1..], k, y[1..], s[1..]);
      TermCombines(z[0], x[0], k, y[0], s[0], Dot(z[1..], s[1..]), Dot(x[1..], s[1..]), Dot(y[1..], s[1..]),
                   Dot(z, s), Dot(x, s), Dot(y, s));
    }
  }

  lemma TermCombines(z: real, x: real, k: real, y: real, s: real, dz: real, dx: real, dy: real,
                     dz': real, dx': real, dy': real)
    requires z == x + k * y && IsSum(dz, dx, k, dy)
    requires dz' == z * s + dz && dx' == x * s + dx && dy' == y * s + dy
    ensures IsSum(dz', dx', k, dy')
  {
    assert z * s == x * s + k * (y * s);
  }

  /** x minus a constant. */
  function Minus(x: seq<real>, c: real): (r: seq<real>)
    ensures |r| == |x| && forall i | 0 <= i < |x| :: r[i] == x[i] - c
  {
    seq(|x|, i requires 0 <= i < |x| => x[i] - c)
  }

  lemma {:induction false} SumMinus(x: seq<real>, c: real)
    ensures Sum(Minus(x, c)) == Sum(x) - (|x| as real) * c
  {
    if x != [] {
      SumMinus(x[1..], c);
      assert Minus(x, c)[1..] == Minus(x[1..], c);
      assert (|x| as real) * c == (|x[1..]| as real) * c + c;
    }
  }

  function Mean(x: seq<real>): real
    requires x != []
  {
    Sum(x) / (|x| as real)
  }

  /** Deviations from the mean add up to nothing. */
  lemma CentredSum(x: seq<real>)
    requires x != []
    ensures Sum(Minus(x, Mean(x))) == 0.0
  {
    SumMinus(x, Mean(x));
    assert (|x| as real) * (Sum(x) / (|x| as real)) == Sum(x);
  }

  /** y = d + k * u, element by element. */
  ghost predicate Affine(y: seq<real>, d: real, k: real, u: seq<real>) {
    |y| == |u| && forall i | 0 <= i < |y| :: y[i] == d + k * u[i]
  }

  function LineValues(d: real, k: real, u: seq<real>): (y: seq<real>)
    ensures Affine(y, d, k, u)
  {
    seq(|u|, i requires 0 <= i < |u| => d + k * u[i])
  }

  lemma {:induction false} DotAffine(y: seq<real>, d: real, k: real, u: seq<real>, s: seq<real>)
    requires Affine(y, d, k, u) && |s| == |y|
    ensures Dot(y, s) == d * Sum(s) + k * Dot(u, s)
  {
    if y != [] {
      assert Affine(y[1..], d, k, u[1..]);
      DotAffine(y[1..], d, k, u[1..], s[1..]);
      TermAffine(y[0], d, k, u[0], s[0], Sum(s[1..]), Dot(u[1..], s[1..]));
    }
  }

  lemma TermAffine(y: real, d: real, k: real, u: real, s: real, ss: real, du: real)
    requires y == d + k * u
    ensures y * s + (d * ss + k * du) == d * (s + ss) + k * (u * s + du)
  {
    assert y * s == d * s + k * (u * s);
  }

  lemma {:induction false} SumAffine(y: seq<real>, d: real, k: real, u: seq<real>)
    requires Affine(y, d, k, u)
    ensures Sum(y) == (|y| as real) * d + k * Sum(u)
  {
    if y != [] {
      assert Affine(y[1..], d, k, u[1..]);
      SumAffine(y[1..], d, k, u[1..]);
      assert (|y| as real) * d == (|y[1..]| as real) * d + d;
    }
  }

  /** Pythagoras: the square of a sum of orthogonal vectors. */
  lemma Pythagoras(z: seq<real>, r: seq<real>, y: seq<real>)
    requires Combines(z, r, 1.0, y) && Dot(y, r) == 0.0
    ensures Dot(z, z) == Dot(r, r) + Dot(y, y)
  {
    DotCombines(z, r, 1.0, y, z);
    DotCombines(z, r, 1.0, y, r);
    DotCombines(z, r, 1.0, y, y);
    DotCommutes(r, z);
    DotCommutes(y, z);
    DotCommutes(r, y);
  }

  /** The square of d + k * u. */
  lemma {:induction false} AffineSquare(y: seq<real>, d: real, k: real, u: seq<real>)
    requires Affine(y, d, k, u)
    ensures IsSquare(Dot(y, y), |u| as real, d, k, Sum(u), Dot(u, u))
  {
    if y != [] {
      assert Affine(y[1..], d, k, u[1..]);
      AffineSquare(y[1..], d, k, u[1..]);
      TermSquare(y[0], d, k, u[0], Dot(y[1..], y[1..]), |u[1..]| as real, Sum(u[1..]), Dot(u[1..], u[1..]),
                 Dot(y, y), |u| as real, Sum(u), Dot(u, u));
    }
  }

  predicate IsSquare(yy: real, n: real, d: real, k: real, s: real, uu: real) {
    yy == n * (d * d) + 2.0 * (d * k) * s + k * k * uu
  }

  lemma TermSquare(y: real, d: real, k: real, u: real, yy: real, n: real, s: real, uu: real,
                   yy': real, n': real, s': real, uu': real)
    requires y == d + k * u && IsSquare(yy, n, d, k, s, uu)
    requires yy' == y * y + yy && n' == n + 1.0 && s' == u + s && uu' == u * u + uu
    ensures IsSquare(yy', n', d, k, s', uu')
  {
    assert y * y == d * d + 2.0 * (d * k) * u + k * k * (u * u);
  }

  lemma OrthogonalToLine(y: seq<real>, d: real, k: real, u: seq<real>, r: seq<real>)
    requires Affine(y, d, k, u) && |r| == |y|
    requires Sum(r) == 0.0 && Dot(u, r) == 0.0
    ensures Dot(y, r) == 0.0
  {
    DotAffine(y, d, k, u, r);
  }

  predicate Exceeds(zz: real, rr: real, n: real, d: real, k: real, uu: real) {
    zz == rr + (n * (d * d) + k * k * uu)
  }

  /** Adding a line to a vector orthogonal to it adds the square of the line. */
  lemma AddLine(z: seq<real>, r: seq<real>, y: seq<real>, d: real, k: real, u: seq<real>)
    requires Combines(z, r, 1.0, y) && Affine(y, d, k, u)
    requires Sum(u) == 0.0 && Sum(r) == 0.0 && Dot(u, r) == 0.0
    ensures Exceeds(Dot(z, z), Dot(r, r), |u| as real, d, k, Dot(u, u))
  {
    OrthogonalToLine(y, d, k, u, r);
    Pythagoras(z, r, y);
    AffineSquare(y, d, k, u);
    ExceedsBySquare(Dot(z, z), Dot(r, r), Dot(y, y), |u| as real, d, k, Sum(u), Dot(u, u));
  }

  lemma ExceedsBySquare(zz: real, rr: real, yy: real, n: real, d: real, k: real, s: real, uu: real)
    requires IsSquare(yy, n, d, k, s, uu) && s == 0.0 && zz == rr + yy
    ensures Exceeds(zz, rr, n, d, k, uu)
  {
  }

  lemma ExcessIsPositive(zz: real, rr: real, n: real, d: real, k: real, uu: real)
    requires Exceeds(zz, rr, n, d, k, uu) && n > 0.0 && uu > 0.0
    ensures zz >= rr
    ensures zz == rr <==> d == 0.0 && k == 0.0
  {
    var dd, kk := d * d, k * k;
    assert dd >= 0.0 && kk >= 0.0;
    Weighted(n, dd);
    Weighted(uu, kk);
    if d != 0.0 {
      Square(d, dd);
    }
    if k != 0.0 {
      Square(k, kk);
    }
    assert kk * uu == uu * kk;
  }

  lemma Weighted(n: real, x: real)
    requires n > 0.0 && x >= 0.0
    ensures n * x >= 0.0
    ensures n * x == 0.0 ==> x == 0.0
  {
  }
}
