/** The normal-equation solver of Prediction/main.c (solveNormalEquation):
    the least-squares line y = b0 + b1·x through paired observations, over
    exact real arithmetic. The pure functions state what the solver computes;
    SolveNormalEquation is the C routine step by step, proved equal to them. */
module Regression {
  import opened LinearAlgebra

  /** x_0 + x_1 + ... + x_(n-1), accumulated left to right. */
  function Sum(s: seq<real>, n: nat): real
    requires n <= |s|
  {
    if n == 0 then 0.0 else Sum(s, n - 1) + s[n - 1]
  }

  /** s_0·t_0 + ... + s_(n-1)·t_(n-1), accumulated left to right. */
  function Dot(s: seq<real>, t: seq<real>, n: nat): real
    requires n <= |s| && n <= |t|
  {
    if n == 0 then 0.0 else Dot(s, t, n - 1) + s[n - 1] * t[n - 1]
  }

  function Square(r: real): real {
    r * r
  }


  /** Row i of the design matrix X: [1, x_i]. */
  function DesignRow(x: real): Vector2 {
    Vector2(1.0, x)
  }

  /** The outer product r·rᵀ. */
  function Outer(r: Vector2): Matrix2 {
    Matrix2(r.p * r.p, r.p * r.q, r.q * r.p, r.q * r.q)
  }

  /** Reference definition of XᵀX over the first n rows of the design matrix:
      the sum of the outer products of its rows. */
  function Gram(xs: seq<real>, n: nat): Matrix2
    requires n <= |xs|
  {
    if n == 0 then Zero else Add(Gram(xs, n - 1), Outer(DesignRow(xs[n - 1])))
  }

  /** Reference definition of Xᵀy over the first n rows: Σ y_i·[1, x_i]. */
  function Moment(xs: seq<real>, ys: seq<real>, n: nat): Vector2
    requires n <= |xs| && n <= |ys|
  {
    if n == 0 then Vector2(0.0, 0.0)
    else AddVector(Moment(xs, ys, n - 1), ScaleVector(ys[n - 1], DesignRow(xs[n - 1])))
  }

  /** The closed form of XᵀX that the C code fills in, [[n, Σx], [Σx, Σx²]],
      is the sum of the outer products of the rows of the design matrix. */
  function Xtx(xs: seq<real>): (r: Matrix2)
    ensures r == Gram(xs, |xs|)
  {
    GramIsXtx(xs, |xs|);
    Matrix2(|xs| as real, Sum(xs, |xs|), Sum(xs, |xs|), Dot(xs, xs, |xs|))
  }

  /** The closed form of Xᵀy that the C code fills in, [Σy, Σx·y], is the
      sum of the rows of the design matrix weighted by the observations. */
  function Xty(xs: seq<real>, ys: seq<real>): (r: Vector2)
    requires |xs| == |ys|
    ensures r == Moment(xs, ys, |xs|)
  {
    MomentIsXty(xs, ys, |xs|);
    Vector2(Sum(ys, |ys|), Dot(xs, ys, |xs|))
  }

  /** XᵀX really is [[n, Σx], [Σx, Σx²]]: both off-diagonal entries are the
      same Σx, so the matrix is symmetric. */
  lemma {:induction false} GramIsXtx(xs: seq<real>, n: nat)
    requires n <= |xs|
    ensures Gram(xs, n) == Matrix2(n as real, Sum(xs, n), Sum(xs, n), Dot(xs, xs, n))
    ensures Symmetric(Gram(xs, n))
  {
    if n > 0 {
      GramIsXtx(xs, n - 1);
    }
  }

  /** Xᵀy really is [Σy, Σx·y]. */
  lemma {:induction false} MomentIsXty(xs: seq<real>, ys: seq<real>, n: nat)
    requires n <= |xs| && n <= |ys|
    ensures Moment(xs, ys, n) == Vector2(Sum(ys, n), Dot(xs, ys, n))
  {
    if n > 0 {
      MomentIsXty(xs, ys, n - 1);
      MomentStep(Moment(xs, ys, n - 1), xs[n - 1], ys[n - 1]);
    }
  }

  /** The regression coefficients B = (XᵀX)⁻¹·Xᵀy, as (b0, b1) = (p, q). They
      solve the normal equation XᵀX·B = Xᵀy. */
  function Fit(xs: seq<real>, ys: seq<real>): (b: Vector2)
    requires |xs| == |ys|
    requires Det(Xtx(xs)) != 0.0
    ensures Apply(Xtx(xs), b) == Xty(xs, ys)
  {
    var inv := Inverse(Xtx(xs));
    ApplyMul(Xtx(xs), inv, Xty(xs, ys));
    assert Apply(Identity, Xty(xs, ys)) == Xty(xs, ys);
    Apply(inv, Xty(xs, ys))
  }

  /** The normal equation has no other solution: a line b with
      XᵀX·b = Xᵀy is the fitted one. */
  lemma NormalEquationUnique(xs: seq<real>, ys: seq<real>, b: Vector2)
    requires |xs| == |ys|
    requires Det(Xtx(xs)) != 0.0
    requires Apply(Xtx(xs), b) == Xty(xs, ys)
    ensures b == Fit(xs, ys)
  {
    ApplyInjective(Xtx(xs), b, Fit(xs, ys));
  }

  /** The value the line b takes at x: b0 + b1·x. */
  function Predict(b: Vector2, x: real): real {
    b.p + b.q * x
  }

  /** The fitted line passes through the point of means: predicting at the
      mean of the x values gives the mean of the y values. */
  lemma FitThroughMeans(xs: seq<real>, ys: seq<real>)
    requires |xs| == |ys| && |xs| > 0
    requires Det(Xtx(xs)) != 0.0
    ensures (|xs| as real) * Predict(Fit(xs, ys), Sum(xs, |xs|) / (|xs| as real)) == Sum(ys, |ys|)
  {
    var b := Fit(xs, ys);
    assert (|xs| as real) * b.p + Sum(xs, |xs|) * b.q == Sum(ys, |ys|) by {
      NormalFirstRow(xs, ys, b);
    }
    RowThroughMeans(xs, ys, b);
  }

  /** A line b satisfying the first row of the normal equation,
      n·b0 + Σx·b1 = Σy, passes through the point of means. */
  lemma RowThroughMeans(xs: seq<real>, ys: seq<real>, b: Vector2)
    requires |xs| > 0
    requires (|xs| as real) * b.p + Sum(xs, |xs|) * b.q == Sum(ys, |ys|)
    ensures (|xs| as real) * Predict(b, Sum(xs, |xs|) / (|xs| as real)) == Sum(ys, |ys|)
  {
    MeanAlgebra(|xs| as real, Sum(xs, |xs|), Sum(ys, |ys|), b);
  }

  /** The first row of the normal equation written out: n·b0 + Σx·b1 = Σy. */
  lemma NormalFirstRow(xs: seq<real>, ys: seq<real>, b: Vector2)
    requires |xs| == |ys|
    requires Apply(Xtx(xs), b) == Xty(xs, ys)
    ensures (|xs| as real) * b.p + Sum(xs, |xs|) * b.q == Sum(ys, |ys|)
  {
    var n, sx, sy := |xs| as real, Sum(xs, |xs|), Sum(ys, |ys|);
    var m, w := Matrix2(n, sx, sx, Dot(xs, xs, |xs|)), Vector2(sy, Dot(xs, ys, |xs|));
    assert Xtx(xs) == m && Xty(xs, ys) == w;
    FirstRow(m, b, w);
  }

  /** Σ (y_i - (b0 + b1·x_i))² over the first n observations. */
  function SquaredError(xs: seq<real>, ys: seq<real>, n: nat, b: Vector2): real
    requires n <= |xs| && n <= |ys|
  {
    if n == 0 then 0.0
    else SquaredError(xs, ys, n - 1, b) + Square(ys[n - 1] - Predict(b, xs[n - 1]))
  }

  /** Σ (b0 + b1·x_i)² over the first n abscissae. */
  function SquaredLine(xs: seq<real>, n: nat, b: Vector2): (r: real)
    requires n <= |xs|
    ensures r >= 0.0
  {
    if n == 0 then 0.0 else SquaredLine(xs, n - 1, b) + Square(Predict(b, xs[n - 1]))
  }

  /** Σ y_i·(b0 + b1·x_i) over the first n observations. */
  function CrossTerm(xs: seq<real>, ys: seq<real>, n: nat, b: Vector2): real
    requires n <= |xs| && n <= |ys|
  {
    if n == 0 then 0.0 else CrossTerm(xs, ys, n - 1, b) + ys[n - 1] * Predict(b, xs[n - 1])
  }

  /** The least-squares objective written with the normal-equation quantities
      m = XᵀX, w = Xᵀy and yy = yᵀy: bᵀ·m·b - 2·bᵀ·w + yy. */
  function Objective(m: Matrix2, w: Vector2, yy: real, b: Vector2): real {
    yy - 2.0 * Inner(b, w) + Quadratic(m, b)
  }

  /** Σ (b0 + b1·x_i)² is the quadratic form of XᵀX over the same rows. */
  lemma {:induction false} SquaredLineIsQuadratic(xs: seq<real>, n: nat, b: Vector2)
    requires n <= |xs|
    ensures SquaredLine(xs, n, b) == Quadratic(Gram(xs, n), b)
    ensures n == |xs| ==> SquaredLine(xs, n, b) == Quadratic(Xtx(xs), b)
  {
    if n > 0 {
      SquaredLineIsQuadratic(xs, n - 1, b);
      QuadraticStep(Gram(xs, n - 1), b, xs[n - 1]);
    }
  }

  /** The squared error splits into yᵀy, the cross term and the fitted squares. */
  lemma {:induction false} SquaredErrorSplit(xs: seq<real>, ys: seq<real>, n: nat, b: Vector2)
    requires n <= |xs| && n <= |ys|
    ensures SquaredError(xs, ys, n, b) == Dot(ys, ys, n) - 2.0 * CrossTerm(xs, ys, n, b) + SquaredLine(xs, n, b)
  {
    if n > 0 {
      SquaredErrorSplit(xs, ys, n - 1, b);
      SquaredErrorSplitStep(xs, ys, n, b);
    }
  }

  lemma SquaredErrorSplitStep(xs: seq<real>, ys: seq<real>, n: nat, b: Vector2)
    requires 0 < n <= |xs| && n <= |ys|
    ensures SquaredError(xs, ys, n, b) - (Dot(ys, ys, n) - 2.0 * CrossTerm(xs, ys, n, b) + SquaredLine(xs, n, b))
         == SquaredError(xs, ys, n - 1, b) - (Dot(ys, ys, n - 1) - 2.0 * CrossTerm(xs, ys, n - 1, b) + SquaredLine(xs, n - 1, b))
  {
    var y, f := ys[n - 1], Predict(b, xs[n - 1]);
    SplitAlgebra(SquaredError(xs, ys, n - 1, b), SquaredError(xs, ys, n, b), Dot(ys, ys, n - 1), Dot(ys, ys, n),
                 CrossTerm(xs, ys, n - 1, b), CrossTerm(xs, ys, n, b), SquaredLine(xs, n - 1, b), SquaredLine(xs, n, b), y, f);
  }

  lemma SplitAlgebra(e: real, e': real, d: real, d': real, c: real, c': real, l: real, l': real, y: real, f: real)
    requires e' == e + Square(y - f) && d' == d + y * y && c' == c + y * f && l' == l + Square(f)
    ensures e' - (d' - 2.0 * c' + l') == e - (d - 2.0 * c + l)
  {
    ResidualSquare(y, f);
  }

  /** The cross term is bᵀ·Xᵀy over the same rows. */
  lemma {:induction false} CrossTermIsInner(xs: seq<real>, ys: seq<real>, n: nat, b: Vector2)
    requires n <= |xs| && n <= |ys|
    ensures CrossTerm(xs, ys, n, b) == Inner(b, Moment(xs, ys, n))
  {
    if n > 0 {
      CrossTermIsInner(xs, ys, n - 1, b);
      CrossTermStep(xs, ys, n, b);
    }
  }

  lemma CrossTermStep(xs: seq<real>, ys: seq<real>, n: nat, b: Vector2)
    requires 0 < n <= |xs| && n <= |ys|
    ensures CrossTerm(xs, ys, n, b) - Inner(b, Moment(xs, ys, n)) == CrossTerm(xs, ys, n - 1, b) - Inner(b, Moment(xs, ys, n - 1))
  {
    MomentStep(Moment(xs, ys, n - 1), xs[n - 1], ys[n - 1]);
    CrossStep(b, Moment(xs, ys, n - 1), Moment(xs, ys, n), xs[n - 1], ys[n - 1]);
  }

  /** The squared error of the line b is the objective bᵀ·XᵀX·b - 2·bᵀ·Xᵀy + yᵀy. */
  lemma SquaredErrorIsObjective(xs: seq<real>, ys: seq<real>, b: Vector2)
    requires |xs| == |ys|
    ensures SquaredError(xs, ys, |xs|, b) == Objective(Xtx(xs), Xty(xs, ys), Dot(ys, ys, |xs|), b)
  {
    SquaredErrorSplit(xs, ys, |xs|, b);
    CrossTermIsInner(xs, ys, |xs|, b);
    MomentIsXty(xs, ys, |xs|);
    SquaredLineIsQuadratic(xs, |xs|, b);
  }

  /** The least-squares property the normal equation exists for: no line has
      a smaller sum of squared residuals than the fitted one, and every other
      line has a strictly larger one. */
  lemma FitIsLeastSquares(xs: seq<real>, ys: seq<real>, c: Vector2)
    requires |xs| == |ys|
    requires Det(Xtx(xs)) != 0.0
    ensures SquaredError(xs, ys, |xs|, Fit(xs, ys)) <= SquaredError(xs, ys, |xs|, c)
    ensures SquaredError(xs, ys, |xs|, Fit(xs, ys)) == SquaredError(xs, ys, |xs|, c) ==> c == Fit(xs, ys)
  {
    var b := Fit(xs, ys);
    var d := Vector2(c.p - b.p, c.q - b.q);
    SquaredErrorIsObjective(xs, ys, b);
    SquaredErrorIsObjective(xs, ys, c);
    ObjectiveIdentity(Xtx(xs), Xty(xs, ys), Dot(ys, ys, |xs|), b, c);
    SquaredLineIsQuadratic(xs, |xs|, d);
    if SquaredError(xs, ys, |xs|, b) == SquaredError(xs, ys, |xs|, c) {
      DetNonNegative(xs);
      QuadraticDefinite(Xtx(xs), d);
    }
  }

  /** Every residual of data lying on the line b is zero. */
  lemma {:induction false} OnLineNoError(xs: seq<real>, ys: seq<real>, n: nat, b: Vector2)
    requires n <= |xs| && n <= |ys|
    requires forall i :: 0 <= i < n ==> ys[i] == Predict(b, xs[i])
    ensures SquaredError(xs, ys, n, b) == 0.0
  {
    if n > 0 {
      OnLineNoError(xs, ys, n - 1, b);
    }
  }

  /** Data lying exactly on the line y = b0 + b1·x is fitted exactly. */
  lemma FitRecoversLine(xs: seq<real>, ys: seq<real>, b: Vector2)
    requires |xs| == |ys|
    requires Det(Xtx(xs)) != 0.0
    requires forall i :: 0 <= i < |xs| ==> ys[i] == Predict(b, xs[i])
    ensures Fit(xs, ys) == b
  {
    OnLineNoError(xs, ys, |xs|, b);
    FitIsLeastSquares(xs, ys, b);
    SquaredErrorNonNegative(xs, ys, |xs|, Fit(xs, ys));
  }

  lemma {:induction false} SquaredErrorNonNegative(xs: seq<real>, ys: seq<real>, n: nat, b: Vector2)
    requires n <= |xs| && n <= |ys|
    ensures SquaredError(xs, ys, n, b) >= 0.0
  {
    if n > 0 {
      SquaredErrorNonNegative(xs, ys, n - 1, b);
      SquareNonNegative(ys[n - 1] - Predict(b, xs[n - 1]));
    }
  }

  /** Moments of abscissae that are all equal to x. */
  lemma {:induction false} ConstantMoments(xs: seq<real>, n: nat, x: real)
    requires n <= |xs|
    requires forall i :: 0 <= i < n ==> xs[i] == x
    ensures Sum(xs, n) == (n as real) * x
    ensures Dot(xs, xs, n) == (n as real) * (x * x)
  {
    if n > 0 {
      ConstantMoments(xs, n - 1, x);
    }
  }

  /** A sum of squares is zero only when every squared term is. */
  lemma {:induction false} SquaredLineZero(xs: seq<real>, n: nat, b: Vector2)
    requires n <= |xs|
    requires SquaredLine(xs, n, b) == 0.0
    ensures forall i :: 0 <= i < n ==> Predict(b, xs[i]) == 0.0
  {
    if n > 0 {
      var t := Predict(b, xs[n - 1]);
      SquareNonNegative(t);
      assert SquaredLine(xs, n - 1, b) == 0.0;
      SquareZero(t);
      SquaredLineZero(xs, n - 1, b);
    }
  }

  /** The line n·x - Σx, whose squares over the data sum to n·det(XᵀX). */
  function Centring(xs: seq<real>): Vector2 {
    Vector2(-Xtx(xs).b, Xtx(xs).a)
  }

  /** n·det(XᵀX) is a quadratic form of XᵀX, and so the sum of the squares
      of n·x_i - Σx. */
  lemma ScaledDetIsQuadratic(xs: seq<real>)
    ensures Xtx(xs).a * Det(Xtx(xs)) == Quadratic(Xtx(xs), Centring(xs))
  {
    DetAlgebra(Xtx(xs));
  }

  /** The determinant the solver divides by is never negative. */
  lemma DetNonNegative(xs: seq<real>)
    ensures Det(Xtx(xs)) >= 0.0
  {
    ScaledDetIsQuadratic(xs);
    SquaredLineIsQuadratic(xs, |xs|, Centring(xs));
    if |xs| == 0 {
      assert Xtx(xs) == Zero;
    } else {
      PositiveFactor(Xtx(xs).a, Det(Xtx(xs)));
    }
  }

  /** The determinant is zero exactly when all abscissae are equal (this
      includes no data and a single observation): then the normal equation
      has no unique solution, and the C code's unchecked division by the
      determinant yields infinite or undefined coefficients. */
  lemma DegenerateIffAllEqual(xs: seq<real>)
    ensures Det(Xtx(xs)) == 0.0 <==> AllEqual(xs)
  {
    if AllEqual(xs) {
      AllEqualDegenerate(xs);
    }
    if Det(Xtx(xs)) == 0.0 {
      DegenerateAllEqual(xs);
    }
  }

  predicate AllEqual(xs: seq<real>) {
    forall i, j :: 0 <= i < |xs| && 0 <= j < |xs| ==> xs[i] == xs[j]
  }

  lemma AllEqualDegenerate(xs: seq<real>)
    requires AllEqual(xs)
    ensures Det(Xtx(xs)) == 0.0
  {
    if |xs| > 0 {
      ConstantMoments(xs, |xs|, xs[0]);
      DetOfConstant(|xs| as real, xs[0], Sum(xs, |xs|), Dot(xs, xs, |xs|), Det(Xtx(xs)));
    }
  }

  lemma DegenerateAllEqual(xs: seq<real>)
    requires Det(Xtx(xs)) == 0.0
    ensures AllEqual(xs)
  {
    if |xs| > 0 {
      var c := Centring(xs);
      ScaledDetIsQuadratic(xs);
      SquaredLineIsQuadratic(xs, |xs|, c);
      SquaredLineZero(xs, |xs|, c);
      forall i | 0 <= i < |xs|
        ensures xs[i] == -c.p / c.q
      {
        RootOfLine(c, xs[i]);
      }
    }
  }

  // Real-arithmetic facts over plain variables, kept apart from the sequence
  // functions: a step lemma takes the values before and after one more
  // observation as parameters, so that its caller needs no arithmetic.

  lemma QuadraticStep(g: Matrix2, b: Vector2, x: real)
    ensures Quadratic(Add(g, Outer(DesignRow(x))), b) == Quadratic(g, b) + Square(Predict(b, x))
  {
    QuadraticAdd(g, Outer(DesignRow(x)), b);
    QuadraticOuter(DesignRow(x), b);
  }

  lemma QuadraticAdd(g: Matrix2, h: Matrix2, b: Vector2)
    ensures Quadratic(Add(g, h), b) == Quadratic(g, b) + Quadratic(h, b)
  {
  }

  lemma QuadraticOuter(r: Vector2, b: Vector2)
    ensures Quadratic(Outer(r), b) == Square(Inner(r, b))
  {
  }

  lemma ResidualSquare(y: real, f: real)
    ensures Square(y - f) == y * y - 2.0 * (y * f) + Square(f)
  {
  }

  lemma FirstRow(m: Matrix2, b: Vector2, w: Vector2)
    requires Apply(m, b) == w
    ensures m.a * b.p + m.b * b.q == w.p
  {
  }

  lemma MeanAlgebra(n: real, sx: real, sy: real, b: Vector2)
    requires n > 0.0 && n * b.p + sx * b.q == sy
    ensures n * Predict(b, sx / n) == sy
  {
    assert n * (b.q * (sx / n)) == b.q * sx;
  }

  lemma MomentStep(m: Vector2, x: real, y: real)
    ensures AddVector(m, ScaleVector(y, DesignRow(x))) == Vector2(m.p + y, m.q + x * y)
  {
  }

  lemma CrossStep(b: Vector2, m: Vector2, m': Vector2, x: real, y: real)
    requires m' == Vector2(m.p + y, m.q + x * y)
    ensures Inner(b, m') == Inner(b, m) + y * Predict(b, x)
  {
  }

  /** Around a solution b of m·b = w, the objective grows by the quadratic
      form of the displacement. */
  lemma ObjectiveIdentity(m: Matrix2, w: Vector2, yy: real, b: Vector2, c: Vector2)
    requires Symmetric(m) && Apply(m, b) == w
    ensures Objective(m, w, yy, c) == Objective(m, w, yy, b) + Quadratic(m, Vector2(c.p - b.p, c.q - b.q))
  {
  }

  /** A symmetric matrix with positive leading entry and determinant is
      positive definite: its quadratic form vanishes only at zero. */
  lemma QuadraticDefinite(m: Matrix2, d: Vector2)
    requires Symmetric(m) && m.a > 0.0 && Det(m) > 0.0
    requires Quadratic(m, d) == 0.0
    ensures d == Vector2(0.0, 0.0)
  {
    var u := m.a * d.p + m.b * d.q;
    CompletedSquare(m, d);
    SquareNonNegative(u);
    SquareNonNegative(d.q);
    NonNegativeProduct(Det(m), Square(d.q));
    ZeroFactor(Det(m), Square(d.q));
    SquareZero(d.q);
    SquareZero(u);
    ZeroFactor(m.a, d.p);
  }

  /** m.a · bᵀ·m·b = (m.a·b0 + m.b·b1)² + det(m)·b1² for a symmetric m. */
  lemma CompletedSquare(m: Matrix2, d: Vector2)
    requires Symmetric(m)
    ensures m.a * Quadratic(m, d) == Square(m.a * d.p + m.b * d.q) + Det(m) * Square(d.q)
  {
  }

  lemma NonNegativeProduct(a: real, r: real)
    requires a >= 0.0 && r >= 0.0
    ensures a * r >= 0.0
  {
  }

  lemma ZeroFactor(a: real, r: real)
    requires a != 0.0 && a * r == 0.0
    ensures r == 0.0
  {
  }

  lemma DetAlgebra(m: Matrix2)
    requires Symmetric(m)
    ensures m.a * Det(m) == Quadratic(m, Vector2(-m.b, m.a))
  {
  }

  /** The cells the solver computes, 1/(ad - b·b)·[[d, -1·b], [-1·c, a]],
      are the inverse of a symmetric m. */
  lemma InverseCells(m: Matrix2, s: real, adj: Matrix2, inv: Matrix2)
    requires Det(m) != 0.0 && Symmetric(m)
    requires s == 1.0 / (m.a * m.d - m.b * m.b)
    requires adj == Matrix2(m.d, -1.0 * m.b, -1.0 * m.c, m.a)
    requires inv == Matrix2(s * adj.a, s * adj.b, s * adj.c, s * adj.d)
    ensures inv == Inverse(m)
  {
  }

  /** The two rows of B as the C code writes them: Xᵀy times a row of the
      inverse, with the Xᵀy factor first. */
  lemma ApplyCells(inv: Matrix2, w: Vector2, b: Vector2)
    requires b == Vector2(w.p * inv.a + w.q * inv.b, w.p * inv.c + w.q * inv.d)
    ensures b == Apply(inv, w)
  {
  }

  lemma DetOfConstant(n: real, x: real, s: real, d: real, det: real)
    requires s == n * x && d == n * (x * x) && det == n * d - s * s
    ensures det == 0.0
  {
  }

  lemma SquareNonNegative(t: real)
    ensures Square(t) >= 0.0
  {
  }

  lemma SquareZero(t: real)
    requires Square(t) == 0.0
    ensures t == 0.0
  {
    if t != 0.0 {
      ZeroFactor(t, t);
    }
  }

  lemma PositiveFactor(n: real, r: real)
    requires n > 0.0 && n * r >= 0.0
    ensures r >= 0.0
  {
  }

  lemma RootOfLine(c: Vector2, x: real)
    requires c.q != 0.0 && Predict(c, x) == 0.0
    ensures x == -c.p / c.q
  {
  }

  /** The C struct normalEquationVariables: the coefficients of y = b0 + b1·x
      and the number of x and y values the session collected. */
  class NormalEquationVariables {
    var b0: real
    var b1: real
    var xCount: int
    var yCount: int

    /** main declares the struct without initialising it: nothing is
        promised about the fields until they are written. */
    constructor ()
    {
    }
  }

  /** solveNormalEquation: builds X and Xᵀ, accumulates XᵀX and Xᵀy left to
      right, inverts XᵀX by the determinant/adjugate formula and stores
      (XᵀX)⁻¹·Xᵀy in v. Only v.b0 and v.b1 change; the data arrays and the
      counts do not, so calling it again on the same data yields the same
      coefficients. The C code divides by the determinant unchecked, so a
      non-zero determinant is required here. */
  method SolveNormalEquation(v: NormalEquationVariables, xArr: array<real>, yArr: array<real>, size: nat)
    requires size <= xArr.Length && size <= yArr.Length
    requires Det(Xtx(xArr[..size])) != 0.0
    modifies v`b0, v`b1
    ensures Vector2(v.b0, v.b1) == Fit(xArr[..size], yArr[..size])
    ensures v.xCount == old(v.xCount) && v.yCount == old(v.yCount)
  {
    var X := DesignMatrix(xArr, size);
    var XT := DesignTranspose(xArr, size);
    var XTX := NormalMatrix(X, XT, size, xArr[..size]);
    var XTy := NormalVector(xArr, yArr, size);
    var inverseXTX := ClosedFormInverse(XTX);
    var vectorB := Coefficients(inverseXTX, XTy);
    v.b0 := vectorB[0];
    v.b1 := vectorB[1];
  }

  /** B = (XᵀX)⁻¹·Xᵀy, each row of the inverse times Xᵀy. */
  method Coefficients(inverseXTX: array2<real>, XTy: array<real>) returns (vectorB: array<real>)
    requires inverseXTX.Length0 == 2 && inverseXTX.Length1 == 2 && XTy.Length == 2
    ensures fresh(vectorB) && vectorB.Length == 2
    ensures Vector2(vectorB[0], vectorB[1]) == Apply(Cells(inverseXTX), Vector2(XTy[0], XTy[1]))
  {
    vectorB := new real[2];
    vectorB[0] := XTy[0] * inverseXTX[0, 0] + XTy[1] * inverseXTX[0, 1];
    vectorB[1] := XTy[0] * inverseXTX[1, 0] + XTy[1] * inverseXTX[1, 1];
    ApplyCells(Cells(inverseXTX), Vector2(XTy[0], XTy[1]), Vector2(vectorB[0], vectorB[1]));
  }

  /** The design matrix X: row k is [1, x_k]. */
  method DesignMatrix(xArr: array<real>, size: nat) returns (X: array2<real>)
    requires size <= xArr.Length
    ensures fresh(X) && X.Length0 == size && X.Length1 == 2
    ensures forall k :: 0 <= k < size ==> X[k, 0] == 1.0 && X[k, 1] == xArr[k]
  {
    X := new real[size, 2];
    var k := 0;
    while k < size
      invariant 0 <= k <= size
      invariant forall i :: 0 <= i < k ==> X[i, 0] == 1.0 && X[i, 1] == xArr[i]
      modifies X
    {
      X[k, 0] := 1.0;
      X[k, 1] := xArr[k];
      k := k + 1;
    }
  }

  /** Xᵀ, filled row by row from the data: a row of ones, then the x values. */
  method DesignTranspose(xArr: array<real>, size: nat) returns (XT: array2<real>)
    requires size <= xArr.Length
    ensures fresh(XT) && XT.Length0 == 2 && XT.Length1 == size
    ensures forall k :: 0 <= k < size ==> XT[0, k] == 1.0 && XT[1, k] == xArr[k]
  {
    XT := new real[2, size];
    var k := 0;
    while k < size
      invariant 0 <= k <= size
      invariant forall i :: 0 <= i < k ==> XT[0, i] == 1.0
      modifies XT
    {
      XT[0, k] := 1.0;
      k := k + 1;
    }
    k := 0;
    while k < size
      invariant 0 <= k <= size
      invariant forall i :: 0 <= i < size ==> XT[0, i] == 1.0
      invariant forall i :: 0 <= i < k ==> XT[1, i] == xArr[i]
      modifies XT
    {
      XT[1, k] := xArr[k];
      k := k + 1;
    }
  }

  /** XᵀX: the count, Σx read from row 2 of Xᵀ (stored in both off-diagonal
      cells) and Σx² read from column 2 of X. */
  method NormalMatrix(X: array2<real>, XT: array2<real>, size: nat, ghost xs: seq<real>) returns (XTX: array2<real>)
    requires X.Length0 == size && X.Length1 == 2 && XT.Length0 == 2 && XT.Length1 == size && |xs| == size
    requires forall k :: 0 <= k < size ==> X[k, 1] == xs[k] && XT[1, k] == xs[k]
    ensures fresh(XTX) && XTX.Length0 == 2 && XTX.Length1 == 2
    ensures Cells(XTX) == Xtx(xs)
  {
    XTX := new real[2, 2];
    XTX[0, 0] := size as real;
    var sum := 0.0;
    var k := 0;
    while k < size
      invariant 0 <= k <= size
      invariant sum == Sum(xs, k)
    {
      sum := sum + XT[1, k];
      k := k + 1;
    }
    XTX[1, 0] := sum;
    XTX[0, 1] := sum;
    sum := 0.0;
    k := 0;
    while k < size
      invariant 0 <= k <= size
      invariant sum == Dot(xs, xs, k)
    {
      sum := sum + X[k, 1] * X[k, 1];
      k := k + 1;
    }
    XTX[1, 1] := sum;
  }

  /** Xᵀy: Σy, then Σx·y accumulated through the temporary xySum. */
  method NormalVector(xArr: array<real>, yArr: array<real>, size: nat) returns (XTy: array<real>)
    requires size <= xArr.Length && size <= yArr.Length
    ensures fresh(XTy) && XTy.Length == 2
    ensures Vector2(XTy[0], XTy[1]) == Xty(xArr[..size], yArr[..size])
  {
    ghost var xs, ys := xArr[..size], yArr[..size];
    XTy := new real[2];
    var sum := 0.0;
    var k := 0;
    while k < size
      invariant 0 <= k <= size
      invariant sum == Sum(ys, k)
    {
      sum := sum + yArr[k];
      k := k + 1;
    }
    XTy[0] := sum;
    var xySum := 0.0;
    sum := 0.0;
    k := 0;
    while k < size
      invariant 0 <= k <= size
      invariant sum == Dot(xs, ys, k)
    {
      xySum := xArr[k] * yArr[k];
      sum := sum + xySum;
      k := k + 1;
    }
    XTy[1] := sum;
  }

  /** (XᵀX)⁻¹ = 1/(ad - bc)·[[d, -b], [-c, a]], where the C code computes bc
      as XTX[0][1]·XTX[0][1]; that is b·c because XᵀX is symmetric. */
  method ClosedFormInverse(XTX: array2<real>) returns (inverseXTX: array2<real>)
    requires XTX.Length0 == 2 && XTX.Length1 == 2 && XTX[0, 1] == XTX[1, 0]
    requires Det(Cells(XTX)) != 0.0
    ensures fresh(inverseXTX) && inverseXTX.Length0 == 2 && inverseXTX.Length1 == 2
    ensures Cells(inverseXTX) == Inverse(Cells(XTX))
  {
    var ad := XTX[0, 0] * XTX[1, 1];
    var bc := XTX[0, 1] * XTX[0, 1];
    var sum := ad - bc;
    sum := 1.0 / sum;
    var dbca := AdjugateCells(XTX);
    inverseXTX := ScaledMatrix(sum, dbca);
    InverseCells(Cells(XTX), sum, Cells(dbca), Cells(inverseXTX));
  }

  /** The matrix dbca = [[d, -1·b], [-1·c, a]] formed from the cells of XᵀX. */
  method AdjugateCells(XTX: array2<real>) returns (dbca: array2<real>)
    requires XTX.Length0 == 2 && XTX.Length1 == 2
    ensures fresh(dbca) && dbca.Length0 == 2 && dbca.Length1 == 2
    ensures Cells(dbca) == Matrix2(XTX[1, 1], -1.0 * XTX[0, 1], -1.0 * XTX[1, 0], XTX[0, 0])
  {
    dbca := new real[2, 2];
    dbca[0, 0], dbca[0, 1] := XTX[1, 1], -1.0 * XTX[0, 1];
    dbca[1, 0], dbca[1, 1] := -1.0 * XTX[1, 0], XTX[0, 0];
  }

  /** Every cell of the 2×2 array dbca multiplied by s, row by row. */
  method ScaledMatrix(s: real, dbca: array2<real>) returns (r: array2<real>)
    requires dbca.Length0 == 2 && dbca.Length1 == 2
    ensures fresh(r) && r.Length0 == 2 && r.Length1 == 2
    ensures Cells(r) == Scale(s, Cells(dbca))
  {
    ghost var target := Scale(s, Cells(dbca));
    r := new real[2, 2];
    var k := 0;
    while k < 2
      invariant 0 <= k <= 2
      invariant forall i, j :: 0 <= i < k && 0 <= j < 2 ==> r[i, j] == Entry(target, i, j)
      modifies r
    {
      var j := 0;
      while j < 2
        invariant 0 <= j <= 2
        invariant forall i, j' :: 0 <= i < k && 0 <= j' < 2 ==> r[i, j'] == Entry(target, i, j')
        invariant forall j' :: 0 <= j' < j ==> r[k, j'] == Entry(target, k, j')
        modifies r
      {
        r[k, j] := s * dbca[k, j];
        j := j + 1;
      }
      k := k + 1;
    }
  }

  /** The 2×2 array a as a matrix. */
  ghost function Cells(a: array2<real>): Matrix2
    requires a.Length0 == 2 && a.Length1 == 2
    reads a
  {
    Matrix2(a[0, 0], a[0, 1], a[1, 0], a[1, 1])
  }
}
