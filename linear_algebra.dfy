/** Two-by-two matrices and two-element vectors over the reals: the only shapes
    the normal-equation solver of Prediction/main.c ever works with. */
module LinearAlgebra {

  /** The matrix [[a, b], [c, d]], row by row. */
  datatype Matrix2 = Matrix2(a: real, b: real, c: real, d: real)

  /** The column vector [p, q]. */
  datatype Vector2 = Vector2(p: real, q: real)

  const Identity := Matrix2(1.0, 0.0, 0.0, 1.0)

  const Zero := Matrix2(0.0, 0.0, 0.0, 0.0)

  /** The entry in row i, column j, counting from zero. */
  function Entry(m: Matrix2, i: nat, j: nat): real
    requires i < 2 && j < 2
  {
    if i == 0 then (if j == 0 then m.a else m.b) else (if j == 0 then m.c else m.d)
  }

  predicate Symmetric(m: Matrix2) {
    m.b == m.c
  }

  function Add(m: Matrix2, n: Matrix2): Matrix2 {
    Matrix2(m.a + n.a, m.b + n.b, m.c + n.c, m.d + n.d)
  }

  function Scale(s: real, m: Matrix2): Matrix2 {
    Matrix2(s * m.a, s * m.b, s * m.c, s * m.d)
  }

  /** The matrix product m·n. */
  function Mul(m: Matrix2, n: Matrix2): Matrix2 {
    Matrix2(m.a * n.a + m.b * n.c, m.a * n.b + m.b * n.d,
            m.c * n.a + m.d * n.c, m.c * n.b + m.d * n.d)
  }

  /** The vector sum u + v. */
  function AddVector(u: Vector2, v: Vector2): Vector2 {
    Vector2(u.p + v.p, u.q + v.q)
  }

  /** The scalar multiple s·v. */
  function ScaleVector(s: real, v: Vector2): Vector2 {
    Vector2(s * v.p, s * v.q)
  }

  /** The matrix-vector product m·v. */
  function Apply(m: Matrix2, v: Vector2): Vector2 {
    Vector2(m.a * v.p + m.b * v.q, m.c * v.p + m.d * v.q)
  }

  /** The dot product u·v. */
  function Inner(u: Vector2, v: Vector2): real {
    u.p * v.p + u.q * v.q
  }

  /** The quadratic form bᵀ·m·b. */
  function Quadratic(m: Matrix2, b: Vector2): real {
    Inner(b, Apply(m, b))
  }

  function Det(m: Matrix2): real {
    m.a * m.d - m.b * m.c
  }

  /** The matrix [[d, -b], [-c, a]] that the closed-form inverse scales. */
  function Adjugate(m: Matrix2): Matrix2 {
    Matrix2(m.d, -m.b, -m.c, m.a)
  }

  /** The closed-form inverse 1/(ad - bc) · [[d, -b], [-c, a]]; it is a
      two-sided inverse whenever the determinant is not zero. */
  function Inverse(m: Matrix2): (r: Matrix2)
    requires Det(m) != 0.0
    ensures Mul(r, m) == Identity
    ensures Mul(m, r) == Identity
  {
    var s := 1.0 / Det(m);
    AdjugateInverts(m, s);
    Scale(s, Adjugate(m))
  }

  /** s·adj(m) inverts m on both sides once s·det(m) = 1. */
  lemma AdjugateInverts(m: Matrix2, s: real)
    requires s * Det(m) == 1.0
    ensures Mul(Scale(s, Adjugate(m)), m) == Identity
    ensures Mul(m, Scale(s, Adjugate(m))) == Identity
  {
    var r := Scale(s, Adjugate(m));
    assert r.a * m.a + r.b * m.c == s * Det(m);
    assert r.a * m.b + r.b * m.d == s * (m.d * m.b - m.b * m.d);
    assert r.c * m.a + r.d * m.c == s * (m.a * m.c - m.c * m.a);
    assert r.c * m.b + r.d * m.d == s * Det(m);
    assert m.a * r.a + m.b * r.c == s * Det(m);
    assert m.a * r.b + m.b * r.d == s * (m.b * m.a - m.a * m.b);
    assert m.c * r.a + m.d * r.c == s * (m.c * m.d - m.d * m.c);
    assert m.c * r.b + m.d * r.d == s * Det(m);
  }

  /** Multiplying by a product is multiplying by each factor in turn. */
  lemma ApplyMul(m: Matrix2, n: Matrix2, v: Vector2)
    ensures Apply(Mul(m, n), v) == Apply(m, Apply(n, v))
  {
  }

  /** An invertible matrix maps distinct vectors to distinct vectors. */
  lemma ApplyInjective(m: Matrix2, u: Vector2, w: Vector2)
    requires Det(m) != 0.0
    requires Apply(m, u) == Apply(m, w)
    ensures u == w
  {
    var inv := Inverse(m);
    ApplyMul(inv, m, u);
    ApplyMul(inv, m, w);
    assert Apply(Identity, u) == u;
    assert Apply(Identity, w) == w;
  }
}
