/** The rigid camera-to-body transform, its acceptance test and its round trip. */
module Transform {
  import opened FlightTypes

  const TOLERANCE := 0.000001

  datatype Vec = Vec(x: real, y: real, z: real)

  /** Rows of the rotation. */
  datatype Matrix = Matrix(r0: Vec, r1: Vec, r2: Vec)

  function Dot(a: Vec, b: Vec): real { a.x * b.x + a.y * b.y + a.z * b.z }

  function Cross(a: Vec, b: Vec): Vec {
    Vec(a.y * b.z - a.z * b.y, a.z * b.x - a.x * b.z, a.x * b.y - a.y * b.x)
  }

  /** The triple product of the rows. */
  function Det(m: Matrix): real { Dot(m.r0, Cross(m.r1, m.r2)) }

  function Apply(m: Matrix, v: Vec): Vec { Vec(Dot(m.r0, v), Dot(m.r1, v), Dot(m.r2, v)) }

  function Transpose(m: Matrix): Matrix {
    Matrix(Vec(m.r0.x, m.r1.x, m.r2.x), Vec(m.r0.y, m.r1.y, m.r2.y), Vec(m.r0.z, m.r1.z, m.r2.z))
  }

  function Plus(a: Vec, b: Vec): Vec { Vec(a.x + b.x, a.y + b.y, a.z + b.z) }

  function Minus(a: Vec, b: Vec): Vec { Vec(a.x - b.x, a.y - b.y, a.z - b.z) }

  function Abs(x: real): real { if x < 0.0 then -x else x }

  function Component(v: Vec, i: int): real { if i == 0 then v.x else if i == 1 then v.y else v.z }

  function Norm1(v: Vec): real { Abs(v.x) + Abs(v.y) + Abs(v.z) }

  /** What one coordinate can lose to the tolerance. */
  function Slack(y: real): real { 0.000001 * Abs(y) }

  predicate Near(x: real, y: real) { Abs(x - y) <= TOLERANCE }

  predicate Within(a: Vec, b: Vec, bound: real) {
    Abs(a.x - b.x) <= bound && Abs(a.y - b.y) <= bound && Abs(a.z - b.z) <= bound
  }

  /** What validation accepts: unit rows, orthogonal rows, right-handed, to a tolerance. */
  predicate Rigid(m: Matrix) {
    && Near(Dot(m.r0, m.r0), 1.0) && Near(Dot(m.r0, m.r1), 0.0) && Near(Dot(m.r0, m.r2), 0.0)
    && Near(Dot(m.r1, m.r1), 1.0) && Near(Dot(m.r1, m.r2), 0.0)
    && Near(Dot(m.r2, m.r2), 1.0)
    && Near(Det(m), 1.0)
  }

  // --- The round trip of every accepted rotation ---

  lemma Product(a: real, b: real)
    requires a >= 0.0 && b >= 0.0
    ensures a * b >= 0.0
  {
  }

  lemma BoundedProduct(e: real, y: real)
    requires Abs(e) <= TOLERANCE
    ensures -Slack(y) <= e * y <= Slack(y)
  {
    Product(TOLERANCE - e, Abs(y));
    Product(TOLERANCE + e, Abs(y));
  }

  lemma DotIsSymmetric(a: Vec, b: Vec)
    ensures Dot(a, b) == Dot(b, a)
  {
  }

  /** One row applied to the transposed image: a combination of row products. */
  lemma RowOfRoundTrip(m: Matrix, row: Vec, y: Vec)
    ensures Dot(row, Apply(Transpose(m), y)) == Dot(row, m.r0) * y.x + Dot(row, m.r1) * y.y + Dot(row, m.r2) * y.z
  {
    Expand(row.x, m.r0.x, m.r1.x, m.r2.x, y);
    Expand(row.y, m.r0.y, m.r1.y, m.r2.y, y);
    Expand(row.z, m.r0.z, m.r1.z, m.r2.z, y);
    Collect(row, m.r0, y.x);
    Collect(row, m.r1, y.y);
    Collect(row, m.r2, y.z);
  }

  lemma Expand(r: real, a: real, b: real, c: real, y: Vec)
    ensures r * (a * y.x + b * y.y + c * y.z) == r * a * y.x + r * b * y.y + r * c * y.z
  {
  }

  lemma Collect(a: Vec, b: Vec, y: real)
    ensures Dot(a, b) * y == a.x * b.x * y + a.y * b.y * y + a.z * b.z * y
  {
  }

  /** What one near-unit or near-zero coefficient can add to or take from its term. */
  lemma TermError(d: real, hit: bool, y: real, p: real)
    requires Near(d, if hit then 1.0 else 0.0)
    requires p == d * y
    ensures Abs(p - if hit then y else 0.0) <= Slack(y)
  {
    if hit {
      BoundedProduct(d - 1.0, y);
      assert (d - 1.0) * y == d * y - y;
    } else {
      BoundedProduct(d, y);
    }
  }

  lemma SumOfErrors(p: real, q: real, r: real, y: Vec, i: int)
    requires 0 <= i < 3
    requires Abs(p - if i == 0 then y.x else 0.0) <= Slack(y.x)
    requires Abs(q - if i == 1 then y.y else 0.0) <= Slack(y.y)
    requires Abs(r - if i == 2 then y.z else 0.0) <= Slack(y.z)
    ensures Abs(p + q + r - Component(y, i)) <= Slack(y.x) + Slack(y.y) + Slack(y.z)
  {
  }

  /** A row that is near-unit against row i and near-orthogonal to the others gives component i back. */
  lemma TermsBack(d0: real, d1: real, d2: real, y: Vec, i: int, p: real, q: real, r: real)
    requires 0 <= i < 3
    requires Near(d0, if i == 0 then 1.0 else 0.0)
    requires Near(d1, if i == 1 then 1.0 else 0.0)
    requires Near(d2, if i == 2 then 1.0 else 0.0)
    requires p == d0 * y.x && q == d1 * y.y && r == d2 * y.z
    ensures Abs(p + q + r - Component(y, i)) <= Slack(y.x) + Slack(y.y) + Slack(y.z)
  {
    TermError(d0, i == 0, y.x, p);
    TermError(d1, i == 1, y.y, q);
    TermError(d2, i == 2, y.z, r);
    SumOfErrors(p, q, r, y, i);
  }

  lemma SlackSums(y: Vec)
    ensures Slack(y.x) + Slack(y.y) + Slack(y.z) == TOLERANCE * Norm1(y)
  {
  }

  lemma RowBack(m: Matrix, row: Vec, y: Vec, i: int, back: real, bound: real)
    requires 0 <= i < 3
    requires Near(Dot(row, m.r0), if i == 0 then 1.0 else 0.0)
    requires Near(Dot(row, m.r1), if i == 1 then 1.0 else 0.0)
    requires Near(Dot(row, m.r2), if i == 2 then 1.0 else 0.0)
    requires back == Dot(row, Apply(Transpose(m), y)) && bound == TOLERANCE * Norm1(y)
    ensures Abs(back - Component(y, i)) <= bound
  {
    RowOfRoundTrip(m, row, y);
    var p, q, r := Dot(row, m.r0) * y.x, Dot(row, m.r1) * y.y, Dot(row, m.r2) * y.z;
    TermsBack(Dot(row, m.r0), Dot(row, m.r1), Dot(row, m.r2), y, i, p, q, r);
    SlackSums(y);
  }

  function Row(m: Matrix, i: int): Vec { if i == 0 then m.r0 else if i == 1 then m.r1 else m.r2 }

  /** Component i of R(R^T y) is that of y up to one millionth of |y|_1. */
  lemma ComponentBack(m: Matrix, y: Vec, i: int)
    requires 0 <= i < 3 && Rigid(m)
    ensures Abs(Dot(Row(m, i), Apply(Transpose(m), y)) - Component(y, i)) <= TOLERANCE * Norm1(y)
  {
    var row := Row(m, i);
    DotIsSymmetric(m.r0, m.r1);
    DotIsSymmetric(m.r0, m.r2);
    DotIsSymmetric(m.r1, m.r2);
    RowBack(m, row, y, i, Dot(row, Apply(Transpose(m), y)), TOLERANCE * Norm1(y));
  }

  /** For every accepted rotation R, R(R^T y) is y up to one millionth of |y|_1. */
  lemma RoundTrip(m: Matrix, y: Vec)
    requires Rigid(m)
    ensures Within(Apply(m, Apply(Transpose(m), y)), y, TOLERANCE * Norm1(y))
  {
    ComponentBack(m, y, 0);
    ComponentBack(m, y, 1);
    ComponentBack(m, y, 2);
  }

  // --- The exact case ---

  predicate Orthonormal(m: Matrix) {
    && Dot(m.r0, m.r0) == 1.0 && Dot(m.r1, m.r1) == 1.0 && Dot(m.r2, m.r2) == 1.0
    && Dot(m.r0, m.r1) == 0.0 && Dot(m.r0, m.r2) == 0.0 && Dot(m.r1, m.r2) == 0.0
  }

  lemma Lagrange(a: Vec, b: Vec)
    ensures Dot(Cross(a, b), Cross(a, b)) == Dot(a, a) * Dot(b, b) - Dot(a, b) * Dot(a, b)
  {
  }

  lemma SquareOfDifference(a: Vec, b: Vec)
    ensures Dot(Minus(a, b), Minus(a, b)) == Dot(a, a) - 2.0 * Dot(a, b) + Dot(b, b)
  {
  }

  lemma PositiveProduct(a: real, b: real, product: real)
    requires a > 0.0 && b > 0.0
    requires product == a * b
    ensures product > 0.0
  {
  }

  lemma SquareSign(x: real, square: real)
    requires square == x * x
    ensures square >= 0.0
    ensures x != 0.0 ==> square > 0.0
  {
    if x > 0.0 {
      PositiveProduct(x, x, square);
    } else if x < 0.0 {
      PositiveProduct(-x, -x, square);
    }
  }

  lemma NonZeroDot(v: Vec)
    requires v != Vec(0.0, 0.0, 0.0)
    ensures Dot(v, v) > 0.0
  {
    var sx, sy, sz := v.x * v.x, v.y * v.y, v.z * v.z;
    SquareSign(v.x, sx);
    SquareSign(v.y, sy);
    SquareSign(v.z, sz);
    assert Dot(v, v) == sx + sy + sz;
  }

  lemma Distinct(a: Vec, b: Vec)
    requires a != b
    ensures Dot(a, a) - 2.0 * Dot(a, b) + Dot(b, b) > 0.0
  {
    NonZeroDot(Minus(a, b));
    SquareOfDifference(a, b);
  }

  lemma CrossIsUnit(a: Vec, b: Vec)
    requires Dot(a, a) == 1.0 && Dot(b, b) == 1.0 && Dot(a, b) == 0.0
    ensures Dot(Cross(a, b), Cross(a, b)) == 1.0
  {
    Lagrange(a, b);
  }

  lemma UnitAlong(a: Vec, p: Vec)
    requires Dot(a, a) == 1.0 && Dot(p, p) == 1.0 && Dot(a, p) == 1.0
    ensures a == p
  {
    if a != p {
      Distinct(a, p);
    }
  }

  /** A unit vector with unit component along a cross product of unit orthogonal vectors is that product. */
  lemma RowIsCross(a: Vec, b: Vec, c: Vec)
    requires Dot(a, a) == 1.0 && Dot(b, b) == 1.0 && Dot(c, c) == 1.0 && Dot(b, c) == 0.0
    requires Dot(a, Cross(b, c)) == 1.0
    ensures a == Cross(b, c)
  {
    CrossIsUnit(b, c);
    UnitAlong(a, Cross(b, c));
  }

  /** A factor times a two-by-two minor, as two triple products. */
  lemma Minor(x: real, d: real, p: real, q: real, r: real, s: real, u: real, v: real)
    requires d == p * q - r * s && u == x * p * q && v == x * r * s
    ensures x * d == u - v
  {
    assert x * (p * q - r * s) == x * p * q - x * r * s;
  }

  lemma Rotates(x: real, y: real, z: real)
    ensures x * y * z == y * z * x == z * x * y
  {
  }

  lemma Exchanges(x: real, y: real, z: real)
    ensures x * y * z == x * z * y == y * x * z
  {
  }

  lemma TripleScalars(a: real, a': real, a'': real, b: real, b': real, b'': real, c: real, c': real, c'': real,
                      p: real, p': real, p'': real, q: real, q': real, q'': real)
    requires p == b' * c'' - b'' * c' && p' == b'' * c - b * c'' && p'' == b * c' - b' * c
    requires q == c' * a'' - c'' * a' && q' == c'' * a - c * a'' && q'' == c * a' - c' * a
    ensures a * p + a' * p' + a'' * p'' == b * q + b' * q' + b'' * q''
  {
    Minor(a, p, b', c'', b'', c', a * b' * c'', a * b'' * c');
    Minor(a', p', b'', c, b, c'', a' * b'' * c, a' * b * c'');
    Minor(a'', p'', b, c', b', c, a'' * b * c', a'' * b' * c);
    Minor(b, q, c', a'', c'', a', b * c' * a'', b * c'' * a');
    Minor(b', q', c'', a, c, a'', b' * c'' * a, b' * c * a'');
    Minor(b'', q'', c, a', c', a, b'' * c * a', b'' * c' * a);
    Rotates(b, c', a'');
    Rotates(b, c'', a');
    Rotates(b', c'', a);
    Rotates(b', c, a'');
    Rotates(b'', c, a');
    Rotates(b'', c', a);
  }

  lemma TripleProductRotates(a: Vec, b: Vec, c: Vec)
    ensures Dot(a, Cross(b, c)) == Dot(b, Cross(c, a))
  {
    var (p, q) := (Cross(b, c), Cross(c, a));
    TripleScalars(a.x, a.y, a.z, b.x, b.y, b.z, c.x, c.y, c.z, p.x, p.y, p.z, q.x, q.y, q.z);
  }

  function Turn(v: Vec): Vec { Vec(v.y, v.z, v.x) }

  lemma ColumnScalars(a': real, a'': real, b: real, b': real, b'': real, c: real, c': real, c'': real,
                      p': real, p'': real, q: real, r: real)
    requires p' == b'' * c - b * c'' && p'' == b * c' - b' * c
    requires q == c' * a'' - c'' * a' && r == a' * b'' - a'' * b'
    ensures b * q + c * r == a' * p' + a'' * p''
  {
    Minor(a', p', b'', c, b, c'', a' * b'' * c, a' * b * c'');
    Minor(a'', p'', b, c', b', c, a'' * b * c', a'' * b' * c);
    Minor(b, q, c', a'', c'', a', b * c' * a'', b * c'' * a');
    Minor(c, r, a', b'', a'', b', c * a' * b'', c * a'' * b');
    Rotates(b, c', a'');
    Rotates(b, c'', a');
    Rotates(c, a', b'');
    Rotates(c, a'', b');
  }

  /** Expansion along the x column and along the first row agree. */
  lemma OwnColumn(a: Vec, b: Vec, c: Vec)
    ensures a.x * Cross(b, c).x + b.x * Cross(c, a).x + c.x * Cross(a, b).x == Dot(a, Cross(b, c))
  {
    ColumnScalars(a.y, a.z, b.x, b.y, b.z, c.x, c.y, c.z, Cross(b, c).y, Cross(b, c).z, Cross(c, a).x, Cross(a, b).x);
  }

  /** Expansion along one column with another column's cofactors gives zero. */
  lemma OtherColumn(a: Vec, b: Vec, c: Vec)
    ensures a.y * Cross(b, c).x + b.y * Cross(c, a).x + c.y * Cross(a, b).x == 0.0
    ensures a.z * Cross(b, c).x + b.z * Cross(c, a).x + c.z * Cross(a, b).x == 0.0
  {
    Alternates(a.y, b.y, c.y, a.z, b.z, c.z, Cross(b, c).x, Cross(c, a).x, Cross(a, b).x);
  }

  lemma Alternates(a: real, b: real, c: real, a': real, b': real, c': real, p: real, q: real, r: real)
    requires p == b * c' - b' * c && q == c * a' - c' * a && r == a * b' - a' * b
    ensures a * p + b * q + c * r == 0.0 && a' * p + b' * q + c' * r == 0.0
  {
    Minor(a, p, b, c', b', c, a * b * c', a * b' * c);
    Minor(b, q, c, a', c', a, b * c * a', b * c' * a);
    Minor(c, r, a, b', a', b, c * a * b', c * a' * b);
    Minor(a', p, b, c', b', c, a' * b * c', a' * b' * c);
    Minor(b', q, c, a', c', a, b' * c * a', b' * c' * a);
    Minor(c', r, a, b', a', b, c' * a * b', c' * a' * b);
    Exchanges(a, b, c');
    Rotates(b, c', a);
    Rotates(a, b', c);
    Rotates(b, c, a');
    Exchanges(c, a', b);
    Rotates(c, a', b);
    Rotates(a', b, c');
    Exchanges(c', a', b);
    Rotates(a', b', c);
    Rotates(b', c', a);
    Exchanges(c', a, b');
  }

  lemma CrossTurns(a: Vec, b: Vec)
    ensures Cross(Turn(a), Turn(b)) == Turn(Cross(a, b))
  {
  }

  /** The first column of a matrix whose rows are its own cofactors. */
  lemma FirstColumn(a: Vec, b: Vec, c: Vec)
    requires a == Cross(b, c) && b == Cross(c, a) && c == Cross(a, b)
    requires Dot(a, a) == 1.0
    ensures a.x * a.x + b.x * b.x + c.x * c.x == 1.0
    ensures a.y * a.x + b.y * b.x + c.y * c.x == 0.0
    ensures a.z * a.x + b.z * b.x + c.z * c.x == 0.0
  {
    OwnColumn(a, b, c);
    OtherColumn(a, b, c);
  }

  lemma Turned(a: Vec, b: Vec, c: Vec)
    requires a == Cross(b, c) && b == Cross(c, a) && c == Cross(a, b)
    requires Dot(a, a) == 1.0
    ensures Turn(a) == Cross(Turn(b), Turn(c)) && Turn(b) == Cross(Turn(c), Turn(a))
            && Turn(c) == Cross(Turn(a), Turn(b))
    ensures Dot(Turn(a), Turn(a)) == 1.0
  {
    CrossTurns(b, c);
    CrossTurns(c, a);
    CrossTurns(a, b);
  }

  /** Orthonormal right-handed rows make orthonormal columns. */
  lemma ColumnsOrthonormal(m: Matrix)
    requires Orthonormal(m) && Det(m) == 1.0
    ensures Orthonormal(Transpose(m))
  {
    var (a, b, c) := (m.r0, m.r1, m.r2);
    RowsAreCrosses(a, b, c);
    FirstColumn(a, b, c);
    Turned(a, b, c);
    FirstColumn(Turn(a), Turn(b), Turn(c));
    Turned(Turn(a), Turn(b), Turn(c));
    FirstColumn(Turn(Turn(a)), Turn(Turn(b)), Turn(Turn(c)));
    var t := Transpose(m);
    DotIsSymmetric(t.r0, t.r1);
    DotIsSymmetric(t.r1, t.r2);
    DotIsSymmetric(t.r0, t.r2);
  }

  lemma RowsAreCrosses(a: Vec, b: Vec, c: Vec)
    requires Dot(a, a) == 1.0 && Dot(b, b) == 1.0 && Dot(c, c) == 1.0
    requires Dot(a, b) == 0.0 && Dot(a, c) == 0.0 && Dot(b, c) == 0.0
    requires Dot(a, Cross(b, c)) == 1.0
    ensures a == Cross(b, c) && b == Cross(c, a) && c == Cross(a, b)
  {
    TripleProductRotates(a, b, c);
    TripleProductRotates(b, c, a);
    DotIsSymmetric(a, c);
    RowIsCross(a, b, c);
    RowIsCross(b, c, a);
    RowIsCross(c, a, b);
  }

  lemma ApplyIsLinear(m: Matrix, a: Vec, b: Vec)
    ensures Apply(m, Minus(a, b)) == Minus(Apply(m, a), Apply(m, b))
  {
  }

  lemma SquareOfImage(m: Matrix, v: Vec)
    requires Orthonormal(Transpose(m))
    ensures Dot(Apply(m, v), Apply(m, v)) == Dot(v, v)
  {
    var t := Transpose(m);
    calc {
      Dot(Apply(m, v), Apply(m, v));
      Dot(v, Apply(t, Apply(m, v)));
      { assert Transpose(t) == m; RowOfRoundTrip(t, t.r0, v); RowOfRoundTrip(t, t.r1, v); RowOfRoundTrip(t, t.r2, v);
        DotIsSymmetric(t.r0, t.r1); DotIsSymmetric(t.r0, t.r2); DotIsSymmetric(t.r1, t.r2); }
      Dot(v, v);
    }
  }

  /** With an exact rotation the transform preserves the distance between any two points. */
  lemma DistancesPreserved(m: Matrix, origin: Vec, a: Vec, b: Vec)
    requires Orthonormal(m) && Det(m) == 1.0
    ensures var d := Minus(Plus(Apply(m, a), origin), Plus(Apply(m, b), origin));
            Dot(d, d) == Dot(Minus(a, b), Minus(a, b))
  {
    ColumnsOrthonormal(m);
    ApplyIsLinear(m, a, b);
    SquareOfImage(m, Minus(a, b));
    assert Minus(Plus(Apply(m, a), origin), Plus(Apply(m, b), origin)) == Apply(m, Minus(a, b));
  }

  // --- The component ---

  /** Nine doubles, row by row. */
  type Rotation = s: seq<Double> | |s| == 9 witness seq(9, _ => Num(0.0))

  datatype Extrinsics = Extrinsics(rotation: Rotation, origin: BodyPosition)

  datatype Fault = NotFinite | NotUnit | NotOrthogonal | NotRightHanded | TargetNotFinite

  datatype Result<+T> = Ok(value: T) | Error(fault: Fault)

  predicate FiniteRotation(s: Rotation) { forall i :: 0 <= i < 9 ==> s[i].Num? }

  predicate FiniteBody(p: BodyPosition) { p.forward.Num? && p.right.Num? && p.down.Num? }

  predicate FiniteCamera(p: CameraPosition) { p.right.Num? && p.down.Num? && p.forward.Num? }

  function RowAt(s: Rotation, row: int): Vec
    requires FiniteRotation(s) && 0 <= row < 3
  {
    Vec(s[row * 3].value, s[row * 3 + 1].value, s[row * 3 + 2].value)
  }

  function MatrixOf(s: Rotation): Matrix
    requires FiniteRotation(s)
  {
    Matrix(RowAt(s, 0), RowAt(s, 1), RowAt(s, 2))
  }

  /** Expansion along the first row; it is the triple product of the rows. */
  function Determinant(s: Rotation): (d: real)
    requires FiniteRotation(s)
    ensures d == Det(MatrixOf(s))
  {
    s[0].value * (s[4].value * s[8].value - s[5].value * s[7].value) -
    s[1].value * (s[3].value * s[8].value - s[5].value * s[6].value) +
    s[2].value * (s[3].value * s[7].value - s[4].value * s[6].value)
  }

  function VecOf(p: BodyPosition): Vec
    requires FiniteBody(p)
  {
    Vec(p.forward.value, p.right.value, p.down.value)
  }

  function BodyOf(v: Vec): BodyPosition { BodyPosition(Num(v.x), Num(v.y), Num(v.z)) }

  function CameraVec(p: CameraPosition): Vec
    requires FiniteCamera(p)
  {
    Vec(p.right.value, p.down.value, p.forward.value)
  }

  /** The extrinsics validation accepts. */
  predicate Accepts(e: Extrinsics) {
    FiniteRotation(e.rotation) && FiniteBody(e.origin) && Rigid(MatrixOf(e.rotation))
  }

  /** Equal to one part in a million. */
  predicate Close(x: real, y: real) { -0.000001 <= x - y <= 0.000001 }

  /** Finite numbers, rows of length one and orthogonal to each other, and the first
      the cross product of the others, up to one part in a million. */
  lemma AcceptedExactly(e: Extrinsics)
    ensures Accepts(e) <==>
            && (forall i :: 0 <= i < 9 ==> e.rotation[i].Num?)
            && e.origin.forward.Num? && e.origin.right.Num? && e.origin.down.Num?
            && var (a, b, c) := (RowAt(e.rotation, 0), RowAt(e.rotation, 1), RowAt(e.rotation, 2));
               && Close(Dot(a, a), 1.0) && Close(Dot(b, b), 1.0) && Close(Dot(c, c), 1.0)
               && Close(Dot(a, b), 0.0) && Close(Dot(a, c), 0.0) && Close(Dot(b, c), 0.0)
               && Close(Dot(a, Cross(b, c)), 1.0)
  {
  }

  /** The transform in closed form. */
  function ToBody(e: Extrinsics, p: CameraPosition): (r: Result<BodyPosition>)
    ensures r.Ok? <==> Accepts(e) && FiniteCamera(p)
  {
    if !Accepts(e) then Error(FaultOf(e))
    else if !FiniteCamera(p) then Error(TargetNotFinite)
    else Ok(BodyOf(Plus(Apply(MatrixOf(e.rotation), CameraVec(p)), VecOf(e.origin))))
  }

  /** The first fault in the order in which the rows are examined. */
  function FaultOf(e: Extrinsics): (f: Fault)
    requires !Accepts(e)
    ensures f == NotFinite <==> !FiniteRotation(e.rotation) || !FiniteBody(e.origin)
    ensures f == NotRightHanded ==> !Near(Det(MatrixOf(e.rotation)), 1.0)
    ensures f != TargetNotFinite
  {
    if !FiniteRotation(e.rotation) || !FiniteBody(e.origin) then NotFinite
    else
      var m := MatrixOf(e.rotation);
      if !Near(Dot(m.r0, m.r0), 1.0) then NotUnit
      else if !Near(Dot(m.r0, m.r1), 0.0) || !Near(Dot(m.r0, m.r2), 0.0) then NotOrthogonal
      else if !Near(Dot(m.r1, m.r1), 1.0) then NotUnit
      else if !Near(Dot(m.r1, m.r2), 0.0) then NotOrthogonal
      else if !Near(Dot(m.r2, m.r2), 1.0) then NotUnit
      else NotRightHanded
  }

  /** Transforming the camera coordinates of a body offset gives the offset from
      the camera's origin back, up to one millionth of its size. */
  lemma TransformRoundTrip(e: Extrinsics, y: Vec)
    requires Accepts(e)
    ensures var v := Apply(Transpose(MatrixOf(e.rotation)), y);
            var r := ToBody(e, CameraPosition(Num(v.x), Num(v.y), Num(v.z)));
            r.Ok? && FiniteBody(r.value) &&
            Within(VecOf(r.value), Plus(y, VecOf(e.origin)), TOLERANCE * Norm1(y))
  {
    RoundTrip(MatrixOf(e.rotation), y);
  }

  method RowDot(rotation: Rotation, first: nat, second: nat) returns (result: real)
    requires FiniteRotation(rotation) && first < 3 && second < 3
    ensures result == Dot(RowAt(rotation, first), RowAt(rotation, second))
  {
    ghost var (a, b) := (RowAt(rotation, first), RowAt(rotation, second));
    result := 0.0;
    for column := 0 to 3
      invariant result == PartialDot(a, b, column)
    {
      var (x, y) := (rotation[first * 3 + column].value, rotation[second * 3 + column].value);
      assert x == Component(a, column) && y == Component(b, column);
      result := result + x * y;
    }
    AllTerms(a, b);
  }

  /** The inner product of two rows. */
  function Gram(s: Rotation, i: int, j: int): real
    requires FiniteRotation(s) && 0 <= i < 3 && 0 <= j < 3
  {
    Dot(RowAt(s, i), RowAt(s, j))
  }

  /** The checks of one row: its length, then its angle to each later row. */
  predicate RowRigid(s: Rotation, row: int)
    requires FiniteRotation(s) && 0 <= row < 3
  {
    && Near(Gram(s, row, row), 1.0)
    && (row < 1 ==> Near(Gram(s, row, 1), 0.0))
    && (row < 2 ==> Near(Gram(s, row, 2), 0.0))
  }

  method Validate(e: Extrinsics) returns (fault: Option<Fault>)
    ensures fault == if Accepts(e) then None else Some(FaultOf(e))
  {
    var s := e.rotation;
    if !FiniteRotation(s) || !FiniteBody(e.origin) {
      return Some(NotFinite);
    }
    for row := 0 to 3
      invariant forall k :: 0 <= k < row ==> RowRigid(s, k)
    {
      var norm := RowDot(s, row, row);
      if Abs(norm - 1.0) > TOLERANCE {
        FirstFault(e, row);
        return Some(NotUnit);
      }
      for other := row + 1 to 3
        invariant forall k :: row < k < other ==> Near(Gram(s, row, k), 0.0)
      {
        var dot := RowDot(s, row, other);
        if Abs(dot) > TOLERANCE {
          FirstFault(e, row);
          return Some(NotOrthogonal);
        }
      }
    }
    FirstFault(e, 3);
    if Abs(Determinant(s) - 1.0) > TOLERANCE {
      return Some(NotRightHanded);
    }
    return None;
  }

  /** The first row that fails its checks names the fault. */
  lemma FirstFault(e: Extrinsics, row: int)
    requires FiniteRotation(e.rotation) && FiniteBody(e.origin) && 0 <= row <= 3
    requires forall k :: 0 <= k < row ==> RowRigid(e.rotation, k)
    ensures row < 3 && !RowRigid(e.rotation, row) ==>
              !Accepts(e) && FaultOf(e) == if Near(Gram(e.rotation, row, row), 1.0) then NotOrthogonal else NotUnit
    ensures row == 3 ==> (Accepts(e) <==> Near(Det(MatrixOf(e.rotation)), 1.0))
    ensures row == 3 && !Accepts(e) ==> FaultOf(e) == NotRightHanded
  {
    if row > 0 { assert RowRigid(e.rotation, 0); }
    if row > 1 { assert RowRigid(e.rotation, 1); }
    if row > 2 { assert RowRigid(e.rotation, 2); }
  }

  method AccumulateRow(body: array<real>, row: nat, rotation: Rotation, camera: seq<real>)
    requires FiniteRotation(rotation) && row < 3 && |camera| == 3 && body.Length == 3 && body[row] == 0.0
    modifies body
    ensures body[row] == Dot(RowAt(rotation, row), Vec(camera[0], camera[1], camera[2]))
    ensures forall k :: 0 <= k < 3 && k != row ==> body[k] == old(body[k])
  {
    var cell, v := RowAt(rotation, row), Vec(camera[0], camera[1], camera[2]);
    for column := 0 to 3
      invariant body[row] == PartialDot(cell, v, column)
      invariant forall k :: 0 <= k < 3 && k != row ==> body[k] == old(body[k])
    {
      var (x, y) := (rotation[row * 3 + column].value, camera[column]);
      assert x == Component(cell, column) && y == Component(v, column);
      body[row] := body[row] + x * y;
    }
    AllTerms(cell, v);
  }

  method CameraToBody(p: CameraPosition, e: Extrinsics) returns (r: Result<BodyPosition>)
    ensures r == ToBody(e, p)
  {
    var fault := Validate(e);
    if fault.Some? {
      return Error(fault.value);
    }
    if !FiniteCamera(p) {
      return Error(TargetNotFinite);
    }
    var camera, v := [p.right.value, p.down.value, p.forward.value], CameraVec(p);
    var body := new real[3](_ => 0.0);
    for row := 0 to 3
      invariant forall k :: 0 <= k < row ==> body[k] == Dot(RowAt(e.rotation, k), v)
      invariant forall k :: row <= k < 3 ==> body[k] == 0.0
    {
      AccumulateRow(body, row, e.rotation, camera);
    }
    r := Ok(BodyPosition(Num(body[0] + e.origin.forward.value), Num(body[1] + e.origin.right.value),
                         Num(body[2] + e.origin.down.value)));
  }

  /** The first terms of an inner product. */
  function PartialDot(a: Vec, b: Vec, columns: nat): real {
    if columns == 0 then 0.0
    else PartialDot(a, b, columns - 1) + Component(a, columns - 1) * Component(b, columns - 1)
  }

  lemma AllTerms(a: Vec, b: Vec)
    ensures PartialDot(a, b, 3) == Dot(a, b)
  {
    assert PartialDot(a, b, 1) == a.x * b.x;
    assert PartialDot(a, b, 2) == a.x * b.x + a.y * b.y;
  }
}
