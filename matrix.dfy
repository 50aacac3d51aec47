/** `easy2d::math::Matrix`: a 3x2 affine matrix over the reals.

    A matrix value is `Matrix(m11, m12, m21, m22, m31, m32)`, the fields
    `_11` ... `_32`, which the source overlays with the array `m[6]` in that
    order. The members that work on a matrix in place (`Identity`,
    `Translate`, the element-copying constructors and `operator=`) work on a
    `MatrixStorage`, whose six elements are an array. Row vectors are
    transformed, so `Transform(Multiply(a, b), p)` applies `a` first. */
module Matrices {

  /** `easy2d::math::Vec2` */
  datatype Vec2 = Vec2(x: real, y: real) {
    function Plus(v: Vec2): Vec2 {
      Vec2(x + v.x, y + v.y)
    }
  }

  /** `easy2d::math::Rect`: an origin and a size (width, height). */
  datatype Rect = Rect(origin: Vec2, size: Vec2)

  /** The corners `GetLeftTop`, `GetRightTop`, `GetLeftBottom` and
      `GetRightBottom`, in that order. */
  function Corners(r: Rect): seq<Vec2> {
    [ r.origin,
      Vec2(r.origin.x + r.size.x, r.origin.y),
      Vec2(r.origin.x, r.origin.y + r.size.y),
      Vec2(r.origin.x + r.size.x, r.origin.y + r.size.y) ]
  }

  datatype Matrix = Matrix(m11: real, m12: real, m21: real, m22: real, m31: real, m32: real) {

    /** `operator[](index)`: the element `m[index]`. */
    function At(index: nat): real
      requires index < 6
    {
      match index
      case 0 => m11
      case 1 => m12
      case 2 => m21
      case 3 => m22
      case 4 => m31
      case 5 => m32
    }
  }

  /** The matrix whose elements are `s[0]` ... `s[5]`. */
  function FromSeq(s: seq<real>): (r: Matrix)
    requires |s| >= 6
    ensures forall i :: 0 <= i < 6 ==> r.At(i) == s[i]
  {
    Matrix(s[0], s[1], s[2], s[3], s[4], s[5])
  }

  /** `Matrix()`: the identity (1, 0, 0, 1, 0, 0). */
  function Default(): Matrix {
    Matrix(1.0, 0.0, 0.0, 1.0, 0.0, 0.0)
  }

  /** `Transform(v)` */
  function Transform(a: Matrix, v: Vec2): Vec2 {
    Vec2(v.x * a.m11 + v.y * a.m21 + a.m31, v.x * a.m12 + v.y * a.m22 + a.m32)
  }

  /** `std::min` and `std::max` on two values. */
  function Min(a: real, b: real): real {
    if b < a then b else a
  }

  function Max(a: real, b: real): real {
    if a < b then b else a
  }

  /** `Transform(rect)`: the axis-aligned bounding box of the four
      transformed corners. Its size is never negative, it contains every
      transformed corner, and each of its edges passes through one. */
  function TransformRect(a: Matrix, rect: Rect): (r: Rect)
    ensures r.size.x >= 0.0 && r.size.y >= 0.0
    ensures forall i :: 0 <= i < 4 ==>
      var c := Transform(a, Corners(rect)[i]);
      r.origin.x <= c.x <= r.origin.x + r.size.x && r.origin.y <= c.y <= r.origin.y + r.size.y
    ensures exists i :: 0 <= i < 4 && Transform(a, Corners(rect)[i]).x == r.origin.x
    ensures exists i :: 0 <= i < 4 && Transform(a, Corners(rect)[i]).x == r.origin.x + r.size.x
    ensures exists i :: 0 <= i < 4 && Transform(a, Corners(rect)[i]).y == r.origin.y
    ensures exists i :: 0 <= i < 4 && Transform(a, Corners(rect)[i]).y == r.origin.y + r.size.y
  {
    var topLeft := Transform(a, Corners(rect)[0]);
    var topRight := Transform(a, Corners(rect)[1]);
    var bottomLeft := Transform(a, Corners(rect)[2]);
    var bottomRight := Transform(a, Corners(rect)[3]);
    var left := Min(Min(topLeft.x, topRight.x), Min(bottomLeft.x, bottomRight.x));
    var right := Max(Max(topLeft.x, topRight.x), Max(bottomLeft.x, bottomRight.x));
    var top := Min(Min(topLeft.y, topRight.y), Min(bottomLeft.y, bottomRight.y));
    var bottom := Max(Max(topLeft.y, topRight.y), Max(bottomLeft.y, bottomRight.y));
    Rect(Vec2(left, top), Vec2(right - left, bottom - top))
  }

  /** `Determinant()` */
  function Determinant(a: Matrix): real {
    (a.m11 * a.m22) - (a.m12 * a.m21)
  }

  /** `IsIdentity()` */
  predicate IsIdentity(a: Matrix) {
    a.m11 == 1.0 && a.m12 == 0.0 && a.m21 == 0.0 && a.m22 == 1.0 && a.m31 == 0.0 && a.m32 == 0.0
  }

  /** `IsInvertible()` */
  predicate IsInvertible(a: Matrix) {
    0.0 != Determinant(a)
  }

  /** `Translation(v)` and `Translation(x, y)` */
  function Translation(v: Vec2): Matrix {
    Matrix(1.0, 0.0, 0.0, 1.0, v.x, v.y)
  }

  /** `Scaling(v, center)` and `Scaling(x, y, center)`; the centre defaults
      to the origin in the source. */
  function Scaling(v: Vec2, center: Vec2): Matrix {
    Matrix(v.x, 0.0, 0.0, v.y, center.x - v.x * center.x, center.y - v.y * center.y)
  }

  /** `Invert(matrix)`, defined for a non-zero determinant. */
  function Invert(a: Matrix): Matrix
    requires Determinant(a) != 0.0
  {
    var det := 1.0 / Determinant(a);
    Matrix(
      det * a.m22,
      -det * a.m12,
      -det * a.m21,
      det * a.m11,
      det * (a.m21 * a.m32 - a.m22 * a.m31),
      det * (a.m12 * a.m31 - a.m11 * a.m32))
  }

  /** `MatrixMultiply<L, R>::operator[](index)`: element `index` of
      `lhs * rhs`, and 0 for any index past the last. */
  function ProductAt(lhs: Matrix, rhs: Matrix, index: nat): (r: real)
    ensures index > 5 ==> r == 0.0
  {
    match index
    case 0 => lhs.At(0) * rhs.At(0) + lhs.At(1) * rhs.At(2)
    case 1 => lhs.At(0) * rhs.At(1) + lhs.At(1) * rhs.At(3)
    case 2 => lhs.At(2) * rhs.At(0) + lhs.At(3) * rhs.At(2)
    case 3 => lhs.At(2) * rhs.At(1) + lhs.At(3) * rhs.At(3)
    case 4 => lhs.At(4) * rhs.At(0) + lhs.At(5) * rhs.At(2) + rhs.At(4)
    case 5 => lhs.At(4) * rhs.At(1) + lhs.At(5) * rhs.At(3) + rhs.At(5)
    case _ => 0.0
  }

  /** `lhs * rhs`: the matrix the expression template reads as. A chained
      `a * b * c` reads as `Multiply(Multiply(a, b), c)`. */
  function Multiply(lhs: Matrix, rhs: Matrix): Matrix {
    Matrix(ProductAt(lhs, rhs, 0), ProductAt(lhs, rhs, 1), ProductAt(lhs, rhs, 2),
           ProductAt(lhs, rhs, 3), ProductAt(lhs, rhs, 4), ProductAt(lhs, rhs, 5))
  }

  /** What `Identity()` as written leaves: `_12` is assigned twice, ending at
      1, and `_22` is never assigned. */
  function IdentityAsWritten(a: Matrix): Matrix {
    Matrix(1.0, 1.0, 0.0, a.m22, 0.0, 0.0)
  }

  /** The matrix with element `index` replaced by `v`: one write `m[index] = v`. */
  function WithAt(a: Matrix, index: nat, v: real): (r: Matrix)
    requires index < 6
    ensures r.At(index) == v
    ensures forall k :: 0 <= k < 6 && k != index ==> r.At(k) == a.At(k)
  {
    match index
    case 0 => a.(m11 := v)
    case 1 => a.(m12 := v)
    case 2 => a.(m21 := v)
    case 3 => a.(m22 := v)
    case 4 => a.(m31 := v)
    case 5 => a.(m32 := v)
  }

  /** The destination after the first `n` rounds of the element loop of
      `operator=(lhs * rhs)`, which writes `m[i] = (lhs * rhs)[i]` for `i`
      from 0 and reads both operands as they are at that moment. An operand
      that is the destination itself (`lhsIsDest`, `rhsIsDest`) is read with
      the elements already written; otherwise it is the fixed `lhs`/`rhs`. */
  function AssignLoop(dest: Matrix, lhs: Matrix, rhs: Matrix, lhsIsDest: bool, rhsIsDest: bool, n: nat): Matrix
    requires n <= 6
    decreases n
  {
    if n == 0 then dest
    else
      var c := AssignLoop(dest, lhs, rhs, lhsIsDest, rhsIsDest, n - 1);
      WithAt(c, n - 1, ProductAt(if lhsIsDest then c else lhs, if rhsIsDest then c else rhs, n - 1))
  }

  /** The default matrix is the identity, and is the only matrix that
      `IsIdentity` accepts. */
  lemma DefaultIsIdentity(a: Matrix)
    ensures IsIdentity(Default())
    ensures IsIdentity(a) <==> a == Default()
  {
  }

  /** The `Identity()` typo: whatever the matrix was, `IsIdentity()` is false
      afterwards. */
  lemma IdentityAsWrittenIsNotIdentity(a: Matrix)
    ensures !IsIdentity(IdentityAsWritten(a))
    ensures IdentityAsWritten(a) != Default()
  {
  }

  /** Transforming by a translation adds the translation vector. */
  lemma TransformTranslation(v: Vec2, p: Vec2)
    ensures Transform(Translation(v), p) == p.Plus(v)
  {
  }

  /** One coordinate of a point transformed by a product, `e`, `h`, `t`
      being a column of the right factor, regrouped as the point transformed
      by the left factor and then by that column. */
  lemma TransformRegroup(x: real, y: real, a11: real, a12: real, a21: real, a22: real, a31: real, a32: real,
                         e: real, h: real, t: real)
    ensures x * (a11 * e + a12 * h) + y * (a21 * e + a22 * h) + (a31 * e + a32 * h + t)
         == (x * a11 + y * a21 + a31) * e + (x * a12 + y * a22 + a32) * h + t
  {
  }

  lemma TransformMultiplyX(a: Matrix, b: Matrix, p: Vec2)
    ensures Transform(Multiply(a, b), p).x == Transform(b, Transform(a, p)).x
  {
    TransformRegroup(p.x, p.y, a.m11, a.m12, a.m21, a.m22, a.m31, a.m32, b.m11, b.m21, b.m31);
  }

  lemma TransformMultiplyY(a: Matrix, b: Matrix, p: Vec2)
    ensures Transform(Multiply(a, b), p).y == Transform(b, Transform(a, p)).y
  {
    TransformRegroup(p.x, p.y, a.m11, a.m12, a.m21, a.m22, a.m31, a.m32, b.m12, b.m22, b.m32);
  }

  /** Transforming by a product transforms by the left factor first. */
  lemma TransformMultiply(a: Matrix, b: Matrix, p: Vec2)
    ensures Transform(Multiply(a, b), p) == Transform(b, Transform(a, p))
  {
    TransformMultiplyX(a, b, p);
    TransformMultiplyY(a, b, p);
  }

  /** The default matrix is a two-sided unit of `*`. */
  lemma MultiplyUnit(a: Matrix)
    ensures Multiply(Default(), a) == a
    ensures Multiply(a, Default()) == a
  {
  }

  /** Two matrices with the same six elements are equal. */
  lemma MatrixExtensionality(a: Matrix, b: Matrix)
    requires forall k :: 0 <= k < 6 ==> a.At(k) == b.At(k)
    ensures a == b
  {
    assert a.At(0) == b.At(0) && a.At(1) == b.At(1) && a.At(2) == b.At(2);
    assert a.At(3) == b.At(3) && a.At(4) == b.At(4) && a.At(5) == b.At(5);
  }

  /** A linear entry of `(a * b) * c` regrouped as that of `a * (b * c)`:
      `x1`, `x2` a row of `a`, `p` ... `s` the linear block of `b`, `e`, `h`
      a column of `c`, `u1`, `u2` entries of `a * b` and `v1`, `v2` of
      `b * c`. */
  lemma Regroup(x1: real, x2: real, p: real, q: real, r: real, s: real, e: real, h: real,
                u1: real, u2: real, v1: real, v2: real)
    requires u1 == x1 * p + x2 * q && u2 == x1 * r + x2 * s
    requires v1 == p * e + r * h && v2 == q * e + s * h
    ensures u1 * e + u2 * h == x1 * v1 + x2 * v2
  {
  }

  /** The same for a translation entry, where `t`, `w` and `z` are the
      translation parts of `b` and `c`. */
  lemma RegroupTranslation(x1: real, x2: real, p: real, q: real, r: real, s: real, t: real, w: real,
                           e: real, h: real, z: real, u1: real, u2: real, v1: real, v2: real, v3: real)
    requires u1 == x1 * p + x2 * q + t && u2 == x1 * r + x2 * s + w
    requires v1 == p * e + r * h && v2 == q * e + s * h && v3 == t * e + w * h + z
    ensures u1 * e + u2 * h + z == x1 * v1 + x2 * v2 + v3
  {
  }

  /** Each element of `(a * b) * c` is that of `a * (b * c)`. */
  lemma AssociativeM11(a: Matrix, b: Matrix, c: Matrix)
    ensures Multiply(Multiply(a, b), c).m11 == Multiply(a, Multiply(b, c)).m11
  {
    var ab := Multiply(a, b);
    var bc := Multiply(b, c);
    Regroup(a.m11, a.m12, b.m11, b.m21, b.m12, b.m22, c.m11, c.m21, ab.m11, ab.m12, bc.m11, bc.m21);
  }

  lemma AssociativeM12(a: Matrix, b: Matrix, c: Matrix)
    ensures Multiply(Multiply(a, b), c).m12 == Multiply(a, Multiply(b, c)).m12
  {
    var ab := Multiply(a, b);
    var bc := Multiply(b, c);
    Regroup(a.m11, a.m12, b.m11, b.m21, b.m12, b.m22, c.m12, c.m22, ab.m11, ab.m12, bc.m12, bc.m22);
  }

  lemma AssociativeM21(a: Matrix, b: Matrix, c: Matrix)
    ensures Multiply(Multiply(a, b), c).m21 == Multiply(a, Multiply(b, c)).m21
  {
    var ab := Multiply(a, b);
    var bc := Multiply(b, c);
    Regroup(a.m21, a.m22, b.m11, b.m21, b.m12, b.m22, c.m11, c.m21, ab.m21, ab.m22, bc.m11, bc.m21);
  }

  lemma AssociativeM22(a: Matrix, b: Matrix, c: Matrix)
    ensures Multiply(Multiply(a, b), c).m22 == Multiply(a, Multiply(b, c)).m22
  {
    var ab := Multiply(a, b);
    var bc := Multiply(b, c);
    Regroup(a.m21, a.m22, b.m11, b.m21, b.m12, b.m22, c.m12, c.m22, ab.m21, ab.m22, bc.m12, bc.m22);
  }

  lemma AssociativeM31(a: Matrix, b: Matrix, c: Matrix)
    ensures Multiply(Multiply(a, b), c).m31 == Multiply(a, Multiply(b, c)).m31
  {
    var ab := Multiply(a, b);
    var bc := Multiply(b, c);
    RegroupTranslation(a.m31, a.m32, b.m11, b.m21, b.m12, b.m22, b.m31, b.m32, c.m11, c.m21, c.m31,
      ab.m31, ab.m32, bc.m11, bc.m21, bc.m31);
  }

  lemma AssociativeM32(a: Matrix, b: Matrix, c: Matrix)
    ensures Multiply(Multiply(a, b), c).m32 == Multiply(a, Multiply(b, c)).m32
  {
    var ab := Multiply(a, b);
    var bc := Multiply(b, c);
    RegroupTranslation(a.m31, a.m32, b.m11, b.m21, b.m12, b.m22, b.m31, b.m32, c.m12, c.m22, c.m32,
      ab.m31, ab.m32, bc.m12, bc.m22, bc.m32);
  }

  /** `*` is associative, so a chained expression template means the same
      whichever way it is grouped. */
  lemma MultiplyAssociative(a: Matrix, b: Matrix, c: Matrix)
    ensures Multiply(Multiply(a, b), c) == Multiply(a, Multiply(b, c))
  {
    AssociativeM11(a, b, c);
    AssociativeM12(a, b, c);
    AssociativeM21(a, b, c);
    AssociativeM22(a, b, c);
    AssociativeM31(a, b, c);
    AssociativeM32(a, b, c);
  }

  /** The centre of a scaling is a fixed point of it. */
  lemma ScalingFixesCentre(v: Vec2, center: Vec2)
    ensures Transform(Scaling(v, center), center) == center
  {
  }

  /** Distributing a product of two sums. */
  lemma Foil(p: real, q: real, r: real, s: real)
    ensures (p + q) * (r + s) == p * r + p * s + q * r + q * s
  {
  }

  /** The 2x2 determinant identity behind `DeterminantMultiplies`, with
      `p11` ... `p22` the linear part of the product. */
  lemma DeterminantProduct(a11: real, a12: real, a21: real, a22: real, b11: real, b12: real, b21: real, b22: real,
                           p11: real, p12: real, p21: real, p22: real)
    requires p11 == a11 * b11 + a12 * b21 && p12 == a11 * b12 + a12 * b22
    requires p21 == a21 * b11 + a22 * b21 && p22 == a21 * b12 + a22 * b22
    ensures p11 * p22 - p12 * p21 == (a11 * a22 - a12 * a21) * (b11 * b22 - b12 * b21)
  {
    Foil(a11 * b11, a12 * b21, a21 * b12, a22 * b22);
    Foil(a11 * b12, a12 * b22, a21 * b11, a22 * b21);
    Foil(a11 * a22, -(a12 * a21), b11 * b22, -(b12 * b21));
  }

  /** The linear block of a product, written out. */
  lemma LinearEntries(a: Matrix, b: Matrix)
    ensures Multiply(a, b).m11 == a.m11 * b.m11 + a.m12 * b.m21 && Multiply(a, b).m12 == a.m11 * b.m12 + a.m12 * b.m22
    ensures Multiply(a, b).m21 == a.m21 * b.m11 + a.m22 * b.m21 && Multiply(a, b).m22 == a.m21 * b.m12 + a.m22 * b.m22
  {
  }

  /** The product of two determinants, written out. */
  lemma ProductOfDeterminants(a: Matrix, b: Matrix)
    ensures Determinant(a) * Determinant(b) == (a.m11 * a.m22 - a.m12 * a.m21) * (b.m11 * b.m22 - b.m12 * b.m21)
  {
  }

  /** The determinant of a product is the product of the determinants. */
  lemma DeterminantMultiplies(a: Matrix, b: Matrix)
    ensures Determinant(Multiply(a, b)) == Determinant(a) * Determinant(b)
  {
    var p := Multiply(a, b);
    LinearEntries(a, b);
    DeterminantProduct(a.m11, a.m12, a.m21, a.m22, b.m11, b.m12, b.m21, b.m22, p.m11, p.m12, p.m21, p.m22);
    ProductOfDeterminants(a, b);
  }

  /** A non-zero number times its reciprocal. */
  lemma Reciprocal(x: real)
    requires x != 0.0
    ensures (1.0 / x) * x == 1.0
  {
  }

  /** The entries of `Invert(a) * a` over plain reals, `d` standing for the
      reciprocal of the determinant: each diagonal entry is `d` times the
      determinant, each translation entry its own value less itself times
      that, and the others vanish. */
  lemma InverseRegroupLeft(a11: real, a12: real, a21: real, a22: real, a31: real, a32: real, d: real)
    ensures (d * a22) * a11 + (-d * a12) * a21 == d * (a11 * a22 - a12 * a21)
    ensures (d * a22) * a12 + (-d * a12) * a22 == 0.0
    ensures (-d * a21) * a11 + (d * a11) * a21 == 0.0
    ensures (-d * a21) * a12 + (d * a11) * a22 == d * (a11 * a22 - a12 * a21)
    ensures (d * (a21 * a32 - a22 * a31)) * a11 + (d * (a12 * a31 - a11 * a32)) * a21 + a31
         == a31 - a31 * (d * (a11 * a22 - a12 * a21))
    ensures (d * (a21 * a32 - a22 * a31)) * a12 + (d * (a12 * a31 - a11 * a32)) * a22 + a32
         == a32 - a32 * (d * (a11 * a22 - a12 * a21))
  {
  }

  /** The entries of `a * Invert(a)` over plain reals. */
  lemma InverseRegroupRight(a11: real, a12: real, a21: real, a22: real, a31: real, a32: real, d: real)
    ensures a11 * (d * a22) + a12 * (-d * a21) == d * (a11 * a22 - a12 * a21)
    ensures a11 * (-d * a12) + a12 * (d * a11) == 0.0
    ensures a21 * (d * a22) + a22 * (-d * a21) == 0.0
    ensures a21 * (-d * a12) + a22 * (d * a11) == d * (a11 * a22 - a12 * a21)
    ensures a31 * (d * a22) + a32 * (-d * a21) + d * (a21 * a32 - a22 * a31) == 0.0
    ensures a31 * (-d * a12) + a32 * (d * a11) + d * (a12 * a31 - a11 * a32) == 0.0
  {
  }

  /** A value less itself times one. */
  lemma LessItselfTimesOne(a: real, u: real)
    requires u == 1.0
    ensures a - a * u == 0.0
  {
  }

  /** With a non-zero determinant, `Invert(a)` is a left inverse. */
  lemma InvertIsLeftInverse(a: Matrix)
    requires Determinant(a) != 0.0
    ensures Multiply(Invert(a), a) == Default()
  {
    var d := 1.0 / Determinant(a);
    Reciprocal(Determinant(a));
    InverseRegroupLeft(a.m11, a.m12, a.m21, a.m22, a.m31, a.m32, d);
    LessItselfTimesOne(a.m31, d * Determinant(a));
    LessItselfTimesOne(a.m32, d * Determinant(a));
  }

  /** With a non-zero determinant, `Invert(a)` is a right inverse. */
  lemma InvertIsRightInverse(a: Matrix)
    requires Determinant(a) != 0.0
    ensures Multiply(a, Invert(a)) == Default()
  {
    Reciprocal(Determinant(a));
    InverseRegroupRight(a.m11, a.m12, a.m21, a.m22, a.m31, a.m32, 1.0 / Determinant(a));
  }

  /** When `IsInvertible()` holds, `Invert` is a two-sided inverse for `*`;
      when it does not, no matrix is a left inverse. */
  lemma InvertIsInverse(a: Matrix)
    ensures IsInvertible(a) ==> Multiply(Invert(a), a) == Default() && Multiply(a, Invert(a)) == Default()
    ensures !IsInvertible(a) ==> forall b :: Multiply(b, a) != Default()
  {
    if IsInvertible(a) {
      InvertIsLeftInverse(a);
      InvertIsRightInverse(a);
    } else {
      forall b ensures Multiply(b, a) != Default() {
        DeterminantMultiplies(b, a);
      }
    }
  }

  /** After `n` rounds of a loop whose operands are not the destination,
      the first `n` elements are those of the product and the others are
      untouched. */
  lemma {:induction false} AssignLoopUnaliasedPrefix(dest: Matrix, lhs: Matrix, rhs: Matrix, n: nat)
    requires n <= 6
    ensures forall k :: 0 <= k < n ==> AssignLoop(dest, lhs, rhs, false, false, n).At(k) == ProductAt(lhs, rhs, k)
    ensures forall k :: n <= k < 6 ==> AssignLoop(dest, lhs, rhs, false, false, n).At(k) == dest.At(k)
    decreases n
  {
    if n > 0 {
      AssignLoopUnaliasedPrefix(dest, lhs, rhs, n - 1);
    }
  }

  /** When neither operand is the destination, the loop assigns exactly
      the product, whatever the destination held. */
  lemma AssignLoopUnaliased(dest: Matrix, lhs: Matrix, rhs: Matrix)
    ensures AssignLoop(dest, lhs, rhs, false, false, 6) == Multiply(lhs, rhs)
  {
    AssignLoopUnaliasedPrefix(dest, lhs, rhs, 6);
    MatrixExtensionality(AssignLoop(dest, lhs, rhs, false, false, 6), Multiply(lhs, rhs));
  }

  /** The aliasing shows: assigning `m = m * b` with `m` the default matrix
      should leave `b`, but element 1 is computed from the already
      overwritten element 0 and comes out as 6 instead of 3. */
  lemma AssignLoopLeftAliasedDiffers()
    ensures Multiply(Default(), Matrix(2.0, 3.0, 0.0, 1.0, 0.0, 0.0)) == Matrix(2.0, 3.0, 0.0, 1.0, 0.0, 0.0)
    ensures AssignLoop(Default(), Default(), Matrix(2.0, 3.0, 0.0, 1.0, 0.0, 0.0), true, false, 6).At(1) == 6.0
  {
    var b := Matrix(2.0, 3.0, 0.0, 1.0, 0.0, 0.0);
    var c1 := AssignLoop(Default(), Default(), b, true, false, 1);
    assert c1 == Matrix(2.0, 0.0, 0.0, 1.0, 0.0, 0.0);
    var c2 := AssignLoop(Default(), Default(), b, true, false, 2);
    assert c2 == Matrix(2.0, 6.0, 0.0, 1.0, 0.0, 0.0);
    assert AssignLoop(Default(), Default(), b, true, false, 6).At(1) == c2.At(1);
  }

  /** Writing one element of the storage writes that element of the matrix. */
  lemma FromSeqUpdate(s: seq<real>, index: nat, v: real)
    requires |s| == 6 && index < 6
    ensures FromSeq(s[index := v]) == WithAt(FromSeq(s), index, v)
  {
  }

  /** A matrix object in memory: the six elements `m[0]` ... `m[5]`. */
  class MatrixStorage {
    const m: array<real>

    ghost predicate Valid()
      reads this
    {
      m.Length == 6
    }

    /** The matrix the elements hold. */
    function Value(): Matrix
      reads this, m
      requires Valid()
    {
      FromSeq(m[..])
    }

    /** `Matrix()` */
    constructor ()
      ensures Valid() && fresh(m) && Value() == Default()
    {
      m := new real[6] [1.0, 0.0, 0.0, 1.0, 0.0, 0.0];
    }

    /** `Matrix(const float* p)`: copies `p[0]` ... `p[5]` one by one. */
    constructor FromElements(p: array<real>)
      requires p.Length >= 6
      ensures Valid() && fresh(m) && Value() == FromSeq(p[..])
    {
      m := new real[6];
      new;
      for i := 0 to 6
        invariant forall k :: 0 <= k < i ==> m[k] == p[k]
      {
        m[i] := p[i];
      }
    }

    /** `Matrix(T const& other)` with `other` the expression `lhs * rhs`:
        element by element from `MatrixMultiply::operator[]`. */
    constructor FromProduct(lhs: MatrixStorage, rhs: MatrixStorage)
      requires lhs.Valid() && rhs.Valid()
      ensures Valid() && fresh(m) && Value() == Multiply(lhs.Value(), rhs.Value())
    {
      m := new real[6];
      new;
      for i := 0 to 6
        invariant forall k :: 0 <= k < i ==> m[k] == ProductAt(lhs.Value(), rhs.Value(), k)
      {
        m[i] := ProductAt(lhs.Value(), rhs.Value(), i);
      }
    }

    /** `Identity()` as written: see `IdentityAsWritten`. */
    method Identity()
      requires Valid()
      modifies m
      ensures Value() == IdentityAsWritten(old(Value()))
    {
      m[0] := 1.0; m[1] := 0.0;
      m[2] := 0.0; m[1] := 1.0;
      m[4] := 0.0; m[5] := 0.0;
    }

    /** `Identity()` as evidently intended. */
    method SetIdentity()
      requires Valid()
      modifies m
      ensures Value() == Default() && IsIdentity(Value())
    {
      m[0] := 1.0; m[1] := 0.0;
      m[2] := 0.0; m[3] := 1.0;
      m[4] := 0.0; m[5] := 0.0;
    }

    /** `Translate(v)`: the matrix becomes `Translation(v) * M`; only `_31`
        and `_32` change, to the image of `v` under `M`. */
    method Translate(v: Vec2)
      requires Valid()
      modifies m
      ensures Value() == Multiply(Translation(v), old(Value()))
      ensures m[..4] == old(m[..4])
      ensures Vec2(m[4], m[5]) == Transform(old(Value()), v)
    {
      m[4] := m[4] + (m[0] * v.x + m[2] * v.y);
      m[5] := m[5] + (m[1] * v.x + m[3] * v.y);
    }

    /** The implicitly declared copy assignment of a `Matrix`, which a
        `Matrix` argument selects over the template `operator=`: it copies
        the six elements of the union; assigning a matrix to itself changes
        nothing. */
    method Assign(other: MatrixStorage)
      requires Valid() && other.Valid()
      modifies m
      ensures Value() == old(other.Value())
    {
      for i := 0 to 6
        invariant forall k :: 0 <= k < i ==> m[k] == old(other.m[k])
        invariant forall k :: i <= k < 6 ==> other.m[k] == old(other.m[k])
      {
        m[i] := other.m[i];
      }
    }

    /** `operator=(T const& other)` with `other` the expression `lhs * rhs`,
        as written: element `i` is computed from what the storages hold when
        it is written, which is `AssignLoop`. With neither operand this
        matrix it is the product (`AssignLoopUnaliased`). */
    method AssignProduct(lhs: MatrixStorage, rhs: MatrixStorage)
      requires Valid() && lhs.Valid() && rhs.Valid()
      modifies m
      ensures Value() == AssignLoop(old(Value()), old(lhs.Value()), old(rhs.Value()), lhs.m == m, rhs.m == m, 6)
    {
      ghost var dest := Value();
      ghost var a := lhs.Value();
      ghost var b := rhs.Value();
      for i := 0 to 6
        invariant Value() == AssignLoop(dest, a, b, lhs.m == m, rhs.m == m, i)
        invariant lhs.m != m ==> lhs.Value() == a
        invariant rhs.m != m ==> rhs.Value() == b
      {
        ghost var before := m[..];
        m[i] := ProductAt(lhs.Value(), rhs.Value(), i);
        FromSeqUpdate(before, i, m[i]);
        assert m[..] == before[i := m[i]];
      }
    }

    /** The same assignment as evidently intended: the product is formed
        before any element is written, so aliasing does not matter. */
    method AssignProductSafe(lhs: MatrixStorage, rhs: MatrixStorage)
      requires Valid() && lhs.Valid() && rhs.Valid()
      modifies m
      ensures Value() == Multiply(old(lhs.Value()), old(rhs.Value()))
    {
      var product := Multiply(lhs.Value(), rhs.Value());
      for i := 0 to 6
        invariant forall k :: 0 <= k < i ==> m[k] == product.At(k)
      {
        m[i] := product.At(i);
      }
    }
  }
}
