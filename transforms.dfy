/**
 * Rigid transforms as an exact group.
 *
 * A Transform X_AB gives the configuration of frame B in frame A: a rotation
 * R_AB and the location p of B's origin, both expressed in A. A station given
 * in B is re-expressed in A by Apply(X_AB, v) == p + R_AB*v, composition matches
 * up the inner frame names (X_AC == X_AB*X_BC) and ~X_AB == X_BA.
 *
 * The model keeps the group structure and drops floating point: rotations are
 * the 24 rotations that map coordinate axes onto coordinate axes and
 * translations are exact reals. Every
 * law the frame bookkeeping relies on (associativity, identity, X*~X == I,
 * ~(X*Y) == ~Y*~X) is proved below, and the node's frame identities use only
 * these laws.
 */
module Transforms {

  datatype Vec3 = Vec3(x: real, y: real, z: real)

  function Zero(): Vec3 { Vec3(0.0, 0.0, 0.0) }

  function Add(a: Vec3, b: Vec3): Vec3 { Vec3(a.x + b.x, a.y + b.y, a.z + b.z) }

  function Neg(a: Vec3): Vec3 { Vec3(-a.x, -a.y, -a.z) }

  datatype Axis = X | Y | Z

  /** The component of v along axis a. */
  function Coord(v: Vec3, a: Axis): real
  {
    match a
    case X => v.x
    case Y => v.y
    case Z => v.z
  }

  /** x, negated when flip holds. */
  function Signed(flip: bool, x: real): real { if flip then -x else x }

  /**
   * A signed permutation matrix, row by row: row i has its one nonzero entry
   * in column a_i, and that entry is -1 when f_i holds and +1 otherwise.
   */
  datatype AxisMap = AxisMap(a0: Axis, f0: bool, a1: Axis, f1: bool, a2: Axis, f2: bool)

  function RowAxis(m: AxisMap, i: Axis): Axis
  {
    match i
    case X => m.a0
    case Y => m.a1
    case Z => m.a2
  }

  function RowFlip(m: AxisMap, i: Axis): bool
  {
    match i
    case X => m.f0
    case Y => m.f1
    case Z => m.f2
  }

  /** The columns of the rows are a cyclic shift of X, Y, Z. */
  predicate EvenPermutation(m: AxisMap)
  {
    || (m.a0 == X && m.a1 == Y && m.a2 == Z)
    || (m.a0 == Y && m.a1 == Z && m.a2 == X)
    || (m.a0 == Z && m.a1 == X && m.a2 == Y)
  }

  /**
   * The matrix is a permutation of the axes with signs, and its determinant,
   * the sign of the permutation times the product of the signs, is +1.
   */
  predicate IsRotation(m: AxisMap)
  {
    && m.a0 != m.a1 && m.a0 != m.a2 && m.a1 != m.a2
    && (EvenPermutation(m) <==> !((m.f0 != m.f1) != m.f2))
  }

  /**
   * R_XY: orientation of frame Y in frame X. The model's rotations are the 24
   * that carry the coordinate axes onto coordinate axes (the rotations of a
   * cube); they do not commute, so the order of a product matters.
   */
  type Rotation = m: AxisMap | IsRotation(m) witness AxisMap(X, false, Y, false, Z, false)

  function RotIdentity(): Rotation { AxisMap(X, false, Y, false, Z, false) }

  /** R_XZ == R_XY * R_YZ: the matrix product, row i of R_XY picking a row of R_YZ. */
  function RotCompose(a: Rotation, b: Rotation): Rotation
  {
    AxisMap(RowAxis(b, a.a0), a.f0 != RowFlip(b, a.a0),
            RowAxis(b, a.a1), a.f1 != RowFlip(b, a.a1),
            RowAxis(b, a.a2), a.f2 != RowFlip(b, a.a2))
  }

  /** The row of m whose nonzero entry lies in column j. */
  function RowOfColumn(m: AxisMap, j: Axis): Axis
  {
    if m.a0 == j then X else if m.a1 == j then Y else Z
  }

  /** ~R_XY == R_YX: the transpose, which for an orthogonal matrix is the inverse. */
  function RotTranspose(a: Rotation): Rotation
  {
    AxisMap(RowOfColumn(a, X), RowFlip(a, RowOfColumn(a, X)),
            RowOfColumn(a, Y), RowFlip(a, RowOfColumn(a, Y)),
            RowOfColumn(a, Z), RowFlip(a, RowOfColumn(a, Z)))
  }

  /** R * v: re-express a vector given in the rotated frame. */
  function Rotate(r: Rotation, v: Vec3): Vec3
  {
    Vec3(Signed(r.f0, Coord(v, r.a0)), Signed(r.f1, Coord(v, r.a1)), Signed(r.f2, Coord(v, r.a2)))
  }

  /** Rotating a composed rotation is rotating twice. */
  lemma RotateCompose(a: Rotation, b: Rotation, v: Vec3)
    ensures Rotate(RotCompose(a, b), v) == Rotate(a, Rotate(b, v))
  {
    RotateCoord(b, v, a.a0);
    RotateCoord(b, v, a.a1);
    RotateCoord(b, v, a.a2);
  }

  /** Component i of R * v is row i of R applied to v. */
  lemma RotateCoord(r: Rotation, v: Vec3, i: Axis)
    ensures Coord(Rotate(r, v), i) == Signed(RowFlip(r, i), Coord(v, RowAxis(r, i)))
  {
  }

  /** Rotation is linear. */
  lemma RotateAdd(r: Rotation, u: Vec3, v: Vec3)
    ensures Rotate(r, Add(u, v)) == Add(Rotate(r, u), Rotate(r, v))
    ensures Rotate(r, Neg(u)) == Neg(Rotate(r, u))
  {
  }

  lemma RotComposeAssociative(a: Rotation, b: Rotation, c: Rotation)
    ensures RotCompose(RotCompose(a, b), c) == RotCompose(a, RotCompose(b, c))
  {
  }

  lemma RotComposeIdentity(a: Rotation)
    ensures RotCompose(a, RotIdentity()) == a
    ensures RotCompose(RotIdentity(), a) == a
  {
  }

  /** R_XY * R_YX == I and R_YX * R_XY == I. */
  lemma RotTransposeIsInverse(r: Rotation)
    ensures RotCompose(r, RotTranspose(r)) == RotIdentity()
    ensures RotCompose(RotTranspose(r), r) == RotIdentity()
  {
  }

  /**
   * R_YZ = R_YX*R_XZ = (~R_XY)*(~R_ZX) = ~(R_ZX*R_XY): transposing a product
   * reverses it. The proof uses only the group laws above.
   */
  lemma RotTransposeOfCompose(zx: Rotation, xy: Rotation)
    ensures RotTranspose(RotCompose(zx, xy)) == RotCompose(RotTranspose(xy), RotTranspose(zx))
  {
    var zy := RotCompose(zx, xy);
    var yx, xz := RotTranspose(xy), RotTranspose(zx);
    calc {
      RotTranspose(zy);
      { RotComposeIdentity(RotTranspose(zy)); RotTransposeIsInverse(zx); }
      RotCompose(RotTranspose(zy), RotCompose(zx, xz));
      { RotComposeIdentity(zx); RotTransposeIsInverse(xy); }
      RotCompose(RotTranspose(zy), RotCompose(RotCompose(zx, RotCompose(xy, yx)), xz));
      { RotComposeAssociative(zx, xy, yx); }
      RotCompose(RotTranspose(zy), RotCompose(RotCompose(zy, yx), xz));
      { RotComposeAssociative(zy, yx, xz); }
      RotCompose(RotTranspose(zy), RotCompose(zy, RotCompose(yx, xz)));
      { RotComposeAssociative(RotTranspose(zy), zy, RotCompose(yx, xz)); }
      RotCompose(RotCompose(RotTranspose(zy), zy), RotCompose(yx, xz));
      { RotTransposeIsInverse(zy); RotComposeIdentity(RotCompose(yx, xz)); }
      RotCompose(yx, xz);
    }
  }

  /** Rotations do not commute: a product depends on the order of its factors. */
  lemma RotationOrderMatters()
    ensures exists a: Rotation, b: Rotation :: RotCompose(a, b) != RotCompose(b, a)
  {
    var aboutZ: Rotation := AxisMap(Y, true, X, false, Z, false);
    var aboutX: Rotation := AxisMap(X, false, Z, true, Y, false);
    assert RotCompose(aboutZ, aboutX) != RotCompose(aboutX, aboutZ);
  }

  /** So transposing a product without reversing its factors is wrong in general. */
  lemma TransposeInSameOrderFails()
    ensures exists zx: Rotation, xy: Rotation ::
      RotTranspose(RotCompose(zx, xy)) != RotCompose(RotTranspose(zx), RotTranspose(xy))
  {
    var aboutZ: Rotation := AxisMap(Y, true, X, false, Z, false);
    var aboutX: Rotation := AxisMap(X, false, Z, true, Y, false);
    assert RotTranspose(RotCompose(aboutZ, aboutX)) != RotCompose(RotTranspose(aboutZ), RotTranspose(aboutX));
  }

  datatype Transform = Transform(R: Rotation, p: Vec3)

  /** Re-express station v (measured in B) in A, given X_AB. */
  function Apply(X: Transform, v: Vec3): Vec3 { Add(X.p, Rotate(X.R, v)) }

  function Identity(): (I: Transform)
    ensures forall v :: Apply(I, v) == v
  {
    Transform(RotIdentity(), Zero())
  }

  /** X_AC == X_AB * X_BC: applying the composition is applying X_BC, then X_AB. */
  function Compose(ab: Transform, bc: Transform): (ac: Transform)
    ensures forall v :: Apply(ac, v) == Apply(ab, Apply(bc, v))
  {
    ComposeApply(ab, bc);
    Transform(RotCompose(ab.R, bc.R), Add(ab.p, Rotate(ab.R, bc.p)))
  }

  lemma ComposeApply(ab: Transform, bc: Transform)
    ensures forall v :: Apply(Transform(RotCompose(ab.R, bc.R), Add(ab.p, Rotate(ab.R, bc.p))), v)
                     == Apply(ab, Apply(bc, v))
  {
    forall v ensures Apply(Transform(RotCompose(ab.R, bc.R), Add(ab.p, Rotate(ab.R, bc.p))), v)
                     == Apply(ab, Apply(bc, v)) {
      RotateCompose(ab.R, bc.R, v);
      RotateAdd(ab.R, bc.p, Rotate(bc.R, v));
    }
  }

  /** ~X_AB == X_BA: the inverse undoes the transform on every station. */
  function Inverse(ab: Transform): (ba: Transform)
    ensures forall v :: Apply(ba, Apply(ab, v)) == v
  {
    InverseApply(ab);
    var Rt := RotTranspose(ab.R);
    Transform(Rt, Neg(Rotate(Rt, ab.p)))
  }

  lemma InverseApply(ab: Transform)
    ensures forall v :: Apply(Transform(RotTranspose(ab.R), Neg(Rotate(RotTranspose(ab.R), ab.p))), Apply(ab, v)) == v
  {
    var Rt := RotTranspose(ab.R);
    forall v ensures Apply(Transform(Rt, Neg(Rotate(Rt, ab.p))), Apply(ab, v)) == v {
      RotateAdd(Rt, ab.p, Rotate(ab.R, v));
      RotateCompose(Rt, ab.R, v);
      RotTransposeIsInverse(ab.R);
    }
  }

  // ---------------------------------------------------------------------------
  // Group laws

  lemma ComposeAssociative(a: Transform, b: Transform, c: Transform)
    ensures Compose(Compose(a, b), c) == Compose(a, Compose(b, c))
  {
    RotComposeAssociative(a.R, b.R, c.R);
    RotateCompose(a.R, b.R, c.p);
    RotateAdd(a.R, b.p, Rotate(b.R, c.p));
  }

  lemma ComposeIdentity(a: Transform)
    ensures Compose(a, Identity()) == a
    ensures Compose(Identity(), a) == a
  {
  }

  /** X_AB * X_BA == I and X_BA * X_AB == I. */
  lemma ComposeInverse(a: Transform)
    ensures Compose(a, Inverse(a)) == Identity()
    ensures Compose(Inverse(a), a) == Identity()
  {
    var Rt := RotTranspose(a.R);
    RotTransposeIsInverse(a.R);
    calc {
      Rotate(a.R, Neg(Rotate(Rt, a.p)));
      { RotateAdd(a.R, Rotate(Rt, a.p), Zero()); }
      Neg(Rotate(a.R, Rotate(Rt, a.p)));
      { RotateCompose(a.R, Rt, a.p); }
      Neg(a.p);
    }
    assert Compose(a, Inverse(a)) == Transform(RotIdentity(), Add(a.p, Neg(a.p)));
    assert Compose(Inverse(a), a) == Transform(RotIdentity(), Add(Neg(Rotate(Rt, a.p)), Rotate(Rt, a.p)));
  }

  lemma InverseInvolutive(a: Transform)
    ensures Inverse(Inverse(a)) == a
  {
    var Rt := RotTranspose(a.R);
    RotateAdd(a.R, Rotate(Rt, a.p), Zero());
    RotateCompose(a.R, Rt, a.p);
  }

  /** A right inverse is the inverse. */
  lemma InverseUnique(x: Transform, y: Transform)
    requires Compose(x, y) == Identity()
    ensures y == Inverse(x)
  {
    calc {
      y;
      { ComposeIdentity(y); ComposeInverse(x); }
      Compose(Compose(Inverse(x), x), y);
      { ComposeAssociative(Inverse(x), x, y); }
      Compose(Inverse(x), Identity());
      { ComposeIdentity(Inverse(x)); }
      Inverse(x);
    }
  }

  /** ~(X*Y) == ~Y * ~X */
  lemma InverseOfCompose(a: Transform, b: Transform)
    ensures Inverse(Compose(a, b)) == Compose(Inverse(b), Inverse(a))
  {
    var ab, yx := Compose(a, b), Compose(Inverse(b), Inverse(a));
    calc {
      Compose(ab, yx);
      { ComposeAssociative(ab, Inverse(b), Inverse(a)); }
      Compose(Compose(ab, Inverse(b)), Inverse(a));
      { ComposeAssociative(a, b, Inverse(b)); }
      Compose(Compose(a, Compose(b, Inverse(b))), Inverse(a));
      { ComposeInverse(b); ComposeIdentity(a); }
      Compose(a, Inverse(a));
      { ComposeInverse(a); }
      Identity();
    }
    InverseUnique(ab, yx);
  }

  /** Left cancellation: X*Y == X*Z exactly when Y == Z. */
  lemma ComposeCancelLeft(x: Transform, y: Transform, z: Transform)
    ensures Compose(x, y) == Compose(x, z) <==> y == z
  {
    if Compose(x, y) == Compose(x, z) {
      calc {
        y;
        { ComposeIdentity(y); ComposeInverse(x); }
        Compose(Compose(Inverse(x), x), y);
        { ComposeAssociative(Inverse(x), x, y); }
        Compose(Inverse(x), Compose(x, z));
        { ComposeAssociative(Inverse(x), x, z); }
        Compose(Compose(Inverse(x), x), z);
        { ComposeInverse(x); ComposeIdentity(z); }
        z;
      }
    }
  }

  /** Right cancellation: Y*X == Z*X exactly when Y == Z. */
  lemma ComposeCancelRight(x: Transform, y: Transform, z: Transform)
    ensures Compose(y, x) == Compose(z, x) <==> y == z
  {
    if Compose(y, x) == Compose(z, x) {
      calc {
        y;
        { ComposeIdentity(y); ComposeInverse(x); }
        Compose(y, Compose(x, Inverse(x)));
        { ComposeAssociative(y, x, Inverse(x)); }
        Compose(Compose(z, x), Inverse(x));
        { ComposeAssociative(z, x, Inverse(x)); }
        Compose(z, Compose(x, Inverse(x)));
        { ComposeInverse(x); ComposeIdentity(z); }
        z;
      }
    }
  }
}
