/**
 * The rotations the 4D rotor's unit tests check, proved for every lawful
 * choice of the platform functions. The tests turn by pi/2; here a quarter
 * turn is any angle whose half has equal, positive sine and cosine
 * (`QuarterTurn`).
 */
module Rotors4Examples {
  import opened Elementary
  import Multivectors
  import Bivectors4
  import Floats4
  import opened Rotors4
  import opened Rotors4Laws

  /** The four unit axis vectors. */
  const X: Float4 := Floats4.Float4(1.0, 0.0, 0.0, 0.0)
  const Y: Float4 := Floats4.Float4(0.0, 1.0, 0.0, 0.0)
  const Z: Float4 := Floats4.Float4(0.0, 0.0, 1.0, 0.0)
  const W: Float4 := Floats4.Float4(0.0, 0.0, 0.0, 1.0)

  /** A unit plane and a quarter turn give the rotor with scalar `c` and bivector `-c` times the plane. */
  lemma QuarterTurnRotor(m: Functions, bv: Bivector4, angle: real, c: real)
    requires Lawful(m)
    requires QuarterTurn(m, angle, c)
    requires Bivectors4.LengthSquared(bv) == 1.0
    ensures BivectorAngle(m, bv, angle)
         == Rotor4(c, Bivectors4.Bivector4(-c * bv.yz, -c * bv.xz, -c * bv.xy, -c * bv.xw, -c * bv.yw, -c * bv.zw), 0.0)
  {
    Multivectors.LengthOfOne(m);
    assert Bivectors4.Normalized(m, bv) == bv;
    BivectorAngleIsHalfAngle(m, bv, angle);
    HalfAngleOfUnitPlane(m, bv, angle, c, c);
  }

  /** A quarter turn in the xy plane takes `x` to `y`. */
  lemma PlanarRotationXY(m: Functions, angle: real, c: real)
    requires Lawful(m)
    requires QuarterTurn(m, angle, c)
    ensures RotateVector(BivectorAngle(m, Floats4.Wedge(X, Y), angle), X) == Y
  {
    HalfOfQuarterTurn(m, angle, c);
    PlaneXY(m, angle, c);
    TurnXY(c);
  }

  /** The quarter turn in the plane of `x` and `y`. */
  lemma PlaneXY(m: Functions, angle: real, c: real)
    requires Lawful(m)
    requires QuarterTurn(m, angle, c)
    ensures BivectorAngle(m, Floats4.Wedge(X, Y), angle) == Rotor4(c, Bivectors4.Bivector4(0.0, 0.0, -c, 0.0, 0.0, 0.0), 0.0)
  {
    WedgeXY();
    QuarterTurnXY(m, angle, c);
  }

  /** The quarter-turn rotor of the unit xy plane. */
  lemma QuarterTurnXY(m: Functions, angle: real, c: real)
    requires Lawful(m)
    requires QuarterTurn(m, angle, c)
    ensures BivectorAngle(m, Bivectors4.Bivector4(0.0, 0.0, 1.0, 0.0, 0.0, 0.0), angle) == Rotor4(c, Bivectors4.Bivector4(0.0, 0.0, -c, 0.0, 0.0, 0.0), 0.0)
  {
    QuarterTurnRotor(m, Bivectors4.Bivector4(0.0, 0.0, 1.0, 0.0, 0.0, 0.0), angle, c);
  }

  /** The plane of `x` and `y`. */
  lemma WedgeXY()
    ensures Floats4.Wedge(X, Y) == Bivectors4.Bivector4(0.0, 0.0, 1.0, 0.0, 0.0, 0.0)
  {
  }

  /** With `c * c == 1/2`, the quarter-turn rotor of the xy plane takes `x` to `y`. */
  lemma TurnXY(c: real)
    requires c * c == 0.5
    ensures RotateVector(Rotor4(c, Bivectors4.Bivector4(0.0, 0.0, -c, 0.0, 0.0, 0.0), 0.0), X) == Y
  {
  }

  /** A quarter turn in the xz plane takes `x` to `z`. */
  lemma PlanarRotationXZ(m: Functions, angle: real, c: real)
    requires Lawful(m)
    requires QuarterTurn(m, angle, c)
    ensures RotateVector(BivectorAngle(m, Floats4.Wedge(X, Z), angle), X) == Z
  {
    HalfOfQuarterTurn(m, angle, c);
    PlaneXZ(m, angle, c);
    TurnXZ(c);
  }

  /** The quarter turn in the plane of `x` and `z`. */
  lemma PlaneXZ(m: Functions, angle: real, c: real)
    requires Lawful(m)
    requires QuarterTurn(m, angle, c)
    ensures BivectorAngle(m, Floats4.Wedge(X, Z), angle) == Rotor4(c, Bivectors4.Bivector4(0.0, -c, 0.0, 0.0, 0.0, 0.0), 0.0)
  {
    WedgeXZ();
    QuarterTurnXZ(m, angle, c);
  }

  /** The quarter-turn rotor of the unit xz plane. */
  lemma QuarterTurnXZ(m: Functions, angle: real, c: real)
    requires Lawful(m)
    requires QuarterTurn(m, angle, c)
    ensures BivectorAngle(m, Bivectors4.Bivector4(0.0, 1.0, 0.0, 0.0, 0.0, 0.0), angle) == Rotor4(c, Bivectors4.Bivector4(0.0, -c, 0.0, 0.0, 0.0, 0.0), 0.0)
  {
    QuarterTurnRotor(m, Bivectors4.Bivector4(0.0, 1.0, 0.0, 0.0, 0.0, 0.0), angle, c);
  }

  /** The plane of `x` and `z`. */
  lemma WedgeXZ()
    ensures Floats4.Wedge(X, Z) == Bivectors4.Bivector4(0.0, 1.0, 0.0, 0.0, 0.0, 0.0)
  {
  }

  /** With `c * c == 1/2`, the quarter-turn rotor of the xz plane takes `x` to `z`. */
  lemma TurnXZ(c: real)
    requires c * c == 0.5
    ensures RotateVector(Rotor4(c, Bivectors4.Bivector4(0.0, -c, 0.0, 0.0, 0.0, 0.0), 0.0), X) == Z
  {
  }

  /** A quarter turn in the yz plane takes `y` to `z`. */
  lemma PlanarRotationYZ(m: Functions, angle: real, c: real)
    requires Lawful(m)
    requires QuarterTurn(m, angle, c)
    ensures RotateVector(BivectorAngle(m, Floats4.Wedge(Y, Z), angle), Y) == Z
  {
    HalfOfQuarterTurn(m, angle, c);
    PlaneYZ(m, angle, c);
    TurnYZ(c);
  }

  /** The quarter turn in the plane of `y` and `z`. */
  lemma PlaneYZ(m: Functions, angle: real, c: real)
    requires Lawful(m)
    requires QuarterTurn(m, angle, c)
    ensures BivectorAngle(m, Floats4.Wedge(Y, Z), angle) == Rotor4(c, Bivectors4.Bivector4(-c, 0.0, 0.0, 0.0, 0.0, 0.0), 0.0)
  {
    WedgeYZ();
    QuarterTurnYZ(m, angle, c);
  }

  /** The quarter-turn rotor of the unit yz plane. */
  lemma QuarterTurnYZ(m: Functions, angle: real, c: real)
    requires Lawful(m)
    requires QuarterTurn(m, angle, c)
    ensures BivectorAngle(m, Bivectors4.Bivector4(1.0, 0.0, 0.0, 0.0, 0.0, 0.0), angle) == Rotor4(c, Bivectors4.Bivector4(-c, 0.0, 0.0, 0.0, 0.0, 0.0), 0.0)
  {
    QuarterTurnRotor(m, Bivectors4.Bivector4(1.0, 0.0, 0.0, 0.0, 0.0, 0.0), angle, c);
  }

  /** The plane of `y` and `z`. */
  lemma WedgeYZ()
    ensures Floats4.Wedge(Y, Z) == Bivectors4.Bivector4(1.0, 0.0, 0.0, 0.0, 0.0, 0.0)
  {
  }

  /** With `c * c == 1/2`, the quarter-turn rotor of the yz plane takes `y` to `z`. */
  lemma TurnYZ(c: real)
    requires c * c == 0.5
    ensures RotateVector(Rotor4(c, Bivectors4.Bivector4(-c, 0.0, 0.0, 0.0, 0.0, 0.0), 0.0), Y) == Z
  {
  }

  /** A quarter turn in the xw plane takes `x` to `w`. */
  lemma PlanarRotationXW(m: Functions, angle: real, c: real)
    requires Lawful(m)
    requires QuarterTurn(m, angle, c)
    ensures RotateVector(BivectorAngle(m, Floats4.Wedge(X, W), angle), X) == W
  {
    HalfOfQuarterTurn(m, angle, c);
    PlaneXW(m, angle, c);
    TurnXW(c);
  }

  /** The quarter turn in the plane of `x` and `w`. */
  lemma PlaneXW(m: Functions, angle: real, c: real)
    requires Lawful(m)
    requires QuarterTurn(m, angle, c)
    ensures BivectorAngle(m, Floats4.Wedge(X, W), angle) == Rotor4(c, Bivectors4.Bivector4(0.0, 0.0, 0.0, -c, 0.0, 0.0), 0.0)
  {
    WedgeXW();
    QuarterTurnXW(m, angle, c);
  }

  /** The quarter-turn rotor of the unit xw plane. */
  lemma QuarterTurnXW(m: Functions, angle: real, c: real)
    requires Lawful(m)
    requires QuarterTurn(m, angle, c)
    ensures BivectorAngle(m, Bivectors4.Bivector4(0.0, 0.0, 0.0, 1.0, 0.0, 0.0), angle) == Rotor4(c, Bivectors4.Bivector4(0.0, 0.0, 0.0, -c, 0.0, 0.0), 0.0)
  {
    QuarterTurnRotor(m, Bivectors4.Bivector4(0.0, 0.0, 0.0, 1.0, 0.0, 0.0), angle, c);
  }

  /** The plane of `x` and `w`. */
  lemma WedgeXW()
    ensures Floats4.Wedge(X, W) == Bivectors4.Bivector4(0.0, 0.0, 0.0, 1.0, 0.0, 0.0)
  {
  }

  /** With `c * c == 1/2`, the quarter-turn rotor of the xw plane takes `x` to `w`. */
  lemma TurnXW(c: real)
    requires c * c == 0.5
    ensures RotateVector(Rotor4(c, Bivectors4.Bivector4(0.0, 0.0, 0.0, -c, 0.0, 0.0), 0.0), X) == W
  {
  }

  /** A quarter turn in the yw plane takes `y` to `w`. */
  lemma PlanarRotationYW(m: Functions, angle: real, c: real)
    requires Lawful(m)
    requires QuarterTurn(m, angle, c)
    ensures RotateVector(BivectorAngle(m, Floats4.Wedge(Y, W), angle), Y) == W
  {
    HalfOfQuarterTurn(m, angle, c);
    PlaneYW(m, angle, c);
    TurnYW(c);
  }

  /** The quarter turn in the plane of `y` and `w`. */
  lemma PlaneYW(m: Functions, angle: real, c: real)
    requires Lawful(m)
    requires QuarterTurn(m, angle, c)
    ensures BivectorAngle(m, Floats4.Wedge(Y, W), angle) == Rotor4(c, Bivectors4.Bivector4(0.0, 0.0, 0.0, 0.0, -c, 0.0), 0.0)
  {
    WedgeYW();
    QuarterTurnYW(m, angle, c);
  }

  /** The quarter-turn rotor of the unit yw plane. */
  lemma QuarterTurnYW(m: Functions, angle: real, c: real)
    requires Lawful(m)
    requires QuarterTurn(m, angle, c)
    ensures BivectorAngle(m, Bivectors4.Bivector4(0.0, 0.0, 0.0, 0.0, 1.0, 0.0), angle) == Rotor4(c, Bivectors4.Bivector4(0.0, 0.0, 0.0, 0.0, -c, 0.0), 0.0)
  {
    QuarterTurnRotor(m, Bivectors4.Bivector4(0.0, 0.0, 0.0, 0.0, 1.0, 0.0), angle, c);
  }

  /** The plane of `y` and `w`. */
  lemma WedgeYW()
    ensures Floats4.Wedge(Y, W) == Bivectors4.Bivector4(0.0, 0.0, 0.0, 0.0, 1.0, 0.0)
  {
  }

  /** With `c * c == 1/2`, the quarter-turn rotor of the yw plane takes `y` to `w`. */
  lemma TurnYW(c: real)
    requires c * c == 0.5
    ensures RotateVector(Rotor4(c, Bivectors4.Bivector4(0.0, 0.0, 0.0, 0.0, -c, 0.0), 0.0), Y) == W
  {
  }

  /** A quarter turn in the zw plane takes `z` to `w`. */
  lemma PlanarRotationZW(m: Functions, angle: real, c: real)
    requires Lawful(m)
    requires QuarterTurn(m, angle, c)
    ensures RotateVector(BivectorAngle(m, Floats4.Wedge(Z, W), angle), Z) == W
  {
    HalfOfQuarterTurn(m, angle, c);
    PlaneZW(m, angle, c);
    TurnZW(c);
  }

  /** The quarter turn in the plane of `z` and `w`. */
  lemma PlaneZW(m: Functions, angle: real, c: real)
    requires Lawful(m)
    requires QuarterTurn(m, angle, c)
    ensures BivectorAngle(m, Floats4.Wedge(Z, W), angle) == Rotor4(c, Bivectors4.Bivector4(0.0, 0.0, 0.0, 0.0, 0.0, -c), 0.0)
  {
    WedgeZW();
    QuarterTurnZW(m, angle, c);
  }

  /** The quarter-turn rotor of the unit zw plane. */
  lemma QuarterTurnZW(m: Functions, angle: real, c: real)
    requires Lawful(m)
    requires QuarterTurn(m, angle, c)
    ensures BivectorAngle(m, Bivectors4.Bivector4(0.0, 0.0, 0.0, 0.0, 0.0, 1.0), angle) == Rotor4(c, Bivectors4.Bivector4(0.0, 0.0, 0.0, 0.0, 0.0, -c), 0.0)
  {
    QuarterTurnRotor(m, Bivectors4.Bivector4(0.0, 0.0, 0.0, 0.0, 0.0, 1.0), angle, c);
  }

  /** The plane of `z` and `w`. */
  lemma WedgeZW()
    ensures Floats4.Wedge(Z, W) == Bivectors4.Bivector4(0.0, 0.0, 0.0, 0.0, 0.0, 1.0)
  {
  }

  /** With `c * c == 1/2`, the quarter-turn rotor of the zw plane takes `z` to `w`. */
  lemma TurnZW(c: real)
    requires c * c == 0.5
    ensures RotateVector(Rotor4(c, Bivectors4.Bivector4(0.0, 0.0, 0.0, 0.0, 0.0, -c), 0.0), Z) == W
  {
  }

  /** `(1, 1, 0, 0).normalized()` is `(k, k, 0, 0)` for a positive `k` with `k * k == 1/2`. */
  lemma DiagonalNormalized(m: Functions)
    requires Lawful(m)
    ensures var d := Floats4.Normalized(m, Floats4.Float4(1.0, 1.0, 0.0, 0.0));
      d.x == d.y && d.z == 0.0 && d.w == 0.0 && 0.0 < d.x && d.x * d.x == 0.5
  {
    var u := Floats4.Float4(1.0, 1.0, 0.0, 0.0);
    Multivectors.LengthIsRoot(m, 2.0);
    var l := Floats4.Length(m, u);
    var k := 1.0 / l;
    assert Floats4.Normalized(m, u) == Floats4.Float4(k, k, 0.0, 0.0);
    assert k * l == 1.0;
    assert (k * k) * (l * l) == (k * l) * (k * l);
  }

  /**
   * With `k * k == 1/2`, the geometric product of `(k, k, 0, 0)` and `x` turns
   * `x` into `y`: twice the angle between the two vectors.
   * `DiagonalNormalized` shows that `(1, 1, 0, 0).normalized()` has this form.
   */
  lemma GeometricProductRotation(k: real)
    requires k * k == 0.5
    ensures RotateVector(GeometricProduct(Floats4.Float4(k, k, 0.0, 0.0), X), X) == Y
  {
    assert GeometricProduct(Floats4.Float4(k, k, 0.0, 0.0), X)
        == Rotor4(k, Bivectors4.Bivector4(0.0, 0.0, -k, 0.0, 0.0, 0.0), 0.0);
    DiagonalTurn(k);
  }

  /** With `k * k == 1/2`, the rotor with scalar `k` and `-k` in the xy plane takes `x` to `y`. */
  lemma DiagonalTurn(k: real)
    requires k * k == 0.5
    ensures RotateVector(Rotor4(k, Bivectors4.Bivector4(0.0, 0.0, -k, 0.0, 0.0, 0.0), 0.0), X) == Y
  {
  }

  /** The product of `x` and `y` is the half turn in the xy plane. */
  lemma AxisProduct()
    ensures GeometricProduct(X, Y) == Rotor4(0.0, Bivectors4.Bivector4(0.0, 0.0, 1.0, 0.0, 0.0, 0.0), 0.0)
  {
  }

  /** The product of `x` and `y` is a half turn in the xy plane: it moves `x`. */
  lemma AxisProductMoves()
    ensures RotateVector(GeometricProduct(X, Y), X) != X
  {
    AxisProduct();
    HalfTurnNegatesX();
  }

  /** The product of `x` and `y` times its reverse is the identity. */
  lemma AxisProductTimesReverse()
    ensures RotateRotor(GeometricProduct(X, Y), Reverse(GeometricProduct(X, Y))) == Identity
  {
    AxisProduct();
    HalfTurnReverse();
    HalfTurnTimesReverse();
  }

  /** The reverse of the product of `x` and `y` turns the moved `x` back. */
  lemma AxisProductReverseUndoes()
    ensures RotateVector(Reverse(GeometricProduct(X, Y)), RotateVector(GeometricProduct(X, Y), X)) == X
  {
    AxisProduct();
    HalfTurnReverse();
    HalfTurnNegatesX();
    HalfTurnBack();
  }

  /** The reverse of the half turn flips its bivector. */
  lemma HalfTurnReverse()
    ensures Reverse(Rotor4(0.0, Bivectors4.Bivector4(0.0, 0.0, 1.0, 0.0, 0.0, 0.0), 0.0))
         == Rotor4(0.0, Bivectors4.Bivector4(0.0, 0.0, -1.0, 0.0, 0.0, 0.0), 0.0)
  {
  }

  /** The half turn in the xy plane takes `x` to `-x`. */
  lemma HalfTurnNegatesX()
    ensures RotateVector(Rotor4(0.0, Bivectors4.Bivector4(0.0, 0.0, 1.0, 0.0, 0.0, 0.0), 0.0), X) == Floats4.Float4(-1.0, 0.0, 0.0, 0.0)
  {
  }

  /** The half turn in the xy plane times its reverse is the identity. */
  lemma HalfTurnTimesReverse()
    ensures RotateRotor(Rotor4(0.0, Bivectors4.Bivector4(0.0, 0.0, 1.0, 0.0, 0.0, 0.0), 0.0), Rotor4(0.0, Bivectors4.Bivector4(0.0, 0.0, -1.0, 0.0, 0.0, 0.0), 0.0))
         == Identity
  {
  }

  /** The reverse half turn in the xy plane takes `-x` back to `x`. */
  lemma HalfTurnBack()
    ensures RotateVector(Rotor4(0.0, Bivectors4.Bivector4(0.0, 0.0, -1.0, 0.0, 0.0, 0.0), 0.0), Floats4.Float4(-1.0, 0.0, 0.0, 0.0)) == X
  {
  }

  /**
   * Rotating in the plane of a vector with itself (the zero plane) leaves
   * every vector unchanged, when the half angle has a positive cosine.
   */
  lemma ZeroRotation(m: Functions, angle: real, c: real, e: Float4, v: Float4)
    requires Lawful(m)
    requires c == Cos(m, angle / 2.0) && 0.0 < c
    ensures RotateVector(BivectorAngle(m, Floats4.Wedge(e, e), angle), v) == v
  {
    assert Floats4.Wedge(e, e) == Bivectors4.Zero;
    BivectorAngleOfZeroPlane(m, angle, c);
    RotateByIdentity(v);
  }

  /**
   * A quarter turn in the plane of `z` and `(k, k, 0, 0)`, with
   * `k * k == 1/2`, takes `z` to `(k, k, 0, 0)`.
   */
  lemma OffAxisRotation(m: Functions, angle: real, c: real, k: real)
    requires Lawful(m)
    requires QuarterTurn(m, angle, c)
    requires k * k == 0.5
    ensures RotateVector(BivectorAngle(m, Floats4.Wedge(Z, Floats4.Float4(k, k, 0.0, 0.0)), angle), Z)
         == Floats4.Float4(k, k, 0.0, 0.0)
  {
    HalfOfQuarterTurn(m, angle, c);
    OffAxisPlaneRotor(m, angle, c, k);
    OffAxisTurn(c, k);
  }

  /** The quarter-turn rotor in the plane of `z` and `(k, k, 0, 0)`. */
  lemma OffAxisPlaneRotor(m: Functions, angle: real, c: real, k: real)
    requires Lawful(m)
    requires QuarterTurn(m, angle, c)
    requires k * k == 0.5
    ensures BivectorAngle(m, Floats4.Wedge(Z, Floats4.Float4(k, k, 0.0, 0.0)), angle)
         == Rotor4(c, Bivectors4.Bivector4(c * k, c * k, 0.0, 0.0, 0.0, 0.0), 0.0)
  {
    var plane := Bivectors4.Bivector4(-k, -k, 0.0, 0.0, 0.0, 0.0);
    assert Floats4.Wedge(Z, Floats4.Float4(k, k, 0.0, 0.0)) == plane;
    assert Bivectors4.LengthSquared(plane) == 1.0;
    QuarterTurnRotor(m, plane, angle, c);
  }

  /** With `c * c == k * k == 1/2`, the off-axis quarter-turn rotor takes `z` to `(k, k, 0, 0)`. */
  lemma OffAxisTurn(c: real, k: real)
    requires c * c == 0.5 && k * k == 0.5
    ensures RotateVector(Rotor4(c, Bivectors4.Bivector4(c * k, c * k, 0.0, 0.0, 0.0, 0.0), 0.0), Z)
         == Floats4.Float4(k, k, 0.0, 0.0)
  {
    assert c * k * c * k == (c * c) * (k * k);
  }

  /**
   * Starting from the identity and multiplying in a quarter turn in the zy
   * plane and then one in the zx plane gives a rotor that takes `z` to `x`.
   */
  lemma TwoCombinedRotations(m: Functions, angle: real, c: real)
    requires Lawful(m)
    requires QuarterTurn(m, angle, c)
    ensures
      var r1 := RotateRotor(Identity, BivectorAngle(m, Floats4.Wedge(Z, Y), angle));
      var r2 := RotateRotor(r1, BivectorAngle(m, Floats4.Wedge(Z, X), angle));
      RotateVector(r2, Z) == X
  {
    HalfOfQuarterTurn(m, angle, c);
    var q1 := Rotor4(c, Bivectors4.Bivector4(c, 0.0, 0.0, 0.0, 0.0, 0.0), 0.0);
    var q2 := Rotor4(c, Bivectors4.Bivector4(0.0, c, 0.0, 0.0, 0.0, 0.0), 0.0);
    PlaneZY(m, angle, c);
    PlaneZX(m, angle, c);
    CombinedQuarterTurns(c);
    SubstituteTurns(BivectorAngle(m, Floats4.Wedge(Z, Y), angle), BivectorAngle(m, Floats4.Wedge(Z, X), angle), q1, q2, Z, X);
  }

  /** The quarter turn in the plane of `z` and `y`. */
  lemma PlaneZY(m: Functions, angle: real, c: real)
    requires Lawful(m)
    requires QuarterTurn(m, angle, c)
    ensures BivectorAngle(m, Floats4.Wedge(Z, Y), angle) == Rotor4(c, Bivectors4.Bivector4(c, 0.0, 0.0, 0.0, 0.0, 0.0), 0.0)
  {
    WedgeZY();
    QuarterTurnZY(m, angle, c);
  }

  /** The quarter-turn rotor of the unit zy plane. */
  lemma QuarterTurnZY(m: Functions, angle: real, c: real)
    requires Lawful(m)
    requires QuarterTurn(m, angle, c)
    ensures BivectorAngle(m, Bivectors4.Bivector4(-1.0, 0.0, 0.0, 0.0, 0.0, 0.0), angle)
         == Rotor4(c, Bivectors4.Bivector4(c, 0.0, 0.0, 0.0, 0.0, 0.0), 0.0)
  {
    QuarterTurnRotor(m, Bivectors4.Bivector4(-1.0, 0.0, 0.0, 0.0, 0.0, 0.0), angle, c);
  }

  /** The plane of `z` and `y`. */
  lemma WedgeZY()
    ensures Floats4.Wedge(Z, Y) == Bivectors4.Bivector4(-1.0, 0.0, 0.0, 0.0, 0.0, 0.0)
  {
  }

  /** The quarter turn in the plane of `z` and `x`. */
  lemma PlaneZX(m: Functions, angle: real, c: real)
    requires Lawful(m)
    requires QuarterTurn(m, angle, c)
    ensures BivectorAngle(m, Floats4.Wedge(Z, X), angle) == Rotor4(c, Bivectors4.Bivector4(0.0, c, 0.0, 0.0, 0.0, 0.0), 0.0)
  {
    WedgeZX();
    QuarterTurnZX(m, angle, c);
  }

  /** The quarter-turn rotor of the unit zx plane. */
  lemma QuarterTurnZX(m: Functions, angle: real, c: real)
    requires Lawful(m)
    requires QuarterTurn(m, angle, c)
    ensures BivectorAngle(m, Bivectors4.Bivector4(0.0, -1.0, 0.0, 0.0, 0.0, 0.0), angle)
         == Rotor4(c, Bivectors4.Bivector4(0.0, c, 0.0, 0.0, 0.0, 0.0), 0.0)
  {
    QuarterTurnRotor(m, Bivectors4.Bivector4(0.0, -1.0, 0.0, 0.0, 0.0, 0.0), angle, c);
  }

  /** The plane of `z` and `x`. */
  lemma WedgeZX()
    ensures Floats4.Wedge(Z, X) == Bivectors4.Bivector4(0.0, -1.0, 0.0, 0.0, 0.0, 0.0)
  {
  }

  /** With `c * c == 1/2`, the two quarter-turn rotors multiplied into the identity take `z` to `x`. */
  lemma CombinedQuarterTurns(c: real)
    requires c * c == 0.5
    ensures
      var q1 := Rotor4(c, Bivectors4.Bivector4(c, 0.0, 0.0, 0.0, 0.0, 0.0), 0.0);
      var q2 := Rotor4(c, Bivectors4.Bivector4(0.0, c, 0.0, 0.0, 0.0, 0.0), 0.0);
      RotateVector(RotateRotor(RotateRotor(Identity, q1), q2), Z) == X
  {
    var q1 := Rotor4(c, Bivectors4.Bivector4(c, 0.0, 0.0, 0.0, 0.0, 0.0), 0.0);
    IdentityIsUnit(q1);
    CombinedProduct(c);
    CombinedTurn();
  }

  /** The combined rotation depends only on the values of the two rotors multiplied in. */
  lemma SubstituteTurns(p1: Rotor4, p2: Rotor4, q1: Rotor4, q2: Rotor4, v: Float4, w: Float4)
    requires p1 == q1 && p2 == q2
    requires RotateVector(RotateRotor(RotateRotor(Identity, q1), q2), v) == w
    ensures RotateVector(RotateRotor(RotateRotor(Identity, p1), p2), v) == w
  {
  }

  /** The product of the two quarter turns of `TwoCombinedRotations`. */
  lemma CombinedProduct(c: real)
    requires c * c == 0.5
    ensures RotateRotor(Rotor4(c, Bivectors4.Bivector4(c, 0.0, 0.0, 0.0, 0.0, 0.0), 0.0), Rotor4(c, Bivectors4.Bivector4(0.0, c, 0.0, 0.0, 0.0, 0.0), 0.0))
         == Rotor4(0.5, Bivectors4.Bivector4(0.5, 0.5, 0.5, 0.0, 0.0, 0.0), 0.0)
  {
  }

  /** The combined rotor of `TwoCombinedRotations` takes `z` to `x`. */
  lemma CombinedTurn()
    ensures RotateVector(Rotor4(0.5, Bivectors4.Bivector4(0.5, 0.5, 0.5, 0.0, 0.0, 0.0), 0.0), Z) == X
  {
  }

  /** `slerp` from the identity to a quarter turn in the xz plane starts at the identity. */
  lemma SlerpStartsAtIdentity(m: Functions, angle: real)
    requires Lawful(m)
    ensures Slerp(m, Identity, BivectorAngle(m, Floats4.Wedge(X, Z), angle), 0.0) == Identity
  {
    SlerpAtStart(m, Identity, BivectorAngle(m, Floats4.Wedge(X, Z), angle));
    IdentityIsUnit(Identity);
    NormalizedOfUnit(m, Identity);
  }

  /** `slerp` from the identity to a quarter turn in the xz plane ends at the turn. */
  lemma SlerpEndsAtTurn(m: Functions, angle: real, c: real)
    requires Lawful(m)
    requires QuarterTurn(m, angle, c)
    ensures Slerp(m, Identity, BivectorAngle(m, Floats4.Wedge(X, Z), angle), 1.0)
         == BivectorAngle(m, Floats4.Wedge(X, Z), angle)
  {
    var rb := BivectorAngle(m, Floats4.Wedge(X, Z), angle);
    SlerpAtEnd(m, Identity, rb);
    QuarterTurnXZUnit(m, angle, c);
    NormalizedOfUnit(m, rb);
  }

  /** The quarter turn in the xz plane is a unit rotor. */
  lemma QuarterTurnXZUnit(m: Functions, angle: real, c: real)
    requires Lawful(m)
    requires QuarterTurn(m, angle, c)
    ensures LengthSquared(BivectorAngle(m, Floats4.Wedge(X, Z), angle)) == 1.0
  {
    HalfOfQuarterTurn(m, angle, c);
    PlaneXZ(m, angle, c);
    UnitQuarterXZ(c);
  }

  /** With `c * c == 1/2`, the quarter-turn rotor of the xz plane has unit length. */
  lemma UnitQuarterXZ(c: real)
    requires c * c == 0.5
    ensures LengthSquared(Rotor4(c, Bivectors4.Bivector4(0.0, -c, 0.0, 0.0, 0.0, 0.0), 0.0)) == 1.0
  {
  }
}
