/**
 * The rotations the 3D rotor's unit tests check, proved for every lawful
 * choice of the platform functions. The tests turn by pi/2; here a quarter
 * turn is any angle whose half has equal, positive sine and cosine.
 */
module Rotors3Examples {
  import opened Elementary
  import Multivectors
  import Bivectors3
  import Floats3
  import opened Rotors3
  import opened Rotors3Laws

  /** `(1, 1, 0).normalized()` is `(k, k, 0)` for a positive `k` with `k * k == 1/2`. */
  lemma DiagonalNormalized(m: Functions)
    requires Lawful(m)
    ensures var d := Floats3.Normalized(m, Floats3.Float3(1.0, 1.0, 0.0));
      d.x == d.y && d.z == 0.0 && 0.0 < d.x && d.x * d.x == 0.5
  {
    var u := Floats3.Float3(1.0, 1.0, 0.0);
    Multivectors.LengthIsRoot(m, 2.0);
    var l := Floats3.Length(m, u);
    var k := 1.0 / l;
    assert Floats3.Normalized(m, u) == Floats3.Float3(k, k, 0.0);
    assert k * l == 1.0;
    assert (k * k) * (l * l) == (k * l) * (k * l);
  }

  /** A unit plane and a quarter turn give the rotor with scalar `c` and bivector `-c` times the plane. */
  lemma QuarterTurnRotor(m: Functions, bv: Bivector3, angle: real, c: real)
    requires Lawful(m)
    requires QuarterTurn(m, angle, c)
    requires Bivectors3.LengthSquared(bv) == 1.0
    ensures BivectorAngle(m, bv, angle) == Rotor3(c, Bivectors3.Bivector3(-c * bv.yz, -c * bv.xz, -c * bv.xy))
  {
    Multivectors.LengthOfOne(m);
    assert Bivectors3.Normalized(m, bv) == bv;
    BivectorAngleIsHalfAngle(m, bv, angle);
    HalfAngleOfUnitPlane(m, bv, angle, c, c);
  }

  /**
   * With `c * c == 1/2`, the geometric product of `(c, c, 0)` and `x` turns
   * `x` into `y`: twice the angle between the two vectors. `DiagonalNormalized`
   * shows that `(1, 1, 0).normalized()` has this form.
   */
  lemma GeometricProductRotation(c: real)
    requires c * c == 0.5
    ensures RotateVector(GeometricProduct(Floats3.Float3(c, c, 0.0), Floats3.Float3(1.0, 0.0, 0.0)), Floats3.Float3(1.0, 0.0, 0.0)) == Floats3.Float3(0.0, 1.0, 0.0)
  {
    DiagonalProduct(c);
    TurnXY(c);
  }

  /** The product of `(k, k, 0)` and `x` is the rotor with scalar `k` and bivector `-k` in the xy plane. */
  lemma DiagonalProduct(k: real)
    ensures GeometricProduct(Floats3.Float3(k, k, 0.0), Floats3.Float3(1.0, 0.0, 0.0)) == Rotor3(k, Bivectors3.Bivector3(0.0, 0.0, -k))
  {
  }

  /** The product of `x` and `y` is a half turn in the xy plane: it moves `x`. */
  lemma AxisProductMoves()
    ensures RotateVector(GeometricProduct(Floats3.Float3(1.0, 0.0, 0.0), Floats3.Float3(0.0, 1.0, 0.0)), Floats3.Float3(1.0, 0.0, 0.0)) != Floats3.Float3(1.0, 0.0, 0.0)
  {
    AxisProduct();
    HalfTurnNegatesX();
  }

  /** The product of `x` and `y` times its reverse is the identity. */
  lemma AxisProductTimesReverse()
    ensures RotateRotor(GeometricProduct(Floats3.Float3(1.0, 0.0, 0.0), Floats3.Float3(0.0, 1.0, 0.0)), Reverse(GeometricProduct(Floats3.Float3(1.0, 0.0, 0.0), Floats3.Float3(0.0, 1.0, 0.0)))) == Identity
  {
    AxisProduct();
    HalfTurnReverse();
    HalfTurnTimesReverse();
  }

  /** The reverse of the product of `x` and `y` turns the moved `x` back. */
  lemma AxisProductReverseUndoes()
    ensures RotateVector(Reverse(GeometricProduct(Floats3.Float3(1.0, 0.0, 0.0), Floats3.Float3(0.0, 1.0, 0.0))), RotateVector(GeometricProduct(Floats3.Float3(1.0, 0.0, 0.0), Floats3.Float3(0.0, 1.0, 0.0)), Floats3.Float3(1.0, 0.0, 0.0))) == Floats3.Float3(1.0, 0.0, 0.0)
  {
    AxisProduct();
    HalfTurnReverse();
    HalfTurnNegatesX();
    HalfTurnBack();
  }

  /** The product of `x` and `y` is the half turn in the xy plane. */
  lemma AxisProduct()
    ensures GeometricProduct(Floats3.Float3(1.0, 0.0, 0.0), Floats3.Float3(0.0, 1.0, 0.0)) == Rotor3(0.0, Bivectors3.Bivector3(0.0, 0.0, 1.0))
  {
  }

  /** The reverse of the half turn flips its bivector. */
  lemma HalfTurnReverse()
    ensures Reverse(Rotor3(0.0, Bivectors3.Bivector3(0.0, 0.0, 1.0))) == Rotor3(0.0, Bivectors3.Bivector3(0.0, 0.0, -1.0))
  {
  }

  /** The half turn in the xy plane takes `x` to `-x`. */
  lemma HalfTurnNegatesX()
    ensures RotateVector(Rotor3(0.0, Bivectors3.Bivector3(0.0, 0.0, 1.0)), Floats3.Float3(1.0, 0.0, 0.0)) == Floats3.Float3(-1.0, 0.0, 0.0)
  {
  }

  /** The half turn in the xy plane times its reverse is the identity. */
  lemma HalfTurnTimesReverse()
    ensures RotateRotor(Rotor3(0.0, Bivectors3.Bivector3(0.0, 0.0, 1.0)), Rotor3(0.0, Bivectors3.Bivector3(0.0, 0.0, -1.0))) == Identity
  {
  }

  /** The reverse half turn takes `-x` back to `x`. */
  lemma HalfTurnBack()
    ensures RotateVector(Rotor3(0.0, Bivectors3.Bivector3(0.0, 0.0, -1.0)), Floats3.Float3(-1.0, 0.0, 0.0)) == Floats3.Float3(1.0, 0.0, 0.0)
  {
  }

  /** A quarter turn in the xy plane takes `x` to `y`. */
  lemma PlanarRotationXY(m: Functions, angle: real, c: real)
    requires Lawful(m)
    requires QuarterTurn(m, angle, c)
    ensures RotateVector(BivectorAngle(m, Floats3.Wedge(Floats3.Float3(1.0, 0.0, 0.0), Floats3.Float3(0.0, 1.0, 0.0)), angle), Floats3.Float3(1.0, 0.0, 0.0)) == Floats3.Float3(0.0, 1.0, 0.0)
  {
    HalfOfQuarterTurn(m, angle, c);
    PlaneXY(m, angle, c);
    TurnXY(c);
  }

  /** The quarter turn in the plane of `x` and `y`. */
  lemma PlaneXY(m: Functions, angle: real, c: real)
    requires Lawful(m)
    requires QuarterTurn(m, angle, c)
    ensures BivectorAngle(m, Floats3.Wedge(Floats3.Float3(1.0, 0.0, 0.0), Floats3.Float3(0.0, 1.0, 0.0)), angle)
         == Rotor3(c, Bivectors3.Bivector3(0.0, 0.0, -c))
  {
    WedgeXY();
    QuarterTurnXY(m, angle, c);
  }

  /** The quarter-turn rotor of the xy plane. */
  lemma QuarterTurnXY(m: Functions, angle: real, c: real)
    requires Lawful(m)
    requires QuarterTurn(m, angle, c)
    ensures BivectorAngle(m, Bivectors3.Bivector3(0.0, 0.0, 1.0), angle)
         == Rotor3(c, Bivectors3.Bivector3(0.0, 0.0, -c))
  {
    QuarterTurnRotor(m, Bivectors3.Bivector3(0.0, 0.0, 1.0), angle, c);
  }

  /** A quarter turn in the xz plane takes `x` to `z`. */
  lemma PlanarRotationXZ(m: Functions, angle: real, c: real)
    requires Lawful(m)
    requires QuarterTurn(m, angle, c)
    ensures RotateVector(BivectorAngle(m, Floats3.Wedge(Floats3.Float3(1.0, 0.0, 0.0), Floats3.Float3(0.0, 0.0, 1.0)), angle), Floats3.Float3(1.0, 0.0, 0.0)) == Floats3.Float3(0.0, 0.0, 1.0)
  {
    HalfOfQuarterTurn(m, angle, c);
    PlaneXZ(m, angle, c);
    TurnXZ(c);
  }

  /** The quarter turn in the plane of `x` and `z`. */
  lemma PlaneXZ(m: Functions, angle: real, c: real)
    requires Lawful(m)
    requires QuarterTurn(m, angle, c)
    ensures BivectorAngle(m, Floats3.Wedge(Floats3.Float3(1.0, 0.0, 0.0), Floats3.Float3(0.0, 0.0, 1.0)), angle)
         == Rotor3(c, Bivectors3.Bivector3(0.0, -c, 0.0))
  {
    WedgeXZ();
    QuarterTurnXZ(m, angle, c);
  }

  /** The quarter-turn rotor of the xz plane. */
  lemma QuarterTurnXZ(m: Functions, angle: real, c: real)
    requires Lawful(m)
    requires QuarterTurn(m, angle, c)
    ensures BivectorAngle(m, Bivectors3.Bivector3(0.0, 1.0, 0.0), angle)
         == Rotor3(c, Bivectors3.Bivector3(0.0, -c, 0.0))
  {
    QuarterTurnRotor(m, Bivectors3.Bivector3(0.0, 1.0, 0.0), angle, c);
  }

  /** A quarter turn in the yz plane takes `y` to `z`. */
  lemma PlanarRotationYZ(m: Functions, angle: real, c: real)
    requires Lawful(m)
    requires QuarterTurn(m, angle, c)
    ensures RotateVector(BivectorAngle(m, Floats3.Wedge(Floats3.Float3(0.0, 1.0, 0.0), Floats3.Float3(0.0, 0.0, 1.0)), angle), Floats3.Float3(0.0, 1.0, 0.0)) == Floats3.Float3(0.0, 0.0, 1.0)
  {
    HalfOfQuarterTurn(m, angle, c);
    PlaneYZ(m, angle, c);
    TurnYZ(c);
  }

  /** The quarter turn in the plane of `y` and `z`. */
  lemma PlaneYZ(m: Functions, angle: real, c: real)
    requires Lawful(m)
    requires QuarterTurn(m, angle, c)
    ensures BivectorAngle(m, Floats3.Wedge(Floats3.Float3(0.0, 1.0, 0.0), Floats3.Float3(0.0, 0.0, 1.0)), angle)
         == Rotor3(c, Bivectors3.Bivector3(-c, 0.0, 0.0))
  {
    WedgeYZ();
    QuarterTurnYZ(m, angle, c);
  }

  /** The quarter-turn rotor of the yz plane. */
  lemma QuarterTurnYZ(m: Functions, angle: real, c: real)
    requires Lawful(m)
    requires QuarterTurn(m, angle, c)
    ensures BivectorAngle(m, Bivectors3.Bivector3(1.0, 0.0, 0.0), angle)
         == Rotor3(c, Bivectors3.Bivector3(-c, 0.0, 0.0))
  {
    QuarterTurnRotor(m, Bivectors3.Bivector3(1.0, 0.0, 0.0), angle, c);
  }

  /** The plane of `x` and `y`. */
  lemma WedgeXY()
    ensures Floats3.Wedge(Floats3.Float3(1.0, 0.0, 0.0), Floats3.Float3(0.0, 1.0, 0.0)) == Bivectors3.Bivector3(0.0, 0.0, 1.0)
  {
  }

  /** The plane of `x` and `z`. */
  lemma WedgeXZ()
    ensures Floats3.Wedge(Floats3.Float3(1.0, 0.0, 0.0), Floats3.Float3(0.0, 0.0, 1.0)) == Bivectors3.Bivector3(0.0, 1.0, 0.0)
  {
  }

  /** The plane of `y` and `z`. */
  lemma WedgeYZ()
    ensures Floats3.Wedge(Floats3.Float3(0.0, 1.0, 0.0), Floats3.Float3(0.0, 0.0, 1.0)) == Bivectors3.Bivector3(1.0, 0.0, 0.0)
  {
  }

  /** With `c * c == 1/2`, the quarter-turn rotor of the xy plane takes `x` to `y`. */
  lemma TurnXY(c: real)
    requires c * c == 0.5
    ensures RotateVector(Rotor3(c, Bivectors3.Bivector3(0.0, 0.0, -c)), Floats3.Float3(1.0, 0.0, 0.0)) == Floats3.Float3(0.0, 1.0, 0.0)
  {
  }

  /** With `c * c == 1/2`, the quarter-turn rotor of the xz plane takes `x` to `z`. */
  lemma TurnXZ(c: real)
    requires c * c == 0.5
    ensures RotateVector(Rotor3(c, Bivectors3.Bivector3(0.0, -c, 0.0)), Floats3.Float3(1.0, 0.0, 0.0)) == Floats3.Float3(0.0, 0.0, 1.0)
  {
  }

  /** With `c * c == 1/2`, the quarter-turn rotor of the yz plane takes `y` to `z`. */
  lemma TurnYZ(c: real)
    requires c * c == 0.5
    ensures RotateVector(Rotor3(c, Bivectors3.Bivector3(-c, 0.0, 0.0)), Floats3.Float3(0.0, 1.0, 0.0)) == Floats3.Float3(0.0, 0.0, 1.0)
  {
  }

  /** The plane of a vector with itself is zero, so the rotation leaves every vector unchanged. */
  lemma ZeroRotation(m: Functions, angle: real, c: real, e: Float3, v: Float3)
    requires Lawful(m)
    requires c == Cos(m, angle / 2.0) && 0.0 < c
    ensures RotateVector(BivectorAngle(m, Floats3.Wedge(e, e), angle), v) == v
  {
    Floats3.WedgeAntisymmetric(e, e);
    BivectorAngleOfZeroPlane(m, angle, c);
    RotateByIdentity(v);
  }

  /**
   * A quarter turn in the plane of `z` and the unit diagonal `(k, k, 0)` takes
   * `z` to that diagonal; `DiagonalNormalized` shows that
   * `(1, 1, 0).normalized()` is such a diagonal.
   */
  lemma OffAxisRotation(m: Functions, angle: real, c: real, k: real)
    requires Lawful(m)
    requires QuarterTurn(m, angle, c)
    requires k * k == 0.5
    ensures RotateVector(BivectorAngle(m, Floats3.Wedge(Floats3.Float3(0.0, 0.0, 1.0), Floats3.Float3(k, k, 0.0)), angle), Floats3.Float3(0.0, 0.0, 1.0))
         == Floats3.Float3(k, k, 0.0)
  {
    HalfOfQuarterTurn(m, angle, c);
    var b := BivectorAngle(m, Floats3.Wedge(Floats3.Float3(0.0, 0.0, 1.0), Floats3.Float3(k, k, 0.0)), angle);
    var q := Rotor3(c, Bivectors3.Bivector3(c * k, c * k, 0.0));
    OffAxisPlaneRotor(m, angle, c, k);
    OffAxisTurn(c, k);
    SubstituteRotation(b, q, Floats3.Float3(0.0, 0.0, 1.0), Floats3.Float3(k, k, 0.0));
  }

  /** The quarter turn in the plane of `z` and `(k, k, 0)`, for `k * k == 1/2`. */
  lemma OffAxisPlaneRotor(m: Functions, angle: real, c: real, k: real)
    requires Lawful(m)
    requires QuarterTurn(m, angle, c)
    requires k * k == 0.5
    ensures BivectorAngle(m, Floats3.Wedge(Floats3.Float3(0.0, 0.0, 1.0), Floats3.Float3(k, k, 0.0)), angle)
         == Rotor3(c, Bivectors3.Bivector3(c * k, c * k, 0.0))
  {
    OffAxisPlane(k);
    QuarterTurnOffAxis(m, angle, c, k);
  }

  /** A rotation depends only on the value of its rotor. */
  lemma SubstituteRotation(p: Rotor3, q: Rotor3, v: Float3, w: Float3)
    requires p == q
    requires RotateVector(q, v) == w
    ensures RotateVector(p, v) == w
  {
  }

  /** The quarter-turn rotor of the plane of `z` and `(k, k, 0)`. */
  lemma QuarterTurnOffAxis(m: Functions, angle: real, c: real, k: real)
    requires Lawful(m)
    requires QuarterTurn(m, angle, c)
    requires k * k == 0.5
    ensures BivectorAngle(m, Bivectors3.Bivector3(-k, -k, 0.0), angle)
         == Rotor3(c, Bivectors3.Bivector3(c * k, c * k, 0.0))
  {
    OffAxisPlane(k);
    QuarterTurnRotor(m, Bivectors3.Bivector3(-k, -k, 0.0), angle, c);
  }

  /** The plane of `z` and `(k, k, 0)`, of unit size when `k * k == 1/2`. */
  lemma OffAxisPlane(k: real)
    requires k * k == 0.5
    ensures Floats3.Wedge(Floats3.Float3(0.0, 0.0, 1.0), Floats3.Float3(k, k, 0.0)) == Bivectors3.Bivector3(-k, -k, 0.0)
    ensures Bivectors3.LengthSquared(Bivectors3.Bivector3(-k, -k, 0.0)) == 1.0
  {
  }

  /** The rotor of `OffAxisRotation`, for `c * c == k * k == 1/2`. */
  lemma OffAxisTurn(c: real, k: real)
    requires c * c == 0.5 && k * k == 0.5
    ensures RotateVector(Rotor3(c, Bivectors3.Bivector3(c * k, c * k, 0.0)), Floats3.Float3(0.0, 0.0, 1.0)) == Floats3.Float3(k, k, 0.0)
  {
    assert (c * c) * k == 0.5 * k;
    assert (c * k) * (c * k) == (c * c) * (k * k);
  }

  /**
   * Starting from the identity and multiplying in a quarter turn in the zy
   * plane and then one in the zx plane gives a rotor that takes `z` to `x`.
   */
  lemma TwoCombinedRotations(m: Functions, angle: real, c: real)
    requires Lawful(m)
    requires QuarterTurn(m, angle, c)
    ensures
      var r1 := RotateRotor(Identity, BivectorAngle(m, Floats3.Wedge(Floats3.Float3(0.0, 0.0, 1.0), Floats3.Float3(0.0, 1.0, 0.0)), angle));
      var r2 := RotateRotor(r1, BivectorAngle(m, Floats3.Wedge(Floats3.Float3(0.0, 0.0, 1.0), Floats3.Float3(1.0, 0.0, 0.0)), angle));
      RotateVector(r2, Floats3.Float3(0.0, 0.0, 1.0)) == Floats3.Float3(1.0, 0.0, 0.0)
  {
    HalfOfQuarterTurn(m, angle, c);
    var q1 := Rotor3(c, Bivectors3.Bivector3(c, 0.0, 0.0));
    var q2 := Rotor3(c, Bivectors3.Bivector3(0.0, c, 0.0));
    var b1 := BivectorAngle(m, Floats3.Wedge(Floats3.Float3(0.0, 0.0, 1.0), Floats3.Float3(0.0, 1.0, 0.0)), angle);
    var b2 := BivectorAngle(m, Floats3.Wedge(Floats3.Float3(0.0, 0.0, 1.0), Floats3.Float3(1.0, 0.0, 0.0)), angle);
    PlaneZY(m, angle, c);
    PlaneZX(m, angle, c);
    CombinedQuarterTurns(c);
    SubstituteTurns(b1, b2, q1, q2, Floats3.Float3(0.0, 0.0, 1.0), Floats3.Float3(1.0, 0.0, 0.0));
  }

  /** The quarter turn in the plane of `z` and `y`. */
  lemma PlaneZY(m: Functions, angle: real, c: real)
    requires Lawful(m)
    requires QuarterTurn(m, angle, c)
    ensures BivectorAngle(m, Floats3.Wedge(Floats3.Float3(0.0, 0.0, 1.0), Floats3.Float3(0.0, 1.0, 0.0)), angle)
         == Rotor3(c, Bivectors3.Bivector3(c, 0.0, 0.0))
  {
    WedgeZY();
    QuarterTurnZY(m, angle, c);
  }

  /** The quarter turn in the plane of `z` and `x`. */
  lemma PlaneZX(m: Functions, angle: real, c: real)
    requires Lawful(m)
    requires QuarterTurn(m, angle, c)
    ensures BivectorAngle(m, Floats3.Wedge(Floats3.Float3(0.0, 0.0, 1.0), Floats3.Float3(1.0, 0.0, 0.0)), angle)
         == Rotor3(c, Bivectors3.Bivector3(0.0, c, 0.0))
  {
    WedgeZX();
    QuarterTurnZX(m, angle, c);
  }

  /** With `c * c == 1/2`, the two quarter-turn rotors multiplied into the identity take `z` to `x`. */
  lemma CombinedQuarterTurns(c: real)
    requires c * c == 0.5
    ensures
      var q1 := Rotor3(c, Bivectors3.Bivector3(c, 0.0, 0.0));
      var q2 := Rotor3(c, Bivectors3.Bivector3(0.0, c, 0.0));
      RotateVector(RotateRotor(RotateRotor(Identity, q1), q2), Floats3.Float3(0.0, 0.0, 1.0)) == Floats3.Float3(1.0, 0.0, 0.0)
  {
    var q1 := Rotor3(c, Bivectors3.Bivector3(c, 0.0, 0.0));
    IdentityIsUnit(q1);
    CombinedProduct(c);
    CombinedTurn();
  }

  /** The combined rotation depends only on the values of the two rotors multiplied in. */
  lemma SubstituteTurns(p1: Rotor3, p2: Rotor3, q1: Rotor3, q2: Rotor3, v: Float3, w: Float3)
    requires p1 == q1 && p2 == q2
    requires RotateVector(RotateRotor(RotateRotor(Identity, q1), q2), v) == w
    ensures RotateVector(RotateRotor(RotateRotor(Identity, p1), p2), v) == w
  {
  }

  /** The quarter-turn rotor of the zy plane. */
  lemma QuarterTurnZY(m: Functions, angle: real, c: real)
    requires Lawful(m)
    requires QuarterTurn(m, angle, c)
    ensures BivectorAngle(m, Bivectors3.Bivector3(-1.0, 0.0, 0.0), angle)
         == Rotor3(c, Bivectors3.Bivector3(c, 0.0, 0.0))
  {
    QuarterTurnRotor(m, Bivectors3.Bivector3(-1.0, 0.0, 0.0), angle, c);
  }

  /** The quarter-turn rotor of the zx plane. */
  lemma QuarterTurnZX(m: Functions, angle: real, c: real)
    requires Lawful(m)
    requires QuarterTurn(m, angle, c)
    ensures BivectorAngle(m, Bivectors3.Bivector3(0.0, -1.0, 0.0), angle)
         == Rotor3(c, Bivectors3.Bivector3(0.0, c, 0.0))
  {
    QuarterTurnRotor(m, Bivectors3.Bivector3(0.0, -1.0, 0.0), angle, c);
  }

  /** The plane of `z` and `y`. */
  lemma WedgeZY()
    ensures Floats3.Wedge(Floats3.Float3(0.0, 0.0, 1.0), Floats3.Float3(0.0, 1.0, 0.0)) == Bivectors3.Bivector3(-1.0, 0.0, 0.0)
  {
  }

  /** The plane of `z` and `x`. */
  lemma WedgeZX()
    ensures Floats3.Wedge(Floats3.Float3(0.0, 0.0, 1.0), Floats3.Float3(1.0, 0.0, 0.0)) == Bivectors3.Bivector3(0.0, -1.0, 0.0)
  {
  }

  /** The product of the two quarter turns of `TwoCombinedRotations`. */
  lemma CombinedProduct(c: real)
    requires c * c == 0.5
    ensures RotateRotor(Rotor3(c, Bivectors3.Bivector3(c, 0.0, 0.0)), Rotor3(c, Bivectors3.Bivector3(0.0, c, 0.0)))
         == Rotor3(0.5, Bivectors3.Bivector3(0.5, 0.5, 0.5))
  {
  }

  /** The combined rotor of `TwoCombinedRotations` takes `z` to `x`. */
  lemma CombinedTurn()
    ensures RotateVector(Rotor3(0.5, Bivectors3.Bivector3(0.5, 0.5, 0.5)), Floats3.Float3(0.0, 0.0, 1.0)) == Floats3.Float3(1.0, 0.0, 0.0)
  {
  }

  /** `slerp` from the identity to a quarter turn in the xz plane starts at the identity. */
  lemma SlerpStartsAtIdentity(m: Functions, angle: real)
    requires Lawful(m)
    ensures Slerp(m, Identity, BivectorAngle(m, Floats3.Wedge(Floats3.Float3(1.0, 0.0, 0.0), Floats3.Float3(0.0, 0.0, 1.0)), angle), 0.0) == Identity
  {
    var rb := BivectorAngle(m, Floats3.Wedge(Floats3.Float3(1.0, 0.0, 0.0), Floats3.Float3(0.0, 0.0, 1.0)), angle);
    SlerpAtStart(m, Identity, rb);
    NormalizedIdentity(m);
  }

  /** The identity is already normalized. */
  lemma NormalizedIdentity(m: Functions)
    requires Lawful(m)
    ensures Normalized(m, Identity) == Identity
  {
    NormalizedOfUnit(m, Identity);
  }

  /** `slerp` from the identity to a quarter turn in the xz plane ends at the turn. */
  lemma SlerpEndsAtTurn(m: Functions, angle: real, c: real)
    requires Lawful(m)
    requires QuarterTurn(m, angle, c)
    ensures Slerp(m, Identity, BivectorAngle(m, Floats3.Wedge(Floats3.Float3(1.0, 0.0, 0.0), Floats3.Float3(0.0, 0.0, 1.0)), angle), 1.0)
         == BivectorAngle(m, Floats3.Wedge(Floats3.Float3(1.0, 0.0, 0.0), Floats3.Float3(0.0, 0.0, 1.0)), angle)
  {
    var rb := BivectorAngle(m, Floats3.Wedge(Floats3.Float3(1.0, 0.0, 0.0), Floats3.Float3(0.0, 0.0, 1.0)), angle);
    QuarterTurnXZUnit(m, angle, c);
    FromIdentity(rb);
    SlerpAtEnd(m, Identity, rb);
    NormalizedOfUnit(m, rb);
  }

  /** The quarter turn in the xz plane is a unit rotor with a positive scalar part. */
  lemma QuarterTurnXZUnit(m: Functions, angle: real, c: real)
    requires Lawful(m)
    requires QuarterTurn(m, angle, c)
    ensures var rb := BivectorAngle(m, Floats3.Wedge(Floats3.Float3(1.0, 0.0, 0.0), Floats3.Float3(0.0, 0.0, 1.0)), angle);
      LengthSquared(rb) == 1.0 && 0.0 < rb.a
  {
    HalfOfQuarterTurn(m, angle, c);
    var rb := BivectorAngle(m, Floats3.Wedge(Floats3.Float3(1.0, 0.0, 0.0), Floats3.Float3(0.0, 0.0, 1.0)), angle);
    PlaneXZ(m, angle, c);
    UnitQuarterXZ(c);
  }

  /** With `c * c == 1/2`, the quarter-turn rotor of the xz plane has unit length. */
  lemma UnitQuarterXZ(c: real)
    requires c * c == 0.5
    ensures LengthSquared(Rotor3(c, Bivectors3.Bivector3(0.0, -c, 0.0))) == 1.0
  {
  }

  /** The identity is its own reverse. */
  lemma ReverseIdentity()
    ensures Reverse(Identity) == Identity
  {
  }

  /** The rotor from the identity to `r` is `r` itself. */
  lemma FromIdentity(r: Rotor3)
    ensures FromTo(Identity, r) == r
  {
    ReverseIdentity();
    IdentityIsUnit(r);
  }
}
