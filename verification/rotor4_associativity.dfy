/**
 * Associativity of the 4D rotor product, `(ab)c == a(bc)`, proved one
 * component at a time in three layers over the 24 plain components of `a`,
 * `b` and `c`:
 *
 * - `Associative...Terms`: the component of both sides as one polynomial,
 *   with the inner products written out in place;
 * - `Associative...Applied`: the outer product as a call of the component
 *   function on the written-out inner products, which unfolds to the
 *   `Terms` form;
 * - `Associative...`: the outer product on the inner products as calls,
 *   which equal the written-out arguments by unfolding alone.
 *
 * Each layer needs only unfolding or one polynomial identity, so the solver
 * never multiplies unexpanded calls.
 */
module Rotors4Associativity {
  import opened Rotors4

  /** The rotor product is associative. */
  lemma ProductAssociative(a: Rotor4, b: Rotor4, c: Rotor4)
    ensures RotateRotor(RotateRotor(a, b), c) == RotateRotor(a, RotateRotor(b, c))
  {
    AssociativeScalar(a.a, a.bv.yz, a.bv.xz, a.bv.xy, a.bv.xw, a.bv.yw, a.bv.zw, a.p, b.a, b.bv.yz, b.bv.xz, b.bv.xy, b.bv.xw, b.bv.yw, b.bv.zw, b.p, c.a, c.bv.yz, c.bv.xz, c.bv.xy, c.bv.xw, c.bv.yw, c.bv.zw, c.p);
    AssociativeYz(a.a, a.bv.yz, a.bv.xz, a.bv.xy, a.bv.xw, a.bv.yw, a.bv.zw, a.p, b.a, b.bv.yz, b.bv.xz, b.bv.xy, b.bv.xw, b.bv.yw, b.bv.zw, b.p, c.a, c.bv.yz, c.bv.xz, c.bv.xy, c.bv.xw, c.bv.yw, c.bv.zw, c.p);
    AssociativeXz(a.a, a.bv.yz, a.bv.xz, a.bv.xy, a.bv.xw, a.bv.yw, a.bv.zw, a.p, b.a, b.bv.yz, b.bv.xz, b.bv.xy, b.bv.xw, b.bv.yw, b.bv.zw, b.p, c.a, c.bv.yz, c.bv.xz, c.bv.xy, c.bv.xw, c.bv.yw, c.bv.zw, c.p);
    AssociativeXy(a.a, a.bv.yz, a.bv.xz, a.bv.xy, a.bv.xw, a.bv.yw, a.bv.zw, a.p, b.a, b.bv.yz, b.bv.xz, b.bv.xy, b.bv.xw, b.bv.yw, b.bv.zw, b.p, c.a, c.bv.yz, c.bv.xz, c.bv.xy, c.bv.xw, c.bv.yw, c.bv.zw, c.p);
    AssociativeXw(a.a, a.bv.yz, a.bv.xz, a.bv.xy, a.bv.xw, a.bv.yw, a.bv.zw, a.p, b.a, b.bv.yz, b.bv.xz, b.bv.xy, b.bv.xw, b.bv.yw, b.bv.zw, b.p, c.a, c.bv.yz, c.bv.xz, c.bv.xy, c.bv.xw, c.bv.yw, c.bv.zw, c.p);
    AssociativeYw(a.a, a.bv.yz, a.bv.xz, a.bv.xy, a.bv.xw, a.bv.yw, a.bv.zw, a.p, b.a, b.bv.yz, b.bv.xz, b.bv.xy, b.bv.xw, b.bv.yw, b.bv.zw, b.p, c.a, c.bv.yz, c.bv.xz, c.bv.xy, c.bv.xw, c.bv.yw, c.bv.zw, c.p);
    AssociativeZw(a.a, a.bv.yz, a.bv.xz, a.bv.xy, a.bv.xw, a.bv.yw, a.bv.zw, a.p, b.a, b.bv.yz, b.bv.xz, b.bv.xy, b.bv.xw, b.bv.yw, b.bv.zw, b.p, c.a, c.bv.yz, c.bv.xz, c.bv.xy, c.bv.xw, c.bv.yw, c.bv.zw, c.p);
    AssociativeP(a.a, a.bv.yz, a.bv.xz, a.bv.xy, a.bv.xw, a.bv.yw, a.bv.zw, a.p, b.a, b.bv.yz, b.bv.xz, b.bv.xy, b.bv.xw, b.bv.yw, b.bv.zw, b.p, c.a, c.bv.yz, c.bv.xz, c.bv.xy, c.bv.xw, c.bv.yw, c.bv.zw, c.p);
  }

  /** The scalar component of `(ab)c` and of `a(bc)`. */
  lemma AssociativeScalar(
    aa: real, ayz: real, axz: real, axy: real, axw: real, ayw: real, azw: real, ap: real,
    ba: real, byz: real, bxz: real, bxy: real, bxw: real, byw: real, bzw: real, bp: real,
    ca: real, cyz: real, cxz: real, cxy: real, cxw: real, cyw: real, czw: real, cp: real)
    ensures
      var da, dyz, dxz, dxy, dxw, dyw, dzw, dp := ProductScalar(aa, ayz, axz, axy, axw, ayw, azw, ap, ba, byz, bxz, bxy, bxw, byw, bzw, bp), ProductYz(aa, ayz, axz, axy, axw, ayw, azw, ap, ba, byz, bxz, bxy, bxw, byw, bzw, bp), ProductXz(aa, ayz, axz, axy, axw, ayw, azw, ap, ba, byz, bxz, bxy, bxw, byw, bzw, bp), ProductXy(aa, ayz, axz, axy, axw, ayw, azw, ap, ba, byz, bxz, bxy, bxw, byw, bzw, bp), ProductXw(aa, ayz, axz, axy, axw, ayw, azw, ap, ba, byz, bxz, bxy, bxw, byw, bzw, bp), ProductYw(aa, ayz, axz, axy, axw, ayw, azw, ap, ba, byz, bxz, bxy, bxw, byw, bzw, bp), ProductZw(aa, ayz, axz, axy, axw, ayw, azw, ap, ba, byz, bxz, bxy, bxw, byw, bzw, bp), ProductP(aa, ayz, axz, axy, axw, ayw, azw, ap, ba, byz, bxz, bxy, bxw, byw, bzw, bp);
      var fa, fyz, fxz, fxy, fxw, fyw, fzw, fp := ProductScalar(ba, byz, bxz, bxy, bxw, byw, bzw, bp, ca, cyz, cxz, cxy, cxw, cyw, czw, cp), ProductYz(ba, byz, bxz, bxy, bxw, byw, bzw, bp, ca, cyz, cxz, cxy, cxw, cyw, czw, cp), ProductXz(ba, byz, bxz, bxy, bxw, byw, bzw, bp, ca, cyz, cxz, cxy, cxw, cyw, czw, cp), ProductXy(ba, byz, bxz, bxy, bxw, byw, bzw, bp, ca, cyz, cxz, cxy, cxw, cyw, czw, cp), ProductXw(ba, byz, bxz, bxy, bxw, byw, bzw, bp, ca, cyz, cxz, cxy, cxw, cyw, czw, cp), ProductYw(ba, byz, bxz, bxy, bxw, byw, bzw, bp, ca, cyz, cxz, cxy, cxw, cyw, czw, cp), ProductZw(ba, byz, bxz, bxy, bxw, byw, bzw, bp, ca, cyz, cxz, cxy, cxw, cyw, czw, cp), ProductP(ba, byz, bxz, bxy, bxw, byw, bzw, bp, ca, cyz, cxz, cxy, cxw, cyw, czw, cp);
      ProductScalar(da, dyz, dxz, dxy, dxw, dyw, dzw, dp, ca, cyz, cxz, cxy, cxw, cyw, czw, cp) == ProductScalar(aa, ayz, axz, axy, axw, ayw, azw, ap, fa, fyz, fxz, fxy, fxw, fyw, fzw, fp)
  {
    AssociativeScalarApplied(aa, ayz, axz, axy, axw, ayw, azw, ap, ba, byz, bxz, bxy, bxw, byw, bzw, bp, ca, cyz, cxz, cxy, cxw, cyw, czw, cp);
  }

  /** The scalar component, the inner products written out as arguments. */
  lemma AssociativeScalarApplied(
    aa: real, ayz: real, axz: real, axy: real, axw: real, ayw: real, azw: real, ap: real,
    ba: real, byz: real, bxz: real, bxy: real, bxw: real, byw: real, bzw: real, bp: real,
    ca: real, cyz: real, cxz: real, cxy: real, cxw: real, cyw: real, czw: real, cp: real)
    ensures ProductScalar((-axw * bxw - axy * bxy - axz * bxz - ayw * byw - ayz * byz - azw * bzw + ap * bp + aa * ba), (-axw * bp - axy * bxz + axz * bxy - ayw * bzw + ayz * ba + azw * byw - ap * bxw + aa * byz), (-axw * bzw + axy * byz + axz * ba + ayw * bp - ayz * bxy + azw * bxw + ap * byw + aa * bxz), (-axw * byw + axy * ba - axz * byz + ayw * bxw + ayz * bxz - azw * bp - ap * bzw + aa * bxy), (axw * ba + axy * byw + axz * bzw - ayw * bxy - ayz * bp - azw * bxz - ap * byz + aa * bxw), (axw * bxy - axy * bxw + axz * bp + ayw * ba + ayz * bzw - azw * byz + ap * bxz + aa * byw), (axw * bxz - axy * bp - axz * bxw + ayw * byz - ayz * byw + azw * ba - ap * bxy + aa * bzw), (axw * byz + axy * bzw - axz * byw - ayw * bxz + ayz * bxw + azw * bxy + ap * ba + aa * bp), ca, cyz, cxz, cxy, cxw, cyw, czw, cp)
         == ProductScalar(aa, ayz, axz, axy, axw, ayw, azw, ap, (-bxw * cxw - bxy * cxy - bxz * cxz - byw * cyw - byz * cyz - bzw * czw + bp * cp + ba * ca), (-bxw * cp - bxy * cxz + bxz * cxy - byw * czw + byz * ca + bzw * cyw - bp * cxw + ba * cyz), (-bxw * czw + bxy * cyz + bxz * ca + byw * cp - byz * cxy + bzw * cxw + bp * cyw + ba * cxz), (-bxw * cyw + bxy * ca - bxz * cyz + byw * cxw + byz * cxz - bzw * cp - bp * czw + ba * cxy), (bxw * ca + bxy * cyw + bxz * czw - byw * cxy - byz * cp - bzw * cxz - bp * cyz + ba * cxw), (bxw * cxy - bxy * cxw + bxz * cp + byw * ca + byz * czw - bzw * cyz + bp * cxz + ba * cyw), (bxw * cxz - bxy * cp - bxz * cxw + byw * cyz - byz * cyw + bzw * ca - bp * cxy + ba * czw), (bxw * cyz + bxy * czw - bxz * cyw - byw * cxz + byz * cxw + bzw * cxy + bp * ca + ba * cp))
  {
    AssociativeScalarTerms(aa, ayz, axz, axy, axw, ayw, azw, ap, ba, byz, bxz, bxy, bxw, byw, bzw, bp, ca, cyz, cxz, cxy, cxw, cyw, czw, cp);
  }

  /** The scalar component as one polynomial on each side. */
  lemma AssociativeScalarTerms(
    aa: real, ayz: real, axz: real, axy: real, axw: real, ayw: real, azw: real, ap: real,
    ba: real, byz: real, bxz: real, bxy: real, bxw: real, byw: real, bzw: real, bp: real,
    ca: real, cyz: real, cxz: real, cxy: real, cxw: real, cyw: real, czw: real, cp: real)
    ensures -(axw * ba + axy * byw + axz * bzw - ayw * bxy - ayz * bp - azw * bxz - ap * byz + aa * bxw) * cxw - (-axw * byw + axy * ba - axz * byz + ayw * bxw + ayz * bxz - azw * bp - ap * bzw + aa * bxy) * cxy - (-axw * bzw + axy * byz + axz * ba + ayw * bp - ayz * bxy + azw * bxw + ap * byw + aa * bxz) * cxz - (axw * bxy - axy * bxw + axz * bp + ayw * ba + ayz * bzw - azw * byz + ap * bxz + aa * byw) * cyw - (-axw * bp - axy * bxz + axz * bxy - ayw * bzw + ayz * ba + azw * byw - ap * bxw + aa * byz) * cyz - (axw * bxz - axy * bp - axz * bxw + ayw * byz - ayz * byw + azw * ba - ap * bxy + aa * bzw) * czw + (axw * byz + axy * bzw - axz * byw - ayw * bxz + ayz * bxw + azw * bxy + ap * ba + aa * bp) * cp + (-axw * bxw - axy * bxy - axz * bxz - ayw * byw - ayz * byz - azw * bzw + ap * bp + aa * ba) * ca
         == -axw * (bxw * ca + bxy * cyw + bxz * czw - byw * cxy - byz * cp - bzw * cxz - bp * cyz + ba * cxw) - axy * (-bxw * cyw + bxy * ca - bxz * cyz + byw * cxw + byz * cxz - bzw * cp - bp * czw + ba * cxy) - axz * (-bxw * czw + bxy * cyz + bxz * ca + byw * cp - byz * cxy + bzw * cxw + bp * cyw + ba * cxz) - ayw * (bxw * cxy - bxy * cxw + bxz * cp + byw * ca + byz * czw - bzw * cyz + bp * cxz + ba * cyw) - ayz * (-bxw * cp - bxy * cxz + bxz * cxy - byw * czw + byz * ca + bzw * cyw - bp * cxw + ba * cyz) - azw * (bxw * cxz - bxy * cp - bxz * cxw + byw * cyz - byz * cyw + bzw * ca - bp * cxy + ba * czw) + ap * (bxw * cyz + bxy * czw - bxz * cyw - byw * cxz + byz * cxw + bzw * cxy + bp * ca + ba * cp) + aa * (-bxw * cxw - bxy * cxy - bxz * cxz - byw * cyw - byz * cyz - bzw * czw + bp * cp + ba * ca)
  {
  }

  /** The yz component of `(ab)c` and of `a(bc)`. */
  lemma AssociativeYz(
    aa: real, ayz: real, axz: real, axy: real, axw: real, ayw: real, azw: real, ap: real,
    ba: real, byz: real, bxz: real, bxy: real, bxw: real, byw: real, bzw: real, bp: real,
    ca: real, cyz: real, cxz: real, cxy: real, cxw: real, cyw: real, czw: real, cp: real)
    ensures
      var da, dyz, dxz, dxy, dxw, dyw, dzw, dp := ProductScalar(aa, ayz, axz, axy, axw, ayw, azw, ap, ba, byz, bxz, bxy, bxw, byw, bzw, bp), ProductYz(aa, ayz, axz, axy, axw, ayw, azw, ap, ba, byz, bxz, bxy, bxw, byw, bzw, bp), ProductXz(aa, ayz, axz, axy, axw, ayw, azw, ap, ba, byz, bxz, bxy, bxw, byw, bzw, bp), ProductXy(aa, ayz, axz, axy, axw, ayw, azw, ap, ba, byz, bxz, bxy, bxw, byw, bzw, bp), ProductXw(aa, ayz, axz, axy, axw, ayw, azw, ap, ba, byz, bxz, bxy, bxw, byw, bzw, bp), ProductYw(aa, ayz, axz, axy, axw, ayw, azw, ap, ba, byz, bxz, bxy, bxw, byw, bzw, bp), ProductZw(aa, ayz, axz, axy, axw, ayw, azw, ap, ba, byz, bxz, bxy, bxw, byw, bzw, bp), ProductP(aa, ayz, axz, axy, axw, ayw, azw, ap, ba, byz, bxz, bxy, bxw, byw, bzw, bp);
      var fa, fyz, fxz, fxy, fxw, fyw, fzw, fp := ProductScalar(ba, byz, bxz, bxy, bxw, byw, bzw, bp, ca, cyz, cxz, cxy, cxw, cyw, czw, cp), ProductYz(ba, byz, bxz, bxy, bxw, byw, bzw, bp, ca, cyz, cxz, cxy, cxw, cyw, czw, cp), ProductXz(ba, byz, bxz, bxy, bxw, byw, bzw, bp, ca, cyz, cxz, cxy, cxw, cyw, czw, cp), ProductXy(ba, byz, bxz, bxy, bxw, byw, bzw, bp, ca, cyz, cxz, cxy, cxw, cyw, czw, cp), ProductXw(ba, byz, bxz, bxy, bxw, byw, bzw, bp, ca, cyz, cxz, cxy, cxw, cyw, czw, cp), ProductYw(ba, byz, bxz, bxy, bxw, byw, bzw, bp, ca, cyz, cxz, cxy, cxw, cyw, czw, cp), ProductZw(ba, byz, bxz, bxy, bxw, byw, bzw, bp, ca, cyz, cxz, cxy, cxw, cyw, czw, cp), ProductP(ba, byz, bxz, bxy, bxw, byw, bzw, bp, ca, cyz, cxz, cxy, cxw, cyw, czw, cp);
      ProductYz(da, dyz, dxz, dxy, dxw, dyw, dzw, dp, ca, cyz, cxz, cxy, cxw, cyw, czw, cp) == ProductYz(aa, ayz, axz, axy, axw, ayw, azw, ap, fa, fyz, fxz, fxy, fxw, fyw, fzw, fp)
  {
    AssociativeYzApplied(aa, ayz, axz, axy, axw, ayw, azw, ap, ba, byz, bxz, bxy, bxw, byw, bzw, bp, ca, cyz, cxz, cxy, cxw, cyw, czw, cp);
  }

  /** The yz component, the inner products written out as arguments. */
  lemma AssociativeYzApplied(
    aa: real, ayz: real, axz: real, axy: real, axw: real, ayw: real, azw: real, ap: real,
    ba: real, byz: real, bxz: real, bxy: real, bxw: real, byw: real, bzw: real, bp: real,
    ca: real, cyz: real, cxz: real, cxy: real, cxw: real, cyw: real, czw: real, cp: real)
    ensures ProductYz((-axw * bxw - axy * bxy - axz * bxz - ayw * byw - ayz * byz - azw * bzw + ap * bp + aa * ba), (-axw * bp - axy * bxz + axz * bxy - ayw * bzw + ayz * ba + azw * byw - ap * bxw + aa * byz), (-axw * bzw + axy * byz + axz * ba + ayw * bp - ayz * bxy + azw * bxw + ap * byw + aa * bxz), (-axw * byw + axy * ba - axz * byz + ayw * bxw + ayz * bxz - azw * bp - ap * bzw + aa * bxy), (axw * ba + axy * byw + axz * bzw - ayw * bxy - ayz * bp - azw * bxz - ap * byz + aa * bxw), (axw * bxy - axy * bxw + axz * bp + ayw * ba + ayz * bzw - azw * byz + ap * bxz + aa * byw), (axw * bxz - axy * bp - axz * bxw + ayw * byz - ayz * byw + azw * ba - ap * bxy + aa * bzw), (axw * byz + axy * bzw - axz * byw - ayw * bxz + ayz * bxw + azw * bxy + ap * ba + aa * bp), ca, cyz, cxz, cxy, cxw, cyw, czw, cp)
         == ProductYz(aa, ayz, axz, axy, axw, ayw, azw, ap, (-bxw * cxw - bxy * cxy - bxz * cxz - byw * cyw - byz * cyz - bzw * czw + bp * cp + ba * ca), (-bxw * cp - bxy * cxz + bxz * cxy - byw * czw + byz * ca + bzw * cyw - bp * cxw + ba * cyz), (-bxw * czw + bxy * cyz + bxz * ca + byw * cp - byz * cxy + bzw * cxw + bp * cyw + ba * cxz), (-bxw * cyw + bxy * ca - bxz * cyz + byw * cxw + byz * cxz - bzw * cp - bp * czw + ba * cxy), (bxw * ca + bxy * cyw + bxz * czw - byw * cxy - byz * cp - bzw * cxz - bp * cyz + ba * cxw), (bxw * cxy - bxy * cxw + bxz * cp + byw * ca + byz * czw - bzw * cyz + bp * cxz + ba * cyw), (bxw * cxz - bxy * cp - bxz * cxw + byw * cyz - byz * cyw + bzw * ca - bp * cxy + ba * czw), (bxw * cyz + bxy * czw - bxz * cyw - byw * cxz + byz * cxw + bzw * cxy + bp * ca + ba * cp))
  {
    AssociativeYzTerms(aa, ayz, axz, axy, axw, ayw, azw, ap, ba, byz, bxz, bxy, bxw, byw, bzw, bp, ca, cyz, cxz, cxy, cxw, cyw, czw, cp);
  }

  /** The yz component as one polynomial on each side. */
  lemma AssociativeYzTerms(
    aa: real, ayz: real, axz: real, axy: real, axw: real, ayw: real, azw: real, ap: real,
    ba: real, byz: real, bxz: real, bxy: real, bxw: real, byw: real, bzw: real, bp: real,
    ca: real, cyz: real, cxz: real, cxy: real, cxw: real, cyw: real, czw: real, cp: real)
    ensures -(axw * ba + axy * byw + axz * bzw - ayw * bxy - ayz * bp - azw * bxz - ap * byz + aa * bxw) * cp - (-axw * byw + axy * ba - axz * byz + ayw * bxw + ayz * bxz - azw * bp - ap * bzw + aa * bxy) * cxz + (-axw * bzw + axy * byz + axz * ba + ayw * bp - ayz * bxy + azw * bxw + ap * byw + aa * bxz) * cxy - (axw * bxy - axy * bxw + axz * bp + ayw * ba + ayz * bzw - azw * byz + ap * bxz + aa * byw) * czw + (-axw * bp - axy * bxz + axz * bxy - ayw * bzw + ayz * ba + azw * byw - ap * bxw + aa * byz) * ca + (axw * bxz - axy * bp - axz * bxw + ayw * byz - ayz * byw + azw * ba - ap * bxy + aa * bzw) * cyw - (axw * byz + axy * bzw - axz * byw - ayw * bxz + ayz * bxw + azw * bxy + ap * ba + aa * bp) * cxw + (-axw * bxw - axy * bxy - axz * bxz - ayw * byw - ayz * byz - azw * bzw + ap * bp + aa * ba) * cyz
         == -axw * (bxw * cyz + bxy * czw - bxz * cyw - byw * cxz + byz * cxw + bzw * cxy + bp * ca + ba * cp) - axy * (-bxw * czw + bxy * cyz + bxz * ca + byw * cp - byz * cxy + bzw * cxw + bp * cyw + ba * cxz) + axz * (-bxw * cyw + bxy * ca - bxz * cyz + byw * cxw + byz * cxz - bzw * cp - bp * czw + ba * cxy) - ayw * (bxw * cxz - bxy * cp - bxz * cxw + byw * cyz - byz * cyw + bzw * ca - bp * cxy + ba * czw) + ayz * (-bxw * cxw - bxy * cxy - bxz * cxz - byw * cyw - byz * cyz - bzw * czw + bp * cp + ba * ca) + azw * (bxw * cxy - bxy * cxw + bxz * cp + byw * ca + byz * czw - bzw * cyz + bp * cxz + ba * cyw) - ap * (bxw * ca + bxy * cyw + bxz * czw - byw * cxy - byz * cp - bzw * cxz - bp * cyz + ba * cxw) + aa * (-bxw * cp - bxy * cxz + bxz * cxy - byw * czw + byz * ca + bzw * cyw - bp * cxw + ba * cyz)
  {
  }

  /** The xz component of `(ab)c` and of `a(bc)`. */
  lemma AssociativeXz(
    aa: real, ayz: real, axz: real, axy: real, axw: real, ayw: real, azw: real, ap: real,
    ba: real, byz: real, bxz: real, bxy: real, bxw: real, byw: real, bzw: real, bp: real,
    ca: real, cyz: real, cxz: real, cxy: real, cxw: real, cyw: real, czw: real, cp: real)
    ensures
      var da, dyz, dxz, dxy, dxw, dyw, dzw, dp := ProductScalar(aa, ayz, axz, axy, axw, ayw, azw, ap, ba, byz, bxz, bxy, bxw, byw, bzw, bp), ProductYz(aa, ayz, axz, axy, axw, ayw, azw, ap, ba, byz, bxz, bxy, bxw, byw, bzw, bp), ProductXz(aa, ayz, axz, axy, axw, ayw, azw, ap, ba, byz, bxz, bxy, bxw, byw, bzw, bp), ProductXy(aa, ayz, axz, axy, axw, ayw, azw, ap, ba, byz, bxz, bxy, bxw, byw, bzw, bp), ProductXw(aa, ayz, axz, axy, axw, ayw, azw, ap, ba, byz, bxz, bxy, bxw, byw, bzw, bp), ProductYw(aa, ayz, axz, axy, axw, ayw, azw, ap, ba, byz, bxz, bxy, bxw, byw, bzw, bp), ProductZw(aa, ayz, axz, axy, axw, ayw, azw, ap, ba, byz, bxz, bxy, bxw, byw, bzw, bp), ProductP(aa, ayz, axz, axy, axw, ayw, azw, ap, ba, byz, bxz, bxy, bxw, byw, bzw, bp);
      var fa, fyz, fxz, fxy, fxw, fyw, fzw, fp := ProductScalar(ba, byz, bxz, bxy, bxw, byw, bzw, bp, ca, cyz, cxz, cxy, cxw, cyw, czw, cp), ProductYz(ba, byz, bxz, bxy, bxw, byw, bzw, bp, ca, cyz, cxz, cxy, cxw, cyw, czw, cp), ProductXz(ba, byz, bxz, bxy, bxw, byw, bzw, bp, ca, cyz, cxz, cxy, cxw, cyw, czw, cp), ProductXy(ba, byz, bxz, bxy, bxw, byw, bzw, bp, ca, cyz, cxz, cxy, cxw, cyw, czw, cp), ProductXw(ba, byz, bxz, bxy, bxw, byw, bzw, bp, ca, cyz, cxz, cxy, cxw, cyw, czw, cp), ProductYw(ba, byz, bxz, bxy, bxw, byw, bzw, bp, ca, cyz, cxz, cxy, cxw, cyw, czw, cp), ProductZw(ba, byz, bxz, bxy, bxw, byw, bzw, bp, ca, cyz, cxz, cxy, cxw, cyw, czw, cp), ProductP(ba, byz, bxz, bxy, bxw, byw, bzw, bp, ca, cyz, cxz, cxy, cxw, cyw, czw, cp);
      ProductXz(da, dyz, dxz, dxy, dxw, dyw, dzw, dp, ca, cyz, cxz, cxy, cxw, cyw, czw, cp) == ProductXz(aa, ayz, axz, axy, axw, ayw, azw, ap, fa, fyz, fxz, fxy, fxw, fyw, fzw, fp)
  {
    AssociativeXzApplied(aa, ayz, axz, axy, axw, ayw, azw, ap, ba, byz, bxz, bxy, bxw, byw, bzw, bp, ca, cyz, cxz, cxy, cxw, cyw, czw, cp);
  }

  /** The xz component, the inner products written out as arguments. */
  lemma AssociativeXzApplied(
    aa: real, ayz: real, axz: real, axy: real, axw: real, ayw: real, azw: real, ap: real,
    ba: real, byz: real, bxz: real, bxy: real, bxw: real, byw: real, bzw: real, bp: real,
    ca: real, cyz: real, cxz: real, cxy: real, cxw: real, cyw: real, czw: real, cp: real)
    ensures ProductXz((-axw * bxw - axy * bxy - axz * bxz - ayw * byw - ayz * byz - azw * bzw + ap * bp + aa * ba), (-axw * bp - axy * bxz + axz * bxy - ayw * bzw + ayz * ba + azw * byw - ap * bxw + aa * byz), (-axw * bzw + axy * byz + axz * ba + ayw * bp - ayz * bxy + azw * bxw + ap * byw + aa * bxz), (-axw * byw + axy * ba - axz * byz + ayw * bxw + ayz * bxz - azw * bp - ap * bzw + aa * bxy), (axw * ba + axy * byw + axz * bzw - ayw * bxy - ayz * bp - azw * bxz - ap * byz + aa * bxw), (axw * bxy - axy * bxw + axz * bp + ayw * ba + ayz * bzw - azw * byz + ap * bxz + aa * byw), (axw * bxz - axy * bp - axz * bxw + ayw * byz - ayz * byw + azw * ba - ap * bxy + aa * bzw), (axw * byz + axy * bzw - axz * byw - ayw * bxz + ayz * bxw + azw * bxy + ap * ba + aa * bp), ca, cyz, cxz, cxy, cxw, cyw, czw, cp)
         == ProductXz(aa, ayz, axz, axy, axw, ayw, azw, ap, (-bxw * cxw - bxy * cxy - bxz * cxz - byw * cyw - byz * cyz - bzw * czw + bp * cp + ba * ca), (-bxw * cp - bxy * cxz + bxz * cxy - byw * czw + byz * ca + bzw * cyw - bp * cxw + ba * cyz), (-bxw * czw + bxy * cyz + bxz * ca + byw * cp - byz * cxy + bzw * cxw + bp * cyw + ba * cxz), (-bxw * cyw + bxy * ca - bxz * cyz + byw * cxw + byz * cxz - bzw * cp - bp * czw + ba * cxy), (bxw * ca + bxy * cyw + bxz * czw - byw * cxy - byz * cp - bzw * cxz - bp * cyz + ba * cxw), (bxw * cxy - bxy * cxw + bxz * cp + byw * ca + byz * czw - bzw * cyz + bp * cxz + ba * cyw), (bxw * cxz - bxy * cp - bxz * cxw + byw * cyz - byz * cyw + bzw * ca - bp * cxy + ba * czw), (bxw * cyz + bxy * czw - bxz * cyw - byw * cxz + byz * cxw + bzw * cxy + bp * ca + ba * cp))
  {
    AssociativeXzTerms(aa, ayz, axz, axy, axw, ayw, azw, ap, ba, byz, bxz, bxy, bxw, byw, bzw, bp, ca, cyz, cxz, cxy, cxw, cyw, czw, cp);
  }

  /** The xz component as one polynomial on each side. */
  lemma AssociativeXzTerms(
    aa: real, ayz: real, axz: real, axy: real, axw: real, ayw: real, azw: real, ap: real,
    ba: real, byz: real, bxz: real, bxy: real, bxw: real, byw: real, bzw: real, bp: real,
    ca: real, cyz: real, cxz: real, cxy: real, cxw: real, cyw: real, czw: real, cp: real)
    ensures -(axw * ba + axy * byw + axz * bzw - ayw * bxy - ayz * bp - azw * bxz - ap * byz + aa * bxw) * czw + (-axw * byw + axy * ba - axz * byz + ayw * bxw + ayz * bxz - azw * bp - ap * bzw + aa * bxy) * cyz + (-axw * bzw + axy * byz + axz * ba + ayw * bp - ayz * bxy + azw * bxw + ap * byw + aa * bxz) * ca + (axw * bxy - axy * bxw + axz * bp + ayw * ba + ayz * bzw - azw * byz + ap * bxz + aa * byw) * cp - (-axw * bp - axy * bxz + axz * bxy - ayw * bzw + ayz * ba + azw * byw - ap * bxw + aa * byz) * cxy + (axw * bxz - axy * bp - axz * bxw + ayw * byz - ayz * byw + azw * ba - ap * bxy + aa * bzw) * cxw + (axw * byz + axy * bzw - axz * byw - ayw * bxz + ayz * bxw + azw * bxy + ap * ba + aa * bp) * cyw + (-axw * bxw - axy * bxy - axz * bxz - ayw * byw - ayz * byz - azw * bzw + ap * bp + aa * ba) * cxz
         == -axw * (bxw * cxz - bxy * cp - bxz * cxw + byw * cyz - byz * cyw + bzw * ca - bp * cxy + ba * czw) + axy * (-bxw * cp - bxy * cxz + bxz * cxy - byw * czw + byz * ca + bzw * cyw - bp * cxw + ba * cyz) + axz * (-bxw * cxw - bxy * cxy - bxz * cxz - byw * cyw - byz * cyz - bzw * czw + bp * cp + ba * ca) + ayw * (bxw * cyz + bxy * czw - bxz * cyw - byw * cxz + byz * cxw + bzw * cxy + bp * ca + ba * cp) - ayz * (-bxw * cyw + bxy * ca - bxz * cyz + byw * cxw + byz * cxz - bzw * cp - bp * czw + ba * cxy) + azw * (bxw * ca + bxy * cyw + bxz * czw - byw * cxy - byz * cp - bzw * cxz - bp * cyz + ba * cxw) + ap * (bxw * cxy - bxy * cxw + bxz * cp + byw * ca + byz * czw - bzw * cyz + bp * cxz + ba * cyw) + aa * (-bxw * czw + bxy * cyz + bxz * ca + byw * cp - byz * cxy + bzw * cxw + bp * cyw + ba * cxz)
  {
  }

  /** The xy component of `(ab)c` and of `a(bc)`. */
  lemma AssociativeXy(
    aa: real, ayz: real, axz: real, axy: real, axw: real, ayw: real, azw: real, ap: real,
    ba: real, byz: real, bxz: real, bxy: real, bxw: real, byw: real, bzw: real, bp: real,
    ca: real, cyz: real, cxz: real, cxy: real, cxw: real, cyw: real, czw: real, cp: real)
    ensures
      var da, dyz, dxz, dxy, dxw, dyw, dzw, dp := ProductScalar(aa, ayz, axz, axy, axw, ayw, azw, ap, ba, byz, bxz, bxy, bxw, byw, bzw, bp), ProductYz(aa, ayz, axz, axy, axw, ayw, azw, ap, ba, byz, bxz, bxy, bxw, byw, bzw, bp), ProductXz(aa, ayz, axz, axy, axw, ayw, azw, ap, ba, byz, bxz, bxy, bxw, byw, bzw, bp), ProductXy(aa, ayz, axz, axy, axw, ayw, azw, ap, ba, byz, bxz, bxy, bxw, byw, bzw, bp), ProductXw(aa, ayz, axz, axy, axw, ayw, azw, ap, ba, byz, bxz, bxy, bxw, byw, bzw, bp), ProductYw(aa, ayz, axz, axy, axw, ayw, azw, ap, ba, byz, bxz, bxy, bxw, byw, bzw, bp), ProductZw(aa, ayz, axz, axy, axw, ayw, azw, ap, ba, byz, bxz, bxy, bxw, byw, bzw, bp), ProductP(aa, ayz, axz, axy, axw, ayw, azw, ap, ba, byz, bxz, bxy, bxw, byw, bzw, bp);
      var fa, fyz, fxz, fxy, fxw, fyw, fzw, fp := ProductScalar(ba, byz, bxz, bxy, bxw, byw, bzw, bp, ca, cyz, cxz, cxy, cxw, cyw, czw, cp), ProductYz(ba, byz, bxz, bxy, bxw, byw, bzw, bp, ca, cyz, cxz, cxy, cxw, cyw, czw, cp), ProductXz(ba, byz, bxz, bxy, bxw, byw, bzw, bp, ca, cyz, cxz, cxy, cxw, cyw, czw, cp), ProductXy(ba, byz, bxz, bxy, bxw, byw, bzw, bp, ca, cyz, cxz, cxy, cxw, cyw, czw, cp), ProductXw(ba, byz, bxz, bxy, bxw, byw, bzw, bp, ca, cyz, cxz, cxy, cxw, cyw, czw, cp), ProductYw(ba, byz, bxz, bxy, bxw, byw, bzw, bp, ca, cyz, cxz, cxy, cxw, cyw, czw, cp), ProductZw(ba, byz, bxz, bxy, bxw, byw, bzw, bp, ca, cyz, cxz, cxy, cxw, cyw, czw, cp), ProductP(ba, byz, bxz, bxy, bxw, byw, bzw, bp, ca, cyz, cxz, cxy, cxw, cyw, czw, cp);
      ProductXy(da, dyz, dxz, dxy, dxw, dyw, dzw, dp, ca, cyz, cxz, cxy, cxw, cyw, czw, cp) == ProductXy(aa, ayz, axz, axy, axw, ayw, azw, ap, fa, fyz, fxz, fxy, fxw, fyw, fzw, fp)
  {
    AssociativeXyApplied(aa, ayz, axz, axy, axw, ayw, azw, ap, ba, byz, bxz, bxy, bxw, byw, bzw, bp, ca, cyz, cxz, cxy, cxw, cyw, czw, cp);
  }

  /** The xy component, the inner products written out as arguments. */
  lemma AssociativeXyApplied(
    aa: real, ayz: real, axz: real, axy: real, axw: real, ayw: real, azw: real, ap: real,
    ba: real, byz: real, bxz: real, bxy: real, bxw: real, byw: real, bzw: real, bp: real,
    ca: real, cyz: real, cxz: real, cxy: real, cxw: real, cyw: real, czw: real, cp: real)
    ensures ProductXy((-axw * bxw - axy * bxy - axz * bxz - ayw * byw - ayz * byz - azw * bzw + ap * bp + aa * ba), (-axw * bp - axy * bxz + axz * bxy - ayw * bzw + ayz * ba + azw * byw - ap * bxw + aa * byz), (-axw * bzw + axy * byz + axz * ba + ayw * bp - ayz * bxy + azw * bxw + ap * byw + aa * bxz), (-axw * byw + axy * ba - axz * byz + ayw * bxw + ayz * bxz - azw * bp - ap * bzw + aa * bxy), (axw * ba + axy * byw + axz * bzw - ayw * bxy - ayz * bp - azw * bxz - ap * byz + aa * bxw), (axw * bxy - axy * bxw + axz * bp + ayw * ba + ayz * bzw - azw * byz + ap * bxz + aa * byw), (axw * bxz - axy * bp - axz * bxw + ayw * byz - ayz * byw + azw * ba - ap * bxy + aa * bzw), (axw * byz + axy * bzw - axz * byw - ayw * bxz + ayz * bxw + azw * bxy + ap * ba + aa * bp), ca, cyz, cxz, cxy, cxw, cyw, czw, cp)
         == ProductXy(aa, ayz, axz, axy, axw, ayw, azw, ap, (-bxw * cxw - bxy * cxy - bxz * cxz - byw * cyw - byz * cyz - bzw * czw + bp * cp + ba * ca), (-bxw * cp - bxy * cxz + bxz * cxy - byw * czw + byz * ca + bzw * cyw - bp * cxw + ba * cyz), (-bxw * czw + bxy * cyz + bxz * ca + byw * cp - byz * cxy + bzw * cxw + bp * cyw + ba * cxz), (-bxw * cyw + bxy * ca - bxz * cyz + byw * cxw + byz * cxz - bzw * cp - bp * czw + ba * cxy), (bxw * ca + bxy * cyw + bxz * czw - byw * cxy - byz * cp - bzw * cxz - bp * cyz + ba * cxw), (bxw * cxy - bxy * cxw + bxz * cp + byw * ca + byz * czw - bzw * cyz + bp * cxz + ba * cyw), (bxw * cxz - bxy * cp - bxz * cxw + byw * cyz - byz * cyw + bzw * ca - bp * cxy + ba * czw), (bxw * cyz + bxy * czw - bxz * cyw - byw * cxz + byz * cxw + bzw * cxy + bp * ca + ba * cp))
  {
    AssociativeXyTerms(aa, ayz, axz, axy, axw, ayw, azw, ap, ba, byz, bxz, bxy, bxw, byw, bzw, bp, ca, cyz, cxz, cxy, cxw, cyw, czw, cp);
  }

  /** The xy component as one polynomial on each side. */
  lemma AssociativeXyTerms(
    aa: real, ayz: real, axz: real, axy: real, axw: real, ayw: real, azw: real, ap: real,
    ba: real, byz: real, bxz: real, bxy: real, bxw: real, byw: real, bzw: real, bp: real,
    ca: real, cyz: real, cxz: real, cxy: real, cxw: real, cyw: real, czw: real, cp: real)
    ensures -(axw * ba + axy * byw + axz * bzw - ayw * bxy - ayz * bp - azw * bxz - ap * byz + aa * bxw) * cyw + (-axw * byw + axy * ba - axz * byz + ayw * bxw + ayz * bxz - azw * bp - ap * bzw + aa * bxy) * ca - (-axw * bzw + axy * byz + axz * ba + ayw * bp - ayz * bxy + azw * bxw + ap * byw + aa * bxz) * cyz + (axw * bxy - axy * bxw + axz * bp + ayw * ba + ayz * bzw - azw * byz + ap * bxz + aa * byw) * cxw + (-axw * bp - axy * bxz + axz * bxy - ayw * bzw + ayz * ba + azw * byw - ap * bxw + aa * byz) * cxz - (axw * bxz - axy * bp - axz * bxw + ayw * byz - ayz * byw + azw * ba - ap * bxy + aa * bzw) * cp - (axw * byz + axy * bzw - axz * byw - ayw * bxz + ayz * bxw + azw * bxy + ap * ba + aa * bp) * czw + (-axw * bxw - axy * bxy - axz * bxz - ayw * byw - ayz * byz - azw * bzw + ap * bp + aa * ba) * cxy
         == -axw * (bxw * cxy - bxy * cxw + bxz * cp + byw * ca + byz * czw - bzw * cyz + bp * cxz + ba * cyw) + axy * (-bxw * cxw - bxy * cxy - bxz * cxz - byw * cyw - byz * cyz - bzw * czw + bp * cp + ba * ca) - axz * (-bxw * cp - bxy * cxz + bxz * cxy - byw * czw + byz * ca + bzw * cyw - bp * cxw + ba * cyz) + ayw * (bxw * ca + bxy * cyw + bxz * czw - byw * cxy - byz * cp - bzw * cxz - bp * cyz + ba * cxw) + ayz * (-bxw * czw + bxy * cyz + bxz * ca + byw * cp - byz * cxy + bzw * cxw + bp * cyw + ba * cxz) - azw * (bxw * cyz + bxy * czw - bxz * cyw - byw * cxz + byz * cxw + bzw * cxy + bp * ca + ba * cp) - ap * (bxw * cxz - bxy * cp - bxz * cxw + byw * cyz - byz * cyw + bzw * ca - bp * cxy + ba * czw) + aa * (-bxw * cyw + bxy * ca - bxz * cyz + byw * cxw + byz * cxz - bzw * cp - bp * czw + ba * cxy)
  {
  }

  /** The xw component of `(ab)c` and of `a(bc)`. */
  lemma AssociativeXw(
    aa: real, ayz: real, axz: real, axy: real, axw: real, ayw: real, azw: real, ap: real,
    ba: real, byz: real, bxz: real, bxy: real, bxw: real, byw: real, bzw: real, bp: real,
    ca: real, cyz: real, cxz: real, cxy: real, cxw: real, cyw: real, czw: real, cp: real)
    ensures
      var da, dyz, dxz, dxy, dxw, dyw, dzw, dp := ProductScalar(aa, ayz, axz, axy, axw, ayw, azw, ap, ba, byz, bxz, bxy, bxw, byw, bzw, bp), ProductYz(aa, ayz, axz, axy, axw, ayw, azw, ap, ba, byz, bxz, bxy, bxw, byw, bzw, bp), ProductXz(aa, ayz, axz, axy, axw, ayw, azw, ap, ba, byz, bxz, bxy, bxw, byw, bzw, bp), ProductXy(aa, ayz, axz, axy, axw, ayw, azw, ap, ba, byz, bxz, bxy, bxw, byw, bzw, bp), ProductXw(aa, ayz, axz, axy, axw, ayw, azw, ap, ba, byz, bxz, bxy, bxw, byw, bzw, bp), ProductYw(aa, ayz, axz, axy, axw, ayw, azw, ap, ba, byz, bxz, bxy, bxw, byw, bzw, bp), ProductZw(aa, ayz, axz, axy, axw, ayw, azw, ap, ba, byz, bxz, bxy, bxw, byw, bzw, bp), ProductP(aa, ayz, axz, axy, axw, ayw, azw, ap, ba, byz, bxz, bxy, bxw, byw, bzw, bp);
      var fa, fyz, fxz, fxy, fxw, fyw, fzw, fp := ProductScalar(ba, byz, bxz, bxy, bxw, byw, bzw, bp, ca, cyz, cxz, cxy, cxw, cyw, czw, cp), ProductYz(ba, byz, bxz, bxy, bxw, byw, bzw, bp, ca, cyz, cxz, cxy, cxw, cyw, czw, cp), ProductXz(ba, byz, bxz, bxy, bxw, byw, bzw, bp, ca, cyz, cxz, cxy, cxw, cyw, czw, cp), ProductXy(ba, byz, bxz, bxy, bxw, byw, bzw, bp, ca, cyz, cxz, cxy, cxw, cyw, czw, cp), ProductXw(ba, byz, bxz, bxy, bxw, byw, bzw, bp, ca, cyz, cxz, cxy, cxw, cyw, czw, cp), ProductYw(ba, byz, bxz, bxy, bxw, byw, bzw, bp, ca, cyz, cxz, cxy, cxw, cyw, czw, cp), ProductZw(ba, byz, bxz, bxy, bxw, byw, bzw, bp, ca, cyz, cxz, cxy, cxw, cyw, czw, cp), ProductP(ba, byz, bxz, bxy, bxw, byw, bzw, bp, ca, cyz, cxz, cxy, cxw, cyw, czw, cp);
      ProductXw(da, dyz, dxz, dxy, dxw, dyw, dzw, dp, ca, cyz, cxz, cxy, cxw, cyw, czw, cp) == ProductXw(aa, ayz, axz, axy, axw, ayw, azw, ap, fa, fyz, fxz, fxy, fxw, fyw, fzw, fp)
  {
    AssociativeXwApplied(aa, ayz, axz, axy, axw, ayw, azw, ap, ba, byz, bxz, bxy, bxw, byw, bzw, bp, ca, cyz, cxz, cxy, cxw, cyw, czw, cp);
  }

  /** The xw component, the inner products written out as arguments. */
  lemma AssociativeXwApplied(
    aa: real, ayz: real, axz: real, axy: real, axw: real, ayw: real, azw: real, ap: real,
    ba: real, byz: real, bxz: real, bxy: real, bxw: real, byw: real, bzw: real, bp: real,
    ca: real, cyz: real, cxz: real, cxy: real, cxw: real, cyw: real, czw: real, cp: real)
    ensures ProductXw((-axw * bxw - axy * bxy - axz * bxz - ayw * byw - ayz * byz - azw * bzw + ap * bp + aa * ba), (-axw * bp - axy * bxz + axz * bxy - ayw * bzw + ayz * ba + azw * byw - ap * bxw + aa * byz), (-axw * bzw + axy * byz + axz * ba + ayw * bp - ayz * bxy + azw * bxw + ap * byw + aa * bxz), (-axw * byw + axy * ba - axz * byz + ayw * bxw + ayz * bxz - azw * bp - ap * bzw + aa * bxy), (axw * ba + axy * byw + axz * bzw - ayw * bxy - ayz * bp - azw * bxz - ap * byz + aa * bxw), (axw * bxy - axy * bxw + axz * bp + ayw * ba + ayz * bzw - azw * byz + ap * bxz + aa * byw), (axw * bxz - axy * bp - axz * bxw + ayw * byz - ayz * byw + azw * ba - ap * bxy + aa * bzw), (axw * byz + axy * bzw - axz * byw - ayw * bxz + ayz * bxw + azw * bxy + ap * ba + aa * bp), ca, cyz, cxz, cxy, cxw, cyw, czw, cp)
         == ProductXw(aa, ayz, axz, axy, axw, ayw, azw, ap, (-bxw * cxw - bxy * cxy - bxz * cxz - byw * cyw - byz * cyz - bzw * czw + bp * cp + ba * ca), (-bxw * cp - bxy * cxz + bxz * cxy - byw * czw + byz * ca + bzw * cyw - bp * cxw + ba * cyz), (-bxw * czw + bxy * cyz + bxz * ca + byw * cp - byz * cxy + bzw * cxw + bp * cyw + ba * cxz), (-bxw * cyw + bxy * ca - bxz * cyz + byw * cxw + byz * cxz - bzw * cp - bp * czw + ba * cxy), (bxw * ca + bxy * cyw + bxz * czw - byw * cxy - byz * cp - bzw * cxz - bp * cyz + ba * cxw), (bxw * cxy - bxy * cxw + bxz * cp + byw * ca + byz * czw - bzw * cyz + bp * cxz + ba * cyw), (bxw * cxz - bxy * cp - bxz * cxw + byw * cyz - byz * cyw + bzw * ca - bp * cxy + ba * czw), (bxw * cyz + bxy * czw - bxz * cyw - byw * cxz + byz * cxw + bzw * cxy + bp * ca + ba * cp))
  {
    AssociativeXwTerms(aa, ayz, axz, axy, axw, ayw, azw, ap, ba, byz, bxz, bxy, bxw, byw, bzw, bp, ca, cyz, cxz, cxy, cxw, cyw, czw, cp);
  }

  /** The xw component as one polynomial on each side. */
  lemma AssociativeXwTerms(
    aa: real, ayz: real, axz: real, axy: real, axw: real, ayw: real, azw: real, ap: real,
    ba: real, byz: real, bxz: real, bxy: real, bxw: real, byw: real, bzw: real, bp: real,
    ca: real, cyz: real, cxz: real, cxy: real, cxw: real, cyw: real, czw: real, cp: real)
    ensures (axw * ba + axy * byw + axz * bzw - ayw * bxy - ayz * bp - azw * bxz - ap * byz + aa * bxw) * ca + (-axw * byw + axy * ba - axz * byz + ayw * bxw + ayz * bxz - azw * bp - ap * bzw + aa * bxy) * cyw + (-axw * bzw + axy * byz + axz * ba + ayw * bp - ayz * bxy + azw * bxw + ap * byw + aa * bxz) * czw - (axw * bxy - axy * bxw + axz * bp + ayw * ba + ayz * bzw - azw * byz + ap * bxz + aa * byw) * cxy - (-axw * bp - axy * bxz + axz * bxy - ayw * bzw + ayz * ba + azw * byw - ap * bxw + aa * byz) * cp - (axw * bxz - axy * bp - axz * bxw + ayw * byz - ayz * byw + azw * ba - ap * bxy + aa * bzw) * cxz - (axw * byz + axy * bzw - axz * byw - ayw * bxz + ayz * bxw + azw * bxy + ap * ba + aa * bp) * cyz + (-axw * bxw - axy * bxy - axz * bxz - ayw * byw - ayz * byz - azw * bzw + ap * bp + aa * ba) * cxw
         == axw * (-bxw * cxw - bxy * cxy - bxz * cxz - byw * cyw - byz * cyz - bzw * czw + bp * cp + ba * ca) + axy * (bxw * cxy - bxy * cxw + bxz * cp + byw * ca + byz * czw - bzw * cyz + bp * cxz + ba * cyw) + axz * (bxw * cxz - bxy * cp - bxz * cxw + byw * cyz - byz * cyw + bzw * ca - bp * cxy + ba * czw) - ayw * (-bxw * cyw + bxy * ca - bxz * cyz + byw * cxw + byz * cxz - bzw * cp - bp * czw + ba * cxy) - ayz * (bxw * cyz + bxy * czw - bxz * cyw - byw * cxz + byz * cxw + bzw * cxy + bp * ca + ba * cp) - azw * (-bxw * czw + bxy * cyz + bxz * ca + byw * cp - byz * cxy + bzw * cxw + bp * cyw + ba * cxz) - ap * (-bxw * cp - bxy * cxz + bxz * cxy - byw * czw + byz * ca + bzw * cyw - bp * cxw + ba * cyz) + aa * (bxw * ca + bxy * cyw + bxz * czw - byw * cxy - byz * cp - bzw * cxz - bp * cyz + ba * cxw)
  {
  }

  /** The yw component of `(ab)c` and of `a(bc)`. */
  lemma AssociativeYw(
    aa: real, ayz: real, axz: real, axy: real, axw: real, ayw: real, azw: real, ap: real,
    ba: real, byz: real, bxz: real, bxy: real, bxw: real, byw: real, bzw: real, bp: real,
    ca: real, cyz: real, cxz: real, cxy: real, cxw: real, cyw: real, czw: real, cp: real)
    ensures
      var da, dyz, dxz, dxy, dxw, dyw, dzw, dp := ProductScalar(aa, ayz, axz, axy, axw, ayw, azw, ap, ba, byz, bxz, bxy, bxw, byw, bzw, bp), ProductYz(aa, ayz, axz, axy, axw, ayw, azw, ap, ba, byz, bxz, bxy, bxw, byw, bzw, bp), ProductXz(aa, ayz, axz, axy, axw, ayw, azw, ap, ba, byz, bxz, bxy, bxw, byw, bzw, bp), ProductXy(aa, ayz, axz, axy, axw, ayw, azw, ap, ba, byz, bxz, bxy, bxw, byw, bzw, bp), ProductXw(aa, ayz, axz, axy, axw, ayw, azw, ap, ba, byz, bxz, bxy, bxw, byw, bzw, bp), ProductYw(aa, ayz, axz, axy, axw, ayw, azw, ap, ba, byz, bxz, bxy, bxw, byw, bzw, bp), ProductZw(aa, ayz, axz, axy, axw, ayw, azw, ap, ba, byz, bxz, bxy, bxw, byw, bzw, bp), ProductP(aa, ayz, axz, axy, axw, ayw, azw, ap, ba, byz, bxz, bxy, bxw, byw, bzw, bp);
      var fa, fyz, fxz, fxy, fxw, fyw, fzw, fp := ProductScalar(ba, byz, bxz, bxy, bxw, byw, bzw, bp, ca, cyz, cxz, cxy, cxw, cyw, czw, cp), ProductYz(ba, byz, bxz, bxy, bxw, byw, bzw, bp, ca, cyz, cxz, cxy, cxw, cyw, czw, cp), ProductXz(ba, byz, bxz, bxy, bxw, byw, bzw, bp, ca, cyz, cxz, cxy, cxw, cyw, czw, cp), ProductXy(ba, byz, bxz, bxy, bxw, byw, bzw, bp, ca, cyz, cxz, cxy, cxw, cyw, czw, cp), ProductXw(ba, byz, bxz, bxy, bxw, byw, bzw, bp, ca, cyz, cxz, cxy, cxw, cyw, czw, cp), ProductYw(ba, byz, bxz, bxy, bxw, byw, bzw, bp, ca, cyz, cxz, cxy, cxw, cyw, czw, cp), ProductZw(ba, byz, bxz, bxy, bxw, byw, bzw, bp, ca, cyz, cxz, cxy, cxw, cyw, czw, cp), ProductP(ba, byz, bxz, bxy, bxw, byw, bzw, bp, ca, cyz, cxz, cxy, cxw, cyw, czw, cp);
      ProductYw(da, dyz, dxz, dxy, dxw, dyw, dzw, dp, ca, cyz, cxz, cxy, cxw, cyw, czw, cp) == ProductYw(aa, ayz, axz, axy, axw, ayw, azw, ap, fa, fyz, fxz, fxy, fxw, fyw, fzw, fp)
  {
    AssociativeYwApplied(aa, ayz, axz, axy, axw, ayw, azw, ap, ba, byz, bxz, bxy, bxw, byw, bzw, bp, ca, cyz, cxz, cxy, cxw, cyw, czw, cp);
  }

  /** The yw component, the inner products written out as arguments. */
  lemma AssociativeYwApplied(
    aa: real, ayz: real, axz: real, axy: real, axw: real, ayw: real, azw: real, ap: real,
    ba: real, byz: real, bxz: real, bxy: real, bxw: real, byw: real, bzw: real, bp: real,
    ca: real, cyz: real, cxz: real, cxy: real, cxw: real, cyw: real, czw: real, cp: real)
    ensures ProductYw((-axw * bxw - axy * bxy - axz * bxz - ayw * byw - ayz * byz - azw * bzw + ap * bp + aa * ba), (-axw * bp - axy * bxz + axz * bxy - ayw * bzw + ayz * ba + azw * byw - ap * bxw + aa * byz), (-axw * bzw + axy * byz + axz * ba + ayw * bp - ayz * bxy + azw * bxw + ap * byw + aa * bxz), (-axw * byw + axy * ba - axz * byz + ayw * bxw + ayz * bxz - azw * bp - ap * bzw + aa * bxy), (axw * ba + axy * byw + axz * bzw - ayw * bxy - ayz * bp - azw * bxz - ap * byz + aa * bxw), (axw * bxy - axy * bxw + axz * bp + ayw * ba + ayz * bzw - azw * byz + ap * bxz + aa * byw), (axw * bxz - axy * bp - axz * bxw + ayw * byz - ayz * byw + azw * ba - ap * bxy + aa * bzw), (axw * byz + axy * bzw - axz * byw - ayw * bxz + ayz * bxw + azw * bxy + ap * ba + aa * bp), ca, cyz, cxz, cxy, cxw, cyw, czw, cp)
         == ProductYw(aa, ayz, axz, axy, axw, ayw, azw, ap, (-bxw * cxw - bxy * cxy - bxz * cxz - byw * cyw - byz * cyz - bzw * czw + bp * cp + ba * ca), (-bxw * cp - bxy * cxz + bxz * cxy - byw * czw + byz * ca + bzw * cyw - bp * cxw + ba * cyz), (-bxw * czw + bxy * cyz + bxz * ca + byw * cp - byz * cxy + bzw * cxw + bp * cyw + ba * cxz), (-bxw * cyw + bxy * ca - bxz * cyz + byw * cxw + byz * cxz - bzw * cp - bp * czw + ba * cxy), (bxw * ca + bxy * cyw + bxz * czw - byw * cxy - byz * cp - bzw * cxz - bp * cyz + ba * cxw), (bxw * cxy - bxy * cxw + bxz * cp + byw * ca + byz * czw - bzw * cyz + bp * cxz + ba * cyw), (bxw * cxz - bxy * cp - bxz * cxw + byw * cyz - byz * cyw + bzw * ca - bp * cxy + ba * czw), (bxw * cyz + bxy * czw - bxz * cyw - byw * cxz + byz * cxw + bzw * cxy + bp * ca + ba * cp))
  {
    AssociativeYwTerms(aa, ayz, axz, axy, axw, ayw, azw, ap, ba, byz, bxz, bxy, bxw, byw, bzw, bp, ca, cyz, cxz, cxy, cxw, cyw, czw, cp);
  }

  /** The yw component as one polynomial on each side. */
  lemma AssociativeYwTerms(
    aa: real, ayz: real, axz: real, axy: real, axw: real, ayw: real, azw: real, ap: real,
    ba: real, byz: real, bxz: real, bxy: real, bxw: real, byw: real, bzw: real, bp: real,
    ca: real, cyz: real, cxz: real, cxy: real, cxw: real, cyw: real, czw: real, cp: real)
    ensures (axw * ba + axy * byw + axz * bzw - ayw * bxy - ayz * bp - azw * bxz - ap * byz + aa * bxw) * cxy - (-axw * byw + axy * ba - axz * byz + ayw * bxw + ayz * bxz - azw * bp - ap * bzw + aa * bxy) * cxw + (-axw * bzw + axy * byz + axz * ba + ayw * bp - ayz * bxy + azw * bxw + ap * byw + aa * bxz) * cp + (axw * bxy - axy * bxw + axz * bp + ayw * ba + ayz * bzw - azw * byz + ap * bxz + aa * byw) * ca + (-axw * bp - axy * bxz + axz * bxy - ayw * bzw + ayz * ba + azw * byw - ap * bxw + aa * byz) * czw - (axw * bxz - axy * bp - axz * bxw + ayw * byz - ayz * byw + azw * ba - ap * bxy + aa * bzw) * cyz + (axw * byz + axy * bzw - axz * byw - ayw * bxz + ayz * bxw + azw * bxy + ap * ba + aa * bp) * cxz + (-axw * bxw - axy * bxy - axz * bxz - ayw * byw - ayz * byz - azw * bzw + ap * bp + aa * ba) * cyw
         == axw * (-bxw * cyw + bxy * ca - bxz * cyz + byw * cxw + byz * cxz - bzw * cp - bp * czw + ba * cxy) - axy * (bxw * ca + bxy * cyw + bxz * czw - byw * cxy - byz * cp - bzw * cxz - bp * cyz + ba * cxw) + axz * (bxw * cyz + bxy * czw - bxz * cyw - byw * cxz + byz * cxw + bzw * cxy + bp * ca + ba * cp) + ayw * (-bxw * cxw - bxy * cxy - bxz * cxz - byw * cyw - byz * cyz - bzw * czw + bp * cp + ba * ca) + ayz * (bxw * cxz - bxy * cp - bxz * cxw + byw * cyz - byz * cyw + bzw * ca - bp * cxy + ba * czw) - azw * (-bxw * cp - bxy * cxz + bxz * cxy - byw * czw + byz * ca + bzw * cyw - bp * cxw + ba * cyz) + ap * (-bxw * czw + bxy * cyz + bxz * ca + byw * cp - byz * cxy + bzw * cxw + bp * cyw + ba * cxz) + aa * (bxw * cxy - bxy * cxw + bxz * cp + byw * ca + byz * czw - bzw * cyz + bp * cxz + ba * cyw)
  {
  }

  /** The zw component of `(ab)c` and of `a(bc)`. */
  lemma AssociativeZw(
    aa: real, ayz: real, axz: real, axy: real, axw: real, ayw: real, azw: real, ap: real,
    ba: real, byz: real, bxz: real, bxy: real, bxw: real, byw: real, bzw: real, bp: real,
    ca: real, cyz: real, cxz: real, cxy: real, cxw: real, cyw: real, czw: real, cp: real)
    ensures
      var da, dyz, dxz, dxy, dxw, dyw, dzw, dp := ProductScalar(aa, ayz, axz, axy, axw, ayw, azw, ap, ba, byz, bxz, bxy, bxw, byw, bzw, bp), ProductYz(aa, ayz, axz, axy, axw, ayw, azw, ap, ba, byz, bxz, bxy, bxw, byw, bzw, bp), ProductXz(aa, ayz, axz, axy, axw, ayw, azw, ap, ba, byz, bxz, bxy, bxw, byw, bzw, bp), ProductXy(aa, ayz, axz, axy, axw, ayw, azw, ap, ba, byz, bxz, bxy, bxw, byw, bzw, bp), ProductXw(aa, ayz, axz, axy, axw, ayw, azw, ap, ba, byz, bxz, bxy, bxw, byw, bzw, bp), ProductYw(aa, ayz, axz, axy, axw, ayw, azw, ap, ba, byz, bxz, bxy, bxw, byw, bzw, bp), ProductZw(aa, ayz, axz, axy, axw, ayw, azw, ap, ba, byz, bxz, bxy, bxw, byw, bzw, bp), ProductP(aa, ayz, axz, axy, axw, ayw, azw, ap, ba, byz, bxz, bxy, bxw, byw, bzw, bp);
      var fa, fyz, fxz, fxy, fxw, fyw, fzw, fp := ProductScalar(ba, byz, bxz, bxy, bxw, byw, bzw, bp, ca, cyz, cxz, cxy, cxw, cyw, czw, cp), ProductYz(ba, byz, bxz, bxy, bxw, byw, bzw, bp, ca, cyz, cxz, cxy, cxw, cyw, czw, cp), ProductXz(ba, byz, bxz, bxy, bxw, byw, bzw, bp, ca, cyz, cxz, cxy, cxw, cyw, czw, cp), ProductXy(ba, byz, bxz, bxy, bxw, byw, bzw, bp, ca, cyz, cxz, cxy, cxw, cyw, czw, cp), ProductXw(ba, byz, bxz, bxy, bxw, byw, bzw, bp, ca, cyz, cxz, cxy, cxw, cyw, czw, cp), ProductYw(ba, byz, bxz, bxy, bxw, byw, bzw, bp, ca, cyz, cxz, cxy, cxw, cyw, czw, cp), ProductZw(ba, byz, bxz, bxy, bxw, byw, bzw, bp, ca, cyz, cxz, cxy, cxw, cyw, czw, cp), ProductP(ba, byz, bxz, bxy, bxw, byw, bzw, bp, ca, cyz, cxz, cxy, cxw, cyw, czw, cp);
      ProductZw(da, dyz, dxz, dxy, dxw, dyw, dzw, dp, ca, cyz, cxz, cxy, cxw, cyw, czw, cp) == ProductZw(aa, ayz, axz, axy, axw, ayw, azw, ap, fa, fyz, fxz, fxy, fxw, fyw, fzw, fp)
  {
    AssociativeZwApplied(aa, ayz, axz, axy, axw, ayw, azw, ap, ba, byz, bxz, bxy, bxw, byw, bzw, bp, ca, cyz, cxz, cxy, cxw, cyw, czw, cp);
  }

  /** The zw component, the inner products written out as arguments. */
  lemma AssociativeZwApplied(
    aa: real, ayz: real, axz: real, axy: real, axw: real, ayw: real, azw: real, ap: real,
    ba: real, byz: real, bxz: real, bxy: real, bxw: real, byw: real, bzw: real, bp: real,
    ca: real, cyz: real, cxz: real, cxy: real, cxw: real, cyw: real, czw: real, cp: real)
    ensures ProductZw((-axw * bxw - axy * bxy - axz * bxz - ayw * byw - ayz * byz - azw * bzw + ap * bp + aa * ba), (-axw * bp - axy * bxz + axz * bxy - ayw * bzw + ayz * ba + azw * byw - ap * bxw + aa * byz), (-axw * bzw + axy * byz + axz * ba + ayw * bp - ayz * bxy + azw * bxw + ap * byw + aa * bxz), (-axw * byw + axy * ba - axz * byz + ayw * bxw + ayz * bxz - azw * bp - ap * bzw + aa * bxy), (axw * ba + axy * byw + axz * bzw - ayw * bxy - ayz * bp - azw * bxz - ap * byz + aa * bxw), (axw * bxy - axy * bxw + axz * bp + ayw * ba + ayz * bzw - azw * byz + ap * bxz + aa * byw), (axw * bxz - axy * bp - axz * bxw + ayw * byz - ayz * byw + azw * ba - ap * bxy + aa * bzw), (axw * byz + axy * bzw - axz * byw - ayw * bxz + ayz * bxw + azw * bxy + ap * ba + aa * bp), ca, cyz, cxz, cxy, cxw, cyw, czw, cp)
         == ProductZw(aa, ayz, axz, axy, axw, ayw, azw, ap, (-bxw * cxw - bxy * cxy - bxz * cxz - byw * cyw - byz * cyz - bzw * czw + bp * cp + ba * ca), (-bxw * cp - bxy * cxz + bxz * cxy - byw * czw + byz * ca + bzw * cyw - bp * cxw + ba * cyz), (-bxw * czw + bxy * cyz + bxz * ca + byw * cp - byz * cxy + bzw * cxw + bp * cyw + ba * cxz), (-bxw * cyw + bxy * ca - bxz * cyz + byw * cxw + byz * cxz - bzw * cp - bp * czw + ba * cxy), (bxw * ca + bxy * cyw + bxz * czw - byw * cxy - byz * cp - bzw * cxz - bp * cyz + ba * cxw), (bxw * cxy - bxy * cxw + bxz * cp + byw * ca + byz * czw - bzw * cyz + bp * cxz + ba * cyw), (bxw * cxz - bxy * cp - bxz * cxw + byw * cyz - byz * cyw + bzw * ca - bp * cxy + ba * czw), (bxw * cyz + bxy * czw - bxz * cyw - byw * cxz + byz * cxw + bzw * cxy + bp * ca + ba * cp))
  {
    AssociativeZwTerms(aa, ayz, axz, axy, axw, ayw, azw, ap, ba, byz, bxz, bxy, bxw, byw, bzw, bp, ca, cyz, cxz, cxy, cxw, cyw, czw, cp);
  }

  /** The zw component as one polynomial on each side. */
  lemma AssociativeZwTerms(
    aa: real, ayz: real, axz: real, axy: real, axw: real, ayw: real, azw: real, ap: real,
    ba: real, byz: real, bxz: real, bxy: real, bxw: real, byw: real, bzw: real, bp: real,
    ca: real, cyz: real, cxz: real, cxy: real, cxw: real, cyw: real, czw: real, cp: real)
    ensures (axw * ba + axy * byw + axz * bzw - ayw * bxy - ayz * bp - azw * bxz - ap * byz + aa * bxw) * cxz - (-axw * byw + axy * ba - axz * byz + ayw * bxw + ayz * bxz - azw * bp - ap * bzw + aa * bxy) * cp - (-axw * bzw + axy * byz + axz * ba + ayw * bp - ayz * bxy + azw * bxw + ap * byw + aa * bxz) * cxw + (axw * bxy - axy * bxw + axz * bp + ayw * ba + ayz * bzw - azw * byz + ap * bxz + aa * byw) * cyz - (-axw * bp - axy * bxz + axz * bxy - ayw * bzw + ayz * ba + azw * byw - ap * bxw + aa * byz) * cyw + (axw * bxz - axy * bp - axz * bxw + ayw * byz - ayz * byw + azw * ba - ap * bxy + aa * bzw) * ca - (axw * byz + axy * bzw - axz * byw - ayw * bxz + ayz * bxw + azw * bxy + ap * ba + aa * bp) * cxy + (-axw * bxw - axy * bxy - axz * bxz - ayw * byw - ayz * byz - azw * bzw + ap * bp + aa * ba) * czw
         == axw * (-bxw * czw + bxy * cyz + bxz * ca + byw * cp - byz * cxy + bzw * cxw + bp * cyw + ba * cxz) - axy * (bxw * cyz + bxy * czw - bxz * cyw - byw * cxz + byz * cxw + bzw * cxy + bp * ca + ba * cp) - axz * (bxw * ca + bxy * cyw + bxz * czw - byw * cxy - byz * cp - bzw * cxz - bp * cyz + ba * cxw) + ayw * (-bxw * cp - bxy * cxz + bxz * cxy - byw * czw + byz * ca + bzw * cyw - bp * cxw + ba * cyz) - ayz * (bxw * cxy - bxy * cxw + bxz * cp + byw * ca + byz * czw - bzw * cyz + bp * cxz + ba * cyw) + azw * (-bxw * cxw - bxy * cxy - bxz * cxz - byw * cyw - byz * cyz - bzw * czw + bp * cp + ba * ca) - ap * (-bxw * cyw + bxy * ca - bxz * cyz + byw * cxw + byz * cxz - bzw * cp - bp * czw + ba * cxy) + aa * (bxw * cxz - bxy * cp - bxz * cxw + byw * cyz - byz * cyw + bzw * ca - bp * cxy + ba * czw)
  {
  }

  /** The pseudoscalar component of `(ab)c` and of `a(bc)`. */
  lemma AssociativeP(
    aa: real, ayz: real, axz: real, axy: real, axw: real, ayw: real, azw: real, ap: real,
    ba: real, byz: real, bxz: real, bxy: real, bxw: real, byw: real, bzw: real, bp: real,
    ca: real, cyz: real, cxz: real, cxy: real, cxw: real, cyw: real, czw: real, cp: real)
    ensures
      var da, dyz, dxz, dxy, dxw, dyw, dzw, dp := ProductScalar(aa, ayz, axz, axy, axw, ayw, azw, ap, ba, byz, bxz, bxy, bxw, byw, bzw, bp), ProductYz(aa, ayz, axz, axy, axw, ayw, azw, ap, ba, byz, bxz, bxy, bxw, byw, bzw, bp), ProductXz(aa, ayz, axz, axy, axw, ayw, azw, ap, ba, byz, bxz, bxy, bxw, byw, bzw, bp), ProductXy(aa, ayz, axz, axy, axw, ayw, azw, ap, ba, byz, bxz, bxy, bxw, byw, bzw, bp), ProductXw(aa, ayz, axz, axy, axw, ayw, azw, ap, ba, byz, bxz, bxy, bxw, byw, bzw, bp), ProductYw(aa, ayz, axz, axy, axw, ayw, azw, ap, ba, byz, bxz, bxy, bxw, byw, bzw, bp), ProductZw(aa, ayz, axz, axy, axw, ayw, azw, ap, ba, byz, bxz, bxy, bxw, byw, bzw, bp), ProductP(aa, ayz, axz, axy, axw, ayw, azw, ap, ba, byz, bxz, bxy, bxw, byw, bzw, bp);
      var fa, fyz, fxz, fxy, fxw, fyw, fzw, fp := ProductScalar(ba, byz, bxz, bxy, bxw, byw, bzw, bp, ca, cyz, cxz, cxy, cxw, cyw, czw, cp), ProductYz(ba, byz, bxz, bxy, bxw, byw, bzw, bp, ca, cyz, cxz, cxy, cxw, cyw, czw, cp), ProductXz(ba, byz, bxz, bxy, bxw, byw, bzw, bp, ca, cyz, cxz, cxy, cxw, cyw, czw, cp), ProductXy(ba, byz, bxz, bxy, bxw, byw, bzw, bp, ca, cyz, cxz, cxy, cxw, cyw, czw, cp), ProductXw(ba, byz, bxz, bxy, bxw, byw, bzw, bp, ca, cyz, cxz, cxy, cxw, cyw, czw, cp), ProductYw(ba, byz, bxz, bxy, bxw, byw, bzw, bp, ca, cyz, cxz, cxy, cxw, cyw, czw, cp), ProductZw(ba, byz, bxz, bxy, bxw, byw, bzw, bp, ca, cyz, cxz, cxy, cxw, cyw, czw, cp), ProductP(ba, byz, bxz, bxy, bxw, byw, bzw, bp, ca, cyz, cxz, cxy, cxw, cyw, czw, cp);
      ProductP(da, dyz, dxz, dxy, dxw, dyw, dzw, dp, ca, cyz, cxz, cxy, cxw, cyw, czw, cp) == ProductP(aa, ayz, axz, axy, axw, ayw, azw, ap, fa, fyz, fxz, fxy, fxw, fyw, fzw, fp)
  {
    AssociativePApplied(aa, ayz, axz, axy, axw, ayw, azw, ap, ba, byz, bxz, bxy, bxw, byw, bzw, bp, ca, cyz, cxz, cxy, cxw, cyw, czw, cp);
  }

  /** The pseudoscalar component, the inner products written out as arguments. */
  lemma AssociativePApplied(
    aa: real, ayz: real, axz: real, axy: real, axw: real, ayw: real, azw: real, ap: real,
    ba: real, byz: real, bxz: real, bxy: real, bxw: real, byw: real, bzw: real, bp: real,
    ca: real, cyz: real, cxz: real, cxy: real, cxw: real, cyw: real, czw: real, cp: real)
    ensures ProductP((-axw * bxw - axy * bxy - axz * bxz - ayw * byw - ayz * byz - azw * bzw + ap * bp + aa * ba), (-axw * bp - axy * bxz + axz * bxy - ayw * bzw + ayz * ba + azw * byw - ap * bxw + aa * byz), (-axw * bzw + axy * byz + axz * ba + ayw * bp - ayz * bxy + azw * bxw + ap * byw + aa * bxz), (-axw * byw + axy * ba - axz * byz + ayw * bxw + ayz * bxz - azw * bp - ap * bzw + aa * bxy), (axw * ba + axy * byw + axz * bzw - ayw * bxy - ayz * bp - azw * bxz - ap * byz + aa * bxw), (axw * bxy - axy * bxw + axz * bp + ayw * ba + ayz * bzw - azw * byz + ap * bxz + aa * byw), (axw * bxz - axy * bp - axz * bxw + ayw * byz - ayz * byw + azw * ba - ap * bxy + aa * bzw), (axw * byz + axy * bzw - axz * byw - ayw * bxz + ayz * bxw + azw * bxy + ap * ba + aa * bp), ca, cyz, cxz, cxy, cxw, cyw, czw, cp)
         == ProductP(aa, ayz, axz, axy, axw, ayw, azw, ap, (-bxw * cxw - bxy * cxy - bxz * cxz - byw * cyw - byz * cyz - bzw * czw + bp * cp + ba * ca), (-bxw * cp - bxy * cxz + bxz * cxy - byw * czw + byz * ca + bzw * cyw - bp * cxw + ba * cyz), (-bxw * czw + bxy * cyz + bxz * ca + byw * cp - byz * cxy + bzw * cxw + bp * cyw + ba * cxz), (-bxw * cyw + bxy * ca - bxz * cyz + byw * cxw + byz * cxz - bzw * cp - bp * czw + ba * cxy), (bxw * ca + bxy * cyw + bxz * czw - byw * cxy - byz * cp - bzw * cxz - bp * cyz + ba * cxw), (bxw * cxy - bxy * cxw + bxz * cp + byw * ca + byz * czw - bzw * cyz + bp * cxz + ba * cyw), (bxw * cxz - bxy * cp - bxz * cxw + byw * cyz - byz * cyw + bzw * ca - bp * cxy + ba * czw), (bxw * cyz + bxy * czw - bxz * cyw - byw * cxz + byz * cxw + bzw * cxy + bp * ca + ba * cp))
  {
    AssociativePTerms(aa, ayz, axz, axy, axw, ayw, azw, ap, ba, byz, bxz, bxy, bxw, byw, bzw, bp, ca, cyz, cxz, cxy, cxw, cyw, czw, cp);
  }

  /** The pseudoscalar component as one polynomial on each side. */
  lemma AssociativePTerms(
    aa: real, ayz: real, axz: real, axy: real, axw: real, ayw: real, azw: real, ap: real,
    ba: real, byz: real, bxz: real, bxy: real, bxw: real, byw: real, bzw: real, bp: real,
    ca: real, cyz: real, cxz: real, cxy: real, cxw: real, cyw: real, czw: real, cp: real)
    ensures (axw * ba + axy * byw + axz * bzw - ayw * bxy - ayz * bp - azw * bxz - ap * byz + aa * bxw) * cyz + (-axw * byw + axy * ba - axz * byz + ayw * bxw + ayz * bxz - azw * bp - ap * bzw + aa * bxy) * czw - (-axw * bzw + axy * byz + axz * ba + ayw * bp - ayz * bxy + azw * bxw + ap * byw + aa * bxz) * cyw - (axw * bxy - axy * bxw + axz * bp + ayw * ba + ayz * bzw - azw * byz + ap * bxz + aa * byw) * cxz + (-axw * bp - axy * bxz + axz * bxy - ayw * bzw + ayz * ba + azw * byw - ap * bxw + aa * byz) * cxw + (axw * bxz - axy * bp - axz * bxw + ayw * byz - ayz * byw + azw * ba - ap * bxy + aa * bzw) * cxy + (axw * byz + axy * bzw - axz * byw - ayw * bxz + ayz * bxw + azw * bxy + ap * ba + aa * bp) * ca + (-axw * bxw - axy * bxy - axz * bxz - ayw * byw - ayz * byz - azw * bzw + ap * bp + aa * ba) * cp
         == axw * (-bxw * cp - bxy * cxz + bxz * cxy - byw * czw + byz * ca + bzw * cyw - bp * cxw + ba * cyz) + axy * (bxw * cxz - bxy * cp - bxz * cxw + byw * cyz - byz * cyw + bzw * ca - bp * cxy + ba * czw) - axz * (bxw * cxy - bxy * cxw + bxz * cp + byw * ca + byz * czw - bzw * cyz + bp * cxz + ba * cyw) - ayw * (-bxw * czw + bxy * cyz + bxz * ca + byw * cp - byz * cxy + bzw * cxw + bp * cyw + ba * cxz) + ayz * (bxw * ca + bxy * cyw + bxz * czw - byw * cxy - byz * cp - bzw * cxz - bp * cyz + ba * cxw) + azw * (-bxw * cyw + bxy * ca - bxz * cyz + byw * cxw + byz * cxz - bzw * cp - bp * czw + ba * cxy) + ap * (-bxw * cxw - bxy * cxy - bxz * cxz - byw * cyw - byz * cyz - bzw * czw + bp * cp + ba * ca) + aa * (bxw * cyz + bxy * czw - bxz * cyw - byw * cxz + byz * cxw + bzw * cxy + bp * ca + ba * cp)
  {
  }
}
