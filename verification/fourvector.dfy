/**
 * The small four-vector toolkit of the dark-brem vertex-library model
 * (`Pt`, `Phi`, `BoostVector`, `Boost` in DarkBremVertexLibraryModel.h),
 * over exact reals.
 *
 * The transcendental functions the toolkit calls are not implemented here:
 * they arrive in a `Maths` record, and the few laws the proofs rely on
 * (`SqrtLaw`, `Atan2AxisLaw`) are stated as predicates that callers supply.
 */
module FourVector {

  /** An Eigen::Vector4f as the model uses it: spatial (x, y, z) and energy w. */
  datatype Vec4 = Vec4(x: real, y: real, z: real, w: real)

  /** An Eigen::Vector3f / G4ThreeVector. */
  datatype Vec3 = Vec3(x: real, y: real, z: real)

  /** `g4fire::pi`. */
  const Pi: real := 3.14159265358979323846

  /**
   * The C maths library and CLHEP geometry the model calls.
   * `asinRatio(a, b)` stands for `asin(a / b)` evaluated in floating point,
   * so that a zero `b` is the library's business and not a division here.
   * `rotateUz(v, u)` stands for `Hep3Vector::rotateUz`: the frame rotation
   * taking the z axis onto the unit vector `u`.
   */
  datatype Maths = Maths(
    sqrt: real -> real,
    atan2: (real, real) -> real,
    asinRatio: (real, real) -> real,
    sin: real -> real,
    cos: real -> real,
    rotateUz: (Vec3, Vec3) -> Vec3)

  /** `sqrt` returns the non-negative square root of a non-negative argument. */
  ghost predicate SqrtLaw(sqrt: real -> real) {
    forall x: real :: x >= 0.0 ==> sqrt(x) >= 0.0 && sqrt(x) * sqrt(x) == x
  }

  /** `atan2` on the coordinate axes, as C99 Annex F fixes it. */
  ghost predicate Atan2AxisLaw(atan2: (real, real) -> real) {
    && atan2(0.0, 0.0) == 0.0
    && (forall y: real :: y > 0.0 ==> atan2(y, 0.0) == Pi / 2.0)
    && (forall y: real :: y < 0.0 ==> atan2(y, 0.0) == -Pi / 2.0)
  }

  lemma SqrtOfOne(sqrt: real -> real)
    requires SqrtLaw(sqrt)
    ensures sqrt(1.0) == 1.0
  {
    var s := sqrt(1.0);
    assert s >= 0.0 && s * s == 1.0;
    if s > 1.0 {
      assert false;
    } else if s < 1.0 {
      assert (1.0 - s) * (1.0 + s) == 1.0 - s * s;
      MulPositive(1.0 - s, 1.0 + s);
      assert false;
    }
  }

  lemma SqrtPositive(sqrt: real -> real, x: real)
    requires SqrtLaw(sqrt)
    requires x > 0.0
    ensures sqrt(x) > 0.0
  {
    assert sqrt(x) * sqrt(x) == x;
  }

  function Dot(a: Vec3, b: Vec3): real {
    a.x * b.x + a.y * b.y + a.z * b.z
  }

  function Spatial(v: Vec4): Vec3 {
    Vec3(v.x, v.y, v.z)
  }

  function Add3(a: Vec3, b: Vec3): Vec3 {
    Vec3(a.x + b.x, a.y + b.y, a.z + b.z)
  }

  function Sub3(a: Vec3, b: Vec3): Vec3 {
    Vec3(a.x - b.x, a.y - b.y, a.z - b.z)
  }

  function Scale3(k: real, a: Vec3): Vec3 {
    Vec3(k * a.x, k * a.y, k * a.z)
  }

  function Add4(a: Vec4, b: Vec4): Vec4 {
    Vec4(a.x + b.x, a.y + b.y, a.z + b.z, a.w + b.w)
  }

  /** The Lorentz invariant w^2 - |p|^2 (the squared mass of a momentum). */
  function Invariant(v: Vec4): real {
    v.w * v.w - Dot(Spatial(v), Spatial(v))
  }

  /**
   * Zero under a name. Sign facts about squares are stated against it so
   * that the solver keeps them as linear facts about the square instead of
   * rewriting them into facts about the base.
   */
  const Zero: real := 0.0

  lemma MulPositive(x: real, y: real)
    requires x > 0.0 && y > 0.0
    ensures x * y > Zero
  {
  }

  lemma MulAtLeast(d: real, w: real)
    requires d >= 1.0 && w > Zero
    ensures d * w >= w
  {
    assert d * w - w == (d - 1.0) * w;
    if d > 1.0 {
      MulPositive(d - 1.0, w);
    }
  }

  lemma SquareNonNegative(x: real)
    ensures x * x >= Zero
  {
    assert x * x >= 0.0;
  }

  lemma SquarePositive(x: real)
    requires x != 0.0
    ensures x * x > Zero
  {
    if x > 0.0 {
      MulPositive(x, x);
    } else {
      MulPositive(-x, -x);
      assert (-x) * (-x) == x * x;
    }
  }

  lemma DotSelfNonNegative(a: Vec3)
    ensures Dot(a, a) >= 0.0
  {
    SquareNonNegative(a.x);
    SquareNonNegative(a.y);
    SquareNonNegative(a.z);
  }

  /** Only the zero 3-vector has zero squared length. */
  lemma DotSelfPositive(a: Vec3)
    requires a != Vec3(0.0, 0.0, 0.0)
    ensures Dot(a, a) > 0.0
  {
    SquareNonNegative(a.x);
    SquareNonNegative(a.y);
    SquareNonNegative(a.z);
    if a.x != 0.0 {
      SquarePositive(a.x);
    } else if a.y != 0.0 {
      SquarePositive(a.y);
    } else {
      SquarePositive(a.z);
    }
  }

  /** Transverse momentum: the length of the (x, y) projection. */
  function Pt(m: Maths, v: Vec4): (r: real)
    requires SqrtLaw(m.sqrt)
    ensures r >= 0.0
    ensures r * r == v.x * v.x + v.y * v.y
  {
    m.sqrt(v.x * v.x + v.y * v.y)
  }

  /**
   * Azimuthal angle, with the axis cases spelled out instead of left to
   * `atan2` (the branch for x == 0 and y == 0 after the first test cannot be
   * reached and is kept as written).
   */
  function Phi(m: Maths, v: Vec4): (r: real)
    ensures v.x == 0.0 && v.y == 0.0 ==> r == 0.0
    ensures v.x != 0.0 ==> r == m.atan2(v.y, v.x)
    ensures v.x == 0.0 && v.y != 0.0 ==> r == (if v.y > 0.0 then Pi / 2.0 else -Pi / 2.0)
  {
    if v.x == 0.0 && v.y == 0.0 then 0.0
    else if v.x != 0.0 then m.atan2(v.y, v.x)
    else if v.y == 0.0 then 0.0
    else if v.y > 0.0 then Pi / 2.0
    else -Pi / 2.0
  }

  /**
   * The special-casing in `Phi` changes nothing for a C99 `atan2`: it is
   * `atan2(y, x)` on every vector.
   */
  lemma PhiIsAtan2(m: Maths, v: Vec4)
    requires Atan2AxisLaw(m.atan2)
    ensures Phi(m, v) == m.atan2(v.y, v.x)
  {
    if v.x == 0.0 && v.y > 0.0 {
      assert m.atan2(v.y, 0.0) == Pi / 2.0;
    } else if v.x == 0.0 && v.y < 0.0 {
      assert m.atan2(v.y, 0.0) == -Pi / 2.0;
    }
  }

  /** The velocity of a frame whose total four-momentum is `v`. */
  function BoostVector(v: Vec4): (b: Vec3)
    requires v.w != 0.0
    ensures b.x * v.w == v.x && b.y * v.w == v.y && b.z * v.w == v.z
  {
    Vec3(v.x / v.w, v.y / v.w, v.z / v.w)
  }

  /** A frame with a time-like momentum moves slower than light. */
  lemma BoostVectorSubluminal(v: Vec4)
    requires v.w != 0.0
    requires Invariant(v) > 0.0
    ensures Dot(BoostVector(v), BoostVector(v)) < 1.0
  {
    var b := BoostVector(v);
    var p2 := Dot(Spatial(v), Spatial(v));
    assert Dot(b, b) * (v.w * v.w) == p2 by {
      calc {
        Dot(b, b) * (v.w * v.w);
        (b.x * v.w) * (b.x * v.w) + (b.y * v.w) * (b.y * v.w) + (b.z * v.w) * (b.z * v.w);
        p2;
      }
    }
    SquarePositive(v.w);
    if Dot(b, b) >= 1.0 {
      MulAtLeast(Dot(b, b), v.w * v.w);
    }
  }

  /** `1 / sqrt(1 - |b|^2)`. */
  function Gamma(m: Maths, b: Vec3): (g: real)
    requires SqrtLaw(m.sqrt)
    requires Dot(b, b) < 1.0
    ensures g > 0.0
  {
    SqrtPositive(m.sqrt, 1.0 - Dot(b, b));
    1.0 / m.sqrt(1.0 - Dot(b, b))
  }

  /** The guarded `(gamma - 1) / |b|^2` coefficient. */
  function GammaTerm(m: Maths, b: Vec3): real
    requires SqrtLaw(m.sqrt)
    requires Dot(b, b) < 1.0
  {
    if Dot(b, b) > 0.0 then (Gamma(m, b) - 1.0) / Dot(b, b) else 0.0
  }

  /** The algebraic facts about gamma that every boost identity rests on. */
  lemma GammaFacts(m: Maths, b: Vec3)
    requires SqrtLaw(m.sqrt)
    requires Dot(b, b) < 1.0
    ensures Gamma(m, b) * Gamma(m, b) * (1.0 - Dot(b, b)) == 1.0
    ensures Dot(b, b) > 0.0 ==> GammaTerm(m, b) * Dot(b, b) == Gamma(m, b) - 1.0
    ensures Dot(b, b) > 0.0 ==> GammaTerm(m, b) * (Gamma(m, b) + 1.0) == Gamma(m, b) * Gamma(m, b)
    ensures Dot(b, b) == 0.0 ==> Gamma(m, b) == 1.0 && GammaTerm(m, b) == 0.0
  {
    var b2 := Dot(b, b);
    var s := m.sqrt(1.0 - b2);
    var g := Gamma(m, b);
    assert s * s == 1.0 - b2;
    assert g * s == 1.0;
    calc {
      g * g * (1.0 - b2);
      g * g * (s * s);
      (g * s) * (g * s);
      1.0;
    }
    if b2 > 0.0 {
      var g2 := GammaTerm(m, b);
      assert g2 * b2 == g - 1.0;
      assert g * g - 1.0 == g * g * b2 by {
        assert g * g * (1.0 - b2) == 1.0;
      }
      calc {
        g2 * (g + 1.0) * b2;
        (g - 1.0) * (g + 1.0);
        g * g - 1.0;
        g * g * b2;
      }
    }
    if b2 == 0.0 {
      SqrtOfOne(m.sqrt);
    }
  }

  /**
   * The pure Lorentz boost of `v` by velocity `b`, as the model writes it:
   * p' = p + gamma2 (b.p) b + gamma b w and w' = gamma (w + b.p).
   */
  function Boost(m: Maths, v: Vec4, b: Vec3): (r: Vec4)
    requires SqrtLaw(m.sqrt)
    requires Dot(b, b) < 1.0
    ensures Invariant(r) == Invariant(v)
  {
    var r := BoostWith(v, b, Gamma(m, b), GammaTerm(m, b));
    assert Invariant(r) == Invariant(v) by {
      GammaFacts(m, b);
      if b != Vec3(0.0, 0.0, 0.0) {
        DotSelfPositive(b);
        BoostWithInvariant(v, b, Gamma(m, b), GammaTerm(m, b));
      }
    }
    r
  }

  /** The boost formula with gamma and gamma2 already computed. */
  function BoostWith(v: Vec4, b: Vec3, gamma: real, gamma2: real): Vec4 {
    var boostP := b.x * v.x + b.y * v.y + b.z * v.z;
    Vec4(
      v.x + gamma2 * boostP * b.x + gamma * b.x * v.w,
      v.y + gamma2 * boostP * b.y + gamma * b.y * v.w,
      v.z + gamma2 * boostP * b.z + gamma * b.z * v.w,
      gamma * (v.w + boostP))
  }

  /** The boost moves the spatial part along `b` by `k` and rescales energy. */
  lemma BoostWithShape(v: Vec4, b: Vec3, g: real, g2: real, u: real, k: real)
    requires u == Dot(b, Spatial(v))
    requires k == g2 * u + g * v.w
    ensures Spatial(BoostWith(v, b, g, g2)) == Add3(Spatial(v), Scale3(k, b))
    ensures BoostWith(v, b, g, g2).w == g * (v.w + u)
  {
    assert b.x * v.x + b.y * v.y + b.z * v.z == u;
    ShiftComponent(v.x, b.x, g, g2, u, v.w, k);
    ShiftComponent(v.y, b.y, g, g2, u, v.w, k);
    ShiftComponent(v.z, b.z, g, g2, u, v.w, k);
  }

  /** One spatial component of the boost: the shift by gamma2 u and gamma w is a shift by k. */
  lemma ShiftComponent(x: real, bx: real, g: real, g2: real, u: real, w: real, k: real)
    requires k == g2 * u + g * w
    ensures x + g2 * u * bx + g * bx * w == x + k * bx
  {
    calc {
      k * bx;
      (g2 * u + g * w) * bx;
      { assert (g2 * u + g * w) * bx == g2 * u * bx + g * w * bx; }
      g2 * u * bx + g * w * bx;
      { assert g * w * bx == g * bx * w; }
      g2 * u * bx + g * bx * w;
    }
  }

  /** Boosting by the zero velocity is the identity (the guard on |b|^2 at work). */
  lemma BoostByZero(m: Maths, v: Vec4)
    requires SqrtLaw(m.sqrt)
    ensures Dot(Vec3(0.0, 0.0, 0.0), Vec3(0.0, 0.0, 0.0)) < 1.0
    ensures Boost(m, v, Vec3(0.0, 0.0, 0.0)) == v
  {
    GammaFacts(m, Vec3(0.0, 0.0, 0.0));
  }

  /** |p + k b|^2 expanded. */
  lemma ShiftedLength(p: Vec3, k: real, b: Vec3)
    ensures Dot(Add3(p, Scale3(k, b)), Add3(p, Scale3(k, b)))
         == Dot(p, p) + 2.0 * k * Dot(b, p) + k * k * Dot(b, b)
  {
  }

  /** The scalar relations between gamma, gamma2 and |b|^2 for a non-zero boost. */
  ghost predicate GammaRelations(g: real, g2: real, b2: real) {
    && g * g * (1.0 - b2) == 1.0
    && g2 * b2 == g - 1.0
    && g2 * (g + 1.0) == g * g
  }

  lemma BoostWithInvariant(v: Vec4, b: Vec3, g: real, g2: real)
    requires GammaRelations(g, g2, Dot(b, b))
    ensures Invariant(BoostWith(v, b, g, g2)) == Invariant(v)
  {
    var u := Dot(b, Spatial(v));
    var e := v.w;
    var k := g2 * u + g * e;
    var r := BoostWith(v, b, g, g2);
    BoostWithShape(v, b, g, g2, u, k);
    ShiftedLength(Spatial(v), k, b);
    assert Spatial(r) == Add3(Spatial(v), Scale3(k, b));
    assert Dot(Spatial(r), Spatial(r)) == Dot(Spatial(v), Spatial(v)) + 2.0 * k * u + k * k * Dot(b, b);
    assert r.w == g * (e + u);
    InvariantAlgebra(g, g2, Dot(b, b), u, e);
  }

  lemma InvariantAlgebra(g: real, g2: real, b2: real, u: real, e: real)
    requires GammaRelations(g, g2, b2)
    ensures var k := g2 * u + g * e;
      (g * (e + u)) * (g * (e + u)) - 2.0 * k * u - k * k * b2 == e * e
  {
    var k := g2 * u + g * e;
    assert k * b2 == (g - 1.0) * u + g * e * b2;
    calc {
      (g * (e + u)) * (g * (e + u)) - 2.0 * k * u - k * k * b2;
      g * g * (e + u) * (e + u) - 2.0 * k * u - k * ((g - 1.0) * u + g * e * b2);
      g * g * e * e * (1.0 - b2) + e * u * (2.0 * g * g - 2.0 * g - 2.0 * g * (g2 * b2))
        + u * u * (g * g - 2.0 * g2 - g2 * (g - 1.0));
      g * g * e * e * (1.0 - b2) + e * u * (2.0 * g * g - 2.0 * g - 2.0 * g * (g - 1.0))
        + u * u * (g * g - g2 * (g + 1.0));
      e * e;
    }
  }

  /** b.(p + k b) == b.p + k |b|^2. */
  lemma DotShift(b: Vec3, p: Vec3, k: real)
    ensures Dot(b, Add3(p, Scale3(k, b))) == Dot(b, p) + k * Dot(b, b)
  {
  }

  lemma ShiftBack(p: Vec3, k: real, b: Vec3)
    ensures Add3(Add3(p, Scale3(-k, b)), Scale3(k, b)) == p
  {
  }

  /** The first half of the round trip: boosting by -b moves p back along b. */
  lemma BoostWithNegated(v: Vec4, b: Vec3, g: real, g2: real, u: real, k: real)
    requires u == Dot(b, Spatial(v))
    requires k == g2 * -u + g * v.w
    ensures Spatial(BoostWith(v, Scale3(-1.0, b), g, g2)) == Add3(Spatial(v), Scale3(-k, b))
    ensures BoostWith(v, Scale3(-1.0, b), g, g2).w == g * (v.w - u)
  {
    var nb := Scale3(-1.0, b);
    assert Dot(nb, Spatial(v)) == -u;
    BoostWithShape(v, nb, g, g2, -u, k);
    assert Scale3(k, nb) == Scale3(-k, b);
  }

  lemma BoostWithInverse(v: Vec4, b: Vec3, g: real, g2: real)
    requires GammaRelations(g, g2, Dot(b, b))
    ensures BoostWith(BoostWith(v, Scale3(-1.0, b), g, g2), b, g, g2) == v
  {
    var b2 := Dot(b, b);
    var u := Dot(b, Spatial(v));
    var e := v.w;
    var k1 := g2 * -u + g * e;
    var v1 := BoostWith(v, Scale3(-1.0, b), g, g2);
    BoostWithNegated(v, b, g, g2, u, k1);
    var u1 := Dot(b, Spatial(v1));
    DotShift(b, Spatial(v), -k1);
    assert u1 == u - k1 * b2;
    var k2 := g2 * u1 + g * v1.w;
    var v2 := BoostWith(v1, b, g, g2);
    BoostWithShape(v1, b, g, g2, u1, k2);
    InverseAlgebra(g, g2, b2, u, e, k1, u1, v1.w);
    assert k2 == k1;
    ShiftBack(Spatial(v), k1, b);
    assert Spatial(v2) == Spatial(v);
    assert v2.w == e;
  }

  lemma NegateKeepsLength(b: Vec3)
    ensures Dot(Scale3(-1.0, b), Scale3(-1.0, b)) == Dot(b, b)
  {
  }

  lemma NegateZero()
    ensures Scale3(-1.0, Vec3(0.0, 0.0, 0.0)) == Vec3(0.0, 0.0, 0.0)
  {
  }

  /** Boosting back undoes a boost: Boost(Boost(v, -b), b) == v. */
  lemma BoostInverse(m: Maths, v: Vec4, b: Vec3)
    requires SqrtLaw(m.sqrt)
    requires Dot(b, b) < 1.0
    ensures Dot(Scale3(-1.0, b), Scale3(-1.0, b)) == Dot(b, b)
    ensures Boost(m, Boost(m, v, Scale3(-1.0, b)), b) == v
  {
    var nb := Scale3(-1.0, b);
    NegateKeepsLength(b);
    if b == Vec3(0.0, 0.0, 0.0) {
      NegateZero();
      BoostByZero(m, v);
    } else {
      assert Gamma(m, nb) == Gamma(m, b);
      assert GammaTerm(m, nb) == GammaTerm(m, b);
      GammaFacts(m, b);
      DotSelfPositive(b);
      BoostWithInverse(v, b, Gamma(m, b), GammaTerm(m, b));
    }
  }

  lemma InverseAlgebra(g: real, g2: real, b2: real, u: real, e: real, k1: real, u1: real, w: real)
    requires GammaRelations(g, g2, b2)
    requires k1 == g2 * -u + g * e && u1 == u - k1 * b2 && w == g * (e - u)
    ensures g2 * u1 + g * w == k1
    ensures g * (w + u1) == e
  {
    assert u1 == g * u - g * e * b2 by {
      calc {
        u1;
        u + g2 * b2 * u - g * e * b2;
        u + (g - 1.0) * u - g * e * b2;
      }
    }
    calc {
      g2 * u1 + g * w;
      g2 * u1 + g * (g * (e - u));
      g2 * g * u - g2 * b2 * g * e + g * g * e - g * g * u;
      g2 * g * u - (g - 1.0) * g * e + g * g * e - g * g * u;
      u * (g2 * (g + 1.0) - g * g) - g2 * u + g * e;
      k1;
    }
    calc {
      g * (w + u1);
      g * (g * (e - u) + u1);
      g * g * e * (1.0 - b2);
      e;
    }
  }
}
