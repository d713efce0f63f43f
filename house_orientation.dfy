/** The geometry of the manual, click-driven script: angle normalisation, the
    image-plane bearing, the eight-point compass, the vector helpers, and the
    two workflows' computations from the clicked points to a bearing (the
    two-click "vector" workflow and the four-click "frontage" workflow). */
module HouseOrientation {
  import opened Plane

  /** normalize_angle_deg: `a % 360`, then add 360 if negative. */
  function NormalizeAngleDeg(a: real): (r: real)
    ensures 0.0 <= r < 360.0
    ensures IsWhole((a - r) / 360.0)
    ensures r == FloorMod(a, 360.0)
  {
    var m := FloorMod(a, 360.0);
    if m < 0.0 then m + 360.0 else m
  }

  /** The normalised angle is the only value in [0, 360) that differs from
      the input by a whole number of turns. */
  lemma NormalizeAngleDegCharacterised(a: real, r: real)
    ensures r == NormalizeAngleDeg(a) <==> 0.0 <= r < 360.0 && IsWhole((a - r) / 360.0)
  {
    if 0.0 <= r < 360.0 && IsWhole((a - r) / 360.0) {
      var k := ((a - r) / 360.0).Floor;
      assert a == r + 360.0 * k as real;
      FloorModShift(r, 360.0, k);
      FloorModOfResidue(r, 360.0);
    }
  }

  /** Adding whole turns to an angle already in [0, 360) normalises back to it. */
  lemma NormalizeAngleDegWholeTurns(b: real, k: int)
    requires 0.0 <= b < 360.0
    ensures NormalizeAngleDeg(b + 360.0 * k as real) == b
  {
    FloorModShift(b, 360.0, k);
    FloorModOfResidue(b, 360.0);
  }

  /** Normalising twice is normalising once. */
  lemma NormalizeAngleDegIdempotent(a: real)
    ensures NormalizeAngleDeg(NormalizeAngleDeg(a)) == NormalizeAngleDeg(a)
  {
    FloorModOfResidue(NormalizeAngleDeg(a), 360.0);
  }

  /** bearing_from_vector: image-plane bearing of (dx, dy), y pointing down,
      `atan2Deg(y, x)` standing for `math.degrees(math.atan2(y, x))`. */
  function BearingFromVector(atan2Deg: (real, real) -> real, dx: real, dy: real): (b: real)
    ensures 0.0 <= b < 360.0
  {
    NormalizeAngleDeg(atan2Deg(dx, -dy))
  }

  /** Up is north, right is east, down is south and left is west. */
  lemma BearingFromVectorCardinals(atan2Deg: (real, real) -> real, c: real)
    requires Atan2OnAxes(atan2Deg) && c > 0.0
    ensures BearingFromVector(atan2Deg, 0.0, -c) == 0.0
    ensures BearingFromVector(atan2Deg, c, 0.0) == 90.0
    ensures BearingFromVector(atan2Deg, 0.0, c) == 180.0
    ensures BearingFromVector(atan2Deg, -c, 0.0) == 270.0
  {
    NormalizeAngleDegWholeTurns(0.0, 0);
    NormalizeAngleDegWholeTurns(90.0, 0);
    NormalizeAngleDegWholeTurns(180.0, 0);
    NormalizeAngleDegWholeTurns(270.0, -1);
  }

  /** compass_8: sector index `int((b + 22.5) // 45) % 8` into N..NW. */
  function Compass8(bearingDeg: real): (dir: string)
    ensures dir in CompassPoints
  {
    var idx := ((bearingDeg + 22.5) / 45.0).Floor % 8;
    CompassPoints[idx]
  }

  /** A bearing lies in sector k, [45k - 22.5, 45k + 22.5), exactly when the
      shifted quotient floors to k. */
  lemma SectorFloor(b: real, k: int)
    ensures ((b + 22.5) / 45.0).Floor == k <==> 45.0 * k as real - 22.5 <= b < 45.0 * k as real + 22.5
  {
  }

  /** Every bearing in sector k gets the k-th label (counting modulo 8); the
      lower edge of a sector belongs to it. */
  lemma Compass8Sector(b: real, k: int)
    requires 45.0 * k as real - 22.5 <= b < 45.0 * k as real + 22.5
    ensures Compass8(b) == CompassPoints[k % 8]
  {
    SectorFloor(b, k);
  }

  lemma Compass8Examples()
    ensures Compass8(22.5) == "NE"
    ensures Compass8(0.0) == "N"
    ensures Compass8(359.9) == "N"
  {
    Compass8Sector(22.5, 1);
    Compass8Sector(0.0, 0);
    Compass8Sector(359.9, 8);
  }

  /** The label repeats every full turn. */
  lemma Compass8Periodic(b: real)
    ensures Compass8(b + 360.0) == Compass8(b)
  {
    Compass8WholeTurns(b, 1);
  }

  lemma Compass8WholeTurns(b: real, w: int)
    ensures Compass8(b + 360.0 * w as real) == Compass8(b)
  {
    var k := ((b + 22.5) / 45.0).Floor;
    SectorFloor(b, k);
    Compass8Sector(b + 360.0 * w as real, k + 8 * w);
    assert (k + 8 * w) % 8 == k % 8;
  }

  /** Normalising a bearing first does not change its label. */
  lemma Compass8OfNormalized(a: real)
    ensures Compass8(NormalizeAngleDeg(a)) == Compass8(a)
  {
    var r := NormalizeAngleDeg(a);
    var w := ((a - r) / 360.0).Floor;
    assert a == r + 360.0 * w as real;
    Compass8WholeTurns(r, w);
  }

  // ---------- Vector helpers ----------

  /** midpoint: the point as far from p1 as p2 is from it. */
  function Midpoint(p1: Vec, p2: Vec): (m: Vec)
    ensures Subtract(m, p1) == Subtract(p2, m)
  {
    Vec((p1.x + p2.x) / 2.0, (p1.y + p2.y) / 2.0)
  }

  /** subtract: the vector from p0 to p1. */
  function Subtract(p1: Vec, p0: Vec): (v: Vec)
    ensures Vec(p0.x + v.x, p0.y + v.y) == p1
    ensures v == Zero <==> p1 == p0
  {
    Vec(p1.x - p0.x, p1.y - p0.y)
  }

  function Dot(u: Vec, v: Vec): real {
    u.x * v.x + u.y * v.y
  }

  /** The dot product is symmetric, and the squared lengths of u + v and
      u - v determine it (the polarisation identity). */
  lemma DotPolarisation(u: Vec, v: Vec)
    ensures Dot(u, v) == Dot(v, u)
    ensures 4.0 * Dot(u, v) == SqLen(Vec(u.x + v.x, u.y + v.y)) - SqLen(Vec(u.x - v.x, u.y - v.y))
  {
  }

  /** perp: a quarter turn, `(x, y) -> (-y, x)`: orthogonal to v, same length. */
  function Perp(v: Vec): (p: Vec)
    ensures Dot(v, p) == 0.0
    ensures SqLen(p) == SqLen(v)
    ensures p == Zero <==> v == Zero
  {
    Vec(-v.y, v.x)
  }

  /** The quarter turn is clockwise on the screen: with y pointing down,
      right turns into down. */
  lemma PerpTurnsRightToDown()
    ensures Perp(Vec(1.0, 0.0)) == Vec(0.0, 1.0)
  {
  }

  /** Two quarter turns reverse a vector. */
  lemma PerpPerp(v: Vec)
    ensures Perp(Perp(v)) == Scale(v, -1.0)
  {
  }

  function Scale(v: Vec, s: real): Vec {
    Vec(v.x * s, v.y * s)
  }

  /** The dot product of s·v with v is s times v's squared length, and s·v
      is zero exactly when s or v is. */
  lemma ScaleProperties(v: Vec, s: real)
    ensures Dot(Scale(v, s), v) == s * SqLen(v)
    ensures Scale(v, s) == Zero <==> s == 0.0 || v == Zero
  {
    if s != 0.0 && v != Zero {
      if v.x != 0.0 {
        MulNonZero(v.x, s);
      } else {
        MulNonZero(v.y, s);
      }
    }
  }

  lemma MulNonZero(a: real, b: real)
    requires a != 0.0 && b != 0.0
    ensures a * b != 0.0
  {
  }

  lemma ScaleZero(c: real)
    ensures Scale(Zero, c) == Zero
  {
  }

  /** Reversing a vector negates its dot products. */
  lemma DotReversed(v: Vec, t: Vec)
    ensures Dot(Scale(v, -1.0), t) == -Dot(v, t)
  {
  }

  /** `hypot(v)` stands for `math.hypot(v[0], v[1])`, the Euclidean length.
      What the model relies on: it is non-negative and zero only for the zero
      vector, it scales with non-negative factors, and a quarter turn keeps it. */
  ghost predicate IsHypot(hypot: Vec -> real) {
    && (forall v :: 0.0 <= hypot(v) && (hypot(v) == 0.0 <==> v == Zero))
    && (forall v, c {:trigger Scale(v, c)} :: c >= 0.0 ==> hypot(Scale(v, c)) == c * hypot(v))
    && (forall v {:trigger Perp(v)} :: hypot(Perp(v)) == hypot(v))
  }

  /** Reversing a vector keeps its length. */
  lemma HypotReversed(hypot: Vec -> real, v: Vec)
    requires IsHypot(hypot)
    ensures hypot(Scale(v, -1.0)) == hypot(v)
  {
    PerpPerp(v);
    assert hypot(Perp(Perp(v))) == hypot(Perp(v));
  }

  /** unit: v divided by its length, or (0, 0) when that length is 0. The
      result is zero exactly for the zero vector, and otherwise a positive
      multiple of v of length one. */
  function Unit(hypot: Vec -> real, v: Vec): (u: Vec)
    requires IsHypot(hypot)
    ensures u == Zero <==> v == Zero
    ensures v != Zero ==> hypot(u) == 1.0
    ensures v != Zero ==> exists c: real :: c > 0.0 && u == Scale(v, c)
  {
    var n := hypot(v);
    if n != 0.0 then
      DivIsScale(v, n);
      assert hypot(Scale(v, 1.0 / n)) == (1.0 / n) * n;
      Vec(v.x / n, v.y / n)
    else
      Zero
  }

  lemma DivIsScale(v: Vec, n: real)
    requires n > 0.0
    ensures 1.0 / n > 0.0
    ensures (1.0 / n) * n == 1.0
    ensures Vec(v.x / n, v.y / n) == Scale(v, 1.0 / n)
  {
  }

  /** A vector that unit already returned is returned unchanged. */
  lemma UnitIdempotent(hypot: Vec -> real, v: Vec)
    requires IsHypot(hypot)
    ensures Unit(hypot, Unit(hypot, v)) == Unit(hypot, v)
  {
    var u := Unit(hypot, v);
    if v != Zero {
      assert hypot(u) == 1.0;
      assert Vec(u.x / 1.0, u.y / 1.0) == u;
    }
  }

  /** unit commutes with reversal. */
  lemma UnitReversed(hypot: Vec -> real, v: Vec)
    requires IsHypot(hypot)
    ensures Unit(hypot, Scale(v, -1.0)) == Scale(Unit(hypot, v), -1.0)
  {
    var n := hypot(v);
    HypotReversed(hypot, v);
    if n != 0.0 {
      assert (-v.x) / n == -(v.x / n) && (-v.y) / n == -(v.y / n);
    }
  }

  /** unit commutes with a quarter turn. */
  lemma UnitPerp(hypot: Vec -> real, v: Vec)
    requires IsHypot(hypot)
    ensures Unit(hypot, Perp(v)) == Perp(Unit(hypot, v))
  {
    var n := hypot(v);
    assert hypot(Perp(v)) == n;
    if n != 0.0 {
      assert (-v.y) / n == -(v.y / n);
    }
  }

  // ---------- Workflows ----------

  /** workflow_vector (after the two clicks): the bearing of the vector from
      the house front p0 toward the street point p1, and its label. */
  function WorkflowVector(atan2Deg: (real, real) -> real, p0: Vec, p1: Vec): (res: (real, string))
    ensures 0.0 <= res.0 < 360.0
    ensures res.1 in CompassPoints
    ensures var v := Subtract(p1, p0); res.0 == BearingFromVector(atan2Deg, v.x, v.y)
    ensures res.1 == Compass8(res.0)
  {
    var v := Subtract(p1, p0);
    var b := BearingFromVector(atan2Deg, v.x, v.y);
    (b, Compass8(b))
  }

  /** Only the offset between the two clicks matters. */
  lemma WorkflowVectorTranslation(atan2Deg: (real, real) -> real, p0: Vec, p1: Vec, o: Vec)
    ensures WorkflowVector(atan2Deg, Vec(p0.x + o.x, p0.y + o.y), Vec(p1.x + o.x, p1.y + o.y))
         == WorkflowVector(atan2Deg, p0, p1)
  {
    assert Subtract(Vec(p1.x + o.x, p1.y + o.y), Vec(p0.x + o.x, p0.y + o.y)) == Subtract(p1, p0);
  }

  /** The intermediate values of workflow_frontage, named as in the script. */
  datatype Facing = Facing(
    fU: Vec,        // unit frontage direction
    nLeft: Vec,     // quarter turn of fU
    nRight: Vec,    // the opposite normal
    fm: Vec,        // frontage midpoint
    sm: Vec,        // street midpoint
    toStreet: Vec,  // unit direction from fm toward sm
    nFace: Vec)     // the normal chosen as the facing direction

  /** The normal of the two with the larger dot product with t; `a` on a tie. */
  function PickFacing(a: Vec, b: Vec, t: Vec): (n: Vec)
    ensures n == a || n == b
    ensures Dot(n, t) >= Dot(a, t) && Dot(n, t) >= Dot(b, t)
    ensures Dot(a, t) == Dot(b, t) ==> n == a
  {
    if Dot(a, t) >= Dot(b, t) then a else b
  }

  /** The straight-line part of workflow_frontage: frontage clicks h0, h1 and
      street clicks s0, s1 to the chosen facing normal. */
  function ResolveFacing(hypot: Vec -> real, h0: Vec, h1: Vec, s0: Vec, s1: Vec): (r: Facing)
    requires IsHypot(hypot)
    ensures r.nLeft == Perp(r.fU)
    ensures r.nRight == Scale(r.nLeft, -1.0)
    ensures r.nFace == PickFacing(r.nLeft, r.nRight, r.toStreet)
    ensures r.fm == Midpoint(h0, h1) && r.sm == Midpoint(s0, s1)
  {
    var f := Subtract(h1, h0);
    var fU := Unit(hypot, f);
    var nLeft := Unit(hypot, Perp(fU));
    var nRight := Unit(hypot, Scale(nLeft, -1.0));
    var fm := Midpoint(h0, h1);
    var sm := Midpoint(s0, s1);
    var toStreet := Unit(hypot, Subtract(sm, fm));
    var nFace := PickFacing(nLeft, nRight, toStreet);
    UnitPerp(hypot, f);
    UnitIdempotent(hypot, f);
    UnitPerp(hypot, fU);
    UnitIdempotent(hypot, Perp(f));
    UnitReversed(hypot, nLeft);
    UnitIdempotent(hypot, Perp(fU));
    Facing(fU, nLeft, nRight, fm, sm, toStreet, nFace)
  }

  /** The chosen normal never points away from the street, and points
      strictly toward it unless the street midpoint lies on the frontage's
      line (or on its midpoint). */
  lemma FacingTowardStreet(hypot: Vec -> real, h0: Vec, h1: Vec, s0: Vec, s1: Vec)
    requires IsHypot(hypot)
    ensures var r := ResolveFacing(hypot, h0, h1, s0, s1);
      && Dot(r.nFace, r.toStreet) >= 0.0
      && (Dot(r.nLeft, r.toStreet) != 0.0 ==> Dot(r.nFace, r.toStreet) > 0.0)
  {
    var r := ResolveFacing(hypot, h0, h1, s0, s1);
    DotReversed(r.nLeft, r.toStreet);
  }

  /** A tie between the two normals happens exactly when the direction to
      the street is perpendicular to them, and it resolves to n_left. */
  lemma FacingTieIsLeft(hypot: Vec -> real, h0: Vec, h1: Vec, s0: Vec, s1: Vec)
    requires IsHypot(hypot)
    ensures var r := ResolveFacing(hypot, h0, h1, s0, s1);
      && (Dot(r.nLeft, r.toStreet) == Dot(r.nRight, r.toStreet) <==> Dot(r.nLeft, r.toStreet) == 0.0)
      && (Dot(r.nLeft, r.toStreet) == 0.0 ==> r.nFace == r.nLeft)
  {
    var r := ResolveFacing(hypot, h0, h1, s0, s1);
    DotReversed(r.nLeft, r.toStreet);
  }

  /** Away from a tie, the choice does not depend on which normal is called
      left and which right. */
  lemma FacingNamingIrrelevant(n: Vec, t: Vec)
    requires Dot(n, t) != 0.0
    ensures PickFacing(n, Scale(n, -1.0), t) == PickFacing(Scale(n, -1.0), n, t)
  {
    DotReversed(n, t);
  }

  /** For a proper frontage the chosen normal is a unit vector perpendicular
      to the frontage. */
  lemma FacingIsFrontageNormal(hypot: Vec -> real, h0: Vec, h1: Vec, s0: Vec, s1: Vec)
    requires IsHypot(hypot) && h0 != h1
    ensures var r := ResolveFacing(hypot, h0, h1, s0, s1);
      && Dot(r.nFace, Subtract(h1, h0)) == 0.0
      && hypot(r.nFace) == 1.0
  {
    var r := ResolveFacing(hypot, h0, h1, s0, s1);
    var f := Subtract(h1, h0);
    var c :| c > 0.0 && r.fU == Scale(f, c);
    assert Dot(r.nLeft, f) == 0.0;
    DotReversed(r.nLeft, f);
    assert hypot(Perp(r.fU)) == hypot(r.fU);
    HypotReversed(hypot, r.nLeft);
  }

  /** Coincident frontage clicks raise no error: every direction derived
      from the frontage is (0, 0). */
  lemma FacingDegenerate(hypot: Vec -> real, h: Vec, s0: Vec, s1: Vec)
    requires IsHypot(hypot)
    ensures var r := ResolveFacing(hypot, h, h, s0, s1);
      r.fU == Zero && r.nLeft == Zero && r.nRight == Zero && r.nFace == Zero
  {
    var r := ResolveFacing(hypot, h, h, s0, s1);
    assert Subtract(h, h) == Zero;
    assert r.fU == Unit(hypot, Zero);
    assert r.nLeft == Perp(Zero);
    ScaleZero(-1.0);
  }

  /** ... and the workflow then reports the bearing of the zero vector as if
      it were a direction. */
  lemma WorkflowFrontageDegenerate(hypot: Vec -> real, atan2Deg: (real, real) -> real, h: Vec, s0: Vec, s1: Vec)
    requires IsHypot(hypot)
    ensures WorkflowFrontage(hypot, atan2Deg, h, h, s0, s1).0 == BearingFromVector(atan2Deg, 0.0, 0.0)
  {
    FacingDegenerate(hypot, h, s0, s1);
  }

  /** workflow_frontage (after the four clicks): the bearing of the chosen
      normal and its label. */
  function WorkflowFrontage(hypot: Vec -> real, atan2Deg: (real, real) -> real,
                            h0: Vec, h1: Vec, s0: Vec, s1: Vec): (res: (real, string))
    requires IsHypot(hypot)
    ensures 0.0 <= res.0 < 360.0
    ensures res.1 in CompassPoints
    ensures var n := ResolveFacing(hypot, h0, h1, s0, s1).nFace;
      res.0 == BearingFromVector(atan2Deg, n.x, n.y)
    ensures res.1 == Compass8(res.0)
  {
    var nFace := ResolveFacing(hypot, h0, h1, s0, s1).nFace;
    var b := BearingFromVector(atan2Deg, nFace.x, nFace.y);
    (b, Compass8(b))
  }

  /** A horizontal frontage with the street below it in the image faces
      south: the chosen normal points straight down ... */
  lemma FrontageFacingDown(hypot: Vec -> real, w: real, s0: Vec, s1: Vec)
    requires IsHypot(hypot)
    requires w > 0.0 && s0.y + s1.y > 0.0
    ensures var r := ResolveFacing(hypot, Vec(0.0, 0.0), Vec(w, 0.0), s0, s1);
      exists c: real :: c > 0.0 && r.nFace == Vec(0.0, c)
  {
    var r := ResolveFacing(hypot, Vec(0.0, 0.0), Vec(w, 0.0), s0, s1);
    var f := Vec(w, 0.0);
    var c :| c > 0.0 && r.fU == Scale(f, c);
    MulPositive(w, c);
    assert r.nLeft == Vec(0.0, w * c);
    var d := Subtract(r.sm, r.fm);
    assert d.y > 0.0;
    var e :| e > 0.0 && r.toStreet == Scale(d, e);
    MulPositive(d.y, e);
    MulPositive(w * c, d.y * e);
    assert Dot(r.nLeft, r.toStreet) == (w * c) * (d.y * e);
    FacingTowardStreet(hypot, Vec(0.0, 0.0), Vec(w, 0.0), s0, s1);
    assert r.nFace == r.nLeft;
  }

  /** ... and the workflow reports (180, "S"). */
  lemma FrontageFacingSouth(hypot: Vec -> real, atan2Deg: (real, real) -> real, w: real, s0: Vec, s1: Vec)
    requires IsHypot(hypot) && Atan2OnAxes(atan2Deg)
    requires w > 0.0 && s0.y + s1.y > 0.0
    ensures WorkflowFrontage(hypot, atan2Deg, Vec(0.0, 0.0), Vec(w, 0.0), s0, s1) == (180.0, "S")
  {
    FrontageFacingDown(hypot, w, s0, s1);
    var n := ResolveFacing(hypot, Vec(0.0, 0.0), Vec(w, 0.0), s0, s1).nFace;
    var c :| c > 0.0 && n == Vec(0.0, c);
    BearingFromVectorCardinals(atan2Deg, c);
    Compass8Sector(180.0, 4);
  }
}
