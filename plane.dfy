/** Shared vocabulary of the three orientation scripts: planar points and
    vectors over the reals, Python's floored real modulo, the Euclidean
    length as an abstract function, and the fixed eight-point compass table. */
module Plane {

  /** A point or a vector (dx, dy) in one coordinate plane: image pixels
      (y down) or Web Mercator metres (y north). The plane is not tagged. */
  datatype Vec = Vec(x: real, y: real)

  const Zero := Vec(0.0, 0.0)

  datatype Option<T> = None | Some(value: T)

  /** The eight compass labels in clockwise order from north. */
  const CompassPoints: seq<string> := ["N", "NE", "E", "SE", "S", "SW", "W", "NW"]

  function SqLen(v: Vec): real {
    v.x * v.x + v.y * v.y
  }

  lemma MulPositive(a: real, b: real)
    requires a > 0.0 && b > 0.0
    ensures a * b > 0.0
  {
  }

  lemma MulLeftMono(m: real, a: real, b: real)
    requires m >= 0.0 && a <= b
    ensures m * a <= m * b
  {
    assert m * b - m * a == m * (b - a);
    if m > 0.0 && b - a > 0.0 {
      MulPositive(m, b - a);
    }
  }

  /** x is a whole number. */
  predicate IsWhole(x: real) {
    x.Floor as real == x
  }

  /** Python's `a % m` on floats for m > 0 (floored modulo), over the reals:
      the result lies in [0, m) and differs from `a` by a whole multiple of m. */
  function FloorMod(a: real, m: real): (r: real)
    requires m > 0.0
    ensures 0.0 <= r < m
    ensures IsWhole((a - r) / m)
  {
    var f := (a / m).Floor;
    FloorModBounds(a, m, f);
    a - m * f as real
  }

  lemma FloorModBounds(a: real, m: real, f: int)
    requires m > 0.0 && f == (a / m).Floor
    ensures 0.0 <= a - m * f as real < m
    ensures (a - (a - m * f as real)) / m == f as real
  {
    var q := a / m;
    assert a == m * q;
    var t := q - f as real;
    assert 0.0 <= t < 1.0;
    assert a - m * f as real == m * t;
    MulLeftMono(m, 0.0, t);
    assert m * (1.0 - t) > 0.0 by { MulPositive(m, 1.0 - t); }
  }

  /** Shifting by a whole multiple of m does not change the residue. */
  lemma FloorModShift(a: real, m: real, k: int)
    requires m > 0.0
    ensures FloorMod(a + m * k as real, m) == FloorMod(a, m)
  {
    var q := a / m;
    assert (a + m * k as real) / m == q + k as real;
    assert (q + k as real).Floor == q.Floor + k;
  }

  /** A value already in [0, m) is its own residue. */
  lemma FloorModOfResidue(a: real, m: real)
    requires m > 0.0 && 0.0 <= a < m
    ensures FloorMod(a, m) == a
  {
    var q := a / m;
    assert a == m * q;
    assert 0.0 <= q < 1.0 by {
      if q < 0.0 {
        MulPositive(m, -q);
      } else if q >= 1.0 {
        MulLeftMono(m, 1.0, q);
      }
    }
    assert q.Floor == 0;
  }

  /** degrees(atan2(y, x)) on the four half-axes: 0 along +x, 180 along -x,
      90 along +y and -90 along -y, whatever the distance from the origin. */
  ghost predicate Atan2OnAxes(atan2Deg: (real, real) -> real) {
    && (forall c: real :: c > 0.0 ==> atan2Deg(0.0, c) == 0.0)
    && (forall c: real :: c < 0.0 ==> atan2Deg(0.0, c) == 180.0)
    && (forall c: real :: c > 0.0 ==> atan2Deg(c, 0.0) == 90.0)
    && (forall c: real :: c < 0.0 ==> atan2Deg(c, 0.0) == -90.0)
  }
}
