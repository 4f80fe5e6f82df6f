/**
 * Plane geometry shared by the Voronoi edge model: points, the three kinds of
 * generator (site), squares and square roots over the reals.
 *
 * C++ `double` is modelled as `real`; rounding is not modelled.
 */
module Geometry {

  /** A 2D coordinate, value semantics. */
  datatype Point = Point(x: real, y: real)

  const Origin: Point := Point(0.0, 0.0)

  /**
   * A generator of the diagram. A line site is the implicit line
   * a*x + b*y + c == 0 (normally with a*a + b*b == 1); an arc site is a
   * circle arc given by its centre and radius.
   */
  datatype Site =
    | PointSite(x: real, y: real)
    | LineSite(a: real, b: real, c: real)
    | ArcSite(cx: real, cy: real, r: real)
  {
    predicate IsPoint() { PointSite? }
    predicate IsLine() { LineSite? }
    predicate IsArc() { ArcSite? }

    /** The coefficients of a line site form a unit normal. */
    predicate IsNormalized() { LineSite? && Sq(a) + Sq(b) == 1.0 }
  }

  /** `sq` of the edge record. */
  function Sq(v: real): real
  {
    v * v
  }

  /** r is the non-negative square root of v. */
  predicate IsRoot(r: real, v: real) {
    r >= 0.0 && Sq(r) == v
  }

  /** Whether v has a non-negative square root among Dafny's reals. */
  ghost predicate HasSqrt(v: real) {
    exists r :: IsRoot(r, v)
  }

  /**
   * The non-negative square root of v (`sqrt` of the C library). Every
   * non-negative real has one, but Dafny's arithmetic cannot prove that, so
   * the defining property is promised where a root is known to exist.
   */
  ghost function Sqrt(v: real): (r: real)
    ensures HasSqrt(v) ==> IsRoot(r, v)
    ensures !HasSqrt(v) ==> r == 0.0
  {
    if v == 0.0 then
      assert IsRoot(0.0, 0.0);
      0.0
    else if HasSqrt(v) then
      var r :| IsRoot(r, v); r
    else
      0.0
  }

  /** The root of zero is zero. */
  lemma SqrtZero()
    ensures HasSqrt(0.0) && Sqrt(0.0) == 0.0
  {
    assert IsRoot(0.0, 0.0);
  }

  /** Squared Euclidean distance between two points. */
  function SqDist(p: Point, q: Point): real
  {
    Sq(p.x - q.x) + Sq(p.y - q.y)
  }

  /**
   * The left-hand side a*x + b*y + c of a line's equation at q: for a
   * normalized line, the signed distance of q from it.
   */
  function LineValue(l: Site, q: Point): real
    requires l.IsLine()
  {
    l.a * q.x + l.b * q.y + l.c
  }
}
