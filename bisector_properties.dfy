/**
 * What the coefficients written by the bisector setters mean: the
 * line-line bisector is a straight line of points equally far from both
 * lines, the point-line bisector is a parabola of points equally far from the
 * point and the line, and every evaluated point lies on the curve the formula
 * describes. The module also holds two kinds of fact about the records that
 * are not about bisectors: the bounds of the slot writes (`StoreInOrder`,
 * `LlYAsWrittenOverruns`, `LlYWritesStoreLlY`) and the order on faces
 * (`FaceLessStrictOrder`, `FaceLessByIndex`).
 */
module BisectorProperties {
  import opened Geometry
  import opened VoronoiGraph

  // ---------------------------------------------------------------------
  // Arithmetic helpers
  // ---------------------------------------------------------------------

  /** Rotating (s, r) into the frame (a, b), (b, -a) scales lengths by |(a, b)|. */
  lemma FrameIdentity(s: real, r: real, a: real, b: real)
    ensures Sq(s * a + r * b) + Sq(s * b - r * a) == (Sq(s) + Sq(r)) * (Sq(a) + Sq(b))
  {
  }

  lemma ScaleByOne(u: real, v: real)
    requires u == 1.0
    ensures u * v == v
  {
  }

  // ---------------------------------------------------------------------
  // The evaluation formula
  // ---------------------------------------------------------------------

  /**
   * Where the bisector is reached, each evaluated coordinate v solves the
   * curve's implicit equation (v - base)^2 == c3^2 * discr, and lies on the
   * `+` side of it: (v - base) has the sign of c3.
   */
  lemma EvaluateSolvesCurve(cx: seq<real>, cy: seq<real>, t: real)
    requires |cx| == Slots && |cy| == Slots
    requires Reached(cx, cy, t) && HasSqrt(Discr(cx, t)) && HasSqrt(Discr(cy, t))
    ensures var p := Evaluate(cx, cy, t);
      && Sq(p.x - Base(cx, t)) == Sq(cx[3]) * Discr(cx, t)
      && Sq(p.y - Base(cy, t)) == Sq(cy[3]) * Discr(cy, t)
      && (p.x - Base(cx, t)) * cx[3] >= 0.0
      && (p.y - Base(cy, t)) * cy[3] >= 0.0
  {
    var rx, ry := Sqrt(Discr(cx, t)), Sqrt(Discr(cy, t));
    SquareOfProduct(cx[3], rx);
    SquareOfProduct(cy[3], ry);
    ProductSign(cx[3], rx);
    ProductSign(cy[3], ry);
  }

  lemma SquareOfProduct(u: real, v: real)
    ensures Sq(u * v) == Sq(u) * Sq(v)
  {
  }

  lemma ProductSign(u: real, r: real)
    requires r >= 0.0
    ensures (u * r) * u >= 0.0
  {
    assert (u * r) * u == Sq(u) * r;
  }

  /** Outside the curve's real domain `point(t)` gives the origin. */
  lemma EvaluateUnreached(cx: seq<real>, cy: seq<real>, t: real)
    requires |cx| == Slots && |cy| == Slots
    requires Discr(cx, t) < 0.0 || Discr(cy, t) < 0.0
    ensures Evaluate(cx, cy, t) == Origin
  {
  }

  // ---------------------------------------------------------------------
  // Line-line bisector
  // ---------------------------------------------------------------------

  /** Coefficients of a straight bisector: only the constant c0 and the slope c2 are nonzero. */
  predicate IsStraight(c: seq<real>) {
    && |c| == Slots
    && c[1] == 0.0 && c[3] == 0.0 && c[4] == 0.0 && c[5] == 0.0 && c[6] == 0.0 && c[7] == 0.0
  }

  /** A straight bisector is reached everywhere, and `point(t)` is (x0 - x2*t, y0 - y2*t). */
  lemma EvaluateStraight(cx: seq<real>, cy: seq<real>, t: real)
    requires IsStraight(cx) && IsStraight(cy)
    ensures Discr(cx, t) == 0.0 && Discr(cy, t) == 0.0 && Reached(cx, cy, t)
    ensures Evaluate(cx, cy, t) == Point(cx[0] - cx[2] * t, cy[0] - cy[2] * t)
  {
    assert Sq(0.0 + 0.0 * t) == 0.0;
    SqrtZero();
  }

  /**
   * The line-line coefficients, corrected and as written, are straight. They
   * share the start point (x0, y0) with x0 * delta == b1*c2 - b2*c1 and
   * y0 * delta == a2*c1 - a1*c2; the corrected slopes times delta are the
   * source's undivided slopes -(b2 - b1) and -(a1 - a2).
   */
  lemma LlIsStraight(l1: Site, l2: Site)
    requires l1.IsLine() && l2.IsLine() && Delta(l1, l2) != 0.0
    ensures IsStraight(LlX(l1, l2)) && IsStraight(LlY(l1, l2))
    ensures IsStraight(LlXAsWritten(l1, l2)) && IsStraight(LlYAsWritten(l1, l2))
    ensures LlX(l1, l2)[0] * Delta(l1, l2) == l1.b * l2.c - l2.b * l1.c
    ensures LlY(l1, l2)[0] * Delta(l1, l2) == l2.a * l1.c - l1.a * l2.c
    ensures LlX(l1, l2)[2] * Delta(l1, l2) == -(l2.b - l1.b)
    ensures LlY(l1, l2)[2] * Delta(l1, l2) == -(l1.a - l2.a)
    ensures LlXAsWritten(l1, l2)[0] == LlX(l1, l2)[0] && LlYAsWritten(l1, l2)[0] == LlY(l1, l2)[0]
    ensures LlXAsWritten(l1, l2)[2] == -(l2.b - l1.b) && LlYAsWritten(l1, l2)[2] == -(l1.a - l2.a)
  {
  }

  /**
   * Every discriminant of a line-line bisector, corrected and as written,
   * vanishes for every t, so the bisector is reached everywhere.
   */
  lemma LlDiscriminantsVanish(l1: Site, l2: Site, t: real)
    requires l1.IsLine() && l2.IsLine() && Delta(l1, l2) != 0.0
    ensures Discr(LlX(l1, l2), t) == 0.0 && Discr(LlY(l1, l2), t) == 0.0
    ensures Discr(LlXAsWritten(l1, l2), t) == 0.0 && Discr(LlYAsWritten(l1, l2), t) == 0.0
    ensures Reached(LlX(l1, l2), LlY(l1, l2), t)
    ensures Reached(LlXAsWritten(l1, l2), LlYAsWritten(l1, l2), t)
  {
    LlIsStraight(l1, l2);
    EvaluateStraight(LlX(l1, l2), LlY(l1, l2), t);
    EvaluateStraight(LlXAsWritten(l1, l2), LlYAsWritten(l1, l2), t);
  }

  /**
   * The line-line bisector, corrected and as written, is the straight line
   * through its start point (x0, y0) moving by -(x2, y2) per unit of t.
   */
  lemma LlPointIsLinear(l1: Site, l2: Site, t: real)
    requires l1.IsLine() && l2.IsLine() && Delta(l1, l2) != 0.0
    ensures var cx, cy := LlX(l1, l2), LlY(l1, l2);
      Evaluate(cx, cy, t) == Point(cx[0] - cx[2] * t, cy[0] - cy[2] * t)
    ensures var cx, cy := LlXAsWritten(l1, l2), LlYAsWritten(l1, l2);
      Evaluate(cx, cy, t) == Point(cx[0] - cx[2] * t, cy[0] - cy[2] * t)
  {
    LlIsStraight(l1, l2);
    EvaluateStraight(LlX(l1, l2), LlY(l1, l2), t);
    EvaluateStraight(LlXAsWritten(l1, l2), LlYAsWritten(l1, l2), t);
  }

  /** The start point of the line-line bisector lies on both lines. */
  lemma LlStartOnBothLines(l1: Site, l2: Site)
    requires l1.IsLine() && l2.IsLine() && Delta(l1, l2) != 0.0
    ensures var o := Point(LlX(l1, l2)[0], LlY(l1, l2)[0]);
      LineValue(l1, o) == 0.0 && LineValue(l2, o) == 0.0
  {
    LlIsStraight(l1, l2);
    CrossingOnBoth(l1.a, l1.b, l1.c, l2.a, l2.b, l2.c, Delta(l1, l2), LlX(l1, l2)[0], LlY(l1, l2)[0]);
  }

  /**
   * Cramer's rule: with d the determinant of the normals, the point (ox, oy)
   * with ox * d == b1*c2 - b2*c1 and oy * d == a2*c1 - a1*c2 lies on both lines.
   */
  lemma CrossingOnBoth(a1: real, b1: real, c1: real, a2: real, b2: real, c2: real, d: real, ox: real, oy: real)
    requires d == a1 * b2 - b1 * a2 && d != 0.0
    requires ox * d == b1 * c2 - b2 * c1 && oy * d == a2 * c1 - a1 * c2
    ensures a1 * ox + b1 * oy + c1 == 0.0 && a2 * ox + b2 * oy + c2 == 0.0
  {
    assert (a1 * ox + b1 * oy + c1) * d == a1 * (ox * d) + b1 * (oy * d) + c1 * d == 0.0;
    assert (a2 * ox + b2 * oy + c2) * d == a2 * (ox * d) + b2 * (oy * d) + c2 * d == 0.0;
  }

  /** Moving (ox, oy) by t along -(u, v) changes a line's value by -t * (a*u + b*v). */
  lemma LineAlong(a: real, b: real, c: real, ox: real, oy: real, u: real, v: real, t: real)
    ensures a * (ox - u * t) + b * (oy - v * t) + c == (a * ox + b * oy + c) - t * (a * u + b * v)
  {
  }

  /** The undivided direction (b2 - b1, a1 - a2) has value d against both normals. */
  lemma LlDirectionAsWritten(a1: real, b1: real, a2: real, b2: real)
    ensures a1 * (b2 - b1) + b1 * (a1 - a2) == a1 * b2 - b1 * a2
    ensures a2 * (b2 - b1) + b2 * (a1 - a2) == a1 * b2 - b1 * a2
  {
  }

  /**
   * The crossing (ox, oy) of two lines moved by t along -(x2, y2), where
   * (x2, y2) * d == -(b2 - b1, a1 - a2), has the value t in both equations.
   */
  lemma CrossingMovedByOffset(a1: real, b1: real, c1: real, a2: real, b2: real, c2: real, d: real,
                              ox: real, oy: real, x2: real, y2: real, t: real)
    requires d == a1 * b2 - b1 * a2 && d != 0.0
    requires ox * d == b1 * c2 - b2 * c1 && oy * d == a2 * c1 - a1 * c2
    requires x2 * d == -(b2 - b1) && y2 * d == -(a1 - a2)
    ensures a1 * (ox - x2 * t) + b1 * (oy - y2 * t) + c1 == t
    ensures a2 * (ox - x2 * t) + b2 * (oy - y2 * t) + c2 == t
  {
    CrossingOnBoth(a1, b1, c1, a2, b2, c2, d, ox, oy);
    LlDirectionAsWritten(a1, b1, a2, b2);
    assert (a1 * x2 + b1 * y2) * d == a1 * (x2 * d) + b1 * (y2 * d) == a1 * -(b2 - b1) + b1 * -(a1 - a2) == -d;
    assert (a2 * x2 + b2 * y2) * d == a2 * (x2 * d) + b2 * (y2 * d) == a2 * -(b2 - b1) + b2 * -(a1 - a2) == -d;
    LineAlong(a1, b1, c1, ox, oy, x2, y2, t);
    LineAlong(a2, b2, c2, ox, oy, x2, y2, t);
  }

  /**
   * The same moved by t along the undivided (b2 - b1, a1 - a2): the value is
   * d * t in both equations.
   */
  lemma CrossingMovedAsWritten(a1: real, b1: real, c1: real, a2: real, b2: real, c2: real, d: real,
                               ox: real, oy: real, t: real)
    requires d == a1 * b2 - b1 * a2 && d != 0.0
    requires ox * d == b1 * c2 - b2 * c1 && oy * d == a2 * c1 - a1 * c2
    ensures a1 * (ox - -(b2 - b1) * t) + b1 * (oy - -(a1 - a2) * t) + c1 == d * t
    ensures a2 * (ox - -(b2 - b1) * t) + b2 * (oy - -(a1 - a2) * t) + c2 == d * t
  {
    CrossingOnBoth(a1, b1, c1, a2, b2, c2, d, ox, oy);
    LineAlong(a1, b1, c1, ox, oy, -(b2 - b1), -(a1 - a2), t);
    LineAlong(a2, b2, c2, ox, oy, -(b2 - b1), -(a1 - a2), t);
    LlDirectionAsWritten(a1, b1, a2, b2);
  }

  /**
   * A straight bisector whose start point is the crossing of two lines and
   * whose slope times delta is -(b2 - b1, a1 - a2) has, at t, the value t in
   * both line equations.
   */
  lemma StraightEquidistant(l1: Site, l2: Site, cx: seq<real>, cy: seq<real>, t: real)
    requires l1.IsLine() && l2.IsLine() && Delta(l1, l2) != 0.0
    requires IsStraight(cx) && IsStraight(cy)
    requires cx[0] * Delta(l1, l2) == l1.b * l2.c - l2.b * l1.c
    requires cy[0] * Delta(l1, l2) == l2.a * l1.c - l1.a * l2.c
    requires cx[2] * Delta(l1, l2) == -(l2.b - l1.b) && cy[2] * Delta(l1, l2) == -(l1.a - l2.a)
    ensures var q := Evaluate(cx, cy, t);
      LineValue(l1, q) == t && LineValue(l2, q) == t
  {
    EvaluateStraight(cx, cy, t);
    CrossingMovedByOffset(l1.a, l1.b, l1.c, l2.a, l2.b, l2.c, Delta(l1, l2), cx[0], cy[0], cx[2], cy[2], t);
  }

  /**
   * The same with the undivided slope -(b2 - b1, a1 - a2): the value at t is
   * delta * t in both line equations.
   */
  lemma StraightEquidistantAsWritten(l1: Site, l2: Site, cx: seq<real>, cy: seq<real>, t: real)
    requires l1.IsLine() && l2.IsLine() && Delta(l1, l2) != 0.0
    requires IsStraight(cx) && IsStraight(cy)
    requires cx[0] * Delta(l1, l2) == l1.b * l2.c - l2.b * l1.c
    requires cy[0] * Delta(l1, l2) == l2.a * l1.c - l1.a * l2.c
    requires cx[2] == -(l2.b - l1.b) && cy[2] == -(l1.a - l2.a)
    ensures var q := Evaluate(cx, cy, t);
      LineValue(l1, q) == Delta(l1, l2) * t && LineValue(l2, q) == Delta(l1, l2) * t
  {
    EvaluateStraight(cx, cy, t);
    CrossingMovedAsWritten(l1.a, l1.b, l1.c, l2.a, l2.b, l2.c, Delta(l1, l2), cx[0], cy[0], t);
  }

  /**
   * Every point of the line-line bisector at offset t has the value t in
   * both line equations: for normalized lines it is at signed distance t
   * from both, so the edge is their angle bisector and t is the offset.
   */
  lemma LlPointEquidistant(l1: Site, l2: Site, t: real)
    requires l1.IsLine() && l2.IsLine() && Delta(l1, l2) != 0.0
    ensures var q := Evaluate(LlX(l1, l2), LlY(l1, l2), t);
      LineValue(l1, q) == t && LineValue(l2, q) == t
  {
    LlIsStraight(l1, l2);
    StraightEquidistant(l1, l2, LlX(l1, l2), LlY(l1, l2), t);
  }

  /**
   * As written, the point at parameter t has the value delta * t in both
   * line equations: for normalized lines it is at offset |delta| * t, not t.
   */
  lemma LlPointEquidistantAsWritten(l1: Site, l2: Site, t: real)
    requires l1.IsLine() && l2.IsLine() && Delta(l1, l2) != 0.0
    ensures var q := Evaluate(LlXAsWritten(l1, l2), LlYAsWritten(l1, l2), t);
      LineValue(l1, q) == Delta(l1, l2) * t && LineValue(l2, q) == Delta(l1, l2) * t
  {
    LlIsStraight(l1, l2);
    StraightEquidistantAsWritten(l1, l2, LlXAsWritten(l1, l2), LlYAsWritten(l1, l2), t);
  }

  /** The lines x == 0 and 0.6x + 0.8y == 0. */
  predicate CrossingInput(l1: Site, l2: Site) {
    && l1.IsLine() && l1.a == 1.0 && l1.b == 0.0 && l1.c == 0.0
    && l2.IsLine() && l2.a == 0.6 && l2.b == 0.8 && l2.c == 0.0
  }

  lemma CrossingInputMeasures(l1: Site, l2: Site)
    requires CrossingInput(l1, l2)
    ensures l1.IsNormalized() && l2.IsNormalized() && Delta(l1, l2) == 0.8
  {
  }

  /**
   * Counterexample to the source's line-line offset: for any two lines with
   * delta 0.8 (x == 0 and 0.6x + 0.8y == 0 are such a normalized pair), the
   * source's point at t == 1 has the value 0.8 in both line equations, so it
   * is at distance 0.8 from both; the corrected point is at distance 1.
   */
  lemma LlOffsetsAtOne(l1: Site, l2: Site)
    requires l1.IsLine() && l2.IsLine() && Delta(l1, l2) == 0.8
    ensures var q := Evaluate(LlXAsWritten(l1, l2), LlYAsWritten(l1, l2), 1.0);
      LineValue(l1, q) == 0.8 && LineValue(l2, q) == 0.8
    ensures var q := Evaluate(LlX(l1, l2), LlY(l1, l2), 1.0);
      LineValue(l1, q) == 1.0 && LineValue(l2, q) == 1.0
  {
    LlPointEquidistantAsWritten(l1, l2, 1.0);
    LlPointEquidistant(l1, l2, 1.0);
  }

  // ---------------------------------------------------------------------
  // Point-line bisector
  // ---------------------------------------------------------------------

  /**
   * The two axes of a point-line bisector share slots 4..7, so they have
   * one discriminant, alfa3 * (2t - alfa3): both coordinates are reached or
   * neither is.
   */
  lemma PlDiscriminant(p: Site, l: Site, t: real)
    requires p.IsPoint() && l.IsLine()
    ensures Discr(PlX(p, l), t) == Discr(PlY(p, l), t) == Discr(PlYAsWritten(p, l), t)
    ensures Discr(PlX(p, l), t) == Alfa3(p, l) * (2.0 * t - Alfa3(p, l))
    ensures Reached(PlX(p, l), PlY(p, l), t) <==> Alfa3(p, l) * (2.0 * t - Alfa3(p, l)) >= 0.0
  {
  }

  /**
   * The point (px, py) + (t - alfa3)(a, b) + r(b, -a): moved by t - alfa3
   * along the normal (a, b) and by r along the line.
   */
  function ParabolaAt(px: real, py: real, a: real, b: real, alfa3: real, t: real, r: real): Point
  {
    Point(px + (t - alfa3) * a + r * b, py + (t - alfa3) * b - r * a)
  }

  /** The closed form of a point-line bisector point with root r. */
  function PlPoint(p: Site, l: Site, t: real, r: real): Point
    requires p.IsPoint() && l.IsLine()
  {
    ParabolaAt(p.x, p.y, l.a, l.b, Alfa3(p, l), t, r)
  }

  /** The same with the source's y[3]: the root term moves along (b, a). */
  function PlPointAsWritten(p: Site, l: Site, t: real, r: real): Point
    requires p.IsPoint() && l.IsLine()
  {
    ParabolaAtAsWritten(p.x, p.y, l.a, l.b, Alfa3(p, l), t, r)
  }

  /** ParabolaAt with the root term along (b, a). */
  function ParabolaAtAsWritten(px: real, py: real, a: real, b: real, alfa3: real, t: real, r: real): Point
  {
    Point(px + (t - alfa3) * a + r * b, py + (t - alfa3) * b + r * a)
  }

  /** Where reached, `point(t)` of the point-line coefficients is the closed form. */
  lemma PlEvaluate(p: Site, l: Site, t: real)
    requires p.IsPoint() && l.IsLine() && Reached(PlX(p, l), PlY(p, l), t)
    ensures Evaluate(PlX(p, l), PlY(p, l), t) == PlPoint(p, l, t, Sqrt(Discr(PlX(p, l), t)))
  {
    var alfa3 := Alfa3(p, l);
    var r := Sqrt(Discr(PlX(p, l), t));
    assert Discr(PlY(p, l), t) == Discr(PlX(p, l), t) by {
      PlDiscriminant(p, l, t);
    }
    assert Coord(PlX(p, l), t) == p.x - l.a * alfa3 - (-l.a) * t + l.b * r;
    assert Coord(PlY(p, l), t) == p.y - l.b * alfa3 - (-l.b) * t + (-l.a) * r;
    CoordShape(p.x, l.a, alfa3, t, l.b, r);
    CoordShape(p.y, l.b, alfa3, t, -l.a, r);
  }

  /** The same for the coefficients as the source writes them. */
  lemma PlEvaluateAsWritten(p: Site, l: Site, t: real)
    requires p.IsPoint() && l.IsLine() && Reached(PlX(p, l), PlYAsWritten(p, l), t)
    ensures Evaluate(PlX(p, l), PlYAsWritten(p, l), t) == PlPointAsWritten(p, l, t, Sqrt(Discr(PlX(p, l), t)))
  {
    var alfa3 := Alfa3(p, l);
    var r := Sqrt(Discr(PlX(p, l), t));
    assert Discr(PlYAsWritten(p, l), t) == Discr(PlX(p, l), t) by {
      PlDiscriminant(p, l, t);
    }
    assert Coord(PlX(p, l), t) == p.x - l.a * alfa3 - (-l.a) * t + l.b * r;
    assert Coord(PlYAsWritten(p, l), t) == p.y - l.b * alfa3 - (-l.b) * t + l.a * r;
    CoordShape(p.x, l.a, alfa3, t, l.b, r);
    CoordShape(p.y, l.b, alfa3, t, l.a, r);
  }

  /** c0 - n*alfa3 - (-n)*t + m*r is c0 moved by t - alfa3 along n and by r along m. */
  lemma CoordShape(c0: real, n: real, alfa3: real, t: real, m: real, r: real)
    ensures c0 - n * alfa3 - (-n) * t + m * r == c0 + (t - alfa3) * n + r * m
  {
  }

  /**
   * With (a, b) a unit normal and r^2 == alfa3 * (2t - alfa3), the
   * parabola point is at distance t from (px, py).
   */
  lemma ParabolaDistance(px: real, py: real, a: real, b: real, alfa3: real, t: real, r: real)
    requires Sq(a) + Sq(b) == 1.0
    requires Sq(r) == alfa3 * (2.0 * t - alfa3)
    ensures SqDist(ParabolaAt(px, py, a, b, alfa3, t, r), Point(px, py)) == Sq(t)
  {
    var s := t - alfa3;
    var q := ParabolaAt(px, py, a, b, alfa3, t, r);
    assert q.x - px == s * a + r * b && q.y - py == s * b - r * a;
    FrameIdentity(s, r, a, b);
    ScaleByOne(Sq(a) + Sq(b), Sq(s) + Sq(r));
    assert Sq(s) + Sq(r) == Sq(t);
  }

  /**
   * With (a, b) a unit normal, the parabola point is at signed distance t
   * from the line whose value at (px, py) is alfa3.
   */
  lemma ParabolaLine(px: real, py: real, a: real, b: real, c: real, alfa3: real, t: real, r: real)
    requires Sq(a) + Sq(b) == 1.0
    requires alfa3 == a * px + b * py + c
    ensures var q := ParabolaAt(px, py, a, b, alfa3, t, r);
      a * q.x + b * q.y + c == t
  {
    var q := ParabolaAt(px, py, a, b, alfa3, t, r);
    MovedLineValue(a, b, c, px, py, t - alfa3, r * b, -(r * a), q.x, q.y);
    assert a * (r * b) + b * -(r * a) == 0.0;
    ScaleByOne(Sq(a) + Sq(b), t - alfa3);
  }

  /**
   * The line's value at (px, py) moved by s along (a, b) and by (u, v) is
   * its value at (px, py), plus s scaled by |(a, b)|^2, plus a*u + b*v.
   */
  lemma MovedLineValue(a: real, b: real, c: real, px: real, py: real, s: real, u: real, v: real, qx: real, qy: real)
    requires qx == px + s * a + u && qy == py + s * b + v
    ensures a * qx + b * qy + c == (a * px + b * py + c) + (Sq(a) + Sq(b)) * s + (a * u + b * v)
  {
  }

  /**
   * For a normalized line, the closed form with a root of the discriminant
   * is at distance t from the point site.
   */
  lemma PlPointDistance(p: Site, l: Site, t: real, r: real)
    requires p.IsPoint() && l.IsNormalized()
    requires Sq(r) == Alfa3(p, l) * (2.0 * t - Alfa3(p, l))
    ensures SqDist(PlPoint(p, l, t, r), Point(p.x, p.y)) == Sq(t)
  {
    ParabolaDistance(p.x, p.y, l.a, l.b, Alfa3(p, l), t, r);
  }

  /** ... and at signed distance t from the line. */
  lemma PlPointOnOffset(p: Site, l: Site, t: real, r: real)
    requires p.IsPoint() && l.IsNormalized()
    ensures LineValue(l, PlPoint(p, l, t, r)) == t
  {
    ParabolaLine(p.x, p.y, l.a, l.b, l.c, Alfa3(p, l), t, r);
  }

  /**
   * Where reached, the point-line bisector at offset t is at distance t from
   * the point site and at signed distance t from the (normalized) line: it is
   * equally far from both generators.
   */
  lemma PlPointEquidistant(p: Site, l: Site, t: real)
    requires p.IsPoint() && l.IsNormalized()
    requires Reached(PlX(p, l), PlY(p, l), t) && HasSqrt(Discr(PlX(p, l), t))
    ensures var q := Evaluate(PlX(p, l), PlY(p, l), t);
      SqDist(q, Point(p.x, p.y)) == Sq(t) && LineValue(l, q) == t
  {
    var r := Sqrt(Discr(PlX(p, l), t));
    assert Sq(r) == Alfa3(p, l) * (2.0 * t - Alfa3(p, l)) by {
      PlDiscriminant(p, l, t);
    }
    PlEvaluate(p, l, t);
    PlPointDistance(p, l, t, r);
    PlPointOnOffset(p, l, t, r);
  }

  /**
   * The bisector first appears at offset alfa3 / 2, at the midpoint between
   * the point site and its foot on the line.
   */
  lemma PlApex(p: Site, l: Site)
    requires p.IsPoint() && l.IsNormalized()
    ensures var alfa3 := Alfa3(p, l);
      var foot := Point(p.x - l.a * alfa3, p.y - l.b * alfa3);
      && LineValue(l, foot) == 0.0
      && Evaluate(PlX(p, l), PlY(p, l), alfa3 / 2.0)
         == Point((p.x + foot.x) / 2.0, (p.y + foot.y) / 2.0)
  {
    var alfa3 := Alfa3(p, l);
    PlDiscriminant(p, l, alfa3 / 2.0);
    SqrtZero();
    ScaleByOne(Sq(l.a) + Sq(l.b), alfa3);
  }

  /** The point site (0, 1) and the line y == 0. */
  predicate UnitInput(p: Site, l: Site) {
    p.IsPoint() && p.x == 0.0 && p.y == 1.0 && l.IsLine() && l.a == 0.0 && l.b == 1.0 && l.c == 0.0
  }

  lemma UnitInputAlfa3(p: Site, l: Site)
    requires UnitInput(p, l)
    ensures Alfa3(p, l) == 1.0
  {
  }

  /** Point (0, 1) and the line y == 0: the bisector is not reached at t == 0. */
  lemma PlUnitExampleAtZero(p: Site, l: Site)
    requires UnitInput(p, l)
    ensures Evaluate(PlX(p, l), PlY(p, l), 0.0) == Origin
  {
    UnitInputAlfa3(p, l);
    UnitInputDiscrAtZero(p, l);
    EvaluateUnreached(PlX(p, l), PlY(p, l), 0.0);
  }

  lemma UnitInputDiscrAtZero(p: Site, l: Site)
    requires p.IsPoint() && l.IsLine() && Alfa3(p, l) == 1.0
    ensures Discr(PlX(p, l), 0.0) < 0.0
  {
    PlDiscriminant(p, l, 0.0);
  }

  /**
   * Point (0, 1) and the line y == 0: at t == 0.5 the bisector passes through
   * (0, 0.5), halfway between the point and the line.
   */
  lemma PlUnitExampleAtHalf(p: Site, l: Site)
    requires UnitInput(p, l)
    ensures Evaluate(PlX(p, l), PlY(p, l), 0.5) == Point(0.0, 0.5)
  {
    UnitInputAlfa3(p, l);
    UnitInputDiscr(p, l);
    UnitInputPoint(p, l);
    PlEvaluateZeroRoot(p, l, 0.5);
  }

  lemma UnitInputDiscr(p: Site, l: Site)
    requires p.IsPoint() && l.IsLine() && Alfa3(p, l) == 1.0
    ensures Discr(PlX(p, l), 0.5) == 0.0
  {
    PlDiscriminant(p, l, 0.5);
  }

  lemma UnitInputPoint(p: Site, l: Site)
    requires UnitInput(p, l) && Alfa3(p, l) == 1.0
    ensures PlPoint(p, l, 0.5, 0.0) == Point(0.0, 0.5)
  {
  }

  /** Where the discriminant is 0, `point(t)` is the closed form with root 0. */
  lemma PlEvaluateZeroRoot(p: Site, l: Site, t: real)
    requires p.IsPoint() && l.IsLine() && Discr(PlX(p, l), t) == 0.0
    ensures Evaluate(PlX(p, l), PlY(p, l), t) == PlPoint(p, l, t, 0.0)
  {
    PlDiscriminant(p, l, t);
    SqrtZero();
    PlEvaluate(p, l, t);
  }

  /**
   * With the source's y[3] == a, the closed form's signed distance from a
   * normalized line is off by 2ab * r: it misses the bisector whenever the
   * root is positive and the normal is not axis-parallel.
   */
  lemma ParabolaLineAsWritten(px: real, py: real, a: real, b: real, c: real, alfa3: real, t: real, r: real)
    requires Sq(a) + Sq(b) == 1.0
    requires alfa3 == a * px + b * py + c
    ensures var q := ParabolaAtAsWritten(px, py, a, b, alfa3, t, r);
      a * q.x + b * q.y + c == t + 2.0 * a * b * r
  {
    var q := ParabolaAtAsWritten(px, py, a, b, alfa3, t, r);
    MovedLineValue(a, b, c, px, py, t - alfa3, r * b, r * a, q.x, q.y);
    assert a * (r * b) + b * (r * a) == 2.0 * a * b * r;
    ScaleByOne(Sq(a) + Sq(b), t - alfa3);
  }

  /** The root of one is one. */
  lemma SqrtOne()
    ensures Sqrt(1.0) == 1.0
  {
    assert IsRoot(1.0, 1.0);
    UnitRoot(Sqrt(1.0));
  }

  lemma UnitRoot(r: real)
    requires IsRoot(r, 1.0)
    ensures r == 1.0
  {
    if r < 1.0 {
      BelowOne(r);
      assert false;
    } else if r > 1.0 {
      AboveOne(r);
      assert false;
    }
  }

  lemma BelowOne(r: real)
    requires 0.0 <= r < 1.0
    ensures Sq(r) < 1.0
  {
    assert r * r <= r * 1.0;
  }

  lemma AboveOne(r: real)
    requires r > 1.0
    ensures Sq(r) > 1.0
  {
    assert r * r > r * 1.0;
  }

  /** Where the discriminant is 1, `point(t)` is the closed form with root 1. */
  lemma PlEvaluateUnitRoot(p: Site, l: Site, t: real)
    requires p.IsPoint() && l.IsLine() && Discr(PlX(p, l), t) == 1.0
    ensures Evaluate(PlX(p, l), PlY(p, l), t) == PlPoint(p, l, t, 1.0)
    ensures Evaluate(PlX(p, l), PlYAsWritten(p, l), t) == PlPointAsWritten(p, l, t, 1.0)
  {
    PlDiscriminant(p, l, t);
    SqrtOne();
    PlEvaluate(p, l, t);
    PlEvaluateAsWritten(p, l, t);
  }

  /**
   * The point site (0, 0) and the line 0.6x + 0.8y + 1 == 0, whose normal
   * (0.6, 0.8) is a unit vector.
   */
  predicate SkewInput(p: Site, l: Site) {
    p.IsPoint() && p.x == 0.0 && p.y == 0.0 && l.IsLine() && l.a == 0.6 && l.b == 0.8 && l.c == 1.0
  }

  lemma SkewInputAlfa3(p: Site, l: Site)
    requires SkewInput(p, l)
    ensures Alfa3(p, l) == 1.0
  {
  }

  lemma SkewInputDiscr(p: Site, l: Site)
    requires p.IsPoint() && l.IsLine() && Alfa3(p, l) == 1.0
    ensures Discr(PlX(p, l), 1.0) == 1.0
  {
    PlDiscriminant(p, l, 1.0);
  }

  lemma SkewInputPoints(p: Site, l: Site)
    requires SkewInput(p, l) && Alfa3(p, l) == 1.0
    ensures PlPointAsWritten(p, l, 1.0, 1.0) == Point(0.8, 0.6)
    ensures PlPoint(p, l, 1.0, 1.0) == Point(0.8, -0.6)
  {
    SkewClosedForms();
  }

  lemma SkewClosedForms()
    ensures ParabolaAtAsWritten(0.0, 0.0, 0.6, 0.8, 1.0, 1.0, 1.0) == Point(0.8, 0.6)
    ensures ParabolaAt(0.0, 0.0, 0.6, 0.8, 1.0, 1.0, 1.0) == Point(0.8, -0.6)
  {
  }

  /**
   * A concrete input where the source's coefficients miss the bisector:
   * point (0, 0), line 0.6x + 0.8y + 1 == 0, t == 1. The discriminant is 1
   * there; `point(1)` is (0.8, 0.6) as written and (0.8, -0.6) corrected.
   */
  lemma PlCounterexamplePoints(p: Site, l: Site)
    requires SkewInput(p, l)
    ensures Evaluate(PlX(p, l), PlYAsWritten(p, l), 1.0) == Point(0.8, 0.6)
    ensures Evaluate(PlX(p, l), PlY(p, l), 1.0) == Point(0.8, -0.6)
  {
    SkewInputAlfa3(p, l);
    SkewInputDiscr(p, l);
    SkewInputPoints(p, l);
    PlEvaluateUnitRoot(p, l, 1.0);
  }

  /**
   * The line is normalized; (0.8, 0.6) is at distance 1 from the point site
   * but at signed distance 1.96 from the line, while (0.8, -0.6) is at
   * distance 1 from both.
   */
  lemma SkewInputMeasures(p: Site, l: Site)
    requires SkewInput(p, l)
    ensures l.IsNormalized()
    ensures SqDist(Point(0.8, 0.6), Point(p.x, p.y)) == 1.0 && LineValue(l, Point(0.8, 0.6)) == 1.96
    ensures SqDist(Point(0.8, -0.6), Point(p.x, p.y)) == 1.0 && LineValue(l, Point(0.8, -0.6)) == 1.0
  {
  }

  /**
   * On that input, at t == 1, the source's point is at distance t from the
   * point site but at signed distance 1.96 from the normalized line, so it
   * is not on the bisector; the corrected point is at distance t from both.
   */
  lemma PlAsWrittenCounterexample(p: Site, l: Site)
    requires SkewInput(p, l)
    ensures l.IsNormalized()
    ensures var q := Evaluate(PlX(p, l), PlYAsWritten(p, l), 1.0);
      SqDist(q, Point(p.x, p.y)) == 1.0 && LineValue(l, q) == 1.96
    ensures var q := Evaluate(PlX(p, l), PlY(p, l), 1.0);
      SqDist(q, Point(p.x, p.y)) == 1.0 && LineValue(l, q) == 1.0
  {
    PlCounterexamplePoints(p, l);
    SkewInputMeasures(p, l);
  }

  // ---------------------------------------------------------------------
  // Slot writes of the line-line setter
  // ---------------------------------------------------------------------

  /**
   * Writes that fill slots k, k+1, ... up to the end of the array, in that
   * order, replace the array's suffix from k by the written values.
   */
  lemma {:induction false} StoreInOrder(a: seq<real>, c: seq<real>, k: nat)
    requires k + |c| == |a|
    ensures Store(a, InOrder(c, k)) == Some(a[..k] + c)
    decreases |c|
  {
    if c == [] {
      assert a[..k] + c == a;
    } else {
      var a' := a[k := c[0]];
      StoreInOrder(a', c[1..], k + 1);
      assert InOrder(c, k)[1..] == InOrder(c[1..], k + 1);
      assert Store(a, InOrder(c, k)) == Store(a', InOrder(c[1..], k + 1));
      assert a'[..k + 1] + c[1..] == a[..k] + c;
    }
  }

  /** As written, the line-line setter's last write, y[8], overruns y. */
  lemma LlYAsWrittenOverruns(l1: Site, l2: Site, y: seq<real>)
    requires l1.IsLine() && l2.IsLine() && Delta(l1, l2) != 0.0
    requires |y| == Slots
    ensures Store(y, LlYWritesAsWritten(l1, l2)) == None
  {
    assert LlYWritesAsWritten(l1, l2)[8].slot == 8;
  }

  /**
   * Without that write, every write lands in slots 0..7 and the result is
   * the coefficient vector the setter promises, whatever y held before.
   */
  lemma LlYWritesStoreLlY(l1: Site, l2: Site, y: seq<real>)
    requires l1.IsLine() && l2.IsLine() && Delta(l1, l2) != 0.0
    requires |y| == Slots
    ensures Store(y, InOrder(LlY(l1, l2), 0)) == Some(LlY(l1, l2))
  {
    StoreInOrder(y, LlY(l1, l2), 0);
    assert y[..0] + LlY(l1, l2) == LlY(l1, l2);
  }

  // ---------------------------------------------------------------------
  // Face ordering
  // ---------------------------------------------------------------------

  /** `operator<` is a strict order. */
  lemma FaceLessStrictOrder(f: FaceProps, g: FaceProps, h: FaceProps)
    ensures !f.Less(f)
    ensures f.Less(g) ==> !g.Less(f)
    ensures f.Less(g) && g.Less(h) ==> f.Less(h)
  {
  }

  /**
   * Faces are ordered by index alone: edge, site and status do not matter,
   * and two faces are unordered exactly when their indices are equal.
   */
  lemma FaceLessByIndex(f: FaceProps, g: FaceProps, e: EdgeHandle, s: Site, st: VoronoiFaceStatus)
    ensures f.Less(g) <==> f.(edge := e, site := s, status := st).Less(g)
    ensures g.Less(f) <==> g.Less(f.(edge := e, site := s, status := st))
    ensures !f.Less(g) && !g.Less(f) <==> f.idx == g.idx
  {
  }
}
