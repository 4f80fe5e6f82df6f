/**
 * The edge and face records of the Voronoi diagram graph (`EdgeProps` and
 * `FaceProps` of voronoidiagram_graph.hpp).
 *
 * An edge stores its bisector as two 8-slot coefficient vectors x and y; the
 * point on the bisector at offset t is
 *
 *   x(t) = x0 - x1 - x2*t + x3 * sqrt((x4 + x5*t)^2 - (x6 + x7*t)^2)
 *
 * and the same formula over y. One formula covers line, parabola, hyperbola
 * and ellipse bisectors; only the coefficients differ.
 */
module VoronoiGraph {
  import opened Geometry

  /** Number of coefficient slots per axis. */
  const Slots: nat := 8

  /** `HEFace` is an `unsigned int`. */
  newtype HEFace = i: int | 0 <= i < 0x1_0000_0000

  /** An edge descriptor of the half-edge graph, an opaque handle here. */
  type EdgeHandle = nat

  datatype Option<T> = None | Some(value: T)

  datatype VoronoiEdgeType = Line | Parabola | Ellipse | Hyperbola | Separator | LineSiteEdge

  // ---------------------------------------------------------------------
  // Coefficients written by the bisector setters
  // ---------------------------------------------------------------------

  /** Value of the line's equation at the point site, `alfa3`. */
  function Alfa3(p: Site, l: Site): real
    requires p.IsPoint() && l.IsLine()
  {
    LineValue(l, Point(p.x, p.y))
  }

  /** x coefficients of the point-line (parabola) bisector. */
  function PlX(p: Site, l: Site): (c: seq<real>)
    requires p.IsPoint() && l.IsLine()
    ensures |c| == Slots
  {
    var alfa3 := Alfa3(p, l);
    [p.x, l.a * alfa3, -l.a, l.b, 0.0, 1.0, alfa3, -1.0]
  }

  /**
   * y coefficients of the point-line bisector. Slot 3 is -a, so that the
   * square-root term moves along (b, -a), perpendicular to the line's
   * normal (a, b).
   */
  function PlY(p: Site, l: Site): (c: seq<real>)
    requires p.IsPoint() && l.IsLine()
    ensures |c| == Slots
  {
    var alfa3 := Alfa3(p, l);
    [p.y, l.b * alfa3, -l.b, -l.a, 0.0, 1.0, alfa3, -1.0]
  }

  /**
   * y coefficients of the point-line bisector as the source writes them:
   * slot 3 holds +a, so the square-root term moves along (b, a).
   */
  function PlYAsWritten(p: Site, l: Site): (c: seq<real>)
    requires p.IsPoint() && l.IsLine()
    ensures |c| == Slots
  {
    var alfa3 := Alfa3(p, l);
    [p.y, l.b * alfa3, -l.b, l.a, 0.0, 1.0, alfa3, -1.0]
  }

  /** Determinant of two lines' normals; zero exactly for parallel lines. */
  function Delta(l1: Site, l2: Site): real
    requires l1.IsLine() && l2.IsLine()
  {
    l1.a * l2.b - l1.b * l2.a
  }

  /**
   * Coefficients of a straight bisector: only the start c0 and the slope
   * slot c2 are non-zero, so the coordinate at t is c0 - c2*t.
   */
  function Straight(c0: real, c2: real): (c: seq<real>)
    ensures |c| == Slots
  {
    [c0, 0.0, c2, 0.0, 0.0, 0.0, 0.0, 0.0]
  }

  /**
   * x coefficients of the line-line (straight) bisector: the x of the lines'
   * crossing, then the direction -(b2 - b1) / delta, so that one unit of t
   * is one unit of offset from both lines.
   */
  function LlX(l1: Site, l2: Site): (c: seq<real>)
    requires l1.IsLine() && l2.IsLine() && Delta(l1, l2) != 0.0
    ensures |c| == Slots
  {
    var delta := Delta(l1, l2);
    Straight((l1.b * l2.c - l2.b * l1.c) / delta, -(l2.b - l1.b) / delta)
  }

  /** y coefficients of the line-line bisector; the direction is -(a1 - a2) / delta. */
  function LlY(l1: Site, l2: Site): (c: seq<real>)
    requires l1.IsLine() && l2.IsLine() && Delta(l1, l2) != 0.0
    ensures |c| == Slots
  {
    var delta := Delta(l1, l2);
    Straight((l2.a * l1.c - l1.a * l2.c) / delta, -(l1.a - l2.a) / delta)
  }

  /** x coefficients of the line-line bisector as the source writes them: x2 is not divided by delta. */
  function LlXAsWritten(l1: Site, l2: Site): (c: seq<real>)
    requires l1.IsLine() && l2.IsLine() && Delta(l1, l2) != 0.0
    ensures |c| == Slots
  {
    var delta := Delta(l1, l2);
    Straight((l1.b * l2.c - l2.b * l1.c) / delta, -(l2.b - l1.b))
  }

  /** y coefficients of the line-line bisector as the source writes them: y2 is not divided by delta. */
  function LlYAsWritten(l1: Site, l2: Site): (c: seq<real>)
    requires l1.IsLine() && l2.IsLine() && Delta(l1, l2) != 0.0
    ensures |c| == Slots
  {
    var delta := Delta(l1, l2);
    Straight((l2.a * l1.c - l1.a * l2.c) / delta, -(l1.a - l2.a))
  }

  // ---------------------------------------------------------------------
  // Slot writes, for the bounds of the coefficient arrays
  // ---------------------------------------------------------------------

  /** One assignment `y[slot] = value`. */
  datatype SlotWrite = SlotWrite(slot: nat, value: real)

  /**
   * Performs a sequence of slot writes on an array's contents in order;
   * None when some write falls outside the array.
   */
  function Store(a: seq<real>, ws: seq<SlotWrite>): (r: Option<seq<real>>)
    ensures r.Some? <==> forall i :: 0 <= i < |ws| ==> ws[i].slot < |a|
    ensures r.Some? ==> |r.value| == |a|
    decreases |ws|
  {
    if ws == [] then Some(a)
    else if ws[0].slot < |a| then
      var r := Store(a[ws[0].slot := ws[0].value], ws[1..]);
      assert forall i :: 1 <= i < |ws| ==> ws[i] == ws[1..][i - 1];
      r
    else None
  }

  /** Writes c[0], c[1], ... to slots k, k+1, ... in that order. */
  function InOrder(c: seq<real>, k: nat): (ws: seq<SlotWrite>)
    ensures |ws| == |c|
    ensures forall i :: 0 <= i < |c| ==> ws[i] == SlotWrite(k + i, c[i])
  {
    if c == [] then [] else [SlotWrite(k, c[0])] + InOrder(c[1..], k + 1)
  }

  /**
   * The writes to y of the line-line setter, in source order, as written:
   * slots 0..7 receive LlYAsWritten, then slot 8 receives 0.
   */
  function LlYWritesAsWritten(l1: Site, l2: Site): (ws: seq<SlotWrite>)
    requires l1.IsLine() && l2.IsLine() && Delta(l1, l2) != 0.0
    ensures |ws| == Slots + 1
  {
    InOrder(LlYAsWritten(l1, l2), 0) + [SlotWrite(8, 0.0)]
  }

  // ---------------------------------------------------------------------
  // Evaluation of the bisector formula
  // ---------------------------------------------------------------------

  /** The discriminant (c4 + c5*t)^2 - (c6 + c7*t)^2 of one axis. */
  function Discr(c: seq<real>, t: real): real
    requires |c| == Slots
  {
    Sq(c[4] + c[5] * t) - Sq(c[6] + c[7] * t)
  }

  /** The bisector is real at t when both discriminants are non-negative. */
  predicate Reached(cx: seq<real>, cy: seq<real>, t: real)
    requires |cx| == Slots && |cy| == Slots
  {
    Discr(cx, t) >= 0.0 && Discr(cy, t) >= 0.0
  }

  /** c0 - c1 - c2*t: the part of a coordinate without the square root. */
  function Base(c: seq<real>, t: real): real
    requires |c| == Slots
  {
    c[0] - c[1] - c[2] * t
  }

  /** One coordinate at offset t, always on the `+` branch of the root. */
  ghost function Coord(c: seq<real>, t: real): real
    requires |c| == Slots
  {
    Base(c, t) + c[3] * Sqrt(Discr(c, t))
  }

  /**
   * `point(t)`: the bisector point at offset t, or the origin when either
   * discriminant is negative.
   */
  ghost function Evaluate(cx: seq<real>, cy: seq<real>, t: real): Point
    requires |cx| == Slots && |cy| == Slots
  {
    if Reached(cx, cy, t) then Point(Coord(cx, t), Coord(cy, t)) else Origin
  }

  // ---------------------------------------------------------------------
  // The edge record
  // ---------------------------------------------------------------------

  /** Properties of one half-edge of the diagram. */
  class EdgeProps {
    /** The next edge, counter-clockwise, from this edge. */
    var next: EdgeHandle
    /** The twin edge. */
    var twin: EdgeHandle
    /** The face this edge belongs to. */
    var face: HEFace
    /** Offset direction from the adjacent site, +1 or -1. */
    var k: real
    /** The curve kind (`type` in the source). */
    var kind: VoronoiEdgeType
    /** Bisector coefficients per axis. */
    var x: array<real>
    var y: array<real>

    ghost predicate Valid()
      reads this
    {
      x.Length == Slots && y.Length == Slots && x != y
    }

    constructor ()
      ensures Valid() && fresh(x) && fresh(y)
    {
      x := new real[Slots];
      y := new real[Slots];
    }

    /** Edge with the given next edge and face. */
    constructor WithNextFace(n: EdgeHandle, f: HEFace)
      ensures Valid() && fresh(x) && fresh(y)
      ensures next == n && face == f
    {
      next, face := n, f;
      x := new real[Slots];
      y := new real[Slots];
    }

    /** Edge with the given next edge, twin and face. */
    constructor WithNextTwinFace(n: EdgeHandle, t: EdgeHandle, f: HEFace)
      ensures Valid() && fresh(x) && fresh(y)
      ensures next == n && twin == t && face == f
    {
      next, twin, face := n, t, f;
      x := new real[Slots];
      y := new real[Slots];
    }

    /** `point(t)` over the stored coefficients. */
    ghost function PointAt(t: real): Point
      requires Valid()
      reads this, x, y
    {
      Evaluate(x[..], y[..], t)
    }

    /**
     * Chooses the bisector from the kinds of the two sites: the point always
     * comes first for a point-line pair, and a line-line pair is passed on
     * swapped. A pair involving an arc is an assertion failure.
     */
    method SetParameters(s1: Site, s2: Site)
      requires Valid()
      requires !s1.IsArc() && !s2.IsArc()
      requires s1.IsLine() && s2.IsLine() ==> Delta(s2, s1) != 0.0
      modifies this`kind, x, y
      ensures Valid()
      ensures s1.IsPoint() && s2.IsPoint() ==>
        kind == Line && x[..] == old(x[..]) && y[..] == old(y[..])
      ensures s1.IsPoint() && s2.IsLine() ==>
        kind == Parabola && x[..] == PlX(s1, s2) && y[..] == PlY(s1, s2)
      ensures s1.IsLine() && s2.IsPoint() ==>
        kind == Parabola && x[..] == PlX(s2, s1) && y[..] == PlY(s2, s1)
      ensures s1.IsLine() && s2.IsLine() ==>
        kind == Line && x[..] == LlX(s2, s1) && y[..] == LlY(s2, s1)
    {
      if s1.IsPoint() && s2.IsPoint() {
        SetPpParameters(s1, s2);
      } else if s1.IsPoint() && s2.IsLine() {
        SetPlParameters(s1, s2);
      } else if s2.IsPoint() && s1.IsLine() {
        SetPlParameters(s2, s1);
      } else if s1.IsLine() && s2.IsLine() {
        SetLlParameters(s2, s1);
      } else {
        assert false;
      }
    }

    /** Point-point edge: only the curve kind is set. */
    method SetPpParameters(s1: Site, s2: Site)
      requires Valid()
      modifies this`kind
      ensures Valid()
      ensures kind == Line
      ensures x[..] == old(x[..]) && y[..] == old(y[..])
    {
      kind := Line;
    }

    /** Point(s1)-line(s2) edge: a parabola. */
    method SetPlParameters(s1: Site, s2: Site)
      requires Valid()
      requires s1.IsPoint() && s2.IsLine()
      modifies this`kind, x, y
      ensures Valid()
      ensures kind == Parabola && x[..] == PlX(s1, s2) && y[..] == PlY(s1, s2)
    {
      kind := Parabola;
      var alfa3 := s2.a * s1.x + s2.b * s1.y + s2.c;
      WritePlX(x, s1, s2, alfa3);
      WritePlY(y, s1, s2, alfa3);
    }

    /** Line(s1)-line(s2) edge: a straight line through the lines' crossing. */
    method SetLlParameters(s1: Site, s2: Site)
      requires Valid()
      requires s1.IsLine() && s2.IsLine() && Delta(s1, s2) != 0.0
      modifies this`kind, x, y
      ensures Valid()
      ensures kind == Line && x[..] == LlX(s1, s2) && y[..] == LlY(s1, s2)
    {
      kind := Line;
      var delta := s1.a * s2.b - s1.b * s2.a;
      WriteLlX(x, s1, s2, delta);
      WriteLlY(y, s1, s2, delta);
    }
  }

  // The slot writes of the two setters, one array at a time.

  method WritePlX(x: array<real>, s1: Site, s2: Site, alfa3: real)
    requires x.Length == Slots && s1.IsPoint() && s2.IsLine() && alfa3 == Alfa3(s1, s2)
    modifies x
    ensures x[..] == PlX(s1, s2)
  {
    x[0] := s1.x;
    x[1] := s2.a * alfa3;
    x[2] := -s2.a;
    x[3] := s2.b;
    x[4] := 0.0;
    x[5] := 1.0;
    x[6] := alfa3;
    x[7] := -1.0;
    ghost var c := PlX(s1, s2);
    assert x[0] == c[0] && x[1] == c[1] && x[2] == c[2] && x[3] == c[3];
    assert x[4] == c[4] && x[5] == c[5] && x[6] == c[6] && x[7] == c[7];
    assert x[..] == c;
  }

  /** Writes the corrected y coefficients; slot 3 receives -a. */
  method WritePlY(y: array<real>, s1: Site, s2: Site, alfa3: real)
    requires y.Length == Slots && s1.IsPoint() && s2.IsLine() && alfa3 == Alfa3(s1, s2)
    modifies y
    ensures y[..] == PlY(s1, s2)
  {
    y[0] := s1.y;
    y[1] := s2.b * alfa3;
    y[2] := -s2.b;
    y[3] := -s2.a;
    y[4] := 0.0;
    y[5] := 1.0;
    y[6] := alfa3;
    y[7] := -1.0;
    ghost var c := PlY(s1, s2);
    assert y[0] == c[0] && y[1] == c[1] && y[2] == c[2] && y[3] == c[3];
    assert y[4] == c[4] && y[5] == c[5] && y[6] == c[6] && y[7] == c[7];
    assert y[..] == c;
  }

  /** Writes the corrected x coefficients: the direction is divided by delta. */
  method WriteLlX(x: array<real>, s1: Site, s2: Site, delta: real)
    requires x.Length == Slots && s1.IsLine() && s2.IsLine()
    requires delta == Delta(s1, s2) && delta != 0.0
    modifies x
    ensures x[..] == LlX(s1, s2)
  {
    x[0] := (s1.b * s2.c - s2.b * s1.c) / delta;
    x[1] := 0.0;
    x[2] := -(s2.b - s1.b) / delta;
    x[3] := 0.0;
    x[4] := 0.0;
    x[5] := 0.0;
    x[6] := 0.0;
    x[7] := 0.0;
    ghost var c := LlX(s1, s2);
    assert x[0] == c[0] && x[1] == c[1] && x[2] == c[2] && x[3] == c[3];
    assert x[4] == c[4] && x[5] == c[5] && x[6] == c[6] && x[7] == c[7];
    assert x[..] == c;
  }

  /**
   * Writes the corrected y coefficients: the direction is divided by delta,
   * and the source's further write to y[8] is left out.
   */
  method WriteLlY(y: array<real>, s1: Site, s2: Site, delta: real)
    requires y.Length == Slots && s1.IsLine() && s2.IsLine()
    requires delta == Delta(s1, s2) && delta != 0.0
    modifies y
    ensures y[..] == LlY(s1, s2)
  {
    y[0] := (s2.a * s1.c - s1.a * s2.c) / delta;
    y[1] := 0.0;
    y[2] := -(s1.a - s2.a) / delta;
    y[3] := 0.0;
    y[4] := 0.0;
    y[5] := 0.0;
    y[6] := 0.0;
    y[7] := 0.0;
    ghost var c := LlY(s1, s2);
    assert y[0] == c[0] && y[1] == c[1] && y[2] == c[2] && y[3] == c[3];
    assert y[4] == c[4] && y[5] == c[5] && y[6] == c[6] && y[7] == c[7];
    assert y[..] == c;
  }

  // ---------------------------------------------------------------------
  // The face record
  // ---------------------------------------------------------------------

  /** INCIDENT faces hold at least one IN vertex, NONINCIDENT faces none. */
  datatype VoronoiFaceStatus = Incident | Nonincident

  /** Properties of one face: its index, a boundary edge, its site, its status. */
  datatype FaceProps = FaceProps(idx: HEFace, edge: EdgeHandle, site: Site, status: VoronoiFaceStatus)
  {
    /** `operator<`, used to sort faces. */
    predicate Less(f: FaceProps) {
      idx < f.idx
    }
  }
}
