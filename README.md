# Voronoi diagram edge and face records

This project models the edge and face property records of openvoronoi's
Voronoi diagram graph (`voronoidiagram_graph.hpp`).

Each half-edge (`EdgeProps`) stores its bisector, the curve of points equally
far from the two generators (sites) on either side of the edge. The bisector
is stored as two 8-slot coefficient arrays `x` and `y`. The point at offset
distance `t` is

    x(t) = x0 - x1 - x2*t + x3 * sqrt((x4 + x5*t)^2 - (x6 + x7*t)^2)

and likewise for `y`. `set_parameters` picks a setter from the kinds of the
two sites:

- point/point only sets the curve kind;
- point/line writes a parabola;
- line/line writes a straight line.

`point(t)` evaluates the formula. It returns the origin when either
discriminant is negative. Faces (`FaceProps`) are ordered by their index.

The model has three modules:

- `Geometry` (geometry.dfy): points, sites (point, line, arc), `sq`, a square
  root over the reals, squared distance, and the value of a line's equation.
- `VoronoiGraph` (voronoi_graph.dfy): the coefficient vectors each setter
  writes, as functions. It also holds the evaluation formula, the `EdgeProps`
  class and the `FaceProps` record. The setters are methods on the class. The
  point/line and line/line setters overwrite the two `array<real>` fields
  slot by slot. They write the corrected coefficients (see Findings): each
  one is proved to leave exactly the corrected coefficient vector its
  function defines. The source's own
  values are kept beside them as the `AsWritten` functions.
- `BisectorProperties` (bisector_properties.dfy): what those coefficients
  mean.
  - With the corrected coefficients, the line/line bisector is a straight
    line through the lines' crossing, and its point at offset t has the value
    t in both line equations. With the source's coefficients the value is
    delta * t.
  - With the corrected coefficients, the point/line bisector is a parabola,
    and its point at offset t is at distance t from the point site and at
    signed distance t from the line. With the source's y[3] it leaves the
    bisector.
  - The module also proves the bounds of the slot writes and the order on
    faces.

Behaviour of the source that the model keeps:

- `point(t)` returns the origin (0, 0) when either discriminant is negative,
  that is, when the bisector is not reached at offset t.
- For the point (0, 1) and the line y = 0, the bisector first appears at
  t = 0.5, at (0, 0.5). At t = 0 the discriminant is -1 and `point(0)` is the
  origin. Both cases are proved.
- `set_pp_parameters` sets only the edge type; it writes no coefficients.
- `set_parameters` hands a line/line pair to `set_ll_parameters` with the two
  sites swapped.

## Model

| member | source | states |
|---|---|---|
| Geometry.Sq | voronoidiagram_graph.hpp:142 | `sq(x)`, the square x * x |
| Geometry.Sqrt | voronoidiagram_graph.hpp:147-148 | where a non-negative root of v exists, the result is one; otherwise 0 |
| VoronoiGraph.Discr | voronoidiagram_graph.hpp:144-145 | the discriminant of one coordinate, (c4 + c5*t)^2 - (c6 + c7*t)^2 |
| VoronoiGraph.Reached | voronoidiagram_graph.hpp:146 | the bisector is reached at t exactly when both discriminants are non-negative |
| VoronoiGraph.Base | voronoidiagram_graph.hpp:147-148 | the part of a coordinate without the root, c0 - c1 - c2*t |
| VoronoiGraph.Coord | voronoidiagram_graph.hpp:147-148 | one coordinate of the evaluation formula, c0 - c1 - c2*t + c3 * sqrt(discr) |
| VoronoiGraph.Evaluate | voronoidiagram_graph.hpp:143-154 | `point(t)` on two coefficient vectors: the formula's point where reached, the origin otherwise |
| VoronoiGraph.EdgeProps.PointAt | voronoidiagram_graph.hpp:143-154 | `point(t)` of an edge: Evaluate on the edge's current x and y arrays |
| VoronoiGraph.Alfa3 | voronoidiagram_graph.hpp:183 | alfa3 = a*x + b*y + c: the point site's value in the line's equation |
| VoronoiGraph.PlX | voronoidiagram_graph.hpp:184-191 | the eight x coefficients of the point/line bisector: x, a*alfa3, -a, b, 0, 1, alfa3, -1 |
| VoronoiGraph.PlY | voronoidiagram_graph.hpp:193-200 | the corrected eight y coefficients: y, b*alfa3, -b, -a, 0, 1, alfa3, -1 (see Findings) |
| VoronoiGraph.PlYAsWritten | voronoidiagram_graph.hpp:193-200 | the source's y coefficients, which have y[3] = a |
| VoronoiGraph.Delta | voronoidiagram_graph.hpp:207 | delta = a1*b2 - b1*a2, the determinant of the two lines' normals |
| VoronoiGraph.Straight | voronoidiagram_graph.hpp:209-225 | an 8-slot vector whose only nonzero slots are the constant c0 and the slope c2 |
| VoronoiGraph.LlX | voronoidiagram_graph.hpp:209-216 | the corrected x coefficients of the line/line bisector: x0 = (b1*c2 - b2*c1) / delta and x2 = -(b2 - b1) / delta (see Findings) |
| VoronoiGraph.LlY | voronoidiagram_graph.hpp:218-225 | the corrected y coefficients: y0 = (a2*c1 - a1*c2) / delta and y2 = -(a1 - a2) / delta (see Findings) |
| VoronoiGraph.LlXAsWritten | voronoidiagram_graph.hpp:209-216 | the source's x coefficients, with x2 = -(b2 - b1) not divided by delta |
| VoronoiGraph.LlYAsWritten | voronoidiagram_graph.hpp:218-225 | the source's y coefficients, with y2 = -(a1 - a2) not divided by delta |
| VoronoiGraph.EdgeProps.constructor | voronoidiagram_graph.hpp:130 | a default edge owns two fresh, distinct 8-slot coefficient arrays |
| VoronoiGraph.EdgeProps.WithNextFace | voronoidiagram_graph.hpp:131 | the edge records the given next edge and face, with fresh coefficient arrays |
| VoronoiGraph.EdgeProps.WithNextTwinFace | voronoidiagram_graph.hpp:133 | the edge records the given next edge, twin and face, with fresh coefficient arrays |
| VoronoiGraph.EdgeProps.SetParameters | voronoidiagram_graph.hpp:157-173 | per pair of site kinds: point/point sets kind Line and leaves the coefficients alone; point/line and line/point store the parabola of the point and the line, point first; line/line stores the straight bisector of the swapped pair; arc pairs are excluded (the source asserts) |
| VoronoiGraph.EdgeProps.SetPpParameters | voronoidiagram_graph.hpp:175-178 | kind becomes Line and both coefficient arrays keep their contents |
| VoronoiGraph.EdgeProps.SetPlParameters | voronoidiagram_graph.hpp:180-202 | kind becomes Parabola; x and y hold exactly PlX and PlY, the corrected point/line coefficients |
| VoronoiGraph.EdgeProps.SetLlParameters | voronoidiagram_graph.hpp:204-225 | kind becomes Line; x and y hold exactly LlX and LlY, the corrected line/line coefficients; a zero delta is excluded (the source asserts) |
| VoronoiGraph.WritePlX | voronoidiagram_graph.hpp:183-191 | after the eight writes, x holds PlX |
| VoronoiGraph.WritePlY | voronoidiagram_graph.hpp:193-200 | after the eight writes, y holds PlY, with y[3] = -a |
| VoronoiGraph.WriteLlX | voronoidiagram_graph.hpp:207-216 | after the eight writes, x holds LlX, with the slope divided by delta |
| VoronoiGraph.WriteLlY | voronoidiagram_graph.hpp:218-225 | after the eight writes, y holds LlY, with the slope divided by delta and no write past slot 7 |
| VoronoiGraph.Store | voronoidiagram_graph.hpp:218-226 | a run of slot writes succeeds exactly when every slot is inside the array, and keeps the array's length |
| VoronoiGraph.InOrder | voronoidiagram_graph.hpp:218-225 | the i-th write puts the i-th value into slot k + i |
| VoronoiGraph.LlYWritesAsWritten | voronoidiagram_graph.hpp:218-226 | the source's y writes of the line/line setter are nine, one more than the array has slots |
| VoronoiGraph.FaceProps.Less | voronoidiagram_graph.hpp:254 | `operator<`: a face precedes another when its index is smaller |
| BisectorProperties.EvaluateSolvesCurve | voronoidiagram_graph.hpp:143-149 | where both discriminants are non-negative, each coordinate of `point(t)` solves (v - base)^2 = c3^2 * discr on the + side of the root |
| BisectorProperties.EvaluateUnreached | voronoidiagram_graph.hpp:146-153 | when either discriminant is negative, `point(t)` is the origin |
| BisectorProperties.EvaluateStraight | voronoidiagram_graph.hpp:143-149 | for coefficients with only slots 0 and 2 set, both discriminants are 0, the bisector is reached, and `point(t)` is (x0 - x2*t, y0 - y2*t) |
| BisectorProperties.LlIsStraight | voronoidiagram_graph.hpp:207-225 | the line/line coefficients, corrected and as written, have only slots 0 and 2 set; x0 * delta and y0 * delta are the numerators b1*c2 - b2*c1 and a2*c1 - a1*c2; the corrected slopes times delta are the source's slopes |
| BisectorProperties.LlDiscriminantsVanish | voronoidiagram_graph.hpp:209-225 | both discriminants of a line/line bisector, corrected and as written, are 0 for every t, so it is reached everywhere |
| BisectorProperties.LlPointIsLinear | voronoidiagram_graph.hpp:204-225 | `point(t)` of a line/line bisector, corrected and as written, is its start point (x0, y0) moved by -t * (x2, y2) |
| BisectorProperties.LlStartOnBothLines | voronoidiagram_graph.hpp:209 | the start point (x0, y0) lies on both lines |
| BisectorProperties.StraightEquidistant | voronoidiagram_graph.hpp:204-225 | a straight bisector that starts at the lines' crossing and whose slope times delta is -(b2 - b1, a1 - a2) has, at t, the value t in both line equations |
| BisectorProperties.StraightEquidistantAsWritten | voronoidiagram_graph.hpp:211 | with the undivided slope -(b2 - b1, a1 - a2), the value at t is delta * t in both line equations |
| BisectorProperties.LlPointEquidistant | voronoidiagram_graph.hpp:204-225 | every point of the corrected line/line bisector has the value t in both line equations, so for normalized lines it is at distance t from both |
| BisectorProperties.LlPointEquidistantAsWritten | voronoidiagram_graph.hpp:211 | with the source's coefficients, the point at t has the value delta * t in both line equations |
| BisectorProperties.CrossingInputMeasures | voronoidiagram_graph.hpp:207 | the lines x = 0 and 0.6x + 0.8y = 0 are normalized and have delta 0.8 |
| BisectorProperties.LlOffsetsAtOne | voronoidiagram_graph.hpp:220 | for lines with delta 0.8, the source's `point(1)` has the value 0.8 in both line equations, the corrected one the value 1 |
| BisectorProperties.PlDiscriminant | voronoidiagram_graph.hpp:188-199 | x and y share one discriminant, alfa3 * (2t - alfa3), so both coordinates are reached or neither is |
| BisectorProperties.PlEvaluate | voronoidiagram_graph.hpp:143-149 | where reached, `point(t)` of the point/line coefficients is the point site moved by t - alfa3 along the normal and by the root along the line |
| BisectorProperties.PlEvaluateAsWritten | voronoidiagram_graph.hpp:193-200 | with the source's y[3] = a, the root term moves along (b, a) instead |
| BisectorProperties.ParabolaDistance | voronoidiagram_graph.hpp:180-202 | for a unit normal and a root of alfa3 * (2t - alfa3), that point is at distance t from the point site |
| BisectorProperties.ParabolaLine | voronoidiagram_graph.hpp:180-202 | for a unit normal, that point is at signed distance t from the line |
| BisectorProperties.PlPointDistance | voronoidiagram_graph.hpp:180-202 | the closed form of a point/line bisector point is at distance t from the point site |
| BisectorProperties.PlPointOnOffset | voronoidiagram_graph.hpp:180-202 | the closed form is at signed distance t from the normalized line |
| BisectorProperties.PlPointEquidistant | voronoidiagram_graph.hpp:180-202 | where reached, `point(t)` of the corrected point/line bisector is at distance t from the point site and from the line: it is on the bisector at offset t |
| BisectorProperties.PlApex | voronoidiagram_graph.hpp:180-202 | the parabola's apex, at t = alfa3 / 2, is the midpoint between the point site and its foot on the line |
| BisectorProperties.PlUnitExampleAtZero | voronoidiagram_graph.hpp:146-153 | point (0, 1) and line y = 0: `point(0)` is the origin, since the bisector is not reached there |
| BisectorProperties.PlUnitExampleAtHalf | voronoidiagram_graph.hpp:180-202 | point (0, 1) and line y = 0: `point(0.5)` is (0, 0.5) |
| BisectorProperties.PlEvaluateZeroRoot | voronoidiagram_graph.hpp:143-149 | where the discriminant is 0, `point(t)` is the closed form with root 0 |
| BisectorProperties.PlEvaluateUnitRoot | voronoidiagram_graph.hpp:143-149 | where the discriminant is 1, `point(t)` is the closed form with root 1, corrected and as written |
| BisectorProperties.ParabolaLineAsWritten | voronoidiagram_graph.hpp:196 | with y[3] = a, the point's signed distance from the line is t + 2ab * r, not t |
| BisectorProperties.PlCounterexamplePoints | voronoidiagram_graph.hpp:196 | point (0, 0), line 0.6x + 0.8y + 1 = 0, t = 1: `point(1)` is (0.8, 0.6) as written and (0.8, -0.6) corrected |
| BisectorProperties.SkewInputMeasures | voronoidiagram_graph.hpp:196 | on that input the line is normalized; (0.8, 0.6) is at distance 1 from the point but 1.96 from the line, while (0.8, -0.6) is at 1 from both |
| BisectorProperties.PlAsWrittenCounterexample | voronoidiagram_graph.hpp:196 | on that input the source's `point(1)` is off the bisector, and the corrected one is on it |
| BisectorProperties.StoreInOrder | voronoidiagram_graph.hpp:218-225 | in-order writes that fill an array's suffix replace that suffix by the written values |
| BisectorProperties.LlYAsWrittenOverruns | voronoidiagram_graph.hpp:226 | the source's write to y[8] falls outside the 8-slot array |
| BisectorProperties.LlYWritesStoreLlY | voronoidiagram_graph.hpp:218-225 | without that write, the writes stay inside y and leave exactly LlY, whatever y held before |
| BisectorProperties.FaceLessStrictOrder | voronoidiagram_graph.hpp:254 | `operator<` on faces is irreflexive, asymmetric and transitive |
| BisectorProperties.FaceLessByIndex | voronoidiagram_graph.hpp:254 | faces are ordered by index alone, and two faces are unordered exactly when their indices are equal |

## Left out

- Geometry.Sqrt: Dafny's real arithmetic cannot show that every non-negative real has a square root. The lemmas that need the root of a discriminant therefore take `HasSqrt` as a hypothesis, except where the discriminant is 0 or 1.
- VoronoiGraph.EdgeProps.PointAt: `point(t)` is a ghost function, because it uses that square root.
- VoronoiGraph.EdgeProps.SetPlParameters: writes y[3] = -a where line 196 writes a. The source's coefficients are VoronoiGraph.PlYAsWritten (see Findings).
- VoronoiGraph.WritePlY: writes y[3] = -a where line 196 writes a, as above.
- VoronoiGraph.EdgeProps.SetLlParameters: divides the slopes x[2] and y[2] by delta, which lines 211 and 220 do not, and leaves out the write to y[8] of line 226. The source's coefficients are VoronoiGraph.LlXAsWritten and VoronoiGraph.LlYAsWritten, and its writes to y are VoronoiGraph.LlYWritesAsWritten (see Findings).
- VoronoiGraph.WriteLlX: divides x[2] by delta, which line 211 does not.
- VoronoiGraph.WriteLlY: divides y[2] by delta, which line 220 does not, and leaves out the write to y[8] of line 226.
- VoronoiGraph.EdgeProps.SetParameters: stores the corrected coefficients of the two setters above. Arc sites (hyperbola, ellipse) have no setter in the source. That branch is `assert(0)`, so arc pairs are excluded by the precondition.
- VoronoiGraph.EdgeProps.SetLlParameters: `assert(delta != 0)` becomes a precondition. With assertions compiled out, the source divides by zero.
- VoronoiGraph.EdgeProps.constructor: the source leaves the coefficient arrays, `next`, `twin`, `face`, `k` and `type` uninitialized. The model leaves them arbitrary: the constructors' contracts say nothing of the coefficients, `kind` or `k`, which matches uninitialized storage.
- The `std::cout` messages of the setters and of `point`, and `print_params`, are output only.
- `double` is modelled as exact `real`. Rounding, NaN and infinities are not modelled.
- The offset direction `k` is a field that none of the modelled code reads or writes.
- `HEEdge` is a Boost graph edge descriptor. It is modelled as a plain handle; the half-edge graph (`HEDIGraph`, vertices, `VoronoiVertex`) is not part of this model.
- The `FaceProps` constructors (lines 250 and 252) leave `idx` uninitialized. The model has no such constructor: a face is always built with an index.
- A face's `Site*` is modelled as the site value; which site object it refers to is not modelled.
- src/solvers/solver.hpp is not part of this model.

## Findings

| source | as written | input that shows it | evidently intended | confidence | as-written member | corrected member |
|---|---|---|---|---|---|---|
| voronoidiagram_graph.hpp:226 | `set_ll_parameters` writes `y[8] = 0` into the 8-slot array `y` | any two non-parallel lines, e.g. x = 0 and y = 0 | only slots 0..7 are written | high, not executed | BisectorProperties.LlYAsWrittenOverruns | BisectorProperties.LlYWritesStoreLlY |
| voronoidiagram_graph.hpp:196 | `set_pl_parameters` sets `y[3] = a`, so the root term moves along (b, a) | point (0, 0), line 0.6x + 0.8y + 1 = 0, t = 1: `point(1)` = (0.8, 0.6), at distance 1 from the point but 1.96 from the line | `y[3] = -a`, so the term moves along the line, (b, -a); `point(1)` = (0.8, -0.6), at distance 1 from both | high, not executed | BisectorProperties.PlAsWrittenCounterexample | BisectorProperties.PlPointEquidistant |
| voronoidiagram_graph.hpp:211 | `set_ll_parameters` sets `x[2] = -(b2 - b1)` and, at line 220, `y[2] = -(a1 - a2)`, not divided by delta, so `point(t)` has the value delta * t in both line equations | lines x = 0 and 0.6x + 0.8y = 0 (normalized, delta = 0.8), t = 1: `point(1)` has the value 0.8 in both line equations, so it is at distance 0.8 from both lines, not 1 | the slopes divided by delta, so the point at t is at distance t from both lines; line 87 defines t as the amount of offset | medium, not executed | BisectorProperties.LlOffsetsAtOne | BisectorProperties.LlPointEquidistant |
