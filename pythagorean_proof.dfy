/**
 * The rearrangement proof of Pythagoras' theorem
 * (src/components/UnitCircle/PythagoreanProofCanvas.tsx).
 *
 * A square of side S = a + b holds four copies of a right triangle with legs
 * a and b. At step 1 they sit in the corners (config1) and leave a tilted
 * square of side c in the middle; at step 2 they are moved into two a-by-b
 * rectangles (config2) and leave the squares a² and b². The component keeps
 * the triangles and the edge-label positions in refs that the step effect
 * sets or tweens; the model keeps them as fields of a class and takes every
 * tween as finished, so the state is the tween's target.
 */
module PythagoreanProof {
  import opened TrigMath
  import opened Canvas
  import opened Types

  datatype Triangle = Triangle(p1: Point, p2: Point, p3: Point)

  /** Where the edge letters sit: x of the top a and b, y of the left a and b. */
  datatype LabelPositions = LabelPositions(topA: real, topB: real, leftA: real, leftB: real)

  /** The square's origin and side, and the two leg lengths. */
  datatype Layout = Layout(ox: real, oy: real, s: real, a: real, b: real)

  const PADDING: real := 30.0

  const BACKGROUND: string := "#1e293b"
  const FRAME_COLOR: string := "#64748b"
  const A_COLOR: string := "#3b82f6"
  const B_COLOR: string := "#ef4444"
  const EDGE_FONT: string := "bold 11px Inter, system-ui, sans-serif"
  const NUMERAL_FONT: string := "bold 12px Inter, system-ui, sans-serif"
  const C_FONT: string := "bold 9px Inter, system-ui, sans-serif"
  const C_SQUARE_FONT: string := "bold 18px Inter, system-ui, sans-serif"
  const SQUARE_FONT: string := "bold 14px Inter, system-ui, sans-serif"
  const TRIANGLE_EDGE: string := "rgba(255,255,255,0.3)"
  const C_COLOR: string := "#22d3ee"
  const C_SQUARE_FILL: string := "rgba(45, 212, 191, 0.2)"
  const C_SQUARE_COLOR: string := "#2dd4bf"
  const A_SQUARE_FILL: string := "rgba(59, 130, 246, 0.15)"
  const B_SQUARE_FILL: string := "rgba(239, 68, 68, 0.15)"
  const TRIANGLE_ALPHA: real := 0.85

  /** The layout for a canvas width: padding 30, S = width - 60, a = 0.4 S, b = 0.6 S. */
  function LayoutFor(width: real): (l: Layout)
    ensures l.a + l.b == l.s && l.ox == l.oy == PADDING && l.ox + l.s + PADDING == width
  {
    var s := width - PADDING * 2.0;
    Layout(PADDING, PADDING, s, s * 0.4, s * 0.6)
  }

  /** The facts about a layout the geometry needs: non-negative legs adding up to the side. */
  predicate Proper(l: Layout) { l.a >= 0.0 && l.b >= 0.0 && l.a + l.b == l.s }

  /** A canvas at least 60 wide has a proper layout. */
  lemma LayoutProper(width: real)
    requires width >= PADDING * 2.0
    ensures Proper(LayoutFor(width))
  {
  }

  // ---------------------------------------------------------------- keyframes

  /** getLabels1: top b|a, left a over b. */
  function Labels1(l: Layout): LabelPositions
  {
    LabelPositions(l.ox + l.b + l.a / 2.0, l.ox + l.b / 2.0, l.oy + l.a / 2.0, l.oy + l.a + l.b / 2.0)
  }

  /** getLabels2: top a|b, left b over a. */
  function Labels2(l: Layout): LabelPositions
  {
    LabelPositions(l.ox + l.a / 2.0, l.ox + l.a + l.b / 2.0, l.oy + l.b + l.a / 2.0, l.oy + l.b / 2.0)
  }

  /** getConfig1: the four triangles in the corners, their hypotenuses bounding the c² square. */
  function Config1(l: Layout): seq<Triangle>
  {
    var ox, oy, s, a, b := l.ox, l.oy, l.s, l.a, l.b;
    [Triangle(Point(ox, oy), Point(ox + b, oy), Point(ox, oy + a)),
     Triangle(Point(ox + s, oy), Point(ox + b, oy), Point(ox + s, oy + b)),
     Triangle(Point(ox + a, oy + s), Point(ox + s, oy + s), Point(ox + s, oy + b)),
     Triangle(Point(ox, oy + a), Point(ox, oy + s), Point(ox + a, oy + s))]
  }

  /** getConfig2: the triangles paired into two a-by-b rectangles. */
  function Config2(l: Layout): seq<Triangle>
  {
    var ox, oy, s, a, b := l.ox, l.oy, l.s, l.a, l.b;
    [Triangle(Point(ox + a, oy + b), Point(ox + b + a, oy + b), Point(ox + a, oy + a + b)),
     Triangle(Point(ox + s - b, oy), Point(ox + b - b, oy), Point(ox + s - b, oy + b)),
     Triangle(Point(ox + a, oy + s), Point(ox + s, oy + s), Point(ox + s, oy + b)),
     Triangle(Point(ox, oy + a - a), Point(ox, oy + s - a), Point(ox + a, oy + s - a))]
  }

  /** The corners of the c² square drawn at step 1, in drawing order. */
  function CSquare(l: Layout): seq<Point>
  {
    [Point(l.ox + l.b, l.oy), Point(l.ox + l.s, l.oy + l.b), Point(l.ox + l.a, l.oy + l.s), Point(l.ox, l.oy + l.a)]
  }

  predicate InSquare(l: Layout, p: Point)
  {
    l.ox <= p.x <= l.ox + l.s && l.oy <= p.y <= l.oy + l.s
  }

  predicate TriangleInSquare(l: Layout, t: Triangle)
  {
    InSquare(l, t.p1) && InSquare(l, t.p2) && InSquare(l, t.p3)
  }

  /** Every vertex of both keyframes lies in the outer square. */
  lemma KeyframesInSquare(l: Layout)
    requires Proper(l)
    ensures forall i :: 0 <= i < 4 ==> TriangleInSquare(l, Config1(l)[i]) && TriangleInSquare(l, Config2(l)[i])
    ensures forall i :: 0 <= i < 4 ==> InSquare(l, CSquare(l)[i])
  {
  }

  // ---------------------------------------------------------------- right triangles

  /** A right angle at r: the leg to u is horizontal and the leg to v vertical. */
  predicate RightAngleAt(r: Point, u: Point, v: Point) { r.y == u.y && r.x == v.x }

  /** {h, w} = {a, b}. */
  predicate LegsAB(h: real, w: real, a: real, b: real) { (h == a && w == b) || (h == b && w == a) }

  /** A right angle at r with one leg a and the other b. */
  predicate RightWithLegs(r: Point, u: Point, v: Point, a: real, b: real)
  {
    RightAngleAt(r, u, v) && LegsAB(Abs(u.x - r.x), Abs(v.y - r.y), a, b)
  }

  /**
   * Triangle number i has its right angle where both configurations put it:
   * at p1 for I and II, at p2 for III and IV, with one leg a and one leg b.
   */
  predicate RightAsPlaced(t: Triangle, i: int, a: real, b: real)
  {
    if i < 2 then RightWithLegs(t.p1, t.p2, t.p3, a, b)
    else if i == 2 then RightWithLegs(t.p2, t.p1, t.p3, a, b)
    else RightWithLegs(t.p2, t.p3, t.p1, a, b)
  }

  /** Every triangle of both configurations is a right triangle with legs a and b. */
  lemma ConfigTrianglesRight(l: Layout)
    requires Proper(l)
    ensures forall i :: 0 <= i < 4 ==> RightAsPlaced(Config1(l)[i], i, l.a, l.b) && RightAsPlaced(Config2(l)[i], i, l.a, l.b)
  {
  }

  /** Triangle III does not move between the two steps. */
  lemma TriangleThreeFixed(l: Layout)
    ensures Config1(l)[2] == Config2(l)[2]
  {
  }

  function Shift(t: Triangle, dx: real, dy: real): Triangle
  {
    Triangle(Point(t.p1.x + dx, t.p1.y + dy), Point(t.p2.x + dx, t.p2.y + dy), Point(t.p3.x + dx, t.p3.y + dy))
  }

  /** Step 2 only slides the triangles: I by (a, b), II by (-b, 0), III not at all, IV by (0, -a). */
  lemma Config2Translates(l: Layout)
    requires Proper(l)
    ensures Config2(l)[0] == Shift(Config1(l)[0], l.a, l.b)
    ensures Config2(l)[1] == Shift(Config1(l)[1], -l.b, 0.0)
    ensures Config2(l)[2] == Shift(Config1(l)[2], 0.0, 0.0)
    ensures Config2(l)[3] == Shift(Config1(l)[3], 0.0, -l.a)
  {
  }

  // ---------------------------------------------------------------- the c² square

  function Mid(p: Point, q: Point): Point { Point((p.x + q.x) / 2.0, (p.y + q.y) / 2.0) }

  /** The ends of the hypotenuse: the two vertices away from the right angle. */
  function HypotenuseEnds(t: Triangle, i: int): set<Point>
  {
    if i < 2 then {t.p2, t.p3} else {t.p1, t.p3}
  }

  /** In config1 the hypotenuses are exactly the sides of the c² square: triangle i spans corners i - 1 and i. */
  lemma HypotenusesBoundCSquare(l: Layout)
    requires Proper(l)
    ensures forall i :: 0 <= i < 4 ==> HypotenuseEnds(Config1(l)[i], i) == {CSquare(l)[(i + 3) % 4], CSquare(l)[i]}
  {
    var q := CSquare(l);
    assert HypotenuseEnds(Config1(l)[0], 0) == {q[3], q[0]};
    assert HypotenuseEnds(Config1(l)[1], 1) == {q[0], q[1]};
    assert HypotenuseEnds(Config1(l)[2], 2) == {q[1], q[2]};
    assert HypotenuseEnds(Config1(l)[3], 3) == {q[2], q[3]};
  }

  /** The sides of a quadrilateral as vectors: corner 0 to 1, 1 to 2, 2 to 3, 3 back to 0. */
  function Edges(q: seq<Point>): (e: seq<Point>)
    requires |q| == 4
    ensures |e| == 4
  {
    [Point(q[1].x - q[0].x, q[1].y - q[0].y), Point(q[2].x - q[1].x, q[2].y - q[1].y),
     Point(q[3].x - q[2].x, q[3].y - q[2].y), Point(q[0].x - q[3].x, q[0].y - q[3].y)]
  }

  /** A vector turned a quarter: (x, y) to (-y, x). */
  function Turn(v: Point): Point { Point(-v.y, v.x) }

  function Norm2(v: Point): real { v.x * v.x + v.y * v.y }

  /** The c² square is a square: each side is the previous one turned by a quarter, and its area is a² + b². */
  lemma CSquareIsSquare(l: Layout)
    requires Proper(l)
    ensures var e := Edges(CSquare(l));
      e[1] == Turn(e[0]) && e[2] == Turn(e[1]) && e[3] == Turn(e[2]) && e[0] == Turn(e[3])
    ensures forall i :: 0 <= i < 4 ==> Norm2(Edges(CSquare(l))[i]) == l.a * l.a + l.b * l.b
  {
    var e := Edges(CSquare(l));
    assert e == [Point(l.a, l.b), Point(-l.b, l.a), Point(-l.a, -l.b), Point(l.b, -l.a)];
  }

  // ---------------------------------------------------------------- the step 2 picture

  /** A closed axis-parallel rectangle [x, x + w] by [y, y + h]. */
  datatype Rect = Rect(x: real, y: real, w: real, h: real)

  predicate InRect(r: Rect, p: Point) { r.x <= p.x <= r.x + r.w && r.y <= p.y <= r.y + r.h }

  /** The interiors of two rectangles do not meet. */
  predicate Apart(r: Rect, q: Rect)
  {
    r.x + r.w <= q.x || q.x + q.w <= r.x || r.y + r.h <= q.y || q.y + q.h <= r.y
  }

  /** The a² square (bottom left) and the b² square (top right) drawn at step 2. */
  function ASquare(l: Layout): Rect { Rect(l.ox, l.oy + l.b, l.a, l.a) }
  function BSquare(l: Layout): Rect { Rect(l.ox + l.a, l.oy, l.b, l.b) }

  /** The two rectangles config2 fills: triangles I and III, and II and IV. */
  function LowerRight(l: Layout): Rect { Rect(l.ox + l.a, l.oy + l.b, l.b, l.a) }
  function UpperLeft(l: Layout): Rect { Rect(l.ox, l.oy, l.a, l.b) }

  predicate TriangleInRect(r: Rect, t: Triangle) { InRect(r, t.p1) && InRect(r, t.p2) && InRect(r, t.p3) }

  /**
   * At step 2 the triangles fill two a-by-b rectangles that share no interior
   * with the a² and b² squares or each other, and the four pieces cover the
   * outer square's area: 4 (ab / 2) + a² + b² = S².
   */
  lemma RearrangedPieces(l: Layout)
    requires Proper(l)
    ensures TriangleInRect(LowerRight(l), Config2(l)[0]) && TriangleInRect(LowerRight(l), Config2(l)[2])
    ensures TriangleInRect(UpperLeft(l), Config2(l)[1]) && TriangleInRect(UpperLeft(l), Config2(l)[3])
    ensures Apart(LowerRight(l), UpperLeft(l)) && Apart(LowerRight(l), ASquare(l)) && Apart(LowerRight(l), BSquare(l))
    ensures Apart(UpperLeft(l), ASquare(l)) && Apart(UpperLeft(l), BSquare(l)) && Apart(ASquare(l), BSquare(l))
    ensures 4.0 * (l.a * l.b / 2.0) + l.a * l.a + l.b * l.b == l.s * l.s
  {
    assert l.s * l.s == (l.a + l.b) * (l.a + l.b);
    assert (l.a + l.b) * (l.a + l.b) == l.a * l.a + 2.0 * (l.a * l.b) + l.b * l.b;
  }

  // ---------------------------------------------------------------- edge labels

  /** One coloured stretch of an edge, from start to end. */
  datatype Span = Span(start: real, end: real)

  /** The four stretches drawn beside the edges at a step (1 or 2). */
  datatype EdgeSpans = EdgeSpans(topA: Span, topB: Span, leftA: Span, leftB: Span)

  function SpansAt(l: Layout, step: int): EdgeSpans
  {
    var ox, oy, s, a, b := l.ox, l.oy, l.s, l.a, l.b;
    if step == 1 then EdgeSpans(Span(ox + b, ox + s), Span(ox, ox + b), Span(oy, oy + a), Span(oy + a, oy + s))
    else EdgeSpans(Span(ox, ox + a), Span(ox + a, ox + s), Span(oy + b, oy + s), Span(oy, oy + b))
  }

  function Centre(sp: Span): real { (sp.start + sp.end) / 2.0 }

  /** Two stretches, one of length a and one of length b, laid end to end over [from, from + S]. */
  predicate Tiles(x: Span, y: Span, from: real, l: Layout)
  {
    x.end - x.start == l.a && y.end - y.start == l.b
    && ((x.start == from && x.end == y.start && y.end == from + l.s)
     || (y.start == from && y.end == x.start && x.end == from + l.s))
  }

  /** Each letter sits in the middle of its stretch, and each edge is tiled by its a and b stretches. */
  lemma LabelsCentreSpans(l: Layout)
    requires Proper(l)
    ensures Labels1(l) == LabelPositions(Centre(SpansAt(l, 1).topA), Centre(SpansAt(l, 1).topB),
                                         Centre(SpansAt(l, 1).leftA), Centre(SpansAt(l, 1).leftB))
    ensures Labels2(l) == LabelPositions(Centre(SpansAt(l, 2).topA), Centre(SpansAt(l, 2).topB),
                                         Centre(SpansAt(l, 2).leftA), Centre(SpansAt(l, 2).leftB))
    ensures forall step :: step == 1 || step == 2 ==>
      Tiles(SpansAt(l, step).topA, SpansAt(l, step).topB, l.ox, l)
      && Tiles(SpansAt(l, step).leftA, SpansAt(l, step).leftB, l.oy, l)
  {
  }

  // ---------------------------------------------------------------- the c label

  /** Where the component writes "c": the midpoint of p2 and p3, whatever the triangle. */
  function CLabelAsWritten(t: Triangle): Point { Mid(t.p2, t.p3) }

  /** Where "c" belongs: the middle of the hypotenuse, which for III and IV runs from p1 to p3. */
  function CLabelSpot(t: Triangle, i: int): Point
  {
    if i < 2 then Mid(t.p2, t.p3) else Mid(t.p1, t.p3)
  }

  /**
   * For triangles III and IV, whose right angle is at p2, the midpoint of p2
   * and p3 is the middle of a leg, away from the hypotenuse's middle.
   */
  lemma CLabelAsWrittenOnLeg(l: Layout, i: int)
    requires Proper(l) && l.a > 0.0 && l.b > 0.0 && 2 <= i < 4
    ensures var t := Config1(l)[i];
      (t.p2.x == t.p3.x || t.p2.y == t.p3.y) && CLabelAsWritten(t) != CLabelSpot(t, i)
      && !Equidistant(CLabelAsWritten(t), t)
  {
    var t := Config1(l)[i];
    var m := CLabelAsWritten(t);
    if i == 2 {
      assert m.x - t.p2.x == 0.0 && m.y - t.p2.y == -(l.a / 2.0);
      assert m.x - t.p1.x == l.b && m.y - t.p1.y == -(l.a / 2.0);
      FartherByLeg(m.x - t.p2.x, m.y - t.p2.y, m.x - t.p1.x, m.y - t.p1.y);
    } else {
      assert m.x - t.p2.x == l.a / 2.0 && m.y - t.p2.y == 0.0;
      assert m.x - t.p1.x == l.a / 2.0 && m.y - t.p1.y == l.b;
      FartherByLeg(m.y - t.p2.y, m.x - t.p2.x, m.y - t.p1.y, m.x - t.p1.x);
    }
  }

  /**
   * Two offsets that agree on one axis, where the second is zero on the other
   * axis and the first positive, have different squared lengths.
   */
  lemma FartherByLeg(u2: real, v2: real, u1: real, v1: real)
    requires u2 == 0.0 && v1 == v2 && u1 > 0.0
    ensures Sq(u1) + Sq(v1) != Sq(u2) + Sq(v2)
  {
    SqPositive(u1);
    assert Sq(u2) == 0.0;
  }

  function Sq(x: real): real { x * x }

  lemma SqPositive(b: real)
    requires b > 0.0
    ensures Sq(b) > 0.0
  {
    calc {
      Sq(b);
    ==
      b * b;
    >  { PositiveSquare(b); }
      0.0;
    }
  }

  /** Squared distance between two points. */
  function Dist2(p: Point, q: Point): real { Sq(p.x - q.x) + Sq(p.y - q.y) }

  /** The middle of the side opposite a right angle is equally far from all three corners. */
  lemma HypotenuseMidEquidistant(r: Point, u: Point, v: Point)
    requires RightAngleAt(r, u, v)
    ensures Dist2(Mid(u, v), r) == Dist2(Mid(u, v), u) == Dist2(Mid(u, v), v)
  {
    var m := Mid(u, v);
    assert m.x - r.x == -(m.x - u.x) && m.y - r.y == -(m.y - v.y);
    assert m.y - u.y == m.y - r.y && m.x - v.x == m.x - r.x;
  }

  /** The spot is the centre of the triangle's circumcircle. */
  predicate Equidistant(p: Point, t: Triangle) { Dist2(p, t.p1) == Dist2(p, t.p2) == Dist2(p, t.p3) }

  /** The corrected spot is the middle of the hypotenuse in both configurations: equally far from all three corners. */
  lemma CLabelSpotOnHypotenuse(l: Layout)
    requires Proper(l)
    ensures forall i :: 0 <= i < 4 ==> Equidistant(CLabelSpot(Config1(l)[i], i), Config1(l)[i])
    ensures forall i :: 0 <= i < 4 ==> Equidistant(CLabelSpot(Config2(l)[i], i), Config2(l)[i])
  {
    ConfigTrianglesRight(l);
    forall i | 0 <= i < 4
      ensures Equidistant(CLabelSpot(Config1(l)[i], i), Config1(l)[i])
      ensures Equidistant(CLabelSpot(Config2(l)[i], i), Config2(l)[i])
    {
      var t, u := Config1(l)[i], Config2(l)[i];
      if i < 2 {
        HypotenuseMidEquidistant(t.p1, t.p2, t.p3);
        HypotenuseMidEquidistant(u.p1, u.p2, u.p3);
      } else if i == 2 {
        HypotenuseMidEquidistant(t.p2, t.p1, t.p3);
        HypotenuseMidEquidistant(u.p2, u.p1, u.p3);
      } else {
        HypotenuseMidEquidistant(t.p2, t.p3, t.p1);
        HypotenuseMidEquidistant(u.p2, u.p3, u.p1);
        assert Mid(t.p3, t.p1) == Mid(t.p1, t.p3) && Mid(u.p3, u.p1) == Mid(u.p1, u.p3);
      }
    }
  }

  // ---------------------------------------------------------------- drawing

  function TriangleColor(i: int): string
  {
    if i == 0 then "#219654" else if i == 1 then "#3267BF" else if i == 2 then "#AF3E7D" else "#B85D21"
  }

  function Numeral(i: int): string
  {
    if i == 0 then "I" else if i == 1 then "II" else if i == 2 then "III" else "IV"
  }

  function TrianglePath(t: Triangle): seq<PathOp>
  {
    [PathOp.MoveTo(t.p1), PathOp.LineTo(t.p2), PathOp.LineTo(t.p3), PathOp.ClosePath]
  }

  function Centroid(t: Triangle): Point
  {
    Point((t.p1.x + t.p2.x + t.p3.x) / 3.0, (t.p1.y + t.p2.y + t.p3.y) / 3.0)
  }

  /** The clear, the dark background and the outer square's outline. */
  function FrameCmds(l: Layout, width: real, height: real): seq<Cmd>
  {
    [Cmd.ClearRect(0.0, 0.0, width, height), Cmd.FillRect(0.0, 0.0, width, height, BACKGROUND),
     Cmd.StrokeRect(l.ox, l.oy, l.s, l.s, FRAME_COLOR, 2.0)]
  }

  function Letter(text: string, at: Point, color: string): Cmd
  {
    Cmd.FillText(text, at, color, EDGE_FONT, "center", "middle")
  }

  /** A letter written upright along the left edge: translated to (ox - 14, y) and turned a quarter back. */
  function RotatedLetter(l: Layout, text: string, y: real, color: string): seq<Cmd>
  {
    [Cmd.Save, Cmd.Translate(l.ox - 14.0, y), Cmd.Rotate(-PI / 2.0), Letter(text, Point(0.0, 0.0), color), Cmd.Restore]
  }

  function SpanStroke(from: Point, to: Point, color: string): Cmd
  {
    Cmd.Stroke([PathOp.MoveTo(from), PathOp.LineTo(to)], color, 3.0, [])
  }

  /** The four stretches, 6 outside the top and left edges. */
  function SpanCmds(l: Layout, step: int): seq<Cmd>
  {
    var sp := SpansAt(l, step);
    [SpanStroke(Point(sp.topA.start, l.oy - 6.0), Point(sp.topA.end, l.oy - 6.0), A_COLOR),
     SpanStroke(Point(sp.topB.start, l.oy - 6.0), Point(sp.topB.end, l.oy - 6.0), B_COLOR),
     SpanStroke(Point(l.ox - 6.0, sp.leftA.start), Point(l.ox - 6.0, sp.leftA.end), A_COLOR),
     SpanStroke(Point(l.ox - 6.0, sp.leftB.start), Point(l.ox - 6.0, sp.leftB.end), B_COLOR)]
  }

  /** The edge letters and stretches, drawn at steps 1 and 2 once labels exist. */
  function EdgeLabelCmds(l: Layout, step: int, labels: Option<LabelPositions>): seq<Cmd>
  {
    if (step == 1 || step == 2) && labels.Some? then
      var lp := labels.value;
      [Letter("a", Point(lp.topA, l.oy - 14.0), A_COLOR), Letter("b", Point(lp.topB, l.oy - 14.0), B_COLOR)]
      + RotatedLetter(l, "a", lp.leftA, A_COLOR) + RotatedLetter(l, "b", lp.leftB, B_COLOR)
      + SpanCmds(l, step)
    else []
  }

  /** One triangle: its fill at alpha 0.85, its faint outline, its numeral and, from step 1, its "c" (at the midpoint of p2 and p3, as written). */
  function TriangleCmds(step: int, t: Triangle, i: int): seq<Cmd>
  {
    [Cmd.Fill(TrianglePath(t), TriangleColor(i), TRIANGLE_ALPHA),
     Cmd.Stroke(TrianglePath(t), TRIANGLE_EDGE, 1.0, []),
     Cmd.FillText(Numeral(i), Centroid(t), "#ffffff", NUMERAL_FONT, "center", "middle")]
    + (if step >= 1 then [Cmd.FillText("c", CLabelAsWritten(t), C_COLOR, C_FONT, "center", "middle")] else [])
  }

  function TrianglesCmds(step: int, tris: seq<Triangle>): seq<Cmd>
  {
    if tris == [] then []
    else TrianglesCmds(step, tris[..|tris| - 1]) + TriangleCmds(step, tris[|tris| - 1], |tris| - 1)
  }

  function CSquarePath(l: Layout): seq<PathOp>
  {
    var q := CSquare(l);
    [PathOp.MoveTo(q[0]), PathOp.LineTo(q[1]), PathOp.LineTo(q[2]), PathOp.LineTo(q[3]), PathOp.ClosePath]
  }

  /** The c² square, drawn only at step 1 with all four triangles present. */
  function CSquareCmds(l: Layout, step: int, count: int): seq<Cmd>
  {
    if step == 1 && count == 4 then
      [Cmd.Fill(CSquarePath(l), C_SQUARE_FILL, 1.0), Cmd.Stroke(CSquarePath(l), C_SQUARE_COLOR, 2.0, []),
       Cmd.FillText("c²", Point(l.ox + l.s / 2.0, l.oy + l.s / 2.0), C_SQUARE_COLOR, C_SQUARE_FONT, "center", "middle")]
    else []
  }

  /** The a² and b² squares, drawn only at step 2. */
  function SquaresCmds(l: Layout, step: int): seq<Cmd>
  {
    if step == 2 then
      var sa, sb := ASquare(l), BSquare(l);
      [Cmd.FillRect(sa.x, sa.y, sa.w, sa.h, A_SQUARE_FILL), Cmd.StrokeRect(sa.x, sa.y, sa.w, sa.h, A_COLOR, 2.0),
       Cmd.FillText("a²", Point(l.ox + l.a / 2.0, l.oy + l.b + l.a / 2.0), A_COLOR, SQUARE_FONT, "center", "middle"),
       Cmd.FillRect(sb.x, sb.y, sb.w, sb.h, B_SQUARE_FILL), Cmd.StrokeRect(sb.x, sb.y, sb.w, sb.h, B_COLOR, 2.0),
       Cmd.FillText("b²", Point(l.ox + l.a + l.b / 2.0, l.oy + l.b / 2.0), B_COLOR, SQUARE_FONT, "center", "middle")]
    else []
  }

  function SceneCmds(l: Layout, width: real, height: real, step: int, tris: seq<Triangle>, labels: Option<LabelPositions>): seq<Cmd>
  {
    FrameCmds(l, width, height) + EdgeLabelCmds(l, step, labels) + TrianglesCmds(step, tris)
    + CSquareCmds(l, step, |tris|) + SquaresCmds(l, step)
  }

  /** The triangles and labels the step effect leaves once its tweens have finished. */
  function StateAfter(l: Layout, step: int, tris: seq<Triangle>, labels: Option<LabelPositions>): (seq<Triangle>, Option<LabelPositions>)
  {
    if step == 0 then ([], None)
    else if step == 1 then (Config1(l), Some(Labels1(l)))
    else if step == 2 then (Config2(l), Some(Labels2(l)))
    else (tris, labels)
  }

  /**
   * What each step shows: nothing but the frame and the numbered triangles'
   * absence at step 0; at step 1 the corner triangles, the c² square and no
   * a², b²; at step 2 the rearranged triangles, a² and b² and no c² square.
   */
  lemma SceneByStep(l: Layout, width: real, height: real, step: int, tris: seq<Triangle>, labels: Option<LabelPositions>)
    requires 0 <= step <= 2
    ensures var (t, lp) := StateAfter(l, step, tris, labels);
      (step == 0 ==> SceneCmds(l, width, height, step, t, lp) == FrameCmds(l, width, height))
      && (CSquareCmds(l, step, |t|) != [] <==> step == 1)
      && (SquaresCmds(l, step) != [] <==> step == 2)
      && (EdgeLabelCmds(l, step, lp) != [] <==> step != 0)
  {
    var (t, lp) := StateAfter(l, step, tris, labels);
    if step == 0 {
      assert t == [] && lp == None;
      assert SceneCmds(l, width, height, step, t, lp) == FrameCmds(l, width, height) + [] + [] + [] + [];
    }
  }

  // ---------------------------------------------------------------- the component

  class RearrangementCanvas {
    const width: real
    const height: real
    const layout: Layout
    /** trianglesRef.current */
    var triangles: seq<Triangle>
    /** labelsRef.current; None is null. */
    var labels: Option<LabelPositions>

    /** The refs hold no triangles exactly when they hold no labels, and then either none or all four. */
    predicate Valid()
      reads this
    {
      (|triangles| == 0 <==> labels.None?) && (|triangles| == 0 || |triangles| == 4)
    }

    /** The component mounts with empty refs; width and height default to 280. */
    constructor (width: real, height: real)
      ensures Valid() && this.width == width && this.height == height && layout == LayoutFor(width)
      ensures triangles == [] && labels == None
    {
      this.width := width;
      this.height := height;
      layout := LayoutFor(width);
      triangles := [];
      labels := None;
    }

    /** The step effect, every tween taken to its target. */
    method SetStep(step: int)
      requires Valid()
      modifies this
      ensures Valid()
      ensures (triangles, labels) == StateAfter(layout, step, old(triangles), old(labels))
    {
      var config1 := Config1(layout);
      var config2 := Config2(layout);
      var labels1 := Labels1(layout);
      var labels2 := Labels2(layout);
      if step == 0 {
        triangles := [];
        labels := None;
      } else if step == 1 {
        labels := Some(labels1);
        if |triangles| == 0 {
          triangles := config1;
        } else {
          MoveTrianglesTo(config1);
        }
      } else if step == 2 {
        if labels.None? {
          labels := Some(labels1);
        }
        if |triangles| == 0 {
          triangles := config1;
        }
        labels := Some(labels2);
        MoveTrianglesTo(config2);
      }
    }

    /** config.forEach((target, i) => tween triangle i to target). */
    method MoveTrianglesTo(config: seq<Triangle>)
      requires |triangles| == 4 && |config| == 4
      modifies this`triangles
      ensures triangles == config
    {
      var i := 0;
      while i < |config|
        invariant 0 <= i <= |config| && |triangles| == 4
        invariant triangles[..i] == config[..i]
      {
        triangles := triangles[i := config[i]];
        i := i + 1;
      }
    }

    /** The drawing effect, on the context that setting the canvas size has reset. */
    method Draw(step: int) returns (c: Recorder)
      requires Valid()
      ensures fresh(c)
      ensures c.drawn == SceneCmds(layout, width, height, step, triangles, labels)
    {
      c := new Recorder();
      DrawFrame(c, layout, width, height);
      DrawEdgeLabels(c, layout, step, labels);
      AppendBlocks([], FrameCmds(layout, width, height), EdgeLabelCmds(layout, step, labels));
      ghost var before := FrameCmds(layout, width, height) + EdgeLabelCmds(layout, step, labels);
      DrawTriangles(c, step, triangles);
      AppendBlocks([], before, TrianglesCmds(step, triangles));
      DrawCSquare(c, layout, step, |triangles|);
      AppendBlocks([], before + TrianglesCmds(step, triangles), CSquareCmds(layout, step, |triangles|));
      DrawSquares(c, layout, step);
      AppendBlocks([], before + TrianglesCmds(step, triangles) + CSquareCmds(layout, step, |triangles|), SquaresCmds(layout, step));
    }
  }

  method DrawFrame(c: Recorder, l: Layout, width: real, height: real)
    requires c.lineDash == [] && c.globalAlpha == 1.0
    modifies c
    ensures c.drawn == old(c.drawn) + FrameCmds(l, width, height)
    ensures c.lineDash == [] && c.globalAlpha == 1.0
  {
    c.ClearRect(0.0, 0.0, width, height);
    c.fillStyle := BACKGROUND;
    c.FillRect(0.0, 0.0, width, height);
    c.strokeStyle := FRAME_COLOR;
    c.lineWidth := 2.0;
    c.StrokeRect(l.ox, l.oy, l.s, l.s);
  }

  method DrawEdgeLabels(c: Recorder, l: Layout, step: int, labels: Option<LabelPositions>)
    requires c.lineDash == [] && c.globalAlpha == 1.0
    modifies c
    ensures c.drawn == old(c.drawn) + EdgeLabelCmds(l, step, labels)
    ensures c.lineDash == [] && c.globalAlpha == 1.0
  {
    if (step == 1 || step == 2) && labels.Some? {
      ghost var d := c.drawn;
      var lp := labels.value;
      c.font := EDGE_FONT;
      c.textAlign := "center";
      c.textBaseline := "middle";
      c.fillStyle := A_COLOR;
      c.FillText("a", Point(lp.topA, l.oy - 14.0));
      c.fillStyle := B_COLOR;
      c.FillText("b", Point(lp.topB, l.oy - 14.0));
      ghost var top := [Letter("a", Point(lp.topA, l.oy - 14.0), A_COLOR), Letter("b", Point(lp.topB, l.oy - 14.0), B_COLOR)];
      assert c.drawn == d + top;
      DrawRotatedLetter(c, l, "a", lp.leftA, A_COLOR);
      DrawRotatedLetter(c, l, "b", lp.leftB, B_COLOR);
      AppendBlocks(d, top, RotatedLetter(l, "a", lp.leftA, A_COLOR));
      AppendBlocks(d, top + RotatedLetter(l, "a", lp.leftA, A_COLOR), RotatedLetter(l, "b", lp.leftB, B_COLOR));
      DrawSpans(c, l, step);
      AppendBlocks(d, top + RotatedLetter(l, "a", lp.leftA, A_COLOR) + RotatedLetter(l, "b", lp.leftB, B_COLOR), SpanCmds(l, step));
    }
  }

  method DrawRotatedLetter(c: Recorder, l: Layout, text: string, y: real, color: string)
    requires c.font == EDGE_FONT && c.textAlign == "center" && c.textBaseline == "middle"
    modifies c`drawn, c`fillStyle
    ensures c.drawn == old(c.drawn) + RotatedLetter(l, text, y, color)
  {
    c.Save();
    c.Translate(l.ox - 14.0, y);
    c.Rotate(-PI / 2.0);
    c.fillStyle := color;
    c.FillText(text, Point(0.0, 0.0));
    c.Restore();
  }

  method DrawSpans(c: Recorder, l: Layout, step: int)
    requires c.lineDash == [] && c.globalAlpha == 1.0
    modifies c
    ensures c.drawn == old(c.drawn) + SpanCmds(l, step)
    ensures c.lineDash == [] && c.globalAlpha == 1.0
  {
    c.lineWidth := 3.0;
    var sp := SpansAt(l, step);
    DrawSpan(c, Point(sp.topA.start, l.oy - 6.0), Point(sp.topA.end, l.oy - 6.0), A_COLOR);
    DrawSpan(c, Point(sp.topB.start, l.oy - 6.0), Point(sp.topB.end, l.oy - 6.0), B_COLOR);
    DrawSpan(c, Point(l.ox - 6.0, sp.leftA.start), Point(l.ox - 6.0, sp.leftA.end), A_COLOR);
    DrawSpan(c, Point(l.ox - 6.0, sp.leftB.start), Point(l.ox - 6.0, sp.leftB.end), B_COLOR);
  }

  method DrawSpan(c: Recorder, from: Point, to: Point, color: string)
    requires c.lineDash == [] && c.lineWidth == 3.0
    modifies c`drawn, c`path, c`strokeStyle
    ensures c.drawn == old(c.drawn) + [SpanStroke(from, to, color)]
  {
    c.strokeStyle := color;
    c.BeginPath();
    c.MoveTo(from);
    c.LineTo(to);
    assert c.path == [PathOp.MoveTo(from), PathOp.LineTo(to)];
    c.Stroke();
  }

  /** trianglesRef.current.forEach((tri, i) => ...). */
  method DrawTriangles(c: Recorder, step: int, tris: seq<Triangle>)
    requires c.lineDash == [] && c.globalAlpha == 1.0
    modifies c
    ensures c.drawn == old(c.drawn) + TrianglesCmds(step, tris)
    ensures c.lineDash == [] && c.globalAlpha == 1.0
  {
    for i := 0 to |tris|
      invariant c.drawn == old(c.drawn) + TrianglesCmds(step, tris[..i])
      invariant c.lineDash == [] && c.globalAlpha == 1.0
    {
      DrawTriangle(c, step, tris[i], i);
      assert tris[..i + 1][..i] == tris[..i];
    }
    assert tris[..|tris|] == tris;
  }

  method DrawTriangle(c: Recorder, step: int, t: Triangle, i: int)
    requires c.lineDash == [] && c.globalAlpha == 1.0
    modifies c
    ensures c.drawn == old(c.drawn) + TriangleCmds(step, t, i)
    ensures c.lineDash == [] && c.globalAlpha == 1.0
  {
    ghost var d := c.drawn;
    DrawTriangleShape(c, t, i);
    DrawTriangleLabels(c, step, t, i);
    AppendBlocks(d, TriangleCmds(step, t, i)[..2], TriangleCmds(step, t, i)[2..]);
  }

  /** The fill at alpha 0.85 and the faint outline. */
  method DrawTriangleShape(c: Recorder, t: Triangle, i: int)
    requires c.lineDash == [] && c.globalAlpha == 1.0
    modifies c
    ensures c.drawn == old(c.drawn) + [Cmd.Fill(TrianglePath(t), TriangleColor(i), TRIANGLE_ALPHA), Cmd.Stroke(TrianglePath(t), TRIANGLE_EDGE, 1.0, [])]
    ensures c.lineDash == [] && c.globalAlpha == 1.0
  {
    c.BeginPath();
    c.MoveTo(t.p1);
    c.LineTo(t.p2);
    c.LineTo(t.p3);
    c.ClosePath();
    assert c.path == TrianglePath(t);
    c.fillStyle := TriangleColor(i);
    c.globalAlpha := TRIANGLE_ALPHA;
    c.Fill();
    c.globalAlpha := 1.0;
    c.strokeStyle := TRIANGLE_EDGE;
    c.lineWidth := 1.0;
    c.Stroke();
  }

  /** The numeral at the centroid and, from step 1, the "c". */
  method DrawTriangleLabels(c: Recorder, step: int, t: Triangle, i: int)
    modifies c`drawn, c`font, c`fillStyle, c`textAlign, c`textBaseline
    ensures c.drawn == old(c.drawn) + TriangleCmds(step, t, i)[2..]
  {
    var cx := (t.p1.x + t.p2.x + t.p3.x) / 3.0;
    var cy := (t.p1.y + t.p2.y + t.p3.y) / 3.0;
    c.font := NUMERAL_FONT;
    c.fillStyle := "#ffffff";
    c.textAlign := "center";
    c.textBaseline := "middle";
    c.FillText(Numeral(i), Point(cx, cy));
    if step >= 1 {
      var spot := Point((t.p2.x + t.p3.x) / 2.0, (t.p2.y + t.p3.y) / 2.0);
      c.font := C_FONT;
      c.fillStyle := C_COLOR;
      c.FillText("c", spot);
    }
  }

  method DrawCSquare(c: Recorder, l: Layout, step: int, count: int)
    requires c.lineDash == [] && c.globalAlpha == 1.0
    modifies c
    ensures c.drawn == old(c.drawn) + CSquareCmds(l, step, count)
    ensures c.lineDash == [] && c.globalAlpha == 1.0
  {
    if step == 1 && count == 4 {
      TraceCSquare(c, l);
      c.fillStyle := C_SQUARE_FILL;
      c.Fill();
      c.strokeStyle := C_SQUARE_COLOR;
      c.lineWidth := 2.0;
      c.Stroke();
      c.font := C_SQUARE_FONT;
      c.fillStyle := C_SQUARE_COLOR;
      c.textAlign := "center";
      c.textBaseline := "middle";
      c.FillText("c²", Point(l.ox + l.s / 2.0, l.oy + l.s / 2.0));
    }
  }

  method TraceCSquare(c: Recorder, l: Layout)
    modifies c`path
    ensures c.path == CSquarePath(l)
  {
    c.BeginPath();
    c.MoveTo(Point(l.ox + l.b, l.oy));
    c.LineTo(Point(l.ox + l.s, l.oy + l.b));
    c.LineTo(Point(l.ox + l.a, l.oy + l.s));
    c.LineTo(Point(l.ox, l.oy + l.a));
    c.ClosePath();
  }

  method DrawSquares(c: Recorder, l: Layout, step: int)
    requires c.lineDash == [] && c.globalAlpha == 1.0
    modifies c
    ensures c.drawn == old(c.drawn) + SquaresCmds(l, step)
    ensures c.lineDash == [] && c.globalAlpha == 1.0
  {
    if step == 2 {
      ghost var d := c.drawn;
      DrawASquare(c, l);
      DrawBSquare(c, l);
      AppendBlocks(d, SquaresCmds(l, step)[..3], SquaresCmds(l, step)[3..]);
    }
  }

  /** a² at the bottom left; it leaves the line width 2 and the text style for b². */
  method DrawASquare(c: Recorder, l: Layout)
    modifies c`drawn, c`fillStyle, c`strokeStyle, c`lineWidth, c`font, c`textAlign, c`textBaseline
    ensures c.drawn == old(c.drawn) + SquaresCmds(l, 2)[..3]
    ensures c.lineWidth == 2.0 && c.font == SQUARE_FONT && c.textAlign == "center" && c.textBaseline == "middle"
  {
    c.fillStyle := A_SQUARE_FILL;
    c.FillRect(l.ox, l.oy + l.b, l.a, l.a);
    c.strokeStyle := A_COLOR;
    c.lineWidth := 2.0;
    c.StrokeRect(l.ox, l.oy + l.b, l.a, l.a);
    c.font := SQUARE_FONT;
    c.fillStyle := A_COLOR;
    c.textAlign := "center";
    c.textBaseline := "middle";
    c.FillText("a²", Point(l.ox + l.a / 2.0, l.oy + l.b + l.a / 2.0));
  }

  /** b² at the top right, in the style a² left. */
  method DrawBSquare(c: Recorder, l: Layout)
    requires c.lineWidth == 2.0 && c.font == SQUARE_FONT && c.textAlign == "center" && c.textBaseline == "middle"
    modifies c`drawn, c`fillStyle, c`strokeStyle
    ensures c.drawn == old(c.drawn) + SquaresCmds(l, 2)[3..]
  {
    c.fillStyle := B_SQUARE_FILL;
    c.FillRect(l.ox + l.a, l.oy, l.b, l.b);
    c.strokeStyle := B_COLOR;
    c.StrokeRect(l.ox + l.a, l.oy, l.b, l.b);
    c.fillStyle := B_COLOR;
    c.FillText("b²", Point(l.ox + l.a + l.b / 2.0, l.oy + l.b / 2.0));
  }
}
