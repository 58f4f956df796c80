/**
 * The six proof overlays drawn over the unit circle
 * (src/components/UnitCircle/canvas/proofs.ts) and the context they share.
 *
 * Each overlay is a method on the canvas recorder; a specification function
 * lists the commands it appends, and lemmas state the geometry the overlay
 * is meant to show (right angles, the square on the hypotenuse, label sides).
 */
module ProofOverlays {
  import opened TrigMath
  import opened Canvas
  import opened CanvasHelpers
  import opened Types

  /**
   * ProofContext: the points and values every overlay reads. The source type
   * omits pYAxis, sec and csc, which the similar-triangle overlays read; they
   * are included here. The three lengths are the Math.sqrt results those
   * overlays take: |P - O|, |S - P| and |C - P|, with S = map(sec, 0) and
   * C = map(0, csc).
   */
  datatype ProofContext = ProofContext(
    origin: Point, pCircle: Point, pXAxis: Point, pYAxis: Point,
    cx: real, cy: real, mapper: Mapper,
    rad: real, cos: real, sin: real, tan: real, sec: real, csc: real,
    theme: Theme, js: JsMath,
    lenOP: real, lenPS: real, lenPC: real)
  {
    function PSec(): Point { mapper.Map(sec, 0.0) }
    function PCsc(): Point { mapper.Map(0.0, csc) }

    /** The three lengths are the non-negative square roots the source computes. */
    predicate RootsOk()
    {
      IsLength(lenOP, origin.x - pCircle.x, origin.y - pCircle.y)
      && IsLength(lenPS, PSec().x - pCircle.x, PSec().y - pCircle.y)
      && IsLength(lenPC, PCsc().x - pCircle.x, PCsc().y - pCircle.y)
    }

    /** The context as the renderer builds it: every point comes from the mapper. */
    predicate FromMapper()
    {
      origin == mapper.Map(0.0, 0.0) && pCircle == mapper.Map(cos, sin)
      && pXAxis == mapper.Map(cos, 0.0) && pYAxis == mapper.Map(0.0, sin)
      && cx == mapper.cx && cy == mapper.cy
    }
  }

  /** len = Math.sqrt(dx * dx + dy * dy). */
  predicate IsLength(len: real, dx: real, dy: real)
  {
    len >= 0.0 && len * len == dx * dx + dy * dy
  }

  /** d / len; JavaScript yields NaN for a zero length, which this model replaces by 0. */
  function Per(d: real, len: real): real
  {
    if len == 0.0 then 0.0 else d / len
  }

  /** +1 when the test holds, -1 otherwise: the `cond ? 1 : -1` choices of the source. */
  function Sign(nonNegative: bool): real { if nonNegative then 1.0 else -1.0 }

  /** The text alignment that puts a label on the far side of its anchor. */
  function SideAlign(toRight: bool): string { if toRight then "left" else "right" }

  function Closed(a: Point, b: Point, c: Point): seq<PathOp>
  {
    [PathOp.MoveTo(a), PathOp.LineTo(b), PathOp.LineTo(c), PathOp.ClosePath]
  }

  /** A centred label in the standard font. */
  function Label(str: string, p: Point, color: string): seq<Cmd>
  {
    TextCmds(str, p, color, "center", "middle")
  }

  function Solid(p1: Point, p2: Point, color: string, width: real): Cmd
  {
    LineStroke(p1, p2, color, width, [])
  }

  /** map(cos * k, sin * k): the point at fraction k along the radius. */
  function AlongRadius(pc: ProofContext, k: real): Point
  {
    pc.mapper.Map(pc.cos * k, pc.sin * k)
  }

  /** The anchor of the "sin" style label beside the vertical side, `gap` pixels out. */
  function BesideSine(pc: ProofContext, gap: real): Point
  {
    Point(pc.pXAxis.x + (if pc.cos >= 0.0 then gap else -gap), (pc.pXAxis.y + pc.pCircle.y) / 2.0)
  }

  const SINE_FILL: string := "rgba(155, 89, 182, 0.2)"
  const TANGENT_FILL: string := "rgba(230, 126, 34, 0.2)"
  const UNIT_FILL: string := "rgba(59, 130, 246, 0.1)"
  const TARGET_FILL: string := "rgba(16, 185, 129, 0.1)"
  const A_SQUARE_FILL: string := "rgba(59, 130, 246, 0.2)"
  const B_SQUARE_FILL: string := "rgba(239, 68, 68, 0.2)"
  const TRIANGLE_FILL: string := "rgba(100, 100, 100, 0.1)"
  const C_SQUARE_FILL: string := "rgba(16, 185, 129, 0.2)"
  const TARGET_SCALE: real := 1.35

  // ---------------------------------------------------------------- sine triangle

  function SineTriangleCmds(pc: ProofContext): seq<Cmd>
  {
    [Cmd.Fill(Closed(pc.origin, pc.pXAxis, pc.pCircle), SINE_FILL, 1.0),
     Solid(pc.origin, pc.pXAxis, pc.theme.cos, 4.0),
     Solid(pc.pXAxis, pc.pCircle, pc.theme.sin, 4.0),
     Solid(pc.origin, pc.pCircle, pc.theme.text, 2.0)]
    + Label("1", AlongRadius(pc, 0.5), pc.theme.text)
    + Label("cos", Point((pc.cx + pc.pXAxis.x) / 2.0, pc.cy + 15.0), pc.theme.cos)
    + TextCmds("sin", BesideSine(pc, 15.0), pc.theme.sin, SideAlign(pc.cos >= 0.0), "middle")
  }

  /** Fills the closed triangle a, b, e in `color` at the current alpha. */
  method FillTriangle(c: Recorder, a: Point, b: Point, e: Point, color: string)
    modifies c`path, c`fillStyle, c`drawn
    ensures c.drawn == old(c.drawn) + [Cmd.Fill(Closed(a, b, e), color, c.globalAlpha)]
  {
    c.BeginPath();
    c.fillStyle := color;
    c.MoveTo(a);
    c.LineTo(b);
    c.LineTo(e);
    c.ClosePath();
    assert c.path == Closed(a, b, e);
    c.Fill();
  }

  /** drawSineTriangleProof: the triangle O, (cos, 0), P filled and its three sides outlined. */
  method DrawSineTriangleProof(c: Recorder, pc: ProofContext)
    requires c.lineDash == [] && c.globalAlpha == 1.0
    modifies c
    ensures c.drawn == old(c.drawn) + SineTriangleCmds(pc)
    ensures c.lineDash == [] && c.globalAlpha == 1.0
  {
    ghost var d := old(c.drawn);
    FillTriangle(c, pc.origin, pc.pXAxis, pc.pCircle, SINE_FILL);
    DrawLine(c, pc.origin, pc.pXAxis, pc.theme.cos, 4.0);
    DrawLine(c, pc.pXAxis, pc.pCircle, pc.theme.sin, 4.0);
    DrawLine(c, pc.origin, pc.pCircle, pc.theme.text, 2.0);
    ghost var sides := [Cmd.Fill(Closed(pc.origin, pc.pXAxis, pc.pCircle), SINE_FILL, 1.0),
      Solid(pc.origin, pc.pXAxis, pc.theme.cos, 4.0), Solid(pc.pXAxis, pc.pCircle, pc.theme.sin, 4.0),
      Solid(pc.origin, pc.pCircle, pc.theme.text, 2.0)];
    assert c.drawn == d + sides;
    DrawText(c, "1", AlongRadius(pc, 0.5), pc.theme.text);
    AppendBlocks(d, sides, Label("1", AlongRadius(pc, 0.5), pc.theme.text));
    ghost var acc := sides + Label("1", AlongRadius(pc, 0.5), pc.theme.text);
    DrawText(c, "cos", Point((pc.cx + pc.pXAxis.x) / 2.0, pc.cy + 15.0), pc.theme.cos);
    AppendBlocks(d, acc, Label("cos", Point((pc.cx + pc.pXAxis.x) / 2.0, pc.cy + 15.0), pc.theme.cos));
    acc := acc + Label("cos", Point((pc.cx + pc.pXAxis.x) / 2.0, pc.cy + 15.0), pc.theme.cos);
    DrawText(c, "sin", BesideSine(pc, 15.0), pc.theme.sin, SideAlign(pc.cos >= 0.0));
    AppendBlocks(d, acc, TextCmds("sin", BesideSine(pc, 15.0), pc.theme.sin, SideAlign(pc.cos >= 0.0), "middle"));
  }

  /**
   * For a context built by the mapper, the sine triangle has its right angle at
   * (cos, 0): O and (cos, 0) lie on the pixel x-axis, (cos, 0) and P share their x.
   */
  lemma SineTriangleRightAngle(pc: ProofContext)
    requires pc.FromMapper()
    ensures pc.origin.y == pc.pXAxis.y == pc.cy
    ensures pc.pXAxis.x == pc.pCircle.x
    ensures (pc.origin.x - pc.pXAxis.x) * (pc.pCircle.x - pc.pXAxis.x)
          + (pc.origin.y - pc.pXAxis.y) * (pc.pCircle.y - pc.pXAxis.y) == 0.0
  {
  }

  /** The sine label sits right of the vertical side and aligns left exactly when cos >= 0. */
  lemma SineLabelSide(pc: ProofContext, gap: real)
    requires gap > 0.0
    ensures BesideSine(pc, gap).x > pc.pXAxis.x <==> pc.cos >= 0.0
    ensures SideAlign(pc.cos >= 0.0) == "left" <==> pc.cos >= 0.0
    ensures BesideSine(pc, gap).y == (pc.pXAxis.y + pc.pCircle.y) / 2.0
  {
  }

  // ---------------------------------------------------------------- tangent triangle

  /** The tangent triangle's corners: map(dir, 0) and map(dir, dir * tan), dir = sign of cos. */
  function TangentStart(pc: ProofContext): Point { pc.mapper.Map(Sign(pc.cos >= 0.0), 0.0) }
  function TangentEnd(pc: ProofContext): Point
  {
    var dir := Sign(pc.cos >= 0.0);
    pc.mapper.Map(dir, dir * pc.tan)
  }

  function TangentTriangleCmds(pc: ProofContext): seq<Cmd>
  {
    var dir := Sign(pc.cos >= 0.0);
    var pStart := TangentStart(pc);
    var pEnd := TangentEnd(pc);
    [Cmd.Fill(Closed(pc.origin, pStart, pEnd), TANGENT_FILL, 1.0),
     Solid(pc.origin, pStart, pc.theme.text, 3.0),
     Solid(pStart, pEnd, pc.theme.tan, 4.0),
     LineStroke(pc.origin, pEnd, pc.theme.text, 2.0, [6.0, 4.0])]
    + Label("1", Point((pc.origin.x + pStart.x) / 2.0, pc.cy + 20.0), pc.theme.text)
    + TextCmds("tan", Point(pStart.x + dir * 20.0, (pStart.y + pEnd.y) / 2.0), pc.theme.tan,
               SideAlign(dir > 0.0), "middle")
  }

  /** drawTangentTriangleProof: O, (dir, 0), (dir, dir * tan) with the tangent side in bold. */
  method DrawTangentTriangleProof(c: Recorder, pc: ProofContext)
    requires c.lineDash == [] && c.globalAlpha == 1.0
    modifies c
    ensures c.drawn == old(c.drawn) + TangentTriangleCmds(pc)
    ensures c.lineDash == [] && c.globalAlpha == 1.0
  {
    var dir := Sign(pc.cos >= 0.0);
    var pStart := TangentStart(pc);
    var pEnd := TangentEnd(pc);
    ghost var d := old(c.drawn);
    FillTriangle(c, pc.origin, pStart, pEnd, TANGENT_FILL);
    DrawLine(c, pc.origin, pStart, pc.theme.text, 3.0);
    DrawLine(c, pStart, pEnd, pc.theme.tan, 4.0);
    DrawLine(c, pc.origin, pEnd, pc.theme.text, 2.0, [6.0, 4.0]);
    ghost var sides := [Cmd.Fill(Closed(pc.origin, pStart, pEnd), TANGENT_FILL, 1.0),
      Solid(pc.origin, pStart, pc.theme.text, 3.0), Solid(pStart, pEnd, pc.theme.tan, 4.0),
      LineStroke(pc.origin, pEnd, pc.theme.text, 2.0, [6.0, 4.0])];
    assert c.drawn == d + sides;
    ghost var one := Label("1", Point((pc.origin.x + pStart.x) / 2.0, pc.cy + 20.0), pc.theme.text);
    DrawText(c, "1", Point((pc.origin.x + pStart.x) / 2.0, pc.cy + 20.0), pc.theme.text);
    AppendBlocks(d, sides, one);
    DrawText(c, "tan", Point(pStart.x + dir * 20.0, (pStart.y + pEnd.y) / 2.0), pc.theme.tan,
             SideAlign(dir > 0.0));
    AppendBlocks(d, sides + one, TextCmds("tan", Point(pStart.x + dir * 20.0, (pStart.y + pEnd.y) / 2.0), pc.theme.tan,
                                          SideAlign(dir > 0.0), "middle"));
  }

  /**
   * The tangent side is vertical (on the line x = dir) and starts on the pixel
   * x-axis, on the same side of the centre as P; so the triangle is right-angled
   * at its start.
   */
  lemma TangentTriangleGeometry(pc: ProofContext)
    requires pc.FromMapper() && pc.mapper.scale > 0.0
    ensures TangentStart(pc).x == TangentEnd(pc).x
    ensures TangentStart(pc).y == pc.cy == pc.origin.y
    ensures pc.cos >= 0.0 <==> TangentStart(pc).x > pc.cx
    ensures TangentStart(pc).x - pc.cx == Sign(pc.cos >= 0.0) * pc.mapper.scale
  {
  }

  // ---------------------------------------------------------------- general form (unit)

  function GeneralUnitCmds(pc: ProofContext): seq<Cmd>
  {
    [Cmd.Fill(Closed(pc.origin, pc.pXAxis, pc.pCircle), UNIT_FILL, 1.0),
     Solid(pc.origin, pc.pXAxis, pc.theme.text, 2.0),
     Solid(pc.pXAxis, pc.pCircle, pc.theme.sin, 3.0),
     Solid(pc.origin, pc.pCircle, pc.theme.text, 2.0)]
    + TextCmds("sin θ", BesideSine(pc, 20.0), pc.theme.sin, SideAlign(pc.cos >= 0.0), "middle")
    + Label("1", AlongRadius(pc, 0.5), pc.theme.text)
  }

  /** drawGeneralFormUnitProof: the unit triangle with its opposite side and hypotenuse labelled. */
  method DrawGeneralFormUnitProof(c: Recorder, pc: ProofContext)
    requires c.lineDash == [] && c.globalAlpha == 1.0
    modifies c
    ensures c.drawn == old(c.drawn) + GeneralUnitCmds(pc)
    ensures c.lineDash == [] && c.globalAlpha == 1.0
  {
    FillTriangle(c, pc.origin, pc.pXAxis, pc.pCircle, UNIT_FILL);
    DrawLine(c, pc.origin, pc.pXAxis, pc.theme.text, 2.0);
    DrawLine(c, pc.pXAxis, pc.pCircle, pc.theme.sin, 3.0);
    DrawLine(c, pc.origin, pc.pCircle, pc.theme.text, 2.0);
    DrawText(c, "sin θ", BesideSine(pc, 20.0), pc.theme.sin, SideAlign(pc.cos >= 0.0));
    DrawText(c, "1", AlongRadius(pc, 0.5), pc.theme.text);
  }

  /** The sine and unit overlays fill the same triangle and outline its three sides. */
  lemma UnitOverlaysShareTriangle(pc: ProofContext)
    ensures SineTriangleCmds(pc)[0].path == GeneralUnitCmds(pc)[0].path
    ensures Vertices(SineTriangleCmds(pc)[0].path) == [pc.origin, pc.pXAxis, pc.pCircle]
    ensures forall i :: 1 <= i <= 3 ==>
      SineTriangleCmds(pc)[i].path == GeneralUnitCmds(pc)[i].path
    ensures SineTriangleCmds(pc)[1].path == [PathOp.MoveTo(pc.origin), PathOp.LineTo(pc.pXAxis)]
    ensures SineTriangleCmds(pc)[2].path == [PathOp.MoveTo(pc.pXAxis), PathOp.LineTo(pc.pCircle)]
    ensures SineTriangleCmds(pc)[3].path == [PathOp.MoveTo(pc.origin), PathOp.LineTo(pc.pCircle)]
  {
    var path := Closed(pc.origin, pc.pXAxis, pc.pCircle);
    assert Vertices(path[3..]) == [];
    assert Vertices(path[2..]) == [pc.pCircle];
    assert Vertices(path[1..]) == [pc.pXAxis, pc.pCircle];
  }

  // ---------------------------------------------------------------- general form (target)

  function GenEnd(pc: ProofContext): Point { AlongRadius(pc, TARGET_SCALE) }
  function GenAxis(pc: ProofContext): Point { Point(GenEnd(pc).x, pc.origin.y) }

  function HSpot(pc: ProofContext): Point
  {
    pc.mapper.Map(pc.cos * TARGET_SCALE * 0.55, pc.sin * TARGET_SCALE * 0.55)
  }

  function OSpot(pc: ProofContext): Point
  {
    Point(GenAxis(pc).x + (if pc.cos >= 0.0 then 15.0 else -15.0), (GenAxis(pc).y + GenEnd(pc).y) / 2.0)
  }

  function ASpot(pc: ProofContext): Point
  {
    Point((pc.origin.x + GenAxis(pc).x) / 2.0, pc.cy + 15.0)
  }

  /** The dashed guide along the scaled radius, then the filled and outlined triangle. */
  function TargetShapeCmds(pc: ProofContext): seq<Cmd>
  {
    [LineStroke(pc.origin, GenEnd(pc), pc.theme.text, 1.0, [5.0, 5.0]),
     Cmd.Fill(Closed(pc.origin, GenAxis(pc), GenEnd(pc)), TARGET_FILL, 1.0),
     Solid(pc.origin, GenAxis(pc), pc.theme.text, 2.0),
     Solid(GenAxis(pc), GenEnd(pc), pc.theme.tan, 3.0),
     Solid(pc.origin, GenEnd(pc), pc.theme.text, 2.0)]
  }

  /** The hypotenuse, opposite and adjacent labels H, O and A. */
  function TargetLabelCmds(pc: ProofContext): seq<Cmd>
  {
    Label("H", HSpot(pc), pc.theme.text)
    + TextCmds("O", OSpot(pc), pc.theme.tan, SideAlign(pc.cos >= 0.0), "middle")
    + Label("A", ASpot(pc), pc.theme.text)
  }

  function GeneralTargetCmds(pc: ProofContext): seq<Cmd>
  {
    TargetShapeCmds(pc) + TargetLabelCmds(pc)
  }

  /** drawGeneralFormTargetProof: a dashed guide, then the scaled-up triangle labelled H, O, A. */
  method DrawGeneralFormTargetProof(c: Recorder, pc: ProofContext)
    requires c.lineDash == [] && c.globalAlpha == 1.0
    modifies c
    ensures c.drawn == old(c.drawn) + GeneralTargetCmds(pc)
    ensures c.lineDash == [] && c.globalAlpha == 1.0
  {
    DrawTargetShapes(c, pc);
    DrawTargetLabels(c, pc);
  }

  /** The first half of drawGeneralFormTargetProof: guide, fill and the three sides. */
  method DrawTargetShapes(c: Recorder, pc: ProofContext)
    requires c.lineDash == [] && c.globalAlpha == 1.0
    modifies c
    ensures c.drawn == old(c.drawn) + TargetShapeCmds(pc)
    ensures c.lineDash == [] && c.globalAlpha == 1.0
  {
    var pGenEnd := GenEnd(pc);
    var pGenAxis := GenAxis(pc);
    c.BeginPath();
    c.SetLineDash([5.0, 5.0]);
    c.strokeStyle := pc.theme.text;
    c.lineWidth := 1.0;
    c.MoveTo(pc.origin);
    c.LineTo(pGenEnd);
    assert c.path == [PathOp.MoveTo(pc.origin), PathOp.LineTo(pGenEnd)];
    c.Stroke();
    c.SetLineDash([]);
    FillTriangle(c, pc.origin, pGenAxis, pGenEnd, TARGET_FILL);
    DrawLine(c, pc.origin, pGenAxis, pc.theme.text, 2.0);
    DrawLine(c, pGenAxis, pGenEnd, pc.theme.tan, 3.0);
    DrawLine(c, pc.origin, pGenEnd, pc.theme.text, 2.0);
  }

  /** The second half of drawGeneralFormTargetProof: the three labels. */
  method DrawTargetLabels(c: Recorder, pc: ProofContext)
    modifies c
    ensures c.drawn == old(c.drawn) + TargetLabelCmds(pc)
    ensures c.lineDash == old(c.lineDash) && c.globalAlpha == old(c.globalAlpha)
  {
    DrawText(c, "H", HSpot(pc), pc.theme.text);
    DrawText(c, "O", OSpot(pc), pc.theme.tan, SideAlign(pc.cos >= 0.0));
    DrawText(c, "A", ASpot(pc), pc.theme.text);
  }

  /**
   * The target triangle is right-angled at its axis corner, which shares the
   * end point's x and the origin's y; the end point is the radius scaled by 1.35.
   */
  lemma TargetTriangleRightAngle(pc: ProofContext)
    ensures GenAxis(pc).x == GenEnd(pc).x && GenAxis(pc).y == pc.origin.y
    ensures GenEnd(pc) == pc.mapper.Map(pc.cos * 1.35, pc.sin * 1.35)
    ensures (pc.origin.x - GenAxis(pc).x) * (GenEnd(pc).x - GenAxis(pc).x)
          + (pc.origin.y - GenAxis(pc).y) * (GenEnd(pc).y - GenAxis(pc).y) == 0.0
  {
  }

  // ---------------------------------------------------------------- Pythagorean squares

  /** The side of the square on the adjacent side, and the one on the opposite side. */
  function CosSize(pc: ProofContext): real { Abs(pc.pXAxis.x - pc.origin.x) }
  function SinSize(pc: ProofContext): real { Abs(pc.pCircle.y - pc.pXAxis.y) }

  /** The square on the adjacent side: below the x-axis, starting at the smaller x. */
  function ASquare(pc: ProofContext, color: string): Cmd
  {
    Cmd.FillRect(Min(pc.origin.x, pc.pXAxis.x), pc.origin.y, CosSize(pc), CosSize(pc), color)
  }

  /** The square on the opposite side: beside it, towards the side of cos (negative width when cos < 0). */
  function BSquare(pc: ProofContext, color: string): Cmd
  {
    Cmd.FillRect(pc.pXAxis.x, Min(pc.pXAxis.y, pc.pCircle.y), SinSize(pc) * Sign(pc.cos >= 0.0), SinSize(pc), color)
  }

  function ASquareLabelSpot(pc: ProofContext): Point
  {
    Point((pc.origin.x + pc.pXAxis.x) / 2.0, pc.origin.y + CosSize(pc) / 2.0)
  }

  function BSquareLabelSpot(pc: ProofContext): Point
  {
    Point(pc.pXAxis.x + (SinSize(pc) * Sign(pc.cos >= 0.0)) / 2.0, (pc.pXAxis.y + pc.pCircle.y) / 2.0)
  }

  function SquaresCmds(pc: ProofContext): seq<Cmd>
  {
    [ASquare(pc, A_SQUARE_FILL), BSquare(pc, B_SQUARE_FILL)]
    + (if CosSize(pc) > 10.0 then Label("a²", ASquareLabelSpot(pc), pc.theme.cos) else [])
    + (if SinSize(pc) > 10.0 then Label("b²", BSquareLabelSpot(pc), pc.theme.sin) else [])
    + Label("c² = 1", AlongRadius(pc, 0.5), pc.theme.text)
  }

  /** drawPythagoreanSquaresProof: squares on both legs, labelled when wider than 10 pixels. */
  method DrawPythagoreanSquaresProof(c: Recorder, pc: ProofContext)
    requires c.lineDash == [] && c.globalAlpha == 1.0
    modifies c
    ensures c.drawn == old(c.drawn) + SquaresCmds(pc)
    ensures c.lineDash == [] && c.globalAlpha == 1.0
  {
    ghost var d := old(c.drawn);
    var cosSize := CosSize(pc);
    c.BeginPath();
    c.fillStyle := A_SQUARE_FILL;
    c.FillRect(Min(pc.origin.x, pc.pXAxis.x), pc.origin.y, cosSize, cosSize);
    var sinSize := SinSize(pc);
    c.BeginPath();
    c.fillStyle := B_SQUARE_FILL;
    var dir := Sign(pc.cos >= 0.0);
    c.FillRect(pc.pXAxis.x, Min(pc.pXAxis.y, pc.pCircle.y), sinSize * dir, sinSize);
    ghost var squares := [ASquare(pc, A_SQUARE_FILL), BSquare(pc, B_SQUARE_FILL)];
    assert c.drawn == d + squares;
    ghost var aLabel := if cosSize > 10.0 then Label("a²", ASquareLabelSpot(pc), pc.theme.cos) else [];
    if cosSize > 10.0 {
      DrawText(c, "a²", ASquareLabelSpot(pc), pc.theme.cos);
    }
    AppendBlocks(d, squares, aLabel);
    ghost var bLabel := if sinSize > 10.0 then Label("b²", BSquareLabelSpot(pc), pc.theme.sin) else [];
    if sinSize > 10.0 {
      DrawText(c, "b²", BSquareLabelSpot(pc), pc.theme.sin);
    }
    AppendBlocks(d, squares + aLabel, bLabel);
    DrawText(c, "c² = 1", AlongRadius(pc, 0.5), pc.theme.text);
    AppendBlocks(d, squares + aLabel + bLabel, Label("c² = 1", AlongRadius(pc, 0.5), pc.theme.text));
  }

  /** "a²" and "b²" appear exactly when their square is wider than 10 pixels; "c² = 1" always. */
  lemma SquaresLabelGuards(pc: ProofContext)
    ensures Label("a²", ASquareLabelSpot(pc), pc.theme.cos)[1] in SquaresCmds(pc) <==> CosSize(pc) > 10.0
    ensures Label("b²", BSquareLabelSpot(pc), pc.theme.sin)[1] in SquaresCmds(pc) <==> SinSize(pc) > 10.0
    ensures Label("c² = 1", AlongRadius(pc, 0.5), pc.theme.text)[1] in SquaresCmds(pc)
  {
    var cmds := SquaresCmds(pc);
    var a := Label("a²", ASquareLabelSpot(pc), pc.theme.cos)[1];
    var b := Label("b²", BSquareLabelSpot(pc), pc.theme.sin)[1];
    var last := Label("c² = 1", AlongRadius(pc, 0.5), pc.theme.text);
    assert cmds[|cmds| - 1] == last[1];
    if CosSize(pc) <= 10.0 {
      assert forall k :: 0 <= k < |cmds| ==> cmds[k].FillText? ==> cmds[k].text != "a²";
    }
    if SinSize(pc) <= 10.0 {
      assert forall k :: 0 <= k < |cmds| ==> cmds[k].FillText? ==> cmds[k].text != "b²";
    }
  }

  /**
   * The a-square has side |pXAxis.x - origin.x| and hangs below the x-axis from
   * the leftmost of the two; the b-square has side |P.y - pXAxis.y| and extends
   * from the vertical side towards the side of cos; both labels sit at the
   * centres of their squares.
   */
  lemma LegSquaresPlacement(pc: ProofContext)
    ensures ASquare(pc, A_SQUARE_FILL).w == ASquare(pc, A_SQUARE_FILL).h == CosSize(pc)
    ensures ASquare(pc, A_SQUARE_FILL).x == Min(pc.origin.x, pc.pXAxis.x)
    ensures ASquare(pc, A_SQUARE_FILL).y == pc.origin.y
    ensures ASquareLabelSpot(pc).x == ASquare(pc, A_SQUARE_FILL).x + CosSize(pc) / 2.0
    ensures ASquareLabelSpot(pc).y == pc.origin.y + CosSize(pc) / 2.0
    ensures BSquare(pc, B_SQUARE_FILL).h == SinSize(pc)
    ensures Abs(BSquare(pc, B_SQUARE_FILL).w) == SinSize(pc)
    ensures BSquare(pc, B_SQUARE_FILL).w >= 0.0 <==> (pc.cos >= 0.0 || SinSize(pc) == 0.0)
    ensures BSquareLabelSpot(pc).x == BSquare(pc, B_SQUARE_FILL).x + BSquare(pc, B_SQUARE_FILL).w / 2.0
    ensures BSquareLabelSpot(pc).y == Min(pc.pXAxis.y, pc.pCircle.y) + SinSize(pc) / 2.0
  {
  }

  // ---------------------------------------------------------------- general Pythagorean

  /** The far corners of the square on the hypotenuse O -> P: P3 = P2 - n·len, P4 = P1 - n·len. */
  function HypSquare3(pc: ProofContext): Point
  {
    var dx := pc.pCircle.x - pc.origin.x;
    var dy := pc.pCircle.y - pc.origin.y;
    var nx := Per(-dy, pc.lenOP);
    var ny := Per(dx, pc.lenOP);
    Point(pc.pCircle.x - nx * pc.lenOP, pc.pCircle.y - ny * pc.lenOP)
  }

  function HypSquare4(pc: ProofContext): Point
  {
    var dx := pc.pCircle.x - pc.origin.x;
    var dy := pc.pCircle.y - pc.origin.y;
    var nx := Per(-dy, pc.lenOP);
    var ny := Per(dx, pc.lenOP);
    Point(pc.origin.x - nx * pc.lenOP, pc.origin.y - ny * pc.lenOP)
  }

  function HypSquarePath(pc: ProofContext): seq<PathOp>
  {
    [PathOp.MoveTo(pc.origin), PathOp.LineTo(pc.pCircle), PathOp.LineTo(HypSquare3(pc)),
     PathOp.LineTo(HypSquare4(pc)), PathOp.ClosePath]
  }

  function HypSquareCentre(pc: ProofContext): Point
  {
    Point((pc.origin.x + HypSquare3(pc).x) / 2.0, (pc.origin.y + HypSquare3(pc).y) / 2.0)
  }

  /** The triangle, then each leg's square followed by its label. */
  function LegSquaresCmds(pc: ProofContext): seq<Cmd>
  {
    [Cmd.Fill(Closed(pc.origin, pc.pXAxis, pc.pCircle), TRIANGLE_FILL, 1.0),
     ASquare(pc, A_SQUARE_FILL)]
    + Label("a²", ASquareLabelSpot(pc), pc.theme.text)
    + [BSquare(pc, B_SQUARE_FILL)]
    + Label("b²", BSquareLabelSpot(pc), pc.theme.text)
  }

  /** The square on the hypotenuse, filled and outlined, labelled at its centre. */
  function HypSquareCmds(pc: ProofContext): seq<Cmd>
  {
    [Cmd.Fill(HypSquarePath(pc), C_SQUARE_FILL, 1.0),
     Cmd.Stroke(HypSquarePath(pc), pc.theme.text, 1.0, [])]
    + Label("c²", HypSquareCentre(pc), pc.theme.text)
  }

  /** The side names a, b and c beside the three sides. */
  function SideLabelCmds(pc: ProofContext): seq<Cmd>
  {
    Label("a", Point((pc.origin.x + pc.pXAxis.x) / 2.0, pc.cy - 10.0), pc.theme.text)
    + Label("b", Point(pc.pXAxis.x + Sign(pc.cos >= 0.0) * 10.0, (pc.pXAxis.y + pc.pCircle.y) / 2.0), pc.theme.text)
    + Label("c", AlongRadius(pc, 0.5), pc.theme.text)
  }

  function GeneralPythagCmds(pc: ProofContext): seq<Cmd>
  {
    LegSquaresCmds(pc) + HypSquareCmds(pc) + SideLabelCmds(pc)
  }

  /** drawPythagoreanGeneralProof: the triangle with squares on all three sides, labelled. */
  method DrawPythagoreanGeneralProof(c: Recorder, pc: ProofContext)
    requires c.lineDash == [] && c.globalAlpha == 1.0
    modifies c
    ensures c.drawn == old(c.drawn) + GeneralPythagCmds(pc)
    ensures c.lineDash == [] && c.globalAlpha == 1.0
  {
    DrawLegSquares(c, pc);
    DrawHypotenuseSquare(c, pc);
    DrawSideLabels(c, pc);
  }

  /** Steps 1 and 2 of drawPythagoreanGeneralProof: the triangle and the squares on its legs. */
  method DrawLegSquares(c: Recorder, pc: ProofContext)
    requires c.globalAlpha == 1.0
    modifies c
    ensures c.drawn == old(c.drawn) + LegSquaresCmds(pc)
    ensures c.lineDash == old(c.lineDash) && c.globalAlpha == 1.0
  {
    FillTriangle(c, pc.origin, pc.pXAxis, pc.pCircle, TRIANGLE_FILL);
    var dir := if pc.cos >= 0.0 then 1.0 else -1.0;
    var aSize := Abs(pc.pXAxis.x - pc.origin.x);
    c.fillStyle := A_SQUARE_FILL;
    c.FillRect(Min(pc.origin.x, pc.pXAxis.x), pc.origin.y, aSize, aSize);
    DrawText(c, "a²", Point((pc.origin.x + pc.pXAxis.x) / 2.0, pc.origin.y + aSize / 2.0), pc.theme.text);
    var bSize := Abs(pc.pCircle.y - pc.pXAxis.y);
    c.fillStyle := B_SQUARE_FILL;
    c.FillRect(pc.pXAxis.x, Min(pc.pXAxis.y, pc.pCircle.y), bSize * dir, bSize);
    DrawText(c, "b²", Point(pc.pXAxis.x + (bSize * dir) / 2.0, (pc.pXAxis.y + pc.pCircle.y) / 2.0), pc.theme.text);
  }

  /** The rotated square on the hypotenuse O -> P, built from the unit normal (-dy, dx) / len. */
  method DrawHypotenuseSquare(c: Recorder, pc: ProofContext)
    requires c.lineDash == [] && c.globalAlpha == 1.0
    modifies c
    ensures c.drawn == old(c.drawn) + HypSquareCmds(pc)
    ensures c.lineDash == [] && c.globalAlpha == 1.0
  {
    var p1 := pc.origin;
    var p2 := pc.pCircle;
    var dx := p2.x - p1.x;
    var dy := p2.y - p1.y;
    var len := pc.lenOP;
    var nx := Per(-dy, len);
    var ny := Per(dx, len);
    var p3 := Point(p2.x - nx * len, p2.y - ny * len);
    var p4 := Point(p1.x - nx * len, p1.y - ny * len);
    assert p3 == HypSquare3(pc) && p4 == HypSquare4(pc);
    c.BeginPath();
    c.fillStyle := C_SQUARE_FILL;
    c.MoveTo(p1);
    c.LineTo(p2);
    c.LineTo(p3);
    c.LineTo(p4);
    c.ClosePath();
    assert c.path == HypSquarePath(pc);
    c.Fill();
    c.strokeStyle := pc.theme.text;
    c.lineWidth := 1.0;
    c.Stroke();
    DrawText(c, "c²", Point((p1.x + p3.x) / 2.0, (p1.y + p3.y) / 2.0), pc.theme.text);
  }

  /** The last lines of drawPythagoreanGeneralProof: the names of the three sides. */
  method DrawSideLabels(c: Recorder, pc: ProofContext)
    modifies c
    ensures c.drawn == old(c.drawn) + SideLabelCmds(pc)
    ensures c.lineDash == old(c.lineDash) && c.globalAlpha == old(c.globalAlpha)
  {
    var dir := if pc.cos >= 0.0 then 1.0 else -1.0;
    DrawText(c, "a", Point((pc.origin.x + pc.pXAxis.x) / 2.0, pc.cy - 10.0), pc.theme.text);
    DrawText(c, "b", Point(pc.pXAxis.x + dir * 10.0, (pc.pXAxis.y + pc.pCircle.y) / 2.0), pc.theme.text);
    DrawText(c, "c", AlongRadius(pc, 0.5), pc.theme.text);
  }

  /**
   * With a non-zero hypotenuse, P3 - P2 = P4 - P1 = (dy, -dx): the side turned a
   * right angle from O -> P and of the same length, so O, P, P3, P4 is a square.
   */
  lemma HypotenuseSquareIsSquare(pc: ProofContext)
    requires IsLength(pc.lenOP, pc.pCircle.x - pc.origin.x, pc.pCircle.y - pc.origin.y)
    requires pc.lenOP > 0.0
    ensures var dx := pc.pCircle.x - pc.origin.x;
      var dy := pc.pCircle.y - pc.origin.y;
      HypSquare3(pc) == Point(pc.pCircle.x + dy, pc.pCircle.y - dx)
      && HypSquare4(pc) == Point(pc.origin.x + dy, pc.origin.y - dx)
    ensures var s1 := Point(pc.pCircle.x - pc.origin.x, pc.pCircle.y - pc.origin.y);
      var s2 := Point(HypSquare3(pc).x - pc.pCircle.x, HypSquare3(pc).y - pc.pCircle.y);
      s1.x * s2.x + s1.y * s2.y == 0.0
      && s2.x * s2.x + s2.y * s2.y == pc.lenOP * pc.lenOP
  {
    var dx := pc.pCircle.x - pc.origin.x;
    var dy := pc.pCircle.y - pc.origin.y;
    var len := pc.lenOP;
    assert Per(-dy, len) * len == -dy;
    assert Per(dx, len) * len == dx;
  }

  /** The "c²" label is the midpoint of both diagonals: the centre of the square. */
  lemma HypotenuseLabelAtCentre(pc: ProofContext)
    requires IsLength(pc.lenOP, pc.pCircle.x - pc.origin.x, pc.pCircle.y - pc.origin.y)
    requires pc.lenOP > 0.0
    ensures HypSquareCentre(pc).x == (pc.pCircle.x + HypSquare4(pc).x) / 2.0
    ensures HypSquareCentre(pc).y == (pc.pCircle.y + HypSquare4(pc).y) / 2.0
  {
    HypotenuseSquareIsSquare(pc);
  }
}
