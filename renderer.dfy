/**
 * drawUnitCircle (src/components/UnitCircle/UnitCircleRenderer.ts): one frame
 * of the unit-circle diagram, drawn block by block onto the canvas recorder.
 *
 * The blocks run in a fixed order: clear, quadrants, grid, circle, wedge,
 * radius, the two similar triangles, the geometric tangent and cotangent, the
 * cos, sin, tan, cot, sec and csc lines, the complementary angle, the proof
 * overlays, the axis intersections, the coordinates label and the point
 * marker. Each block is guarded by its toggle. The specification function
 * UnitCircleCmds lists the commands of a whole frame; the lemmas state what
 * the blocks promise (the radius is always drawn, the guards, the lines the
 * tangent and cotangent lie on, where the labels go).
 */
module Renderer {
  import opened TrigMath
  import opened Canvas
  import opened CanvasHelpers
  import opened Types
  import opened ProofOverlays
  import opened SimilarSecant
  import opened SimilarCosecant

  datatype AngleUnit = Deg | Rad

  /** UnitCircleState: the angle in degrees, how its label is shown, the toggles and the theme. */
  datatype UnitCircleState = UnitCircleState(angle: real, angleUnit: AngleUnit, toggles: Toggles, theme: Theme)

  /**
   * One call of drawUnitCircle: the canvas size and the state, plus what the
   * source obtains from Math: the six trigonometric values of the angle, the
   * functions used on derived angles, and the three square roots the
   * similar-triangle blocks take (|P - O|, |S - P| and |C - P|).
   */
  datatype Frame = Frame(width: real, height: real, state: UnitCircleState,
                         trig: TrigValues, js: JsMath, lenOP: real, lenPS: real, lenPC: real)

  const WEDGE_FILL: string := "rgba(52, 152, 219, 0.15)"
  const WEDGE_RADIUS: real := 50.0
  const COMP_RADIUS: real := 70.0

  predicate Shown(f: Frame, k: Toggle) { On(f.state.toggles, k) }

  /** R = min(W, H) / 4.2: the radius of the circle in pixels. */
  function Radius(f: Frame): real { Min(f.width, f.height) / 4.2 }

  /** map = createCoordinateMapper(W / 2, H / 2, R). */
  function FrameMapper(f: Frame): Mapper { Mapper(f.width / 2.0, f.height / 2.0, Radius(f)) }

  function Centre(f: Frame): Point { Point(f.width / 2.0, f.height / 2.0) }

  /** The points and values the blocks share, as the source computes them. */
  function Context(f: Frame): (pc: ProofContext)
    ensures pc.FromMapper() && pc.mapper == FrameMapper(f)
  {
    var m := FrameMapper(f);
    var t := f.trig;
    ProofContext(m.Map(0.0, 0.0), m.Map(t.cos, t.sin), m.Map(t.cos, 0.0), m.Map(0.0, t.sin),
      m.cx, m.cy, m, ToRad(f.state.angle), t.cos, t.sin, t.tan, t.sec, t.csc,
      f.state.theme, f.js, f.lenOP, f.lenPS, f.lenPC)
  }

  // ---------------------------------------------------------------- backdrop, circle, wedge, radius

  /** The clear, the background fill, the optional numerals and the two grid lines through the centre. */
  function BackdropCmds(f: Frame): seq<Cmd>
  {
    var w, h := f.width, f.height;
    var th := f.state.theme;
    [Cmd.ClearRect(0.0, 0.0, w, h), Cmd.FillRect(0.0, 0.0, w, h, th.bg)]
    + (if Shown(f, Toggle.Quadrants) then QuadrantCmds(w, h, th.isDark) else [])
    + [LineStroke(Point(0.0, h / 2.0), Point(w, h / 2.0), th.grid, 1.0, []),
       LineStroke(Point(w / 2.0, 0.0), Point(w / 2.0, h), th.grid, 1.0, [])]
  }

  /** The circle: a full arc of radius R around the centre, width 2 in the axis colour. */
  function CircleCmds(f: Frame): seq<Cmd>
  {
    [Cmd.Stroke([PathOp.Arc(Centre(f), Radius(f), 0.0, PI * 2.0, false)], f.state.theme.axis, 2.0, [])]
  }

  /** The wedge outline: centre, anticlockwise arc of radius 50 from 0 to -rad, back to the centre. */
  function WedgePath(f: Frame): seq<PathOp>
  {
    [PathOp.MoveTo(Centre(f)), PathOp.Arc(Centre(f), WEDGE_RADIUS, 0.0, -ToRad(f.state.angle), true),
     PathOp.LineTo(Centre(f))]
  }

  /** The wedge label: the angle as a multiple of pi to two decimals in radian mode, else theta. */
  function AngleText(f: Frame): string
  {
    if f.state.angleUnit == Rad then f.js.toFixed2(ToRad(f.state.angle) / PI) + "π" else "θ"
  }

  /** The wedge label sits at a quarter radius on the bisector of the angle. */
  function WedgeLabelSpot(f: Frame): Point
  {
    var mid := ToRad(f.state.angle) / 2.0;
    FrameMapper(f).Map(f.js.cos(mid) * 0.25, f.js.sin(mid) * 0.25)
  }

  function WedgeCmds(f: Frame): seq<Cmd>
  {
    [Cmd.Fill(WedgePath(f), WEDGE_FILL, 1.0)] + Label(AngleText(f), WedgeLabelSpot(f), f.state.theme.text)
  }

  /** The radius O -> P: solid width 2 labelled "1" with hypotenuse on, else dashed [4, 4] width 1. */
  function RadiusCmds(f: Frame): seq<Cmd>
  {
    var pc := Context(f);
    if Shown(f, Toggle.Hypotenuse) then
      [Solid(pc.origin, pc.pCircle, pc.theme.axis, 2.0)] + Label("1", AlongRadius(pc, 0.5), pc.theme.text)
    else
      [LineStroke(pc.origin, pc.pCircle, pc.theme.axis, 1.0, [4.0, 4.0])]
  }

  function BaseCmds(f: Frame): seq<Cmd>
  {
    BackdropCmds(f) + CircleCmds(f) + WedgeCmds(f) + RadiusCmds(f)
  }

  // ---------------------------------------------------------------- similar triangles and geometric lines

  /** The similarSec block: the secant overlay, whose own guard is |cos| > 0.001. */
  function SimilarSecBlock(f: Frame): seq<Cmd>
  {
    if Shown(f, Toggle.SimilarSec) then SimilarSecantCmds(Context(f)) else []
  }

  /** The similarCsc block: the renderer's cosecant variant, whose own guard is |sin| > 0.001. */
  function SimilarCscBlock(f: Frame): seq<Cmd>
  {
    if Shown(f, Toggle.SimilarCsc) then RendererCosecantCmds(Context(f)) else []
  }

  /** geoTan: dashed P -> S in the tan colour; geoCot: dashed P -> C in the cot colour. */
  function GeoCmds(f: Frame): seq<Cmd>
  {
    var pc := Context(f);
    (if Shown(f, Toggle.GeoTan) then [LineStroke(pc.pCircle, pc.PSec(), pc.theme.tan, 2.0, [6.0, 6.0])] else [])
    + (if Shown(f, Toggle.GeoCot) then [LineStroke(pc.pCircle, pc.PCsc(), pc.theme.cot, 2.0, [6.0, 6.0])] else [])
  }

  function ConstructionCmds(f: Frame): seq<Cmd>
  {
    SimilarSecBlock(f) + SimilarCscBlock(f) + GeoCmds(f)
  }

  // ---------------------------------------------------------------- the six function lines

  /** cos: O -> (cos, 0) in width 4, labelled below its middle; sin: (cos, 0) -> P, labelled beside it. */
  function CosSinCmds(f: Frame): seq<Cmd>
  {
    var pc := Context(f);
    (if Shown(f, Toggle.Cos) then
       [Solid(pc.origin, pc.pXAxis, pc.theme.cos, 4.0)]
       + Label("cos", Point((pc.cx + pc.pXAxis.x) / 2.0, pc.cy + 15.0), pc.theme.cos)
     else [])
    + (if Shown(f, Toggle.Sin) then
         [Solid(pc.pXAxis, pc.pCircle, pc.theme.sin, 4.0)]
         + TextCmds("sin", BesideSine(pc, 15.0), pc.theme.sin, SideAlign(pc.cos >= 0.0), "middle")
       else [])
  }

  /** The tan label: 20 pixels out from the tangent line, at the middle of the segment. */
  function TanLabelSpot(pc: ProofContext): Point
  {
    Point(TangentStart(pc).x + Sign(pc.cos >= 0.0) * 20.0, (TangentStart(pc).y + TangentEnd(pc).y) / 2.0)
  }

  /** tan: the guide O -> end, the segment on x = dir from (dir, 0) to (dir, dir * tan), its end point, its label. */
  function TanCmds(f: Frame): seq<Cmd>
  {
    var pc := Context(f);
    var th := pc.theme;
    if !Shown(f, Toggle.Tan) then []
    else
      [LineStroke(pc.origin, TangentEnd(pc), th.grid, 1.0, [5.0, 5.0]), Solid(TangentStart(pc), TangentEnd(pc), th.tan, 4.0)]
      + PointCmds(TangentEnd(pc), th.tan, th.bg, 1.0, [])
      + TextCmds("tan", TanLabelSpot(pc), th.tan, SideAlign(Sign(pc.cos >= 0.0) > 0.0), "middle")
  }

  /** The cotangent's direction: +1 when sin >= 0, else -1. */
  function CotDir(f: Frame): real { Sign(f.trig.sin >= 0.0) }

  function CotStart(f: Frame): Point { FrameMapper(f).Map(0.0, CotDir(f)) }

  function CotEnd(f: Frame): Point { FrameMapper(f).Map(CotDir(f) * f.trig.cot, CotDir(f)) }

  /** The cot label: 15 pixels off the line y = dir, over the middle of the segment. */
  function CotLabelSpot(f: Frame): Point
  {
    Point((CotStart(f).x + CotEnd(f).x) / 2.0, CotStart(f).y - CotDir(f) * 15.0)
  }

  /** The text baseline that puts a label above its anchor when `above`, else below it. */
  function BaselineFor(above: bool): string { if above then "bottom" else "top" }

  function CotBaseline(f: Frame): string { BaselineFor(CotDir(f) > 0.0) }

  /** cot: the guide O -> end, the segment on y = dir from (0, dir) to (dir * cot, dir), its end point, its label. */
  function CotCmds(f: Frame): seq<Cmd>
  {
    var pc := Context(f);
    var th := pc.theme;
    if !Shown(f, Toggle.Cot) then []
    else
      [LineStroke(pc.origin, CotEnd(f), th.grid, 1.0, [5.0, 5.0]), Solid(CotStart(f), CotEnd(f), th.cot, 4.0)]
      + PointCmds(CotEnd(f), th.cot, th.bg, 1.0, [])
      + TextCmds("cot", CotLabelSpot(f), th.cot, "center", CotBaseline(f))
  }

  /** sec: O -> S in width 4, labelled under its middle, with a point at S; csc likewise along the y-axis. */
  function SecCscCmds(f: Frame): seq<Cmd>
  {
    var pc := Context(f);
    var th := pc.theme;
    (if Shown(f, Toggle.Sec) then
       [Solid(pc.origin, pc.PSec(), th.sec, 4.0)]
       + Label("sec", Point((pc.cx + pc.PSec().x) / 2.0, pc.cy + 25.0), th.sec)
       + PointCmds(pc.PSec(), th.sec, th.bg, 1.0, [])
     else [])
    + (if Shown(f, Toggle.Csc) then
         [Solid(pc.origin, pc.PCsc(), th.csc, 4.0)]
         + Label("csc", Point(pc.cx + 15.0, (pc.cy + pc.PCsc().y) / 2.0), th.csc)
         + PointCmds(pc.PCsc(), th.csc, th.bg, 1.0, [])
       else [])
  }

  /**
   * comp: the arc of radius 70 from straight up to the radius (anticlockwise
   * when cos < 0) with its alpha label, then the alpha arc at P between the
   * vertical side and the radius with its label.
   */
  function CompCmds(f: Frame): seq<Cmd>
  {
    if !Shown(f, Toggle.Comp) then [] else CompAtCentreCmds(f) + CompAtPCmds(f)
  }

  /** The complementary angle at the centre: from straight up to the radius. */
  function CompAtCentreCmds(f: Frame): seq<Cmd>
  {
    var pc := Context(f);
    var compMid := (pc.rad + PI / 2.0) / 2.0;
    [Cmd.Stroke([PathOp.Arc(Centre(f), COMP_RADIUS, -PI / 2.0, -pc.rad, pc.cos < 0.0)], pc.theme.comp, 1.0, [])]
    + Label("α", pc.mapper.Map(pc.js.cos(compMid) * 0.45, pc.js.sin(compMid) * 0.45), pc.theme.comp)
  }

  /** The same angle at P, between the vertical side and the radius back to O. */
  function CompAtPCmds(f: Frame): seq<Cmd>
  {
    var pc := Context(f);
    var angToO := Heading(pc.js, pc.pCircle, pc.origin);
    var angToVert := Heading(pc.js, pc.pCircle, pc.pXAxis);
    [Cmd.Stroke([PathOp.Arc(pc.pCircle, 20.0, angToVert, angToO, false)], pc.theme.comp, 1.0, [])]
    + Label("α", Polar(pc.js, pc.pCircle, (angToVert + angToO) / 2.0, 35.0), pc.theme.comp)
  }

  function FunctionLineCmds(f: Frame): seq<Cmd>
  {
    CosSinCmds(f) + TanCmds(f) + CotCmds(f) + SecCscCmds(f) + CompCmds(f)
  }

  // ---------------------------------------------------------------- proof overlays

  /** The six proof overlays, each under its toggle, in the source's order. */
  /** The six proof toggles, in the order the overlays are drawn. */
  predicate IsProofToggle(k: Toggle)
  {
    k in {Toggle.ProofSinTri, Toggle.ProofTanTri, Toggle.ProofGeneralUnit,
          Toggle.ProofGeneralTarget, Toggle.ProofPythagSquares, Toggle.ProofPythagGeneral}
  }

  /** One proof overlay's commands, or nothing when its toggle is off. */
  function ProofBlock(f: Frame, k: Toggle): seq<Cmd>
    requires IsProofToggle(k)
  {
    var pc := Context(f);
    if !Shown(f, k) then []
    else match k
      case ProofSinTri => SineTriangleCmds(pc)
      case ProofTanTri => TangentTriangleCmds(pc)
      case ProofGeneralUnit => GeneralUnitCmds(pc)
      case ProofGeneralTarget => GeneralTargetCmds(pc)
      case ProofPythagSquares => SquaresCmds(pc)
      case ProofPythagGeneral => GeneralPythagCmds(pc)
  }

  function ProofCmds(f: Frame): seq<Cmd>
  {
    ProofBlock(f, Toggle.ProofSinTri) + ProofBlock(f, Toggle.ProofTanTri) + ProofBlock(f, Toggle.ProofGeneralUnit)
    + ProofBlock(f, Toggle.ProofGeneralTarget) + ProofBlock(f, Toggle.ProofPythagSquares) + ProofBlock(f, Toggle.ProofPythagGeneral)
  }

  // ---------------------------------------------------------------- axis intersections, coordinates, marker

  /** One entry of the intersections list: a point and its label. */
  datatype Crossing = Crossing(p: Point, text: string)

  /** The four places the circle meets the axes, in the source's order. */
  function Crossings(m: Mapper): seq<Crossing>
  {
    [Crossing(m.Map(1.0, 0.0), "(1, 0)"), Crossing(m.Map(-1.0, 0.0), "(-1, 0)"),
     Crossing(m.Map(0.0, 1.0), "(0, 1)"), Crossing(m.Map(0.0, -1.0), "(0, -1)")]
  }

  /** offsetX: 12 right of a point right of the centre, 12 left of one left of it, 0 on the axis. */
  function OffsetX(p: Point, cx: real): real { if p.x > cx then 12.0 else if p.x < cx then -12.0 else 0.0 }

  /** offsetY: 15 below a point below the centre, 15 above one above it, 0 on the axis. */
  function OffsetY(p: Point, cy: real): real { if p.y > cy then 15.0 else if p.y < cy then -15.0 else 0.0 }

  function CrossingAlign(p: Point, cx: real): string
  {
    if p.x > cx then "left" else if p.x < cx then "right" else "center"
  }

  /** The disc of radius 4 at one crossing and its label. */
  function DiscPath(p: Point): seq<PathOp> { [PathOp.Arc(p, 4.0, 0.0, PI * 2.0, false)] }

  /** Where a crossing's label goes: its point moved by offsetX and offsetY. */
  function CrossingSpot(f: Frame, q: Crossing): Point
  {
    Point(q.p.x + OffsetX(q.p, Centre(f).x), q.p.y + OffsetY(q.p, Centre(f).y))
  }

  function CrossingCmds(f: Frame, q: Crossing): seq<Cmd>
  {
    var th := f.state.theme;
    [Cmd.Fill(DiscPath(q.p), th.text, 1.0), Cmd.Stroke(DiscPath(q.p), th.bg, 1.0, [])]
    + TextCmds(q.text, CrossingSpot(f, q), th.text, CrossingAlign(q.p, Centre(f).x), "middle")
  }

  /** The commands for a list of crossings, one after another. */
  function CrossingsCmds(f: Frame, qs: seq<Crossing>): (r: seq<Cmd>)
    ensures |r| == 4 * |qs|
  {
    if qs == [] then [] else CrossingsCmds(f, qs[..|qs| - 1]) + CrossingCmds(f, qs[|qs| - 1])
  }

  function AxesCmds(f: Frame): seq<Cmd>
  {
    if Shown(f, Toggle.AxesIntersections) then CrossingsCmds(f, Crossings(FrameMapper(f))) else []
  }

  /** The coordinates label "(x, y)" with both values to two decimals. */
  function CoordinatesText(f: Frame): string
  {
    "(" + f.js.toFixed2(f.trig.cos) + ", " + f.js.toFixed2(f.trig.sin) + ")"
  }

  /** The coordinates label sits 15 pixels beside P horizontally and 20 pixels off it vertically, away from the axes. */
  function CoordinatesSpot(f: Frame): Point
  {
    var p := Context(f).pCircle;
    Point(p.x + (if f.trig.cos >= 0.0 then 15.0 else -15.0), p.y + (if f.trig.sin >= 0.0 then -20.0 else 20.0))
  }

  function ShowXYCmds(f: Frame): seq<Cmd>
  {
    if Shown(f, Toggle.ShowXY) then
      TextCmds(CoordinatesText(f), CoordinatesSpot(f), f.state.theme.text, SideAlign(f.trig.cos >= 0.0), "middle")
    else []
  }

  /** The point marker is drawn unless the target or the tangent proof is shown. */
  predicate MarkerShown(f: Frame)
  {
    !Shown(f, Toggle.ProofGeneralTarget) && !Shown(f, Toggle.ProofTanTri)
  }

  function MarkerCmds(f: Frame): seq<Cmd>
  {
    if MarkerShown(f) then PointCmds(Context(f).pCircle, f.state.theme.text, f.state.theme.bg, 1.0, []) else []
  }

  function TailCmds(f: Frame): seq<Cmd>
  {
    AxesCmds(f) + ShowXYCmds(f) + MarkerCmds(f)
  }

  /** Every command of one frame, block by block. */
  function UnitCircleCmds(f: Frame): seq<Cmd>
  {
    BaseCmds(f) + ConstructionCmds(f) + FunctionLineCmds(f) + ProofCmds(f) + TailCmds(f)
  }

  // ---------------------------------------------------------------- the drawing methods

  /** drawUnitCircle: one frame, appended to what the canvas already holds. */
  method DrawUnitCircle(c: Recorder, f: Frame)
    requires c.lineDash == [] && c.globalAlpha == 1.0
    modifies c
    ensures c.drawn == old(c.drawn) + UnitCircleCmds(f)
    ensures c.lineDash == [] && c.globalAlpha == 1.0
  {
    ghost var d := old(c.drawn);
    var pc := Context(f);
    DrawBase(c, f);
    DrawConstructions(c, f, pc);
    AppendBlocks(d, BaseCmds(f), ConstructionCmds(f));
    DrawFunctionLines(c, f, pc);
    AppendBlocks(d, BaseCmds(f) + ConstructionCmds(f), FunctionLineCmds(f));
    DrawProofs(c, f, pc);
    AppendBlocks(d, BaseCmds(f) + ConstructionCmds(f) + FunctionLineCmds(f), ProofCmds(f));
    DrawTail(c, f, pc);
    AppendBlocks(d, BaseCmds(f) + ConstructionCmds(f) + FunctionLineCmds(f) + ProofCmds(f), TailCmds(f));
  }

  method DrawBase(c: Recorder, f: Frame)
    requires c.lineDash == [] && c.globalAlpha == 1.0
    modifies c
    ensures c.drawn == old(c.drawn) + BaseCmds(f)
    ensures c.lineDash == [] && c.globalAlpha == 1.0
  {
    ghost var d := old(c.drawn);
    DrawBackdrop(c, f);
    DrawCircle(c, f);
    AppendBlocks(d, BackdropCmds(f), CircleCmds(f));
    DrawWedge(c, f);
    AppendBlocks(d, BackdropCmds(f) + CircleCmds(f), WedgeCmds(f));
    DrawRadius(c, f);
    AppendBlocks(d, BackdropCmds(f) + CircleCmds(f) + WedgeCmds(f), RadiusCmds(f));
  }

  method DrawBackdrop(c: Recorder, f: Frame)
    requires c.lineDash == [] && c.globalAlpha == 1.0
    modifies c
    ensures c.drawn == old(c.drawn) + BackdropCmds(f)
    ensures c.lineDash == [] && c.globalAlpha == 1.0
  {
    var w, h := f.width, f.height;
    var theme := f.state.theme;
    c.ClearRect(0.0, 0.0, w, h);
    c.fillStyle := theme.bg;
    c.FillRect(0.0, 0.0, w, h);
    if On(f.state.toggles, Toggle.Quadrants) {
      DrawQuadrants(c, w, h, theme.isDark);
    }
    DrawLine(c, Point(0.0, h / 2.0), Point(w, h / 2.0), theme.grid, 1.0);
    DrawLine(c, Point(w / 2.0, 0.0), Point(w / 2.0, h), theme.grid, 1.0);
  }

  method DrawCircle(c: Recorder, f: Frame)
    requires c.lineDash == [] && c.globalAlpha == 1.0
    modifies c`path, c`strokeStyle, c`lineWidth, c`drawn
    ensures c.drawn == old(c.drawn) + CircleCmds(f)
  {
    var cx, cy := f.width / 2.0, f.height / 2.0;
    var r := Min(f.width, f.height) / 4.2;
    c.BeginPath();
    c.strokeStyle := f.state.theme.axis;
    c.lineWidth := 2.0;
    c.Arc(Point(cx, cy), r, 0.0, PI * 2.0);
    assert c.path == [PathOp.Arc(Centre(f), Radius(f), 0.0, PI * 2.0, false)];
    c.Stroke();
  }

  method DrawWedge(c: Recorder, f: Frame)
    requires c.lineDash == [] && c.globalAlpha == 1.0
    modifies c
    ensures c.drawn == old(c.drawn) + WedgeCmds(f)
    ensures c.lineDash == [] && c.globalAlpha == 1.0
  {
    var cx, cy := f.width / 2.0, f.height / 2.0;
    var theme := f.state.theme;
    var rad := ToRad(f.state.angle);
    c.BeginPath();
    c.fillStyle := WEDGE_FILL;
    c.MoveTo(Point(cx, cy));
    c.Arc(Point(cx, cy), 50.0, 0.0, -rad, true);
    c.LineTo(Point(cx, cy));
    assert c.path == WedgePath(f);
    c.Fill();
    var mid := rad / 2.0;
    var angleText := AngleText(f);
    var mapper := FrameMapper(f);
    DrawText(c, angleText, mapper.Map(f.js.cos(mid) * 0.25, f.js.sin(mid) * 0.25), theme.text);
    AppendBlocks(old(c.drawn), [Cmd.Fill(WedgePath(f), WEDGE_FILL, 1.0)], Label(AngleText(f), WedgeLabelSpot(f), theme.text));
  }

  method DrawRadius(c: Recorder, f: Frame)
    requires c.lineDash == [] && c.globalAlpha == 1.0
    modifies c
    ensures c.drawn == old(c.drawn) + RadiusCmds(f)
    ensures c.lineDash == [] && c.globalAlpha == 1.0
  {
    var pc := Context(f);
    if On(f.state.toggles, Toggle.Hypotenuse) {
      DrawLine(c, pc.origin, pc.pCircle, pc.theme.axis, 2.0);
      DrawText(c, "1", pc.mapper.Map(pc.cos * 0.5, pc.sin * 0.5), pc.theme.text);
    } else {
      DrawLine(c, pc.origin, pc.pCircle, pc.theme.axis, 1.0, [4.0, 4.0]);
    }
  }

  method DrawConstructions(c: Recorder, f: Frame, pc: ProofContext)
    requires pc == Context(f)
    requires c.lineDash == [] && c.globalAlpha == 1.0
    modifies c
    ensures c.drawn == old(c.drawn) + ConstructionCmds(f)
    ensures c.lineDash == [] && c.globalAlpha == 1.0
  {
    ghost var d := old(c.drawn);
    if On(f.state.toggles, Toggle.SimilarSec) && Abs(pc.cos) > 0.001 {
      DrawSimilarSecant(c, pc);
    }
    assert c.drawn == d + SimilarSecBlock(f);
    if On(f.state.toggles, Toggle.SimilarCsc) && Abs(pc.sin) > 0.001 {
      DrawRendererCosecant(c, pc);
    }
    assert c.drawn == d + SimilarSecBlock(f) + SimilarCscBlock(f);
    DrawGeo(c, f, pc);
    AppendBlocks(d, SimilarSecBlock(f), SimilarCscBlock(f));
    AppendBlocks(d, SimilarSecBlock(f) + SimilarCscBlock(f), GeoCmds(f));
  }

  method DrawGeo(c: Recorder, f: Frame, pc: ProofContext)
    requires pc == Context(f)
    requires c.lineDash == [] && c.globalAlpha == 1.0
    modifies c
    ensures c.drawn == old(c.drawn) + GeoCmds(f)
    ensures c.lineDash == [] && c.globalAlpha == 1.0
  {
    ghost var d := old(c.drawn);
    if On(f.state.toggles, Toggle.GeoTan) {
      DrawLine(c, pc.pCircle, pc.mapper.Map(pc.sec, 0.0), pc.theme.tan, 2.0, [6.0, 6.0]);
    }
    ghost var tanPart := if Shown(f, Toggle.GeoTan) then [LineStroke(pc.pCircle, pc.PSec(), pc.theme.tan, 2.0, [6.0, 6.0])] else [];
    assert c.drawn == d + tanPart;
    if On(f.state.toggles, Toggle.GeoCot) {
      DrawLine(c, pc.pCircle, pc.mapper.Map(0.0, pc.csc), pc.theme.cot, 2.0, [6.0, 6.0]);
    }
    ghost var cotPart := if Shown(f, Toggle.GeoCot) then [LineStroke(pc.pCircle, pc.PCsc(), pc.theme.cot, 2.0, [6.0, 6.0])] else [];
    assert c.drawn == d + tanPart + cotPart;
    AppendBlocks(d, tanPart, cotPart);
  }

  method DrawFunctionLines(c: Recorder, f: Frame, pc: ProofContext)
    requires pc == Context(f)
    requires c.lineDash == [] && c.globalAlpha == 1.0
    modifies c
    ensures c.drawn == old(c.drawn) + FunctionLineCmds(f)
    ensures c.lineDash == [] && c.globalAlpha == 1.0
  {
    ghost var d := old(c.drawn);
    DrawCosSin(c, f, pc);
    DrawTan(c, f, pc);
    AppendBlocks(d, CosSinCmds(f), TanCmds(f));
    DrawCot(c, f, pc);
    AppendBlocks(d, CosSinCmds(f) + TanCmds(f), CotCmds(f));
    DrawSecCsc(c, f, pc);
    AppendBlocks(d, CosSinCmds(f) + TanCmds(f) + CotCmds(f), SecCscCmds(f));
    DrawComp(c, f, pc);
    AppendBlocks(d, CosSinCmds(f) + TanCmds(f) + CotCmds(f) + SecCscCmds(f), CompCmds(f));
  }

  method DrawCosSin(c: Recorder, f: Frame, pc: ProofContext)
    requires pc == Context(f)
    requires c.lineDash == [] && c.globalAlpha == 1.0
    modifies c
    ensures c.drawn == old(c.drawn) + CosSinCmds(f)
    ensures c.lineDash == [] && c.globalAlpha == 1.0
  {
    if On(f.state.toggles, Toggle.Cos) {
      DrawLine(c, pc.origin, pc.pXAxis, pc.theme.cos, 4.0);
      DrawText(c, "cos", Point((pc.cx + pc.pXAxis.x) / 2.0, pc.cy + 15.0), pc.theme.cos);
    }
    if On(f.state.toggles, Toggle.Sin) {
      DrawLine(c, pc.pXAxis, pc.pCircle, pc.theme.sin, 4.0);
      DrawText(c, "sin", Point(pc.pXAxis.x + (if pc.cos >= 0.0 then 15.0 else -15.0), (pc.pXAxis.y + pc.pCircle.y) / 2.0),
               pc.theme.sin, SideAlign(pc.cos >= 0.0));
    }
  }

  method DrawTan(c: Recorder, f: Frame, pc: ProofContext)
    requires pc == Context(f)
    requires c.lineDash == [] && c.globalAlpha == 1.0
    modifies c
    ensures c.drawn == old(c.drawn) + TanCmds(f)
    ensures c.lineDash == [] && c.globalAlpha == 1.0
  {
    if On(f.state.toggles, Toggle.Tan) {
      var dir := Sign(pc.cos >= 0.0);
      var pStart := TangentStart(pc);
      var pEnd := TangentEnd(pc);
      ghost var d := old(c.drawn);
      DrawLine(c, pc.origin, pEnd, pc.theme.grid, 1.0, [5.0, 5.0]);
      DrawLine(c, pStart, pEnd, pc.theme.tan, 4.0);
      ghost var lines := [LineStroke(pc.origin, TangentEnd(pc), pc.theme.grid, 1.0, [5.0, 5.0]),
                          Solid(TangentStart(pc), TangentEnd(pc), pc.theme.tan, 4.0)];
      AppendBlocks(d, [lines[0]], [lines[1]]);
      assert [lines[0]] + [lines[1]] == lines;
      DrawPoint(c, pEnd, pc.theme.tan, pc.theme.bg);
      ghost var dot := PointCmds(TangentEnd(pc), pc.theme.tan, pc.theme.bg, 1.0, []);
      AppendBlocks(d, lines, dot);
      DrawText(c, "tan", Point(pStart.x + dir * 20.0, (pStart.y + pEnd.y) / 2.0), pc.theme.tan,
               SideAlign(dir > 0.0));
      AppendBlocks(d, lines + dot, TextCmds("tan", TanLabelSpot(pc), pc.theme.tan, SideAlign(Sign(pc.cos >= 0.0) > 0.0), "middle"));
    }
  }

  method DrawCot(c: Recorder, f: Frame, pc: ProofContext)
    requires pc == Context(f)
    requires c.lineDash == [] && c.globalAlpha == 1.0
    modifies c
    ensures c.drawn == old(c.drawn) + CotCmds(f)
    ensures c.lineDash == [] && c.globalAlpha == 1.0
  {
    if On(f.state.toggles, Toggle.Cot) {
      var dir := CotDir(f);
      var pStart := CotStart(f);
      var pEnd := CotEnd(f);
      ghost var d := old(c.drawn);
      DrawLine(c, pc.origin, pEnd, pc.theme.grid, 1.0, [5.0, 5.0]);
      DrawLine(c, pStart, pEnd, pc.theme.cot, 4.0);
      ghost var lines := [LineStroke(pc.origin, CotEnd(f), pc.theme.grid, 1.0, [5.0, 5.0]),
                          Solid(CotStart(f), CotEnd(f), pc.theme.cot, 4.0)];
      AppendBlocks(d, [lines[0]], [lines[1]]);
      assert [lines[0]] + [lines[1]] == lines;
      DrawPoint(c, pEnd, pc.theme.cot, pc.theme.bg);
      ghost var dot := PointCmds(CotEnd(f), pc.theme.cot, pc.theme.bg, 1.0, []);
      AppendBlocks(d, lines, dot);
      DrawText(c, "cot", Point((pStart.x + pEnd.x) / 2.0, pStart.y - dir * 15.0), pc.theme.cot,
               "center", BaselineFor(dir > 0.0));
      AppendBlocks(d, lines + dot, TextCmds("cot", CotLabelSpot(f), pc.theme.cot, "center", CotBaseline(f)));
    }
  }

  method DrawSecCsc(c: Recorder, f: Frame, pc: ProofContext)
    requires pc == Context(f)
    requires c.lineDash == [] && c.globalAlpha == 1.0
    modifies c
    ensures c.drawn == old(c.drawn) + SecCscCmds(f)
    ensures c.lineDash == [] && c.globalAlpha == 1.0
  {
    if On(f.state.toggles, Toggle.Sec) {
      var pSec := pc.mapper.Map(pc.sec, 0.0);
      DrawLine(c, pc.origin, pSec, pc.theme.sec, 4.0);
      DrawText(c, "sec", Point((pc.cx + pSec.x) / 2.0, pc.cy + 25.0), pc.theme.sec);
      DrawPoint(c, pSec, pc.theme.sec, pc.theme.bg);
    }
    if On(f.state.toggles, Toggle.Csc) {
      var pCsc := pc.mapper.Map(0.0, pc.csc);
      DrawLine(c, pc.origin, pCsc, pc.theme.csc, 4.0);
      DrawText(c, "csc", Point(pc.cx + 15.0, (pc.cy + pCsc.y) / 2.0), pc.theme.csc);
      DrawPoint(c, pCsc, pc.theme.csc, pc.theme.bg);
    }
  }

  method DrawComp(c: Recorder, f: Frame, pc: ProofContext)
    requires pc == Context(f)
    requires c.lineDash == [] && c.globalAlpha == 1.0
    modifies c
    ensures c.drawn == old(c.drawn) + CompCmds(f)
    ensures c.lineDash == [] && c.globalAlpha == 1.0
  {
    if On(f.state.toggles, Toggle.Comp) {
      DrawCompAtCentre(c, f, pc);
      DrawCompAtP(c, f, pc);
      AppendBlocks(old(c.drawn), CompAtCentreCmds(f), CompAtPCmds(f));
    }
  }

  method DrawCompAtCentre(c: Recorder, f: Frame, pc: ProofContext)
    requires pc == Context(f)
    requires c.lineDash == [] && c.globalAlpha == 1.0
    modifies c
    ensures c.drawn == old(c.drawn) + CompAtCentreCmds(f)
    ensures c.lineDash == [] && c.globalAlpha == 1.0
  {
    c.BeginPath();
    c.strokeStyle := pc.theme.comp;
    c.lineWidth := 1.0;
    c.Arc(Point(pc.cx, pc.cy), 70.0, -PI / 2.0, -pc.rad, pc.cos < 0.0);
    assert c.path == [PathOp.Arc(Centre(f), COMP_RADIUS, -PI / 2.0, -pc.rad, pc.cos < 0.0)];
    c.Stroke();
    var compMid := (pc.rad + PI / 2.0) / 2.0;
    DrawText(c, "α", pc.mapper.Map(pc.js.cos(compMid) * 0.45, pc.js.sin(compMid) * 0.45), pc.theme.comp);
  }

  method DrawCompAtP(c: Recorder, f: Frame, pc: ProofContext)
    requires pc == Context(f)
    requires c.lineDash == [] && c.globalAlpha == 1.0
    modifies c
    ensures c.drawn == old(c.drawn) + CompAtPCmds(f)
    ensures c.lineDash == [] && c.globalAlpha == 1.0
  {
    var angToO := Heading(pc.js, pc.pCircle, pc.origin);
    var angToVert := Heading(pc.js, pc.pCircle, pc.pXAxis);
    c.BeginPath();
    c.strokeStyle := pc.theme.comp;
    c.lineWidth := 1.0;
    c.Arc(pc.pCircle, 20.0, angToVert, angToO, false);
    assert c.path == [PathOp.Arc(pc.pCircle, 20.0, angToVert, angToO, false)];
    c.Stroke();
    ghost var arc := [Cmd.Stroke([PathOp.Arc(pc.pCircle, 20.0, angToVert, angToO, false)], pc.theme.comp, 1.0, [])];
    assert c.drawn == old(c.drawn) + arc;
    var midAlpha2 := (angToVert + angToO) / 2.0;
    DrawText(c, "α", Polar(pc.js, pc.pCircle, midAlpha2, 35.0), pc.theme.comp);
    AppendBlocks(old(c.drawn), arc, Label("α", Polar(pc.js, pc.pCircle, midAlpha2, 35.0), pc.theme.comp));
  }

  method DrawProofs(c: Recorder, f: Frame, pc: ProofContext)
    requires pc == Context(f)
    requires c.lineDash == [] && c.globalAlpha == 1.0
    modifies c
    ensures c.drawn == old(c.drawn) + ProofCmds(f)
    ensures c.lineDash == [] && c.globalAlpha == 1.0
  {
    ghost var d := old(c.drawn);
    DrawProof(c, f, pc, Toggle.ProofSinTri);
    DrawProof(c, f, pc, Toggle.ProofTanTri);
    ghost var b := ProofBlock(f, Toggle.ProofSinTri);
    AppendBlocks(d, b, ProofBlock(f, Toggle.ProofTanTri));
    b := b + ProofBlock(f, Toggle.ProofTanTri);
    DrawProof(c, f, pc, Toggle.ProofGeneralUnit);
    AppendBlocks(d, b, ProofBlock(f, Toggle.ProofGeneralUnit));
    b := b + ProofBlock(f, Toggle.ProofGeneralUnit);
    DrawProof(c, f, pc, Toggle.ProofGeneralTarget);
    AppendBlocks(d, b, ProofBlock(f, Toggle.ProofGeneralTarget));
    b := b + ProofBlock(f, Toggle.ProofGeneralTarget);
    DrawProof(c, f, pc, Toggle.ProofPythagSquares);
    AppendBlocks(d, b, ProofBlock(f, Toggle.ProofPythagSquares));
    b := b + ProofBlock(f, Toggle.ProofPythagSquares);
    DrawProof(c, f, pc, Toggle.ProofPythagGeneral);
    AppendBlocks(d, b, ProofBlock(f, Toggle.ProofPythagGeneral));
  }

  /** One proof overlay, drawn when its toggle is on. */
  method DrawProof(c: Recorder, f: Frame, pc: ProofContext, k: Toggle)
    requires pc == Context(f) && IsProofToggle(k)
    requires c.lineDash == [] && c.globalAlpha == 1.0
    modifies c
    ensures c.drawn == old(c.drawn) + ProofBlock(f, k)
    ensures c.lineDash == [] && c.globalAlpha == 1.0
  {
    if On(f.state.toggles, k) {
      match k
      case ProofSinTri => DrawSineTriangleProof(c, pc);
      case ProofTanTri => DrawTangentTriangleProof(c, pc);
      case ProofGeneralUnit => DrawGeneralFormUnitProof(c, pc);
      case ProofGeneralTarget => DrawGeneralFormTargetProof(c, pc);
      case ProofPythagSquares => DrawPythagoreanSquaresProof(c, pc);
      case ProofPythagGeneral => DrawPythagoreanGeneralProof(c, pc);
    }
  }

  method DrawTail(c: Recorder, f: Frame, pc: ProofContext)
    requires pc == Context(f)
    requires c.lineDash == [] && c.globalAlpha == 1.0
    modifies c
    ensures c.drawn == old(c.drawn) + TailCmds(f)
    ensures c.lineDash == [] && c.globalAlpha == 1.0
  {
    ghost var d := old(c.drawn);
    DrawAxesIntersections(c, f);
    DrawShowXY(c, f, pc);
    AppendBlocks(d, AxesCmds(f), ShowXYCmds(f));
    DrawMarker(c, f, pc);
    AppendBlocks(d, AxesCmds(f) + ShowXYCmds(f), MarkerCmds(f));
  }

  /** The "(x, y)" readout beside P, when its toggle is on. */
  method DrawShowXY(c: Recorder, f: Frame, pc: ProofContext)
    requires pc == Context(f)
    modifies c
    ensures c.drawn == old(c.drawn) + ShowXYCmds(f)
    ensures c.lineDash == old(c.lineDash) && c.globalAlpha == old(c.globalAlpha)
  {
    if On(f.state.toggles, Toggle.ShowXY) {
      var coords := "(" + f.js.toFixed2(pc.cos) + ", " + f.js.toFixed2(pc.sin) + ")";
      var offsetX := if pc.cos >= 0.0 then 15.0 else -15.0;
      var offsetY := if pc.sin >= 0.0 then -20.0 else 20.0;
      DrawText(c, coords, Point(pc.pCircle.x + offsetX, pc.pCircle.y + offsetY), pc.theme.text,
               SideAlign(pc.cos >= 0.0));
    }
  }

  /** The marker on P, unless an overlay that draws its own point there is shown. */
  method DrawMarker(c: Recorder, f: Frame, pc: ProofContext)
    requires pc == Context(f)
    requires c.lineDash == [] && c.globalAlpha == 1.0
    modifies c
    ensures c.drawn == old(c.drawn) + MarkerCmds(f)
    ensures c.lineDash == [] && c.globalAlpha == 1.0
  {
    if !On(f.state.toggles, Toggle.ProofGeneralTarget) && !On(f.state.toggles, Toggle.ProofTanTri) {
      DrawPoint(c, pc.pCircle, pc.theme.text, pc.theme.bg);
    }
  }

  /** The intersections loop: one disc and one label per crossing, in list order. */
  method DrawAxesIntersections(c: Recorder, f: Frame)
    requires c.lineDash == [] && c.globalAlpha == 1.0
    modifies c
    ensures c.drawn == old(c.drawn) + AxesCmds(f)
    ensures c.lineDash == [] && c.globalAlpha == 1.0
  {
    if On(f.state.toggles, Toggle.AxesIntersections) {
      var intersections := Crossings(FrameMapper(f));
      for i := 0 to |intersections|
        invariant c.drawn == old(c.drawn) + CrossingsCmds(f, intersections[..i])
        invariant c.lineDash == [] && c.globalAlpha == 1.0
      {
        DrawCrossing(c, f, intersections[i]);
        AppendBlocks(old(c.drawn), CrossingsCmds(f, intersections[..i]), CrossingCmds(f, intersections[i]));
        assert intersections[..i + 1][..i] == intersections[..i];
      }
      assert intersections[..|intersections|] == intersections;
    }
  }

  /** One crossing: a disc of radius 4 with a border, and its label pushed away from the centre. */
  method DrawCrossing(c: Recorder, f: Frame, q: Crossing)
    requires c.lineDash == [] && c.globalAlpha == 1.0
    modifies c
    ensures c.drawn == old(c.drawn) + CrossingCmds(f, q)
    ensures c.lineDash == [] && c.globalAlpha == 1.0
  {
    var cx, cy := f.width / 2.0, f.height / 2.0;
    var theme := f.state.theme;
    var p, text := q.p, q.text;
    c.BeginPath();
    c.fillStyle := theme.text;
    c.Arc(p, 4.0, 0.0, PI * 2.0);
    assert c.path == DiscPath(p);
    c.Fill();
    c.strokeStyle := theme.bg;
    c.lineWidth := 1.0;
    c.Stroke();
    var offsetX := if p.x > cx then 12.0 else if p.x < cx then -12.0 else 0.0;
    var offsetY := if p.y > cy then 15.0 else if p.y < cy then -15.0 else 0.0;
    var align := CrossingAlign(p, cx);
    DrawText(c, text, Point(p.x + offsetX, p.y + offsetY), theme.text, align);
  }

  // ---------------------------------------------------------------- what a frame promises

  /** Every frame starts by clearing the whole canvas and painting it in the background colour. */
  lemma FrameStartsWithClear(f: Frame)
    ensures |UnitCircleCmds(f)| >= 2
    ensures UnitCircleCmds(f)[0] == Cmd.ClearRect(0.0, 0.0, f.width, f.height)
    ensures UnitCircleCmds(f)[1] == Cmd.FillRect(0.0, 0.0, f.width, f.height, f.state.theme.bg)
  {
    var b := BackdropCmds(f);
    PrefixKept(b, CircleCmds(f));
    b := b + CircleCmds(f);
    PrefixKept(b, WedgeCmds(f));
    b := b + WedgeCmds(f);
    PrefixKept(b, RadiusCmds(f));
    b := b + RadiusCmds(f);
    PrefixKept(b, ConstructionCmds(f));
    b := b + ConstructionCmds(f);
    PrefixKept(b, FunctionLineCmds(f));
    b := b + FunctionLineCmds(f);
    PrefixKept(b, ProofCmds(f));
    b := b + ProofCmds(f);
    PrefixKept(b, TailCmds(f));
  }

  /** Appending keeps the first two commands. */
  lemma PrefixKept(a: seq<Cmd>, b: seq<Cmd>)
    requires |a| >= 2
    ensures |a + b| >= 2 && (a + b)[0] == a[0] && (a + b)[1] == a[1]
  {
  }

  /**
   * With every toggle off a frame is the backdrop without numerals, the
   * circle, the wedge and its label, the dashed radius and the point marker:
   * eleven commands.
   */
  lemma BareFrame(f: Frame)
    requires forall k :: !Shown(f, k)
    ensures var pc := Context(f);
      UnitCircleCmds(f) == BackdropCmds(f) + CircleCmds(f) + WedgeCmds(f)
        + [LineStroke(pc.origin, pc.pCircle, f.state.theme.axis, 1.0, [4.0, 4.0])]
        + PointCmds(pc.pCircle, f.state.theme.text, f.state.theme.bg, 1.0, [])
    ensures |UnitCircleCmds(f)| == 11
  {
    assert !Shown(f, Toggle.Quadrants) && !Shown(f, Toggle.Hypotenuse);
    assert !Shown(f, Toggle.SimilarSec) && !Shown(f, Toggle.SimilarCsc);
    assert !Shown(f, Toggle.GeoTan) && !Shown(f, Toggle.GeoCot);
    assert ConstructionCmds(f) == [];
    assert !Shown(f, Toggle.Cos) && !Shown(f, Toggle.Sin) && !Shown(f, Toggle.Tan) && !Shown(f, Toggle.Cot);
    assert !Shown(f, Toggle.Sec) && !Shown(f, Toggle.Csc) && !Shown(f, Toggle.Comp);
    assert FunctionLineCmds(f) == [];
    assert !Shown(f, Toggle.ProofSinTri) && !Shown(f, Toggle.ProofTanTri) && !Shown(f, Toggle.ProofGeneralUnit);
    assert !Shown(f, Toggle.ProofGeneralTarget) && !Shown(f, Toggle.ProofPythagSquares) && !Shown(f, Toggle.ProofPythagGeneral);
    assert ProofCmds(f) == [];
    assert !Shown(f, Toggle.AxesIntersections) && !Shown(f, Toggle.ShowXY);
    assert TailCmds(f) == MarkerCmds(f);
  }

  /**
   * The radius O -> P is drawn in every frame, in the axis colour: solid,
   * width 2 and labelled "1" at its middle exactly when the hypotenuse toggle
   * is on, dashed [4, 4] and width 1 otherwise. It follows the backdrop, the
   * circle and the three wedge commands.
   */
  lemma RadiusAlwaysDrawn(f: Frame)
    ensures var r := RadiusCmds(f);
      var pc := Context(f);
      && (|r| == 1 || |r| == 3)
      && r[0].Stroke? && r[0].path == [PathOp.MoveTo(pc.origin), PathOp.LineTo(pc.pCircle)]
      && r[0].color == f.state.theme.axis
      && (Shown(f, Toggle.Hypotenuse) <==> |r| == 3)
      && (Shown(f, Toggle.Hypotenuse) <==> r[0].dash == [])
      && r[0].width == (if Shown(f, Toggle.Hypotenuse) then 2.0 else 1.0)
      && (|r| == 3 ==> r[2].FillText? && r[2].text == "1" && r[2].at == AlongRadius(pc, 0.5))
    ensures UnitCircleCmds(f)[|BackdropCmds(f)| + 4] == RadiusCmds(f)[0]
  {
    assert |CircleCmds(f)| == 1 && |WedgeCmds(f)| == 3;
  }

  /** P is drawn on the circle: for cos^2 + sin^2 = 1 it is exactly R away from the centre. */
  lemma PointOnCircle(f: Frame)
    requires OnUnitCircle(f.trig.cos, f.trig.sin)
    ensures Context(f).origin == Centre(f)
    ensures var p := Context(f).pCircle; var d := Centre(f);
      (p.x - d.x) * (p.x - d.x) + (p.y - d.y) * (p.y - d.y) == Radius(f) * Radius(f)
  {
    var cos, sin, r := f.trig.cos, f.trig.sin, Radius(f);
    UnitBound(cos, sin);
    var p := Context(f).pCircle;
    assert p == Point(f.width / 2.0 + cos * r, f.height / 2.0 - sin * r);
    calc {
      (cos * r) * (cos * r) + (sin * r) * (sin * r);
      (cos * cos + sin * sin) * (r * r);
      r * r;
    }
  }

  /** With a canvas of positive size the circle, of radius R = min(W, H) / 4.2, lies strictly inside it. */
  lemma CircleInsideCanvas(f: Frame)
    requires f.width > 0.0 && f.height > 0.0
    ensures Radius(f) > 0.0
    ensures 0.0 < Centre(f).x - Radius(f) && Centre(f).x + Radius(f) < f.width
    ensures 0.0 < Centre(f).y - Radius(f) && Centre(f).y + Radius(f) < f.height
  {
  }

  /**
   * The two similar-triangle blocks appear exactly when their toggle is on and
   * their own guard holds: |cos| > 0.001 for the secant triangle, whose
   * 23 commands start with the fill of O, P, S, and |sin| > 0.001 for the
   * cosecant one, whose 10 commands start with the fill of O, P, C.
   */
  lemma ConstructionGuards(f: Frame)
    ensures SimilarSecBlock(f) != [] <==> Shown(f, Toggle.SimilarSec) && Abs(f.trig.cos) > 0.001
    ensures SimilarCscBlock(f) != [] <==> Shown(f, Toggle.SimilarCsc) && Abs(f.trig.sin) > 0.001
    ensures var pc := Context(f);
      SimilarSecBlock(f) != [] ==> (|SimilarSecBlock(f)| == 23
        && SimilarSecBlock(f)[0] == Cmd.Fill(Open(pc.origin, pc.pCircle, pc.PSec()), SECANT_FILL, 1.0))
    ensures var pc := Context(f);
      SimilarCscBlock(f) != [] ==> (|SimilarCscBlock(f)| == 10
        && SimilarCscBlock(f)[0] == Cmd.Fill(Open(pc.origin, pc.pCircle, pc.PCsc()), RENDERER_COSECANT_FILL, 1.0))
  {
    SecantGuard(Context(f));
  }

  /**
   * The tangent segment lies on the vertical line x = dir (dir = +1 when
   * cos >= 0, else -1), which touches the circle at its start (dir, 0) on the
   * horizontal axis; its label is 20 pixels further out and aligned away from
   * the circle.
   */
  lemma TangentOnVerticalLine(f: Frame)
    requires f.width >= 0.0 && f.height >= 0.0
    ensures var pc := Context(f); var dir := Sign(f.trig.cos >= 0.0); var d := Centre(f);
      && TangentStart(pc) == Point(d.x + dir * Radius(f), d.y)
      && TangentEnd(pc).x == TangentStart(pc).x
      && Abs(TanLabelSpot(pc).x - d.x) == Radius(f) + 20.0
    ensures Shown(f, Toggle.Tan) ==> (|TanCmds(f)| == 6
      && TanCmds(f)[1] == Solid(TangentStart(Context(f)), TangentEnd(Context(f)), f.state.theme.tan, 4.0)
      && TanCmds(f)[5].align == (if f.trig.cos >= 0.0 then "left" else "right"))
  {
  }

  /**
   * When tan = sin / cos (cos * tan = sin), the faint guide from O to the end
   * of the tangent segment passes through P: the three pixels are collinear.
   */
  lemma TangentGuideThroughP(f: Frame)
    requires f.trig.cos * f.trig.tan == f.trig.sin
    requires Abs(f.trig.cos) <= CLAMP_BOUND && Abs(f.trig.sin) <= CLAMP_BOUND && Abs(f.trig.tan) <= CLAMP_BOUND
    ensures var pc := Context(f); Collinear(pc.origin, pc.pCircle, TangentEnd(pc))
  {
    TangentGuideCollinear(Context(f));
  }

  /** The same for any context the mapper built. */
  lemma TangentGuideCollinear(pc: ProofContext)
    requires pc.FromMapper()
    requires pc.cos * pc.tan == pc.sin
    requires Abs(pc.cos) <= CLAMP_BOUND && Abs(pc.sin) <= CLAMP_BOUND && Abs(pc.tan) <= CLAMP_BOUND
    ensures Collinear(pc.origin, pc.pCircle, TangentEnd(pc))
  {
    var dir := Sign(pc.cos >= 0.0);
    CircleOffsets(pc);
    TangentEndOffsets(pc);
    SignedRatio(pc.cos, pc.tan, pc.sin, dir);
    ParallelOffsets(pc.origin, pc.pCircle, TangentEnd(pc), pc.cos, pc.sin, dir, dir * pc.tan, pc.mapper.scale);
  }

  /**
   * For any context the mapper built and cot with sin * cot = cos, the end of the
   * cotangent segment, map(dir * cot, dir), is collinear with O and P.
   */
  lemma CotangentGuideCollinear(pc: ProofContext, cot: real)
    requires pc.FromMapper()
    requires pc.sin * cot == pc.cos
    requires Abs(pc.cos) <= CLAMP_BOUND && Abs(pc.sin) <= CLAMP_BOUND && Abs(cot) <= CLAMP_BOUND
    ensures Collinear(pc.origin, pc.pCircle, CotangentEnd(pc, cot))
  {
    var dir := Sign(pc.sin >= 0.0);
    CircleOffsets(pc);
    CotangentEndOffsets(pc, cot);
    SignedRatio(pc.sin, cot, pc.cos, dir);
    ParallelOffsets(pc.origin, pc.pCircle, CotangentEnd(pc, cot), pc.cos, pc.sin, dir * cot, dir, pc.mapper.scale);
  }

  /** The end of the cotangent segment for a context: map(dir * cot, dir) with dir the sign of sin. */
  function CotangentEnd(pc: ProofContext, cot: real): Point
  {
    var dir := Sign(pc.sin >= 0.0);
    pc.mapper.Map(dir * cot, dir)
  }

  /** o, p and e lie on one line: the offsets p - o and e - o are parallel. */
  predicate Collinear(o: Point, p: Point, e: Point)
  {
    (p.x - o.x) * (e.y - o.y) == (p.y - o.y) * (e.x - o.x)
  }

  /** Pixel offsets (a r, -b r) and (u r, -v r) from o, with a v = b u, are parallel. */
  lemma ParallelOffsets(o: Point, p: Point, e: Point, a: real, b: real, u: real, v: real, r: real)
    requires a * v == b * u
    requires p.x - o.x == a * r && p.y - o.y == -(b * r)
    requires e.x - o.x == u * r && e.y - o.y == -(v * r)
    ensures Collinear(o, p, e)
  {
    assert (a * r) * -(v * r) == -((a * v) * (r * r));
    assert -(b * r) * (u * r) == -((b * u) * (r * r));
  }

  /** a * t = b carries over to the signed ratio: a * (dir * t) = b * dir. */
  lemma SignedRatio(a: real, t: real, b: real, dir: real)
    requires a * t == b
    ensures a * (dir * t) == b * dir && b * dir == a * (dir * t)
  {
    assert a * (dir * t) == dir * (a * t);
  }

  /** Inside the clamp bound, P lies cos * R right of and sin * R above the centre O. */
  lemma CircleOffsets(pc: ProofContext)
    requires pc.FromMapper()
    requires Abs(pc.cos) <= CLAMP_BOUND && Abs(pc.sin) <= CLAMP_BOUND
    ensures pc.origin == Point(pc.mapper.cx, pc.mapper.cy)
    ensures pc.pCircle.x - pc.origin.x == pc.cos * pc.mapper.scale
    ensures pc.pCircle.y - pc.origin.y == -(pc.sin * pc.mapper.scale)
  {
    MapOrigin(pc.mapper);
    MapUnclamped(pc.mapper, pc.cos, pc.sin);
  }

  /** Inside the clamp bound, the cotangent's end lies at the pixel of (dir * cot, dir). */
  lemma CotangentEndOffsets(pc: ProofContext, cot: real)
    requires Abs(cot) <= CLAMP_BOUND
    ensures CotangentEnd(pc, cot).x - pc.mapper.cx == (Sign(pc.sin >= 0.0) * cot) * pc.mapper.scale
    ensures CotangentEnd(pc, cot).y - pc.mapper.cy == -(Sign(pc.sin >= 0.0) * pc.mapper.scale)
  {
    AbsMul(Sign(pc.sin >= 0.0), cot);
    MapUnclamped(pc.mapper, Sign(pc.sin >= 0.0) * cot, Sign(pc.sin >= 0.0));
  }

  /** Inside the clamp bound, the tangent's end lies at the pixel of (dir, dir * tan). */
  lemma TangentEndOffsets(pc: ProofContext)
    requires Abs(pc.tan) <= CLAMP_BOUND
    ensures TangentEnd(pc).x - pc.mapper.cx == Sign(pc.cos >= 0.0) * pc.mapper.scale
    ensures TangentEnd(pc).y - pc.mapper.cy == -((Sign(pc.cos >= 0.0) * pc.tan) * pc.mapper.scale)
  {
    AbsMul(Sign(pc.cos >= 0.0), pc.tan);
    MapUnclamped(pc.mapper, Sign(pc.cos >= 0.0), Sign(pc.cos >= 0.0) * pc.tan);
  }

  /** The cotangent segment lies on the horizontal line y = dir (dir = +1 when sin >= 0), starting on the vertical axis. */
  lemma CotangentOnHorizontalLine(f: Frame)
    requires f.width >= 0.0 && f.height >= 0.0
    ensures var dir := CotDir(f); var d := Centre(f);
      && CotStart(f) == Point(d.x, d.y - dir * Radius(f))
      && CotEnd(f).y == CotStart(f).y
      && Abs(CotLabelSpot(f).y - d.y) == Radius(f) + 15.0
      && (CotBaseline(f) == "bottom" <==> f.trig.sin >= 0.0)
  {
  }

  /** When cot = cos / sin (sin * cot = cos), the guide from O to the end of the cotangent segment passes through P. */
  lemma CotangentGuideThroughP(f: Frame)
    requires f.trig.sin * f.trig.cot == f.trig.cos
    requires Abs(f.trig.cos) <= CLAMP_BOUND && Abs(f.trig.sin) <= CLAMP_BOUND && Abs(f.trig.cot) <= CLAMP_BOUND
    ensures var pc := Context(f); Collinear(pc.origin, pc.pCircle, CotEnd(f))
  {
    CotangentGuideCollinear(Context(f), f.trig.cot);
    assert CotEnd(f) == CotangentEnd(Context(f), f.trig.cot);
  }


  /**
   * The sec line runs from the centre to S on the horizontal axis and the
   * csc line from the centre to C on the vertical axis; with the similar
   * triangle's guards the geometric tangent P -> S and the geometric
   * cotangent P -> C are perpendicular to the radius (the two lemmas after it).
   */
  lemma SecantLinesOnAxes(f: Frame)
    ensures var pc := Context(f);
      pc.PSec().y == Centre(f).y && pc.PCsc().x == Centre(f).x
    ensures var pc := Context(f);
      Shown(f, Toggle.Sec) ==> SecCscCmds(f)[0] == Solid(pc.origin, pc.PSec(), f.state.theme.sec, 4.0)
  {
  }

  lemma GeometricTangentTouches(f: Frame)
    requires OnUnitCircle(f.trig.cos, f.trig.sin)
    requires Abs(f.trig.cos) > 0.001 && f.trig.cos * f.trig.sec == 1.0
    ensures var pc := Context(f);
      Perpendicular(pc.origin.x - pc.pCircle.x, pc.origin.y - pc.pCircle.y,
                    pc.PSec().x - pc.pCircle.x, pc.PSec().y - pc.pCircle.y)
  {
    var pc := Context(f);
    assert pc.cos == f.trig.cos && pc.sin == f.trig.sin && pc.sec == f.trig.sec;
    assert SecantDefined(pc);
    RadiusPerpendicularToTangent(pc);
  }

  lemma GeometricCotangentTouches(f: Frame)
    requires OnUnitCircle(f.trig.cos, f.trig.sin)
    requires Abs(f.trig.sin) > 0.001 && f.trig.sin * f.trig.csc == 1.0
    ensures var pc := Context(f);
      Perpendicular(pc.origin.x - pc.pCircle.x, pc.origin.y - pc.pCircle.y,
                    pc.PCsc().x - pc.pCircle.x, pc.PCsc().y - pc.pCircle.y)
  {
    var pc := Context(f);
    assert pc.cos == f.trig.cos && pc.sin == f.trig.sin && pc.csc == f.trig.csc;
    assert CosecantDefined(pc);
    RadiusPerpendicularToCotangent(pc);
  }

  /**
   * The four crossings are labelled outside the circle, away from the
   * centre: 12 pixels beyond (1, 0) and (-1, 0), aligned away, and 15 pixels
   * beyond (0, 1) and (0, -1), centred. With the toggle on they take 16 commands.
   */
  lemma CrossingLabelsOutside(f: Frame)
    requires f.width > 0.0 && f.height > 0.0
    ensures var qs := Crossings(FrameMapper(f)); var d := Centre(f); var r := Radius(f);
      && CrossingSpot(f, qs[0]) == Point(d.x + r + 12.0, d.y) && CrossingAlign(qs[0].p, d.x) == "left"
      && CrossingSpot(f, qs[1]) == Point(d.x - r - 12.0, d.y) && CrossingAlign(qs[1].p, d.x) == "right"
      && CrossingSpot(f, qs[2]) == Point(d.x, d.y - r - 15.0) && CrossingAlign(qs[2].p, d.x) == "center"
      && CrossingSpot(f, qs[3]) == Point(d.x, d.y + r + 15.0) && CrossingAlign(qs[3].p, d.x) == "center"
    ensures |AxesCmds(f)| == if Shown(f, Toggle.AxesIntersections) then 16 else 0
  {
    CircleInsideCanvas(f);
  }

  lemma SignedProduct(x: real, r: real)
    requires r >= 0.0
    ensures x >= 0.0 ==> x * r >= 0.0
    ensures x < 0.0 ==> x * r <= 0.0
  {
    if r > 0.0 {
      if x >= 0.0 { MulMono(r, 0.0, x); } else { MulMono(r, x, 0.0); }
    }
  }

  /** The coordinates label sits in P's quadrant, beyond P: at least 15 pixels off the vertical axis and 20 off the horizontal one. */
  lemma CoordinatesInQuadrant(f: Frame)
    requires f.width >= 0.0 && f.height >= 0.0
    ensures var s := CoordinatesSpot(f); var d := Centre(f);
      && (f.trig.cos >= 0.0 ==> s.x >= d.x + 15.0) && (f.trig.cos < 0.0 ==> s.x <= d.x - 15.0)
      && (f.trig.sin >= 0.0 ==> s.y <= d.y - 20.0) && (f.trig.sin < 0.0 ==> s.y >= d.y + 20.0)
  {
    var r := Radius(f);
    var cx := Clamp(f.trig.cos, -CLAMP_BOUND, CLAMP_BOUND);
    var sy := Clamp(f.trig.sin, -CLAMP_BOUND, CLAMP_BOUND);
    assert r >= 0.0;
    SignedProduct(cx, r);
    SignedProduct(sy, r);
  }

  /**
   * The point marker closes the frame unless the target or tangent proof is
   * shown, and then the frame ends with the coordinates label.
   */
  lemma MarkerDrawnLast(f: Frame)
    ensures var cmds := UnitCircleCmds(f); var pc := Context(f);
      MarkerShown(f) ==> (|cmds| >= 2
        && cmds[|cmds| - 2..] == PointCmds(pc.pCircle, f.state.theme.text, f.state.theme.bg, 1.0, []))
    ensures !MarkerShown(f) ==> (UnitCircleCmds(f) == BaseCmds(f) + ConstructionCmds(f) + FunctionLineCmds(f)
      + ProofCmds(f) + AxesCmds(f) + ShowXYCmds(f))
  {
    var d := BaseCmds(f) + ConstructionCmds(f) + FunctionLineCmds(f) + ProofCmds(f);
    AppendBlocks(d, AxesCmds(f), ShowXYCmds(f));
    AppendBlocks(d, AxesCmds(f) + ShowXYCmds(f), MarkerCmds(f));
    var front := d + AxesCmds(f) + ShowXYCmds(f);
    assert UnitCircleCmds(f) == front + MarkerCmds(f);
  }
}
