/**
 * The similar-triangle (secant) overlay (src/components/UnitCircle/canvas/similarSecant.ts):
 * the triangle O, P, S with S = (sec, 0) on the x-axis, its right-angle marks,
 * the angle arcs and labels, and the duplicate triangle O, Py, P.
 *
 * The renderer (UnitCircleRenderer.ts) draws the same commands inline when
 * its similarSec toggle is on; it uses this method.
 */
module SimilarSecant {
  import opened TrigMath
  import opened Canvas
  import opened CanvasHelpers
  import opened ProofOverlays

  const SECANT_FILL: string := "rgba(241, 196, 15, 0.1)"

  /** raSize: the side of every right-angle mark. */
  const MARK_SIZE: real := 10.0

  /** The overlay's guard: nothing is drawn unless |cos| > 0.001. */
  predicate SecantDefined(pc: ProofContext) { Abs(pc.cos) > 0.001 }

  /** An open path through three points (the fill closes it implicitly). */
  function Open(a: Point, b: Point, c: Point): seq<PathOp>
  {
    [PathOp.MoveTo(a), PathOp.LineTo(b), PathOp.LineTo(c)]
  }

  /** Math.atan2 of the pixel vector from `from` to `to`. */
  function Heading(js: JsMath, from: Point, to: Point): real
  {
    js.atan2(to.y - from.y, to.x - from.x)
  }

  /** The point `r` pixels from p in direction `angle`: p + (cos, sin)(angle) * r. */
  function Polar(js: JsMath, p: Point, angle: real, r: real): Point
  {
    Point(p.x + js.cos(angle) * r, p.y + js.sin(angle) * r)
  }

  /** The vector from `from` to `to` divided by the length `len` (0 for a zero length). */
  function UnitTowards(from: Point, to: Point, len: real): Point
  {
    Point(Per(to.x - from.x, len), Per(to.y - from.y, len))
  }

  /**
   * The three drawn corners of a right-angle mark at p along the unit vectors u
   * and v: c1 = p + 10u, c2 = c1 + 10v, c3 = p + 10v.
   */
  function CornerMark(p: Point, u: Point, v: Point): seq<PathOp>
  {
    var c1 := Point(p.x + u.x * MARK_SIZE, p.y + u.y * MARK_SIZE);
    var c2 := Point(c1.x + v.x * MARK_SIZE, c1.y + v.y * MARK_SIZE);
    var c3 := Point(p.x + v.x * MARK_SIZE, p.y + v.y * MARK_SIZE);
    Open(c1, c2, c3)
  }

  /** A thin solid outline in the text colour: every mark and arc of the overlay. */
  function Thin(path: seq<PathOp>, pc: ProofContext, width: real): Cmd
  {
    Cmd.Stroke(path, pc.theme.text, width, [])
  }

  /** The mark at pXAxis inside O, pXAxis, P: towards the origin along x, towards P along y. */
  function StandardMark(pc: ProofContext): seq<PathOp>
  {
    RightAnglePath(pc.pXAxis, Sign(pc.origin.x - pc.pXAxis.x >= 0.0), Sign(pc.pCircle.y - pc.pXAxis.y >= 0.0), MARK_SIZE)
  }

  /** The mark at P between the radius and the tangent P -> S. */
  function PMark(pc: ProofContext): seq<PathOp>
  {
    CornerMark(pc.pCircle, UnitTowards(pc.pCircle, pc.origin, pc.lenOP), UnitTowards(pc.pCircle, pc.PSec(), pc.lenPS))
  }

  /** The supplementary mark at pXAxis, on the side of S. */
  function SupplementaryMark(pc: ProofContext): seq<PathOp>
  {
    RightAnglePath(pc.pXAxis, Sign(pc.PSec().x - pc.pXAxis.x >= 0.0), Sign(pc.pCircle.y - pc.pXAxis.y >= 0.0), MARK_SIZE)
  }

  /** The mark at Py as written: dY = -1 when sin >= 0, which in pixel space points up, away from O. */
  function DuplicateMarkAsWritten(pc: ProofContext): seq<PathOp>
  {
    RightAnglePath(pc.pYAxis, Sign(pc.cos >= 0.0), Sign(pc.sin < 0.0), MARK_SIZE)
  }

  /** The mark at Py inside O, Py, P: towards P along x and towards the origin along y. */
  function DuplicateMark(pc: ProofContext): seq<PathOp>
  {
    RightAnglePath(pc.pYAxis, Sign(pc.cos >= 0.0), Sign(pc.sin >= 0.0), MARK_SIZE)
  }

  // ---------------------------------------------------------------- commands, block by block

  /** The filled triangle O, P, S and its two dashed sides P -> S and O -> S. */
  function TriangleCmds(pc: ProofContext): seq<Cmd>
  {
    [Cmd.Fill(Open(pc.origin, pc.pCircle, pc.PSec()), SECANT_FILL, 1.0),
     LineStroke(pc.pCircle, pc.PSec(), pc.theme.tan, 2.0, [6.0, 6.0]),
     LineStroke(pc.origin, pc.PSec(), pc.theme.sec, 2.0, [6.0, 6.0])]
  }

  /**
   * An angle mark: a thin arc of radius r around `centre` from angle `from` to
   * angle `to`, stroked at `width`, then the label `name` placed `labelR` away
   * from `centre` in direction `mid`.
   */
  function ArcMark(pc: ProofContext, name: string, centre: Point, r: real, from: real, to: real, ccw: bool,
                   width: real, mid: real, labelR: real): seq<Cmd>
  {
    [Thin([PathOp.Arc(centre, r, from, to, ccw)], pc, width)]
    + Label(name, Polar(pc.js, centre, mid, labelR), pc.theme.text)
  }

  /** The arc at P from the vertical side to the radius, radius 20, and its label. */
  function AlphaAtPCmds(pc: ProofContext): seq<Cmd>
  {
    var angVertical := Heading(pc.js, pc.pCircle, pc.pXAxis);
    var angHypot := Heading(pc.js, pc.pCircle, pc.origin);
    ArcMark(pc, "α", pc.pCircle, 20.0, angVertical, angHypot, false, 1.0, (angVertical + angHypot) / 2.0, 30.0)
  }

  /** The standard triangle's marks: at pXAxis, the alpha arc at P, and the mark at P. */
  function StandardCmds(pc: ProofContext): seq<Cmd>
  {
    [Thin(StandardMark(pc), pc, 1.0)] + AlphaAtPCmds(pc) + [Thin(PMark(pc), pc, 1.0)]
  }

  /** The alpha label at S, on the bisector of the directions to O and to P. */
  function AlphaAtSCmds(pc: ProofContext): seq<Cmd>
  {
    var s := pc.PSec();
    var angToOrigin := Heading(pc.js, s, pc.origin);
    var angToP := Heading(pc.js, s, pc.pCircle);
    var midX := pc.js.cos(angToOrigin) + pc.js.cos(angToP);
    var midY := pc.js.sin(angToOrigin) + pc.js.sin(angToP);
    Label("α", Polar(pc.js, s, pc.js.atan2(midY, midX), 35.0), pc.theme.text)
  }

  /** The theta arc at P between the tangent and the vertical side, radius 25, and its label. */
  function ThetaAtPCmds(pc: ProofContext): seq<Cmd>
  {
    var angTan := Heading(pc.js, pc.pCircle, pc.PSec());
    var angVert := Heading(pc.js, pc.pCircle, pc.pXAxis);
    ArcMark(pc, "θ", pc.pCircle, 25.0, angTan, angVert, false, 1.0, (angTan + angVert) / 2.0, 35.0)
  }

  /** The angles of the triangle O, P, S and the supplementary mark. */
  function AngleCmds(pc: ProofContext): seq<Cmd>
  {
    AlphaAtSCmds(pc) + ThetaAtPCmds(pc) + [Thin(SupplementaryMark(pc), pc, 1.0)]
  }

  /** The alpha arc at O, radius 20, from straight up (-PI/2) to the radius (-rad), and its label. */
  function AlphaAtOriginCmds(pc: ProofContext): seq<Cmd>
  {
    var angleCanvasRad := -pc.rad;
    var angleCanvasY := -PI / 2.0;
    ArcMark(pc, "α", pc.origin, 20.0, angleCanvasY, angleCanvasRad, false, 1.0, (angleCanvasY + angleCanvasRad) / 2.0, 35.0)
  }

  /**
   * The theta arc at P between P -> Py and P -> O, radius 20, anticlockwise when
   * rad > 0, and its label. It is stroked with the width 3 the preceding label
   * left behind.
   */
  function ThetaAtPyCmds(pc: ProofContext): seq<Cmd>
  {
    var angPO := Heading(pc.js, pc.pCircle, pc.origin);
    var angPPy := Heading(pc.js, pc.pCircle, pc.pYAxis);
    ArcMark(pc, "θ", pc.pCircle, 20.0, angPPy, angPO, pc.rad > 0.0, 3.0, (angPO + angPPy) / 2.0, 35.0)
  }

  /** The duplicate triangle O, Py, P: dashed P -> Py and O -> Py, the mark at Py as written, its two angles. */
  function DuplicateCmds(pc: ProofContext): seq<Cmd>
  {
    [LineStroke(pc.pCircle, pc.pYAxis, pc.theme.text, 1.0, [4.0, 4.0]),
     LineStroke(pc.origin, pc.pYAxis, pc.theme.text, 1.0, [4.0, 4.0]),
     Thin(DuplicateMarkAsWritten(pc), pc, 1.0)]
    + AlphaAtOriginCmds(pc) + ThetaAtPyCmds(pc)
  }

  /** drawSimilarSecant's commands: nothing when the guard fails, else the four blocks in order. */
  function SimilarSecantCmds(pc: ProofContext): seq<Cmd>
  {
    if !SecantDefined(pc) then []
    else TriangleCmds(pc) + StandardCmds(pc) + AngleCmds(pc) + DuplicateCmds(pc)
  }

  // ---------------------------------------------------------------- the drawing methods

  /** drawSimilarSecant. */
  method DrawSimilarSecant(c: Recorder, pc: ProofContext)
    requires c.lineDash == [] && c.globalAlpha == 1.0
    modifies c
    ensures c.drawn == old(c.drawn) + SimilarSecantCmds(pc)
    ensures c.lineDash == [] && c.globalAlpha == 1.0
  {
    if Abs(pc.cos) <= 0.001 {
      return;
    }
    ghost var d := old(c.drawn);
    DrawTriangle(c, pc);
    DrawStandardMarks(c, pc);
    AppendBlocks(d, TriangleCmds(pc), StandardCmds(pc));
    DrawAngles(c, pc);
    AppendBlocks(d, TriangleCmds(pc) + StandardCmds(pc), AngleCmds(pc));
    DrawDuplicate(c, pc);
    AppendBlocks(d, TriangleCmds(pc) + StandardCmds(pc) + AngleCmds(pc), DuplicateCmds(pc));
  }

  method DrawTriangle(c: Recorder, pc: ProofContext)
    requires c.lineDash == [] && c.globalAlpha == 1.0
    modifies c
    ensures c.drawn == old(c.drawn) + TriangleCmds(pc)
    ensures c.lineDash == [] && c.globalAlpha == 1.0
  {
    var pSec := pc.mapper.Map(pc.sec, 0.0);
    c.BeginPath();
    c.fillStyle := SECANT_FILL;
    c.MoveTo(pc.origin);
    c.LineTo(pc.pCircle);
    c.LineTo(pSec);
    assert c.path == Open(pc.origin, pc.pCircle, pSec);
    c.Fill();
    DrawLine(c, pc.pCircle, pSec, pc.theme.tan, 2.0, [6.0, 6.0]);
    DrawLine(c, pc.origin, pSec, pc.theme.sec, 2.0, [6.0, 6.0]);
  }

  /** Strokes a fresh three-point polyline in the text colour at width 1. */
  method StrokeMark(c: Recorder, pc: ProofContext, c1: Point, c2: Point, c3: Point)
    requires c.lineDash == []
    modifies c`path, c`strokeStyle, c`lineWidth, c`drawn
    ensures c.drawn == old(c.drawn) + [Thin(Open(c1, c2, c3), pc, 1.0)]
    ensures c.lineWidth == 1.0
  {
    c.BeginPath();
    c.strokeStyle := pc.theme.text;
    c.lineWidth := 1.0;
    c.MoveTo(c1);
    c.LineTo(c2);
    c.LineTo(c3);
    assert c.path == Open(c1, c2, c3);
    c.Stroke();
  }

  method DrawStandardMarks(c: Recorder, pc: ProofContext)
    requires c.lineDash == [] && c.globalAlpha == 1.0
    modifies c
    ensures c.drawn == old(c.drawn) + StandardCmds(pc)
    ensures c.lineDash == [] && c.globalAlpha == 1.0
  {
    var pXAxis := pc.pXAxis;
    var signX := if pc.origin.x - pXAxis.x >= 0.0 then 1.0 else -1.0;
    var signY := if pc.pCircle.y - pXAxis.y >= 0.0 then 1.0 else -1.0;
    StrokeMark(c, pc, Point(pXAxis.x + signX * MARK_SIZE, pXAxis.y),
      Point(pXAxis.x + signX * MARK_SIZE, pXAxis.y + signY * MARK_SIZE),
      Point(pXAxis.x, pXAxis.y + signY * MARK_SIZE));
    assert c.drawn == old(c.drawn) + [Thin(StandardMark(pc), pc, 1.0)];
    DrawAlphaAtP(c, pc);
    var u := UnitTowards(pc.pCircle, pc.origin, pc.lenOP);
    var v := UnitTowards(pc.pCircle, pc.mapper.Map(pc.sec, 0.0), pc.lenPS);
    var c1 := Point(pc.pCircle.x + u.x * MARK_SIZE, pc.pCircle.y + u.y * MARK_SIZE);
    var c2 := Point(c1.x + v.x * MARK_SIZE, c1.y + v.y * MARK_SIZE);
    var c3 := Point(pc.pCircle.x + v.x * MARK_SIZE, pc.pCircle.y + v.y * MARK_SIZE);
    StrokeMark(c, pc, c1, c2, c3);
  }

  /**
   * Strokes a fresh arc in the text colour at the current line width, then
   * draws the label: the shape shared by every angle mark of the overlays.
   */
  method DrawArcMark(c: Recorder, pc: ProofContext, name: string, centre: Point, r: real, from: real, to: real,
                     ccw: bool, mid: real, labelR: real)
    requires c.lineDash == []
    modifies c`path, c`strokeStyle, c`drawn, c`font, c`lineWidth, c`textAlign, c`textBaseline, c`fillStyle
    ensures c.drawn == old(c.drawn) + ArcMark(pc, name, centre, r, from, to, ccw, old(c.lineWidth), mid, labelR)
    ensures c.lineWidth == 3.0
  {
    c.BeginPath();
    c.strokeStyle := pc.theme.text;
    c.Arc(centre, r, from, to, ccw);
    assert c.path == [PathOp.Arc(centre, r, from, to, ccw)];
    c.Stroke();
    ghost var arc := [Thin([PathOp.Arc(centre, r, from, to, ccw)], pc, old(c.lineWidth))];
    assert c.drawn == old(c.drawn) + arc;
    DrawText(c, name, Polar(pc.js, centre, mid, labelR), pc.theme.text);
    AppendBlocks(old(c.drawn), arc, Label(name, Polar(pc.js, centre, mid, labelR), pc.theme.text));
  }

  method DrawAlphaAtP(c: Recorder, pc: ProofContext)
    requires c.lineDash == []
    modifies c
    ensures c.drawn == old(c.drawn) + AlphaAtPCmds(pc)
    ensures c.lineDash == [] && c.globalAlpha == old(c.globalAlpha)
  {
    var angVertical := pc.js.atan2(pc.pXAxis.y - pc.pCircle.y, pc.pXAxis.x - pc.pCircle.x);
    var angHypot := pc.js.atan2(pc.origin.y - pc.pCircle.y, pc.origin.x - pc.pCircle.x);
    c.lineWidth := 1.0;
    DrawArcMark(c, pc, "α", pc.pCircle, 20.0, angVertical, angHypot, false, (angVertical + angHypot) / 2.0, 30.0);
  }

  method DrawAngles(c: Recorder, pc: ProofContext)
    requires c.lineDash == [] && c.globalAlpha == 1.0
    modifies c
    ensures c.drawn == old(c.drawn) + AngleCmds(pc)
    ensures c.lineDash == [] && c.globalAlpha == 1.0
  {
    ghost var d := old(c.drawn);
    DrawAlphaAtS(c, pc);
    DrawThetaAtP(c, pc);
    AppendBlocks(d, AlphaAtSCmds(pc), ThetaAtPCmds(pc));
    var pSec := pc.mapper.Map(pc.sec, 0.0);
    var signSX := Sign(pSec.x - pc.pXAxis.x >= 0.0);
    var signPY := Sign(pc.pCircle.y - pc.pXAxis.y >= 0.0);
    StrokeMark(c, pc, Point(pc.pXAxis.x + signSX * MARK_SIZE, pc.pXAxis.y),
      Point(pc.pXAxis.x + signSX * MARK_SIZE, pc.pXAxis.y + signPY * MARK_SIZE),
      Point(pc.pXAxis.x, pc.pXAxis.y + signPY * MARK_SIZE));
    AppendBlocks(d, AlphaAtSCmds(pc) + ThetaAtPCmds(pc), [Thin(SupplementaryMark(pc), pc, 1.0)]);
  }

  method DrawAlphaAtS(c: Recorder, pc: ProofContext)
    modifies c`font, c`lineWidth, c`strokeStyle, c`textAlign, c`textBaseline, c`fillStyle, c`drawn
    ensures c.drawn == old(c.drawn) + AlphaAtSCmds(pc)
  {
    var pf := pc.mapper.Map(pc.sec, 0.0);
    var angToOrigin := pc.js.atan2(pc.origin.y - pf.y, pc.origin.x - pf.x);
    var angToP := pc.js.atan2(pc.pCircle.y - pf.y, pc.pCircle.x - pf.x);
    var midX := pc.js.cos(angToOrigin) + pc.js.cos(angToP);
    var midY := pc.js.sin(angToOrigin) + pc.js.sin(angToP);
    var angMid := pc.js.atan2(midY, midX);
    DrawText(c, "α", Point(pf.x + pc.js.cos(angMid) * 35.0, pf.y + pc.js.sin(angMid) * 35.0), pc.theme.text);
  }

  method DrawThetaAtP(c: Recorder, pc: ProofContext)
    requires c.lineDash == []
    modifies c
    ensures c.drawn == old(c.drawn) + ThetaAtPCmds(pc)
    ensures c.lineDash == [] && c.globalAlpha == old(c.globalAlpha)
  {
    var pS := pc.mapper.Map(pc.sec, 0.0);
    var angTan := pc.js.atan2(pS.y - pc.pCircle.y, pS.x - pc.pCircle.x);
    var angVert := pc.js.atan2(pc.pXAxis.y - pc.pCircle.y, pc.pXAxis.x - pc.pCircle.x);
    c.lineWidth := 1.0;
    DrawArcMark(c, pc, "θ", pc.pCircle, 25.0, angTan, angVert, false, (angTan + angVert) / 2.0, 35.0);
  }

  method DrawDuplicate(c: Recorder, pc: ProofContext)
    requires c.lineDash == [] && c.globalAlpha == 1.0
    modifies c
    ensures c.drawn == old(c.drawn) + DuplicateCmds(pc)
    ensures c.lineDash == [] && c.globalAlpha == 1.0
  {
    ghost var d := old(c.drawn);
    DrawLine(c, pc.pCircle, pc.pYAxis, pc.theme.text, 1.0, [4.0, 4.0]);
    DrawLine(c, pc.origin, pc.pYAxis, pc.theme.text, 1.0, [4.0, 4.0]);
    var dY := Sign(pc.sin < 0.0);
    var dX := Sign(pc.cos >= 0.0);
    StrokeMark(c, pc, Point(pc.pYAxis.x + dX * MARK_SIZE, pc.pYAxis.y),
      Point(pc.pYAxis.x + dX * MARK_SIZE, pc.pYAxis.y + dY * MARK_SIZE),
      Point(pc.pYAxis.x, pc.pYAxis.y + dY * MARK_SIZE));
    ghost var lines := [LineStroke(pc.pCircle, pc.pYAxis, pc.theme.text, 1.0, [4.0, 4.0]),
                        LineStroke(pc.origin, pc.pYAxis, pc.theme.text, 1.0, [4.0, 4.0]),
                        Thin(DuplicateMarkAsWritten(pc), pc, 1.0)];
    assert c.drawn == d + lines;
    DrawAlphaAtOrigin(c, pc);
    AppendBlocks(d, lines, AlphaAtOriginCmds(pc));
    DrawThetaAtPy(c, pc);
    AppendBlocks(d, lines + AlphaAtOriginCmds(pc), ThetaAtPyCmds(pc));
  }

  method DrawAlphaAtOrigin(c: Recorder, pc: ProofContext)
    requires c.lineDash == [] && c.lineWidth == 1.0
    modifies c
    ensures c.drawn == old(c.drawn) + AlphaAtOriginCmds(pc)
    ensures c.lineDash == [] && c.globalAlpha == old(c.globalAlpha) && c.lineWidth == 3.0
  {
    var angleCanvasRad := -pc.rad;
    var angleCanvasY := -PI / 2.0;
    DrawArcMark(c, pc, "α", pc.origin, 20.0, angleCanvasY, angleCanvasRad, false, (angleCanvasY + angleCanvasRad) / 2.0, 35.0);
  }

  method DrawThetaAtPy(c: Recorder, pc: ProofContext)
    requires c.lineDash == [] && c.lineWidth == 3.0
    modifies c
    ensures c.drawn == old(c.drawn) + ThetaAtPyCmds(pc)
    ensures c.lineDash == [] && c.globalAlpha == old(c.globalAlpha)
  {
    var angPO := pc.js.atan2(pc.origin.y - pc.pCircle.y, pc.origin.x - pc.pCircle.x);
    var angPPy := pc.js.atan2(pc.pYAxis.y - pc.pCircle.y, pc.pYAxis.x - pc.pCircle.x);
    DrawArcMark(c, pc, "θ", pc.pCircle, 20.0, angPPy, angPO, pc.rad > 0.0, (angPO + angPPy) / 2.0, 35.0);
  }

  // ---------------------------------------------------------------- properties

  /** The overlay draws nothing exactly when |cos| <= 0.001; otherwise its 23 commands start with the fill. */
  lemma SecantGuard(pc: ProofContext)
    ensures SimilarSecantCmds(pc) == [] <==> !SecantDefined(pc)
    ensures SecantDefined(pc) ==> (|SimilarSecantCmds(pc)| == 23
      && SimilarSecantCmds(pc)[0] == Cmd.Fill(Open(pc.origin, pc.pCircle, pc.PSec()), SECANT_FILL, 1.0))
  {
  }

  /** The guard keeps S inside the mapper's clamp: |cos| > 0.001 and cos * sec = 1 give |sec| < 1000. */
  lemma GuardKeepsSecantUnclamped(pc: ProofContext)
    requires SecantDefined(pc) && pc.cos * pc.sec == 1.0
    ensures Abs(pc.sec) < CLAMP_BOUND
    ensures pc.PSec() == Point(pc.mapper.cx + pc.sec * pc.mapper.scale, pc.mapper.cy)
  {
    ReciprocalBound(pc.cos, pc.sec);
    assert -CLAMP_BOUND <= pc.sec <= CLAMP_BOUND;
    assert Clamp(0.0, -CLAMP_BOUND, CLAMP_BOUND) == 0.0 && Clamp(pc.sec, -CLAMP_BOUND, CLAMP_BOUND) == pc.sec;
    assert 0.0 * pc.mapper.scale == 0.0;
  }

  /** A number above 0.001 in size whose product with y is 1 makes |y| < 1000. */
  lemma ReciprocalBound(x: real, y: real)
    requires Abs(x) > 0.001 && x * y == 1.0
    ensures Abs(y) < CLAMP_BOUND
  {
    var a := Abs(x);
    var b := Abs(y);
    AbsMul(x, y);
    assert a * b == 1.0;
    assert b > 0.0;
    MulMono(b, 0.001, a);
  }

  lemma AbsMul(x: real, y: real)
    ensures Abs(x) * Abs(y) == Abs(x * y)
  {
    if x < 0.0 && y >= 0.0 { assert x * y <= 0.0 by { MulMono(-x, 0.0, y); } }
    if x >= 0.0 && y < 0.0 { assert x * y <= 0.0 by { MulMono(-y, 0.0, x); } }
  }

  /**
   * For a context built by the mapper, S lies on the pixel x-axis with O and
   * pXAxis, and the filled region is the triangle O, P, S.
   */
  lemma SecantPointOnXAxis(pc: ProofContext)
    requires pc.FromMapper()
    ensures pc.PSec().y == pc.origin.y == pc.pXAxis.y == pc.cy
    ensures SecantDefined(pc) ==> Vertices(SimilarSecantCmds(pc)[0].path) == [pc.origin, pc.pCircle, pc.PSec()]
  {
    var path := Open(pc.origin, pc.pCircle, pc.PSec());
    assert Vertices(path[3..]) == [];
    assert Vertices(path[2..]) == [pc.PSec()];
    assert Vertices(path[1..]) == [pc.pCircle, pc.PSec()];
  }

  /**
   * The mark at pXAxis is a square corner at pXAxis whose horizontal leg runs
   * towards the origin and whose vertical leg runs towards P.
   */
  lemma StandardMarkFacesTriangle(pc: ProofContext)
    ensures var vs := Vertices(StandardMark(pc));
      |vs| == 3 && vs[0].y == pc.pXAxis.y && vs[2].x == pc.pXAxis.x
      && Abs(vs[0].x - pc.pXAxis.x) == MARK_SIZE && Abs(vs[2].y - pc.pXAxis.y) == MARK_SIZE
      && (vs[0].x - pc.pXAxis.x > 0.0 <==> pc.origin.x >= pc.pXAxis.x)
      && (vs[2].y - pc.pXAxis.y > 0.0 <==> pc.pCircle.y >= pc.pXAxis.y)
  {
    RightAngleIsSquareCorner(pc.pXAxis, Sign(pc.origin.x - pc.pXAxis.x >= 0.0), Sign(pc.pCircle.y - pc.pXAxis.y >= 0.0), MARK_SIZE);
  }

  /**
   * For a context built by the mapper with scale > 0 and cos * sec = 1, the
   * foot pXAxis lies strictly between O and S whenever 0.001 < |cos| < 1.
   */
  lemma FootBetweenOriginAndSecant(pc: ProofContext)
    requires pc.FromMapper() && pc.mapper.scale > 0.0
    requires SecantDefined(pc) && Abs(pc.cos) < 1.0 && pc.cos * pc.sec == 1.0
    ensures (pc.origin.x < pc.pXAxis.x < pc.PSec().x) || (pc.PSec().x < pc.pXAxis.x < pc.origin.x)
  {
    GuardKeepsSecantUnclamped(pc);
    assert pc.pXAxis.x == pc.cx + pc.cos * pc.mapper.scale;
    assert pc.origin.x == pc.cx;
    StrictlyBetween(pc.cx, pc.cos, pc.sec, pc.mapper.scale);
  }

  /** On a line through cx with slope s > 0, c lies strictly between 0 and its reciprocal sec when 0 < |c| < 1. */
  lemma StrictlyBetween(cx: real, c: real, sec: real, s: real)
    requires s > 0.0 && c != 0.0 && Abs(c) < 1.0 && c * sec == 1.0
    ensures (cx < cx + c * s < cx + sec * s) || (cx + sec * s < cx + c * s < cx)
  {
    if c > 0.0 {
      assert sec > 1.0 by {
        if sec <= 1.0 { MulMono(c, sec, 1.0); }
      }
      MulMono(s, 0.0, c);
      MulMono(s, c, sec);
    } else {
      assert sec < -1.0 by {
        if sec >= -1.0 { MulMono(-c, -1.0, sec); }
      }
      MulMono(s, c, 0.0);
      MulMono(s, sec, c);
    }
  }

  /**
   * When pXAxis lies strictly between O and S, the supplementary mark is the
   * standard mark mirrored in the vertical side: same vertical leg, opposite
   * horizontal leg.
   */
  lemma SupplementaryMarkMirrorsStandard(pc: ProofContext)
    requires (pc.origin.x < pc.pXAxis.x < pc.PSec().x) || (pc.PSec().x < pc.pXAxis.x < pc.origin.x)
    ensures var st := Vertices(StandardMark(pc));
      var su := Vertices(SupplementaryMark(pc));
      |st| == 3 && |su| == 3
      && su[0].x - pc.pXAxis.x == -(st[0].x - pc.pXAxis.x) && su[0].y == st[0].y
      && su[1].x - pc.pXAxis.x == -(st[1].x - pc.pXAxis.x) && su[1].y == st[1].y
      && su[2] == st[2]
  {
    RightAngleIsSquareCorner(pc.pXAxis, Sign(pc.origin.x - pc.pXAxis.x >= 0.0), Sign(pc.pCircle.y - pc.pXAxis.y >= 0.0), MARK_SIZE);
    RightAngleIsSquareCorner(pc.pXAxis, Sign(pc.PSec().x - pc.pXAxis.x >= 0.0), Sign(pc.pCircle.y - pc.pXAxis.y >= 0.0), MARK_SIZE);
  }

  /** The points a three-point mark visits. */
  lemma OpenVertices(a: Point, b: Point, c: Point)
    ensures Vertices(Open(a, b, c)) == [a, b, c]
  {
    var path := Open(a, b, c);
    assert Vertices(path[3..]) == [];
    assert Vertices(path[2..]) == [c];
    assert Vertices(path[1..]) == [b, c];
  }

  /** The corners a CornerMark visits, in order. */
  lemma CornerMarkVertices(p: Point, u: Point, v: Point)
    ensures var c1 := Point(p.x + u.x * MARK_SIZE, p.y + u.y * MARK_SIZE);
      Vertices(CornerMark(p, u, v)) == [c1, Point(c1.x + v.x * MARK_SIZE, c1.y + v.y * MARK_SIZE),
        Point(p.x + v.x * MARK_SIZE, p.y + v.y * MARK_SIZE)]
  {
    var c1 := Point(p.x + u.x * MARK_SIZE, p.y + u.y * MARK_SIZE);
    OpenVertices(c1, Point(c1.x + v.x * MARK_SIZE, c1.y + v.y * MARK_SIZE), Point(p.x + v.x * MARK_SIZE, p.y + v.y * MARK_SIZE));
  }

  /**
   * The mark at P is a parallelogram corner: c2 - c1 = c3 - P, with c1 and c3
   * at 10 times the unit vectors from P towards O and towards S.
   */
  lemma PMarkParallelogram(pc: ProofContext)
    requires pc.lenOP > 0.0 && pc.lenPS > 0.0
    ensures var vs := Vertices(PMark(pc));
      |vs| == 3
      && vs[1].x - vs[0].x == vs[2].x - pc.pCircle.x && vs[1].y - vs[0].y == vs[2].y - pc.pCircle.y
      && (vs[0].x - pc.pCircle.x) * pc.lenOP == MARK_SIZE * (pc.origin.x - pc.pCircle.x)
      && (vs[0].y - pc.pCircle.y) * pc.lenOP == MARK_SIZE * (pc.origin.y - pc.pCircle.y)
      && (vs[2].x - pc.pCircle.x) * pc.lenPS == MARK_SIZE * (pc.PSec().x - pc.pCircle.x)
      && (vs[2].y - pc.pCircle.y) * pc.lenPS == MARK_SIZE * (pc.PSec().y - pc.pCircle.y)
  {
    var p := pc.pCircle;
    var s := pc.PSec();
    var u := UnitTowards(p, pc.origin, pc.lenOP);
    var v := UnitTowards(p, s, pc.lenPS);
    CornerMarkVertices(p, u, v);
    PerTimesLen(pc.origin.x - p.x, pc.lenOP);
    PerTimesLen(pc.origin.y - p.y, pc.lenOP);
    PerTimesLen(s.x - p.x, pc.lenPS);
    PerTimesLen(s.y - p.y, pc.lenPS);
  }

  lemma PerTimesLen(d: real, len: real)
    requires len > 0.0
    ensures Per(d, len) * MARK_SIZE * len == MARK_SIZE * d
  {
    assert Per(d, len) * len == d;
  }

  /**
   * The radius O - P is perpendicular to the tangent S - P: with P = (cos, sin)
   * and S = (sec, 0) mapped without clamping, cos² + sin² = 1 and cos * sec = 1,
   * (O - P) · (S - P) = scale² (cos² + sin² - cos * sec) = 0.
   */
  lemma RadiusPerpendicularToTangent(pc: ProofContext)
    requires pc.FromMapper() && SecantDefined(pc)
    requires OnUnitCircle(pc.cos, pc.sin) && pc.cos * pc.sec == 1.0
    ensures Perpendicular(pc.origin.x - pc.pCircle.x, pc.origin.y - pc.pCircle.y,
                          pc.PSec().x - pc.pCircle.x, pc.PSec().y - pc.pCircle.y)
  {
    UnitBound(pc.cos, pc.sin);
    GuardKeepsSecantUnclamped(pc);
    var s := pc.mapper.scale;
    var cos, sin, sec := pc.cos, pc.sin, pc.sec;
    assert pc.pCircle == Point(pc.cx + cos * s, pc.cy - sin * s);
    calc {
      (pc.origin.x - pc.pCircle.x) * (pc.PSec().x - pc.pCircle.x)
        + (pc.origin.y - pc.pCircle.y) * (pc.PSec().y - pc.pCircle.y);
      (-(cos * s)) * (sec * s - cos * s) + (sin * s) * (sin * s);
      { assert (-(cos * s)) * (sec * s - cos * s) == (cos * cos - cos * sec) * (s * s); }
      (cos * cos - cos * sec) * (s * s) + (sin * sin) * (s * s);
      (cos * cos + sin * sin - cos * sec) * (s * s);
      0.0;
    }
  }

  /**
   * Hence the mark at P is a true square corner: its two legs have length 10
   * and are perpendicular.
   */
  lemma PMarkIsSquareCorner(pc: ProofContext)
    requires pc.FromMapper() && SecantDefined(pc)
    requires OnUnitCircle(pc.cos, pc.sin) && pc.cos * pc.sec == 1.0
    requires pc.RootsOk() && pc.lenOP > 0.0 && pc.lenPS > 0.0
    ensures SquareCorner(pc.pCircle, Vertices(PMark(pc)))
  {
    RadiusPerpendicularToTangent(pc);
    CornerMarkSquare(pc.pCircle, pc.origin, pc.PSec(), pc.lenOP, pc.lenPS);
  }

  /** Two vectors with a zero dot product. */
  predicate Perpendicular(aX: real, aY: real, bX: real, bY: real)
  {
    aX * bX + aY * bY == 0.0
  }

  /** Three corners c1, c2, c3 of a 10-pixel square whose fourth corner is p. */
  predicate SquareCorner(p: Point, vs: seq<Point>)
  {
    |vs| == 3
    && vs[1].x - vs[0].x == vs[2].x - p.x && vs[1].y - vs[0].y == vs[2].y - p.y
    && (vs[0].x - p.x) * (vs[2].x - p.x) + (vs[0].y - p.y) * (vs[2].y - p.y) == 0.0
    && (vs[0].x - p.x) * (vs[0].x - p.x) + (vs[0].y - p.y) * (vs[0].y - p.y) == MARK_SIZE * MARK_SIZE
    && (vs[2].x - p.x) * (vs[2].x - p.x) + (vs[2].y - p.y) * (vs[2].y - p.y) == MARK_SIZE * MARK_SIZE
  }

  /**
   * A mark at p along the unit vectors towards a and b, when p -> a and p -> b
   * are perpendicular and of the given non-zero lengths, is a square corner.
   */
  lemma CornerMarkSquare(p: Point, a: Point, b: Point, la: real, lb: real)
    requires la > 0.0 && lb > 0.0
    requires IsLength(la, a.x - p.x, a.y - p.y) && IsLength(lb, b.x - p.x, b.y - p.y)
    requires Perpendicular(a.x - p.x, a.y - p.y, b.x - p.x, b.y - p.y)
    ensures SquareCorner(p, Vertices(CornerMark(p, UnitTowards(p, a, la), UnitTowards(p, b, lb))))
  {
    var u := UnitTowards(p, a, la);
    var v := UnitTowards(p, b, lb);
    ScaledLegs(a.x - p.x, a.y - p.y, la, b.x - p.x, b.y - p.y, lb);
    assert u == Point(Per(a.x - p.x, la), Per(a.y - p.y, la)) && v == Point(Per(b.x - p.x, lb), Per(b.y - p.y, lb));
    SquareCornerFromLegs(p, u, v);
  }

  /** Legs 10u and 10v that are perpendicular and of length 10 make the mark a square corner. */
  lemma SquareCornerFromLegs(p: Point, u: Point, v: Point)
    requires Perpendicular(u.x * MARK_SIZE, u.y * MARK_SIZE, v.x * MARK_SIZE, v.y * MARK_SIZE)
    requires IsLength(MARK_SIZE, u.x * MARK_SIZE, u.y * MARK_SIZE)
    requires IsLength(MARK_SIZE, v.x * MARK_SIZE, v.y * MARK_SIZE)
    ensures SquareCorner(p, Vertices(CornerMark(p, u, v)))
  {
    CornerMarkVertices(p, u, v);
    var c1 := Point(p.x + u.x * MARK_SIZE, p.y + u.y * MARK_SIZE);
    var c3 := Point(p.x + v.x * MARK_SIZE, p.y + v.y * MARK_SIZE);
    assert c1.x - p.x == u.x * MARK_SIZE && c1.y - p.y == u.y * MARK_SIZE;
    assert c3.x - p.x == v.x * MARK_SIZE && c3.y - p.y == v.y * MARK_SIZE;
  }

  /** Two vectors scaled to length 10 keep a zero dot product and get squared length 100. */
  lemma ScaledLegs(aX: real, aY: real, la: real, bX: real, bY: real, lb: real)
    requires la > 0.0 && lb > 0.0
    requires IsLength(la, aX, aY) && IsLength(lb, bX, bY)
    requires Perpendicular(aX, aY, bX, bY)
    ensures Perpendicular(Per(aX, la) * MARK_SIZE, Per(aY, la) * MARK_SIZE, Per(bX, lb) * MARK_SIZE, Per(bY, lb) * MARK_SIZE)
    ensures IsLength(MARK_SIZE, Per(aX, la) * MARK_SIZE, Per(aY, la) * MARK_SIZE)
    ensures IsLength(MARK_SIZE, Per(bX, lb) * MARK_SIZE, Per(bY, lb) * MARK_SIZE)
  {
    var k := MARK_SIZE * MARK_SIZE / (la * lb);
    assert (aX / la * MARK_SIZE) * (bX / lb * MARK_SIZE) + (aY / la * MARK_SIZE) * (bY / lb * MARK_SIZE) == k * (aX * bX + aY * bY);
    var ka := MARK_SIZE * MARK_SIZE / (la * la);
    assert (aX / la * MARK_SIZE) * (aX / la * MARK_SIZE) + (aY / la * MARK_SIZE) * (aY / la * MARK_SIZE) == ka * (aX * aX + aY * aY);
    var kb := MARK_SIZE * MARK_SIZE / (lb * lb);
    assert (bX / lb * MARK_SIZE) * (bX / lb * MARK_SIZE) + (bY / lb * MARK_SIZE) * (bY / lb * MARK_SIZE) == kb * (bX * bX + bY * bY);
  }

  /**
   * As written, the mark at Py points away from the origin: for sin > 0 (Py
   * above O in pixel space) its vertical leg goes further up.
   */
  lemma DuplicateMarkAsWrittenPointsAway(pc: ProofContext)
    requires pc.FromMapper() && pc.mapper.scale > 0.0 && pc.sin > 0.0
    ensures var vs := Vertices(DuplicateMarkAsWritten(pc));
      |vs| == 3 && vs[2].y < pc.pYAxis.y < pc.origin.y
  {
    RightAngleIsSquareCorner(pc.pYAxis, Sign(pc.cos >= 0.0), Sign(pc.sin < 0.0), MARK_SIZE);
    SinAboveOrigin(pc);
  }

  /** For sin > 0 and scale > 0 the mapped Py is above O. */
  lemma SinAboveOrigin(pc: ProofContext)
    requires pc.FromMapper() && pc.mapper.scale > 0.0 && pc.sin > 0.0
    ensures pc.pYAxis.y < pc.origin.y
  {
    var y := Clamp(pc.sin, -CLAMP_BOUND, CLAMP_BOUND);
    assert y > 0.0;
    MulMono(pc.mapper.scale, 0.0, y);
  }

  /** For sin < 0 and scale > 0 the mapped Py is below O. */
  lemma SinBelowOrigin(pc: ProofContext)
    requires pc.FromMapper() && pc.mapper.scale > 0.0 && pc.sin < 0.0
    ensures pc.pYAxis.y > pc.origin.y
  {
    var y := Clamp(pc.sin, -CLAMP_BOUND, CLAMP_BOUND);
    assert y < 0.0;
    MulMono(pc.mapper.scale, y, 0.0);
  }

  /**
   * The corrected mark at Py faces the duplicate triangle O, Py, P: its
   * vertical leg runs towards O and its horizontal leg towards P.
   */
  lemma DuplicateMarkFacesTriangle(pc: ProofContext)
    requires pc.FromMapper() && pc.mapper.scale > 0.0 && pc.sin != 0.0 && pc.cos != 0.0
    ensures var vs := Vertices(DuplicateMark(pc));
      |vs| == 3 && vs[0].y == pc.pYAxis.y && vs[2].x == pc.pYAxis.x
      && (vs[2].y - pc.pYAxis.y) * (pc.origin.y - pc.pYAxis.y) > 0.0
      && (vs[0].x - pc.pYAxis.x) * (pc.pCircle.x - pc.pYAxis.x) > 0.0
  {
    RightAngleIsSquareCorner(pc.pYAxis, Sign(pc.cos >= 0.0), Sign(pc.sin >= 0.0), MARK_SIZE);
    var vs := Vertices(DuplicateMark(pc));
    if pc.sin > 0.0 {
      SinAboveOrigin(pc);
      MulMono(MARK_SIZE, 0.0, pc.origin.y - pc.pYAxis.y);
    } else {
      SinBelowOrigin(pc);
      MulMono(MARK_SIZE, 0.0, pc.pYAxis.y - pc.origin.y);
    }
    var x := Clamp(pc.cos, -CLAMP_BOUND, CLAMP_BOUND);
    assert pc.pCircle.x - pc.pYAxis.x == x * pc.mapper.scale;
    if pc.cos > 0.0 {
      assert x > 0.0;
      MulMono(pc.mapper.scale, 0.0, x);
      MulMono(MARK_SIZE, 0.0, x * pc.mapper.scale);
    } else {
      assert x < 0.0;
      MulMono(pc.mapper.scale, x, 0.0);
      MulMono(MARK_SIZE, 0.0, -(x * pc.mapper.scale));
    }
  }
}
