/**
 * The similar-triangle (cosecant) overlay: the triangle O, P, C with
 * C = (0, csc) on the y-axis, its two dashed sides and the right-angle mark
 * at P (src/components/UnitCircle/canvas/similarCosecant.ts), and the longer
 * variant the renderer draws inline (UnitCircleRenderer.ts), which uses
 * another fill and adds the theta arc at P, the theta label at C and the
 * supplementary mark at Py.
 */
module SimilarCosecant {
  import opened TrigMath
  import opened Canvas
  import opened CanvasHelpers
  import opened Overlays
  import opened ProofOverlays
  import opened SimilarSecant

  /** The fill the renderer's inline variant uses. */
  const RENDERER_COSECANT_FILL: string := "rgba(230, 126, 34, 0.1)"

  /** The overlay's guard: nothing is drawn unless |sin| > 0.001. */
  predicate CosecantDefined(pc: ProofContext) { Abs(pc.sin) > 0.001 }

  /** withAlpha(theme.csc, OVERLAY_ALPHA.medium). */
  function CosecantFill(pc: ProofContext): string
    requires ValidHex(pc.theme.csc)
  {
    WithAlpha(pc.theme.csc, MEDIUM)
  }

  /** The mark at P between the radius and the cotangent side P -> C. */
  function CosecantPMark(pc: ProofContext): seq<PathOp>
  {
    CornerMark(pc.pCircle, UnitTowards(pc.pCircle, pc.origin, pc.lenOP), UnitTowards(pc.pCircle, pc.PCsc(), pc.lenPC))
  }

  /** The fill of O, P, C, its dashed sides P -> C (cot colour) and O -> C (csc colour), and the mark at P. */
  function CosecantBodyCmds(pc: ProofContext, fill: string): seq<Cmd>
  {
    [Cmd.Fill(Open(pc.origin, pc.pCircle, pc.PCsc()), fill, 1.0),
     LineStroke(pc.pCircle, pc.PCsc(), pc.theme.cot, 2.0, [6.0, 6.0]),
     LineStroke(pc.origin, pc.PCsc(), pc.theme.csc, 2.0, [6.0, 6.0]),
     Thin(CosecantPMark(pc), pc, 1.0)]
  }

  /** drawSimilarCosecant's commands: nothing when the guard fails, else the body. */
  function SimilarCosecantCmds(pc: ProofContext): seq<Cmd>
    requires ValidHex(pc.theme.csc)
  {
    if !CosecantDefined(pc) then [] else CosecantBodyCmds(pc, CosecantFill(pc))
  }

  /** The renderer's theta arc at P from the horizontal P -> Py to the side P -> C, radius 25, and its label. */
  function ThetaAtPTowardsCscCmds(pc: ProofContext): seq<Cmd>
  {
    var angCot := Heading(pc.js, pc.pCircle, pc.PCsc());
    var angHoriz := Heading(pc.js, pc.pCircle, pc.pYAxis);
    ArcMark(pc, "θ", pc.pCircle, 25.0, angHoriz, angCot, false, 1.0, (angHoriz + angCot) / 2.0, 35.0)
  }

  /** Where the renderer puts the theta label at C: 10 to the right, 35 below C when csc > 0, else 35 above. */
  function ThetaAtCPoint(pc: ProofContext): Point
  {
    Point(pc.PCsc().x + 10.0, pc.PCsc().y + (if pc.csc > 0.0 then 35.0 else -35.0))
  }

  /** The renderer's supplementary mark at Py: towards P along x and towards C along y. */
  function CosecantSupplementaryMark(pc: ProofContext): seq<PathOp>
  {
    RightAnglePath(pc.pYAxis, Sign(pc.pCircle.x - pc.pYAxis.x >= 0.0), Sign(pc.PCsc().y - pc.pYAxis.y >= 0.0), MARK_SIZE)
  }

  /** The renderer's extra commands after the body: theta at P, theta at C, the mark at Py. */
  function RendererCosecantExtraCmds(pc: ProofContext): seq<Cmd>
  {
    ThetaAtPTowardsCscCmds(pc) + Label("θ", ThetaAtCPoint(pc), pc.theme.text)
    + [Thin(CosecantSupplementaryMark(pc), pc, 1.0)]
  }

  /** The renderer's similarCsc block: nothing when the guard fails, else the body and the extras. */
  function RendererCosecantCmds(pc: ProofContext): seq<Cmd>
  {
    if !CosecantDefined(pc) then []
    else CosecantBodyCmds(pc, RENDERER_COSECANT_FILL) + RendererCosecantExtraCmds(pc)
  }

  // ---------------------------------------------------------------- the drawing methods

  /** drawSimilarCosecant. */
  method DrawSimilarCosecant(c: Recorder, pc: ProofContext)
    requires ValidHex(pc.theme.csc)
    requires c.lineDash == [] && c.globalAlpha == 1.0
    modifies c
    ensures c.drawn == old(c.drawn) + SimilarCosecantCmds(pc)
    ensures c.lineDash == [] && c.globalAlpha == 1.0
  {
    if Abs(pc.sin) <= 0.001 {
      return;
    }
    DrawCosecantBody(c, pc, WithAlpha(pc.theme.csc, MEDIUM));
  }

  /** The renderer's inline similarCsc block. */
  method DrawRendererCosecant(c: Recorder, pc: ProofContext)
    requires c.lineDash == [] && c.globalAlpha == 1.0
    modifies c
    ensures c.drawn == old(c.drawn) + RendererCosecantCmds(pc)
    ensures c.lineDash == [] && c.globalAlpha == 1.0
  {
    if Abs(pc.sin) <= 0.001 {
      return;
    }
    DrawCosecantBody(c, pc, RENDERER_COSECANT_FILL);
    DrawCosecantExtras(c, pc);
  }

  /** The fill, the two dashed sides and the mark at P, shared by both variants. */
  method DrawCosecantBody(c: Recorder, pc: ProofContext, fill: string)
    requires c.lineDash == [] && c.globalAlpha == 1.0
    modifies c
    ensures c.drawn == old(c.drawn) + CosecantBodyCmds(pc, fill)
    ensures c.lineDash == [] && c.globalAlpha == 1.0
  {
    var pCsc := pc.mapper.Map(0.0, pc.csc);
    c.BeginPath();
    c.fillStyle := fill;
    c.MoveTo(pc.origin);
    c.LineTo(pc.pCircle);
    c.LineTo(pCsc);
    assert c.path == Open(pc.origin, pc.pCircle, pCsc);
    c.Fill();
    DrawLine(c, pc.pCircle, pCsc, pc.theme.cot, 2.0, [6.0, 6.0]);
    DrawLine(c, pc.origin, pCsc, pc.theme.csc, 2.0, [6.0, 6.0]);
    var u := UnitTowards(pc.pCircle, pc.origin, pc.lenOP);
    var v := UnitTowards(pc.pCircle, pCsc, pc.lenPC);
    var c1 := Point(pc.pCircle.x + u.x * MARK_SIZE, pc.pCircle.y + u.y * MARK_SIZE);
    var c2 := Point(c1.x + v.x * MARK_SIZE, c1.y + v.y * MARK_SIZE);
    var c3 := Point(pc.pCircle.x + v.x * MARK_SIZE, pc.pCircle.y + v.y * MARK_SIZE);
    StrokeMark(c, pc, c1, c2, c3);
  }

  method DrawCosecantExtras(c: Recorder, pc: ProofContext)
    requires c.lineDash == [] && c.globalAlpha == 1.0
    modifies c
    ensures c.drawn == old(c.drawn) + RendererCosecantExtraCmds(pc)
    ensures c.lineDash == [] && c.globalAlpha == 1.0
  {
    var pCsc := pc.mapper.Map(0.0, pc.csc);
    var angCot := pc.js.atan2(pCsc.y - pc.pCircle.y, pCsc.x - pc.pCircle.x);
    var angHoriz := pc.js.atan2(pc.pYAxis.y - pc.pCircle.y, pc.pYAxis.x - pc.pCircle.x);
    c.lineWidth := 1.0;
    DrawArcMark(c, pc, "θ", pc.pCircle, 25.0, angHoriz, angCot, false, (angHoriz + angCot) / 2.0, 35.0);
    ghost var d := old(c.drawn);
    assert c.drawn == d + ThetaAtPTowardsCscCmds(pc);
    DrawText(c, "θ", ThetaAtCPoint(pc), pc.theme.text);
    AppendBlocks(d, ThetaAtPTowardsCscCmds(pc), Label("θ", ThetaAtCPoint(pc), pc.theme.text));
    var signCY := Sign(pCsc.y - pc.pYAxis.y >= 0.0);
    var signPX := Sign(pc.pCircle.x - pc.pYAxis.x >= 0.0);
    StrokeMark(c, pc, Point(pc.pYAxis.x + signPX * MARK_SIZE, pc.pYAxis.y),
      Point(pc.pYAxis.x + signPX * MARK_SIZE, pc.pYAxis.y + signCY * MARK_SIZE),
      Point(pc.pYAxis.x, pc.pYAxis.y + signCY * MARK_SIZE));
    AppendBlocks(d, ThetaAtPTowardsCscCmds(pc) + Label("θ", ThetaAtCPoint(pc), pc.theme.text),
                 [Thin(CosecantSupplementaryMark(pc), pc, 1.0)]);
  }

  // ---------------------------------------------------------------- properties

  /**
   * drawSimilarCosecant draws nothing exactly when |sin| <= 0.001; otherwise
   * exactly four commands: the fill in the csc colour at alpha 0.15 and two
   * dashed [6, 6] width-2 lines, P -> C in the cot colour and O -> C in the
   * csc colour, then the mark at P.
   */
  lemma CosecantGuard(pc: ProofContext)
    requires ValidHex(pc.theme.csc)
    ensures SimilarCosecantCmds(pc) == [] <==> !CosecantDefined(pc)
    ensures CosecantDefined(pc) ==> SimilarCosecantCmds(pc) == [
      Cmd.Fill(Open(pc.origin, pc.pCircle, pc.PCsc()), WithAlpha(pc.theme.csc, MEDIUM), 1.0),
      Cmd.Stroke([PathOp.MoveTo(pc.pCircle), PathOp.LineTo(pc.PCsc())], pc.theme.cot, 2.0, [6.0, 6.0]),
      Cmd.Stroke([PathOp.MoveTo(pc.origin), PathOp.LineTo(pc.PCsc())], pc.theme.csc, 2.0, [6.0, 6.0]),
      Cmd.Stroke(CosecantPMark(pc), pc.theme.text, 1.0, [])]
  {
  }

  /** The renderer's block has the same guard; its first four commands differ from the overlay's only in the fill colour. */
  lemma RendererCosecantMatchesOverlay(pc: ProofContext)
    requires ValidHex(pc.theme.csc)
    ensures RendererCosecantCmds(pc) == [] <==> !CosecantDefined(pc)
    ensures CosecantDefined(pc) ==> (|RendererCosecantCmds(pc)| == 10
      && RendererCosecantCmds(pc)[1..4] == SimilarCosecantCmds(pc)[1..4]
      && RendererCosecantCmds(pc)[0].color == RENDERER_COSECANT_FILL
      && SimilarCosecantCmds(pc)[0].color == CosecantFill(pc)
      && RendererCosecantCmds(pc)[0].path == SimilarCosecantCmds(pc)[0].path)
  {
  }

  /** For a context built by the mapper, C lies on the pixel y-axis with O and Py. */
  lemma CosecantPointOnYAxis(pc: ProofContext)
    requires pc.FromMapper()
    ensures pc.PCsc().x == pc.origin.x == pc.pYAxis.x == pc.cx
    ensures Vertices(Open(pc.origin, pc.pCircle, pc.PCsc())) == [pc.origin, pc.pCircle, pc.PCsc()]
  {
    OpenVertices(pc.origin, pc.pCircle, pc.PCsc());
  }

  /** The guard keeps C inside the mapper's clamp: |sin| > 0.001 and sin * csc = 1 give |csc| < 1000. */
  lemma GuardKeepsCosecantUnclamped(pc: ProofContext)
    requires CosecantDefined(pc) && pc.sin * pc.csc == 1.0
    ensures Abs(pc.csc) < CLAMP_BOUND
    ensures pc.PCsc() == Point(pc.mapper.cx, pc.mapper.cy - pc.csc * pc.mapper.scale)
  {
    ReciprocalBound(pc.sin, pc.csc);
    assert -CLAMP_BOUND <= pc.csc <= CLAMP_BOUND;
    assert Clamp(0.0, -CLAMP_BOUND, CLAMP_BOUND) == 0.0 && Clamp(pc.csc, -CLAMP_BOUND, CLAMP_BOUND) == pc.csc;
    var m := pc.mapper;
    assert m.Map(0.0, pc.csc) == Point(m.cx + 0.0 * m.scale, m.cy - pc.csc * m.scale);
  }

  /**
   * The mark at P is a parallelogram corner: c2 - c1 = c3 - P, with c1 and c3
   * at 10 times the unit vectors from P towards O and towards C.
   */
  lemma CosecantPMarkParallelogram(pc: ProofContext)
    requires pc.lenOP > 0.0 && pc.lenPC > 0.0
    ensures var vs := Vertices(CosecantPMark(pc));
      |vs| == 3
      && vs[1].x - vs[0].x == vs[2].x - pc.pCircle.x && vs[1].y - vs[0].y == vs[2].y - pc.pCircle.y
      && (vs[0].x - pc.pCircle.x) * pc.lenOP == MARK_SIZE * (pc.origin.x - pc.pCircle.x)
      && (vs[0].y - pc.pCircle.y) * pc.lenOP == MARK_SIZE * (pc.origin.y - pc.pCircle.y)
      && (vs[2].x - pc.pCircle.x) * pc.lenPC == MARK_SIZE * (pc.PCsc().x - pc.pCircle.x)
      && (vs[2].y - pc.pCircle.y) * pc.lenPC == MARK_SIZE * (pc.PCsc().y - pc.pCircle.y)
  {
    var p := pc.pCircle;
    var q := pc.PCsc();
    CornerMarkVertices(p, UnitTowards(p, pc.origin, pc.lenOP), UnitTowards(p, q, pc.lenPC));
    PerTimesLen(pc.origin.x - p.x, pc.lenOP);
    PerTimesLen(pc.origin.y - p.y, pc.lenOP);
    PerTimesLen(q.x - p.x, pc.lenPC);
    PerTimesLen(q.y - p.y, pc.lenPC);
  }

  /**
   * The radius O - P is perpendicular to the cotangent side C - P: with
   * cos² + sin² = 1 and sin * csc = 1, (O - P) · (C - P) = scale² (cos² + sin² - sin * csc) = 0.
   */
  lemma RadiusPerpendicularToCotangent(pc: ProofContext)
    requires pc.FromMapper() && CosecantDefined(pc)
    requires OnUnitCircle(pc.cos, pc.sin) && pc.sin * pc.csc == 1.0
    ensures Perpendicular(pc.origin.x - pc.pCircle.x, pc.origin.y - pc.pCircle.y,
                          pc.PCsc().x - pc.pCircle.x, pc.PCsc().y - pc.pCircle.y)
  {
    UnitBound(pc.cos, pc.sin);
    GuardKeepsCosecantUnclamped(pc);
    var s := pc.mapper.scale;
    var cos, sin, csc := pc.cos, pc.sin, pc.csc;
    assert pc.pCircle == Point(pc.cx + cos * s, pc.cy - sin * s);
    calc {
      (pc.origin.x - pc.pCircle.x) * (pc.PCsc().x - pc.pCircle.x)
        + (pc.origin.y - pc.pCircle.y) * (pc.PCsc().y - pc.pCircle.y);
      (-(cos * s)) * (-(cos * s)) + (sin * s) * (sin * s - csc * s);
      { assert (sin * s) * (sin * s - csc * s) == (sin * sin - sin * csc) * (s * s); }
      (cos * cos) * (s * s) + (sin * sin - sin * csc) * (s * s);
      (cos * cos + sin * sin - sin * csc) * (s * s);
      0.0;
    }
  }

  /** Hence the mark at P is a true square corner: two perpendicular legs of length 10. */
  lemma CosecantPMarkIsSquareCorner(pc: ProofContext)
    requires pc.FromMapper() && CosecantDefined(pc)
    requires OnUnitCircle(pc.cos, pc.sin) && pc.sin * pc.csc == 1.0
    requires pc.RootsOk() && pc.lenOP > 0.0 && pc.lenPC > 0.0
    ensures SquareCorner(pc.pCircle, Vertices(CosecantPMark(pc)))
  {
    RadiusPerpendicularToCotangent(pc);
    CornerMarkSquare(pc.pCircle, pc.origin, pc.PCsc(), pc.lenOP, pc.lenPC);
  }

  /**
   * The theta label at C is placed 35 pixels from C on the side of the origin
   * when scale > 0: below C (greater pixel y) when csc > 0, above when csc < 0.
   */
  lemma ThetaLabelAtCFacesOrigin(pc: ProofContext)
    requires pc.FromMapper() && pc.mapper.scale > 0.0 && CosecantDefined(pc) && pc.sin * pc.csc == 1.0
    ensures ThetaAtCPoint(pc).x == pc.cx + 10.0
    ensures pc.csc > 0.0 ==> pc.PCsc().y < ThetaAtCPoint(pc).y && pc.PCsc().y < pc.origin.y
    ensures pc.csc < 0.0 ==> pc.PCsc().y > ThetaAtCPoint(pc).y && pc.PCsc().y > pc.origin.y
  {
    GuardKeepsCosecantUnclamped(pc);
    if pc.csc > 0.0 {
      MulMono(pc.mapper.scale, 0.0, pc.csc);
    } else if pc.csc < 0.0 {
      MulMono(pc.mapper.scale, pc.csc, 0.0);
    }
  }

  /**
   * The supplementary mark at Py is a square corner at Py whose horizontal leg
   * runs towards P and whose vertical leg runs towards C.
   */
  lemma CosecantSupplementaryMarkFaces(pc: ProofContext)
    ensures var vs := Vertices(CosecantSupplementaryMark(pc));
      |vs| == 3 && vs[0].y == pc.pYAxis.y && vs[2].x == pc.pYAxis.x
      && Abs(vs[0].x - pc.pYAxis.x) == MARK_SIZE && Abs(vs[2].y - pc.pYAxis.y) == MARK_SIZE
      && (vs[0].x - pc.pYAxis.x > 0.0 <==> pc.pCircle.x >= pc.pYAxis.x)
      && (vs[2].y - pc.pYAxis.y > 0.0 <==> pc.PCsc().y >= pc.pYAxis.y)
  {
    RightAngleIsSquareCorner(pc.pYAxis, Sign(pc.pCircle.x - pc.pYAxis.x >= 0.0), Sign(pc.PCsc().y - pc.pYAxis.y >= 0.0), MARK_SIZE);
  }
}
