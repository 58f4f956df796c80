/**
 * The drawing vocabulary of the diagram (src/components/UnitCircle/canvas/helpers.ts):
 * lines, halo text, point markers, quadrant numerals and right-angle marks.
 * Each helper sets the styles it needs, builds its path and paints; the
 * specification functions below say which commands it appends.
 */
module CanvasHelpers {
  import opened TrigMath
  import opened Canvas

  /** The font and halo every label is drawn with. */
  const LABEL_FONT: string := "bold 14px Inter, Arial, sans-serif"
  const HALO_STROKE: string := "rgba(128,128,128,0.2)"
  const QUADRANT_FONT: string := "bold 120px Times New Roman"
  const POINT_RADIUS: real := 6.0

  /** The stroke drawLine paints: a straight segment from p1 to p2. */
  function LineStroke(p1: Point, p2: Point, color: string, width: real, dash: seq<real>): Cmd
  {
    Cmd.Stroke([PathOp.MoveTo(p1), PathOp.LineTo(p2)], color, width, dash)
  }

  /** drawText's commands: the halo outline first, then the fill, at the same point. */
  function TextCmds(str: string, p: Point, color: string, align: string, base: string): seq<Cmd>
  {
    [Cmd.StrokeText(str, p, HALO_STROKE, 3.0, LABEL_FONT, align, base),
     Cmd.FillText(str, p, color, LABEL_FONT, align, base)]
  }

  /** drawPoint's path: one full circle of radius 6 around p. */
  function DotPath(p: Point): seq<PathOp>
  {
    [PathOp.Arc(p, POINT_RADIUS, 0.0, PI * 2.0, false)]
  }

  /** drawPoint's commands: the disc fill, then its border, over the same circle. */
  function PointCmds(p: Point, color: string, border: string, alpha: real, dash: seq<real>): seq<Cmd>
  {
    [Cmd.Fill(DotPath(p), color, alpha), Cmd.Stroke(DotPath(p), border, 2.0, dash)]
  }

  /** The faint numeral colour: it depends on the theme's darkness only. */
  function QuadrantColor(isDark: bool): string
  {
    if isDark then "rgba(255, 255, 255, 0.03)" else "rgba(0, 0, 0, 0.03)"
  }

  /** Where drawQuadrants puts the numerals I, II, III and IV, in that order. */
  function QuadrantSpots(w: real, h: real): seq<Point>
  {
    var cx := w / 2.0;
    var cy := h / 2.0;
    [Point(cx + w / 4.0, cy - h / 4.0), Point(cx - w / 4.0, cy - h / 4.0),
     Point(cx - w / 4.0, cy + h / 4.0), Point(cx + w / 4.0, cy + h / 4.0)]
  }

  function QuadrantCmds(w: real, h: real, isDark: bool): seq<Cmd>
  {
    var spots := QuadrantSpots(w, h);
    var color := QuadrantColor(isDark);
    [Cmd.FillText("I", spots[0], color, QUADRANT_FONT, "center", "middle"),
     Cmd.FillText("II", spots[1], color, QUADRANT_FONT, "center", "middle"),
     Cmd.FillText("III", spots[2], color, QUADRANT_FONT, "center", "middle"),
     Cmd.FillText("IV", spots[3], color, QUADRANT_FONT, "center", "middle")]
  }

  /** drawRightAngle's three corners: along x from the vertex, the far corner, along y. */
  function RightAnglePath(v: Point, dirX: real, dirY: real, size: real): seq<PathOp>
  {
    [PathOp.MoveTo(Point(v.x + dirX * size, v.y)),
     PathOp.LineTo(Point(v.x + dirX * size, v.y + dirY * size)),
     PathOp.LineTo(Point(v.x, v.y + dirY * size))]
  }

  /** drawLine: a stroke of width `width` and dash `dash`, after which the dash is solid again. */
  method DrawLine(c: Recorder, p1: Point, p2: Point, color: string, width: real := 2.0, dash: seq<real> := [])
    modifies c`path, c`strokeStyle, c`lineWidth, c`lineDash, c`drawn
    ensures c.drawn == old(c.drawn) + [LineStroke(p1, p2, color, width, dash)]
    ensures c.path == [PathOp.MoveTo(p1), PathOp.LineTo(p2)]
    ensures c.strokeStyle == color && c.lineWidth == width && c.lineDash == []
  {
    c.BeginPath();
    c.strokeStyle := color;
    c.lineWidth := width;
    c.SetLineDash(dash);
    c.MoveTo(p1);
    c.LineTo(p2);
    assert c.path == [PathOp.MoveTo(p1), PathOp.LineTo(p2)];
    c.Stroke();
    c.SetLineDash([]);
  }

  /** drawText: a halo outline and then the label itself, both at p. */
  method DrawText(c: Recorder, str: string, p: Point, color: string, align: string := "center", base: string := "middle")
    modifies c`font, c`lineWidth, c`strokeStyle, c`textAlign, c`textBaseline, c`fillStyle, c`drawn
    ensures c.drawn == old(c.drawn) + TextCmds(str, p, color, align, base)
    ensures c.font == LABEL_FONT && c.lineWidth == 3.0 && c.strokeStyle == HALO_STROKE
    ensures c.textAlign == align && c.textBaseline == base && c.fillStyle == color
  {
    c.font := LABEL_FONT;
    c.lineWidth := 3.0;
    c.strokeStyle := HALO_STROKE;
    c.textAlign := align;
    c.textBaseline := base;
    c.StrokeText(str, p);
    c.fillStyle := color;
    c.FillText(str, p);
  }

  /** drawPoint: a filled disc of radius 6 with a border of width 2. */
  method DrawPoint(c: Recorder, p: Point, color: string, borderColor: string := "#fff")
    modifies c`path, c`fillStyle, c`strokeStyle, c`lineWidth, c`drawn
    ensures c.drawn == old(c.drawn) + PointCmds(p, color, borderColor, c.globalAlpha, c.lineDash)
    ensures c.path == DotPath(p)
    ensures c.fillStyle == color && c.strokeStyle == borderColor && c.lineWidth == 2.0
  {
    c.BeginPath();
    c.fillStyle := color;
    c.Arc(p, POINT_RADIUS, 0.0, PI * 2.0);
    assert c.path == DotPath(p);
    c.Fill();
    c.strokeStyle := borderColor;
    c.lineWidth := 2.0;
    c.Stroke();
  }

  /** drawQuadrants: the four faint numerals, one per quadrant. */
  method DrawQuadrants(c: Recorder, width: real, height: real, isDark: bool)
    modifies c`font, c`textAlign, c`textBaseline, c`fillStyle, c`drawn
    ensures c.drawn == old(c.drawn) + QuadrantCmds(width, height, isDark)
    ensures c.font == QUADRANT_FONT && c.textAlign == "center" && c.textBaseline == "middle"
    ensures c.fillStyle == QuadrantColor(isDark)
  {
    var cx := width / 2.0;
    var cy := height / 2.0;
    c.font := QUADRANT_FONT;
    c.textAlign := "center";
    c.textBaseline := "middle";
    c.fillStyle := QuadrantColor(isDark);
    ghost var spots := QuadrantSpots(width, height);
    ghost var color := QuadrantColor(isDark);
    c.FillText("I", Point(cx + width / 4.0, cy - height / 4.0));
    c.FillText("II", Point(cx - width / 4.0, cy - height / 4.0));
    c.FillText("III", Point(cx - width / 4.0, cy + height / 4.0));
    c.FillText("IV", Point(cx + width / 4.0, cy + height / 4.0));
    AppendFour(old(c.drawn),
      Cmd.FillText("I", spots[0], color, QUADRANT_FONT, "center", "middle"),
      Cmd.FillText("II", spots[1], color, QUADRANT_FONT, "center", "middle"),
      Cmd.FillText("III", spots[2], color, QUADRANT_FONT, "center", "middle"),
      Cmd.FillText("IV", spots[3], color, QUADRANT_FONT, "center", "middle"));
  }

  /** drawRightAngle: a width-1 polyline outlining the corner of a square at the vertex. */
  method DrawRightAngle(c: Recorder, vertex: Point, dirX: real, dirY: real, size: real, color: string)
    modifies c`path, c`strokeStyle, c`lineWidth, c`drawn
    ensures c.drawn == old(c.drawn) + [Cmd.Stroke(RightAnglePath(vertex, dirX, dirY, size), color, 1.0, c.lineDash)]
    ensures c.path == RightAnglePath(vertex, dirX, dirY, size)
    ensures c.strokeStyle == color && c.lineWidth == 1.0
  {
    c.BeginPath();
    c.strokeStyle := color;
    c.lineWidth := 1.0;
    c.MoveTo(Point(vertex.x + dirX * size, vertex.y));
    c.LineTo(Point(vertex.x + dirX * size, vertex.y + dirY * size));
    c.LineTo(Point(vertex.x, vertex.y + dirY * size));
    assert c.path == RightAnglePath(vertex, dirX, dirY, size);
    c.Stroke();
  }

  /** The points a path visits, in order (arcs and closes contribute none). */
  function Vertices(path: seq<PathOp>): (vs: seq<Point>)
    ensures |vs| <= |path|
  {
    if path == [] then []
    else match path[0]
      case MoveTo(p) => [p] + Vertices(path[1..])
      case LineTo(p) => [p] + Vertices(path[1..])
      case _ => Vertices(path[1..])
  }

  /**
   * The right-angle mark with unit directions is two sides of a square of side
   * |size| whose fourth corner is the vertex: the first side is vertical, the
   * second horizontal, and each corner is size away from the vertex along one axis.
   */
  lemma RightAngleIsSquareCorner(v: Point, dirX: real, dirY: real, size: real)
    requires (dirX == 1.0 || dirX == -1.0) && (dirY == 1.0 || dirY == -1.0)
    ensures var vs := Vertices(RightAnglePath(v, dirX, dirY, size));
      |vs| == 3
      && vs[0].x == vs[1].x && vs[1].y == vs[2].y
      && Abs(vs[1].y - vs[0].y) == Abs(size) && Abs(vs[2].x - vs[1].x) == Abs(size)
      && vs[0].y == v.y && vs[2].x == v.x
      && vs[0].x - v.x == vs[1].x - vs[2].x && vs[2].y - v.y == vs[1].y - vs[0].y
  {
    var path := RightAnglePath(v, dirX, dirY, size);
    assert Vertices(path[3..]) == [];
    assert Vertices(path[2..]) == [path[2].p] + Vertices(path[3..]);
    assert Vertices(path[1..]) == [path[1].p] + Vertices(path[2..]);
    assert Vertices(path) == [path[0].p] + Vertices(path[1..]);
  }

  /** With a positive canvas size, each numeral sits inside the canvas, in its own quadrant. */
  lemma QuadrantNumeralsInQuadrants(w: real, h: real)
    requires w > 0.0 && h > 0.0
    ensures var s := QuadrantSpots(w, h);
      && s[0].x > w / 2.0 && s[0].y < h / 2.0
      && s[1].x < w / 2.0 && s[1].y < h / 2.0
      && s[2].x < w / 2.0 && s[2].y > h / 2.0
      && s[3].x > w / 2.0 && s[3].y > h / 2.0
      && forall i :: 0 <= i < 4 ==> 0.0 < s[i].x < w && 0.0 < s[i].y < h
  {
  }

  /** The numerals are the 180-degree rotations of each other about the canvas centre. */
  lemma QuadrantNumeralsSymmetric(w: real, h: real)
    ensures var s := QuadrantSpots(w, h);
      s[0].x + s[2].x == w && s[0].y + s[2].y == h
      && s[1].x + s[3].x == w && s[1].y + s[3].y == h
  {
  }
}
