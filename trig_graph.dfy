/**
 * The function graphs under the unit circle (src/components/TrigGraph.tsx).
 *
 * One small canvas per active function: a cleared background, dashed
 * reference lines at +-1 (sine, cosine) or +-10 (the others), the zero axes,
 * a faint indicator at the current angle, tick labels, the plot of the trace
 * and a dot at the current value. The trace is plotted in ascending angle
 * order; a value outside [-Y_RANGE, Y_RANGE] is skipped and makes the next
 * visible point open a new subpath, which is how asymptotes are broken.
 */
module TrigGraph {
  import opened TrigMath
  import opened Canvas
  import opened Types
  import opened UnitCircleView
  import opened Overlays
  import Renderer

  /** The dataKey of a graph: which of the six values it plots. */
  datatype Curve = Sine | Cosine | Tangent | Cotangent | Secant | Cosecant

  /** One entry of activeGraphs: the key, its label (caption) and its colour. */
  datatype Graph = Graph(key: Curve, caption: string, color: string)

  /** The canvas size in CSS pixels (the bounding rectangle's width and height). */
  datatype Size = Size(w: real, h: real)

  /** Math.sin, Math.cos and Math.tan on radians; given, never computed. */
  datatype MathFns = MathFns(sin: real -> real, cos: real -> real, tan: real -> real)

  const PADDING_TOP: real := 15.0
  const PADDING_BOTTOM: real := 25.0
  const PADDING_LEFT: real := 35.0
  const PADDING_RIGHT: real := 15.0

  const INDICATOR_COLOR: string := "rgba(150, 150, 150, 0.4)"
  const LABEL_FONT: string := "10px sans-serif"
  const DOT_RADIUS: real := 4.0

  /** The tick angles labelled along the x-axis, in degrees. */
  const X_TICKS: seq<nat> := [0, 90, 180, 270, 360]

  /** The six curves in the order the graph list offers them. */
  const CURVES: seq<Curve> := [Sine, Cosine, Tangent, Cotangent, Secant, Cosecant]

  // ---------------------------------------------------------------- configuration

  /** isBounded: the sine and cosine graphs. */
  predicate Bounded(k: Curve) { k.Sine? || k.Cosine? }

  /** Y_RANGE: the half-height of the plotted value range. */
  function YRange(k: Curve): (r: real)
    ensures r > 0.0
  {
    if Bounded(k) then 1.1 else 10.0
  }

  /** pt.values[dataKey]. */
  function Value(v: TrigValues, k: Curve): real
  {
    match k
    case Sine => v.sin
    case Cosine => v.cos
    case Tangent => v.tan
    case Cotangent => v.cot
    case Secant => v.sec
    case Cosecant => v.csc
  }

  function GraphWidth(s: Size): real { s.w - PADDING_LEFT - PADDING_RIGHT }

  /** mapX: degrees 0..360 onto the plot's left and right edges. */
  function MapX(s: Size, deg: real): (x: real)
    ensures deg == 0.0 ==> x == PADDING_LEFT
    ensures deg == 360.0 ==> x == s.w - PADDING_RIGHT
  {
    MapRange(deg, 0.0, 360.0, PADDING_LEFT, PADDING_LEFT + GraphWidth(s))
  }

  /** mapY: -Y_RANGE onto the plot's bottom edge and +Y_RANGE onto its top edge. */
  function MapY(s: Size, k: Curve, val: real): (y: real)
    ensures val == -YRange(k) ==> y == s.h - PADDING_BOTTOM
    ensures val == YRange(k) ==> y == PADDING_TOP
  {
    MapRange(val, -YRange(k), YRange(k), s.h - PADDING_BOTTOM, PADDING_TOP)
  }

  /** A value the graph plots: Math.abs(val) > Y_RANGE is skipped. */
  predicate Visible(k: Curve, val: real) { Abs(val) <= YRange(k) }

  /** The plot area: between the paddings, when the canvas is larger than them. */
  predicate RoomyEnough(s: Size)
  {
    s.w > PADDING_LEFT + PADDING_RIGHT && s.h > PADDING_TOP + PADDING_BOTTOM
  }

  predicate InPlotArea(s: Size, p: Point)
  {
    PADDING_LEFT <= p.x <= s.w - PADDING_RIGHT && PADDING_TOP <= p.y <= s.h - PADDING_BOTTOM
  }

  /** mapY runs downwards: it is mapRange onto the upward range applied to -val. */
  lemma MapYFlipped(s: Size, k: Curve, val: real)
    ensures MapY(s, k, val) == MapRange(-val, -YRange(k), YRange(k), PADDING_TOP, s.h - PADDING_BOTTOM)
  {
    var y, d := YRange(k), s.h - PADDING_BOTTOM - PADDING_TOP;
    assert (val + y) * (-d) == -((val + y) * d);
    assert (-val + y) * d == 2.0 * y * d - (val + y) * d;
    assert (2.0 * y * d) / (2.0 * y) == d;
  }

  /** A larger value is drawn higher up (a smaller y), on a canvas taller than its paddings. */
  lemma MapYDecreasing(s: Size, k: Curve, v1: real, v2: real)
    requires RoomyEnough(s) && v1 <= v2
    ensures MapY(s, k, v2) <= MapY(s, k, v1)
  {
    MapYFlipped(s, k, v1);
    MapYFlipped(s, k, v2);
    MapRangeMonotone(-v2, -v1, -YRange(k), YRange(k), PADDING_TOP, s.h - PADDING_BOTTOM);
  }

  /** An angle in [0, 360] with a visible value is drawn inside the plot area. */
  lemma VisibleInsidePlot(s: Size, k: Curve, deg: real, val: real)
    requires RoomyEnough(s) && 0.0 <= deg <= 360.0 && Visible(k, val)
    ensures InPlotArea(s, Point(MapX(s, deg), MapY(s, k, val)))
  {
    MapRangeMonotone(0.0, deg, 0.0, 360.0, PADDING_LEFT, PADDING_LEFT + GraphWidth(s));
    MapRangeMonotone(deg, 360.0, 0.0, 360.0, PADDING_LEFT, PADDING_LEFT + GraphWidth(s));
    MapYDecreasing(s, k, -YRange(k), val);
    MapYDecreasing(s, k, val, YRange(k));
  }

  // ---------------------------------------------------------------- the plot

  /** Where a trace point is drawn on graph k. */
  function PlotPoint(s: Size, k: Curve, p: TracePoint): Point
  {
    Point(MapX(s, p.angle), MapY(s, k, Value(p.values, k)))
  }

  predicate VisibleAt(k: Curve, pts: seq<TracePoint>, i: int)
    requires 0 <= i < |pts|
  {
    Visible(k, Value(pts[i].values, k))
  }

  /**
   * The path command a point contributes, stated without the loop's flag:
   * nothing when its value is out of range, a moveTo when it is the first
   * point or follows a point out of range, a lineTo otherwise.
   */
  function OpFor(s: Size, k: Curve, pts: seq<TracePoint>, i: nat): seq<PathOp>
    requires i < |pts|
  {
    if !VisibleAt(k, pts, i) then []
    else if i == 0 || !VisibleAt(k, pts, i - 1) then [PathOp.MoveTo(PlotPoint(s, k, pts[i]))]
    else [PathOp.LineTo(PlotPoint(s, k, pts[i]))]
  }

  /** The path the first n points contribute. */
  function PlotPath(s: Size, k: Curve, pts: seq<TracePoint>, n: nat): (r: seq<PathOp>)
    requires n <= |pts|
    ensures |r| <= n
    ensures forall op :: op in r ==> op.MoveTo? || op.LineTo?
  {
    if n == 0 then [] else PlotPath(s, k, pts, n - 1) + OpFor(s, k, pts, n - 1)
  }

  /** How many of the first n points have a visible value. */
  function VisibleCount(k: Curve, pts: seq<TracePoint>, n: nat): nat
    requires n <= |pts|
  {
    if n == 0 then 0 else VisibleCount(k, pts, n - 1) + (if VisibleAt(k, pts, n - 1) then 1 else 0)
  }

  /** The plot has one moveTo or lineTo per visible point and nothing else. */
  lemma {:induction false} PlotPathLength(s: Size, k: Curve, pts: seq<TracePoint>, n: nat)
    requires n <= |pts|
    ensures |PlotPath(s, k, pts, n)| == VisibleCount(k, pts, n)
    ensures forall i :: 0 <= i < |PlotPath(s, k, pts, n)| ==>
      PlotPath(s, k, pts, n)[i].MoveTo? || PlotPath(s, k, pts, n)[i].LineTo?
  {
    if n > 0 {
      PlotPathLength(s, k, pts, n - 1);
    }
  }

  /** The plot is empty exactly when none of the points is visible. */
  lemma {:induction false} PlotPathEmpty(s: Size, k: Curve, pts: seq<TracePoint>, n: nat)
    requires n <= |pts|
    ensures PlotPath(s, k, pts, n) == [] <==> forall i :: 0 <= i < n ==> !VisibleAt(k, pts, i)
  {
    if n > 0 {
      PlotPathEmpty(s, k, pts, n - 1);
    }
  }

  /** A non-empty plot starts with a moveTo: the first visible point opens the path. */
  lemma {:induction false} PlotStartsWithMoveTo(s: Size, k: Curve, pts: seq<TracePoint>, n: nat)
    requires n <= |pts| && PlotPath(s, k, pts, n) != []
    ensures PlotPath(s, k, pts, n)[0].MoveTo?
  {
    var prev := PlotPath(s, k, pts, n - 1);
    assert PlotPath(s, k, pts, n) == prev + OpFor(s, k, pts, n - 1);
    if prev != [] {
      PlotStartsWithMoveTo(s, k, pts, n - 1);
      assert PlotPath(s, k, pts, n)[0] == prev[0];
    } else if n - 1 > 0 {
      PlotPathEmpty(s, k, pts, n - 1);
      assert !VisibleAt(k, pts, n - 2);
    }
  }

  /**
   * On a sorted trace the plot runs left to right: the x coordinates of its
   * commands never decrease, and none lies right of the last point's angle.
   */
  lemma {:induction false} PlotPathAscending(s: Size, k: Curve, pts: seq<TracePoint>, n: nat)
    requires n <= |pts| && SortedByAngle(pts) && RoomyEnough(s)
    ensures forall i :: 0 <= i < |PlotPath(s, k, pts, n)| ==>
      PlotPath(s, k, pts, n)[i].MoveTo? || PlotPath(s, k, pts, n)[i].LineTo?
    ensures n > 0 ==> forall i :: 0 <= i < |PlotPath(s, k, pts, n)| ==>
      PlotPath(s, k, pts, n)[i].p.x <= MapX(s, pts[n - 1].angle)
    ensures forall i, j :: 0 <= i < j < |PlotPath(s, k, pts, n)| ==>
      PlotPath(s, k, pts, n)[i].p.x <= PlotPath(s, k, pts, n)[j].p.x
  {
    if n > 0 {
      PlotPathAscending(s, k, pts, n - 1);
      var prev := PlotPath(s, k, pts, n - 1);
      var last := MapX(s, pts[n - 1].angle);
      if n > 1 {
        MapRangeMonotone(pts[n - 2].angle, pts[n - 1].angle, 0.0, 360.0, PADDING_LEFT, PADDING_LEFT + GraphWidth(s));
      }
      assert forall i :: 0 <= i < |prev| ==> prev[i].p.x <= last;
      assert forall op :: op in OpFor(s, k, pts, n - 1) ==> (op.MoveTo? || op.LineTo?) && op.p.x == last;
    }
  }

  /**
   * The sine and cosine graphs are never broken when every value lies in
   * [-1, 1]: one moveTo at the first point and a lineTo at every later one.
   */
  lemma {:induction false} BoundedPlotUnbroken(s: Size, k: Curve, pts: seq<TracePoint>, n: nat)
    requires n <= |pts| && Bounded(k)
    requires forall i :: 0 <= i < |pts| ==> Abs(Value(pts[i].values, k)) <= 1.0
    ensures |PlotPath(s, k, pts, n)| == n
    ensures forall i :: 0 <= i < n ==>
      PlotPath(s, k, pts, n)[i] == (if i == 0 then PathOp.MoveTo(PlotPoint(s, k, pts[i])) else PathOp.LineTo(PlotPoint(s, k, pts[i])))
  {
    if n > 0 {
      BoundedPlotUnbroken(s, k, pts, n - 1);
      assert VisibleAt(k, pts, n - 1);
      assert n > 1 ==> VisibleAt(k, pts, n - 2);
    }
  }

  /** The plot's stroke: nothing for an empty trace, else the path over the sorted trace, width 2. */
  function PlotCmds(s: Size, k: Curve, color: string, trace: seq<TracePoint>): seq<Cmd>
  {
    if |trace| == 0 then []
    else [Cmd.Stroke(PlotPath(s, k, SortByAngle(trace), |trace|), color, 2.0, [])]
  }

  /** The plot loop: the `first` flag says whether the previous point was out of range. */
  method DrawPlot(c: Recorder, s: Size, k: Curve, color: string, trace: seq<TracePoint>)
    requires c.lineDash == [] && c.globalAlpha == 1.0
    modifies c
    ensures c.drawn == old(c.drawn) + PlotCmds(s, k, color, trace)
    ensures c.lineDash == [] && c.globalAlpha == 1.0
  {
    if |trace| > 0 {
      c.BeginPath();
      c.strokeStyle := color;
      c.lineWidth := 2.0;
      var sorted := SortByAngle(trace);
      TracePlotPath(c, s, k, sorted);
      c.Stroke();
    }
  }

  /** The for-of loop over the sorted trace, building the path. */
  method TracePlotPath(c: Recorder, s: Size, k: Curve, sorted: seq<TracePoint>)
    requires c.path == []
    modifies c`path
    ensures c.path == PlotPath(s, k, sorted, |sorted|)
  {
    var first := true;
    for i := 0 to |sorted|
      invariant c.path == PlotPath(s, k, sorted, i)
      invariant first == (i == 0 || !VisibleAt(k, sorted, i - 1))
    {
      var pt := sorted[i];
      var x := MapX(s, pt.angle);
      var val := Value(pt.values, k);
      if Abs(val) > YRange(k) {
        first := true;
        continue;
      }
      var y := MapY(s, k, val);
      if first {
        c.MoveTo(Point(x, y));
        first := false;
      } else {
        c.LineTo(Point(x, y));
      }
    }
  }

  // ---------------------------------------------------------------- the current-value dot

  /** 1 / x, where a zero divisor gives an infinity, which no range contains. */
  function Reciprocal(x: real): (r: Option<real>)
    ensures r.Some? <==> x != 0.0
    ensures r.Some? ==> r.value * x == 1.0
  {
    if x == 0.0 then None else Some(1.0 / x)
  }

  /** currentVal: the value of graph k at the current angle, from Math on its radians. */
  function CurrentValue(k: Curve, m: MathFns, deg: real): Option<real>
  {
    var rad := ToRad(deg);
    match k
    case Sine => Some(m.sin(rad))
    case Cosine => Some(m.cos(rad))
    case Tangent => Some(m.tan(rad))
    case Cotangent => Reciprocal(m.tan(rad))
    case Secant => Reciprocal(m.cos(rad))
    case Cosecant => Reciprocal(m.sin(rad))
  }

  /** The dot's guard: Math.abs(currentVal) <= Y_RANGE. */
  predicate DotShown(k: Curve, m: MathFns, deg: real)
  {
    CurrentValue(k, m, deg).Some? && Visible(k, CurrentValue(k, m, deg).value)
  }

  function DotArc(s: Size, k: Curve, deg: real, val: real): seq<PathOp>
  {
    [PathOp.Arc(Point(MapX(s, deg), MapY(s, k, val)), DOT_RADIUS, 0.0, PI * 2.0, false)]
  }

  /** The dot: a circle of radius 4 filled with the background and outlined in the graph colour. */
  function DotCmds(s: Size, k: Curve, color: string, theme: Theme, m: MathFns, deg: real): seq<Cmd>
  {
    if !DotShown(k, m, deg) then []
    else
      var arc := DotArc(s, k, deg, CurrentValue(k, m, deg).value);
      [Cmd.Fill(arc, theme.bg, 1.0), Cmd.Stroke(arc, color, 2.0, [])]
  }

  /** The dot is drawn exactly when the value is finite and in range, and then it sits inside the plot. */
  lemma DotInsidePlot(s: Size, k: Curve, color: string, theme: Theme, m: MathFns, deg: real)
    requires RoomyEnough(s) && 0.0 <= deg <= 360.0
    ensures DotCmds(s, k, color, theme, m, deg) != [] <==> DotShown(k, m, deg)
    ensures DotShown(k, m, deg) ==>
      InPlotArea(s, DotCmds(s, k, color, theme, m, deg)[0].path[0].center)
  {
    if DotShown(k, m, deg) {
      VisibleInsidePlot(s, k, deg, CurrentValue(k, m, deg).value);
    }
  }

  /** The cotangent, secant and cosecant dots are hidden where the divisor is zero. */
  lemma NoDotAtPole(k: Curve, m: MathFns, deg: real)
    requires (k.Cotangent? && m.tan(ToRad(deg)) == 0.0) || (k.Secant? && m.cos(ToRad(deg)) == 0.0)
      || (k.Cosecant? && m.sin(ToRad(deg)) == 0.0)
    ensures !DotShown(k, m, deg)
  {
  }

  method DrawDot(c: Recorder, s: Size, k: Curve, color: string, theme: Theme, m: MathFns, deg: real)
    requires c.lineDash == [] && c.globalAlpha == 1.0
    modifies c
    ensures c.drawn == old(c.drawn) + DotCmds(s, k, color, theme, m, deg)
    ensures c.lineDash == [] && c.globalAlpha == 1.0
  {
    var current := CurrentValue(k, m, deg);
    var currentVal := if current.Some? then current.value else 0.0;
    if current.Some? && Abs(currentVal) <= YRange(k) {
      var dotX := MapX(s, deg);
      var dotY := MapY(s, k, currentVal);
      c.BeginPath();
      c.Arc(Point(dotX, dotY), DOT_RADIUS, 0.0, PI * 2.0);
      assert c.path == DotArc(s, k, deg, currentVal);
      c.fillStyle := theme.bg;
      c.Fill();
      c.lineWidth := 2.0;
      c.strokeStyle := color;
      c.Stroke();
    }
  }

  // ---------------------------------------------------------------- grid, indicator and labels

  /** The values of the dashed reference lines. */
  function DisplayY(k: Curve): seq<real>
  {
    if Bounded(k) then [1.0, -1.0] else [10.0, -10.0]
  }

  /** One horizontal line across the plot per value. */
  function RefLinesPath(s: Size, k: Curve, vals: seq<real>): seq<PathOp>
  {
    if vals == [] then []
    else
      var y := MapY(s, k, vals[|vals| - 1]);
      RefLinesPath(s, k, vals[..|vals| - 1])
        + [PathOp.MoveTo(Point(PADDING_LEFT, y)), PathOp.LineTo(Point(s.w - PADDING_RIGHT, y))]
  }

  /** The zero value line and the zero angle line. */
  function AxesPath(s: Size, k: Curve): seq<PathOp>
  {
    var y0 := MapY(s, k, 0.0);
    var x0 := MapX(s, 0.0);
    [PathOp.MoveTo(Point(PADDING_LEFT, y0)), PathOp.LineTo(Point(s.w - PADDING_RIGHT, y0)),
     PathOp.MoveTo(Point(x0, PADDING_TOP)), PathOp.LineTo(Point(x0, s.h - PADDING_BOTTOM))]
  }

  /** The dashed [4, 4] reference lines and then the solid axes, both width 1 in the grid colour. */
  function GridCmds(s: Size, k: Curve, theme: Theme): seq<Cmd>
  {
    [Cmd.Stroke(RefLinesPath(s, k, DisplayY(k)), theme.grid, 1.0, [4.0, 4.0]),
     Cmd.Stroke(AxesPath(s, k), theme.grid, 1.0, [])]
  }

  /** The reference lines lie strictly inside the plot's value range. */
  lemma RefLinesInside(s: Size, k: Curve)
    requires RoomyEnough(s)
    ensures forall v :: v in DisplayY(k) ==> Visible(k, v) && PADDING_TOP <= MapY(s, k, v) <= s.h - PADDING_BOTTOM
  {
    forall v | v in DisplayY(k)
      ensures Visible(k, v) && PADDING_TOP <= MapY(s, k, v) <= s.h - PADDING_BOTTOM
    {
      VisibleInsidePlot(s, k, 0.0, v);
    }
  }

  /** The faint dashed [3, 3] vertical line at the current angle. */
  function IndicatorCmds(s: Size, deg: real): seq<Cmd>
  {
    var x := MapX(s, deg);
    [Cmd.Stroke([PathOp.MoveTo(Point(x, PADDING_TOP)), PathOp.LineTo(Point(x, s.h - PADDING_BOTTOM))],
      INDICATOR_COLOR, 1.0, [3.0, 3.0])]
  }

  /** The x tick label: radians as fractions of pi, or the degrees with a degree sign. */
  function XLabelText(unit: Renderer.AngleUnit, deg: nat): string
  {
    if unit.Rad? then
      if deg == 0 then "0"
      else if deg == 90 then "π/2"
      else if deg == 180 then "π"
      else if deg == 270 then "3π/2"
      else "2π"
    else NatToDecimal(deg) + "°"
  }

  /** The tick labels of either unit are pairwise different. */
  lemma XLabelsDistinct(unit: Renderer.AngleUnit)
    ensures forall i, j :: 0 <= i < j < |X_TICKS| ==> XLabelText(unit, X_TICKS[i]) != XLabelText(unit, X_TICKS[j])
  {
    if unit.Deg? {
      forall i, j | 0 <= i < j < |X_TICKS|
        ensures XLabelText(unit, X_TICKS[i]) != XLabelText(unit, X_TICKS[j])
      {
        var a, b := NatToDecimal(X_TICKS[i]), NatToDecimal(X_TICKS[j]);
        if a + "°" == b + "°" {
          assert a == (a + "°")[..|a|] && b == (b + "°")[..|b|];
          DecimalRoundTrip(X_TICKS[i]);
          DecimalRoundTrip(X_TICKS[j]);
        }
      }
    }
  }

  /** The x labels of the given ticks, centred under their angle, 5 above the bottom. */
  function XLabelCmds(s: Size, unit: Renderer.AngleUnit, color: string, degs: seq<nat>): seq<Cmd>
  {
    if degs == [] then []
    else
      var d := degs[|degs| - 1];
      XLabelCmds(s, unit, color, degs[..|degs| - 1])
        + [Cmd.FillText(XLabelText(unit, d), Point(MapX(s, d as real), s.h - 5.0), color, LABEL_FONT, "center", "alphabetic")]
  }

  /** The values labelled along the y-axis. */
  function YTicks(k: Curve): seq<int>
  {
    if Bounded(k) then [1, 0, -1] else [10, 0, -10]
  }

  /** val.toString() with a "+" before positive values. */
  function YLabelText(v: int): string
  {
    if v > 0 then "+" + NatToDecimal(v)
    else if v < 0 then "-" + NatToDecimal(-v)
    else NatToDecimal(0)
  }

  /** A y label shows the sign of its value and reads back as its magnitude. */
  lemma YLabelReadsBack(v: int)
    ensures v > 0 ==> YLabelText(v)[0] == '+' && ParseDecimal(YLabelText(v)[1..]) == v
    ensures v < 0 ==> YLabelText(v)[0] == '-' && ParseDecimal(YLabelText(v)[1..]) == -v
    ensures v == 0 ==> YLabelText(v) == "0"
  {
    if v > 0 {
      DecimalRoundTrip(v);
      assert YLabelText(v)[1..] == NatToDecimal(v);
    } else if v < 0 {
      DecimalRoundTrip(-v);
      assert YLabelText(v)[1..] == NatToDecimal(-v);
    }
  }

  /** The y labels, right-aligned 5 left of the plot and vertically centred on their value. */
  function YLabelCmds(s: Size, k: Curve, color: string, vals: seq<int>): seq<Cmd>
  {
    if vals == [] then []
    else
      var v := vals[|vals| - 1];
      YLabelCmds(s, k, color, vals[..|vals| - 1])
        + [Cmd.FillText(YLabelText(v), Point(PADDING_LEFT - 5.0, MapY(s, k, v as real)), color, LABEL_FONT, "right", "middle")]
  }

  /** The cleared background, the grid and the current-angle indicator. */
  function BackdropCmds(s: Size, k: Curve, theme: Theme, deg: real): seq<Cmd>
  {
    [Cmd.FillRect(0.0, 0.0, s.w, s.h, theme.bg)] + GridCmds(s, k, theme) + IndicatorCmds(s, deg)
  }

  function LabelCmds(s: Size, k: Curve, theme: Theme, unit: Renderer.AngleUnit): seq<Cmd>
  {
    XLabelCmds(s, unit, theme.text, X_TICKS) + YLabelCmds(s, k, theme.text, YTicks(k))
  }

  /** What depends on the trace and the current angle's value: the plot and the dot. */
  function DataCmds(s: Size, k: Curve, color: string, trace: seq<TracePoint>, theme: Theme, m: MathFns, deg: real): seq<Cmd>
  {
    PlotCmds(s, k, color, trace) + DotCmds(s, k, color, theme, m, deg)
  }

  /** The whole drawing of one graph, on a context that setting the canvas size has reset. */
  function SingleGraphCmds(s: Size, k: Curve, color: string, trace: seq<TracePoint>, theme: Theme,
                           unit: Renderer.AngleUnit, deg: real, m: MathFns): seq<Cmd>
  {
    BackdropCmds(s, k, theme, deg) + LabelCmds(s, k, theme, unit) + DataCmds(s, k, color, trace, theme, m, deg)
  }

  /** The clear, then the grid and indicator. */
  method DrawBackdrop(c: Recorder, s: Size, k: Curve, theme: Theme, deg: real)
    requires c.lineDash == [] && c.globalAlpha == 1.0
    modifies c
    ensures c.drawn == old(c.drawn) + BackdropCmds(s, k, theme, deg)
    ensures c.lineDash == [] && c.globalAlpha == 1.0 && c.textBaseline == old(c.textBaseline)
  {
    ghost var d := c.drawn;
    c.fillStyle := theme.bg;
    c.FillRect(0.0, 0.0, s.w, s.h);
    DrawGrid(c, s, k, theme, deg);
    AppendBlocks(d, [Cmd.FillRect(0.0, 0.0, s.w, s.h, theme.bg)], GridCmds(s, k, theme) + IndicatorCmds(s, deg));
  }

  /** The plot, then the dot. */
  method DrawData(c: Recorder, s: Size, k: Curve, color: string, trace: seq<TracePoint>, theme: Theme, m: MathFns, deg: real)
    requires c.lineDash == [] && c.globalAlpha == 1.0
    modifies c
    ensures c.drawn == old(c.drawn) + DataCmds(s, k, color, trace, theme, m, deg)
  {
    ghost var d := c.drawn;
    DrawPlot(c, s, k, color, trace);
    DrawDot(c, s, k, color, theme, m, deg);
    AppendBlocks(d, PlotCmds(s, k, color, trace), DotCmds(s, k, color, theme, m, deg));
  }

  /**
   * SingleGraph's effect. Setting the canvas size resets the context, so the
   * drawing starts on a fresh one.
   */
  method DrawSingleGraph(s: Size, k: Curve, color: string, trace: seq<TracePoint>, theme: Theme,
                         unit: Renderer.AngleUnit, deg: real, m: MathFns) returns (c: Recorder)
    ensures fresh(c)
    ensures c.drawn == SingleGraphCmds(s, k, color, trace, theme, unit, deg, m)
  {
    ghost var backdrop, labels := BackdropCmds(s, k, theme, deg), LabelCmds(s, k, theme, unit);
    c := new Recorder();
    DrawBackdrop(c, s, k, theme, deg);
    DrawLabels(c, s, k, theme, unit);
    AppendBlocks([], backdrop, labels);
    DrawData(c, s, k, color, trace, theme, m, deg);
    AppendBlocks(backdrop, labels, DataCmds(s, k, color, trace, theme, m, deg));
  }

  /** The reference lines, the axes and the current-angle indicator. */
  method DrawGrid(c: Recorder, s: Size, k: Curve, theme: Theme, deg: real)
    requires c.lineDash == [] && c.globalAlpha == 1.0
    modifies c
    ensures c.drawn == old(c.drawn) + GridCmds(s, k, theme) + IndicatorCmds(s, deg)
    ensures c.lineDash == [] && c.globalAlpha == 1.0 && c.textBaseline == old(c.textBaseline)
  {
    ghost var d := c.drawn;
    DrawRefLines(c, s, k, theme);
    DrawAxes(c, s, k, theme);
    AppendBlocks(d, [GridCmds(s, k, theme)[0]], [GridCmds(s, k, theme)[1]]);
    DrawIndicator(c, s, deg);
  }

  /** The dashed reference lines, one per DisplayY value. */
  method DrawRefLines(c: Recorder, s: Size, k: Curve, theme: Theme)
    requires c.lineDash == [] && c.globalAlpha == 1.0
    modifies c
    ensures c.drawn == old(c.drawn) + [GridCmds(s, k, theme)[0]]
    ensures c.lineDash == [] && c.globalAlpha == 1.0 && c.textBaseline == old(c.textBaseline)
    ensures c.strokeStyle == theme.grid && c.lineWidth == 1.0
  {
    c.lineWidth := 1.0;
    c.strokeStyle := theme.grid;
    c.BeginPath();
    c.SetLineDash([4.0, 4.0]);
    var displayY := DisplayY(k);
    for i := 0 to |displayY|
      invariant c.path == RefLinesPath(s, k, displayY[..i])
      invariant c.drawn == old(c.drawn) && c.strokeStyle == theme.grid && c.lineWidth == 1.0
      invariant c.lineDash == [4.0, 4.0] && c.globalAlpha == 1.0 && c.textBaseline == old(c.textBaseline)
    {
      var y := MapY(s, k, displayY[i]);
      c.MoveTo(Point(PADDING_LEFT, y));
      c.LineTo(Point(s.w - PADDING_RIGHT, y));
      assert displayY[..i + 1][..i] == displayY[..i];
    }
    assert displayY[..|displayY|] == displayY;
    c.Stroke();
    c.SetLineDash([]);
  }

  /** The solid zero lines, in the style the reference lines left. */
  method DrawAxes(c: Recorder, s: Size, k: Curve, theme: Theme)
    requires c.lineDash == [] && c.globalAlpha == 1.0 && c.strokeStyle == theme.grid && c.lineWidth == 1.0
    modifies c
    ensures c.drawn == old(c.drawn) + [GridCmds(s, k, theme)[1]]
    ensures c.lineDash == [] && c.globalAlpha == 1.0 && c.textBaseline == old(c.textBaseline)
  {
    c.BeginPath();
    var y0 := MapY(s, k, 0.0);
    c.MoveTo(Point(PADDING_LEFT, y0));
    c.LineTo(Point(s.w - PADDING_RIGHT, y0));
    var x0 := MapX(s, 0.0);
    c.MoveTo(Point(x0, PADDING_TOP));
    c.LineTo(Point(x0, s.h - PADDING_BOTTOM));
    assert c.path == AxesPath(s, k);
    c.Stroke();
  }

  /** The faint dashed line at the current angle. */
  method DrawIndicator(c: Recorder, s: Size, deg: real)
    requires c.lineDash == [] && c.globalAlpha == 1.0
    modifies c
    ensures c.drawn == old(c.drawn) + IndicatorCmds(s, deg)
    ensures c.lineDash == [] && c.globalAlpha == 1.0 && c.textBaseline == old(c.textBaseline)
  {
    c.BeginPath();
    c.strokeStyle := INDICATOR_COLOR;
    c.lineWidth := 1.0;
    c.SetLineDash([3.0, 3.0]);
    var currentX := MapX(s, deg);
    c.MoveTo(Point(currentX, PADDING_TOP));
    c.LineTo(Point(currentX, s.h - PADDING_BOTTOM));
    assert c.path == [PathOp.MoveTo(Point(currentX, PADDING_TOP)), PathOp.LineTo(Point(currentX, s.h - PADDING_BOTTOM))];
    c.Stroke();
    c.SetLineDash([]);
  }

  /** The x and then the y tick labels. */
  method DrawLabels(c: Recorder, s: Size, k: Curve, theme: Theme, unit: Renderer.AngleUnit)
    requires c.lineDash == [] && c.globalAlpha == 1.0 && c.textBaseline == "alphabetic"
    modifies c
    ensures c.drawn == old(c.drawn) + LabelCmds(s, k, theme, unit)
    ensures c.lineDash == [] && c.globalAlpha == 1.0
  {
    DrawXLabels(c, s, theme, unit);
    DrawYLabels(c, s, k, theme);
  }

  /** The x labels under the ticks 0, 90, 180, 270, 360. */
  method DrawXLabels(c: Recorder, s: Size, theme: Theme, unit: Renderer.AngleUnit)
    requires c.lineDash == [] && c.globalAlpha == 1.0 && c.textBaseline == "alphabetic"
    modifies c
    ensures c.drawn == old(c.drawn) + XLabelCmds(s, unit, theme.text, X_TICKS)
    ensures c.lineDash == [] && c.globalAlpha == 1.0 && c.fillStyle == theme.text && c.font == LABEL_FONT
  {
    c.fillStyle := theme.text;
    c.font := LABEL_FONT;
    c.textAlign := "center";
    DrawXLabelsAt(c, s, theme, unit, X_TICKS);
  }

  /** The forEach over the x ticks. */
  method DrawXLabelsAt(c: Recorder, s: Size, theme: Theme, unit: Renderer.AngleUnit, ticks: seq<nat>)
    requires c.fillStyle == theme.text && c.font == LABEL_FONT
    requires c.textAlign == "center" && c.textBaseline == "alphabetic"
    modifies c`drawn
    ensures c.drawn == old(c.drawn) + XLabelCmds(s, unit, theme.text, ticks)
  {
    for i := 0 to |ticks|
      invariant c.drawn == old(c.drawn) + XLabelCmds(s, unit, theme.text, ticks[..i])
    {
      var labelTxt := XLabelText(unit, ticks[i]);
      c.FillText(labelTxt, Point(MapX(s, ticks[i] as real), s.h - 5.0));
      assert ticks[..i + 1][..i] == ticks[..i];
    }
    assert ticks[..|ticks|] == ticks;
  }

  /** The y labels, in the fill colour and font the x labels set. */
  method DrawYLabels(c: Recorder, s: Size, k: Curve, theme: Theme)
    requires c.lineDash == [] && c.globalAlpha == 1.0 && c.fillStyle == theme.text && c.font == LABEL_FONT
    modifies c
    ensures c.drawn == old(c.drawn) + YLabelCmds(s, k, theme.text, YTicks(k))
    ensures c.lineDash == [] && c.globalAlpha == 1.0
  {
    c.textAlign := "right";
    c.textBaseline := "middle";
    DrawYLabelsAt(c, s, k, theme, YTicks(k));
  }

  /** The forEach over the y ticks. */
  method DrawYLabelsAt(c: Recorder, s: Size, k: Curve, theme: Theme, yLabels: seq<int>)
    requires c.fillStyle == theme.text && c.font == LABEL_FONT
    requires c.textAlign == "right" && c.textBaseline == "middle"
    modifies c`drawn
    ensures c.drawn == old(c.drawn) + YLabelCmds(s, k, theme.text, yLabels)
  {
    for i := 0 to |yLabels|
      invariant c.drawn == old(c.drawn) + YLabelCmds(s, k, theme.text, yLabels[..i])
    {
      var y := MapY(s, k, yLabels[i] as real);
      c.FillText(YLabelText(yLabels[i]), Point(PADDING_LEFT - 5.0, y));
      assert yLabels[..i + 1][..i] == yLabels[..i];
    }
    assert yLabels[..|yLabels|] == yLabels;
  }

  // ---------------------------------------------------------------- the list of graphs

  function ToggleOf(k: Curve): Toggle
  {
    match k
    case Sine => Toggle.Sin
    case Cosine => Toggle.Cos
    case Tangent => Toggle.Tan
    case Cotangent => Toggle.Cot
    case Secant => Toggle.Sec
    case Cosecant => Toggle.Csc
  }

  function LabelOf(k: Curve): string
  {
    match k
    case Sine => "Sine"
    case Cosine => "Cosine"
    case Tangent => "Tangent"
    case Cotangent => "Cotangent"
    case Secant => "Secant"
    case Cosecant => "Cosecant"
  }

  function ColorOf(theme: Theme, k: Curve): string
  {
    match k
    case Sine => theme.sin
    case Cosine => theme.cos
    case Tangent => theme.tan
    case Cotangent => theme.cot
    case Secant => theme.sec
    case Cosecant => theme.csc
  }

  /** The position of a curve in the fixed order sine, cosine, tangent, cotangent, secant, cosecant. */
  function Rank(k: Curve): (r: nat)
    ensures r < |CURVES| && CURVES[r] == k
  {
    match k
    case Sine => 0
    case Cosine => 1
    case Tangent => 2
    case Cotangent => 3
    case Secant => 4
    case Cosecant => 5
  }

  /** The graph entry of curve k. */
  function GraphOf(theme: Theme, k: Curve): Graph
  {
    Graph(k, LabelOf(k), ColorOf(theme, k))
  }

  /** The entries for the first n curves of CURVES whose toggle is on. */
  function ActiveList(toggles: Toggles, theme: Theme, n: nat): seq<Graph>
    requires n <= |CURVES|
  {
    if n == 0 then []
    else
      var k := CURVES[n - 1];
      ActiveList(toggles, theme, n - 1) + (if On(toggles, ToggleOf(k)) then [GraphOf(theme, k)] else [])
  }

  /** The list holds exactly the switched-on curves among the first n, each once, in CURVES order. */
  lemma {:induction false} ActiveListSpec(toggles: Toggles, theme: Theme, n: nat)
    requires n <= |CURVES|
    ensures forall i :: 0 <= i < |ActiveList(toggles, theme, n)| ==>
      var g := ActiveList(toggles, theme, n)[i];
      g == GraphOf(theme, g.key) && On(toggles, ToggleOf(g.key)) && Rank(g.key) < n
    ensures forall k :: Rank(k) < n && On(toggles, ToggleOf(k)) ==> GraphOf(theme, k) in ActiveList(toggles, theme, n)
    ensures forall i, j :: 0 <= i < j < |ActiveList(toggles, theme, n)| ==>
      Rank(ActiveList(toggles, theme, n)[i].key) < Rank(ActiveList(toggles, theme, n)[j].key)
  {
    if n > 0 {
      ActiveListSpec(toggles, theme, n - 1);
      var prev := ActiveList(toggles, theme, n - 1);
      var k := CURVES[n - 1];
      assert Rank(k) == n - 1;
      forall k' | Rank(k') < n && On(toggles, ToggleOf(k'))
        ensures GraphOf(theme, k') in ActiveList(toggles, theme, n)
      {
        if Rank(k') == n - 1 {
          assert k' == k;
        } else {
          assert GraphOf(theme, k') in prev;
        }
      }
    }
  }

  /**
   * activeGraphs: one entry per switched-on function, in the fixed order,
   * each with its own label and theme colour.
   */
  method ActiveGraphs(toggles: Toggles, theme: Theme) returns (gs: seq<Graph>)
    ensures forall i :: 0 <= i < |gs| ==> gs[i] == GraphOf(theme, gs[i].key) && On(toggles, ToggleOf(gs[i].key))
    ensures forall k :: On(toggles, ToggleOf(k)) ==> GraphOf(theme, k) in gs
    ensures forall i, j :: 0 <= i < j < |gs| ==> Rank(gs[i].key) < Rank(gs[j].key)
  {
    gs := [];
    if On(toggles, Toggle.Sin) { gs := gs + [GraphOf(theme, Sine)]; }
    assert gs == ActiveList(toggles, theme, 1);
    if On(toggles, Toggle.Cos) { gs := gs + [GraphOf(theme, Cosine)]; }
    assert gs == ActiveList(toggles, theme, 2);
    if On(toggles, Toggle.Tan) { gs := gs + [GraphOf(theme, Tangent)]; }
    assert gs == ActiveList(toggles, theme, 3);
    if On(toggles, Toggle.Cot) { gs := gs + [GraphOf(theme, Cotangent)]; }
    assert gs == ActiveList(toggles, theme, 4);
    if On(toggles, Toggle.Sec) { gs := gs + [GraphOf(theme, Secant)]; }
    assert gs == ActiveList(toggles, theme, 5);
    if On(toggles, Toggle.Csc) { gs := gs + [GraphOf(theme, Cosecant)]; }
    assert gs == ActiveList(toggles, theme, 6);
    ActiveListSpec(toggles, theme, 6);
  }
}
