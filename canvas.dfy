/**
 * A recording model of the HTML canvas 2D context as the diagram code uses it.
 *
 * The context keeps a current path and a set of style fields that the drawing
 * code assigns directly; painting operations (stroke, fill, text, rectangles)
 * do not change that state but append one command to `drawn`, capturing the
 * path and the styles in force at that moment.
 */
module Canvas {
  import opened TrigMath

  /** One segment-building call on the current path. */
  datatype PathOp =
    | MoveTo(p: Point)
    | LineTo(p: Point)
    | Arc(center: Point, radius: real, startAngle: real, endAngle: real, anticlockwise: bool)
    | ClosePath

  /** One painting call, with the path and the styles it used. */
  datatype Cmd =
    | Stroke(path: seq<PathOp>, color: string, width: real, dash: seq<real>)
    | Fill(path: seq<PathOp>, color: string, alpha: real)
    | FillRect(x: real, y: real, w: real, h: real, color: string)
    | StrokeRect(x: real, y: real, w: real, h: real, color: string, width: real)
    | ClearRect(x: real, y: real, w: real, h: real)
    | StrokeText(text: string, at: Point, color: string, width: real, font: string, align: string, baseline: string)
    | FillText(text: string, at: Point, color: string, font: string, align: string, baseline: string)
    | Save
    | Restore
    | Translate(dx: real, dy: real)
    | Rotate(angle: real)

  class Recorder {
    var path: seq<PathOp>
    var drawn: seq<Cmd>
    var strokeStyle: string
    var fillStyle: string
    var lineWidth: real
    var lineDash: seq<real>
    var font: string
    var textAlign: string
    var textBaseline: string
    var globalAlpha: real

    /** A fresh context with the canvas defaults and nothing drawn. */
    constructor ()
      ensures path == [] && drawn == []
      ensures strokeStyle == "#000000" && fillStyle == "#000000"
      ensures lineWidth == 1.0 && lineDash == [] && globalAlpha == 1.0
      ensures font == "10px sans-serif" && textAlign == "start" && textBaseline == "alphabetic"
    {
      path := [];
      drawn := [];
      strokeStyle := "#000000";
      fillStyle := "#000000";
      lineWidth := 1.0;
      lineDash := [];
      font := "10px sans-serif";
      textAlign := "start";
      textBaseline := "alphabetic";
      globalAlpha := 1.0;
    }

    method BeginPath()
      modifies this`path
      ensures path == []
    {
      path := [];
    }

    method MoveTo(p: Point)
      modifies this`path
      ensures path == old(path) + [PathOp.MoveTo(p)]
    {
      path := path + [PathOp.MoveTo(p)];
    }

    method LineTo(p: Point)
      modifies this`path
      ensures path == old(path) + [PathOp.LineTo(p)]
    {
      path := path + [PathOp.LineTo(p)];
    }

    method Arc(center: Point, radius: real, startAngle: real, endAngle: real, anticlockwise: bool := false)
      modifies this`path
      ensures path == old(path) + [PathOp.Arc(center, radius, startAngle, endAngle, anticlockwise)]
    {
      path := path + [PathOp.Arc(center, radius, startAngle, endAngle, anticlockwise)];
    }

    method ClosePath()
      modifies this`path
      ensures path == old(path) + [PathOp.ClosePath]
    {
      path := path + [PathOp.ClosePath];
    }

    method SetLineDash(dash: seq<real>)
      modifies this`lineDash
      ensures lineDash == dash
    {
      lineDash := dash;
    }

    /** Outlines the current path with the current stroke style, width and dash. */
    method Stroke()
      modifies this`drawn
      ensures drawn == old(drawn) + [Cmd.Stroke(path, strokeStyle, lineWidth, lineDash)]
    {
      drawn := drawn + [Cmd.Stroke(path, strokeStyle, lineWidth, lineDash)];
    }

    /** Fills the current path (implicitly closed) with the current fill style. */
    method Fill()
      modifies this`drawn
      ensures drawn == old(drawn) + [Cmd.Fill(path, fillStyle, globalAlpha)]
    {
      drawn := drawn + [Cmd.Fill(path, fillStyle, globalAlpha)];
    }

    method FillRect(x: real, y: real, w: real, h: real)
      modifies this`drawn
      ensures drawn == old(drawn) + [Cmd.FillRect(x, y, w, h, fillStyle)]
    {
      drawn := drawn + [Cmd.FillRect(x, y, w, h, fillStyle)];
    }

    method StrokeRect(x: real, y: real, w: real, h: real)
      modifies this`drawn
      ensures drawn == old(drawn) + [Cmd.StrokeRect(x, y, w, h, strokeStyle, lineWidth)]
    {
      drawn := drawn + [Cmd.StrokeRect(x, y, w, h, strokeStyle, lineWidth)];
    }

    method ClearRect(x: real, y: real, w: real, h: real)
      modifies this`drawn
      ensures drawn == old(drawn) + [Cmd.ClearRect(x, y, w, h)]
    {
      drawn := drawn + [Cmd.ClearRect(x, y, w, h)];
    }

    method StrokeText(text: string, at: Point)
      modifies this`drawn
      ensures drawn == old(drawn) + [Cmd.StrokeText(text, at, strokeStyle, lineWidth, font, textAlign, textBaseline)]
    {
      drawn := drawn + [Cmd.StrokeText(text, at, strokeStyle, lineWidth, font, textAlign, textBaseline)];
    }

    method FillText(text: string, at: Point)
      modifies this`drawn
      ensures drawn == old(drawn) + [Cmd.FillText(text, at, fillStyle, font, textAlign, textBaseline)]
    {
      drawn := drawn + [Cmd.FillText(text, at, fillStyle, font, textAlign, textBaseline)];
    }

    method Save()
      modifies this`drawn
      ensures drawn == old(drawn) + [Cmd.Save]
    {
      drawn := drawn + [Cmd.Save];
    }

    method Restore()
      modifies this`drawn
      ensures drawn == old(drawn) + [Cmd.Restore]
    {
      drawn := drawn + [Cmd.Restore];
    }

    method Translate(dx: real, dy: real)
      modifies this`drawn
      ensures drawn == old(drawn) + [Cmd.Translate(dx, dy)]
    {
      drawn := drawn + [Cmd.Translate(dx, dy)];
    }

    method Rotate(angle: real)
      modifies this`drawn
      ensures drawn == old(drawn) + [Cmd.Rotate(angle)]
    {
      drawn := drawn + [Cmd.Rotate(angle)];
    }
  }

  /** Appending blocks one after another is appending their concatenation. */
  lemma AppendBlocks(d: seq<Cmd>, a: seq<Cmd>, b: seq<Cmd>)
    ensures d + a + b == d + (a + b)
  {
  }

  /** Four single commands appended one by one are the four-command block. */
  lemma AppendFour(d: seq<Cmd>, a: Cmd, b: Cmd, c: Cmd, e: Cmd)
    ensures d + [a] + [b] + [c] + [e] == d + [a, b, c, e]
  {
  }
}
