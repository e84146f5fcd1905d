/** The 2D drawing context, reduced to the log of commands issued on it. */
module Drawing {

  /** A point of a path. `OnStar(cx, cy, radius, step)` stands for the star vertex
      (cx + radius * cos(step * PI / 5 - PI / 2), cy + radius * sin(step * PI / 5 - PI / 2));
      the trigonometry itself is not evaluated. */
  datatype Point =
    | At(x: real, y: real)
    | OnStar(cx: real, cy: real, radius: real, step: nat)

  /** One call on the canvas context: a style setting, a rectangle operation or a path operation. */
  datatype DrawCmd =
    | SetFillStyle(style: string)
    | SetStrokeStyle(style: string)
    | SetLineWidth(lineWidth: real)
    | ClearRect(x: real, y: real, w: real, h: real)
    | FillRect(x: real, y: real, w: real, h: real)
    | BeginPath
    | MoveTo(p: Point)
    | LineTo(p: Point)
    | BezierCurveTo(c1: Point, c2: Point, end: Point)
    | ClosePath
    | Fill
    | Stroke

  /** `p` is a plain point inside the closed box of width `w` and height `h` centred at (x, y). */
  predicate InBox(p: Point, x: real, y: real, w: real, h: real)
  {
    p.At? && x - w / 2.0 <= p.x <= x + w / 2.0 && y - h / 2.0 <= p.y <= y + h / 2.0
  }

  /** `q` lies within `d` of `p` on each axis. */
  predicate Near(p: Point, q: Point, d: real)
  {
    p.At? && q.At? && -d <= q.x - p.x <= d && -d <= q.y - p.y <= d
  }

  /** A `fillRect` that covers a part of the box of width `w` and height `h` centred at (x, y). */
  predicate RectInBox(c: DrawCmd, x: real, y: real, w: real, h: real)
  {
    c.FillRect? && 0.0 <= c.w && 0.0 <= c.h &&
    x - w / 2.0 <= c.x && c.x + c.w <= x + w / 2.0 &&
    y - h / 2.0 <= c.y && c.y + c.h <= y + h / 2.0
  }

  /** The path `moveTo(ps[0]), lineTo(ps[1]), ..., lineTo(ps[|ps| - 1])`. */
  function Polyline(ps: seq<Point>): (r: seq<DrawCmd>)
    ensures |r| == |ps|
  {
    seq(|ps|, k requires 0 <= k < |ps| => if k == 0 then MoveTo(ps[k]) else LineTo(ps[k]))
  }

  /** The path `lineTo(ps[0]), ..., lineTo(ps[|ps| - 1])`, with no initial `moveTo`. */
  function LineTos(ps: seq<Point>): (r: seq<DrawCmd>)
    ensures |r| == |ps|
  {
    seq(|ps|, k requires 0 <= k < |ps| => LineTo(ps[k]))
  }

  /** Appending to a log in two steps is appending the concatenation. */
  lemma AppendTwice(log: seq<DrawCmd>, a: seq<DrawCmd>, b: seq<DrawCmd>)
    ensures log + a + b == log + (a + b)
  {
  }

  /** Appending to a log in three steps is appending the concatenation. */
  lemma AppendThrice(log: seq<DrawCmd>, a: seq<DrawCmd>, b: seq<DrawCmd>, c: seq<DrawCmd>)
    ensures log + a + b + c == log + (a + b + c)
  {
  }

  /** The two parts of a log written in two steps can be read back by slicing. */
  lemma Split2(a: seq<DrawCmd>, b: seq<DrawCmd>)
    ensures |a + b| == |a| + |b| && (a + b)[..|a|] == a && (a + b)[|a|..] == b
  {
  }

  /** The three parts of a log written in three steps can be read back by slicing. */
  lemma Split(a: seq<DrawCmd>, b: seq<DrawCmd>, c: seq<DrawCmd>)
    ensures var s := a + b + c;
      |s| == |a| + |b| + |c| && s[..|a|] == a && s[|a|..|a| + |b|] == b && s[|a| + |b|..] == c
  {
  }

  /** The canvas: its pixel size, fixed once the video is known, and everything drawn on it so far. */
  class Canvas {
    const width: nat
    const height: nat
    var log: seq<DrawCmd>

    constructor (width: nat, height: nat)
      ensures this.width == width && this.height == height
      ensures log == []
    {
      this.width := width;
      this.height := height;
      log := [];
    }

    /** Issues one command: the log only grows, by exactly that command. */
    method Issue(c: DrawCmd)
      modifies this
      ensures log == old(log) + [c]
    {
      log := log + [c];
    }
  }
}
