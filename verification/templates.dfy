/** The overlay templates: their identifiers and the geometry both versions of the app share. */
module Templates {
  import opened Drawing

  /** The template ids offered by the selector, plus every other string. */
  datatype Template =
    | Blank         // "none"
    | Full          // "full"
    | Brazilian     // "brazilian"
    | LandingStrip  // "landing-strip"
    | Triangle      // "triangle"
    | Heart         // "heart"
    | Lightning     // "lightning"
    | Star          // "star"
    | Unrecognized  // any other id: the `default` arm of the switch

  /** The switch on the template id string. */
  function Classify(id: string): Template
  {
    if id == "none" then Blank
    else if id == "full" then Full
    else if id == "brazilian" then Brazilian
    else if id == "landing-strip" then LandingStrip
    else if id == "triangle" then Triangle
    else if id == "heart" then Heart
    else if id == "lightning" then Lightning
    else if id == "star" then Star
    else Unrecognized
  }

  /** The id string that selects a known template. */
  function Id(t: Template): string
    requires !t.Unrecognized?
  {
    match t
    case Blank => "none"
    case Full => "full"
    case Brazilian => "brazilian"
    case LandingStrip => "landing-strip"
    case Triangle => "triangle"
    case Heart => "heart"
    case Lightning => "lightning"
    case Star => "star"
  }

  const KnownIds: set<string> :=
    {"none", "full", "brazilian", "landing-strip", "triangle", "heart", "lightning", "star"}

  /** Classify and Id are inverse on the eight known ids; every other string is Unrecognized. */
  lemma ClassifyIdRoundTrip(id: string, t: Template)
    ensures !t.Unrecognized? ==> Classify(Id(t)) == t
    ensures Classify(id).Unrecognized? <==> id !in KnownIds
    ensures !Classify(id).Unrecognized? ==> Id(Classify(id)) == id
    ensures Classify(id).Blank? <==> id == "none"
  {
  }

  /** A template that has a switch arm drawing a shape. */
  predicate Drawable(t: Template)
  {
    !t.Blank? && !t.Unrecognized?
  }

  /** The style both versions set before the switch: black fill and stroke, 2 px lines. */
  const Black := "#000"

  function StyleCmds(): seq<DrawCmd>
  {
    [SetFillStyle(Black), SetStrokeStyle(Black), SetLineWidth(2.0)]
  }

  /** The three rectangle templates: the whole box, a quarter-width and a half-width strip. */
  function FullRect(x: real, y: real, w: real, h: real): DrawCmd
  {
    FillRect(x - w / 2.0, y - h / 2.0, w, h)
  }

  function BrazilianRect(x: real, y: real, w: real, h: real): DrawCmd
  {
    FillRect(x - w / 8.0, y - h / 2.0, w / 4.0, h)
  }

  function LandingStripRect(x: real, y: real, w: real, h: real): DrawCmd
  {
    FillRect(x - w / 4.0, y - h / 2.0, w / 2.0, h)
  }

  /** Each rectangle is centred on (x, y), spans the full height h, has width w, w/4 or w/2,
      and lies inside the anchor box. */
  lemma RectsCentredInBox(x: real, y: real, w: real, h: real)
    requires w >= 0.0 && h >= 0.0
    ensures FullRect(x, y, w, h).w == w
    ensures BrazilianRect(x, y, w, h).w == w / 4.0
    ensures LandingStripRect(x, y, w, h).w == w / 2.0
    ensures forall c | c in [FullRect(x, y, w, h), BrazilianRect(x, y, w, h), LandingStripRect(x, y, w, h)] ::
      RectInBox(c, x, y, w, h) && c.x + c.w / 2.0 == x && c.y + c.h / 2.0 == y && c.h == h
  {
  }

  /** The triangle: apex at the top centre, base along the bottom edge. */
  function TrianglePoints(x: real, y: real, w: real, h: real): seq<Point>
  {
    [At(x, y - h / 2.0), At(x - w / 2.0, y + h / 2.0), At(x + w / 2.0, y + h / 2.0)]
  }

  function TriangleCmds(x: real, y: real, w: real, h: real): seq<DrawCmd>
  {
    [BeginPath] + Polyline(TrianglePoints(x, y, w, h)) + [ClosePath, Fill]
  }

  /** Three vertices, all in the box: the apex at the top centre, the base corners at the bottom
      corners of the box; the path is closed and filled. */
  lemma TriangleShape(x: real, y: real, w: real, h: real)
    requires w >= 0.0 && h >= 0.0
    ensures var ps := TrianglePoints(x, y, w, h);
      |ps| == 3 && (forall p | p in ps :: InBox(p, x, y, w, h)) &&
      ps[0] == At(x, y - h / 2.0) && ps[1].y == ps[2].y == y + h / 2.0 && ps[1].x + ps[2].x == 2.0 * x
    ensures var cs := TriangleCmds(x, y, w, h);
      |cs| == 6 && cs[0] == BeginPath && cs[1].MoveTo? && cs[2].LineTo? && cs[3].LineTo? &&
      cs[4] == ClosePath && cs[5] == Fill
  {
  }

  /** The heart: from the dip at (x, y + h/4) one cubic curve up over the top and back, a mirrored
      one down to the bottom and back; filled without closePath. */
  function HeartCmds(x: real, y: real, w: real, h: real): seq<DrawCmd>
  {
    [BeginPath,
     MoveTo(At(x, y + h / 4.0)),
     BezierCurveTo(At(x + w / 2.0, y - h / 2.0), At(x - w / 2.0, y - h / 2.0), At(x, y + h / 4.0)),
     BezierCurveTo(At(x - w / 2.0, y + h / 2.0), At(x + w / 2.0, y + h / 2.0), At(x, y + h / 4.0)),
     Fill]
  }

  /** Both curves start and end at the dip, so the outline is closed, and every control point lies
      on the box's border (corners) or inside it. */
  lemma HeartClosedInBox(x: real, y: real, w: real, h: real)
    requires w >= 0.0 && h >= 0.0
    ensures var cs := HeartCmds(x, y, w, h);
      |cs| == 5 && cs[1].MoveTo? && cs[2].BezierCurveTo? && cs[3].BezierCurveTo? && cs[4] == Fill &&
      cs[2].end == cs[3].end == cs[1].p &&
      InBox(cs[1].p, x, y, w, h) &&
      InBox(cs[2].c1, x, y, w, h) && InBox(cs[2].c2, x, y, w, h) &&
      InBox(cs[3].c1, x, y, w, h) && InBox(cs[3].c2, x, y, w, h)
  {
  }

  /** The five templates whose switch arm is the same in both versions of the app. */
  predicate SharedArm(t: Template)
  {
    t.Full? || t.Brazilian? || t.LandingStrip? || t.Triangle? || t.Heart?
  }

  /** What the shared arms draw: one rectangle, or the triangle or heart path. */
  function SharedShapeCmds(t: Template, x: real, y: real, w: real, h: real): seq<DrawCmd>
    requires SharedArm(t)
  {
    match t
    case Full => [FullRect(x, y, w, h)]
    case Brazilian => [BrazilianRect(x, y, w, h)]
    case LandingStrip => [LandingStripRect(x, y, w, h)]
    case Triangle => TriangleCmds(x, y, w, h)
    case Heart => HeartCmds(x, y, w, h)
  }

  /** The shared arms of the template switch, drawn on `ctx`. */
  method DrawSharedShape(ctx: Canvas, t: Template, x: real, y: real, w: real, h: real)
    requires SharedArm(t)
    modifies ctx
    ensures ctx.log == old(ctx.log) + SharedShapeCmds(t, x, y, w, h)
  {
    match t {
      case Full =>
        ctx.Issue(FillRect(x - w / 2.0, y - h / 2.0, w, h));
      case Brazilian =>
        ctx.Issue(FillRect(x - w / 8.0, y - h / 2.0, w / 4.0, h));
      case LandingStrip =>
        ctx.Issue(FillRect(x - w / 4.0, y - h / 2.0, w / 2.0, h));
      case Triangle =>
        ctx.Issue(BeginPath);
        ctx.Issue(MoveTo(At(x, y - h / 2.0)));
        ctx.Issue(LineTo(At(x - w / 2.0, y + h / 2.0)));
        ctx.Issue(LineTo(At(x + w / 2.0, y + h / 2.0)));
        ctx.Issue(ClosePath);
        ctx.Issue(Fill);
        assert ctx.log == old(ctx.log) + TriangleCmds(x, y, w, h);
      case Heart =>
        ctx.Issue(BeginPath);
        ctx.Issue(MoveTo(At(x, y + h / 4.0)));
        ctx.Issue(BezierCurveTo(At(x + w / 2.0, y - h / 2.0), At(x - w / 2.0, y - h / 2.0), At(x, y + h / 4.0)));
        ctx.Issue(BezierCurveTo(At(x - w / 2.0, y + h / 2.0), At(x + w / 2.0, y + h / 2.0), At(x, y + h / 4.0)));
        ctx.Issue(Fill);
    }
  }

  /** The six corners of the lightning bolt, from the top-left corner to the bottom-right one and back. */
  function LightningPoints(x: real, y: real, w: real, h: real): seq<Point>
  {
    [At(x - w / 2.0, y - h / 2.0), At(x, y), At(x - w / 4.0, y + h / 4.0),
     At(x + w / 2.0, y + h / 2.0), At(x, y + h / 4.0), At(x + w / 4.0, y)]
  }

  /** Six vertices, all in the box, spanning it diagonally from corner to corner. */
  lemma LightningInBox(x: real, y: real, w: real, h: real)
    requires w >= 0.0 && h >= 0.0
    ensures var ps := LightningPoints(x, y, w, h);
      |ps| == 6 && (forall p | p in ps :: InBox(p, x, y, w, h)) &&
      ps[0] == At(x - w / 2.0, y - h / 2.0) && ps[3] == At(x + w / 2.0, y + h / 2.0)
  {
  }

  /** A five-pointed star has 2 * 5 vertices. */
  const StarPoints: nat := 5

  /** Vertex i of the star: outer radius w/2 at even i, inner radius w/4 at odd i. */
  function StarVertex(x: real, y: real, w: real, i: nat): Point
  {
    var outerRadius := w / 2.0;
    var innerRadius := outerRadius / 2.0;
    OnStar(x, y, if i % 2 == 0 then outerRadius else innerRadius, i)
  }

  function StarVertices(x: real, y: real, w: real): (ps: seq<Point>)
    ensures |ps| == 2 * StarPoints
  {
    seq(2 * StarPoints, i requires 0 <= i => StarVertex(x, y, w, i))
  }

  /** Ten vertices round the centre (x, y), in angle order, radius alternating between w/2 and w/4;
      with w >= 0 every vertex is at most w/2 from the centre. */
  lemma StarShape(x: real, y: real, w: real)
    requires w >= 0.0
    ensures var ps := StarVertices(x, y, w);
      |ps| == 10 &&
      forall i | 0 <= i < 10 ::
        ps[i].OnStar? && ps[i].cx == x && ps[i].cy == y && ps[i].step == i &&
        ps[i].radius == (if i % 2 == 0 then w / 2.0 else w / 4.0) &&
        0.0 <= ps[i].radius <= w / 2.0
  {
  }

  // ---------------------------------------------------------------------------------------------
  // The hair texture: 50 short random strokes inside the box.

  const HairCount: nat := 50
  /** `Math.random()` calls per hair: start x, start y, end dx, end dy. */
  const RandomsPerHair: nat := 4
  /** Random numbers one texture pass consumes. */
  const TextureRandoms: nat := HairCount * RandomsPerHair

  /** The values `Math.random()` may return. */
  predicate UnitRandoms(rnd: seq<real>)
  {
    forall k | 0 <= k < |rnd| :: 0.0 <= rnd[k] < 1.0
  }

  /** Hair number i, drawn with the random numbers rnd[4 i .. 4 i + 4]. */
  function HairStroke(x: real, y: real, w: real, h: real, rnd: seq<real>, i: nat): seq<DrawCmd>
    requires 4 * i + 4 <= |rnd|
  {
    var rx := x + (rnd[4 * i] - 0.5) * w;
    var ry := y + (rnd[4 * i + 1] - 0.5) * h;
    [BeginPath,
     MoveTo(At(rx, ry)),
     LineTo(At(rx + (rnd[4 * i + 2] - 0.5) * 10.0, ry + (rnd[4 * i + 3] - 0.5) * 10.0)),
     Stroke]
  }

  /** The first n hairs of the texture loop. */
  function HairStrokes(x: real, y: real, w: real, h: real, rnd: seq<real>, n: nat): seq<DrawCmd>
    requires 4 * n <= |rnd|
  {
    if n == 0 then [] else HairStrokes(x, y, w, h, rnd, n - 1) + HairStroke(x, y, w, h, rnd, n - 1)
  }

  /** The texture loop: 50 times, a segment from a random point of the box to a random point
      within 5 px of it, each stroked as a path of its own. */
  method DrawHairs(ctx: Canvas, x: real, y: real, w: real, h: real, rnd: seq<real>)
    requires |rnd| >= TextureRandoms
    modifies ctx
    ensures ctx.log == old(ctx.log) + HairStrokes(x, y, w, h, rnd, HairCount)
  {
    for i := 0 to HairCount
      invariant ctx.log == old(ctx.log) + HairStrokes(x, y, w, h, rnd, i)
    {
      var rx := x + (rnd[4 * i] - 0.5) * w;
      var ry := y + (rnd[4 * i + 1] - 0.5) * h;
      ghost var before := ctx.log;
      ctx.Issue(BeginPath);
      ctx.Issue(MoveTo(At(rx, ry)));
      ctx.Issue(LineTo(At(rx + (rnd[4 * i + 2] - 0.5) * 10.0, ry + (rnd[4 * i + 3] - 0.5) * 10.0)));
      ctx.Issue(Stroke);
      assert ctx.log == before + HairStroke(x, y, w, h, rnd, i);
      AppendTwice(old(ctx.log), HairStrokes(x, y, w, h, rnd, i), HairStroke(x, y, w, h, rnd, i));
    }
  }

  /** Four commands stroking one segment that starts in the box and ends within 5 px of its start. */
  predicate IsHair(s: seq<DrawCmd>, x: real, y: real, w: real, h: real)
  {
    |s| == 4 && s[0] == BeginPath && s[1].MoveTo? && s[2].LineTo? && s[3] == Stroke &&
    InBox(s[1].p, x, y, w, h) && Near(s[1].p, s[2].p, 5.0)
  }

  /** The i-th group of four commands of `cmds` is a hair of the box. */
  predicate HairAt(cmds: seq<DrawCmd>, i: nat, x: real, y: real, w: real, h: real)
  {
    4 * i + 4 <= |cmds| && IsHair(cmds[4 * i .. 4 * i + 4], x, y, w, h)
  }

  /** The first n groups of four commands of `cmds` are hairs of the box. */
  predicate Hairs(cmds: seq<DrawCmd>, n: nat, x: real, y: real, w: real, h: real)
  {
    forall i | 0 <= i < n :: HairAt(cmds, i, x, y, w, h)
  }

  /** (r - 1/2) * s lies in [-s/2, s/2] for r in [0, 1) and s >= 0. */
  lemma CentredOffset(r: real, s: real)
    requires 0.0 <= r < 1.0 && s >= 0.0
    ensures -s / 2.0 <= (r - 0.5) * s <= s / 2.0
  {
    assert 0.0 <= r * s by { assert r >= 0.0 && s >= 0.0; }
    assert 0.0 <= (1.0 - r) * s;
  }

  lemma HairStrokeInBox(x: real, y: real, w: real, h: real, rnd: seq<real>, i: nat)
    requires w >= 0.0 && h >= 0.0 && 4 * i + 4 <= |rnd| && UnitRandoms(rnd)
    ensures IsHair(HairStroke(x, y, w, h, rnd, i), x, y, w, h)
  {
    CentredOffset(rnd[4 * i], w);
    CentredOffset(rnd[4 * i + 1], h);
    CentredOffset(rnd[4 * i + 2], 10.0);
    CentredOffset(rnd[4 * i + 3], 10.0);
  }

  /** The loop draws exactly n hairs, four commands each; every one starts in the box and ends
      within 5 px of its start on each axis. */
  lemma {:induction false} HairStrokesShape(x: real, y: real, w: real, h: real, rnd: seq<real>, n: nat)
    requires w >= 0.0 && h >= 0.0 && 4 * n <= |rnd| && UnitRandoms(rnd)
    ensures |HairStrokes(x, y, w, h, rnd, n)| == 4 * n
    ensures Hairs(HairStrokes(x, y, w, h, rnd, n), n, x, y, w, h)
  {
    if n > 0 {
      HairStrokesShape(x, y, w, h, rnd, n - 1);
      HairStrokeInBox(x, y, w, h, rnd, n - 1);
      var prev := HairStrokes(x, y, w, h, rnd, n - 1);
      var last := HairStroke(x, y, w, h, rnd, n - 1);
      assert HairStrokes(x, y, w, h, rnd, n) == prev + last;
      forall i | 0 <= i < n
        ensures HairAt(prev + last, i, x, y, w, h)
      {
        if i < n - 1 {
          assert HairAt(prev, i, x, y, w, h);
          assert (prev + last)[4 * i .. 4 * i + 4] == prev[4 * i .. 4 * i + 4];
        } else {
          assert (prev + last)[4 * i .. 4 * i + 4] == last;
        }
      }
    }
  }
}
