/** The older single-script version of the app (main.js): no throttle, a PoseNet single-pose
    estimate every ready frame, and a free-standing `drawTemplate(ctx, template, ...)`. */
module Legacy {
  import opened Drawing
  import opened Frames
  import opened Anchoring
  import opened Templates

  /** PoseNet's part names for the hips. */
  const LeftHip := "leftHip"
  const RightHip := "rightHip"

  // ---------------------------------------------------------------------------------------------
  // What each step draws, as functions of its inputs.

  /** The lightning outline of this version: the six corners and back to the first one. */
  function LightningOutline(x: real, y: real, w: real, h: real): (ps: seq<Point>)
    ensures |ps| == 7 && ps[6] == ps[0]
    ensures ps[..6] == LightningPoints(x, y, w, h)
  {
    LightningPoints(x, y, w, h) + [LightningPoints(x, y, w, h)[0]]
  }

  /** The drawing done by the switch arm of template `t`: lightning is an outline stroked without
      `closePath`, the star is ten `lineTo`'s with no `moveTo`; "none" and unknown ids take the
      empty default arm. */
  function ShapeCmds(t: Template, x: real, y: real, w: real, h: real): seq<DrawCmd>
  {
    if SharedArm(t) then SharedShapeCmds(t, x, y, w, h)
    else match t
      case Lightning => [BeginPath] + Polyline(LightningOutline(x, y, w, h)) + [Stroke]
      case Star => [BeginPath] + LineTos(StarVertices(x, y, w)) + [ClosePath, Fill]
      case _ => []
  }

  /** `drawTemplate(ctx, template, x, y, w, h)`: the style settings, the switch arm, and, for every
      id except "none", the 50 hairs in the same black 2 px style. */
  function TemplateCmds(t: Template, x: real, y: real, w: real, h: real, rnd: seq<real>): seq<DrawCmd>
    requires |rnd| >= TextureRandoms
  {
    StyleCmds() + ShapeCmds(t, x, y, w, h) + (if !t.Blank? then HairStrokes(x, y, w, h, rnd, HairCount) else [])
  }

  /** The hip check and anchor of one pose: the template at the anchor, or nothing. */
  function OverlayCmds(pose: Pose, t: Template, rnd: seq<real>): seq<DrawCmd>
    requires |rnd| >= TextureRandoms
  {
    match ResolveAnchor(pose, LeftHip, RightHip)
    case None => []
    case Some(a) => TemplateCmds(t, a.centerX, a.centerY, a.width, a.height, rnd)
  }

  /** What a tick draws once the single pose has been estimated: the clear, then the overlay if
      the pose scores above 0.5. */
  function EstimateCmds(pose: Pose, t: Template, canvasWidth: nat, canvasHeight: nat, rnd: seq<real>): seq<DrawCmd>
    requires |rnd| >= TextureRandoms
  {
    [ClearRect(0.0, 0.0, canvasWidth as real, canvasHeight as real)] +
    (if pose.score > PoseThreshold then OverlayCmds(pose, t, rnd) else [])
  }

  /** The world as one tick sees it: there is no clock, as nothing is throttled. */
  datatype TickInput = TickInput(paused: bool, ended: bool, estimate: Estimation<Pose>, random: seq<real>)

  datatype TickEffect = TickEffect(outcome: Tick, cmds: seq<DrawCmd>)

  /** One run of `detectAndDraw` with the model loaded or not and template `t` selected. */
  function TickSpec(netLoaded: bool, t: Template, canvasWidth: nat, canvasHeight: nat, input: TickInput): (e: TickEffect)
    requires |input.random| >= TextureRandoms
    // no throttle: every ready tick invokes the estimator
    ensures e.outcome != Throttled
    ensures e.outcome == NotReady <==> input.paused || input.ended || !netLoaded
    // a rejected estimate ends the loop: the rejection escapes and no frame is requested
    ensures e.outcome == Halted <==> !input.paused && !input.ended && netLoaded && input.estimate.EstimationFailed?
    ensures e.outcome == Sampled <==> !input.paused && !input.ended && netLoaded && input.estimate.Estimated?
    // the canvas is cleared on every estimate, before the score is looked at
    ensures e.cmds != [] <==> e.outcome == Sampled
    ensures e.cmds != [] ==> e.cmds[0] == ClearRect(0.0, 0.0, canvasWidth as real, canvasHeight as real)
    ensures |e.cmds| > 1 ==>
      input.estimate.Estimated? && input.estimate.value.score > PoseThreshold &&
      ResolveAnchor(input.estimate.value, LeftHip, RightHip).Some? &&
      e.cmds[1..] == OverlayCmds(input.estimate.value, t, input.random)
    // and a sampled pose scoring above 0.5 does get its overlay after the clear
    ensures e.outcome == Sampled && input.estimate.Estimated? && input.estimate.value.score > PoseThreshold ==>
      e.cmds == [ClearRect(0.0, 0.0, canvasWidth as real, canvasHeight as real)] +
                OverlayCmds(input.estimate.value, t, input.random)
  {
    if input.paused || input.ended || !netLoaded then TickEffect(NotReady, [])
    else match input.estimate
      case EstimationFailed => TickEffect(Halted, [])
      case Estimated(pose) => TickEffect(Sampled, EstimateCmds(pose, t, canvasWidth, canvasHeight, input.random))
  }

  // ---------------------------------------------------------------------------------------------
  // Properties of the drawing functions.

  /** The overlay draws something exactly when the leftHip/rightHip keypoints are confident; what
      it draws begins with the three style settings. */
  lemma OverlayDrawnIffConfidentHips(pose: Pose, t: Template, rnd: seq<real>)
    requires |rnd| >= TextureRandoms
    ensures OverlayCmds(pose, t, rnd) != [] <==> ResolveAnchor(pose, LeftHip, RightHip).Some?
    ensures OverlayCmds(pose, t, rnd) != [] ==> OverlayCmds(pose, t, rnd)[..3] == StyleCmds()
  {
  }

  /** "none" stops after the three style settings. */
  lemma NoneDrawsOnlyStyle(x: real, y: real, w: real, h: real, rnd: seq<real>)
    requires |rnd| >= TextureRandoms
    ensures TemplateCmds(Blank, x, y, w, h, rnd) == StyleCmds()
  {
  }

  /** Every id other than "none", including ids no arm knows, gets its shape (nothing for an
      unknown id) and then exactly 50 hairs, each starting inside the anchor box and ending
      within 5 px of its start. */
  lemma TextureUnlessNone(t: Template, x: real, y: real, w: real, h: real, rnd: seq<real>)
    requires |rnd| >= TextureRandoms && UnitRandoms(rnd) && w >= 0.0 && h >= 0.0
    requires !t.Blank?
    ensures var cmds := TemplateCmds(t, x, y, w, h, rnd);
      var shape := ShapeCmds(t, x, y, w, h);
      (t.Unrecognized? <==> shape == []) &&
      cmds[..3 + |shape|] == StyleCmds() + shape &&
      |cmds| == 3 + |shape| + 4 * HairCount &&
      Hairs(cmds[3 + |shape|..], HairCount, x, y, w, h)
  {
    var shape := ShapeCmds(t, x, y, w, h);
    var hairs := HairStrokes(x, y, w, h, rnd, HairCount);
    HairStrokesShape(x, y, w, h, rnd, HairCount);
    var cmds := TemplateCmds(t, x, y, w, h, rnd);
    assert cmds == StyleCmds() + shape + hairs;
    assert cmds[3 + |shape|..] == hairs;
  }

  /** The lightning arm: seven vertices ending back at the first, stroked; it is neither closed
      with `closePath` nor filled. */
  lemma LightningTemplateShape(x: real, y: real, w: real, h: real)
    ensures var cs := ShapeCmds(Lightning, x, y, w, h);
      var ps := LightningPoints(x, y, w, h);
      |cs| == 9 && cs[0] == BeginPath && cs[1] == MoveTo(ps[0]) &&
      (forall i | 1 <= i < 6 :: cs[i + 1] == LineTo(ps[i])) &&
      cs[7] == LineTo(ps[0]) && cs[8] == Stroke &&
      ClosePath !in cs && Fill !in cs
  {
    var cs := ShapeCmds(Lightning, x, y, w, h);
    assert forall i | 0 <= i < |cs| :: cs[i] != ClosePath && cs[i] != Fill;
  }

  /** The star arm: ten vertices all reached by `lineTo` (there is no `moveTo`), then closed
      and filled. */
  lemma StarTemplateShape(x: real, y: real, w: real, h: real)
    ensures var cs := ShapeCmds(Star, x, y, w, h);
      |cs| == 13 && cs[0] == BeginPath &&
      (forall i | 0 <= i < 10 :: cs[i + 1] == LineTo(StarVertex(x, y, w, i))) &&
      cs[11] == ClosePath && cs[12] == Fill &&
      forall c | c in cs :: !c.MoveTo?
  {
  }

  /** A pose scoring at most 0.5 is still estimated and the canvas still cleared, but nothing else is drawn. */
  lemma LowScoreOnlyClears(pose: Pose, t: Template, canvasWidth: nat, canvasHeight: nat, rnd: seq<real>)
    requires |rnd| >= TextureRandoms
    requires pose.score <= PoseThreshold
    ensures EstimateCmds(pose, t, canvasWidth, canvasHeight, rnd) == [ClearRect(0.0, 0.0, canvasWidth as real, canvasHeight as real)]
  {
  }

  // ---------------------------------------------------------------------------------------------
  // The script's state and its steps.

  /** The variables the `DOMContentLoaded` handler closes over. */
  class LegacyScript {
    const ctx: Canvas
    /** `net` is set: PoseNet has loaded. */
    var netLoaded: bool
    var currentTemplate: string

    constructor (ctx: Canvas)
      ensures this.ctx == ctx && !netLoaded && currentTemplate == "none"
    {
      this.ctx := ctx;
      netLoaded := false;
      currentTemplate := "none";
    }

    /** The end of `loadPoseNet`: `net` is in place. */
    method LoadPoseNet()
      modifies this
      ensures netLoaded && currentTemplate == old(currentTemplate)
    {
      netLoaded := true;
    }

    /** The select's change listener. */
    method SelectTemplate(id: string)
      modifies this
      ensures currentTemplate == id && netLoaded == old(netLoaded)
    {
      currentTemplate := id;
    }

    /** One animation-frame callback. */
    method DetectAndDraw(input: TickInput) returns (outcome: Tick)
      requires |input.random| >= TextureRandoms
      modifies ctx
      ensures var e := TickSpec(netLoaded, Classify(currentTemplate), ctx.width, ctx.height, input);
        outcome == e.outcome && ctx.log == old(ctx.log) + e.cmds
    {
      if input.paused || input.ended || !netLoaded {
        return NotReady;
      }
      match input.estimate {
        case EstimationFailed =>
          // the awaited promise rejects and the callback ends before requesting a frame
          return Halted;
        case Estimated(pose) =>
          DrawEstimate(pose, input.random);
          return Sampled;
      }
    }

    /** The rest of the callback once the pose is known: clear, score gate, hip check, anchor, draw. */
    method DrawEstimate(pose: Pose, rnd: seq<real>)
      requires |rnd| >= TextureRandoms
      modifies ctx
      ensures ctx.log == old(ctx.log) + EstimateCmds(pose, Classify(currentTemplate), ctx.width, ctx.height, rnd)
    {
      var clear := ClearRect(0.0, 0.0, ctx.width as real, ctx.height as real);
      ctx.Issue(clear);
      if pose.score > PoseThreshold {
        var anchor := ResolveAnchor(pose, LeftHip, RightHip);
        if anchor.Some? {
          var a := anchor.value;
          DrawTemplate(ctx, currentTemplate, a.centerX, a.centerY, a.width, a.height, rnd);
        }
        AppendTwice(old(ctx.log), [clear], OverlayCmds(pose, Classify(currentTemplate), rnd));
      }
    }
  }

  /** `drawTemplate(ctx, template, x, y, w, h)`. */
  method DrawTemplate(ctx: Canvas, template: string, x: real, y: real, w: real, h: real, rnd: seq<real>)
    requires |rnd| >= TextureRandoms
    modifies ctx
    ensures ctx.log == old(ctx.log) + TemplateCmds(Classify(template), x, y, w, h, rnd)
  {
    ctx.Issue(SetFillStyle(Black));
    ctx.Issue(SetStrokeStyle(Black));
    ctx.Issue(SetLineWidth(2.0));
    ghost var styled := ctx.log;
    assert styled == old(ctx.log) + StyleCmds();

    var t := Classify(template);
    DrawShape(ctx, t, x, y, w, h);

    if template != "none" {
      DrawHairs(ctx, x, y, w, h, rnd);
      AppendThrice(old(ctx.log), StyleCmds(), ShapeCmds(t, x, y, w, h), HairStrokes(x, y, w, h, rnd, HairCount));
    } else {
      AppendThrice(old(ctx.log), StyleCmds(), ShapeCmds(t, x, y, w, h), []);
    }
  }

  /** The switch of `drawTemplate`; the default arm does nothing and falls through to the texture. */
  method DrawShape(ctx: Canvas, t: Template, x: real, y: real, w: real, h: real)
    modifies ctx
    ensures ctx.log == old(ctx.log) + ShapeCmds(t, x, y, w, h)
  {
    if SharedArm(t) {
      DrawSharedShape(ctx, t, x, y, w, h);
      return;
    }
    match t {
      case Lightning =>
        DrawLightning(ctx, x, y, w, h);
      case Star =>
        DrawStar(ctx, x, y, w);
      case _ =>
    }
  }

  /** The `lightning` arm: the outline back to its first corner, stroked. */
  method DrawLightning(ctx: Canvas, x: real, y: real, w: real, h: real)
    modifies ctx
    ensures ctx.log == old(ctx.log) + ShapeCmds(Lightning, x, y, w, h)
  {
    ctx.Issue(BeginPath);
    ctx.Issue(MoveTo(At(x - w / 2.0, y - h / 2.0)));
    ctx.Issue(LineTo(At(x, y)));
    ctx.Issue(LineTo(At(x - w / 4.0, y + h / 4.0)));
    ctx.Issue(LineTo(At(x + w / 2.0, y + h / 2.0)));
    ctx.Issue(LineTo(At(x, y + h / 4.0)));
    ctx.Issue(LineTo(At(x + w / 4.0, y)));
    ctx.Issue(LineTo(At(x - w / 2.0, y - h / 2.0)));
    ctx.Issue(Stroke);
    assert ctx.log == old(ctx.log) + ([BeginPath] + Polyline(LightningOutline(x, y, w, h)) + [Stroke]);
  }

  /** The `star` arm: every vertex of the loop is a `lineTo`; then closed and filled. */
  method DrawStar(ctx: Canvas, x: real, y: real, w: real)
    modifies ctx
    ensures ctx.log == old(ctx.log) + [BeginPath] + LineTos(StarVertices(x, y, w)) + [ClosePath, Fill]
  {
    var points := StarPoints;
    var outerRadius := w / 2.0;
    var innerRadius := outerRadius / 2.0;
    ctx.Issue(BeginPath);
    for i := 0 to points * 2
      invariant ctx.log == old(ctx.log) + [BeginPath] + LineTos(StarVertices(x, y, w)[..i])
    {
      var radius := if i % 2 == 0 then outerRadius else innerRadius;
      ctx.Issue(LineTo(OnStar(x, y, radius, i)));
      assert LineTos(StarVertices(x, y, w)[..i + 1]) == LineTos(StarVertices(x, y, w)[..i]) + [ctx.log[|ctx.log| - 1]];
    }
    assert StarVertices(x, y, w)[..points * 2] == StarVertices(x, y, w);
    ctx.Issue(ClosePath);
    ctx.Issue(Fill);
  }
}
