/** The class-based app of src/main.js: a throttled render loop that estimates poses at most every
    200 ms and draws the selected template at the hip anchor. */
module Overlay {
  import opened Drawing
  import opened Frames
  import opened Anchoring
  import opened Templates

  /** Minimum time between two pose samples, in milliseconds. */
  const DetectionInterval: int := 200

  const LeftHip := "left_hip"
  const RightHip := "right_hip"

  /** The texture's stroke: translucent black, 1 px. */
  const HairStyle := "rgba(0, 0, 0, 0.6)"

  // ---------------------------------------------------------------------------------------------
  // What each step draws, as functions of its inputs.

  /** The drawing done by the switch arm of template `t`; the default arm (also taken by "none")
      draws nothing. */
  function ShapeCmds(t: Template, x: real, y: real, w: real, h: real): (r: seq<DrawCmd>)
    ensures r != [] <==> Drawable(t)
  {
    if SharedArm(t) then SharedShapeCmds(t, x, y, w, h)
    else match t
      case Lightning => [BeginPath] + Polyline(LightningPoints(x, y, w, h)) + [ClosePath, Fill]
      case Star => [BeginPath] + Polyline(StarVertices(x, y, w)) + [ClosePath, Fill]
      case _ => []
  }

  /** `drawHairTexture`: the texture style, then the 50 hairs. */
  function HairTexture(x: real, y: real, w: real, h: real, rnd: seq<real>): seq<DrawCmd>
    requires |rnd| >= TextureRandoms
  {
    [SetStrokeStyle(HairStyle), SetLineWidth(1.0)] + HairStrokes(x, y, w, h, rnd, HairCount)
  }

  /** `drawTemplate(x, y, w, h)` with the template `t` selected: the style settings; then either the
      default arm's early return, or the shape followed (the id not being "none") by the texture. */
  function TemplateCmds(t: Template, x: real, y: real, w: real, h: real, rnd: seq<real>): seq<DrawCmd>
    requires |rnd| >= TextureRandoms
  {
    if !Drawable(t) then StyleCmds()
    else StyleCmds() + ShapeCmds(t, x, y, w, h) + (if !t.Blank? then HairTexture(x, y, w, h, rnd) else [])
  }

  /** `drawPoseOverlay(pose)`: the template at the hip anchor, or nothing without confident hips. */
  function OverlayCmds(pose: Pose, t: Template, rnd: seq<real>): seq<DrawCmd>
    requires |rnd| >= TextureRandoms
  {
    match ResolveAnchor(pose, LeftHip, RightHip)
    case None => []
    case Some(a) => TemplateCmds(t, a.centerX, a.centerY, a.width, a.height, rnd)
  }

  /** What a tick draws once `estimatePoses` has returned: clear the whole canvas, then the overlay
      of the first pose if it scores above 0.5. */
  function EstimateCmds(poses: seq<Pose>, t: Template, canvasWidth: nat, canvasHeight: nat, rnd: seq<real>): seq<DrawCmd>
    requires |rnd| >= TextureRandoms
  {
    [ClearRect(0.0, 0.0, canvasWidth as real, canvasHeight as real)] +
    (if |poses| > 0 && poses[0].score > PoseThreshold then OverlayCmds(poses[0], t, rnd) else [])
  }

  /** The throttle: a sample is due once `DetectionInterval` ms have passed since the last one. */
  predicate Due(now: int, last: int)
  {
    !(now - last < DetectionInterval)
  }

  /** The world as one tick sees it: the clock, the video's state, what the estimator would deliver
      and the numbers `Math.random()` would return. */
  datatype TickInput = TickInput(now: int, paused: bool, ended: bool, estimate: Estimation<seq<Pose>>, random: seq<real>)

  /** The effect of one tick: how it ended, the new `lastDetectionTime`, the commands it drew. */
  datatype TickEffect = TickEffect(outcome: Tick, lastDetectionTime: int, cmds: seq<DrawCmd>)

  /** One run of `detectAndDraw` from state (running, last, detectorLoaded, t). */
  function TickSpec(running: bool, last: int, detectorLoaded: bool, t: Template,
                    canvasWidth: nat, canvasHeight: nat, input: TickInput): (e: TickEffect)
    requires |input.random| >= TextureRandoms
    // the loop goes on exactly while it is running
    ensures Reschedules(e.outcome) <==> running
    // a sampling slot is used up by every due tick, whether or not the video and model are ready
    ensures e.lastDetectionTime == (if running && Due(input.now, last) then input.now else last)
    ensures e.outcome == Sampled <==> running && Due(input.now, last) && !input.paused && !input.ended && detectorLoaded
    // the canvas is touched only after a successful estimation, and then it is cleared first
    ensures e.cmds != [] <==> e.outcome == Sampled && input.estimate.Estimated?
    ensures e.cmds != [] ==> e.cmds[0] == ClearRect(0.0, 0.0, canvasWidth as real, canvasHeight as real)
    // anything beyond the clear is the overlay of the first pose, which scored above 0.5
    ensures |e.cmds| > 1 ==>
      input.estimate.Estimated? && |input.estimate.value| > 0 && input.estimate.value[0].score > PoseThreshold &&
      ResolveAnchor(input.estimate.value[0], LeftHip, RightHip).Some? &&
      e.cmds[1..] == OverlayCmds(input.estimate.value[0], t, input.random)
    // and a sampled first pose scoring above 0.5 does get its overlay after the clear
    ensures e.outcome == Sampled && input.estimate.Estimated? && |input.estimate.value| > 0 &&
            input.estimate.value[0].score > PoseThreshold ==>
      e.cmds == [ClearRect(0.0, 0.0, canvasWidth as real, canvasHeight as real)] +
                OverlayCmds(input.estimate.value[0], t, input.random)
  {
    if !running then TickEffect(Halted, last, [])
    else if !Due(input.now, last) then TickEffect(Throttled, last, [])
    else if input.paused || input.ended || !detectorLoaded then TickEffect(NotReady, input.now, [])
    else match input.estimate
      case EstimationFailed => TickEffect(Sampled, input.now, [])
      case Estimated(poses) => TickEffect(Sampled, input.now, EstimateCmds(poses, t, canvasWidth, canvasHeight, input.random))
  }

  // ---------------------------------------------------------------------------------------------
  // Properties of the drawing functions.

  /** The overlay draws something exactly when the hips are confident; what it draws begins with
      the three style settings. */
  lemma OverlayDrawnIffConfidentHips(pose: Pose, t: Template, rnd: seq<real>)
    requires |rnd| >= TextureRandoms
    ensures OverlayCmds(pose, t, rnd) != [] <==> ResolveAnchor(pose, LeftHip, RightHip).Some?
    ensures OverlayCmds(pose, t, rnd) != [] ==> OverlayCmds(pose, t, rnd)[..3] == StyleCmds()
  {
  }

  /** "none" and unknown ids stop after the three style settings: no shape and no texture. */
  lemma UndrawableDrawsNothing(t: Template, x: real, y: real, w: real, h: real, rnd: seq<real>)
    requires |rnd| >= TextureRandoms
    requires !Drawable(t)
    ensures TemplateCmds(t, x, y, w, h, rnd) == StyleCmds()
  {
  }

  /** Every known template other than "none" draws its shape and then exactly 50 hairs, each
      starting inside the anchor box and ending within 5 px of its start. */
  lemma DrawableDrawsTexture(t: Template, x: real, y: real, w: real, h: real, rnd: seq<real>)
    requires |rnd| >= TextureRandoms && UnitRandoms(rnd) && w >= 0.0 && h >= 0.0
    requires Drawable(t)
    ensures var cmds := TemplateCmds(t, x, y, w, h, rnd);
      var shape := ShapeCmds(t, x, y, w, h);
      |shape| > 0 && |cmds| == 5 + |shape| + 4 * HairCount &&
      cmds[..3 + |shape|] == StyleCmds() + shape &&
      cmds[3 + |shape| .. 5 + |shape|] == [SetStrokeStyle(HairStyle), SetLineWidth(1.0)] &&
      Hairs(cmds[5 + |shape|..], HairCount, x, y, w, h)
  {
    var shape := ShapeCmds(t, x, y, w, h);
    var texStyle := [SetStrokeStyle(HairStyle), SetLineWidth(1.0)];
    var hairs := HairStrokes(x, y, w, h, rnd, HairCount);
    HairStrokesShape(x, y, w, h, rnd, HairCount);
    TemplateCmdsInParts(t, x, y, w, h, rnd);
    Split(StyleCmds() + shape, texStyle, hairs);
  }

  /** A drawable template's commands are the style, the shape, the texture style and the hairs. */
  lemma TemplateCmdsInParts(t: Template, x: real, y: real, w: real, h: real, rnd: seq<real>)
    requires |rnd| >= TextureRandoms
    requires Drawable(t)
    ensures TemplateCmds(t, x, y, w, h, rnd) ==
      (StyleCmds() + ShapeCmds(t, x, y, w, h)) + [SetStrokeStyle(HairStyle), SetLineWidth(1.0)] + HairStrokes(x, y, w, h, rnd, HairCount)
  {
  }

  /** The star arm: ten vertices, the first a moveTo and the other nine lineTo's, then closed and filled. */
  lemma StarTemplateShape(x: real, y: real, w: real, h: real)
    ensures var cs := ShapeCmds(Star, x, y, w, h);
      |cs| == 13 && cs[0] == BeginPath && cs[1] == MoveTo(StarVertex(x, y, w, 0)) &&
      (forall i | 1 <= i < 10 :: cs[i + 1] == LineTo(StarVertex(x, y, w, i))) &&
      cs[11] == ClosePath && cs[12] == Fill
  {
  }

  /** The lightning arm: six vertices, then closePath and fill. */
  lemma LightningTemplateShape(x: real, y: real, w: real, h: real)
    ensures var cs := ShapeCmds(Lightning, x, y, w, h);
      |cs| == 9 && cs[0] == BeginPath && cs[1] == MoveTo(LightningPoints(x, y, w, h)[0]) &&
      (forall i | 1 <= i < 6 :: cs[i + 1] == LineTo(LightningPoints(x, y, w, h)[i])) &&
      cs[7] == ClosePath && cs[8] == Fill
  {
  }

  /** With a first pose scoring at most 0.5 (or no pose at all) a successful estimation only clears. */
  lemma LowScoreOnlyClears(poses: seq<Pose>, t: Template, canvasWidth: nat, canvasHeight: nat, rnd: seq<real>)
    requires |rnd| >= TextureRandoms
    requires |poses| == 0 || poses[0].score <= PoseThreshold
    ensures EstimateCmds(poses, t, canvasWidth, canvasHeight, rnd) == [ClearRect(0.0, 0.0, canvasWidth as real, canvasHeight as real)]
  {
  }

  // ---------------------------------------------------------------------------------------------
  // The throttle over a run of ticks.

  /** `a` is `b` with some entries left out and the others kept in order. */
  predicate Subsequence(a: seq<int>, b: seq<int>)
    decreases |b|
  {
    if b == [] then a == []
    else Subsequence(a, b[1..]) || (a != [] && a[0] == b[0] && Subsequence(a[1..], b[1..]))
  }

  /** The first entry of `r` is at least 200 ms after `last`, and each later one at least 200 ms
      after the one before. */
  predicate Spaced(last: int, r: seq<int>)
  {
    (|r| > 0 ==> r[0] - last >= DetectionInterval) &&
    forall k | 0 < k < |r| :: r[k] - r[k - 1] >= DetectionInterval
  }

  /** The times at which `lastDetectionTime` is updated when a running loop ticks at `times`,
      starting from `lastDetectionTime == last`. */
  function SampleTimes(last: int, times: seq<int>): (r: seq<int>)
    decreases |times|
    ensures |r| <= |times|
    ensures forall t | t in r :: t in times
    ensures Subsequence(r, times)
  {
    if times == [] then []
    else if Due(times[0], last) then [times[0]] + SampleTimes(times[0], times[1..])
    else SampleTimes(last, times[1..])
  }

  /** Two consecutive samples, and the first sample and the starting `last`, are at least
      200 ms apart: estimation never runs more often than once per interval. */
  lemma {:induction false} SamplesSpaced(last: int, times: seq<int>)
    ensures Spaced(last, SampleTimes(last, times))
    decreases |times|
  {
    if times != [] {
      if Due(times[0], last) {
        SamplesSpaced(times[0], times[1..]);
        var rest := SampleTimes(times[0], times[1..]);
        assert SampleTimes(last, times) == [times[0]] + rest;
      } else {
        SamplesSpaced(last, times[1..]);
      }
    }
  }

  /** Leaving samples out keeps them spaced. */
  lemma {:induction false} SubsequenceSpaced(last: int, a: seq<int>, b: seq<int>)
    requires Subsequence(a, b) && Spaced(last, b)
    ensures Spaced(last, a)
    decreases |b|
  {
    if b != [] {
      var tail := b[1..];
      assert forall k | 0 < k < |tail| :: tail[k] - tail[k - 1] == b[k + 1] - b[k];
      if Subsequence(a, tail) {
        assert |tail| > 0 ==> tail[0] - last == (b[1] - b[0]) + (b[0] - last);
        SubsequenceSpaced(last, a, tail);
      } else {
        SubsequenceSpaced(b[0], a[1..], tail);
        assert forall k | 1 < k < |a| :: a[k] - a[k - 1] == a[1..][k - 1] - a[1..][k - 2];
      }
    }
  }

  /** A running loop ticking on `inputs`, each tick starting from the `lastDetectionTime` the one
      before left behind, with the model state and the template unchanged in between. */
  function Run(last: int, detectorLoaded: bool, t: Template, canvasWidth: nat, canvasHeight: nat,
               inputs: seq<TickInput>): (effects: seq<TickEffect>)
    requires forall i | 0 <= i < |inputs| :: |inputs[i].random| >= TextureRandoms
    decreases |inputs|
    ensures |effects| == |inputs|
    ensures forall i | 0 <= i < |effects| :: Reschedules(effects[i].outcome)
  {
    if inputs == [] then []
    else
      var e := TickSpec(true, last, detectorLoaded, t, canvasWidth, canvasHeight, inputs[0]);
      [e] + Run(e.lastDetectionTime, detectorLoaded, t, canvasWidth, canvasHeight, inputs[1..])
  }

  /** The clock readings of a run of ticks. */
  function Times(inputs: seq<TickInput>): seq<int>
    decreases |inputs|
  {
    if inputs == [] then [] else [inputs[0].now] + Times(inputs[1..])
  }

  /** The times of the ticks the throttle let through. */
  function SlotTimes(inputs: seq<TickInput>, effects: seq<TickEffect>): seq<int>
    requires |effects| == |inputs|
    decreases |inputs|
  {
    if inputs == [] then []
    else (if effects[0].outcome != Throttled then [inputs[0].now] else []) + SlotTimes(inputs[1..], effects[1..])
  }

  /** The times of the ticks that invoked the estimator. */
  function SampledTimes(inputs: seq<TickInput>, effects: seq<TickEffect>): seq<int>
    requires |effects| == |inputs|
    decreases |inputs|
  {
    if inputs == [] then []
    else (if effects[0].outcome == Sampled then [inputs[0].now] else []) + SampledTimes(inputs[1..], effects[1..])
  }

  /** In a run, the ticks the throttle lets through are exactly those at `SampleTimes`. */
  lemma {:induction false} RunSlots(last: int, detectorLoaded: bool, t: Template, canvasWidth: nat, canvasHeight: nat,
                                    inputs: seq<TickInput>)
    requires forall i | 0 <= i < |inputs| :: |inputs[i].random| >= TextureRandoms
    ensures SlotTimes(inputs, Run(last, detectorLoaded, t, canvasWidth, canvasHeight, inputs))
         == SampleTimes(last, Times(inputs))
    decreases |inputs|
  {
    if inputs != [] {
      var e := TickSpec(true, last, detectorLoaded, t, canvasWidth, canvasHeight, inputs[0]);
      var effects := Run(last, detectorLoaded, t, canvasWidth, canvasHeight, inputs);
      assert effects[0] == e;
      assert effects[1..] == Run(e.lastDetectionTime, detectorLoaded, t, canvasWidth, canvasHeight, inputs[1..]);
      var times := Times(inputs);
      assert times[0] == inputs[0].now && times[1..] == Times(inputs[1..]);
      RunSlots(e.lastDetectionTime, detectorLoaded, t, canvasWidth, canvasHeight, inputs[1..]);
    }
  }

  /** Every tick that invokes the estimator also used up a slot: the sampled times are a
      subsequence of the slot times. */
  lemma {:induction false} SampledWithinSlots(inputs: seq<TickInput>, effects: seq<TickEffect>)
    requires |effects| == |inputs|
    ensures Subsequence(SampledTimes(inputs, effects), SlotTimes(inputs, effects))
    decreases |inputs|
  {
    if inputs != [] {
      SampledWithinSlots(inputs[1..], effects[1..]);
      var sampled, slots := SampledTimes(inputs, effects), SlotTimes(inputs, effects);
      if effects[0].outcome == Sampled {
        assert sampled[1..] == SampledTimes(inputs[1..], effects[1..]);
        assert slots[1..] == SlotTimes(inputs[1..], effects[1..]);
      } else if effects[0].outcome != Throttled {
        assert slots[1..] == SlotTimes(inputs[1..], effects[1..]);
        assert sampled == SampledTimes(inputs[1..], effects[1..]);
        assert slots != [] && Subsequence(sampled, slots[1..]);
      } else {
        assert slots == SlotTimes(inputs[1..], effects[1..]);
        assert sampled == SampledTimes(inputs[1..], effects[1..]);
      }
    }
  }

  /** Over a whole run, the estimator is invoked at most once per 200 ms, counting from the
      `lastDetectionTime` the run started with. */
  lemma RunSampledSpaced(last: int, detectorLoaded: bool, t: Template, canvasWidth: nat, canvasHeight: nat,
                         inputs: seq<TickInput>)
    requires forall i | 0 <= i < |inputs| :: |inputs[i].random| >= TextureRandoms
    ensures var effects := Run(last, detectorLoaded, t, canvasWidth, canvasHeight, inputs);
      Subsequence(SampledTimes(inputs, effects), SampleTimes(last, Times(inputs))) &&
      Spaced(last, SampledTimes(inputs, effects))
  {
    var effects := Run(last, detectorLoaded, t, canvasWidth, canvasHeight, inputs);
    RunSlots(last, detectorLoaded, t, canvasWidth, canvasHeight, inputs);
    SampledWithinSlots(inputs, effects);
    SamplesSpaced(last, Times(inputs));
    SubsequenceSpaced(last, SampledTimes(inputs, effects), SampleTimes(last, Times(inputs)));
  }

  /** Ticks at 0, 50, 120 and 210 ms: after a sample at least 200 ms before the first tick, the
      estimator runs at 0 and 210 only; from the constructor's `lastDetectionTime == 0`, at 210 only. */
  lemma ThrottleExample()
    ensures SampleTimes(-200, [0, 50, 120, 210]) == [0, 210]
    ensures SampleTimes(0, [0, 50, 120, 210]) == [210]
  {
    assert [0, 50, 120, 210][1..] == [50, 120, 210];
    assert [50, 120, 210][1..] == [120, 210];
    assert [120, 210][1..] == [210];
    assert [210][1..] == [];
  }

  // ---------------------------------------------------------------------------------------------
  // The app object.

  class PubicARApp {
    const ctx: Canvas
    /** `this.detector` is set: the pose model has loaded. */
    var detectorLoaded: bool
    var currentTemplate: string
    var lastDetectionTime: int
    const detectionInterval: int := DetectionInterval
    var isRunning: bool

    constructor (ctx: Canvas)
      ensures this.ctx == ctx && !detectorLoaded && currentTemplate == "none"
      ensures lastDetectionTime == 0 && !isRunning
    {
      this.ctx := ctx;
      detectorLoaded := false;
      currentTemplate := "none";
      lastDetectionTime := 0;
      isRunning := false;
    }

    /** The end of a successful `loadDetector`: the detector is in place. */
    method LoadDetector()
      modifies this
      ensures detectorLoaded
      ensures currentTemplate == old(currentTemplate) && lastDetectionTime == old(lastDetectionTime)
      ensures isRunning == old(isRunning)
    {
      detectorLoaded := true;
    }

    /** The template selector's change listener. */
    method SelectTemplate(id: string)
      modifies this
      ensures currentTemplate == id
      ensures detectorLoaded == old(detectorLoaded) && lastDetectionTime == old(lastDetectionTime)
      ensures isRunning == old(isRunning)
    {
      currentTemplate := id;
    }

    method StartDetection(input: TickInput) returns (outcome: Tick)
      requires |input.random| >= TextureRandoms
      modifies this, ctx
      ensures isRunning && Reschedules(outcome)
      ensures var e := TickSpec(true, old(lastDetectionTime), detectorLoaded, Classify(currentTemplate), ctx.width, ctx.height, input);
        outcome == e.outcome && lastDetectionTime == e.lastDetectionTime && ctx.log == old(ctx.log) + e.cmds
      ensures detectorLoaded == old(detectorLoaded) && currentTemplate == old(currentTemplate)
    {
      isRunning := true;
      outcome := DetectAndDraw(input);
    }

    /** After this, the next tick returns at once and the loop ends (see TickSpec). */
    method StopDetection()
      modifies this
      ensures !isRunning
      ensures detectorLoaded == old(detectorLoaded) && currentTemplate == old(currentTemplate)
      ensures lastDetectionTime == old(lastDetectionTime)
    {
      isRunning := false;
    }

    /** One animation-frame callback. */
    method DetectAndDraw(input: TickInput) returns (outcome: Tick)
      requires |input.random| >= TextureRandoms
      modifies this`lastDetectionTime, ctx
      ensures var e := TickSpec(isRunning, old(lastDetectionTime), detectorLoaded, Classify(currentTemplate), ctx.width, ctx.height, input);
        outcome == e.outcome && lastDetectionTime == e.lastDetectionTime && ctx.log == old(ctx.log) + e.cmds
    {
      if !isRunning {
        return Halted;
      }
      var now := input.now;
      if now - lastDetectionTime < detectionInterval {
        return Throttled;
      }
      lastDetectionTime := now;
      if input.paused || input.ended || !detectorLoaded {
        return NotReady;
      }
      match input.estimate {
        case EstimationFailed =>
          // the error is logged; nothing is cleared or drawn
        case Estimated(poses) =>
          DrawEstimate(poses, input.random);
      }
      outcome := Sampled;
    }

    /** The rest of the `try` block once `estimatePoses` has returned `poses`. */
    method DrawEstimate(poses: seq<Pose>, rnd: seq<real>)
      requires |rnd| >= TextureRandoms
      modifies ctx
      ensures ctx.log == old(ctx.log) + EstimateCmds(poses, Classify(currentTemplate), ctx.width, ctx.height, rnd)
    {
      var clear := ClearRect(0.0, 0.0, ctx.width as real, ctx.height as real);
      ctx.Issue(clear);
      if |poses| > 0 && poses[0].score > PoseThreshold {
        DrawPoseOverlay(poses[0], rnd);
        AppendTwice(old(ctx.log), [clear], OverlayCmds(poses[0], Classify(currentTemplate), rnd));
      }
    }

    method DrawPoseOverlay(pose: Pose, rnd: seq<real>)
      requires |rnd| >= TextureRandoms
      modifies ctx
      ensures ctx.log == old(ctx.log) + OverlayCmds(pose, Classify(currentTemplate), rnd)
    {
      var anchor := ResolveAnchor(pose, LeftHip, RightHip);
      if anchor.Some? {
        var a := anchor.value;
        DrawTemplate(a.centerX, a.centerY, a.width, a.height, rnd);
      }
    }

    /** `drawTemplate`: the style settings, the switch on the template id, then the texture. */
    method DrawTemplate(x: real, y: real, w: real, h: real, rnd: seq<real>)
      requires |rnd| >= TextureRandoms
      modifies ctx
      ensures ctx.log == old(ctx.log) + TemplateCmds(Classify(currentTemplate), x, y, w, h, rnd)
    {
      ctx.Issue(SetFillStyle(Black));
      ctx.Issue(SetStrokeStyle(Black));
      ctx.Issue(SetLineWidth(2.0));
      ghost var styled := ctx.log;
      assert styled == old(ctx.log) + StyleCmds();

      var t := Classify(currentTemplate);
      if !Drawable(t) {
        // the default arm
        return;
      }
      DrawShape(t, x, y, w, h);

      // always true here: "none" has no drawing arm
      if currentTemplate != "none" {
        DrawHairTexture(x, y, w, h, rnd);
        AppendThrice(old(ctx.log), StyleCmds(), ShapeCmds(t, x, y, w, h), HairTexture(x, y, w, h, rnd));
      }
    }

    /** The switch arms of `drawTemplate` that draw a shape. */
    method DrawShape(t: Template, x: real, y: real, w: real, h: real)
      requires Drawable(t)
      modifies ctx
      ensures ctx.log == old(ctx.log) + ShapeCmds(t, x, y, w, h)
    {
      if SharedArm(t) {
        DrawSharedShape(ctx, t, x, y, w, h);
        return;
      }
      match t {
        case Lightning =>
          DrawLightning(x, y, w, h);
        case Star =>
          DrawStar(x, y, w);
      }
    }

    /** The `lightning` arm: a six-vertex path, closed and filled. */
    method DrawLightning(x: real, y: real, w: real, h: real)
      modifies ctx
      ensures ctx.log == old(ctx.log) + ShapeCmds(Lightning, x, y, w, h)
    {
      ctx.Issue(BeginPath);
      ctx.Issue(MoveTo(At(x - w / 2.0, y - h / 2.0)));
      ctx.Issue(LineTo(At(x, y)));
      ctx.Issue(LineTo(At(x - w / 4.0, y + h / 4.0)));
      ctx.Issue(LineTo(At(x + w / 2.0, y + h / 2.0)));
      ctx.Issue(LineTo(At(x, y + h / 4.0)));
      ctx.Issue(LineTo(At(x + w / 4.0, y)));
      ctx.Issue(ClosePath);
      ctx.Issue(Fill);
      assert ctx.log == old(ctx.log) + ([BeginPath] + Polyline(LightningPoints(x, y, w, h)) + [ClosePath, Fill]);
    }

    /** The `star` arm: ten vertices round (x, y) from the loop, closed and filled. */
    method DrawStar(x: real, y: real, w: real)
      modifies ctx
      ensures ctx.log == old(ctx.log) + [BeginPath] + Polyline(StarVertices(x, y, w)) + [ClosePath, Fill]
    {
      var points := StarPoints;
      var outerRadius := w / 2.0;
      var innerRadius := outerRadius / 2.0;
      ctx.Issue(BeginPath);
      for i := 0 to points * 2
        invariant ctx.log == old(ctx.log) + [BeginPath] + Polyline(StarVertices(x, y, w)[..i])
      {
        var radius := if i % 2 == 0 then outerRadius else innerRadius;
        var p := OnStar(x, y, radius, i);
        if i == 0 {
          ctx.Issue(MoveTo(p));
        } else {
          ctx.Issue(LineTo(p));
        }
        assert Polyline(StarVertices(x, y, w)[..i + 1]) == Polyline(StarVertices(x, y, w)[..i]) + [ctx.log[|ctx.log| - 1]];
      }
      assert StarVertices(x, y, w)[..points * 2] == StarVertices(x, y, w);
      ctx.Issue(ClosePath);
      ctx.Issue(Fill);
    }

    /** `drawHairTexture`: the texture style, then the 50 hairs. */
    method DrawHairTexture(x: real, y: real, w: real, h: real, rnd: seq<real>)
      requires |rnd| >= TextureRandoms
      modifies ctx
      ensures ctx.log == old(ctx.log) + HairTexture(x, y, w, h, rnd)
    {
      ctx.Issue(SetStrokeStyle(HairStyle));
      ctx.Issue(SetLineWidth(1.0));
      DrawHairs(ctx, x, y, w, h, rnd);
      AppendTwice(old(ctx.log), [SetStrokeStyle(HairStyle), SetLineWidth(1.0)], HairStrokes(x, y, w, h, rnd, HairCount));
    }
  }
}
