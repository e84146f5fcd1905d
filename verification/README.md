# Pubic AR overlay — a Dafny model

The app films the user with the front camera, estimates a body pose on each animation frame,
and draws a chosen "hair template" over the area between the hips. The area is a box anchored at
the two hip keypoints. It exists in two versions:

- `src/main.js`: the class `PubicARApp` (MoveNet detector). Its render loop is throttled to one
  estimate every 200 ms and can be stopped with a run flag.
- `main.js`: an older single script (PoseNet). It estimates on every ready frame, and its
  `drawTemplate` differs in the lightning and star paths and in when the texture is drawn.

The model covers, for both versions, the per-frame decision (skip, reschedule, estimate), the
score and hip gating, the anchor arithmetic, the template dispatch, and the 50-stroke hair texture.

- **Canvas.** The 2D canvas is a `Canvas` object holding an append-only log of `DrawCmd` values
  (`fillRect`, `moveTo`, `lineTo`, `bezierCurveTo`, `closePath`, `fill`, `stroke`, style
  settings). Every drawing method is proved to append exactly the commands given by a pure
  function of its inputs.
- **Randomness.** `Math.random()` is a sequence `rnd` of reals in [0, 1). The k-th call reads
  `rnd[k]`. Each hair uses four values, so one texture pass uses 200.
- **Pose estimator.** It is an input: either the poses it returned, or a failure standing for a
  rejected promise.
- **Clock.** `Date.now()` is the `now` field of a tick's input.

Modules:

| module | file | contents |
|---|---|---|
| `Drawing` | drawing.dfy | points, canvas commands, the `Canvas` class |
| `Frames` | frames.dfy | how a tick ends; estimator results |
| `Anchoring` | anchoring.dfy | keypoints, poses, `find` by name, the hip anchor |
| `Templates` | templates.dfy | template ids and the geometry both versions share (rectangles, triangle, heart, lightning corners, star vertices, hair strokes) |
| `Overlay` | overlay.dfy | `src/main.js`: tick, overlay and template functions; class `PubicARApp` |
| `Legacy` | legacy.dfy | `main.js`: the same for the older script; class `LegacyScript` and its `drawTemplate` |
| `Versions` | versions.dfy | lemmas relating what the two versions draw |

Behaviour of the code that a reader might not expect, all of it followed by the model:

- Only the first pose, `poses[0]`, is considered by `src/main.js`. It is not the highest-scoring
  pose.
- In `src/main.js` the constructor sets `lastDetectionTime` to 0. With a real `Date.now()`, the
  first tick is therefore always due. `Overlay.ThrottleExample` shows that ticks at 0, 50, 120
  and 210 ms sample at 0 and 210 only when the previous sample is at least 200 ms older. Starting
  from a last sample at 0, they sample at 210 only.
- In `main.js`, the `default` arm of the template switch breaks instead of returning. An
  unrecognised template id therefore gets the hair texture, with no shape under it. In
  `src/main.js` it gets neither.
- In `main.js`, a rejected `estimateSinglePose` is not caught. The callback ends without
  requesting another frame, which ends the loop (`Halted`). In `src/main.js` the error is caught
  and the loop goes on.
- `main.js` is written with typographic quote characters around its string literals. The model
  reads them as ordinary string quotes.

## Model

| member | source | states |
|---|---|---|
| Anchoring.FindIndex | src/main.js:150-151 | the index of the first keypoint with the given name; no earlier keypoint has it; none means no keypoint has it |
| Anchoring.Find | src/main.js:150-151 | `keypoints.find` by name: a found keypoint is the first one with the name; if some keypoint has the name, the first such one is found; nothing is found exactly when no keypoint has the name |
| Anchoring.HipAnchor | src/main.js:154-157 | width is 0.8 × the hip span (the distance between the hip xs), so it is non-negative and zero exactly when the hips share an x; height = 1.2 × width; centerX is the midpoint of the hip xs; the box lies between the hips horizontally; centerY is the mean hip y lowered by a third of the span |
| Anchoring.HipAnchorSymmetric | src/main.js:154-157 | swapping the two hips gives the same anchor |
| Anchoring.HipAnchorOfPositions | main.js:55-58 | only the hips' positions enter the anchor; names and scores do not |
| Anchoring.HipAnchorExample | src/main.js:154-157 | hips at (100, 200) and (140, 200) give centre (120, 640/3), width 32, height 38.4 |
| Anchoring.ResolveAnchor | src/main.js:150-157 | an anchor exists exactly when the first keypoints with the two hip names both exist and both score above 0.2, and it is then the HipAnchor of those two keypoints; a missing hip gives none, and so does a first hip keypoint (either one) scoring at most 0.2 |
| Templates.ClassifyIdRoundTrip | src/main.js:168-231 | the eight template ids and the template kinds are in one-to-one correspondence; every other string is unrecognised; the kind is "blank" exactly for "none" |
| Templates.RectsCentredInBox | src/main.js:169-179 | the full, brazilian and landing-strip rectangles have widths w, w/4 and w/2 and height h, are centred on (x, y) and lie inside the anchor box |
| Templates.TriangleShape | src/main.js:181-188 | three vertices, all in the box: the apex at the top centre, the base on the bottom edge symmetric about x; then closePath and fill |
| Templates.HeartClosedInBox | src/main.js:190-196 | both curves start and end at (x, y + h/4); every control point is in the box; filled without closePath |
| Templates.DrawSharedShape | src/main.js:169-196 | the rectangle, triangle and heart arms append exactly their shape's commands to the canvas |
| Templates.LightningInBox | src/main.js:198-208 | six corners, all in the box, from the top-left corner to the bottom-right one |
| Templates.StarVertices | src/main.js:210-228 | the star has 2 × 5 vertices |
| Templates.StarShape | src/main.js:210-228 | vertex i is centred on (x, y) with step i and radius w/2 at even i and w/4 at odd i; no radius exceeds w/2 |
| Templates.DrawHairs | src/main.js:244-251 | the 50-iteration loop appends exactly the 50 hair strokes drawn from the injected random numbers |
| Templates.HairStrokeInBox | src/main.js:245-250 | with random numbers in [0, 1), a hair begins a path, starts inside the box, ends within 5 px of its start on each axis, and is stroked |
| Templates.HairStrokesShape | src/main.js:244-251 | n iterations give exactly 4n commands, forming n hairs that each start in the box and end within 5 px |
| Overlay.TickSpec | src/main.js:119-147 | the loop reschedules exactly while running; a due tick (200 ms or more since the last sample) sets lastDetectionTime to now even if not ready; the estimator runs exactly when running, due, the video plays and the detector is loaded; the canvas is touched only after a successful estimate and is cleared first; anything more is the overlay of poses[0], which scored above 0.5 and had confident hips; and when poses[0] scores above 0.5 its overlay is drawn right after the clear |
| Overlay.OverlayDrawnIffConfidentHips | src/main.js:149-161 | the overlay draws something exactly when the left_hip/right_hip check finds an anchor, and it then begins with the three style settings |
| Overlay.UndrawableDrawsNothing | src/main.js:230-237 | "none" and unknown ids draw only the three style settings: no shape and no texture |
| Overlay.DrawableDrawsTexture | src/main.js:234-251 | every other known id draws its shape, then the texture style, then exactly 50 hairs, each starting in the box and ending within 5 px of its start |
| Overlay.StarTemplateShape | src/main.js:210-228 | the star arm is beginPath, a moveTo to vertex 0, lineTo's to vertices 1 to 9, closePath, fill |
| Overlay.LightningTemplateShape | src/main.js:198-208 | the lightning arm is beginPath, moveTo and five lineTo's through the six corners, closePath, fill |
| Overlay.LowScoreOnlyClears | src/main.js:136-140 | with no pose, or a first pose scoring at most 0.5, a successful estimate only clears the canvas |
| Overlay.SampleTimes | src/main.js:122-127 | the times at which a running loop updates lastDetectionTime are a subsequence of its tick times |
| Overlay.SamplesSpaced | src/main.js:122-127 | the first of those times is at least 200 ms after the starting lastDetectionTime, and each later one at least 200 ms after the one before |
| Overlay.SubsequenceSpaced | src/main.js:122-127 | leaving times out of a sequence spaced by at least 200 ms keeps it spaced |
| Overlay.Run | src/main.js:119-147 | ticks of a running loop, each from the lastDetectionTime the previous one left, give one effect per tick, and every one of them reschedules |
| Overlay.RunSlots | src/main.js:122-127 | in such a run, the ticks the throttle lets through are exactly those at SampleTimes of the tick times |
| Overlay.SampledWithinSlots | src/main.js:122-131 | every tick that invokes the estimator is one the throttle let through: the sampled times are a subsequence of those |
| Overlay.RunSampledSpaced | src/main.js:119-147 | over a whole run, the times the estimator is invoked are a subsequence of SampleTimes and are at least 200 ms apart, the first one 200 ms after the starting lastDetectionTime |
| Overlay.ThrottleExample | src/main.js:122-127 | ticks at 0, 50, 120 and 210 ms sample at 0 and 210 after an old sample, and at 210 only from lastDetectionTime 0 |
| Overlay.PubicARApp.constructor | src/main.js:5-17 | no detector, template "none", lastDetectionTime 0, not running |
| Overlay.PubicARApp.LoadDetector | src/main.js:54-68 | the detector is present afterwards; nothing else changes |
| Overlay.PubicARApp.SelectTemplate | src/main.js:104-108 | the change listener sets the current template; nothing else changes |
| Overlay.PubicARApp.StartDetection | src/main.js:110-113 | sets the run flag, then runs one tick, which reschedules, as given by TickSpec |
| Overlay.PubicARApp.StopDetection | src/main.js:115-117 | clears the run flag and changes nothing else, so the next tick halts (TickSpec) |
| Overlay.PubicARApp.DetectAndDraw | src/main.js:119-147 | the outcome, the new lastDetectionTime and the commands appended are those of TickSpec |
| Overlay.PubicARApp.DrawEstimate | src/main.js:134-143 | appends the clear, then the overlay of poses[0] if it scores above 0.5 |
| Overlay.PubicARApp.DrawPoseOverlay | src/main.js:149-161 | appends the template drawn at the resolved anchor, or nothing without confident hips |
| Overlay.PubicARApp.DrawTemplate | src/main.js:163-238 | appends the style settings, then the arm's shape and the texture, or stops after the style for "none" and unknown ids |
| Overlay.PubicARApp.DrawShape | src/main.js:168-228 | appends exactly the shape of the selected arm |
| Overlay.PubicARApp.DrawLightning | src/main.js:198-208 | appends the six-corner lightning path, closed and filled |
| Overlay.PubicARApp.DrawStar | src/main.js:210-228 | the 10-iteration loop appends moveTo to the first vertex and lineTo to the others, then closePath and fill |
| Overlay.PubicARApp.DrawHairTexture | src/main.js:240-252 | appends the translucent 1 px stroke style, then the 50 hairs |
| Legacy.LightningOutline | main.js:106-112 | seven points, the last equal to the first, the first six being the lightning corners |
| Legacy.TickSpec | main.js:40-65 | never throttled; a paused or ended video, or no model, only reschedules; otherwise the estimator runs; a rejected estimate ends the loop without drawing; a successful one clears the canvas first; anything more is the overlay of a pose that scored above 0.5 and had confident leftHip/rightHip keypoints; and when the pose scores above 0.5 its overlay is drawn right after the clear |
| Legacy.OverlayDrawnIffConfidentHips | main.js:50-62 | the overlay draws something exactly when the leftHip/rightHip check finds an anchor, and it then begins with the three style settings |
| Legacy.NoneDrawsOnlyStyle | main.js:129-135 | "none" draws only the three style settings |
| Legacy.TextureUnlessNone | main.js:129-144 | every other id, unknown ones included, draws its shape (nothing exactly for unknown ids) and then exactly 50 hairs in the box, each ending within 5 px of its start |
| Legacy.LightningTemplateShape | main.js:103-114 | beginPath, moveTo the first corner, lineTo's through the other five and back to the first, stroke; no closePath and no fill |
| Legacy.StarTemplateShape | main.js:115-128 | beginPath, lineTo's to all ten vertices with no moveTo, closePath, fill |
| Legacy.LowScoreOnlyClears | main.js:47-49 | a pose scoring at most 0.5 leaves only the clear on the canvas |
| Legacy.LegacyScript.constructor | main.js:7-8 | no model loaded; template "none" |
| Legacy.LegacyScript.LoadPoseNet | main.js:11-19 | the model is present afterwards; the template is unchanged |
| Legacy.LegacyScript.SelectTemplate | main.js:148-150 | the change listener sets the current template |
| Legacy.LegacyScript.DetectAndDraw | main.js:40-65 | the outcome and the commands appended are those of Legacy.TickSpec |
| Legacy.LegacyScript.DrawEstimate | main.js:47-62 | appends the clear, then, if the pose scores above 0.5, the template at the hip anchor |
| Legacy.DrawTemplate | main.js:68-145 | appends the style settings, the arm's shape and, unless the id is "none", the 50 hairs |
| Legacy.DrawShape | main.js:73-132 | appends exactly the shape of the selected arm; nothing for the default arm |
| Legacy.DrawLightning | main.js:103-114 | appends the seven-point lightning outline and its stroke |
| Legacy.DrawStar | main.js:115-128 | the 10-iteration loop appends a lineTo for every vertex, then closePath and fill |
| Versions.FindIndexRenamed | main.js:50-51 | when the keypoints are renamed to PoseNet's part names, looking up leftHip/rightHip finds the same position as looking up left_hip/right_hip before |
| Versions.SameAnchorAcrossVersions | main.js:50-58 | the same keypoints under either naming give the same hip decision and the same anchor in both versions |
| Versions.ShapesAgreeExceptLightningAndStar | main.js:73-102 | the rectangles, triangle and heart are drawn identically by both versions; "none" and unknown ids draw no shape in either |
| Versions.LightningVersions | main.js:103-114 | both versions visit the same six corners; the newer one closes and fills, the older one returns to the first corner and strokes |
| Versions.StarVersions | main.js:115-128 | both stars have the same ten vertices, closed and filled; only the first is a moveTo in the newer version and a lineTo in the older |
| Versions.TextureVersions | main.js:129-144 | for every id but "none", the older version draws the style, its shape and then 50 hairs; the newer one draws the style, its own shape, its texture style and the same 50 hairs, except for an unknown id, where it draws only the style; where the shapes agree it is the older one's commands with the texture style inserted before the hairs |

## Left out

- Camera acquisition, `getUserMedia`, video metadata, the loading and error UI, and `alert`. These are browser I/O. The canvas size is a constant of the `Canvas` object.
- Model loading (`createDetector`, `posenet.load`). This is modelled only as the flag it sets, or not at all on failure.
- The pose estimators `estimatePoses` and `estimateSinglePose`. They are foreign code; their result is an input of the tick.
- `requestAnimationFrame`, `tf.nextFrame` and the interleaving at `await`. A tick is one atomic step that returns whether it rescheduled. So a `stopDetection` that lands while an estimate is in flight is not modelled, and neither is the callback that still draws after it.
- `Math.cos` and `Math.sin`. Star vertices are symbolic (`OnStar`), so their positions in the box are not proved, only their centre, radius and order.
- Bézier interiors and pixel rendering. The canvas is a command log. That a `lineTo` on an empty path acts as a `moveTo`, which matters for the older star, is not modelled.
- Floating point. All coordinates are exact reals.
- `init`, `showLoading`, `hideLoading`, `showError`, `setupCamera` (src/main.js:19-102), the service worker (public/sw.js) and the build configuration (vite.config.js). None of them holds overlay logic.
