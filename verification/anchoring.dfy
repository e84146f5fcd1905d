/** Pose estimates and the anchor box derived from the two hip keypoints. */
module Anchoring {

  datatype Option<T> = None | Some(value: T)

  /** A named, scored keypoint in frame pixel coordinates. The older script reads the name from
      `part` and the coordinates from `position.x/y`; the newer app reads `name`, `x` and `y`. */
  datatype Keypoint = Keypoint(name: string, x: real, y: real, score: real)

  /** One detected body: an overall score and its keypoints, in the estimator's order. */
  datatype Pose = Pose(score: real, keypoints: seq<Keypoint>)

  /** The box the overlay is drawn in: its centre, width and height. */
  datatype Anchor = Anchor(centerX: real, centerY: real, width: real, height: real)

  /** A pose is drawn only when its overall score is strictly above this. */
  const PoseThreshold: real := 0.5
  /** Each hip keypoint must score strictly above this. */
  const HipThreshold: real := 0.2

  function Abs(r: real): (a: real)
    ensures a >= 0.0 && (a == r || a == -r)
  {
    if r < 0.0 then -r else r
  }

  function Min(a: real, b: real): real { if a <= b then a else b }
  function Max(a: real, b: real): real { if a <= b then b else a }

  /** The position of the first keypoint called `name`, if any. */
  function FindIndex(kps: seq<Keypoint>, name: string): (r: Option<nat>)
    ensures r.Some? ==> r.value < |kps| && kps[r.value].name == name
    ensures r.Some? ==> forall j | 0 <= j < r.value :: kps[j].name != name
    ensures r.None? ==> forall j | 0 <= j < |kps| :: kps[j].name != name
  {
    if kps == [] then None
    else if kps[0].name == name then Some(0)
    else match FindIndex(kps[1..], name)
      case None => None
      case Some(i) => Some(i + 1)
  }

  /** `kps[i]` is the first keypoint called `name`. */
  predicate FirstNamed(kps: seq<Keypoint>, i: int, name: string)
  {
    0 <= i < |kps| && kps[i].name == name && forall j | 0 <= j < i :: kps[j].name != name
  }

  /** `keypoints.find(k => k.name === name)`: the first keypoint called `name`, or nothing. */
  function Find(kps: seq<Keypoint>, name: string): (r: Option<Keypoint>)
    ensures r.Some? ==> exists i :: FirstNamed(kps, i, name) && r.value == kps[i]
    ensures forall i | FirstNamed(kps, i, name) :: r == Some(kps[i])
    ensures r.None? <==> forall k | k in kps :: k.name != name
  {
    match FindIndex(kps, name)
    case None => None
    case Some(i) => Some(kps[i])
  }

  /** The anchor arithmetic: centre between the hips, lowered by a third of the hip span;
      width 0.8 of the span, height 1.2 of the width. */
  function HipAnchor(left: Keypoint, right: Keypoint): (a: Anchor)
    ensures a.width >= 0.0 && a.height >= a.width
    ensures 5.0 * a.height == 6.0 * a.width
    ensures a.width == 0.0 <==> left.x == right.x
    ensures a.centerX - Min(left.x, right.x) == Max(left.x, right.x) - a.centerX
    ensures Min(left.x, right.x) <= a.centerX - a.width / 2.0
    ensures a.centerX + a.width / 2.0 <= Max(left.x, right.x)
    ensures 12.0 * (a.centerY - (left.y + right.y) / 2.0) == 5.0 * a.width
    ensures 5.0 * a.width == 4.0 * (Max(left.x, right.x) - Min(left.x, right.x))
    ensures 3.0 * (a.centerY - (left.y + right.y) / 2.0) == Max(left.x, right.x) - Min(left.x, right.x)
  {
    var span := Abs(left.x - right.x);
    var width := span * 0.8;
    Anchor((left.x + right.x) / 2.0, (left.y + right.y) / 2.0 + span / 3.0, width, width * 1.2)
  }

  /** Which hip is called left does not matter. */
  lemma HipAnchorSymmetric(left: Keypoint, right: Keypoint)
    ensures HipAnchor(left, right) == HipAnchor(right, left)
  {
    assert Abs(left.x - right.x) == Abs(right.x - left.x);
  }

  /** Only the hips' positions enter the anchor: names and scores do not. */
  lemma HipAnchorOfPositions(left: Keypoint, right: Keypoint, left': Keypoint, right': Keypoint)
    requires left'.x == left.x && left'.y == left.y && right'.x == right.x && right'.y == right.y
    ensures HipAnchor(left', right') == HipAnchor(left, right)
  {
  }

  /** Hips at (100, 200) and (140, 200) give the box centred at (120, 640/3), 32 wide, 38.4 high. */
  lemma HipAnchorExample()
    ensures HipAnchor(Keypoint("left_hip", 100.0, 200.0, 0.9), Keypoint("right_hip", 140.0, 200.0, 0.9))
         == Anchor(120.0, 640.0 / 3.0, 32.0, 38.4)
  {
  }

  /** The hip check of `drawPoseOverlay`: the first keypoints called `leftName` and `rightName`
      must both exist and both score above 0.2; the anchor is then computed from them. */
  function ResolveAnchor(pose: Pose, leftName: string, rightName: string): (r: Option<Anchor>)
    // an anchor exactly when the first keypoints of both names exist and both score above 0.2
    ensures r.Some? <==>
      exists i, j | FirstNamed(pose.keypoints, i, leftName) && FirstNamed(pose.keypoints, j, rightName) ::
        pose.keypoints[i].score > HipThreshold && pose.keypoints[j].score > HipThreshold
    // and then it is the anchor of those two keypoints
    ensures forall i, j | FirstNamed(pose.keypoints, i, leftName) && FirstNamed(pose.keypoints, j, rightName) ::
      r.Some? ==> r.value == HipAnchor(pose.keypoints[i], pose.keypoints[j])
    ensures (forall k | k in pose.keypoints :: k.name != leftName) ==> r.None?
    ensures (forall k | k in pose.keypoints :: k.name != rightName) ==> r.None?
    // one low-scoring hip is enough to draw nothing
    ensures forall i | FirstNamed(pose.keypoints, i, leftName) && pose.keypoints[i].score <= HipThreshold :: r.None?
    ensures forall j | FirstNamed(pose.keypoints, j, rightName) && pose.keypoints[j].score <= HipThreshold :: r.None?
  {
    var left := Find(pose.keypoints, leftName);
    var right := Find(pose.keypoints, rightName);
    if left.Some? && right.Some? && left.value.score > HipThreshold && right.value.score > HipThreshold
    then Some(HipAnchor(left.value, right.value))
    else None
  }
}
