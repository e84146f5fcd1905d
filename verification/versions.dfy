/** How the two versions of the app differ in what they draw. */
module Versions {
  import opened Drawing
  import opened Anchoring
  import opened Templates
  import Overlay
  import Legacy

  /** The PoseNet part name of a MoveNet keypoint name: only the two hips are renamed. */
  function PartName(name: string): string
  {
    if name == Overlay.LeftHip then Legacy.LeftHip
    else if name == Overlay.RightHip then Legacy.RightHip
    else name
  }

  /** The same keypoints reported under PoseNet's names. */
  function ToPoseNet(kps: seq<Keypoint>): (r: seq<Keypoint>)
    ensures |r| == |kps|
    ensures forall i | 0 <= i < |kps| ::
      r[i].x == kps[i].x && r[i].y == kps[i].y && r[i].score == kps[i].score
  {
    if kps == [] then []
    else [kps[0].(name := PartName(kps[0].name))] + ToPoseNet(kps[1..])
  }

  /** No keypoint already carries one of PoseNet's hip names. */
  predicate NoPoseNetHips(kps: seq<Keypoint>)
  {
    forall k | k in kps :: k.name != Legacy.LeftHip && k.name != Legacy.RightHip
  }

  /** Looking up a hip under its PoseNet name after renaming finds the same position as looking
      it up under its MoveNet name before. */
  lemma {:induction false} FindIndexRenamed(kps: seq<Keypoint>, hip: string)
    requires hip == Overlay.LeftHip || hip == Overlay.RightHip
    requires NoPoseNetHips(kps)
    ensures FindIndex(ToPoseNet(kps), PartName(hip)) == FindIndex(kps, hip)
    decreases |kps|
  {
    if kps != [] {
      var r := ToPoseNet(kps);
      assert r[1..] == ToPoseNet(kps[1..]);
      assert r[0].name == PartName(hip) <==> kps[0].name == hip;
      assert NoPoseNetHips(kps[1..]) by {
        forall k | k in kps[1..] ensures k.name != Legacy.LeftHip && k.name != Legacy.RightHip {
          assert k in kps;
        }
      }
      FindIndexRenamed(kps[1..], hip);
    }
  }

  /** The hip check and the anchor agree between the versions: a pose whose hips are reported
      under PoseNet's names yields exactly the anchor the newer app derives from MoveNet's names. */
  lemma SameAnchorAcrossVersions(pose: Pose)
    requires NoPoseNetHips(pose.keypoints)
    ensures ResolveAnchor(Pose(pose.score, ToPoseNet(pose.keypoints)), Legacy.LeftHip, Legacy.RightHip)
         == ResolveAnchor(pose, Overlay.LeftHip, Overlay.RightHip)
  {
    var kps := pose.keypoints;
    var r := ToPoseNet(kps);
    FindIndexRenamed(kps, Overlay.LeftHip);
    FindIndexRenamed(kps, Overlay.RightHip);
    var li := FindIndex(kps, Overlay.LeftHip);
    var ri := FindIndex(kps, Overlay.RightHip);
    assert FindIndex(r, Legacy.LeftHip) == li;
    assert FindIndex(r, Legacy.RightHip) == ri;
    if li.Some? && ri.Some? {
      var l, rt := kps[li.value], kps[ri.value];
      var l', rt' := r[li.value], r[ri.value];
      assert Find(kps, Overlay.LeftHip) == Some(l) && Find(kps, Overlay.RightHip) == Some(rt);
      assert Find(r, Legacy.LeftHip) == Some(l') && Find(r, Legacy.RightHip) == Some(rt');
      HipAnchorOfPositions(l, rt, l', rt');
    }
  }

  /** Both versions draw the same rectangles, triangle and heart, and nothing for "none" or an
      unknown id. */
  lemma ShapesAgreeExceptLightningAndStar(t: Template, x: real, y: real, w: real, h: real)
    requires !t.Lightning? && !t.Star?
    ensures Overlay.ShapeCmds(t, x, y, w, h) == Legacy.ShapeCmds(t, x, y, w, h)
    ensures !Drawable(t) ==> Legacy.ShapeCmds(t, x, y, w, h) == []
  {
  }

  /** The lightning bolts visit the same six corners; the newer one closes and fills the path,
      the older one returns to the first corner and strokes it. */
  lemma LightningVersions(x: real, y: real, w: real, h: real)
    ensures var o := Overlay.ShapeCmds(Lightning, x, y, w, h);
      var l := Legacy.ShapeCmds(Lightning, x, y, w, h);
      |o| == |l| == 9 && o[..7] == l[..7] &&
      o[7..] == [ClosePath, Fill] && l[7..] == [LineTo(LightningPoints(x, y, w, h)[0]), Stroke]
  {
    Overlay.LightningTemplateShape(x, y, w, h);
    Legacy.LightningTemplateShape(x, y, w, h);
  }

  /** The stars have the same ten vertices, closed and filled; only the first vertex differs,
      a `moveTo` in the newer app and a `lineTo` in the older one. */
  lemma StarVersions(x: real, y: real, w: real, h: real)
    ensures var o := Overlay.ShapeCmds(Star, x, y, w, h);
      var l := Legacy.ShapeCmds(Star, x, y, w, h);
      |o| == |l| == 13 && o[0] == l[0] == BeginPath &&
      o[1] == MoveTo(StarVertex(x, y, w, 0)) && l[1] == LineTo(StarVertex(x, y, w, 0)) &&
      o[2..] == l[2..]
  {
    Overlay.StarTemplateShape(x, y, w, h);
    Legacy.StarTemplateShape(x, y, w, h);
  }

  /** The texture, for every id except "none": the older app draws its shape and then the 50
      hairs; the newer one draws its own shape, then its translucent 1 px style and the same 50
      hairs, except for an unknown id, where it stops after the style settings. Where the shapes
      agree the only difference is that inserted style. */
  lemma TextureVersions(t: Template, x: real, y: real, w: real, h: real, rnd: seq<real>)
    requires |rnd| >= TextureRandoms
    requires !t.Blank?
    ensures var o := Overlay.TemplateCmds(t, x, y, w, h, rnd);
      var l := Legacy.TemplateCmds(t, x, y, w, h, rnd);
      var hairs := HairStrokes(x, y, w, h, rnd, HairCount);
      var texStyle := [SetStrokeStyle(Overlay.HairStyle), SetLineWidth(1.0)];
      var n := 3 + |Legacy.ShapeCmds(t, x, y, w, h)|;
      n <= |l| && l[..n] == StyleCmds() + Legacy.ShapeCmds(t, x, y, w, h) && l[n..] == hairs &&
      (t.Unrecognized? ==> o == StyleCmds()) &&
      (!t.Unrecognized? ==> o == StyleCmds() + Overlay.ShapeCmds(t, x, y, w, h) + texStyle + hairs) &&
      (SharedArm(t) ==> o == l[..n] + texStyle + l[n..])
  {
    var s := Legacy.ShapeCmds(t, x, y, w, h);
    var hairs := HairStrokes(x, y, w, h, rnd, HairCount);
    assert Legacy.TemplateCmds(t, x, y, w, h, rnd) == (StyleCmds() + s) + hairs;
    Split2(StyleCmds() + s, hairs);
    if t.Unrecognized? {
      Overlay.UndrawableDrawsNothing(t, x, y, w, h, rnd);
    } else {
      Overlay.TemplateCmdsInParts(t, x, y, w, h, rnd);
      if SharedArm(t) {
        ShapesAgreeExceptLightningAndStar(t, x, y, w, h);
      }
    }
  }
}
