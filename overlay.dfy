/**
 * The detector's face feature, the four overlay elements and the targets the
 * pipeline computes for them from one complete feature.
 */
module Overlay {

  import opened Geometry

  /**
   * A face feature as the detector reports it: three landmark positions in
   * capture-image space, the face angle in degrees, and a presence flag for each.
   */
  datatype Feature = Feature(
    leftEyePosition: Point, hasLeftEyePosition: bool,
    rightEyePosition: Point, hasRightEyePosition: bool,
    mouthPosition: Point, hasMouthPosition: bool,
    faceAngle: real, hasFaceAngle: bool)

  /** Only a feature with all four parts present is used. */
  predicate IsComplete(f: Feature) {
    f.hasLeftEyePosition && f.hasRightEyePosition && f.hasMouthPosition && f.hasFaceAngle
  }

  /** What the pipeline controls of an on-screen element: its center and its rotation (radians). */
  datatype Element = Element(center: Point, rotation: real)

  /** The four overlay elements, named after the views they model. */
  datatype Overlay = Overlay(leftEyeView: Element, rightEyeView: Element, mouthView: Element, beardView: Element)

  /** Which of the detector's eyes a position belongs to. */
  datatype Eye = Left | Right

  /** The fraction of the mouth-to-eye-line distance by which the beard is pulled toward the eyes. */
  const CorrectionFactor := 0.1

  /** The eye marker's target: the mapped point less the offset (2,2), from which the position can be recovered. */
  function EyeTarget(position: Point, capture: Size, screen: Size): (r: Point)
    requires IsPositive(capture)
    ensures r == MapPoint(position, capture, screen, Point(2.0, 2.0))
  {
    MapPoint(position, capture, screen, EyeOffset)
  }

  /** The mouth marker's target: the mapped point less the offset (15,1). */
  function MouthTarget(position: Point, capture: Size, screen: Size): (r: Point)
    requires IsPositive(capture)
    ensures r == MapPoint(position, capture, screen, Point(15.0, 1.0))
  {
    MapPoint(position, capture, screen, MouthOffset)
  }

  function Min(a: real, b: real): real { if a <= b then a else b }

  function Max(a: real, b: real): real { if a <= b then b else a }

  /**
   * The beard's vertical position: the mouth's y moved by the correction
   * factor toward the mid-eye y, so that 90% of the distance is left.
   */
  function CorrectedY(mouthY: real, midEyeY: real): (y: real)
    ensures y - midEyeY == (1.0 - CorrectionFactor) * (mouthY - midEyeY)
    ensures Min(mouthY, midEyeY) <= y <= Max(mouthY, midEyeY)
  {
    var distance := mouthY - midEyeY;
    var correction := distance * CorrectionFactor;
    mouthY - correction
  }

  /** Mid-eye 100 and mouth 150 put the beard at 145. */
  lemma CorrectedYExample()
    ensures CorrectedY(150.0, 100.0) == 145.0
  {
  }

  /** With the mouth on the eye line there is no correction. */
  lemma CorrectedYAtEyeLine(y: real)
    ensures CorrectedY(y, y) == y
  {
  }

  /**
   * The beard target: the mapped mouth point (with the mouth's offset) with its
   * y corrected toward the mean y of the two mapped eye points.
   */
  function BeardTarget(leftEye: Point, rightEye: Point, mouth: Point, capture: Size, screen: Size): (r: Point)
    requires IsPositive(capture)
    ensures r.x == MouthTarget(mouth, capture, screen).x
    ensures var m := MouthTarget(mouth, capture, screen).y;
            var mid := (EyeTarget(rightEye, capture, screen).y + EyeTarget(leftEye, capture, screen).y) / 2.0;
            Min(m, mid) <= r.y <= Max(m, mid) && r.y - mid == (1.0 - CorrectionFactor) * (m - mid)
  {
    var newMouth := MouthTarget(mouth, capture, screen);
    var newLeftEye := EyeTarget(leftEye, capture, screen);
    var newRightEye := EyeTarget(rightEye, capture, screen);
    var midEyeY := (newRightEye.y + newLeftEye.y) / 2.0;
    Point(newMouth.x, CorrectedY(newMouth.y, midEyeY))
  }

  /**
   * The overlay after one complete feature: the detector's left eye moves the
   * right-eye view and its right eye the left-eye view (their rotations are
   * kept), the mouth view and the beard view are placed and both get the
   * rotation of the face angle.
   */
  function Updated(o: Overlay, f: Feature, capture: Size, screen: Size, pi: real): (r: Overlay)
    requires IsPositive(capture)
    ensures r.leftEyeView.rotation == o.leftEyeView.rotation
    ensures r.rightEyeView.rotation == o.rightEyeView.rotation
    ensures r.mouthView.rotation == r.beardView.rotation == Rotation(f.faceAngle, pi)
    ensures r.beardView.center.x == r.mouthView.center.x
  {
    var angle := Rotation(f.faceAngle, pi);
    Overlay(
      o.leftEyeView.(center := EyeTarget(f.rightEyePosition, capture, screen)),
      o.rightEyeView.(center := EyeTarget(f.leftEyePosition, capture, screen)),
      Element(MouthTarget(f.mouthPosition, capture, screen), angle),
      Element(BeardTarget(f.leftEyePosition, f.rightEyePosition, f.mouthPosition, capture, screen), angle))
  }

  /** The crossed routing of the eyes: each detector eye drives the opposite view. */
  lemma CrossedEyeRouting(o: Overlay, f: Feature, capture: Size, screen: Size, pi: real)
    requires IsPositive(capture)
    ensures Updated(o, f, capture, screen, pi).rightEyeView.center == EyeTarget(f.leftEyePosition, capture, screen)
    ensures Updated(o, f, capture, screen, pi).leftEyeView.center == EyeTarget(f.rightEyePosition, capture, screen)
  {
  }

  /**
   * The detector's left-eye position reaches no view but the right-eye view
   * and, through the mid-eye line, the beard.
   */
  lemma LeftEyeReachesOnlyRightEyeView(o: Overlay, f: Feature, g: Feature, capture: Size, screen: Size, pi: real)
    requires IsPositive(capture)
    requires f.rightEyePosition == g.rightEyePosition && f.mouthPosition == g.mouthPosition
    requires f.faceAngle == g.faceAngle
    ensures Updated(o, f, capture, screen, pi).leftEyeView == Updated(o, g, capture, screen, pi).leftEyeView
    ensures Updated(o, f, capture, screen, pi).mouthView == Updated(o, g, capture, screen, pi).mouthView
  {
  }

  /**
   * The detector's right-eye position reaches no view but the left-eye view
   * and, through the mid-eye line, the beard.
   */
  lemma RightEyeReachesOnlyLeftEyeView(o: Overlay, f: Feature, g: Feature, capture: Size, screen: Size, pi: real)
    requires IsPositive(capture)
    requires f.leftEyePosition == g.leftEyePosition && f.mouthPosition == g.mouthPosition
    requires f.faceAngle == g.faceAngle
    ensures Updated(o, f, capture, screen, pi).rightEyeView == Updated(o, g, capture, screen, pi).rightEyeView
    ensures Updated(o, f, capture, screen, pi).mouthView == Updated(o, g, capture, screen, pi).mouthView
  {
  }

  /** The mirror is kept: a detector left eye left of the right eye puts the right-eye view right of the left-eye view. */
  lemma EyeViewsMirrored(o: Overlay, f: Feature, capture: Size, screen: Size, pi: real)
    requires IsPositive(capture) && screen.width > 0.0
    requires f.leftEyePosition.x < f.rightEyePosition.x
    ensures Updated(o, f, capture, screen, pi).rightEyeView.center.x > Updated(o, f, capture, screen, pi).leftEyeView.center.x
  {
    MapMirrorsX(f.leftEyePosition, f.rightEyePosition, capture, screen, EyeOffset);
  }

  /** Eyes at (10,10) and (90,10) in a 100x100 capture on a 100x100 screen: the views land at x 88 and 8. */
  lemma EyeViewsMirroredExample(o: Overlay, f: Feature, pi: real)
    requires f.leftEyePosition == Point(10.0, 10.0) && f.rightEyePosition == Point(90.0, 10.0)
    ensures var r := Updated(o, f, Size(100.0, 100.0), Size(100.0, 100.0), pi);
            r.rightEyeView.center == Point(88.0, -12.0) && r.leftEyeView.center == Point(8.0, -12.0)
  {
  }

  /**
   * The detection stage: the first feature, if there is one and it is
   * complete, updates the overlay; otherwise the overlay is left as it was.
   */
  function Detect(o: Overlay, features: seq<Feature>, capture: Size, screen: Size, pi: real): (r: Overlay)
    requires IsPositive(capture)
    ensures |features| > 0 && IsComplete(features[0]) ==> r == Updated(o, features[0], capture, screen, pi)
    ensures !(|features| > 0 && IsComplete(features[0])) ==> r == o
  {
    if |features| > 0 && IsComplete(features[0]) then Updated(o, features[0], capture, screen, pi) else o
  }

  /** No feature, or an incomplete first feature, leaves every element's center and rotation unchanged. */
  lemma DetectWithoutCompleteFeature(o: Overlay, features: seq<Feature>, capture: Size, screen: Size, pi: real)
    requires IsPositive(capture)
    requires |features| == 0 || !IsComplete(features[0])
    ensures Detect(o, features, capture, screen, pi) == o
  {
  }

  /** Features after the first are ignored. */
  lemma DetectUsesFirstFeatureOnly(o: Overlay, f: Feature, rest: seq<Feature>, capture: Size, screen: Size, pi: real)
    requires IsPositive(capture)
    ensures Detect(o, [f] + rest, capture, screen, pi) == Detect(o, [f], capture, screen, pi)
  {
  }

  /** A complete first feature is used. */
  lemma DetectWithCompleteFeature(o: Overlay, features: seq<Feature>, capture: Size, screen: Size, pi: real)
    requires IsPositive(capture)
    requires |features| > 0 && IsComplete(features[0])
    ensures Detect(o, features, capture, screen, pi) == Updated(o, features[0], capture, screen, pi)
  {
  }
}
