/**
 * The per-frame gate of the capture delegate: the frame counter, the capture
 * extent that is fixed by the first buffered frame, and the one-frame-in-four
 * detection that decides whether the overlay is rewritten. The queues the
 * work is dispatched to are modelled as running in sequence.
 */
module Capture {

  import opened Wrappers
  import opened Geometry
  import opened Overlay

  /**
   * One sample delivered to the delegate: either it carries no image buffer,
   * or it carries an image with its (rotated) extent and the features the
   * detector reports for that image.
   */
  datatype SampleBuffer = NoImage | Image(extent: Size, faces: seq<Feature>)

  predicate IsWellFormed(b: SampleBuffer) {
    b.Image? ==> IsPositive(b.extent)
  }

  /** What the delegate keeps between frames. */
  datatype State = State(frame: nat, ciSize: Option<Size>, overlay: Overlay)

  predicate IsValid(s: State) {
    s.ciSize.Some? ==> IsPositive(s.ciSize.value)
  }

  /** Detection runs on a frame exactly when the counter, before it is incremented, is a multiple of 4. */
  predicate ShouldProcess(frame: nat) {
    frame % 4 == 0
  }

  /**
   * The effect of one sample. A sample without an image buffer changes
   * nothing. Otherwise the extent is stored if none is stored yet, the
   * detection stage runs with the stored extent when the gate is open, and the
   * counter goes up by one.
   */
  function Step(s: State, b: SampleBuffer, screen: Size, pi: real): (r: State)
    requires IsValid(s) && IsWellFormed(b)
    ensures IsValid(r)
  {
    match b
    case NoImage => s
    case Image(extent, faces) =>
      var size := if s.ciSize.Some? then s.ciSize.value else extent;
      var overlay := if ShouldProcess(s.frame) then Detect(s.overlay, faces, size, screen, pi) else s.overlay;
      State(s.frame + 1, Some(size), overlay)
  }

  /** A frame without an image buffer changes neither the counter, nor the extent, nor any element. */
  lemma NoImageChangesNothing(s: State, screen: Size, pi: real)
    requires IsValid(s)
    ensures Step(s, NoImage, screen, pi) == s
  {
  }

  /** A buffered frame increments the counter by exactly one. */
  lemma ImageIncrementsFrame(s: State, extent: Size, faces: seq<Feature>, screen: Size, pi: real)
    requires IsValid(s) && IsPositive(extent)
    ensures Step(s, Image(extent, faces), screen, pi).frame == s.frame + 1
  {
  }

  /** The first buffered frame fixes the extent; a later one, whatever its extent, leaves it. */
  lemma ExtentSetOnce(s: State, extent: Size, faces: seq<Feature>, screen: Size, pi: real)
    requires IsValid(s) && IsPositive(extent)
    ensures s.ciSize == None ==> Step(s, Image(extent, faces), screen, pi).ciSize == Some(extent)
    ensures s.ciSize != None ==> Step(s, Image(extent, faces), screen, pi).ciSize == s.ciSize
  {
  }

  /** The overlay changes only on a buffered frame whose counter is a multiple of 4 and whose first feature is complete. */
  lemma OverlayChangesOnlyThroughGate(s: State, b: SampleBuffer, screen: Size, pi: real)
    requires IsValid(s) && IsWellFormed(b)
    requires Step(s, b, screen, pi).overlay != s.overlay
    ensures b.Image? && ShouldProcess(s.frame) && |b.faces| > 0 && IsComplete(b.faces[0])
  {
  }

  /**
   * Conversely, a buffered sample whose counter is a multiple of 4 and whose
   * first feature is complete updates the overlay from that feature, mapped
   * with the stored extent (or this sample's, if none is stored yet).
   */
  lemma OverlayUpdatedThroughGate(s: State, extent: Size, faces: seq<Feature>, screen: Size, pi: real)
    requires IsValid(s) && IsPositive(extent)
    requires ShouldProcess(s.frame) && |faces| > 0 && IsComplete(faces[0])
    ensures var size := if s.ciSize.Some? then s.ciSize.value else extent;
            Step(s, Image(extent, faces), screen, pi).overlay == Updated(s.overlay, faces[0], size, screen, pi)
  {
  }

  /** Frame 0 is eligible, frames 1 to 3 are not, and the pattern repeats every 4 frames. */
  lemma GatePattern(frame: nat)
    ensures ShouldProcess(0) && !ShouldProcess(1) && !ShouldProcess(2) && !ShouldProcess(3)
    ensures ShouldProcess(frame + 4) == ShouldProcess(frame)
  {
  }

  /** The effect of a sequence of samples, in order. */
  function Run(s: State, bs: seq<SampleBuffer>, screen: Size, pi: real): (r: State)
    requires IsValid(s) && forall i :: 0 <= i < |bs| ==> IsWellFormed(bs[i])
    ensures IsValid(r)
    decreases |bs|
  {
    if |bs| == 0 then s else Run(Step(s, bs[0], screen, pi), bs[1..], screen, pi)
  }

  /** The number of samples that carry an image buffer. */
  function Buffered(bs: seq<SampleBuffer>): nat
  {
    if |bs| == 0 then 0 else (if bs[0].Image? then 1 else 0) + Buffered(bs[1..])
  }

  /** The extent of the first sample that carries an image buffer, if any does. */
  function FirstExtent(bs: seq<SampleBuffer>): Option<Size>
  {
    if |bs| == 0 then None else if bs[0].Image? then Some(bs[0].extent) else FirstExtent(bs[1..])
  }

  /** The counter counts the buffered frames. */
  lemma {:induction false} RunCountsBufferedFrames(s: State, bs: seq<SampleBuffer>, screen: Size, pi: real)
    requires IsValid(s) && forall i :: 0 <= i < |bs| ==> IsWellFormed(bs[i])
    ensures Run(s, bs, screen, pi).frame == s.frame + Buffered(bs)
    decreases |bs|
  {
    if |bs| > 0 {
      RunCountsBufferedFrames(Step(s, bs[0], screen, pi), bs[1..], screen, pi);
    }
  }

  /** Over any run, the stored extent is the one already stored, or else the first buffered frame's. */
  lemma {:induction false} RunFixesFirstExtent(s: State, bs: seq<SampleBuffer>, screen: Size, pi: real)
    requires IsValid(s) && forall i :: 0 <= i < |bs| ==> IsWellFormed(bs[i])
    ensures s.ciSize.Some? ==> Run(s, bs, screen, pi).ciSize == s.ciSize
    ensures s.ciSize.None? ==> Run(s, bs, screen, pi).ciSize == FirstExtent(bs)
    decreases |bs|
  {
    if |bs| > 0 {
      RunFixesFirstExtent(Step(s, bs[0], screen, pi), bs[1..], screen, pi);
    }
  }

  /** The number of buffered frames of a run on which the detector is consulted. */
  function Detections(s: State, bs: seq<SampleBuffer>, screen: Size, pi: real): nat
    requires IsValid(s) && forall i :: 0 <= i < |bs| ==> IsWellFormed(bs[i])
    decreases |bs|
  {
    if |bs| == 0 then 0
    else
      (if bs[0].Image? && ShouldProcess(s.frame) then 1 else 0)
      + Detections(Step(s, bs[0], screen, pi), bs[1..], screen, pi)
  }

  /** The multiples of 4 among the counter values start, ..., start + n - 1. */
  function Multiples(start: nat, n: nat): nat
  {
    (start + n + 3) / 4 - (start + 3) / 4
  }

  /** The detector is consulted on exactly the frames whose counter is a multiple of 4. */
  lemma {:induction false} DetectionsAreMultiples(s: State, bs: seq<SampleBuffer>, screen: Size, pi: real)
    requires IsValid(s) && forall i :: 0 <= i < |bs| ==> IsWellFormed(bs[i])
    ensures Detections(s, bs, screen, pi) == Multiples(s.frame, Buffered(bs))
    decreases |bs|
  {
    if |bs| > 0 {
      var t := Step(s, bs[0], screen, pi);
      DetectionsAreMultiples(t, bs[1..], screen, pi);
      if bs[0].Image? {
        assert t.frame == s.frame + 1;
        assert (s.frame + 4) / 4 == (s.frame + 3) / 4 + (if s.frame % 4 == 0 then 1 else 0);
      }
    }
  }

  /** From a fresh counter, n buffered frames consult the detector on (n + 3) / 4 of them: frames 0, 4, 8, ... */
  lemma DetectionsFromStart(s: State, bs: seq<SampleBuffer>, screen: Size, pi: real)
    requires IsValid(s) && s.frame == 0 && forall i :: 0 <= i < |bs| ==> IsWellFormed(bs[i])
    ensures Detections(s, bs, screen, pi) == (Buffered(bs) + 3) / 4
  {
    DetectionsAreMultiples(s, bs, screen, pi);
  }

  /** The three landmark targets of the end-to-end example. */
  lemma EndToEndTargets(f: Feature)
    requires f.leftEyePosition == Point(400.0, -200.0) && f.rightEyePosition == Point(240.0, -200.0)
    requires f.mouthPosition == Point(320.0, -300.0)
    ensures EyeTarget(f.leftEyePosition, Size(640.0, 480.0), Size(320.0, 240.0)) == Point(118.0, 98.0)
    ensures EyeTarget(f.rightEyePosition, Size(640.0, 480.0), Size(320.0, 240.0)) == Point(198.0, 98.0)
    ensures MouthTarget(f.mouthPosition, Size(640.0, 480.0), Size(320.0, 240.0)) == Point(145.0, 149.0)
    ensures BeardTarget(f.leftEyePosition, f.rightEyePosition, f.mouthPosition, Size(640.0, 480.0), Size(320.0, 240.0))
         == Point(145.0, 143.9)
  {
    assert (640.0 - 400.0) * 320.0 / 640.0 == 120.0;
    assert (640.0 - 240.0) * 320.0 / 640.0 == 200.0;
    assert (640.0 - 320.0) * 320.0 / 640.0 == 160.0;
    assert 200.0 * 240.0 / 480.0 == 100.0;
    assert 300.0 * 240.0 / 480.0 == 150.0;
    assert CorrectedY(149.0, 98.0) == 143.9;
  }

  /**
   * A 640x480 capture shown on a 320x240 screen: the first frame, with a
   * complete feature, places all four elements.
   */
  lemma EndToEndExample(s: State, f: Feature, pi: real)
    requires IsValid(s) && s.frame == 0 && s.ciSize == None && IsComplete(f)
    requires f.leftEyePosition == Point(400.0, -200.0) && f.rightEyePosition == Point(240.0, -200.0)
    requires f.mouthPosition == Point(320.0, -300.0) && f.faceAngle == 90.0
    ensures var r := Step(s, Image(Size(640.0, 480.0), [f]), Size(320.0, 240.0), pi);
            r.frame == 1 && r.ciSize == Some(Size(640.0, 480.0)) &&
            r.overlay.rightEyeView == s.overlay.rightEyeView.(center := Point(118.0, 98.0)) &&
            r.overlay.leftEyeView == s.overlay.leftEyeView.(center := Point(198.0, 98.0)) &&
            r.overlay.mouthView == Element(Point(145.0, 149.0), -pi / 2.0) &&
            r.overlay.beardView == Element(Point(145.0, 143.9), -pi / 2.0)
  {
    var capture, screen := Size(640.0, 480.0), Size(320.0, 240.0);
    var u := Updated(s.overlay, f, capture, screen, pi);
    assert Step(s, Image(capture, [f]), screen, pi).overlay == u;
    EndToEndTargets(f);
    assert u.mouthView.rotation == Rotation(90.0, pi) == -pi / 2.0;
  }

  /**
   * The view controller's state, with the four overlay views reduced to the
   * center and rotation the pipeline writes.
   */
  class Pipeline {
    var frame: nat
    var ciSize: Option<Size>
    const screenSize: Size
    const pi: real
    var leftEyeView: Element
    var rightEyeView: Element
    var mouthView: Element
    var beardView: Element

    ghost predicate Valid()
      reads this
    {
      IsPositive(screenSize) && pi > 0.0 && IsValid(Snapshot())
    }

    function Snapshot(): State
      reads this
    {
      State(frame, ciSize, Overlay(leftEyeView, rightEyeView, mouthView, beardView))
    }

    /**
     * A fresh controller: counter 0, no extent yet, and each view where its
     * frame puts it (eyes 4x4 and mouth 30x2 at the origin, the beard image
     * of size `beardImage` at the origin), unrotated.
     */
    constructor (screenSize: Size, pi: real, beardImage: Size)
      requires IsPositive(screenSize) && pi > 0.0
      ensures Valid()
      ensures this.screenSize == screenSize && this.pi == pi
      ensures frame == 0 && ciSize == None
      ensures leftEyeView == Element(Point(2.0, 2.0), 0.0) && rightEyeView == Element(Point(2.0, 2.0), 0.0)
      ensures mouthView == Element(Point(15.0, 1.0), 0.0)
      ensures beardView == Element(Point(beardImage.width / 2.0, beardImage.height / 2.0), 0.0)
    {
      this.screenSize := screenSize;
      this.pi := pi;
      frame := 0;
      ciSize := None;
      leftEyeView := Element(Point(2.0, 2.0), 0.0);
      rightEyeView := Element(Point(2.0, 2.0), 0.0);
      mouthView := Element(Point(15.0, 1.0), 0.0);
      beardView := Element(Point(beardImage.width / 2.0, beardImage.height / 2.0), 0.0);
    }

    /** Move the eye view the detector's eye drives: its left eye the right-eye view, its right eye the left-eye view. */
    method DrawEye(eye: Eye, position: Point)
      requires Valid() && ciSize.Some?
      modifies this`leftEyeView, this`rightEyeView
      ensures Valid()
      ensures eye == Left ==>
        rightEyeView == old(rightEyeView).(center := EyeTarget(position, ciSize.value, screenSize)) &&
        leftEyeView == old(leftEyeView)
      ensures eye == Right ==>
        leftEyeView == old(leftEyeView).(center := EyeTarget(position, ciSize.value, screenSize)) &&
        rightEyeView == old(rightEyeView)
    {
      var newPosition := EyeTarget(position, ciSize.value, screenSize);
      match eye
      case Left => rightEyeView := rightEyeView.(center := newPosition);
      case Right => leftEyeView := leftEyeView.(center := newPosition);
    }

    /** Place the mouth view and rotate it by the face angle. */
    method DrawMouth(position: Point, angle: real)
      requires Valid() && ciSize.Some?
      modifies this`mouthView
      ensures Valid()
      ensures mouthView == Element(MouthTarget(position, ciSize.value, screenSize), Rotation(angle, pi))
    {
      var newPosition := MouthTarget(position, ciSize.value, screenSize);
      var mouthAngle := Rotation(angle, pi);
      mouthView := Element(newPosition, mouthAngle);
    }

    /** Place the beard at the corrected mouth position with the mouth's rotation. */
    method PositionBeard(leftEyePosition: Point, rightEyePosition: Point, mouthPosition: Point, mouthAngle: real)
      requires Valid() && ciSize.Some?
      modifies this`beardView
      ensures Valid()
      ensures beardView == Element(BeardTarget(leftEyePosition, rightEyePosition, mouthPosition, ciSize.value, screenSize),
                                   Rotation(mouthAngle, pi))
    {
      var newMouthPosition := BeardTarget(leftEyePosition, rightEyePosition, mouthPosition, ciSize.value, screenSize);
      var angle := Rotation(mouthAngle, pi);
      beardView := Element(newMouthPosition, angle);
    }

    /** The capture delegate's handling of one sample. */
    method OnFrame(b: SampleBuffer)
      requires Valid() && IsWellFormed(b)
      modifies this
      ensures Valid()
      ensures Snapshot() == Step(old(Snapshot()), b, screenSize, pi)
    {
      if b.NoImage? {
        return;
      }
      if ciSize.None? {
        ciSize := Some(b.extent);
      }
      if ShouldProcess(frame) {
        var faces := b.faces;
        if |faces| > 0 && IsComplete(faces[0]) {
          var feature := faces[0];
          DrawEye(Left, feature.leftEyePosition);
          DrawEye(Right, feature.rightEyePosition);
          DrawMouth(feature.mouthPosition, feature.faceAngle);
          PositionBeard(feature.leftEyePosition, feature.rightEyePosition, feature.mouthPosition, feature.faceAngle);
        }
      }
      frame := frame + 1;
    }
  }
}
