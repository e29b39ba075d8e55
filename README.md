# Face-overlay frame pipeline of LiveCaptureSwift

This project models the overlay pipeline of the LiveCaptureSwift view controller.
The capture delegate gets one sample per camera frame. It drops a sample that has no image buffer.
It fixes the capture extent once, from the first image.
It asks the face detector for features on every fourth frame, and it uses the first feature only when all four parts are present (both eyes, the mouth and the face angle).
From that feature it places four overlay views:
- two 4x4 eye markers, with the detector's eyes routed crosswise;
- a 30x2 mouth marker;
- a beard image pulled 10% of the way from the mouth toward the eye line.

The mouth marker and the beard are rotated by the face angle.
Mapping a landmark into screen space mirrors it, scales it to the screen and subtracts the element's half size.

Modules:
- `Geometry` (geometry.dfy): points, extents, the mapping `MapPoint` and its inverse `UnmapPoint`, and `Rotation`.
- `Overlay` (overlay.dfy): the detector's `Feature`, the four overlay `Element`s, the targets for eyes, mouth and beard, and the detection stage `Detect`.
- `Smoothing` (smoothing.dfy): `average`, which the disabled smoothing path would call.
- `Capture` (capture.dfy): the per-frame transition `Step` and its iteration `Run`, stated on values. It also holds the class `Pipeline`, whose fields are the controller's counter, extent and views.
- `Wrappers` (wrappers.dfy): `Option`, used for the extent that is set once.

`Pipeline.OnFrame` is proved to change the object exactly as `Step` says. The frame-level and run-level properties are lemmas about `Step` and `Run`.

The detector, the screen size, the value of pi and the beard image's size are inputs. Each sample carries the detector's answer for its image. The screen size and pi are fixed when the pipeline is built.

## Model

| member | source | states |
|---|---|---|
| Geometry.MapPoint | LiveCaptureSwift/ViewController.swift:110-114 | mirrors x to W - x and y to -y, scales by the screen-to-capture ratio and subtracts the offset: the offset-corrected screen coordinate times the capture extent equals the mirrored capture coordinate times the screen extent; the same mapping is written out at lines 128-132 and 143-161 |
| Geometry.Rotation | LiveCaptureSwift/ViewController.swift:135 | the rotation -angle*pi/180 of lines 135 and 169: zero for angle 0, and of the opposite sign to the angle when pi is positive |
| Geometry.UnmapMap | LiveCaptureSwift/ViewController.swift:110-114 | mapping a capture point to the screen and back returns the point (positive extents) |
| Geometry.MapUnmap | LiveCaptureSwift/ViewController.swift:128-132 | every screen position is the image of one capture point: unmapping and then mapping returns it |
| Geometry.MapMirrorsX | LiveCaptureSwift/ViewController.swift:110-113 | with positive capture and screen widths the mapped x strictly decreases as the capture x grows (the horizontal mirror) |
| Geometry.MapFlipsY | LiveCaptureSwift/ViewController.swift:111-114 | the mapped y strictly decreases as the capture y grows (the y negation) |
| Geometry.MapCentre | LiveCaptureSwift/ViewController.swift:110-114 | the capture point (W/2, -H/2) maps to the screen center less the element's offset |
| Geometry.MapPreservesMidpoint | LiveCaptureSwift/ViewController.swift:110-114 | the mapping is affine: the midpoint of two points maps to the midpoint of their images |
| Geometry.RotationOfZero | LiveCaptureSwift/ViewController.swift:135 | a face angle of 0 gives rotation 0 |
| Geometry.RotationIsOdd | LiveCaptureSwift/ViewController.swift:169 | negating the face angle negates the rotation |
| Geometry.RotationOfRightAngle | LiveCaptureSwift/ViewController.swift:135 | 90 degrees gives -pi/2 radians |
| Geometry.RotationSign | LiveCaptureSwift/ViewController.swift:135 | with pi positive, a positive angle turns the negative way and a negative angle the positive way |
| Overlay.IsComplete | LiveCaptureSwift/ViewController.swift:207 | a feature is usable exactly when it has a left-eye position, a right-eye position, a mouth position and a face angle |
| Overlay.EyeTarget | LiveCaptureSwift/ViewController.swift:110-114 | an eye marker's target is the mapped point with offset (2,2) |
| Overlay.MouthTarget | LiveCaptureSwift/ViewController.swift:128-132 | the mouth marker's target is the mapped point with offset (15,1) |
| Overlay.CorrectedY | LiveCaptureSwift/ViewController.swift:163-168 | the corrected y keeps 90% of the mouth's distance from the mid-eye line and lies between the mouth y and the mid-eye y |
| Overlay.CorrectedYExample | LiveCaptureSwift/ViewController.swift:163-168 | mid-eye 100 and mouth 150 give 145 |
| Overlay.CorrectedYAtEyeLine | LiveCaptureSwift/ViewController.swift:164-168 | the correction is zero when the mouth y equals the mid-eye y |
| Overlay.BeardTarget | LiveCaptureSwift/ViewController.swift:141-168 | the beard x is the mapped mouth x; the beard y lies between the mapped mouth y and the mean of the mapped eye ys, 90% of the way from the latter |
| Overlay.Updated | LiveCaptureSwift/ViewController.swift:117-137 | after a complete feature both eye views keep their rotation, and the mouth and beard views share the rotation of the face angle and the same x |
| Overlay.CrossedEyeRouting | LiveCaptureSwift/ViewController.swift:117-122 | the detector's left eye sets the right-eye view's center and its right eye the left-eye view's center |
| Overlay.LeftEyeReachesOnlyRightEyeView | LiveCaptureSwift/ViewController.swift:209-210 | two features that differ only in the left-eye position give the same left-eye view and mouth view |
| Overlay.RightEyeReachesOnlyLeftEyeView | LiveCaptureSwift/ViewController.swift:209-210 | two features that differ only in the right-eye position give the same right-eye view and mouth view |
| Overlay.EyeViewsMirrored | LiveCaptureSwift/ViewController.swift:110-122 | a detector left eye left of the right eye puts the right-eye view right of the left-eye view |
| Overlay.EyeViewsMirroredExample | LiveCaptureSwift/ViewController.swift:110-122 | eyes at (10,10) and (90,10), 100x100 capture and screen: right-eye view at (88,-12), left-eye view at (8,-12) |
| Overlay.Detect | LiveCaptureSwift/ViewController.swift:206-213 | a complete first feature gives the overlay updated from that feature; otherwise the overlay is returned unchanged |
| Overlay.DetectWithoutCompleteFeature | LiveCaptureSwift/ViewController.swift:206-207 | no feature, or a first feature missing any part, leaves all four elements as they were |
| Overlay.DetectUsesFirstFeatureOnly | LiveCaptureSwift/ViewController.swift:206 | features after the first do not affect the result |
| Overlay.DetectWithCompleteFeature | LiveCaptureSwift/ViewController.swift:206-212 | a complete first feature updates the overlay from that feature |
| Smoothing.Sum | LiveCaptureSwift/ViewController.swift:186-187 | the component-wise sum of the points, a left fold from (0,0) as `reduce(0.0, combine: +)` computes |
| Smoothing.Average | LiveCaptureSwift/ViewController.swift:185-190 | the average times the number of points is the sum, component by component |
| Smoothing.SumOfCopies | LiveCaptureSwift/ViewController.swift:186-187 | the sum of n copies of a point is n times the point |
| Smoothing.AverageOfCopies | LiveCaptureSwift/ViewController.swift:185-190 | the average of copies of one point is that point |
| Smoothing.SumBounds | LiveCaptureSwift/ViewController.swift:186-187 | the sum of n points bounded by a box lies within n times the box |
| Smoothing.AverageWithinBounds | LiveCaptureSwift/ViewController.swift:185-190 | the average of a non-empty sequence lies in every box that holds all the points |
| Capture.Step | LiveCaptureSwift/ViewController.swift:195-218 | one sample keeps the stored extent positive |
| Capture.ShouldProcess | LiveCaptureSwift/ViewController.swift:205 | the gate is open exactly when the counter is a multiple of 4 |
| Capture.Run | LiveCaptureSwift/ViewController.swift:195-218 | the effect of the delegate handling a sequence of samples in order, one `Step` each; the stored extent stays positive |
| Capture.NoImageChangesNothing | LiveCaptureSwift/ViewController.swift:196 | a sample without an image buffer changes nothing: not the counter, not the extent, no element |
| Capture.ImageIncrementsFrame | LiveCaptureSwift/ViewController.swift:217 | a buffered sample increments the counter by exactly one |
| Capture.ExtentSetOnce | LiveCaptureSwift/ViewController.swift:199-201 | the first buffered sample stores its extent; later ones leave the stored extent whatever their own |
| Capture.OverlayChangesOnlyThroughGate | LiveCaptureSwift/ViewController.swift:205-213 | the overlay changes only on a buffered sample whose pre-increment counter is a multiple of 4 and whose first feature is complete |
| Capture.OverlayUpdatedThroughGate | LiveCaptureSwift/ViewController.swift:205-213 | conversely, a buffered sample with the counter a multiple of 4 and a complete first feature updates the overlay from that feature, mapped with the stored extent or, if none is stored yet, the sample's |
| Capture.GatePattern | LiveCaptureSwift/ViewController.swift:205 | frame 0 is eligible, frames 1 to 3 are not, and eligibility repeats every 4 frames |
| Capture.RunCountsBufferedFrames | LiveCaptureSwift/ViewController.swift:196-217 | after any run of samples the counter has grown by the number of buffered samples |
| Capture.RunFixesFirstExtent | LiveCaptureSwift/ViewController.swift:199-201 | after any run the extent is the one already stored, or else the first buffered sample's |
| Capture.DetectionsAreMultiples | LiveCaptureSwift/ViewController.swift:205-217 | the detector is consulted on exactly as many samples as there are multiples of 4 among the counter values the run passes |
| Capture.DetectionsFromStart | LiveCaptureSwift/ViewController.swift:205-217 | from counter 0, n buffered samples consult the detector (n + 3) / 4 times |
| Capture.EndToEndExample | LiveCaptureSwift/ViewController.swift:195-218 | 640x480 capture on a 320x240 screen: the first complete frame places the four elements at the computed points with rotation -pi/2 |
| Capture.Pipeline.constructor | LiveCaptureSwift/ViewController.swift:24-77 | a new controller has counter 0, no extent, and the views centered in their frames at the origin, unrotated |
| Capture.Pipeline.DrawEye | LiveCaptureSwift/ViewController.swift:108-124 | the detector's left eye moves only the right-eye view and its right eye only the left-eye view, to the mapped point with offset (2,2); rotations are kept |
| Capture.Pipeline.DrawMouth | LiveCaptureSwift/ViewController.swift:126-139 | the mouth view gets the mapped point with offset (15,1) and the rotation of the face angle; nothing else changes |
| Capture.Pipeline.PositionBeard | LiveCaptureSwift/ViewController.swift:141-183 | the beard view gets the corrected beard target and the rotation of the face angle; nothing else changes |
| Capture.Pipeline.OnFrame | LiveCaptureSwift/ViewController.swift:195-218 | the controller's counter, extent and four views change exactly as `Step` says for the sample |

## Left out

- Capture session, device, preview layer and view construction (lines 34-43, 54-106): UI and I/O. Only the initial center and rotation of each view are kept.
- The face detector and Core Image (lines 46-52, 197, 206): foreign calls. Each sample carries the features the detector reports for it, and the extent of the already-rotated image.
- Queues (lines 20-21, 116, 134, 174, 199, 203): the asynchronous hops run in sequence. The main-queue updates apply at once, and the once-guard becomes a check on an `Option`.
- The data race on the counter: the detection block may read `frame` after line 217 has incremented it. The model tests the counter's value before the increment.
- CGFloat rounding and the value of M_PI: arithmetic is on `real`, and pi is a positive constant of the pipeline. `CGAffineTransformMakeRotation` is reduced to recording the angle.
- Degenerate extents: the mapping divides by the capture extent, so a zero extent, which would give infinities in CGFloat, is excluded by precondition. The screen extent must also be positive.
- The moving-average ring buffer `positionPoints` and `numPoints` (lines 29-31): declared, and used only in commented-out code (lines 171-172, 175-179), so the beard always takes the single-frame position. `average` is modelled on its own and nothing calls it.
- The beard is offset by the mouth marker's half size (15,1), as the code does, not by the beard image's half size.
- Overflow of the counter: Swift's `+=` traps on overflow; the counter is a `nat`, so the model has neither the trap nor a wrap.
- The bias-correction factor is a constant 0.1, as in the code, not a tunable parameter.
- Capture.Step: its own contract only says that the stored extent stays positive. What it does is stated by the lemmas about it and by `Pipeline.OnFrame`.
