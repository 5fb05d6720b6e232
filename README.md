# Garrett camera controllers, modelled in Dafny

Garrett is a set of camera controllers for jMonkeyEngine applications that use
Minie physics. Each controller is an `AppState` that an application attaches
to its state manager. While the controller is attached and enabled, it drives
the application's `Camera` once per frame. It reads named signals, such as
"FLYCAM_Forward", from a `SignalTracker`, and analog mouse input through
`onAnalog`.

This project models these controllers and their decision logic:

- **`CameraSignal`** (module `Signals`): the ten camera functions.
- **`CameraController`**: the shared base class. It holds the magnification
  bounds, focal zoom, signal names and default states, and the "active" test
  for a function.
- **`ExclusionCamera`**: adds a preferred up direction and two pole-exclusion
  cones. `avoidExclusionCones` keeps the look direction outside both cones.
- **`OrbitCamera`**: orbits a target.
  - The target is a `Target`: an interface giving a location and a forward direction.
  - Input is summed from signals and analog input.
  - The azimuth chases the target's heading, with a time constant.
  - The range follows a rule that depends on forward/back input and on the
    obstruction response (Clip, WarpBias, WarpNoBias, XRay).
  - It responds to obstructions with ray tests, sweep tests and the
    bisection searches of `sightline`.
- **`DynamicCamera`**: a physics-driven free camera whose rigid-body shell
  moves at a velocity the signals decide. Its update handles point-to-look
  turning, the pole check and zooming.
- **`AffixedCamera`**: a camera rigidly attached to a rigid body.
- **`ChaseOption`**: the enum of chase options.
- **The legacy `jme3utilities.camera.OrbitCamera`**: the predecessor orbit
  controller. Its range rule is shown to be the newer controller's WarpBias
  rule.
- **`GarrettDemo`**: the demo's cycling of obstruction responses and its
  controller switching, which keeps at most one controller enabled.

How Java is modelled:

- `float` and `double` are real numbers.
- The math library is abstracted as `Common.MathOracle`: `FastMath.exp`,
  `Math.cos`, `Math.sqrt`, quaternion rotation and `MyVector3f.generateBasis`.
  Each model states the laws it relies on (`Common.Lawful`, `Common.ExpLaw`,
  `OrbitCamera.RotationLaw`).
- Physics queries are `Common.Physics`: ray tests, sweep tests and ghost
  contact tests. Only the bounds on hit fractions that the physics engine
  guarantees are assumed (`OrbitCamera.SaneFractions`).
- A Java exception is an `Outcome` of `Thrown(...)` or a `Result` of
  `Err(...)`, classified as IllegalArgument, IllegalState, another unchecked
  exception, or a failed `assert`.
- Java inheritance is modelled by composition: an orbit camera holds its
  `ExclusionCamera`, which holds its `CameraController`.
- Objects whose fields the source updates in place are classes: the
  controllers, the camera and the rigid bodies. Each method states its whole
  new state against the old state and against the specification functions
  beside it.

Every source cell below is relative to the repository root.

## Model

| member | source | states |
|---|---|---|
| Signals.AllSignalsComplete | GarrettLibrary/src/main/java/com/github/stephengold/garrett/CameraSignal.java:37-81 | values() lists every one of the ten camera functions, each exactly once |
| CameraController.Magnified | GarrettLibrary/src/main/java/com/github/stephengold/garrett/CameraController.java:176-186 | the tangent magnify computes lies in [lo, hi] when the bounds are ordered, and is tangent/factor whenever that already lies in the bounds |
| CameraController.MagnifyNarrows | GarrettLibrary/src/main/java/com/github/stephengold/garrett/CameraController.java:176-186 | magnifying by a factor of at least 1 never widens an in-range tangent, and strictly narrows it above the lower bound |
| CameraController.MagnifyInverse | GarrettLibrary/src/main/java/com/github/stephengold/garrett/CameraController.java:176-186 | magnify(f) then magnify(1/f) restores the tangent when neither call is clamped |
| CameraController.FocalZoomBounds | GarrettLibrary/src/main/java/com/github/stephengold/garrett/CameraController.java:316-328 | applyFocalZoom leaves the tangent alone when not attached and enabled or without input, lands it in [minYTangent, maxYTangent] otherwise, and never widens the view when all input zooms in |
| CameraController.AnalogZoomDelta | GarrettLibrary/src/main/java/com/github/stephengold/garrett/CameraController.java:364-375 | an analog event is accepted exactly when it is "zoom in" (adds the reading) or "zoom out" (subtracts it) |
| CameraController.AnalogZoomCancels | GarrettLibrary/src/main/java/com/github/stephengold/garrett/CameraController.java:364-371 | equal "zoom in" and "zoom out" readings cancel |
| CameraController.CameraController.constructor | GarrettLibrary/src/main/java/com/github/stephengold/garrett/CameraController.java:87-130 | a new controller is disabled and detached, names the camera by its id, and starts with tangents [0.01, 2], zoom multiplier 0.3 and no default states or signal names |
| CameraController.CameraController.DefaultState | GarrettLibrary/src/main/java/com/github/stephengold/garrett/CameraController.java:150-159 | the configured default state, false when none is configured |
| CameraController.CameraController.SignalName | GarrettLibrary/src/main/java/com/github/stephengold/garrett/CameraController.java:290-294 | the signal name is present exactly when one is configured, and is that name |
| CameraController.CameraController.IsActive | GarrettLibrary/src/main/java/com/github/stephengold/garrett/CameraController.java:336-346 | a function is active exactly when its default state differs from whether its named signal is active in the tracker |
| CameraController.CameraController.MaxMagnification | GarrettLibrary/src/main/java/com/github/stephengold/garrett/CameraController.java:193-198 | the maximum magnification is positive and the reciprocal of the smallest tangent |
| CameraController.CameraController.MinMagnification | GarrettLibrary/src/main/java/com/github/stephengold/garrett/CameraController.java:205-210 | the minimum magnification is the reciprocal of the largest tangent and at most the maximum magnification |
| CameraController.CameraController.Magnify | GarrettLibrary/src/main/java/com/github/stephengold/garrett/CameraController.java:176-186 | a non-positive factor throws IllegalArgument; otherwise the camera's tangent becomes the clamped quotient, written only while attached and enabled |
| CameraController.CameraController.SetCameraName | GarrettLibrary/src/main/java/com/github/stephengold/garrett/CameraController.java:220-226 | renaming throws IllegalState while attached and enabled and otherwise stores the name, null included |
| CameraController.CameraController.SetDefaultState | GarrettLibrary/src/main/java/com/github/stephengold/garrett/CameraController.java:235-238 | only the given function's default state changes, to the given state |
| CameraController.CameraController.SetSignalName | GarrettLibrary/src/main/java/com/github/stephengold/garrett/CameraController.java:268-271 | only the given function's signal name changes (a null name removes it) |
| CameraController.CameraController.SetMaxMinMagnification | GarrettLibrary/src/main/java/com/github/stephengold/garrett/CameraController.java:248-260 | min must be positive and max in [min, Float.MAX_VALUE] (else IllegalArgument, nothing changes); the magnifications then read back as max and min, the invariant holds, and a live camera's tangent is re-clamped |
| CameraController.CameraController.SetZoomMultiplier | GarrettLibrary/src/main/java/com/github/stephengold/garrett/CameraController.java:279-282 | a non-positive multiplier throws IllegalArgument; otherwise it is stored |
| CameraController.CameraController.ApplyFocalZoom | GarrettLibrary/src/main/java/com/github/stephengold/garrett/CameraController.java:316-328 | the tangent becomes FocalZoomed of the old tangent and analog sum (discrete zoom by exp(dir tpf), then analog zoom by exp(multiplier sum)), and the analog sum is cleared |
| CameraController.CameraController.OnAnalog | GarrettLibrary/src/main/java/com/github/stephengold/garrett/CameraController.java:358-376 | an empty name or a negative reading or tpf throws IllegalArgument, as does any event that is not a zoom; a zoom event adds its AnalogZoomDelta to the sum |
| CameraController.CameraController.Attach | GarrettLibrary/src/main/java/com/github/stephengold/garrett/CameraController.java:398-410 | attaching marks the controller initialized and names the camera when it is already enabled |
| CameraController.CameraController.SetEnabled | GarrettLibrary/src/main/java/com/github/stephengold/garrett/CameraController.java:406-410 | the flag becomes the argument; an attached off-to-on change names the camera and asks for the enable hook, on-to-off for the disable hook |
| ExclusionCamera.PoleAssertionFailsAtHalfPi | GarrettLibrary/src/main/java/com/github/stephengold/garrett/ExclusionCamera.java:120-130 | pi/2 passes the range check, yet both stored dots are 0 and the closing assertion maxDot > minDot fails |
| ExclusionCamera.PoleDotsOrdered | GarrettLibrary/src/main/java/com/github/stephengold/garrett/ExclusionCamera.java:120-130 | for every accepted angle the stored dots are opposite and ordered within [-1, 1], the non-strict relation the cones need |
| ExclusionCamera.PoleAssertionHoldsBelowHalfPi | GarrettLibrary/src/main/java/com/github/stephengold/garrett/ExclusionCamera.java:120-130 | below pi/2 the closing assertion holds |
| ExclusionCamera.ExclusionCamera.constructor | GarrettLibrary/src/main/java/com/github/stephengold/garrett/ExclusionCamera.java:62-91 | a new exclusion camera has dots cos(0.3) and -cos(0.3), up direction +Y, and the base controller's defaults |
| ExclusionCamera.ExclusionCamera.SetPoleExclusionAngle | GarrettLibrary/src/main/java/com/github/stephengold/garrett/ExclusionCamera.java:120-130 | an angle outside [0, pi/2] throws IllegalArgument and changes nothing; otherwise maxDot becomes max(cos, 0) and minDot its negation, and the outcome is AssertionFailed exactly when the assertion maxDot > minDot fails |
| ExclusionCamera.ExclusionCamera.SetPoleExclusionAngles | GarrettLibrary/src/main/java/com/github/stephengold/garrett/ExclusionCamera.java:143-152 | angles outside [0, pi] or summing to pi or more throw IllegalArgument; otherwise maxDot is cos(upper) and minDot is -cos(lower), strictly ordered |
| ExclusionCamera.ExclusionCamera.SetPreferredUpDirection | GarrettLibrary/src/main/java/com/github/stephengold/garrett/ExclusionCamera.java:160-165 | the zero vector throws IllegalArgument; otherwise the direction is stored normalized |
| ExclusionCamera.ExclusionCamera.ReorientCamera | GarrettLibrary/src/main/java/com/github/stephengold/garrett/ExclusionCamera.java:208-213 | the camera faces the unit look direction with left and up derived from the preferred up direction |
| ExclusionCamera.AvoidExclusionCones | GarrettLibrary/src/main/java/com/github/stephengold/garrett/ExclusionCamera.java:175-200 | a zero look direction is rejected with IllegalArgument, and only it |
| ExclusionCamera.AvoidedIsAllowedUnit | GarrettLibrary/src/main/java/com/github/stephengold/garrett/ExclusionCamera.java:175-200 | every nonzero look direction comes out a unit vector whose component along up lies in [minDot, maxDot] |
| ExclusionCamera.AvoidedKeepsAllowed | GarrettLibrary/src/main/java/com/github/stephengold/garrett/ExclusionCamera.java:178-180 | an allowed direction comes out as its normalization |
| ExclusionCamera.AvoidedOffPole | GarrettLibrary/src/main/java/com/github/stephengold/garrett/ExclusionCamera.java:189-198 | an excluded direction off the poles is rebuilt from its clamped up component and its normalized horizontal rejection |
| ExclusionCamera.AvoidedClampsExcluded | GarrettLibrary/src/main/java/com/github/stephengold/garrett/ExclusionCamera.java:189-198 | off the poles, the result's up component is the old one clamped into [minDot, maxDot] |
| ExclusionCamera.AvoidedKeepsHeading | GarrettLibrary/src/main/java/com/github/stephengold/garrett/ExclusionCamera.java:189-198 | off the poles, the result's horizontal part is a nonnegative multiple of the original's |
| ExclusionCamera.AvoidedTurnsPole | GarrettLibrary/src/main/java/com/github/stephengold/garrett/ExclusionCamera.java:184-198 | a direction straight along up or down is replaced by a horizontal basis vector tilted to 0 clamped into the range |
| ExclusionCamera.DeflectSideways | GarrettLibrary/src/main/java/com/github/stephengold/garrett/ExclusionCamera.java:189-198 | the rebuilt direction is a unit vector with the clamped up component |
| ExclusionCamera.DeflectKeepsHeading | GarrettLibrary/src/main/java/com/github/stephengold/garrett/ExclusionCamera.java:189-198 | the rebuilt direction keeps the heading about up |
| ExclusionCamera.DeflectFromPole | GarrettLibrary/src/main/java/com/github/stephengold/garrett/ExclusionCamera.java:184-198 | at a pole the generated basis vector is horizontal and the rebuilt direction is a unit vector with up component Clamp(0) |
| ExclusionCamera.UnitRejection | GarrettLibrary/src/main/java/com/github/stephengold/garrett/ExclusionCamera.java:190-192 | the normalized rejection of a look off the poles is a unit vector orthogonal to up |
| OrbitCamera.Opposed | GarrettLibrary/src/main/java/com/github/stephengold/garrett/OrbitCamera.java:550-588 | two opposed signals sum to 1, -1 or 0: 1 exactly when only the positive one is active, -1 exactly when only the negative one is, 0 when both or neither are |
| OrbitCamera.TallyStep | GarrettLibrary/src/main/java/com/github/stephengold/garrett/OrbitCamera.java:550-588 | visiting one more signal moves the tally exactly as the switch does for an active signal and not at all for an inactive one |
| OrbitCamera.TallyAll | GarrettLibrary/src/main/java/com/github/stephengold/garrett/OrbitCamera.java:550-588 | after visiting values() the forward, orbitUp, orbitCw and zoom sums are the Opposed sums of Forward/Back, OrbitUp/OrbitDown, OrbitCw/OrbitCcw and ZoomIn/ZoomOut |
| OrbitCamera.NotYetVisited | GarrettLibrary/src/main/java/com/github/stephengold/garrett/OrbitCamera.java:550 | the i-th constant of values() does not occur before position i |
| OrbitCamera.IsObstruction | GarrettLibrary/src/main/java/com/github/stephengold/garrett/OrbitCamera.java:777-789 | the target's own object never obstructs; without a filter every other object does; with one the filter decides |
| OrbitCamera.ClosestFraction | GarrettLibrary/src/main/java/com/github/stephengold/garrett/OrbitCamera.java:891-901 | the result is at most 1 and at most every obstructing hit's fraction, and is 1 or the fraction of some obstructing hit |
| OrbitCamera.ClosestFractionInUnitInterval | GarrettLibrary/src/main/java/com/github/stephengold/garrett/OrbitCamera.java:891-901 | with hit fractions in [0, 1] the closest fraction lies in [0, 1] |
| OrbitCamera.ObstructedRangeBounds | GarrettLibrary/src/main/java/com/github/stephengold/garrett/OrbitCamera.java:903-906 | range * minFraction capped at the range never exceeds the range, is nonnegative for sane fractions, and is the range when no hit obstructs |
| OrbitCamera.OrbitAnalogDelta | GarrettLibrary/src/main/java/com/github/stephengold/garrett/OrbitCamera.java:461-484 | exactly the four orbit events are accepted: ccw adds the reading to yaw, cw subtracts it, down adds it to pitch, up subtracts it |
| OrbitCamera.OrbitKeepsRange | GarrettLibrary/src/main/java/com/github/stephengold/garrett/OrbitCamera.java:593-609 | the discrete orbit step keeps the offset's length, unless the sideways move lands exactly on the target |
| OrbitCamera.RescaleToLength | GarrettLibrary/src/main/java/com/github/stephengold/garrett/OrbitCamera.java:607-608 | rescaling gives a nonzero vector the requested length |
| OrbitCamera.AnalogKeepsRange | GarrettLibrary/src/main/java/com/github/stephengold/garrett/OrbitCamera.java:613-622 | drag-to-orbit rotation keeps the offset's length |
| OrbitCamera.ChaseTurnBounded | GarrettLibrary/src/main/java/com/github/stephengold/garrett/OrbitCamera.java:645-646 | with a positive time constant the turn gain * error has the error's sign and at most its size |
| OrbitCamera.AzimuthTurnBounded | GarrettLibrary/src/main/java/com/github/stephengold/garrett/OrbitCamera.java:627-652 | a free azimuth or a non-finite error turns nothing; a locked azimuth turns by the whole error; otherwise the turn never overshoots the error |
| OrbitCamera.RangeRuleProperties | GarrettLibrary/src/main/java/com/github/stephengold/garrett/OrbitCamera.java:656-675 | the range rule caps the range at half the far distance; rebiases the preferred range only on forward input with X-ray, WarpNoBias or WarpBias moving forward; moving forward never lengthens the range and moving back never shortens it; a warping camera without input springs back to the preferred range; results stay nonnegative |
| OrbitCamera.RangeRuleUnfolds | GarrettLibrary/src/main/java/com/github/stephengold/garrett/OrbitCamera.java:661-675 | the range rule is its scaled form applied to range * exp(-tpf * forwardSum) |
| OrbitCamera.ExpScalesRange | GarrettLibrary/src/main/java/com/github/stephengold/garrett/OrbitCamera.java:662 | forward input shrinks the range, backward input stretches it, and it stays nonnegative |
| OrbitCamera.InputKeepsRange | GarrettLibrary/src/main/java/com/github/stephengold/garrett/OrbitCamera.java:593-622 | the orbit input (discrete step, then drag, with yaw dropped when locked) keeps the offset's length unless the discrete step lands on the target |
| OrbitCamera.ChasedLookIsUnit | GarrettLibrary/src/main/java/com/github/stephengold/garrett/OrbitCamera.java:627-652 | azimuth chasing turns a unit look direction into a unit look direction, and a free azimuth leaves it unchanged |
| OrbitCamera.SettledLook | GarrettLibrary/src/main/java/com/github/stephengold/garrett/OrbitCamera.java:624-652 | the look a frame settles on is an IllegalArgument error exactly when the offset is zero, and a unit vector otherwise |
| OrbitCamera.Reversed | GarrettLibrary/src/main/java/com/github/stephengold/garrett/OrbitCamera.java:624 | the reversed offset is zero exactly when the offset is, and adds to it to give zero |
| OrbitCamera.Create | GarrettLibrary/src/main/java/com/github/stephengold/garrett/OrbitCamera.java:101-196 | a new orbit camera is valid, detached and disabled, has a free azimuth, preferred range 10, the Clip response and no target |
| OrbitCamera.OrbitCamera.constructor | GarrettLibrary/src/main/java/com/github/stephengold/garrett/OrbitCamera.java:101-196 | the orbit fields take their declared defaults: tau +Infinity, setpoint 0, maxFraction 0, orbit rate 0.5, clip 0.1, range 10, no filter, Clip, no target, zero offset |
| OrbitCamera.OrbitCamera.SetAzimuthTau | GarrettLibrary/src/main/java/com/github/stephengold/garrett/OrbitCamera.java:312-320 | a negative time constant throws IllegalArgument first; then a live controller throws IllegalState; otherwise tau is stored |
| OrbitCamera.OrbitCamera.SetDeltaAzimuth | GarrettLibrary/src/main/java/com/github/stephengold/garrett/OrbitCamera.java:329-332 | an angle outside [-2 pi, 2 pi] throws IllegalArgument; otherwise it is stored |
| OrbitCamera.OrbitCamera.SetMaxFraction | GarrettLibrary/src/main/java/com/github/stephengold/garrett/OrbitCamera.java:347-350 | a fraction outside [-1, 1] throws IllegalArgument; otherwise it is stored |
| OrbitCamera.OrbitCamera.SetObstructionFilter | GarrettLibrary/src/main/java/com/github/stephengold/garrett/OrbitCamera.java:359-362 | the filter is stored |
| OrbitCamera.OrbitCamera.SetObstructionResponse | GarrettLibrary/src/main/java/com/github/stephengold/garrett/OrbitCamera.java:369-372 | the response is stored |
| OrbitCamera.OrbitCamera.SetOffset | GarrettLibrary/src/main/java/com/github/stephengold/garrett/OrbitCamera.java:380-383 | the offset is stored |
| OrbitCamera.OrbitCamera.SetOrbitRate | GarrettLibrary/src/main/java/com/github/stephengold/garrett/OrbitCamera.java:390-393 | a negative rate throws IllegalArgument; otherwise it is stored |
| OrbitCamera.OrbitCamera.SetPreferredClip | GarrettLibrary/src/main/java/com/github/stephengold/garrett/OrbitCamera.java:400-403 | a non-positive distance throws IllegalArgument; otherwise it is stored |
| OrbitCamera.OrbitCamera.SetPreferredRange | GarrettLibrary/src/main/java/com/github/stephengold/garrett/OrbitCamera.java:410-413 | a non-positive range throws IllegalArgument; otherwise it is stored |
| OrbitCamera.OrbitCamera.SetRangeAndOffset | GarrettLibrary/src/main/java/com/github/stephengold/garrett/OrbitCamera.java:419-427 | without a target it throws (the NullPointerException of `target.locateTarget`) and changes nothing; otherwise the offset becomes camera location minus target location, and the preferred range its length |
| OrbitCamera.OrbitCamera.SetTarget | GarrettLibrary/src/main/java/com/github/stephengold/garrett/OrbitCamera.java:434-442 | the same target changes nothing; a new one is stored and re-measures offset and preferred range |
| OrbitCamera.OrbitCamera.Enable | GarrettLibrary/src/main/java/com/github/stephengold/garrett/OrbitCamera.java:729-735 | without a target it throws IllegalState and changes nothing; otherwise it re-measures offset and preferred range |
| OrbitCamera.OrbitCamera.SetEnabled | GarrettLibrary/src/main/java/com/github/stephengold/garrett/OrbitCamera.java:509-513 | the flag becomes the argument; an attached off-to-on change names the camera and runs enable, whose IllegalState (no target) is the only failure |
| OrbitCamera.OrbitCamera.Attach | GarrettLibrary/src/main/java/com/github/stephengold/garrett/OrbitCamera.java:509-513 | attaching an enabled camera runs onEnable, failing exactly when there is no target |
| OrbitCamera.OrbitCamera.OnAnalog | GarrettLibrary/src/main/java/com/github/stephengold/garrett/OrbitCamera.java:453-494 | bad arguments and unknown events throw IllegalArgument; orbit events change the yaw or pitch sum by OrbitAnalogDelta only while DragToOrbit is active; zoom events change only the base zoom sum |
| OrbitCamera.OrbitCamera.SumSignals | GarrettLibrary/src/main/java/com/github/stephengold/garrett/OrbitCamera.java:545-588 | the loop's four sums are the Tally of the active signals, each in [-1, 1] |
| OrbitCamera.OrbitCamera.MinObstructionFraction | GarrettLibrary/src/main/java/com/github/stephengold/garrett/OrbitCamera.java:891-901 | the loop computes ClosestFraction of the hits |
| OrbitCamera.OrbitCamera.SightlineRay | GarrettLibrary/src/main/java/com/github/stephengold/garrett/OrbitCamera.java:884-907 | the result is the ObstructedRange of the ray test's hits |
| OrbitCamera.OrbitCamera.SightlineSweep | GarrettLibrary/src/main/java/com/github/stephengold/garrett/OrbitCamera.java:920-948 | the result is the ObstructedRange of the sweep test's hits |
| OrbitCamera.OrbitCamera.DistanceBisectionBounds | GarrettLibrary/src/main/java/com/github/stephengold/garrett/OrbitCamera.java:856-870 | the distance bisection of [min, max] returns between range - max and range - min |
| OrbitCamera.OrbitCamera.SightlineRangeBounds | GarrettLibrary/src/main/java/com/github/stephengold/garrett/OrbitCamera.java:804-871 | with sane hit fractions, sightline of a nonnegative range lies in [0, range] |
| OrbitCamera.OrbitCamera.TestFrustum | GarrettLibrary/src/main/java/com/github/stephengold/garrett/OrbitCamera.java:961-1003 | the frustum is obstructed exactly when some contact of the frustum ghost is an obstruction |
| OrbitCamera.OrbitCamera.FractionSearch | GarrettLibrary/src/main/java/com/github/stephengold/garrett/OrbitCamera.java:828-849 | the fraction is maxFraction when the full frustum there is clear, else where the bisection of [0, maxFraction] settles, with the lower end clear (or 0) and the fraction within 0.01 of an obstructed one |
| OrbitCamera.OrbitCamera.DistanceSearch | GarrettLibrary/src/main/java/com/github/stephengold/garrett/OrbitCamera.java:856-870 | the result is the distance bisection's value, in [0, range - newRange]; the frustum from range - result is obstructed and one from within 0.01 beyond it is clear |
| OrbitCamera.OrbitCamera.Sightline | GarrettLibrary/src/main/java/com/github/stephengold/garrett/OrbitCamera.java:804-871 | without a collision space the range; otherwise the sweep result (maxFraction < 0), the ray result (0), or the ray result when the frustum from it is clear and else the distance search (> 0); always SightlineRange and, for sane fractions, within [0, range] |
| OrbitCamera.OrbitCamera.SteerByInput | GarrettLibrary/src/main/java/com/github/stephengold/garrett/OrbitCamera.java:593-622 | the offset becomes InputOffset of the old offset and the camera axes, and both analog sums are cleared |
| OrbitCamera.OrbitCamera.SettledRangeBounds | GarrettLibrary/src/main/java/com/github/stephengold/garrett/OrbitCamera.java:677-690 | a warped range lies in [0, max(range, preferredRange)]; every other response keeps the rule's range |
| OrbitCamera.OrbitCamera.SettledNearBounds | GarrettLibrary/src/main/java/com/github/stephengold/garrett/OrbitCamera.java:677-693 | a clipping camera's near plane lies in [preferredClip, far]; other responses leave it alone |
| OrbitCamera.OrbitCamera.ObstructionStep | GarrettLibrary/src/main/java/com/github/stephengold/garrett/OrbitCamera.java:677-690 | the new range is SettledRange (X-ray keeps it, a warping camera takes sightline(max(range, preferredRange))) and the near plane is clamp(range - sightline(range), preferredClip, far) for a clipping camera without X-ray, preferredClip otherwise |
| OrbitCamera.OrbitCamera.SteeredRange | GarrettLibrary/src/main/java/com/github/stephengold/garrett/OrbitCamera.java:656-675 | the range rule's pair is nonnegative and the range at most half the far distance |
| OrbitCamera.OrbitCamera.Steer | GarrettLibrary/src/main/java/com/github/stephengold/garrett/OrbitCamera.java:545-654 | the sums, the steered offset and the settled look are the specification functions of the old state; the camera and preferred range are untouched |
| OrbitCamera.OrbitCamera.Position | GarrettLibrary/src/main/java/com/github/stephengold/garrett/OrbitCamera.java:654-698 | the camera faces the look direction with left = normalize(preferredUp x look) and up = look x left, as reorientCamera sets them; the preferred range is the rule's, the offset is -SettledRange times the look, the location is target + offset, a clipping camera's near plane is SettledNear, and the far plane stays |
| OrbitCamera.OrbitCamera.Retreat | GarrettLibrary/src/main/java/com/github/stephengold/garrett/OrbitCamera.java:677-698 | the offset and location follow SettledRange and the near plane SettledNear |
| OrbitCamera.OrbitCamera.Place | GarrettLibrary/src/main/java/com/github/stephengold/garrett/OrbitCamera.java:654-700 | the pose of Position, then the zoom of applyFocalZoom; only the camera's direction, left, up, location, near plane and tangent may change, so its name, height and far plane stay |
| OrbitCamera.OrbitCamera.Update | GarrettLibrary/src/main/java/com/github/stephengold/garrett/OrbitCamera.java:521-701 | without a target, a target object, or that object in a collision space nothing changes; otherwise the frame either throws IllegalArgument for a zero steered offset (the offset steered, the camera, preferred range and analog zoom sum untouched) or leaves the camera Placed as the specification functions say; the camera's name, height and far plane never change |
| OrbitCamera.OrbitCamera.Frame | GarrettLibrary/src/main/java/com/github/stephengold/garrett/OrbitCamera.java:545-700 | the frame throws exactly when the steered look is an error, before the zoom, leaving the camera, preferred range and analog zoom sum as they were; otherwise it leaves the camera Placed (pose, frame axes, near plane, zoom) for the settled look and the range rule's pair |
| OrbitCamera.OrbitCamera.Finish | GarrettLibrary/src/main/java/com/github/stephengold/garrett/OrbitCamera.java:656-700 | with the look settled, the camera is Placed for the range rule applied to the pre-steering range |
| DynamicCamera.AllDynamicSignalsComplete | GarrettLibrary/src/main/java/com/github/stephengold/garrett/DynamicCamera.java:850-920 | the signal list the velocity loop visits names every function the controller consults, each exactly once |
| DynamicCamera.PoleClampedIsAllowedUnit | GarrettLibrary/src/main/java/com/github/stephengold/garrett/DynamicCamera.java:581-604 | for a unit look the pole check yields a unit vector with \|dot(look, up)\| <= maxAbsDot, as the assertion at 604 demands; an allowed look is kept; off the poles an excluded look gets the clamped component and keeps its heading |
| DynamicCamera.ClampedAtPole | GarrettLibrary/src/main/java/com/github/stephengold/garrett/DynamicCamera.java:598-601 | a zero rejection means the look lies along +-up, and the generated basis vector is a horizontal unit vector |
| DynamicCamera.ClampedOffPole | GarrettLibrary/src/main/java/com/github/stephengold/garrett/DynamicCamera.java:585-597 | the rescaled projection plus rescaled rejection is a unit vector with the clamped up component and the old heading |
| DynamicCamera.PointedLookTurnsAtMost | GarrettLibrary/src/main/java/com/github/stephengold/garrett/DynamicCamera.java:552-567 | point-to-look, as intended, moves the look by at most ptlTurnRate * tpf: exactly that far when the ray is out of reach, all the way to the ray's direction otherwise |
| DynamicCamera.PointedLookAsWrittenDiverges | GarrettLibrary/src/main/java/com/github/stephengold/garrett/DynamicCamera.java:557-567 | with delta aliasing newDir, the within-reach branch yields newDir - look, which differs from the intended newDir for every nonzero look; out of reach both agree |
| DynamicCamera.PointedLookAsWrittenZeroesLook | GarrettLibrary/src/main/java/com/github/stephengold/garrett/DynamicCamera.java:557-604 | a mouse ray along the look turns the view, as written, to the zero vector, which normalization keeps, so the unit-vector assertion fails; the intended turn keeps the look |
| DynamicCamera.TurnedLookIsUnitOrZero | GarrettLibrary/src/main/java/com/github/stephengold/garrett/DynamicCamera.java:550-582 | the turned and normalized look is a unit vector or zero |
| DynamicCamera.SettledLookIsAllowed | GarrettLibrary/src/main/java/com/github/stephengold/garrett/DynamicCamera.java:550-604 | the look update settles on is a unit vector inside the pole band, or zero when the turn left nothing to normalize |
| DynamicCamera.OppositeRayVanishes | GarrettLibrary/src/main/java/com/github/stephengold/garrett/DynamicCamera.java:553-604 | with point-to-look toward the ray straight behind a unit look and a turn limit of one, the settled look is zero, so the assertion at line 604 fails even for the intended step |
| DynamicCamera.OppositeStepVanishes | GarrettLibrary/src/main/java/com/github/stephengold/garrett/DynamicCamera.java:557-564 | the out-of-reach step toward the opposite ray with a turn limit of one goes exactly halfway, to the zero vector |
| DynamicCamera.TurnLimit | GarrettLibrary/src/main/java/com/github/stephengold/garrett/DynamicCamera.java:561 | the turn limit ptlTurnRate * tpf is nonnegative and zero exactly when the rate or the frame time is |
| DynamicCamera.NoZoomTally | GarrettLibrary/src/main/java/com/github/stephengold/garrett/DynamicCamera.java:850-920 | signals other than ZoomIn and ZoomOut leave the zoom direction at 0 |
| DynamicCamera.ZoomTallyAll | GarrettLibrary/src/main/java/com/github/stephengold/garrett/DynamicCamera.java:849-920 | over all signals the zoom direction is [ZoomIn active] - [ZoomOut active] |
| DynamicCamera.VelocitySpeed | GarrettLibrary/src/main/java/com/github/stephengold/garrett/DynamicCamera.java:924-927 | the velocity is zero when the pushes cancel and otherwise points along their sum with magnitude moveSpeed |
| DynamicCamera.Create | GarrettLibrary/src/main/java/com/github/stephengold/garrett/DynamicCamera.java:201-234 | a non-positive usual mass or a ram mass outside [usual mass, Float.MAX_VALUE] throws IllegalArgument; otherwise a disabled, detached controller with the usual mass and the FlyByCamera signal names |
| DynamicCamera.DynamicCamera.constructor | GarrettLibrary/src/main/java/com/github/stephengold/garrett/DynamicCamera.java:97-234 | every field takes its declared default, the shell has the usual mass and the camera name is null |
| DynamicCamera.DynamicCamera.SignalName | GarrettLibrary/src/main/java/com/github/stephengold/garrett/DynamicCamera.java:471-475 | the signal name is present exactly when one is configured, and is that name |
| DynamicCamera.DynamicCamera.IsActive | GarrettLibrary/src/main/java/com/github/stephengold/garrett/DynamicCamera.java:795-802 | a function is active only when it has a signal name, and then exactly when the tracker reports that signal active |
| DynamicCamera.DynamicCamera.MaxMagnification | GarrettLibrary/src/main/java/com/github/stephengold/garrett/DynamicCamera.java:307-312 | the maximum magnification is positive and the reciprocal of the smallest tangent |
| DynamicCamera.DynamicCamera.MinMagnification | GarrettLibrary/src/main/java/com/github/stephengold/garrett/DynamicCamera.java:319-324 | the minimum magnification is the reciprocal of the largest tangent and at most the maximum |
| DynamicCamera.DynamicCamera.Magnify | GarrettLibrary/src/main/java/com/github/stephengold/garrett/DynamicCamera.java:290-300 | a non-positive factor throws IllegalArgument; otherwise the tangent becomes the clamped quotient, written only while attached and enabled |
| DynamicCamera.DynamicCamera.SetCameraName | GarrettLibrary/src/main/java/com/github/stephengold/garrett/DynamicCamera.java:367-373 | renaming throws IllegalState while attached and enabled and otherwise stores the name, null included |
| DynamicCamera.DynamicCamera.SetMaxMinMagnification | GarrettLibrary/src/main/java/com/github/stephengold/garrett/DynamicCamera.java:383-395 | min must be positive and max in [min, Float.MAX_VALUE]; the magnifications then read back as max and min and a live tangent is re-clamped |
| DynamicCamera.DynamicCamera.SetMoveSpeed | GarrettLibrary/src/main/java/com/github/stephengold/garrett/DynamicCamera.java:402-405 | a negative speed throws IllegalArgument; otherwise it is stored |
| DynamicCamera.DynamicCamera.SetPoleExclusionAngle | GarrettLibrary/src/main/java/com/github/stephengold/garrett/DynamicCamera.java:415-418 | an angle outside [0, pi/2] throws IllegalArgument; otherwise maxAbsDot becomes its cosine |
| DynamicCamera.DynamicCamera.SetPreferredUpDirection | GarrettLibrary/src/main/java/com/github/stephengold/garrett/DynamicCamera.java:426-431 | the zero vector throws IllegalArgument; otherwise the direction is stored normalized |
| DynamicCamera.DynamicCamera.SetPtlTurnRate | GarrettLibrary/src/main/java/com/github/stephengold/garrett/DynamicCamera.java:438-441 | a non-positive rate throws IllegalArgument; otherwise it is stored |
| DynamicCamera.DynamicCamera.SetSignalName | GarrettLibrary/src/main/java/com/github/stephengold/garrett/DynamicCamera.java:449-452 | only the given function's signal name changes (a null name removes it) |
| DynamicCamera.DynamicCamera.SetZoomMultiplier | GarrettLibrary/src/main/java/com/github/stephengold/garrett/DynamicCamera.java:460-463 | a non-positive multiplier throws IllegalArgument; otherwise it is stored |
| DynamicCamera.DynamicCamera.OnAnalog | GarrettLibrary/src/main/java/com/github/stephengold/garrett/DynamicCamera.java:631-673 | bad arguments and unknown events throw IllegalArgument; pitch and yaw readings accumulate only while DragToRotate is active (down and left add, up and right subtract); zoom readings always |
| DynamicCamera.DynamicCamera.SumSignals | GarrettLibrary/src/main/java/com/github/stephengold/garrett/DynamicCamera.java:848-920 | the loop's velocity is Thrust over all signals and its zoom direction ZoomTally, from the active set and the camera axes |
| DynamicCamera.DynamicCamera.UpdateVelocity | GarrettLibrary/src/main/java/com/github/stephengold/garrett/DynamicCamera.java:838-928 | the zoom direction is [ZoomIn] - [ZoomOut] and the velocity is the summed push scaled to moveSpeed |
| DynamicCamera.DynamicCamera.PrePhysicsTick | GarrettLibrary/src/main/java/com/github/stephengold/garrett/DynamicCamera.java:694-717 | disabled, nothing changes; enabled, the shell moves at the signalled velocity without spin, is a ghost exactly while Ghost is active, and has the ram mass exactly while Ram is active |
| DynamicCamera.DynamicCamera.Update | GarrettLibrary/src/main/java/com/github/stephengold/garrett/DynamicCamera.java:535-619 | the camera follows the shell and the drag sums are cleared; the unit-vector assertion fails (AssertionFailed) exactly when the settled look is zero, leaving the view, tangent and analog zoom sum as they were; otherwise the camera faces the settled look, a unit vector inside the pole band, with left and up from the preferred up direction, takes the focal zoom, and the analog zoom sum is cleared |
| DynamicCamera.DynamicCamera.Turn | GarrettLibrary/src/main/java/com/github/stephengold/garrett/DynamicCamera.java:550-605 | reports whether the settled look is nonzero; if so the camera faces it, a unit vector inside the pole band, with left and up from the preferred up direction, and otherwise the camera is untouched |
| DynamicCamera.DynamicCamera.ApplyFocalZoom | GarrettLibrary/src/main/java/com/github/stephengold/garrett/DynamicCamera.java:610-618 | the tangent becomes FocalZoomed of the old tangent and analog sum, and the analog sum is cleared |
| DynamicCamera.DynamicCamera.Enable | GarrettLibrary/src/main/java/com/github/stephengold/garrett/DynamicCamera.java:748-753 | the camera takes the controller's name and the shell moves to the camera's location |
| DynamicCamera.DynamicCamera.Attach | GarrettLibrary/src/main/java/com/github/stephengold/garrett/DynamicCamera.java:506-527 | attaching an enabled controller runs enable; otherwise camera and shell are unchanged |
| DynamicCamera.DynamicCamera.SetEnabled | GarrettLibrary/src/main/java/com/github/stephengold/garrett/DynamicCamera.java:515-527 | the flag becomes the argument and an attached off-to-on change runs enable; otherwise camera and shell are unchanged |
| LegacyOrbitCamera.EnabledAfter | GarrettLibrary/src/main/java/jme3utilities/camera/OrbitCamera.java:328-339 | setEnabled fails exactly when the state is not initialized (RuntimeException) or when enabling without a target (IllegalState from enable); otherwise the flag becomes the new setting |
| LegacyOrbitCamera.HookRun | GarrettLibrary/src/main/java/jme3utilities/camera/OrbitCamera.java:334-338 | enable() runs exactly on an initialized off-to-on change, disable() exactly on an initialized on-to-off change |
| LegacyOrbitCamera.SetEnabledIdempotent | GarrettLibrary/src/main/java/jme3utilities/camera/OrbitCamera.java:328-339 | after a successful setEnabled, repeating the same setting runs no hook and keeps the flag |
| LegacyOrbitCamera.SteeredKeepsRange | GarrettLibrary/src/main/java/jme3utilities/camera/OrbitCamera.java:434-460 | keyboard orbiting (rescaled to the old length) and drag rotation keep the camera's distance from the target, unless the offset degenerates to zero |
| LegacyOrbitCamera.RotationKeepsLength | GarrettLibrary/src/main/java/jme3utilities/camera/OrbitCamera.java:454-455 | the drag rotation preserves the offset's length and maps zero exactly to zero |
| LegacyOrbitCamera.LookOfZero | GarrettLibrary/src/main/java/jme3utilities/camera/OrbitCamera.java:464-482 | the settled look direction is zero exactly when the steered offset is zero (the case the unit-vector assertion at line 482 rejects) |
| LegacyOrbitCamera.ZeroOffsetLook | GarrettLibrary/src/main/java/jme3utilities/camera/OrbitCamera.java:464-465 | a zero offset gives a zero look direction |
| LegacyOrbitCamera.ZeroLookKept | GarrettLibrary/src/main/java/jme3utilities/camera/OrbitCamera.java:466-481 | the pole clamp leaves a zero look direction unchanged |
| LegacyOrbitCamera.LookIsAllowed | GarrettLibrary/src/main/java/jme3utilities/camera/OrbitCamera.java:464-482 | for a non-zero offset the look direction is a unit vector within maxAbsDot of the horizontal of the preferred up direction, and is the reversed, normalized offset whenever that is already allowed |
| LegacyOrbitCamera.LegacyRangeIsWarpBias | GarrettLibrary/src/main/java/jme3utilities/camera/OrbitCamera.java:489-503 | the legacy range rule (forward input scales the range by exp(-tpf forwardSum), otherwise the range is raised to the preferred range, then capped at half the far plane) is the newer controller's WarpBias rule |
| LegacyOrbitCamera.LegacyRangeProperties | GarrettLibrary/src/main/java/jme3utilities/camera/OrbitCamera.java:489-503 | the range is capped at half the far distance; the preferred range changes only with forward input moving forward or with X-ray vision, and then equals the new range; without forward input the range is the larger of range and preferred range, capped |
| LegacyOrbitCamera.LegacyPreferredNonNegative | GarrettLibrary/src/main/java/jme3utilities/camera/OrbitCamera.java:489-496 | the rule never makes a non-negative preferred range negative |
| LegacyOrbitCamera.SightFraction | GarrettLibrary/src/main/java/jme3utilities/camera/OrbitCamera.java:508-530 | the fraction of the range the camera keeps is at most 1, and exactly 1 with X-ray vision |
| LegacyOrbitCamera.SightFractionBounds | GarrettLibrary/src/main/java/jme3utilities/camera/OrbitCamera.java:508-530 | when the ray test reports fractions in [0, 1], the fraction is in [0, 1] and the camera stands no farther than the range |
| LegacyOrbitCamera.PlacementOffset | GarrettLibrary/src/main/java/jme3utilities/camera/OrbitCamera.java:505-532 | the camera ends up at the target's center plus the reversed look direction times range times the sight fraction |
| LegacyOrbitCamera.ReversedUnitLength | GarrettLibrary/src/main/java/jme3utilities/camera/OrbitCamera.java:505 | the reversed unit look direction scaled by a non-negative range has exactly that length |
| LegacyOrbitCamera.CosInBand | GarrettLibrary/src/main/java/jme3utilities/camera/OrbitCamera.java:252-255 | a pole exclusion angle in [0, pi/2] stores a maxAbsDot in [0, 1] |
| LegacyOrbitCamera.OrbitCamera.constructor | GarrettLibrary/src/main/java/jme3utilities/camera/OrbitCamera.java:96-193 | a new controller is detached and disabled with no target, maxAbsDot cos(0.3), tangents 1 in [0.01, 2], orbit rate 0.5, preferred range 10, zoom multiplier 0.5, zero analog sums, up direction +Y and the seven default FLYCAM signal names |
| LegacyOrbitCamera.OrbitCamera.Sums | GarrettLibrary/src/main/java/jme3utilities/camera/OrbitCamera.java:373-423 | each signal sum lies in [-1, 1] |
| LegacyOrbitCamera.OrbitCamera.SumSignals | GarrettLibrary/src/main/java/jme3utilities/camera/OrbitCamera.java:373-423 | the loop over the functions yields Sums(): Forward/Back, OrbitCw/OrbitCcw, OrbitUp/OrbitDown and ZoomIn/ZoomOut each count +1/-1 when named and active, DragToOrbit and Xray count nothing |
| LegacyOrbitCamera.OrbitCamera.Magnify | GarrettLibrary/src/main/java/jme3utilities/camera/OrbitCamera.java:202-211 | a non-positive factor throws IllegalArgument; otherwise the tangent becomes the clamped quotient and is written to the camera only while attached and enabled |
| LegacyOrbitCamera.OrbitCamera.SetMaxMinMagnification | GarrettLibrary/src/main/java/jme3utilities/camera/OrbitCamera.java:221-232 | min must be positive and max in [min, Float.MAX_VALUE] (else IllegalArgument, nothing changes); the tangent bounds become 1/max and 1/min and the tangent is re-clamped, and written to a live camera |
| LegacyOrbitCamera.OrbitCamera.SetOrbitRate | GarrettLibrary/src/main/java/jme3utilities/camera/OrbitCamera.java:239-242 | a negative rate throws IllegalArgument; otherwise it is stored |
| LegacyOrbitCamera.OrbitCamera.SetPoleExclusionAngle | GarrettLibrary/src/main/java/jme3utilities/camera/OrbitCamera.java:252-255 | an angle outside [0, pi/2] throws IllegalArgument; otherwise maxAbsDot becomes its cosine |
| LegacyOrbitCamera.OrbitCamera.SetPreferredUpDirection | GarrettLibrary/src/main/java/jme3utilities/camera/OrbitCamera.java:262-267 | a zero direction throws IllegalArgument; otherwise the normalized direction is stored |
| LegacyOrbitCamera.OrbitCamera.SetSignalName | GarrettLibrary/src/main/java/jme3utilities/camera/OrbitCamera.java:275-278 | only the given function's signal name changes (a null name removes it) |
| LegacyOrbitCamera.OrbitCamera.SetTarget | GarrettLibrary/src/main/java/jme3utilities/camera/OrbitCamera.java:285-296 | the current target is a no-op; a new target becomes current and the camera's distance to it becomes the preferred range |
| LegacyOrbitCamera.OrbitCamera.SetZoomMultiplier | GarrettLibrary/src/main/java/jme3utilities/camera/OrbitCamera.java:304-306 | any multiplier is stored |
| LegacyOrbitCamera.OrbitCamera.Attach | GarrettLibrary/src/main/java/jme3utilities/camera/OrbitCamera.java:328-339 | the state manager's initialization sets the initialized flag |
| LegacyOrbitCamera.OrbitCamera.Enable | GarrettLibrary/src/main/java/jme3utilities/camera/OrbitCamera.java:629-677 | without a target, IllegalState and nothing changes; otherwise the camera is named "orbit camera", the distance to the target becomes the preferred range, and the flag is set |
| LegacyOrbitCamera.OrbitCamera.Disable | GarrettLibrary/src/main/java/jme3utilities/camera/OrbitCamera.java:607-624 | the flag is cleared |
| LegacyOrbitCamera.OrbitCamera.SetEnabled | GarrettLibrary/src/main/java/jme3utilities/camera/OrbitCamera.java:328-339 | the outcome and new flag are EnabledAfter's; the enable side effects happen exactly on a successful off-to-on change |
| LegacyOrbitCamera.OrbitCamera.OnAnalog | GarrettLibrary/src/main/java/jme3utilities/camera/OrbitCamera.java:557-600 | an empty name or negative reading or tpf throws IllegalArgument, as does an unknown name; orbit events change the yaw/pitch sums by plus or minus the reading only while dragging; zoom events always change the zoom sum |
| LegacyOrbitCamera.OrbitCamera.MinObstructionFraction | GarrettLibrary/src/main/java/jme3utilities/camera/OrbitCamera.java:515-527 | the hit loop returns the closest fraction among hits that are not the target and pass the filter, 1 when none |
| LegacyOrbitCamera.OrbitCamera.Update | GarrettLibrary/src/main/java/jme3utilities/camera/OrbitCamera.java:347-546 | without a target, target collision object or collision space the controller disables itself and nothing else changes; otherwise the frame obeys Framed |
| LegacyOrbitCamera.OrbitCamera.Frame | GarrettLibrary/src/main/java/jme3utilities/camera/OrbitCamera.java:427-546 | a zero offset (range 0) fails the assertion at line 432 and changes nothing; a zero steered offset fails the unit-look assertion at line 482; otherwise the camera faces FrameLook, stands at FrameLocation, the preferred range follows the range rule and the focal zoom is applied |
| LegacyOrbitCamera.OrbitCamera.Advance | GarrettLibrary/src/main/java/jme3utilities/camera/OrbitCamera.java:434-546 | the frame after the range check, with the same Framed promise |
| LegacyOrbitCamera.OrbitCamera.Settle | GarrettLibrary/src/main/java/jme3utilities/camera/OrbitCamera.java:464-546 | the camera faces LookFor of the steered offset with the camera axes built from the preferred up direction, the range and preferred range follow LegacyRange, the camera is placed by FinalLocation, and the zoom is applied and its analog sum cleared |
| LegacyOrbitCamera.OrbitCamera.Steer | GarrettLibrary/src/main/java/jme3utilities/camera/OrbitCamera.java:434-460 | the steered offset is SteeredOffset of the current offset, camera axes, signal sums and analog sums, and the drag sums are cleared |
| LegacyOrbitCamera.OrbitCamera.PlaceOnSightline | GarrettLibrary/src/main/java/jme3utilities/camera/OrbitCamera.java:505-532 | the camera location becomes FinalLocation |
| LegacyOrbitCamera.OrbitCamera.ApplyFocalZoom | GarrettLibrary/src/main/java/jme3utilities/camera/OrbitCamera.java:537-545 | the tangent becomes the focal-zoomed tangent (discrete zoom by exp(dir tpf), then analog zoom by exp(multiplier sum)), the analog zoom sum is cleared, and the camera's tangent is written when any zoom happened |
| AffixedCamera.Switched | GarrettLibrary/src/main/java/com/github/stephengold/garrett/AffixedCamera.java:459-484 | the signal loop's running zoom direction stays in [-1, 1] |
| AffixedCamera.SwitchedStep | GarrettLibrary/src/main/java/com/github/stephengold/garrett/AffixedCamera.java:459-484 | visiting one more function moves the loop exactly as the switch does: an inactive function changes nothing, an active zoom function adds or subtracts 1, an active azimuth-orbit function throws, the rest change nothing |
| AffixedCamera.SwitchedAll | GarrettLibrary/src/main/java/com/github/stephengold/garrett/AffixedCamera.java:459-484 | over all functions the loop throws exactly when OrbitCcw or OrbitCw is active, and otherwise yields [ZoomIn active] - [ZoomOut active] |
| AffixedCamera.NormalizeTwice | GarrettLibrary/src/main/java/com/github/stephengold/garrett/AffixedCamera.java:272-277 | storing a stored (normalized) direction again changes nothing |
| AffixedCamera.AffixedCamera.constructor | GarrettLibrary/src/main/java/com/github/stephengold/garrett/AffixedCamera.java:77-158 | a new controller is disabled and detached with no rigid body and no camera name, looks along local +Z with +Y up and no offset, has tangent bounds [0.01, 2], zoom multiplier 0.3 and no signal names |
| AffixedCamera.AffixedCamera.Magnify | GarrettLibrary/src/main/java/com/github/stephengold/garrett/AffixedCamera.java:238-248 | a non-positive factor throws IllegalArgument; otherwise, while attached and enabled, the camera's tangent becomes the clamped quotient, and is untouched otherwise |
| AffixedCamera.AffixedCamera.SetCameraName | GarrettLibrary/src/main/java/com/github/stephengold/garrett/AffixedCamera.java:258-264 | renaming throws IllegalState while attached and enabled and otherwise stores the name, null included |
| AffixedCamera.AffixedCamera.SetLookDirection | GarrettLibrary/src/main/java/com/github/stephengold/garrett/AffixedCamera.java:272-277 | a zero direction throws IllegalArgument; otherwise the stored direction is the unit normalization, equal to the argument when that is already unit |
| AffixedCamera.AffixedCamera.SetMaxMinMagnification | GarrettLibrary/src/main/java/com/github/stephengold/garrett/AffixedCamera.java:287-299 | min must be positive and max in [min, Float.MAX_VALUE] (else IllegalArgument, nothing changes); the bounds become 1/max and 1/min and a live camera's tangent is re-clamped |
| AffixedCamera.AffixedCamera.SetOffset | GarrettLibrary/src/main/java/com/github/stephengold/garrett/AffixedCamera.java:306-309 | the offset is stored |
| AffixedCamera.AffixedCamera.SetRigidBody | GarrettLibrary/src/main/java/com/github/stephengold/garrett/AffixedCamera.java:316-323 | the camera is affixed to the given body |
| AffixedCamera.AffixedCamera.SetSignalName | GarrettLibrary/src/main/java/com/github/stephengold/garrett/AffixedCamera.java:331-334 | only the given function's signal name changes (a null name removes it) |
| AffixedCamera.AffixedCamera.SetUpDirection | GarrettLibrary/src/main/java/com/github/stephengold/garrett/AffixedCamera.java:342-347 | a zero direction throws IllegalArgument; otherwise the stored up direction is the unit normalization, equal to the argument when that is already unit |
| AffixedCamera.AffixedCamera.SetZoomMultiplier | GarrettLibrary/src/main/java/com/github/stephengold/garrett/AffixedCamera.java:355-358 | a non-positive multiplier throws IllegalArgument; otherwise it is stored |
| AffixedCamera.AffixedCamera.OnAnalog | GarrettLibrary/src/main/java/com/github/stephengold/garrett/AffixedCamera.java:380-398 | an empty name, negative reading or negative tpf throws IllegalArgument, as does any name but "zoom in"/"zoom out"; those add or subtract the reading |
| AffixedCamera.AffixedCamera.Enable | GarrettLibrary/src/main/java/com/github/stephengold/garrett/AffixedCamera.java:534-561 | without a rigid body, IllegalState and the camera keeps its name; otherwise the camera takes the configured name |
| AffixedCamera.AffixedCamera.Attach | GarrettLibrary/src/main/java/com/github/stephengold/garrett/AffixedCamera.java:420-445 | attaching marks the controller initialized and runs enable when it was already enabled and not yet initialized |
| AffixedCamera.AffixedCamera.SetEnabled | GarrettLibrary/src/main/java/com/github/stephengold/garrett/AffixedCamera.java:429-445 | the flag always takes the new setting; an attached off-to-on change runs enable (throwing IllegalState without a rigid body), anything else leaves the camera's name alone |
| AffixedCamera.AffixedCamera.SwitchSignals | GarrettLibrary/src/main/java/com/github/stephengold/garrett/AffixedCamera.java:459-484 | the loop returns Switched over all functions and the active set |
| AffixedCamera.AffixedCamera.ZoomFocally | GarrettLibrary/src/main/java/com/github/stephengold/garrett/AffixedCamera.java:501-511 | the camera's tangent becomes the focal-zoomed tangent (discrete, then analog zoom) and the analog sum is cleared |
| AffixedCamera.AffixedCamera.Update | GarrettLibrary/src/main/java/com/github/stephengold/garrett/AffixedCamera.java:449-512 | without a rigid body nothing changes; an active azimuth-orbit function throws IllegalState before anything changes; otherwise the camera looks along the body-rotated look direction with the body-rotated up direction, stands at the body's location plus the rotated offset, and zooms |
| ChaseOption.OnlyFreeOrbitIsFree | GarrettLibrary/src/main/java/com/github/stephengold/garrett/ChaseOption.java:50-82 | FreeOrbit is the one option whose azimuth is not strict |
| ChaseOption.DeltaThetaInRange | GarrettLibrary/src/main/java/com/github/stephengold/garrett/ChaseOption.java:50-82 | every azimuth offset lies in [-PI, PI]; it is zero exactly for FreeOrbit and StrictFollow and negative exactly for StrictLeft; HALF_PI is half of PI |
| ChaseOption.CameraNamesDistinct | GarrettLibrary/src/main/java/com/github/stephengold/garrett/ChaseOption.java:50-82 | two options have the same camera name exactly when they are the same option |
| ChaseOption.AllOptionsComplete | GarrettLibrary/src/main/java/com/github/stephengold/garrett/ChaseOption.java:39-82 | values() lists each of the five options exactly once |
| ChaseOption.OffsetAndStrictnessIdentify | GarrettLibrary/src/main/java/com/github/stephengold/garrett/ChaseOption.java:110-145 | the azimuth offset and strictness together identify the option |
| GarrettDemo.CyclePosition | GarrettExamples/src/main/java/com/github/stephengold/garrett/examples/GarrettDemo.java:408-431 | each response has a position in [0, 4) in the cycle Clip, WarpBias, WarpNoBias, XRay |
| GarrettDemo.NextAdvancesCycle | GarrettExamples/src/main/java/com/github/stephengold/garrett/examples/GarrettDemo.java:408-431 | the hotkey moves a response one place round the four-place cycle, never to itself |
| GarrettDemo.CyclePositionInjective | GarrettExamples/src/main/java/com/github/stephengold/garrett/examples/GarrettDemo.java:408-431 | the position identifies the response |
| GarrettDemo.StepsAdvance | GarrettExamples/src/main/java/com/github/stephengold/garrett/examples/GarrettDemo.java:408-431 | n presses move the response n places round the cycle |
| GarrettDemo.FourStepsRestore | GarrettExamples/src/main/java/com/github/stephengold/garrett/examples/GarrettDemo.java:408-431 | n presses restore the response exactly when n is a multiple of 4 |
| GarrettDemo.OnlyActive | GarrettExamples/src/main/java/com/github/stephengold/garrett/examples/GarrettDemo.java:484-497 | the enabled set holds at most one controller, and exactly the active one |
| GarrettDemo.Demo.constructor | GarrettExamples/src/main/java/com/github/stephengold/garrett/examples/GarrettDemo.java:180-227 | after registration every controller is disabled and none is active |
| GarrettDemo.Demo.NextObstructionResponse | GarrettExamples/src/main/java/com/github/stephengold/garrett/examples/GarrettDemo.java:408-431 | an active orbit camera's response advances one place; otherwise nothing changes |
| GarrettDemo.Demo.SetCameraController | GarrettExamples/src/main/java/com/github/stephengold/garrett/examples/GarrettDemo.java:484-497 | an unknown name or the active controller's name changes nothing; otherwise the named controller becomes active and the only enabled one |
| GarrettDemo.Demo.ResetCamera | GarrettExamples/src/main/java/com/github/stephengold/garrett/examples/GarrettDemo.java:436-446 | the "WatchCam" controller becomes active and the only enabled one |

## Left out

- **Java `float` and `double` rounding.** Arithmetic is on real numbers.
  Three effects are therefore not modelled:
  - the 0.01 stopping gap of `sightline`'s two bisections always closes here,
    whereas in `float` a very large range (above about 2^17) could leave the
    midpoint equal to an end point;
  - `Validate.finite` checks, since every real is finite;
  - rounding in every product, quotient and square root.
- **`Common.Lawful`'s law `Cos(m, m.pi / 2.0) == 0.0` is stronger than Java.**
  In Java, `Math.cos(FastMath.HALF_PI)` is about -4.4e-8, because HALF_PI is
  the single-precision value, slightly above pi/2.
  - `ExclusionCamera` clamps a negative cosine to 0, so it is unaffected.
  - `DynamicCamera.setPoleExclusionAngle(HALF_PI)` and the legacy
    `OrbitCamera.setPoleExclusionAngle(HALF_PI)` store that slightly negative
    `maxAbsDot` in Java. Their `Valid()` requires `0 <= maxAbsDot`, so the
    model excludes the state the source reaches. In that state the source's
    pole check treats every look direction as excluded.
- **Math and physics are oracle functions.** `FastMath.exp`, `Math.cos`,
  `Math.sqrt`, quaternion rotation (`Quaternion.fromAngles`/`mult`,
  `getPhysicsRotation`), `MyVector3f.generateBasis`, `MyMath` helpers,
  `Camera.lookAtDirection`'s axis computation, the mouse ray
  (`MyCamera.mouseRay`), ray tests, sweep tests and the frustum ghost's
  `contactTest` are fields of `Common.MathOracle` and `Common.Physics`.
  - Only the laws listed in `Lawful`, `ExpLaw`, `RotationLaw` and
    `SaneFractions` are assumed of them.
  - The geometry of the frustum ghost, a box shape that the source builds,
    is not modelled.
- **OrbitCamera.Rescaled keeps a zero vector** where Java's
  `offset.multLocal(range / offset.length())` divides by zero and produces
  NaN components. Rescaling only happens when the discrete orbit step moves
  the camera exactly onto the target. `OrbitCamera.OrbitKeepsRange` and
  `LegacyOrbitCamera.SteeredKeepsRange` exclude that case explicitly.
- **Java asserts**, file by file (paths as in the "## Model" table):
  - *Lifecycle asserts become preconditions.* `assert isEnabled()`,
    `isInitialized()` and `!isEnabled()` at the start of `onAnalog`,
    `onEnable`, `onDisable` and `initialize` become `requires` clauses.
    The flag protocol (`SetEnabled`, `Attach`) only runs the hooks in those
    states, and input listeners are only registered while enabled. This
    covers CameraController.java:362 and 408, AffixedCamera.java:384,
    DynamicCamera.java:635, 725 and 749, OrbitCamera.java:458 and 709, and
    the legacy OrbitCamera.java:192, 562, 608-609 and 630-631.
  - *Asserts modelled as a `Thrown(AssertionFailed)` outcome:*
    - the legacy OrbitCamera.java:432 (range > 0) and 482 (unit look);
    - ExclusionCamera.java:129 (`maxDot > minDot`; see "## Findings");
    - DynamicCamera.java:604 (unit look). `DynamicCamera.DynamicCamera.Update`
      throws exactly when the settled look is zero, and
      `DynamicCamera.OppositeRayVanishes` shows that this happens with
      point-to-look toward a ray straight behind the view.
  - *Asserts the model proves:*
    - the getter asserts on stored fields, which `Valid()` carries:
      CameraController.java:194, 206 and 302; AffixedCamera.java:366;
      DynamicCamera.java:308, 320, 332, 342, 355 and 483;
      OrbitCamera.java:207, 220-221, 288-289 and 299;
    - the non-null asserts (CameraController.java:167 and 337,
      DynamicCamera.java:271 and 281, OrbitCamera.java:240), since the
      model's types have no null;
    - ExclusionCamera.java:151, an ensures of
      `ExclusionCamera.ExclusionCamera.SetPoleExclusionAngles`;
    - ExclusionCamera.java:209, by `ExclusionCamera.AvoidedIsAllowedUnit`;
    - OrbitCamera.java:829 and 962, where the fraction lies in (0, 1] and
      [0, 1]. These are the preconditions of
      `OrbitCamera.OrbitCamera.FractionSearch` and
      `OrbitCamera.OrbitCamera.TestFrustum`, checked at every call;
    - OrbitCamera.java:835 (`max > min`), a loop invariant of
      `OrbitCamera.OrbitCamera.FractionSearch`.
  - *An assert that holds by construction.* OrbitCamera.java:685 (the
    non-warping branch runs only for Clip) is not restated. `Frame` passes
    `XrayVision()`, which is true whenever the response is XRay.
  - *Asserts dropped, because the model does not show that they hold:*
    - `tmpLeft.isUnitVector()` and `tmpUp.isUnitVector()` at
      OrbitCamera.java:600 and 604, the legacy OrbitCamera.java:439 and 443,
      and DynamicCamera.java:843-844. They read the camera's left and up
      axes, and `Common.Camera` keeps no invariant that those are unit:
      `LookAtDirection` normalizes "left" but leaves it zero when the look
      is parallel to the world up, and other code can set the fields.
    - `tmpLook.isUnitVector()` at DynamicCamera.java:842 reads the camera's
      direction for the same reason. `DynamicCamera.DynamicCamera.Update`
      does leave it unit after every update that completes.
    - `!camera.isParallelProjection()` at DynamicCamera.java:816 and
      OrbitCamera.java:1010, since projections are not modelled.
  - *GarrettDemo asserts.* The assertion in `setCameraController`
    (GarrettDemo.java:491) is an `assert` statement in
    `GarrettDemo.Demo.SetCameraController`, proved from the demo's
    invariant. The `assert success` after each `attach`
    (GarrettDemo.java:190-251) and the physics-space asserts at 456 and 458
    belong to scene setup and restart, which are not part of this model.
- **ExclusionCamera.AvoidExclusionCones** is a pure function returning the
  adjusted direction. Java rewrites its `Vector3f` argument in place. Its
  one caller, `OrbitCamera.update`, passes a temporary and then uses the
  adjusted value, so no aliasing is lost.
- **Input mappings, listeners and the cursor.** These calls are dropped:
  - `InputManager.addMapping`/`deleteMapping`/`addListener`/`removeListener`;
  - `setCursorVisible`;
  - logging;
  - the perspective reconfiguration that `enable` applies to a
    parallel-projection camera.

  The model keeps the enabled flag, the camera name and the state each
  `enable` reads or writes.
- **DynamicCamera's `updateRigidBodySize`** (resizing the shell to the near
  plane) and the physics-space registration of the shell and tick listener
  are dropped. The shell is a `RigidBody` object whose mass, velocity, ghost
  flag and location the model tracks.
- **DynamicCamera's disable** unhooks the shell from the physics space; here
  it only clears the flag.
- **DynamicCamera.PointedLook** is the intended point-to-look step, and the
  model's `Update` uses it. The code as written is
  `DynamicCamera.PointedLookAsWritten`; see Findings.
- **The signal enums differ from the source's `CameraSignal`.**
  - DynamicCamera consults functions (DragToRotate, Ghost, Ram, PointToLook,
    the world and preferred directions, ...) that the `CameraSignal` enum in
    this repository lacks. The model declares them in
    `DynamicCamera.DynamicSignal`.
  - The legacy OrbitCamera's `OcFunction` enum is not part of this model. It
    names the same ten functions as `CameraSignal`, so the legacy model uses
    `Signals.CameraSignal`.
- **Getters and copy methods** are read directly as fields, and have no
  members: `cameraName()`, `copyLookDirection`, `getRigidBody`,
  `zoomMultiplier()`, `getObstructionResponse`, and others.
- **Not part of this model:**
  - `cleanup` and the other app-state callbacks beyond
    initialize/enable/disable;
  - `GarrettVersion`;
  - the example applications other than GarrettDemo's response cycling and
    controller switching;
  - DemoSpace scene building;
  - GarrettDemo's HUD text, key bindings and restart logic.
- **Time** (`tpf`) and **input readings** are parameters. The clock and the
  devices behind them are outside the model.
- **Nullable fields are modelled as `Option`.**
  - Camera names (`Camera.name`, every controller's `cameraName`) can be
    `None`, because the source's setters accept null.
  - A controller's target or rigid body is `None` until set.
- **AffixedCamera.AffixedCamera.Valid** does not require the look and up
  directions to be unit vectors. The setters store normalized directions
  (`SetLookDirection`, `SetUpDirection` ensure `IsUnit`), but `Update` does
  not depend on it.
- **Common.Camera.LookAtDirection** stores the look direction as given. jME's
  `Camera.lookAtDirection` normalizes it, and normalizes "up" too. The
  model's other callers pass unit vectors:
  - `ExclusionCamera.ExclusionCamera.ReorientCamera` requires one;
  - `DynamicCamera.DynamicCamera.Turn` faces only a nonzero settled look;
  - the legacy `OrbitCamera` faces only a nonzero look after its pole check.

  `AffixedCamera.AffixedCamera.Update` passes the body's rotation of the
  stored look. That rotation is unit only when the rotation keeps lengths.

## Findings

| source | as written | input that shows it | evidently intended | confidence | as-written member | corrected member |
|---|---|---|---|---|---|---|
| GarrettLibrary/src/main/java/com/github/stephengold/garrett/ExclusionCamera.java:120-130 | `setPoleExclusionAngle` accepts minAngle up to HALF_PI, clamps the cosine to at least 0, stores maxDot = cos and minDot = -cos, then asserts `maxDot > minDot` | minAngle = HALF_PI: the clamped cosine is 0, so maxDot = minDot = 0 and the assertion fails (with assertions enabled) for an argument the validation accepts | the cones may meet at the horizon: assert `maxDot >= minDot`, which holds for every accepted angle | not executed | ExclusionCamera.PoleAssertionFailsAtHalfPi | ExclusionCamera.PoleDotsOrdered |
| GarrettLibrary/src/main/java/com/github/stephengold/garrett/DynamicCamera.java:557-567 | `delta = newDir.subtractLocal(tmpLook)` rewrites `newDir` in place, so the within-reach branch `tmpLook.set(newDir)` stores newDir - look instead of the mouse ray's direction | look = (0, 0, -1) with PointToLook active. A mouse ray along the look gives a zero look, and the unit-vector assertion at line 604 fails. A ray of normalize(0.005, 0, -1) with ptlTurnRate 0.5 and tpf 1/60 is within reach, and the view swings about 90 degrees to (1, 0, 0.0025) | within reach, the look becomes the ray's direction, so the look never moves more than ptlTurnRate * tpf per frame | not executed | DynamicCamera.PointedLookAsWrittenDiverges | DynamicCamera.PointedLookTurnsAtMost |
