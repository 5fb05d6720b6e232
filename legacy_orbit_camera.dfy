/*
 * jme3utilities.camera.OrbitCamera: the older orbit controller that Garrett's
 * OrbitCamera grew out of. It keeps its own focal-zoom tangent in a field,
 * runs an explicit enable/disable state machine, pulls the camera back out
 * to the preferred range whenever there is no forward input, and shortens
 * the sightline to the closest obstruction on a ray from the target.
 *
 * The function enum it switches over (OcFunction) names the same ten
 * functions as CameraSignal, so the model reuses CameraSignal for it. The
 * ray test is the `Physics` oracle of the target's collision space.
 */
module LegacyOrbitCamera {
  import opened Common
  import opened Signals
  import opened CameraController
  import OC = OrbitCamera
  import DC = DynamicCamera

  /** The name enable() gives the camera. */
  const OrbitCameraName: string := "orbit camera"

  // ---------------------------------------------------------------------
  // The state machine of setEnabled

  /**
   * What setEnabled(newSetting) does to the enabled flag: it throws a
   * RuntimeException unless the controller is initialized, enable() throws
   * when no target is set, and otherwise the flag ends up as requested.
   */
  function EnabledAfter(initialized: bool, enabled: bool, hasTarget: bool, newSetting: bool): (r: Result<bool>)
    ensures r.Err? <==> !initialized || (newSetting && !enabled && !hasTarget)
    ensures !initialized ==> r == Err(Unchecked)
    ensures initialized && newSetting && !enabled && !hasTarget ==> r == Err(IllegalState)
    ensures r.Ok? ==> r.value == newSetting
  {
    if !initialized then Err(Unchecked)
    else if newSetting && !enabled then (if hasTarget then Ok(true) else Err(IllegalState))
    else if !newSetting && enabled then Ok(false)
    else Ok(enabled)
  }

  /** Which private hook setEnabled runs: enable() or disable() only on a real transition. */
  function HookRun(initialized: bool, enabled: bool, newSetting: bool): (t: Transition)
    ensures t == Enabling <==> initialized && newSetting && !enabled
    ensures t == Disabling <==> initialized && !newSetting && enabled
  {
    if !initialized then NoChange
    else if newSetting && !enabled then Enabling
    else if !newSetting && enabled then Disabling
    else NoChange
  }

  /**
   * setEnabled is idempotent: once a call has succeeded, repeating it with
   * the same setting runs no hook and keeps the flag.
   */
  lemma SetEnabledIdempotent(initialized: bool, enabled: bool, hasTarget: bool, newSetting: bool)
    requires EnabledAfter(initialized, enabled, hasTarget, newSetting).Ok?
    ensures var e := EnabledAfter(initialized, enabled, hasTarget, newSetting).value;
            && HookRun(initialized, e, newSetting) == NoChange
            && EnabledAfter(initialized, e, hasTarget, newSetting) == Ok(e)
  {
  }

  // ---------------------------------------------------------------------
  // One frame

  /**
   * The offset after this frame's orbit input: the discrete orbit step (as
   * in the newer controller), then the analog drag, whose angles scale with
   * the display height and the stored Y tangent.
   */
  function SteeredOffset(m: MathOracle, offset: Vec3, left: Vec3, up: Vec3, orbitCw: int, orbitUp: int,
                         orbitRate: real, tpf: real, pitchSum: real, yawSum: real, height: nat,
                         yTangent: real): Vec3
    requires Lawful(m)
  {
    var orbited := OC.OrbitedOffset(m, offset, left, up, orbitCw, orbitUp, orbitRate, tpf);
    if pitchSum != 0.0 || yawSum != 0.0 then
      Rotate(m, DC.DragAngle(height, yTangent, pitchSum), DC.DragAngle(height, yTangent, yawSum), orbited)
    else orbited
  }

  /**
   * Orbit input moves the camera around the target without changing its
   * distance, unless the discrete step lands exactly on the target.
   */
  lemma SteeredKeepsRange(m: MathOracle, offset: Vec3, left: Vec3, up: Vec3, orbitCw: int, orbitUp: int,
                          orbitRate: real, tpf: real, pitchSum: real, yawSum: real, height: nat,
                          yTangent: real)
    requires Lawful(m) && OC.RotationLaw(m)
    ensures var o := SteeredOffset(m, offset, left, up, orbitCw, orbitUp, orbitRate, tpf, pitchSum, yawSum,
                                   height, yTangent);
            IsZero(o) || Length(m, o) == Length(m, offset)
  {
    var orbited := OC.OrbitedOffset(m, offset, left, up, orbitCw, orbitUp, orbitRate, tpf);
    OC.OrbitKeepsRange(m, offset, left, up, orbitCw, orbitUp, orbitRate, tpf);
    if pitchSum != 0.0 || yawSum != 0.0 {
      RotationKeepsLength(m, DC.DragAngle(height, yTangent, pitchSum), DC.DragAngle(height, yTangent, yawSum),
                          orbited);
    }
  }

  /** A rotation keeps a vector's length, and so keeps a nonzero vector nonzero. */
  lemma RotationKeepsLength(m: MathOracle, pitch: real, yaw: real, v: Vec3)
    requires Lawful(m) && OC.RotationLaw(m)
    ensures Length(m, Rotate(m, pitch, yaw, v)) == Length(m, v)
    ensures IsZero(Rotate(m, pitch, yaw, v)) <==> IsZero(v)
  {
    var r := Rotate(m, pitch, yaw, v);
    assert LengthSquared(r) == LengthSquared(v);
    SquareRootUnique(Length(m, r), Length(m, v));
  }

  /**
   * The look direction for a steered offset: the reversed offset,
   * normalized, with its up-component clamped into [-maxAbsDot, maxAbsDot].
   */
  function LookFor(m: MathOracle, offset: Vec3, up: Vec3, maxAbsDot: real): Vec3
    requires Lawful(m) && 0.0 <= maxAbsDot <= 1.0
  {
    DC.PoleClamped(m, Normalize(m, OC.Reversed(offset)), up, maxAbsDot)
  }

  /**
   * The look direction is zero exactly when the offset is: a zero offset
   * fails the unit-look assertion of update, any other one does not.
   */
  lemma LookOfZero(m: MathOracle, offset: Vec3, up: Vec3, maxAbsDot: real)
    requires Lawful(m) && IsUnit(up) && 0.0 <= maxAbsDot <= 1.0
    ensures IsZero(offset) <==> IsZero(LookFor(m, offset, up, maxAbsDot))
  {
    if IsZero(offset) {
      ZeroOffsetLook(m, offset, up, maxAbsDot);
    } else {
      LookIsAllowed(m, offset, up, maxAbsDot);
      UnitNonZero(LookFor(m, offset, up, maxAbsDot));
    }
  }

  /** A zero offset gives the zero look direction. */
  lemma ZeroOffsetLook(m: MathOracle, offset: Vec3, up: Vec3, maxAbsDot: real)
    requires Lawful(m) && 0.0 <= maxAbsDot <= 1.0 && IsZero(offset)
    ensures IsZero(LookFor(m, offset, up, maxAbsDot))
  {
    ReversedZero(offset);
    NormalizeIsUnit(m, Zero);
    ZeroLookKept(m, Zero, up, maxAbsDot);
  }

  /** The zero vector reversed is the zero vector. */
  lemma ReversedZero(v: Vec3)
    requires IsZero(v)
    ensures OC.Reversed(v) == Zero
  {
  }

  /**
   * For a nonzero offset the look direction is a unit vector at least the
   * pole exclusion angle away from the preferred up direction, and a
   * reversed offset that already keeps that distance is only normalized.
   */
  lemma LookIsAllowed(m: MathOracle, offset: Vec3, up: Vec3, maxAbsDot: real)
    requires Lawful(m) && IsUnit(up) && 0.0 <= maxAbsDot <= 1.0 && !IsZero(offset)
    ensures IsUnit(LookFor(m, offset, up, maxAbsDot))
    ensures Abs(Dot(LookFor(m, offset, up, maxAbsDot), up)) <= maxAbsDot
    ensures Abs(Dot(Normalize(m, OC.Reversed(offset)), up)) <= maxAbsDot ==>
              LookFor(m, offset, up, maxAbsDot) == Normalize(m, OC.Reversed(offset))
  {
    var n := Normalize(m, OC.Reversed(offset));
    NormalizeIsUnit(m, OC.Reversed(offset));
    DC.PoleClampedIsAllowedUnit(m, n, up, maxAbsDot);
  }

  /** The pole clamp keeps the zero vector. */
  lemma ZeroLookKept(m: MathOracle, look: Vec3, up: Vec3, maxAbsDot: real)
    requires Lawful(m) && 0.0 <= maxAbsDot <= 1.0 && IsZero(look)
    ensures DC.PoleClamped(m, look, up, maxAbsDot) == look
  {
    assert Dot(look, up) == 0.0;
  }

  /**
   * The range rule of update, returning (range, preferredRange): forward
   * input scales the range by exp(-tpf * forwardSum) and makes it the
   * preferred range when moving forward or with X-ray vision; without
   * forward input the range is raised to the preferred range; the range is
   * then capped at half the far plane distance.
   */
  function LegacyRange(m: MathOracle, range: real, preferred: real, forwardSum: int, tpf: real,
                       xrayVision: bool, far: real): (rp: (real, real))
  {
    var scaled := range * OC.Stretch(m, tpf, forwardSum);
    var r :=
      if forwardSum != 0 then scaled
      else if range < preferred then preferred
      else range;
    var p := if forwardSum != 0 && (forwardSum > 0 || xrayVision) then scaled else preferred;
    (if r > 0.5 * far then 0.5 * far else r, p)
  }

  /**
   * The legacy range rule is the newer controller's rule for the WarpBias
   * obstruction response.
   */
  lemma LegacyRangeIsWarpBias(m: MathOracle, range: real, preferred: real, forwardSum: int, tpf: real,
                              xrayVision: bool, far: real)
    ensures LegacyRange(m, range, preferred, forwardSum, tpf, xrayVision, far)
            == OC.RangeRule(m, range, preferred, forwardSum, tpf, OC.WarpBias, xrayVision, far)
  {
    OC.RangeRuleUnfolds(m, range, preferred, forwardSum, tpf, OC.WarpBias, xrayVision, far);
  }

  /**
   * So the legacy rule keeps the WarpBias promises: the range is capped at
   * half the far distance; the preferred range changes only with forward
   * input that moves forward or has X-ray vision, and then the range follows
   * it; without forward input the range is the longer of range and
   * preferred range, capped.
   */
  lemma LegacyRangeProperties(m: MathOracle, range: real, preferred: real, forwardSum: int, tpf: real,
                              xrayVision: bool, far: real)
    requires ExpLaw(m) && range >= 0.0 && tpf >= 0.0
    ensures OC.RangeRuleHolds(range, preferred, forwardSum, OC.WarpBias, xrayVision, far,
                              LegacyRange(m, range, preferred, forwardSum, tpf, xrayVision, far))
  {
    LegacyRangeIsWarpBias(m, range, preferred, forwardSum, tpf, xrayVision, far);
    OC.RangeRuleProperties(m, range, preferred, forwardSum, tpf, OC.WarpBias, xrayVision, far);
  }

  /** A nonnegative range and preferred range give a nonnegative new preferred range. */
  lemma LegacyPreferredNonNegative(m: MathOracle, range: real, preferred: real, forwardSum: int, tpf: real,
                                   xrayVision: bool, far: real)
    requires ExpLaw(m) && range >= 0.0 && preferred >= 0.0
    ensures LegacyRange(m, range, preferred, forwardSum, tpf, xrayVision, far).1 >= 0.0
  {
    var stretch := OC.Stretch(m, tpf, forwardSum);
    assert stretch > 0.0;
    assert range * stretch >= 0.0;
  }

  /**
   * The fraction of the range the camera ends up at: 1 with X-ray vision,
   * otherwise the closest obstruction on the ray from the target to the
   * camera, or 1 when none is closer.
   */
  function SightFraction(space: Physics, center: Vec3, look: Vec3, range: real, xrayVision: bool,
                         targetPco: Pco, filter: Option<Pco -> bool>): (f: real)
    ensures f <= 1.0
    ensures xrayVision ==> f == 1.0
  {
    if xrayVision then 1.0
    else OC.ClosestFraction(space.rayTest(center, OC.CameraLocation(center, look, range)), targetPco, filter)
  }

  /**
   * Where update puts the camera: at the range behind the target along the
   * look direction, and without X-ray vision that offset scaled by the
   * closest obstruction fraction.
   */
  function FinalLocation(space: Physics, center: Vec3, look: Vec3, range: real, xrayVision: bool,
                         targetPco: Pco, filter: Option<Pco -> bool>): Vec3
  {
    var offset := Scale(look, -range);
    if xrayVision then Add(center, offset)
    else Add(center, Scale(offset, SightFraction(space, center, look, range, xrayVision, targetPco, filter)))
  }

  /**
   * The sight fraction f lies in [0, 1] when the ray test reports fractions
   * in [0, 1], so the camera never stands farther than the range.
   */
  lemma SightFractionBounds(space: Physics, center: Vec3, look: Vec3, range: real,
                            xrayVision: bool, targetPco: Pco, filter: Option<Pco -> bool>)
    requires range >= 0.0 && OC.SaneFractions(space)
    ensures var f := SightFraction(space, center, look, range, xrayVision, targetPco, filter);
            0.0 <= f <= 1.0 && 0.0 <= range * f <= range
  {
    var f := SightFraction(space, center, look, range, xrayVision, targetPco, filter);
    assert 0.0 <= f by {
      if !xrayVision {
        OC.ClosestFractionInUnitInterval(space.rayTest(center, OC.CameraLocation(center, look, range)), targetPco, filter);
      }
    }
    OC.ScaleByFraction(range, f);
  }

  /**
   * The camera stands behind the target along the look direction at
   * range * f, where f is the sight fraction: the whole range with X-ray
   * vision or when no hit obstructs.
   */
  lemma PlacementOffset(space: Physics, center: Vec3, look: Vec3, range: real,
                        xrayVision: bool, targetPco: Pco, filter: Option<Pco -> bool>)
    ensures var f := SightFraction(space, center, look, range, xrayVision, targetPco, filter);
            Sub(FinalLocation(space, center, look, range, xrayVision, targetPco, filter), center)
              == Scale(look, -(range * f))
  {
    var f := SightFraction(space, center, look, range, xrayVision, targetPco, filter);
    var w := if xrayVision then Scale(look, -range) else Scale(Scale(look, -range), f);
    assert FinalLocation(space, center, look, range, xrayVision, targetPco, filter) == Add(center, w);
    SubAdd(center, w);
    SightOffset(look, range, f, xrayVision);
  }

  /** The offset update places the camera at: -range * look, scaled by f unless X-ray vision. */
  lemma SightOffset(look: Vec3, range: real, f: real, xrayVision: bool)
    requires xrayVision ==> f == 1.0
    ensures (if xrayVision then Scale(look, -range) else Scale(Scale(look, -range), f)) == Scale(look, -(range * f))
  {
    assert -range * f == -(range * f);
    if !xrayVision {
      DC.ScaleTwice(look, -range, f);
    }
  }

  /** Adding a vector and then subtracting the start gives the vector back. */
  lemma SubAdd(c: Vec3, w: Vec3)
    ensures Sub(Add(c, w), c) == w
  {
  }

  /** A unit vector scaled by -d, for d >= 0, has length d. */
  lemma ReversedUnitLength(m: MathOracle, look: Vec3, d: real)
    requires Lawful(m) && IsUnit(look) && d >= 0.0
    ensures Length(m, Scale(look, -d)) == d
  {
    var r := Length(m, Scale(look, -d));
    ReversedLengthSquared(look, d);
    SquareRootUnique(r, d);
  }

  /** The squared length of a unit vector scaled by -d is d * d. */
  lemma ReversedLengthSquared(look: Vec3, d: real)
    requires IsUnit(look)
    ensures LengthSquared(Scale(look, -d)) == d * d
  {
    LengthSquaredScale(look, -d);
    assert (-d) * (-d) == d * d;
  }

  // ---------------------------------------------------------------------
  // The controller

  class OrbitCamera {
    const camera: Camera
    const tracker: SignalTracker
    const math: MathOracle
    const obstructionFilter: Option<Pco -> bool>   // None: every non-target object obstructs
    var maxAbsDot: real
    var signalNames: map<CameraSignal, string>
    var frustumYTangent: real
    var maxYTangent: real
    var minYTangent: real
    var orbitRate: real                  // radians per second
    var pitchAnalogSum: real             // drag since the last update, in 1024-pixel units
    var preferredRange: real             // distance to the target with X-ray vision
    var yawAnalogSum: real
    var zoomAnalogSum: real              // clicks since the last update
    var zoomMultiplier: real             // log units per click
    var target: Option<Target>
    var preferredUpDirection: Vec3
    var initialized: bool                // attached to the state manager
    var enabled: bool

    ghost predicate Valid()
      reads this`minYTangent, this`frustumYTangent, this`maxYTangent, this`maxAbsDot, this`preferredUpDirection, this`orbitRate, this`preferredRange
    {
      && Lawful(math)
      && 0.0 < minYTangent <= frustumYTangent <= maxYTangent
      && 0.0 <= maxAbsDot <= 1.0
      && IsUnit(preferredUpDirection)
      && orbitRate >= 0.0
      && preferredRange >= 0.0
    }

    /** Attached and enabled: the camera may be written. */
    predicate Live()
      reads this`initialized, this`enabled
    {
      initialized && enabled
    }

    /**
     * A disabled controller with the default signal names, a Y tangent of 1
     * within [0.01, 2], and a pole-exclusion angle of 0.3 radians.
     */
    constructor (camera: Camera, tracker: SignalTracker, math: MathOracle, obstructionFilter: Option<Pco -> bool>)
      requires Lawful(math)
      ensures Valid()
      ensures this.camera == camera && this.tracker == tracker && this.math == math
      ensures this.obstructionFilter == obstructionFilter
      ensures !initialized && !enabled && target.None?
      ensures maxAbsDot == Cos(math, 0.3)
      ensures signalNames == map[Back := "FLYCAM_Backward", DragToOrbit := "cameraDrag",
                                 Forward := "FLYCAM_Forward", OrbitCcw := "FLYCAM_StrafeRight",
                                 OrbitCw := "FLYCAM_StrafeLeft", OrbitDown := "FLYCAM_Lower",
                                 OrbitUp := "FLYCAM_Rise"]
      ensures frustumYTangent == 1.0 && maxYTangent == 2.0 && minYTangent == 0.01
      ensures orbitRate == 0.5 && preferredRange == 10.0 && zoomMultiplier == 0.5
      ensures pitchAnalogSum == 0.0 && yawAnalogSum == 0.0 && zoomAnalogSum == 0.0
      ensures preferredUpDirection == Vec3(0.0, 1.0, 0.0)
    {
      this.camera := camera;
      this.tracker := tracker;
      this.math := math;
      this.obstructionFilter := obstructionFilter;
      CosInBand(math, 0.3);
      maxAbsDot := Cos(math, 0.3);
      signalNames := map[Back := "FLYCAM_Backward", DragToOrbit := "cameraDrag",
                         Forward := "FLYCAM_Forward", OrbitCcw := "FLYCAM_StrafeRight",
                         OrbitCw := "FLYCAM_StrafeLeft", OrbitDown := "FLYCAM_Lower",
                         OrbitUp := "FLYCAM_Rise"];
      frustumYTangent := 1.0;
      maxYTangent := 2.0;
      minYTangent := 0.01;
      orbitRate := 0.5;
      pitchAnalogSum := 0.0;
      preferredRange := 10.0;
      yawAnalogSum := 0.0;
      zoomAnalogSum := 0.0;
      zoomMultiplier := 0.5;
      target := None;
      preferredUpDirection := Vec3(0.0, 1.0, 0.0);
      initialized := false;
      enabled := false;
    }

    /** The function's signal is named and the tracker reports it active. */
    predicate IsActive(f: CameraSignal)
      reads this`signalNames, tracker
    {
      f in signalNames && tracker.Test(signalNames[f])
    }

    /** isDragging: the DragToOrbit signal is active. */
    predicate IsDragging()
      reads this`signalNames, tracker
    {
      IsActive(DragToOrbit)
    }

    /** The active functions. */
    ghost function ActiveFunctions(): set<CameraSignal>
      reads this`signalNames, tracker
    {
      set g | g in AllSignals && IsActive(g)
    }

    /** The sums update's signal loop yields, from the active functions. */
    function Sums(): (s: OC.SignalSums)
      reads this`signalNames, tracker
      ensures -1 <= s.forward <= 1 && -1 <= s.orbitUp <= 1 && -1 <= s.orbitCw <= 1 && -1 <= s.zoom <= 1
    {
      OC.SignalSums(OC.Opposed(IsActive(Forward), IsActive(Back)),
                    OC.Opposed(IsActive(OrbitUp), IsActive(OrbitDown)),
                    OC.Opposed(IsActive(OrbitCw), IsActive(OrbitCcw)),
                    OC.Opposed(IsActive(ZoomIn), IsActive(ZoomOut)))
    }

    // -------------------------------------------------------------------
    // Setters

    /**
     * magnify: reject a non-positive factor; otherwise divide the stored
     * tangent by it and clamp it into [minYTangent, maxYTangent] -- even
     * while disabled -- and write it to the camera only when live.
     */
    method Magnify(factor: real) returns (outcome: Outcome)
      requires Valid()
      modifies this`frustumYTangent, camera`yTangent
      ensures Valid()
      ensures outcome == if factor > 0.0 then Done else Thrown(IllegalArgument)
      ensures frustumYTangent ==
                if factor > 0.0 then Magnified(old(frustumYTangent), factor, minYTangent, maxYTangent)
                else old(frustumYTangent)
      ensures camera.yTangent == if factor > 0.0 && Live() then frustumYTangent else old(camera.yTangent)
    {
      if factor <= 0.0 {
        return Thrown(IllegalArgument);
      }
      frustumYTangent := frustumYTangent / factor;
      frustumYTangent := Clamp(frustumYTangent, minYTangent, maxYTangent);
      if initialized && enabled {
        camera.yTangent := frustumYTangent;
      }
      return Done;
    }

    /**
     * setMaxMinMagnification: min must be positive and max in [min,
     * Float.MAX_VALUE]; the tangent bounds become 1/max and 1/min, the stored
     * tangent is re-clamped into them, and a live camera gets it.
     */
    method SetMaxMinMagnification(min: real, max: real) returns (outcome: Outcome)
      requires Valid()
      modifies this`minYTangent, this`maxYTangent, this`frustumYTangent, camera`yTangent
      ensures Valid()
      ensures outcome == if min > 0.0 && min <= max <= FloatMaxValue then Done else Thrown(IllegalArgument)
      ensures outcome.Done? ==> minYTangent == 1.0 / max && maxYTangent == 1.0 / min
      ensures outcome.Done? ==> 1.0 / minYTangent == max && 1.0 / maxYTangent == min
      ensures outcome.Done? ==> frustumYTangent == Clamp(old(frustumYTangent), minYTangent, maxYTangent)
      ensures outcome.Thrown? ==>
                minYTangent == old(minYTangent) && maxYTangent == old(maxYTangent)
                && frustumYTangent == old(frustumYTangent)
      ensures camera.yTangent == if outcome.Done? && Live() then frustumYTangent else old(camera.yTangent)
    {
      if min <= 0.0 || !(min <= max <= FloatMaxValue) {
        return Thrown(IllegalArgument);
      }
      minYTangent := 1.0 / max;
      maxYTangent := 1.0 / min;
      InverseAntitone(min, max);
      ReciprocalTwice(max);
      ReciprocalTwice(min);
      frustumYTangent := Clamp(frustumYTangent, minYTangent, maxYTangent);
      if initialized && enabled {
        camera.yTangent := frustumYTangent;
      }
      return Done;
    }

    /** setOrbitRate: reject a negative rate. */
    method SetOrbitRate(rate: real) returns (outcome: Outcome)
      requires Valid()
      modifies this`orbitRate
      ensures Valid()
      ensures outcome == if rate >= 0.0 then Done else Thrown(IllegalArgument)
      ensures orbitRate == if outcome.Done? then rate else old(orbitRate)
    {
      if rate < 0.0 {
        return Thrown(IllegalArgument);
      }
      orbitRate := rate;
      return Done;
    }

    /**
     * setPoleExclusionAngle: the angle must lie in [0, pi/2]; maxAbsDot
     * becomes its cosine.
     */
    method SetPoleExclusionAngle(minAngle: real) returns (outcome: Outcome)
      requires Valid()
      modifies this`maxAbsDot
      ensures Valid()
      ensures outcome == if 0.0 <= minAngle <= math.pi / 2.0 then Done else Thrown(IllegalArgument)
      ensures maxAbsDot == if outcome.Done? then Cos(math, minAngle) else old(maxAbsDot)
    {
      if !(0.0 <= minAngle <= math.pi / 2.0) {
        return Thrown(IllegalArgument);
      }
      CosInBand(math, minAngle);
      maxAbsDot := Cos(math, minAngle);
      return Done;
    }

    /** setPreferredUpDirection: reject the zero vector, store the direction normalized. */
    method SetPreferredUpDirection(direction: Vec3) returns (outcome: Outcome)
      requires Valid()
      modifies this`preferredUpDirection
      ensures Valid()
      ensures outcome == if IsZero(direction) then Thrown(IllegalArgument) else Done
      ensures preferredUpDirection ==
                if outcome.Done? then Normalize(math, direction) else old(preferredUpDirection)
    {
      if IsZero(direction) {
        return Thrown(IllegalArgument);
      }
      NormalizeIsUnit(math, direction);
      preferredUpDirection := Normalize(math, direction);
      return Done;
    }

    /** setSignalName: name (or, with None, un-name) the signal for a function. */
    method SetSignalName(f: CameraSignal, name: Option<string>)
      modifies this`signalNames
      ensures signalNames == if name.Some? then old(signalNames)[f := name.value]
                             else old(signalNames) - {f}
    {
      if name.Some? {
        signalNames := signalNames[f := name.value];
      } else {
        signalNames := signalNames - {f};
      }
    }

    /**
     * setTarget: a no-op for the current target; a new target becomes
     * current, and the camera's distance to it becomes the preferred range.
     */
    method SetTarget(newTarget: Target)
      requires Valid()
      modifies this`target, this`preferredRange
      ensures Valid()
      ensures old(target) == Some(newTarget) ==> target == old(target) && preferredRange == old(preferredRange)
      ensures old(target) != Some(newTarget) ==>
                target == Some(newTarget)
                && preferredRange == Length(math, Sub(camera.location, newTarget.location))
    {
      if target != Some(newTarget) {
        target := Some(newTarget);
        preferredRange := Length(math, Sub(camera.location, newTarget.location));
      }
    }

    /** setZoomMultiplier: any multiplier is accepted. */
    method SetZoomMultiplier(multiplier: real)
      modifies this`zoomMultiplier
      ensures zoomMultiplier == multiplier
    {
      zoomMultiplier := multiplier;
    }

    // -------------------------------------------------------------------
    // Enabling and disabling

    /** The state manager attaches the (still disabled) controller. */
    method Attach()
      modifies this`initialized
      ensures initialized
    {
      initialized := true;
    }

    /**
     * enable: throw when there is no target; otherwise name the camera,
     * make the camera's distance to the target the preferred range, and set
     * the flag.
     */
    method Enable() returns (outcome: Outcome)
      requires Valid() && initialized && !enabled
      modifies this`enabled, this`preferredRange, camera`name
      ensures Valid()
      ensures outcome == if old(target).None? then Thrown(IllegalState) else Done
      ensures outcome.Thrown? ==>
                !enabled && preferredRange == old(preferredRange) && camera.name == old(camera.name)
      ensures outcome.Done? ==>
                && enabled && camera.name == Some(OrbitCameraName)
                && preferredRange == Length(math, Sub(camera.location, target.value.location))
    {
      if target.None? {
        return Thrown(IllegalState);
      }
      camera.name := Some(OrbitCameraName);
      preferredRange := Length(math, Sub(camera.location, target.value.location));
      enabled := true;
      return Done;
    }

    /** disable: clear the flag (and release the inputs). */
    method Disable()
      requires initialized && enabled
      modifies this`enabled
      ensures !enabled
    {
      enabled := false;
    }

    /**
     * setEnabled: throw unless initialized; run enable() only on a
     * disabled-to-enabled transition and disable() only on the reverse, so
     * the same setting twice is a no-op.
     */
    method SetEnabled(newSetting: bool) returns (outcome: Outcome)
      requires Valid()
      modifies this`enabled, this`preferredRange, camera`name
      ensures Valid()
      ensures var r := EnabledAfter(old(initialized), old(enabled), old(target).Some?, newSetting);
              && outcome == (if r.Ok? then Done else Thrown(r.failure))
              && enabled == (if r.Ok? then r.value else old(enabled))
      ensures outcome.Done? && HookRun(old(initialized), old(enabled), newSetting) == Enabling ==>
                camera.name == Some(OrbitCameraName)
                && preferredRange == Length(math, Sub(camera.location, target.value.location))
      ensures outcome.Thrown? || HookRun(old(initialized), old(enabled), newSetting) != Enabling ==>
                camera.name == old(camera.name) && preferredRange == old(preferredRange)
    {
      if !initialized {
        return Thrown(Unchecked);
      }
      outcome := Done;
      if newSetting && !enabled {
        outcome := Enable();
      } else if !newSetting && enabled {
        Disable();
      }
    }

    // -------------------------------------------------------------------
    // Analog input

    /**
     * onAnalog: validate the event; the orbit events change the yaw and
     * pitch sums only while dragging, the zoom events always change the zoom
     * sum, and any other name is rejected.
     */
    method OnAnalog(eventName: string, reading: real, tpf: real) returns (outcome: Outcome)
      requires enabled
      modifies this`pitchAnalogSum, this`yawAnalogSum, this`zoomAnalogSum
      ensures outcome ==
                if eventName == [] || reading < 0.0 || tpf < 0.0 then Thrown(IllegalArgument)
                else if OC.OrbitAnalogDelta(eventName, reading).None?
                        && AnalogZoomDelta(eventName, reading).None? then Thrown(IllegalArgument)
                else Done
      ensures var d := OC.OrbitAnalogDelta(eventName, reading);
              if outcome.Done? && d.Some? && IsDragging()
              then yawAnalogSum == old(yawAnalogSum) + d.value.0 && pitchAnalogSum == old(pitchAnalogSum) + d.value.1
              else yawAnalogSum == old(yawAnalogSum) && pitchAnalogSum == old(pitchAnalogSum)
      ensures zoomAnalogSum ==
                if outcome.Done? && AnalogZoomDelta(eventName, reading).Some?
                then old(zoomAnalogSum) + AnalogZoomDelta(eventName, reading).value
                else old(zoomAnalogSum)
    {
      if eventName == [] || reading < 0.0 || tpf < 0.0 {
        return Thrown(IllegalArgument);
      }
      if eventName == OC.AnalogOrbitCcw {
        if IsDragging() {
          yawAnalogSum := yawAnalogSum + reading;
        }
      } else if eventName == OC.AnalogOrbitCw {
        if IsDragging() {
          yawAnalogSum := yawAnalogSum - reading;
        }
      } else if eventName == OC.AnalogOrbitDown {
        if IsDragging() {
          pitchAnalogSum := pitchAnalogSum + reading;
        }
      } else if eventName == OC.AnalogOrbitUp {
        if IsDragging() {
          pitchAnalogSum := pitchAnalogSum - reading;
        }
      } else if eventName == AnalogZoomIn {
        zoomAnalogSum := zoomAnalogSum + reading;
      } else if eventName == AnalogZoomOut {
        zoomAnalogSum := zoomAnalogSum - reading;
      } else {
        return Thrown(IllegalArgument);
      }
      return Done;
    }

    // -------------------------------------------------------------------
    // update

    /**
     * The signal loop of update: visit the functions in declaration order
     * and count each active one toward its sum; DragToOrbit and Xray are
     * ignored.
     */
    method SumSignals() returns (sums: OC.SignalSums)
      ensures sums == Sums()
    {
      ghost var active := ActiveFunctions();
      sums := OC.SignalSums(0, 0, 0, 0);
      for i := 0 to |AllSignals|
        invariant sums == OC.Tally(AllSignals[..i], active)
      {
        var f := AllSignals[i];
        OC.NotYetVisited(i);
        OC.TallyStep(AllSignals[..i], f, active);
        assert f in active <==> IsActive(f);
        if IsActive(f) {
          sums := OC.Counted(sums, f);
        }
      }
      assert AllSignals[..|AllSignals|] == AllSignals;
      forall g
        ensures g in AllSignals && (g in active <==> IsActive(g))
      {
        AllSignalsComplete(g);
      }
    }

    /**
     * The hit loop of update: the smallest fraction among the obstructing
     * hits, starting from 1.
     */
    method MinObstructionFraction(hits: seq<Hit>, targetPco: Pco) returns (minFraction: real)
      ensures minFraction == OC.ClosestFraction(hits, targetPco, obstructionFilter)
    {
      minFraction := 1.0;
      for i := 0 to |hits|
        invariant minFraction == OC.ClosestFraction(hits[..i], targetPco, obstructionFilter)
      {
        assert hits[..i + 1][..i] == hits[..i];
        var hit := hits[i];
        var isObstruction := hit.pco != targetPco && (obstructionFilter.None? || obstructionFilter.value(hit.pco));
        if isObstruction {
          if hit.fraction < minFraction {
            minFraction := hit.fraction;
          }
        }
      }
      assert hits[..|hits|] == hits;
    }

    /** The target is set, has a collision object, and that object is in a collision space. */
    predicate Tracking(space: Physics)
      reads this`target, if target.Some? then {target.value} else {}
    {
      target.Some? && target.value.pco.Some? && target.value.pco.value in space.added
    }

    /** The camera's offset from the target's center. */
    function Offset(): Vec3
      requires target.Some?
      reads this`target, camera`location, target.value`location
    {
      Sub(camera.location, target.value.location)
    }

    /** The offset this frame's orbit input steers to. */
    function Steered(tpf: real): Vec3
      requires Valid() && target.Some?
      reads this`minYTangent, this`frustumYTangent, this`maxYTangent, this`maxAbsDot, this`preferredUpDirection, this`orbitRate, this`preferredRange, this`target, this`pitchAnalogSum, this`yawAnalogSum, this`signalNames, tracker,
            camera`location, camera`left, camera`up, camera`height, target.value`location
    {
      SteeredOffset(math, Offset(), camera.left, camera.up, Sums().orbitCw, Sums().orbitUp, orbitRate, tpf,
                    pitchAnalogSum, yawAnalogSum, camera.height, frustumYTangent)
    }

    /** The look direction this frame settles on. */
    function FrameLook(tpf: real): Vec3
      requires Valid() && target.Some?
      reads this`minYTangent, this`frustumYTangent, this`maxYTangent, this`maxAbsDot, this`preferredUpDirection, this`orbitRate, this`preferredRange, this`target, this`pitchAnalogSum, this`yawAnalogSum, this`signalNames, tracker,
            camera`location, camera`left, camera`up, camera`height, target.value`location
    {
      LookFor(math, Steered(tpf), preferredUpDirection, maxAbsDot)
    }

    /** The (range, preferredRange) this frame's range rule yields. */
    function FrameRange(tpf: real): (real, real)
      requires Valid() && target.Some?
      reads this`minYTangent, this`frustumYTangent, this`maxYTangent, this`maxAbsDot, this`preferredUpDirection, this`orbitRate, this`preferredRange, this`target, this`signalNames, tracker, camera`location, camera`frustumFar,
            target.value`location
    {
      LegacyRange(math, Length(math, Offset()), preferredRange, Sums().forward, tpf, IsActive(Xray),
                  camera.frustumFar)
    }

    /** Where this frame puts the camera. */
    function FrameLocation(tpf: real, space: Physics): Vec3
      requires Valid() && Tracking(space)
      reads this`minYTangent, this`frustumYTangent, this`maxYTangent, this`maxAbsDot, this`preferredUpDirection, this`orbitRate, this`preferredRange, this`target, this`pitchAnalogSum, this`yawAnalogSum, this`signalNames, tracker,
            camera`location, camera`left, camera`up, camera`height, camera`frustumFar, target.value
    {
      FinalLocation(space, target.value.location, FrameLook(tpf), FrameRange(tpf).0, IsActive(Xray),
                    target.value.pco.value, obstructionFilter)
    }

    /**
     * update: one frame while enabled. Without a target, a target collision
     * object or a collision space, the controller disables itself and
     * nothing else changes; otherwise the frame proceeds as Frame describes.
     */
    method Update(tpf: real, space: Physics) returns (outcome: Outcome)
      requires Valid() && Live() && tpf >= 0.0
      modifies this`enabled, this`pitchAnalogSum, this`yawAnalogSum, this`zoomAnalogSum
      modifies this`preferredRange, this`frustumYTangent
      modifies camera`location, camera`direction, camera`left, camera`up, camera`yTangent
      ensures Valid()
      ensures !old(Tracking(space)) ==>
                && outcome == Done && !enabled
                && unchanged(this`pitchAnalogSum, this`yawAnalogSum, this`zoomAnalogSum)
                && unchanged(this`preferredRange, this`frustumYTangent)
                && unchanged(camera)
      ensures old(Tracking(space)) ==> Framed(tpf, space, outcome)
    {
      if !Tracking(space) {
        Disable();
        return Done;
      }
      outcome := Frame(tpf, space);
    }

    /**
     * What a frame with a tracked target does, against the state before it:
     * a camera at the target's center fails the range assertion and changes
     * nothing; a steered offset of zero fails the unit-look assertion after
     * clearing the drag sums; otherwise the camera faces the settled look
     * direction, the range rule sets the preferred range, the camera stands
     * at FrameLocation, and the focal zoom is applied to the stored tangent.
     */
    twostate predicate Framed(tpf: real, space: Physics, outcome: Outcome)
      requires old(Valid()) && old(Tracking(space))
      reads this, camera
    {
      && enabled == old(enabled)
      && (outcome.Thrown? <==> old(IsZero(Offset())) || old(IsZero(Steered(tpf))))
      && (outcome.Thrown? ==>
            && outcome.failure == AssertionFailed
            && unchanged(camera)
            && preferredRange == old(preferredRange)
            && frustumYTangent == old(frustumYTangent)
            && zoomAnalogSum == old(zoomAnalogSum))
      && (outcome.Thrown? && old(IsZero(Offset())) ==>
            pitchAnalogSum == old(pitchAnalogSum) && yawAnalogSum == old(yawAnalogSum))
      && (!old(IsZero(Offset())) ==> pitchAnalogSum == 0.0 && yawAnalogSum == 0.0)
      && (outcome.Done? ==>
            && zoomAnalogSum == 0.0
            && camera.direction == old(FrameLook(tpf))
            && camera.left == Normalize(math, Cross(preferredUpDirection, camera.direction))
            && camera.up == Cross(camera.direction, camera.left)
            && preferredRange == old(FrameRange(tpf)).1
            && camera.location == old(FrameLocation(tpf, space))
            && frustumYTangent == old(FocalZoomed(math, frustumYTangent, Sums().zoom, tpf, zoomAnalogSum,
                                                  zoomMultiplier, minYTangent, maxYTangent, true))
            && camera.yTangent == if old(Sums().zoom != 0 || zoomAnalogSum != 0.0) then frustumYTangent
                                  else old(camera.yTangent))
    }

    /** One frame with a tracked target, as Framed describes. */
    method Frame(tpf: real, space: Physics) returns (outcome: Outcome)
      requires Valid() && Live() && tpf >= 0.0 && Tracking(space)
      modifies this`pitchAnalogSum, this`yawAnalogSum, this`zoomAnalogSum
      modifies this`preferredRange, this`frustumYTangent
      modifies camera`location, camera`direction, camera`left, camera`up, camera`yTangent
      ensures Valid()
      ensures Framed(tpf, space, outcome)
    {
      var offset := Sub(camera.location, target.value.location);
      var range := Length(math, offset);
      if range == 0.0 {
        return Thrown(AssertionFailed);
      }
      outcome := Advance(tpf, space, range);
    }

    /**
     * A frame whose camera is away from the target: sum the signals, steer,
     * and settle unless the steered offset is zero.
     */
    method Advance(tpf: real, space: Physics, range: real) returns (outcome: Outcome)
      requires Valid() && Live() && tpf >= 0.0 && Tracking(space)
      requires range == Length(math, Offset()) && range != 0.0
      modifies this`pitchAnalogSum, this`yawAnalogSum, this`zoomAnalogSum
      modifies this`preferredRange, this`frustumYTangent
      modifies camera`location, camera`direction, camera`left, camera`up, camera`yTangent
      ensures Valid()
      ensures Framed(tpf, space, outcome)
    {
      var offset := Sub(camera.location, target.value.location);
      var sums := SumSignals();
      var steered := Steer(offset, sums, tpf);
      if IsZero(steered) {
        // the look direction is then zero (LookOfZero) and fails the unit-vector assertion
        return Thrown(AssertionFailed);
      }
      Settle(tpf, space, sums, steered, range);
      outcome := Done;
    }

    /**
     * The rest of a frame once the steered offset is known to be nonzero:
     * face the look direction, apply the range rule, place the camera on the
     * sightline, and zoom.
     */
    method Settle(tpf: real, space: Physics, sums: OC.SignalSums, steered: Vec3, range: real)
      requires Valid() && Live() && tpf >= 0.0 && Tracking(space) && range >= 0.0 && sums.zoom == Sums().zoom
      modifies this`zoomAnalogSum, this`preferredRange, this`frustumYTangent
      modifies camera`location, camera`direction, camera`left, camera`up, camera`yTangent
      ensures Valid()
      ensures zoomAnalogSum == 0.0
      ensures camera.direction == LookFor(math, steered, preferredUpDirection, maxAbsDot)
      ensures camera.left == Normalize(math, Cross(preferredUpDirection, camera.direction))
      ensures camera.up == Cross(camera.direction, camera.left)
      ensures var rp := LegacyRange(math, range, old(preferredRange), sums.forward, tpf, old(IsActive(Xray)),
                                    old(camera.frustumFar));
              && preferredRange == rp.1
              && camera.location == FinalLocation(space, old(target.value.location), camera.direction, rp.0,
                                                  old(IsActive(Xray)), old(target.value.pco.value), obstructionFilter)
      ensures frustumYTangent == old(FocalZoomed(math, frustumYTangent, sums.zoom, tpf, zoomAnalogSum,
                                                 zoomMultiplier, minYTangent, maxYTangent, true))
      ensures camera.yTangent == if sums.zoom != 0 || old(zoomAnalogSum) != 0.0 then frustumYTangent
                                 else old(camera.yTangent)
    {
      var m := math;
      var center := target.value.location;
      var targetPco := target.value.pco.value;
      var look := LookFor(m, steered, preferredUpDirection, maxAbsDot);
      camera.LookAtDirection(m, look, preferredUpDirection);
      var xrayVision := IsActive(Xray);
      var rp := LegacyRange(m, range, preferredRange, sums.forward, tpf, xrayVision, camera.frustumFar);
      LegacyPreferredNonNegative(m, range, preferredRange, sums.forward, tpf, xrayVision, camera.frustumFar);
      preferredRange := rp.1;
      var location := PlaceOnSightline(space, center, look, rp.0, xrayVision, targetPco);
      camera.location := location;
      ApplyFocalZoom(sums.zoom, tpf);
    }

    /**
     * The steering part of update: the discrete orbit step, then the analog
     * drag, which clears both drag sums.
     */
    method Steer(offset: Vec3, sums: OC.SignalSums, tpf: real) returns (steered: Vec3)
      requires Valid()
      modifies this`pitchAnalogSum, this`yawAnalogSum
      ensures Valid()
      ensures pitchAnalogSum == 0.0 && yawAnalogSum == 0.0
      ensures steered == SteeredOffset(math, offset, camera.left, camera.up, sums.orbitCw, sums.orbitUp,
                                       orbitRate, tpf, old(pitchAnalogSum), old(yawAnalogSum),
                                       camera.height, frustumYTangent)
      ensures Sums() == old(Sums()) && IsActive(Xray) == old(IsActive(Xray))
      ensures target.Some? ==> FrameRange(tpf) == old(FrameRange(tpf))
      ensures target.Some? && offset == Offset() && sums == Sums() ==> steered == old(Steered(tpf))
    {
      steered := OC.OrbitedOffset(math, offset, camera.left, camera.up, sums.orbitCw, sums.orbitUp, orbitRate, tpf);
      if pitchAnalogSum != 0.0 || yawAnalogSum != 0.0 {
        var pitchAngle := DC.DragAngle(camera.height, frustumYTangent, pitchAnalogSum);
        var yawAngle := DC.DragAngle(camera.height, frustumYTangent, yawAnalogSum);
        steered := Rotate(math, pitchAngle, yawAngle, steered);
        pitchAnalogSum := 0.0;
        yawAnalogSum := 0.0;
      }
    }

    /**
     * The placement part of update: stand at the range behind the target
     * and, without X-ray vision, pull in to the closest obstruction on the
     * ray from the target.
     */
    method PlaceOnSightline(space: Physics, center: Vec3, look: Vec3, range: real, xrayVision: bool,
                            targetPco: Pco) returns (location: Vec3)
      ensures location == FinalLocation(space, center, look, range, xrayVision, targetPco, obstructionFilter)
    {
      var offset := Scale(look, -range);
      location := Add(center, offset);
      if !xrayVision {
        var hits := space.rayTest(center, location);
        var minFraction := MinObstructionFraction(hits, targetPco);
        offset := Scale(offset, minFraction);
        location := Add(center, offset);
      }
    }

    /**
     * The zoom part of update: the discrete zoom, then the accumulated analog
     * zoom, each through magnify; the analog accumulator is empty afterwards.
     */
    method ApplyFocalZoom(dir: int, tpf: real)
      requires Valid() && Live()
      modifies this`frustumYTangent, this`zoomAnalogSum, camera`yTangent
      ensures Valid()
      ensures zoomAnalogSum == 0.0
      ensures frustumYTangent == old(FocalZoomed(math, frustumYTangent, dir, tpf, zoomAnalogSum,
                                                 zoomMultiplier, minYTangent, maxYTangent, true))
      ensures camera.yTangent == if dir != 0 || old(zoomAnalogSum) != 0.0 then frustumYTangent
                                 else old(camera.yTangent)
    {
      var discreteFactor := DiscreteZoomFactor(math, dir, tpf);
      var analogFactor := AnalogZoomFactor(math, zoomMultiplier, zoomAnalogSum);
      if dir != 0 {
        var _ := Magnify(discreteFactor);
      }
      if zoomAnalogSum != 0.0 {
        var _ := Magnify(analogFactor);
        zoomAnalogSum := 0.0;
      }
    }
  }

  /** The cosine of an angle in [0, pi/2] lies in [0, 1]. */
  lemma CosInBand(m: MathOracle, angle: real)
    requires Lawful(m) && 0.0 <= angle <= m.pi / 2.0
    ensures 0.0 <= Cos(m, angle) <= 1.0
  {
    if angle < m.pi / 2.0 {
      assert Cos(m, m.pi / 2.0) < Cos(m, angle);
    }
  }
}
