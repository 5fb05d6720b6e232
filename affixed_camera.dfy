/*
 * com.github.stephengold.garrett.AffixedCamera: an app state that keeps a
 * camera rigidly attached to a rigid body -- the camera faces the body's
 * rotated "look" direction from the body's location plus its rotated offset
 * -- with focal zoom as the only input. Its signal switch ignores the
 * translation, orbit-up/down and X-ray functions and throws on the two
 * azimuth-orbit functions, which make no sense for an affixed camera.
 */
module AffixedCamera {
  import opened Common
  import opened Signals
  import CC = CameraController
  import OC = OrbitCamera

  // ---------------------------------------------------------------------
  // The signal switch

  /**
   * What the signal loop of update yields once the functions in `visited`
   * have been looked at, given the set of active functions: an
   * IllegalStateException as soon as an active orbit-azimuth function has
   * been seen, otherwise the zoom direction [ZoomIn] - [ZoomOut] so far.
   */
  function Switched(visited: seq<CameraSignal>, active: set<CameraSignal>): (r: Result<int>)
    ensures r.Ok? ==> -1 <= r.value <= 1
  {
    if (OrbitCcw in visited && OrbitCcw in active) || (OrbitCw in visited && OrbitCw in active)
    then Err(IllegalState)
    else Ok(OC.Opposed(ZoomIn in visited && ZoomIn in active, ZoomOut in visited && ZoomOut in active))
  }

  /** One case of the switch: the zoom functions count, the orbit-azimuth ones throw, the rest do nothing. */
  function SwitchCase(zoom: int, f: CameraSignal): Result<int> {
    match f
    case ZoomIn => Ok(zoom + 1)
    case ZoomOut => Ok(zoom - 1)
    case OrbitCcw => Err(IllegalState)
    case OrbitCw => Err(IllegalState)
    case _ => Ok(zoom)   // Back, DragToOrbit, Forward, OrbitDown, OrbitUp, Xray
  }

  /**
   * Visiting one more function moves Switched exactly as the switch does:
   * an inactive function changes nothing, and an active one goes through
   * SwitchCase unless an exception has already been thrown.
   */
  lemma SwitchedStep(visited: seq<CameraSignal>, f: CameraSignal, active: set<CameraSignal>)
    requires f !in visited
    ensures Switched(visited + [f], active) ==
              if f !in active then Switched(visited, active)
              else if Switched(visited, active).Err? then Switched(visited, active)
              else SwitchCase(Switched(visited, active).value, f)
  {
    forall g
      ensures g in visited + [f] <==> g in visited || g == f
    {
    }
  }

  /**
   * Over all of CameraSignal.values(), the loop throws exactly when OrbitCcw
   * or OrbitCw is active, and otherwise yields the zoom direction
   * [ZoomIn] - [ZoomOut], whatever the other functions do.
   */
  lemma SwitchedAll(active: set<CameraSignal>)
    ensures Switched(AllSignals, active).Err? <==> OrbitCcw in active || OrbitCw in active
    ensures Switched(AllSignals, active).Ok? ==>
              Switched(AllSignals, active).value == Indicator(ZoomIn in active) - Indicator(ZoomOut in active)
  {
    AllSignalsComplete(OrbitCcw);
    AllSignalsComplete(OrbitCw);
    AllSignalsComplete(ZoomIn);
    AllSignalsComplete(ZoomOut);
  }

  /** Normalizing a nonzero direction twice is normalizing it once: re-storing a stored direction changes nothing. */
  lemma NormalizeTwice(m: MathOracle, v: Vec3)
    requires Lawful(m) && !IsZero(v)
    ensures Normalize(m, Normalize(m, v)) == Normalize(m, v)
  {
    NormalizeIsUnit(m, v);
    NormalizeIsUnit(m, Normalize(m, v));
  }

  // ---------------------------------------------------------------------
  // The rigid body and the controller

  /**
   * The parts of the PhysicsRigidBody the controller reads: its physics
   * rotation, as the map it applies to a local vector (getPhysicsRotation
   * followed by Quaternion.mult), and the location of its motion state.
   */
  class RigidBody {
    var rotation: Vec3 -> Vec3
    var location: Vec3

    constructor (rotation: Vec3 -> Vec3, location: Vec3)
      ensures this.rotation == rotation && this.location == location
    {
      this.rotation := rotation;
      this.location := location;
    }
  }

  class AffixedCamera {
    const camera: Camera
    const tracker: SignalTracker
    const math: MathOracle
    var signalNames: map<CameraSignal, string>
    var maxYTangent: real
    var minYTangent: real
    var zoomAnalogSum: real
    var zoomMultiplier: real
    var rigidBody: Option<RigidBody>
    var cameraName: Option<string>
    var lookDirection: Vec3   // in the body's local coordinates; unit once set
    var offset: Vec3          // from the body's center of mass, in scaled local coordinates
    var upDirection: Vec3     // in the body's local coordinates; unit once set
    var initialized: bool     // BaseAppState.isInitialized
    var enabled: bool         // BaseAppState.isEnabled

    ghost predicate Valid()
      reads this
    {
      && Lawful(math)
      && 0.0 < minYTangent <= maxYTangent
      && zoomMultiplier > 0.0
    }

    /** Attached to the state manager and enabled: the camera may be written. */
    predicate Live()
      reads this
    {
      initialized && enabled
    }

    /**
     * new AffixedCamera(id, camera, tracker): disabled, no rigid body and no
     * camera name, looking along local +Z with local +Y up and no offset,
     * and no signal named for any function.
     */
    constructor (camera: Camera, tracker: SignalTracker, math: MathOracle)
      requires Lawful(math)
      ensures Valid()
      ensures this.camera == camera && this.tracker == tracker && this.math == math
      ensures !initialized && !enabled && rigidBody == None && cameraName == None
      ensures signalNames == map[]
      ensures maxYTangent == 2.0 && minYTangent == 0.01
      ensures zoomAnalogSum == 0.0 && zoomMultiplier == 0.3
      ensures lookDirection == Vec3(0.0, 0.0, 1.0) && upDirection == Vec3(0.0, 1.0, 0.0) && offset == Zero
    {
      this.camera := camera;
      this.tracker := tracker;
      this.math := math;
      signalNames := map[];
      maxYTangent := 2.0;
      minYTangent := 0.01;
      zoomAnalogSum := 0.0;
      zoomMultiplier := 0.3;
      rigidBody := None;
      cameraName := None;
      lookDirection := Vec3(0.0, 0.0, 1.0);
      offset := Zero;
      upDirection := Vec3(0.0, 1.0, 0.0);
      initialized := false;
      enabled := false;
    }

    /** isActive: the function has a signal name and the tracker reports that signal active. */
    predicate IsActive(f: CameraSignal)
      reads this, tracker
    {
      f in signalNames && tracker.Test(signalNames[f])
    }

    /** The functions currently active. */
    ghost function ActiveFunctions(): set<CameraSignal>
      reads this, tracker
    {
      set g | g in AllSignals && IsActive(g)
    }

    /** magnify: reject a non-positive factor, else zoom the camera by it when live. */
    method Magnify(factor: real) returns (outcome: Outcome)
      requires Valid()
      modifies camera`yTangent
      ensures outcome == if factor > 0.0 then Done else Thrown(IllegalArgument)
      ensures camera.yTangent ==
                if factor > 0.0 && Live()
                then CC.Magnified(old(camera.yTangent), factor, minYTangent, maxYTangent)
                else old(camera.yTangent)
    {
      if factor <= 0.0 {
        return Thrown(IllegalArgument);
      }
      var frustumYTangent := camera.yTangent / factor;
      frustumYTangent := Clamp(frustumYTangent, minYTangent, maxYTangent);
      if initialized && enabled {
        camera.yTangent := frustumYTangent;
      }
      return Done;
    }

    /** setCameraName: refused while attached and enabled. */
    method SetCameraName(name: Option<string>) returns (outcome: Outcome)
      modifies this`cameraName
      ensures outcome == if old(Live()) then Thrown(IllegalState) else Done
      ensures cameraName == if outcome.Done? then name else old(cameraName)
    {
      if initialized && enabled {
        return Thrown(IllegalState);
      }
      cameraName := name;
      return Done;
    }

    /** setLookDirection: a zero direction is rejected, any other is stored normalized. */
    method SetLookDirection(direction: Vec3) returns (outcome: Outcome)
      requires Valid()
      modifies this`lookDirection
      ensures Valid()
      ensures outcome == if IsZero(direction) then Thrown(IllegalArgument) else Done
      ensures lookDirection == if outcome.Done? then Normalize(math, direction) else old(lookDirection)
      ensures outcome.Done? ==> IsUnit(lookDirection)
      ensures outcome.Done? && IsUnit(direction) ==> lookDirection == direction
    {
      if IsZero(direction) {
        return Thrown(IllegalArgument);
      }
      NormalizeIsUnit(math, direction);
      lookDirection := Normalize(math, direction);
      return Done;
    }

    /**
     * setMaxMinMagnification: min must be positive and max in [min,
     * Float.MAX_VALUE]; the tangent bounds become 1/max and 1/min, and a live
     * camera's tangent is re-clamped into them.
     */
    method SetMaxMinMagnification(min: real, max: real) returns (outcome: Outcome)
      requires Valid()
      modifies this`minYTangent, this`maxYTangent, camera`yTangent
      ensures outcome == if min > 0.0 && min <= max <= CC.FloatMaxValue then Done else Thrown(IllegalArgument)
      ensures Valid()
      ensures outcome.Thrown? ==> minYTangent == old(minYTangent) && maxYTangent == old(maxYTangent)
      ensures outcome.Done? ==> minYTangent == 1.0 / max && maxYTangent == 1.0 / min
      ensures outcome.Done? ==> 1.0 / minYTangent == max && 1.0 / maxYTangent == min
      ensures camera.yTangent ==
                if outcome.Done? && Live()
                then Clamp(old(camera.yTangent), minYTangent, maxYTangent)
                else old(camera.yTangent)
    {
      if min <= 0.0 || !(min <= max <= CC.FloatMaxValue) {
        return Thrown(IllegalArgument);
      }
      var frustumYTangent := camera.yTangent;
      minYTangent := 1.0 / max;
      maxYTangent := 1.0 / min;
      CC.InverseAntitone(min, max);
      CC.ReciprocalTwice(max);
      CC.ReciprocalTwice(min);
      frustumYTangent := Clamp(frustumYTangent, minYTangent, maxYTangent);
      if initialized && enabled {
        camera.yTangent := frustumYTangent;
      }
      return Done;
    }

    /** setOffset: any offset is accepted (every real is finite). */
    method SetOffset(desiredOffset: Vec3)
      modifies this`offset
      ensures offset == desiredOffset
    {
      offset := desiredOffset;
    }

    /** setRigidBody: affix the camera to the body; the same body again changes nothing. */
    method SetRigidBody(body: RigidBody)
      modifies this`rigidBody
      ensures rigidBody == Some(body)
    {
      if rigidBody != Some(body) {
        rigidBody := Some(body);
      }
    }

    /** setSignalName: name (or, with None, un-name) the signal for a function. */
    method SetSignalName(f: CameraSignal, name: Option<string>)
      modifies this`signalNames
      ensures signalNames == if name.Some? then old(signalNames)[f := name.value]
                             else old(signalNames) - {f}
    {
      if name.Some? {
        signalNames := signalNames[f := name.value];
      } else {
        signalNames := signalNames - {f};
      }
    }

    /** setUpDirection: a zero direction is rejected, any other is stored normalized. */
    method SetUpDirection(direction: Vec3) returns (outcome: Outcome)
      requires Valid()
      modifies this`upDirection
      ensures Valid()
      ensures outcome == if IsZero(direction) then Thrown(IllegalArgument) else Done
      ensures upDirection == if outcome.Done? then Normalize(math, direction) else old(upDirection)
      ensures outcome.Done? ==> IsUnit(upDirection)
      ensures outcome.Done? && IsUnit(direction) ==> upDirection == direction
    {
      if IsZero(direction) {
        return Thrown(IllegalArgument);
      }
      NormalizeIsUnit(math, direction);
      upDirection := Normalize(math, direction);
      return Done;
    }

    method SetZoomMultiplier(multiplier: real) returns (outcome: Outcome)
      requires Valid()
      modifies this`zoomMultiplier
      ensures Valid()
      ensures outcome == if multiplier > 0.0 then Done else Thrown(IllegalArgument)
      ensures zoomMultiplier == if outcome.Done? then multiplier else old(zoomMultiplier)
    {
      if multiplier <= 0.0 {
        return Thrown(IllegalArgument);
      }
      zoomMultiplier := multiplier;
      return Done;
    }

    /**
     * onAnalog: validate the event, then add a "zoom in" reading to the
     * accumulator or subtract a "zoom out" one; any other name is rejected.
     */
    method OnAnalog(eventName: string, reading: real, tpf: real) returns (outcome: Outcome)
      requires enabled
      modifies this`zoomAnalogSum
      ensures outcome ==
                if eventName == [] || reading < 0.0 || tpf < 0.0 then Thrown(IllegalArgument)
                else if CC.AnalogZoomDelta(eventName, reading).None? then Thrown(IllegalArgument)
                else Done
      ensures zoomAnalogSum ==
                if outcome.Done? then old(zoomAnalogSum) + CC.AnalogZoomDelta(eventName, reading).value
                else old(zoomAnalogSum)
    {
      if eventName == [] || reading < 0.0 || tpf < 0.0 {
        return Thrown(IllegalArgument);
      }
      if eventName == CC.AnalogZoomIn {
        zoomAnalogSum := zoomAnalogSum + reading;
      } else if eventName == CC.AnalogZoomOut {
        zoomAnalogSum := zoomAnalogSum - reading;
      } else {
        return Thrown(IllegalArgument);
      }
      return Done;
    }

    // -------------------------------------------------------------------
    // Lifecycle

    /** enable: throw without a rigid body; otherwise name the camera. */
    method Enable() returns (outcome: Outcome)
      modifies camera`name
      ensures outcome == if rigidBody.None? then Thrown(IllegalState) else Done
      ensures camera.name == if outcome.Done? then cameraName else old(camera.name)
    {
      if rigidBody.None? {
        return Thrown(IllegalState);
      }
      camera.name := cameraName;
      return Done;
    }

    /**
     * BaseAppState.initialize as driven by the state manager: mark the
     * controller attached and, if it is already enabled, run enable, whose
     * exception propagates.
     */
    method Attach() returns (outcome: Outcome)
      modifies this`initialized, camera`name
      ensures initialized
      ensures outcome == if enabled && !old(initialized) && rigidBody.None? then Thrown(IllegalState) else Done
      ensures camera.name == if enabled && !old(initialized) && rigidBody.Some? then cameraName
                             else old(camera.name)
    {
      outcome := Done;
      if !initialized {
        initialized := true;
        if enabled {
          outcome := Enable();
        }
      }
    }

    /**
     * BaseAppState.setEnabled: flip the flag first; if attached and the
     * flag changed, run enable or disable. The flag stays set when enable
     * throws for want of a rigid body.
     */
    method SetEnabled(b: bool) returns (outcome: Outcome)
      modifies this`enabled, camera`name
      ensures enabled == b
      ensures outcome == if b && !old(enabled) && initialized && rigidBody.None? then Thrown(IllegalState) else Done
      ensures camera.name == if b && !old(enabled) && initialized && rigidBody.Some? then cameraName
                             else old(camera.name)
    {
      outcome := Done;
      if enabled == b {
        return;
      }
      enabled := b;
      if initialized && b {
        outcome := Enable();
      }
    }

    // -------------------------------------------------------------------
    // update

    /**
     * The signal loop of update: visit the functions in declaration order;
     * an active zoom function moves the zoom direction, an active
     * orbit-azimuth function throws, and the other active ones are ignored.
     */
    method SwitchSignals() returns (r: Result<int>)
      ensures r == Switched(AllSignals, ActiveFunctions())
    {
      ghost var active := ActiveFunctions();
      var zoom := 0;
      for i := 0 to |AllSignals|
        invariant Switched(AllSignals[..i], active) == Ok(zoom)
      {
        var f := AllSignals[i];
        OC.NotYetVisited(i);
        SwitchedStep(AllSignals[..i], f, active);
        AllSignalsComplete(f);
        assert f in active <==> IsActive(f);
        if IsActive(f) {
          match f
          case ZoomIn =>
            zoom := zoom + 1;
          case ZoomOut =>
            zoom := zoom - 1;
          case OrbitCcw =>
            return Err(IllegalState);
          case OrbitCw =>
            return Err(IllegalState);
          case _ =>
        }
      }
      assert AllSignals[..|AllSignals|] == AllSignals;
      return Ok(zoom);
    }

    /**
     * The tail of update: a discrete zoom by exp(dir * tpf), then the
     * accumulated analog zoom by exp(zoomMultiplier * zoomAnalogSum), which
     * empties the accumulator.
     */
    method ZoomFocally(dir: int, tpf: real)
      requires Valid()
      modifies this`zoomAnalogSum, camera`yTangent
      ensures zoomAnalogSum == 0.0
      ensures camera.yTangent ==
                CC.FocalZoomed(math, old(camera.yTangent), dir, tpf, old(zoomAnalogSum),
                               zoomMultiplier, minYTangent, maxYTangent, Live())
    {
      var discreteFactor := CC.DiscreteZoomFactor(math, dir, tpf);
      var analogFactor := CC.AnalogZoomFactor(math, zoomMultiplier, zoomAnalogSum);
      if dir != 0 {
        var _ := Magnify(discreteFactor);
      }
      if zoomAnalogSum != 0.0 {
        var _ := Magnify(analogFactor);
        zoomAnalogSum := 0.0;
      }
    }

    /**
     * update: without a rigid body, nothing happens. Otherwise the signal
     * loop runs (and may throw before anything changes); then the camera
     * looks along the body-rotated look direction with the body-rotated up
     * direction as "up", stands at the body's location plus the
     * body-rotated offset, and zooms.
     */
    method Update(tpf: real) returns (outcome: Outcome)
      requires Valid()
      modifies this`zoomAnalogSum, camera`direction, camera`left, camera`up, camera`location, camera`yTangent
      ensures Valid()
      ensures outcome ==
                if old(rigidBody).Some? && Switched(AllSignals, old(ActiveFunctions())).Err?
                then Thrown(IllegalState) else Done
      ensures old(rigidBody).None? || outcome.Thrown? ==>
                unchanged(camera) && zoomAnalogSum == old(zoomAnalogSum)
      ensures old(rigidBody).Some? && outcome.Done? ==>
                && camera.direction == old(rigidBody.value.rotation(lookDirection))
                && camera.left == Normalize(math, Cross(old(rigidBody.value.rotation(upDirection)), camera.direction))
                && camera.up == Cross(camera.direction, camera.left)
                && camera.location == old(Add(rigidBody.value.location, rigidBody.value.rotation(offset)))
                && zoomAnalogSum == 0.0
                && camera.yTangent ==
                     CC.FocalZoomed(math, old(camera.yTangent), Switched(AllSignals, old(ActiveFunctions())).value,
                                    tpf, old(zoomAnalogSum), zoomMultiplier, minYTangent, maxYTangent, Live())
    {
      if rigidBody.None? {
        return Done;
      }
      var switched := SwitchSignals();
      if switched.Err? {
        return Thrown(switched.failure);
      }
      var body := rigidBody.value;
      var look := body.rotation(lookDirection);
      var up := body.rotation(upDirection);
      var location := Add(body.location, body.rotation(offset));
      camera.LookAtDirection(math, look, up);
      camera.location := location;
      ZoomFocally(switched.value, tpf);
      return Done;
    }
  }
}
