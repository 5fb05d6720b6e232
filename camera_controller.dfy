/*
 * com.github.stephengold.garrett.CameraController: the plumbing shared by
 * Garrett's controllers -- focal zoom clamped into [minYTangent, maxYTangent],
 * signal activation (default state XOR tracked signal), analog zoom
 * accumulation, and the guard that forbids renaming the camera while the
 * controller is attached and enabled.
 */
module CameraController {
  import opened Common
  import opened Signals

  /** Names of the analog zoom events. */
  const AnalogZoomIn: string := "zoom in"
  const AnalogZoomOut: string := "zoom out"

  /** Float.MAX_VALUE, the upper bound setMaxMinMagnification accepts. */
  const FloatMaxValue: real := 340282346638528859811704183484516925440.0

  // ---------------------------------------------------------------------
  // Specification functions

  /**
   * The tangent magnify(factor) computes: the current tangent divided by the
   * factor, clamped into [lo, hi].
   */
  function Magnified(yTangent: real, factor: real, lo: real, hi: real): (t: real)
    requires factor > 0.0
    ensures lo <= hi ==> lo <= t <= hi
    ensures lo <= yTangent / factor <= hi ==> t == yTangent / factor
  {
    Clamp(yTangent / factor, lo, hi)
  }

  /** Magnifying by a factor >= 1 never widens a tangent that lies in range. */
  lemma MagnifyNarrows(yTangent: real, factor: real, lo: real, hi: real)
    requires factor >= 1.0 && 0.0 < lo <= yTangent <= hi
    ensures Magnified(yTangent, factor, lo, hi) <= yTangent
    ensures factor > 1.0 && yTangent > lo ==> Magnified(yTangent, factor, lo, hi) < yTangent
  {
    var q := yTangent / factor;
    assert q * factor == yTangent;
    assert q > 0.0;
    assert q * 1.0 <= q * factor;
    if factor > 1.0 && yTangent > lo {
      calc {
        q;
        q * 1.0;
      < q * factor;
        yTangent;
      }
    }
  }

  /**
   * magnify(f) followed by magnify(1/f) restores the tangent when neither
   * call hits a bound.
   */
  lemma MagnifyInverse(yTangent: real, factor: real, lo: real, hi: real)
    requires factor > 0.0
    requires lo <= yTangent <= hi && lo <= yTangent / factor <= hi
    ensures Magnified(Magnified(yTangent, factor, lo, hi), 1.0 / factor, lo, hi) == yTangent
  {
    var t := Magnified(yTangent, factor, lo, hi);
    assert t == yTangent / factor;
    calc {
      t / (1.0 / factor);
      (yTangent / factor) * factor;
      yTangent;
    }
  }

  /** The discrete zoom factor for one frame: exp(dir * tpf). */
  function DiscreteZoomFactor(m: MathOracle, dir: int, tpf: real): real {
    Exp(m, (dir as real) * tpf)
  }

  /** The analog zoom factor: exp(multiplier * analogSum). */
  function AnalogZoomFactor(m: MathOracle, multiplier: real, analogSum: real): real {
    Exp(m, multiplier * analogSum)
  }

  /**
   * The Y tangent after applyFocalZoom: a discrete zoom by exp(dir * tpf)
   * first, then an analog zoom by exp(multiplier * analogSum); each is skipped
   * when its input is zero, and neither writes the camera unless `live`
   * (attached and enabled).
   */
  function FocalZoomed(m: MathOracle, yTangent: real, dir: int, tpf: real, analogSum: real,
                       multiplier: real, lo: real, hi: real, live: bool): real
    requires Lawful(m)
  {
    var afterDiscrete :=
      if dir != 0 && live then Magnified(yTangent, DiscreteZoomFactor(m, dir, tpf), lo, hi)
      else yTangent;
    if analogSum != 0.0 && live then Magnified(afterDiscrete, AnalogZoomFactor(m, multiplier, analogSum), lo, hi)
    else afterDiscrete
  }

  /**
   * Focal zoom leaves the tangent alone when the controller is not live or
   * there is no input, lands in [lo, hi] otherwise, and never widens the view
   * when every input asks to zoom in.
   */
  lemma FocalZoomBounds(m: MathOracle, yTangent: real, dir: int, tpf: real, analogSum: real,
                        multiplier: real, lo: real, hi: real, live: bool)
    requires Lawful(m) && lo <= hi
    ensures !live || (dir == 0 && analogSum == 0.0) ==>
              FocalZoomed(m, yTangent, dir, tpf, analogSum, multiplier, lo, hi, live) == yTangent
    ensures live && (dir != 0 || analogSum != 0.0) ==>
              lo <= FocalZoomed(m, yTangent, dir, tpf, analogSum, multiplier, lo, hi, live) <= hi
    ensures 0.0 < lo <= yTangent <= hi && dir >= 0 && tpf >= 0.0 && analogSum >= 0.0 && multiplier > 0.0 ==>
              FocalZoomed(m, yTangent, dir, tpf, analogSum, multiplier, lo, hi, live) <= yTangent
  {
    if 0.0 < lo <= yTangent <= hi && dir >= 0 && tpf >= 0.0 && analogSum >= 0.0 && multiplier > 0.0 {
      var t1 := if dir != 0 && live then Magnified(yTangent, DiscreteZoomFactor(m, dir, tpf), lo, hi)
                else yTangent;
      if dir != 0 && live {
        assert (dir as real) * tpf >= 0.0;
        MagnifyNarrows(yTangent, DiscreteZoomFactor(m, dir, tpf), lo, hi);
      }
      assert lo <= t1 <= yTangent;
      if analogSum != 0.0 && live {
        assert multiplier * analogSum >= 0.0;
        MagnifyNarrows(t1, AnalogZoomFactor(m, multiplier, analogSum), lo, hi);
      }
    }
  }

  /** The signed change one accepted analog zoom event makes to zoomAnalogSum. */
  function AnalogZoomDelta(eventName: string, reading: real): (d: Option<real>)
    ensures d.Some? <==> eventName == AnalogZoomIn || eventName == AnalogZoomOut
    ensures eventName == AnalogZoomIn ==> d == Some(reading)
    ensures eventName == AnalogZoomOut ==> d == Some(-reading)
  {
    if eventName == AnalogZoomIn then Some(reading)
    else if eventName == AnalogZoomOut then Some(-reading)
    else None
  }

  /** A "zoom in" event and a "zoom out" event of equal reading cancel. */
  lemma AnalogZoomCancels(reading: real)
    ensures AnalogZoomDelta(AnalogZoomIn, reading).value + AnalogZoomDelta(AnalogZoomOut, reading).value == 0.0
  {
  }

  /** What BaseAppState.setEnabled asks of the subclass after it flips the flag. */
  datatype Transition = NoChange | Enabling | Disabling

  // ---------------------------------------------------------------------
  // The controller

  class CameraController {
    const camera: Camera
    const tracker: SignalTracker
    const math: MathOracle
    var defaultStates: map<CameraSignal, bool>
    var signalNames: map<CameraSignal, string>
    var maxYTangent: real
    var minYTangent: real
    var zoomAnalogSum: real
    var zoomMultiplier: real
    var cameraName: Option<string>  // None: null
    var initialized: bool    // BaseAppState.isInitialized
    var enabled: bool        // BaseAppState.isEnabled

    ghost predicate Valid()
      reads this
    {
      Lawful(math) && 0.0 < minYTangent <= maxYTangent && zoomMultiplier > 0.0
    }

    /** Attached to the state manager and enabled: the camera may be written. */
    predicate Live()
      reads this
    {
      initialized && enabled
    }

    constructor (id: string, camera: Camera, tracker: SignalTracker, math: MathOracle)
      requires Lawful(math)
      ensures Valid()
      ensures this.camera == camera && this.tracker == tracker && this.math == math
      ensures cameraName == Some(id) && !initialized && !enabled
      ensures defaultStates == map[] && signalNames == map[]
      ensures maxYTangent == 2.0 && minYTangent == 0.01
      ensures zoomAnalogSum == 0.0 && zoomMultiplier == 0.3
    {
      this.camera := camera;
      this.tracker := tracker;
      this.math := math;
      defaultStates := map[];
      signalNames := map[];
      maxYTangent := 2.0;
      minYTangent := 0.01;
      zoomAnalogSum := 0.0;
      zoomMultiplier := 0.3;
      cameraName := Some(id);
      initialized := false;
      enabled := false;
    }

    /** defaultState: the configured default, false when none is configured. */
    function DefaultState(f: CameraSignal): (r: bool)
      reads this
      ensures f !in defaultStates ==> !r
      ensures f in defaultStates ==> r == defaultStates[f]
    {
      if f in defaultStates then defaultStates[f] else false
    }

    /** signalName: the configured signal name, if any. */
    function SignalName(f: CameraSignal): (r: Option<string>)
      reads this
      ensures r.Some? <==> f in signalNames
      ensures r.Some? ==> r.value == signalNames[f]
    {
      if f in signalNames then Some(signalNames[f]) else None
    }

    /** The function's signal is named and the tracker reports it active. */
    function Signalled(f: CameraSignal): (r: bool)
      reads this, tracker
      ensures r <==> f in signalNames && signalNames[f] in tracker.active
    {
      f in signalNames && tracker.Test(signalNames[f])
    }

    /** isActive: the default state, inverted while the function's signal is active. */
    function IsActive(f: CameraSignal): (r: bool)
      reads this, tracker
      ensures r <==> (DefaultState(f) != Signalled(f))
      ensures !Signalled(f) ==> r == DefaultState(f)
    {
      var result := DefaultState(f);
      if f in signalNames && tracker.Test(signalNames[f]) then !result else result
    }

    /** maxMagnification: the reciprocal of the smallest tangent. */
    function MaxMagnification(): (r: real)
      requires Valid()
      reads this
      ensures r > 0.0 && r * minYTangent == 1.0
    {
      1.0 / minYTangent
    }

    /** minMagnification: the reciprocal of the largest tangent. */
    function MinMagnification(): (r: real)
      requires Valid()
      reads this
      ensures r > 0.0 && r * maxYTangent == 1.0
      ensures r <= MaxMagnification()
    {
      assert 1.0 / maxYTangent <= 1.0 / minYTangent by {
        assert (1.0 / maxYTangent) * maxYTangent == 1.0;
        assert (1.0 / minYTangent) * minYTangent == 1.0;
        InverseAntitone(minYTangent, maxYTangent);
      }
      1.0 / maxYTangent
    }

    /** magnify: reject a non-positive factor, else zoom by it when live. */
    method Magnify(factor: real) returns (outcome: Outcome)
      requires Valid()
      modifies camera`yTangent
      ensures outcome == if factor > 0.0 then Done else Thrown(IllegalArgument)
      ensures camera.yTangent ==
                if factor > 0.0 && Live()
                then Magnified(old(camera.yTangent), factor, minYTangent, maxYTangent)
                else old(camera.yTangent)
    {
      if factor <= 0.0 {
        return Thrown(IllegalArgument);
      }
      var frustumYTangent := camera.yTangent / factor;
      frustumYTangent := Clamp(frustumYTangent, minYTangent, maxYTangent);
      if initialized && enabled {
        camera.yTangent := frustumYTangent;
      }
      return Done;
    }

    /** setCameraName: refused while attached and enabled. */
    method SetCameraName(name: Option<string>) returns (outcome: Outcome)
      modifies this`cameraName
      ensures outcome == if old(Live()) then Thrown(IllegalState) else Done
      ensures cameraName == if outcome.Done? then name else old(cameraName)
    {
      if initialized && enabled {
        return Thrown(IllegalState);
      }
      cameraName := name;
      return Done;
    }

    method SetDefaultState(f: CameraSignal, state: bool)
      modifies this`defaultStates
      ensures defaultStates == old(defaultStates)[f := state]
      ensures DefaultState(f) == state
    {
      defaultStates := defaultStates[f := state];
    }

    /**
     * setMaxMinMagnification: min must be positive and max in [min,
     * Float.MAX_VALUE]; the tangent bounds become 1/max and 1/min, and a live
     * camera's tangent is re-clamped into them.
     */
    method SetMaxMinMagnification(min: real, max: real) returns (outcome: Outcome)
      requires Valid()
      modifies this`minYTangent, this`maxYTangent, camera`yTangent
      ensures outcome == if min > 0.0 && min <= max <= FloatMaxValue then Done else Thrown(IllegalArgument)
      ensures Valid()
      ensures outcome.Done? ==> MaxMagnification() == max && MinMagnification() == min
      ensures outcome.Thrown? ==> minYTangent == old(minYTangent) && maxYTangent == old(maxYTangent)
      ensures outcome.Done? ==> minYTangent == 1.0 / max && maxYTangent == 1.0 / min
      ensures camera.yTangent ==
                if outcome.Done? && Live()
                then Clamp(old(camera.yTangent), minYTangent, maxYTangent)
                else old(camera.yTangent)
    {
      if min <= 0.0 || !(min <= max <= FloatMaxValue) {
        return Thrown(IllegalArgument);
      }
      var frustumYTangent := camera.yTangent;
      minYTangent := 1.0 / max;
      maxYTangent := 1.0 / min;
      InverseAntitone(min, max);
      ReciprocalTwice(max);
      ReciprocalTwice(min);
      frustumYTangent := Clamp(frustumYTangent, minYTangent, maxYTangent);
      if initialized && enabled {
        camera.yTangent := frustumYTangent;
      }
      return Done;
    }

    /** setSignalName: name (or, with None, un-name) the signal for a function. */
    method SetSignalName(f: CameraSignal, name: Option<string>)
      modifies this`signalNames
      ensures signalNames == if name.Some? then old(signalNames)[f := name.value]
                             else old(signalNames) - {f}
      ensures SignalName(f) == name
    {
      if name.Some? {
        signalNames := signalNames[f := name.value];
      } else {
        signalNames := signalNames - {f};
      }
    }

    method SetZoomMultiplier(multiplier: real) returns (outcome: Outcome)
      requires Valid()
      modifies this`zoomMultiplier
      ensures Valid()
      ensures outcome == if multiplier > 0.0 then Done else Thrown(IllegalArgument)
      ensures zoomMultiplier == if outcome.Done? then multiplier else old(zoomMultiplier)
    {
      if multiplier <= 0.0 {
        return Thrown(IllegalArgument);
      }
      zoomMultiplier := multiplier;
      return Done;
    }

    /**
     * applyFocalZoom: the discrete zoom, then the accumulated analog zoom;
     * the analog accumulator is empty afterwards.
     */
    method ApplyFocalZoom(dir: int, tpf: real)
      requires Valid()
      modifies this`zoomAnalogSum, camera`yTangent
      ensures zoomAnalogSum == 0.0
      ensures camera.yTangent ==
                FocalZoomed(math, old(camera.yTangent), dir, tpf, old(zoomAnalogSum),
                            zoomMultiplier, minYTangent, maxYTangent, Live())
    {
      var discreteFactor := DiscreteZoomFactor(math, dir, tpf);
      var analogFactor := AnalogZoomFactor(math, zoomMultiplier, zoomAnalogSum);
      if dir != 0 {
        var _ := Magnify(discreteFactor);
      }
      if zoomAnalogSum != 0.0 {
        var _ := Magnify(analogFactor);
        zoomAnalogSum := 0.0;
      }
    }

    /**
     * onAnalog: validate the event, then add a "zoom in" reading to the
     * accumulator or subtract a "zoom out" one; any other name is rejected.
     */
    method OnAnalog(eventName: string, reading: real, tpf: real) returns (outcome: Outcome)
      requires enabled
      modifies this`zoomAnalogSum
      ensures outcome ==
                if eventName == [] || reading < 0.0 || tpf < 0.0 then Thrown(IllegalArgument)
                else if AnalogZoomDelta(eventName, reading).None? then Thrown(IllegalArgument)
                else Done
      ensures zoomAnalogSum ==
                if outcome.Done? then old(zoomAnalogSum) + AnalogZoomDelta(eventName, reading).value
                else old(zoomAnalogSum)
    {
      if eventName == [] || reading < 0.0 || tpf < 0.0 {
        return Thrown(IllegalArgument);
      }
      if eventName == AnalogZoomIn {
        zoomAnalogSum := zoomAnalogSum + reading;
      } else if eventName == AnalogZoomOut {
        zoomAnalogSum := zoomAnalogSum - reading;
      } else {
        return Thrown(IllegalArgument);
      }
      return Done;
    }

    /**
     * BaseAppState.initialize as driven by the state manager: mark the
     * controller attached, and run onEnable (name the camera) if it is
     * already enabled.
     */
    method Attach()
      modifies this`initialized, camera`name
      ensures initialized
      ensures camera.name == if enabled && !old(initialized) then cameraName else old(camera.name)
    {
      if !initialized {
        initialized := true;
        if enabled {
          camera.name := cameraName;
        }
      }
    }

    /**
     * BaseAppState.setEnabled: flip the flag; if attached and the flag
     * changed, run the base onEnable (name the camera) and tell the subclass
     * which hook to run.
     */
    method SetEnabled(b: bool) returns (transition: Transition)
      modifies this`enabled, camera`name
      ensures enabled == b
      ensures transition ==
                if old(enabled) == b || !initialized then NoChange
                else if b then Enabling else Disabling
      ensures camera.name == if transition == Enabling then cameraName else old(camera.name)
    {
      if enabled == b {
        return NoChange;
      }
      enabled := b;
      if !initialized {
        return NoChange;
      }
      if b {
        camera.name := cameraName;
        return Enabling;
      }
      return Disabling;
    }
  }

  /** The reciprocal of a positive number's reciprocal is the number. */
  lemma ReciprocalTwice(x: real)
    requires x > 0.0
    ensures 1.0 / (1.0 / x) == x
  {
    var ix := 1.0 / x;
    assert ix * x == 1.0;
  }

  /** 0 < a <= b implies 1/b <= 1/a. */
  lemma InverseAntitone(a: real, b: real)
    requires 0.0 < a <= b
    ensures 0.0 < 1.0 / b <= 1.0 / a
  {
    var ia, ib := 1.0 / a, 1.0 / b;
    assert ib * b == 1.0 && ia * a == 1.0;
    assert ia > 0.0 && ib > 0.0;
    calc {
      ib;
      ib * (ia * a);
      (ib * a) * ia;
    <= { assert ib * a <= ib * b; }
      (ib * b) * ia;
      ia;
    }
  }
}
