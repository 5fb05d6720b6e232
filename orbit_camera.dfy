/*
 * com.github.stephengold.garrett.OrbitCamera: a 4 degree-of-freedom camera
 * that orbits a Target, keeps its look direction out of the pole-exclusion
 * cones, chases the target's heading with a time constant, and keeps a clear
 * line of sight in the target's collision space by clipping the near plane or
 * warping forward.
 *
 * The Bullet queries (ray test, sweep test, contact test of a frustum-shaped
 * ghost) are the `Physics` oracles of the target's collision space; the
 * camera, signal tracker and target are plain state. Java inheritance is
 * modelled by composition: an OrbitCamera holds the ExclusionCamera (and,
 * through it, the CameraController) whose state it extends.
 */
module OrbitCamera {
  import opened Common
  import opened Signals
  import opened CameraController
  import opened ExclusionCamera

  /** Names of the orbit analog events. */
  const AnalogOrbitCcw: string := "orbit ccw"
  const AnalogOrbitCw: string := "orbit cw"
  const AnalogOrbitDown: string := "orbit down"
  const AnalogOrbitUp: string := "orbit up"

  /** The gap below which both bisections in sightline stop. */
  const Accuracy: real := 0.01

  /** How the camera responds to an obstructed line of sight. */
  datatype ObstructionResponse =
    | Clip        // move the near clipping plane forward
    | WarpBias    // jump forward; only forward motion changes the preferred range
    | WarpNoBias  // jump forward; any forward/back motion changes the preferred range
    | XRay        // ignore obstructions

  /** azimuthTau: a time constant in seconds, or +Infinity (free azimuth). */
  datatype TimeConstant = Seconds(t: real) | Forever

  /** What the discrete signals ask for in one frame, each in {-1, 0, 1}. */
  datatype SignalSums = SignalSums(forward: int, orbitUp: int, orbitCw: int, zoom: int)

  // ---------------------------------------------------------------------
  // Signal sums

  /** One signal adds 1, the opposing one subtracts 1. */
  function Opposed(plus: bool, minus: bool): (d: int)
    ensures -1 <= d <= 1
    ensures d == 1 <==> plus && !minus
    ensures d == -1 <==> minus && !plus
    ensures d == 0 <==> plus == minus
  {
    Indicator(plus) - Indicator(minus)
  }

  /** The switch in update's signal loop: the sum one active signal moves. */
  function Counted(s: SignalSums, f: CameraSignal): SignalSums {
    match f
    case Back => s.(forward := s.forward - 1)
    case Forward => s.(forward := s.forward + 1)
    case OrbitCcw => s.(orbitCw := s.orbitCw - 1)
    case OrbitCw => s.(orbitCw := s.orbitCw + 1)
    case OrbitDown => s.(orbitUp := s.orbitUp - 1)
    case OrbitUp => s.(orbitUp := s.orbitUp + 1)
    case ZoomIn => s.(zoom := s.zoom + 1)
    case ZoomOut => s.(zoom := s.zoom - 1)
    case _ => s
  }

  /** The sums once the signals in `visited` have been counted, given the set of active signals. */
  function Tally(visited: seq<CameraSignal>, active: set<CameraSignal>): SignalSums
  {
    SignalSums(Opposed(Forward in visited && Forward in active, Back in visited && Back in active),
               Opposed(OrbitUp in visited && OrbitUp in active, OrbitDown in visited && OrbitDown in active),
               Opposed(OrbitCw in visited && OrbitCw in active, OrbitCcw in visited && OrbitCcw in active),
               Opposed(ZoomIn in visited && ZoomIn in active, ZoomOut in visited && ZoomOut in active))
  }

  /** Counting a signal not yet visited moves the tally exactly as the switch does. */
  lemma TallyStep(visited: seq<CameraSignal>, f: CameraSignal, active: set<CameraSignal>)
    requires f !in visited
    ensures Tally(visited + [f], active) == if f in active then Counted(Tally(visited, active), f) else Tally(visited, active)
  {
    forall g
      ensures g in visited + [f] <==> g in visited || g == f
    {
    }
  }

  /** The signals a controller reports active. */
  ghost function ActiveSignals(c: CameraController): (active: set<CameraSignal>)
    reads c, c.tracker
  {
    set g | g in AllSignals && c.IsActive(g)
  }

  /** Once every signal is visited, the tally counts each pair of opposed active signals. */
  lemma TallyAll(c: CameraController)
    ensures Tally(AllSignals, ActiveSignals(c))
            == SignalSums(Opposed(c.IsActive(Forward), c.IsActive(Back)),
                          Opposed(c.IsActive(OrbitUp), c.IsActive(OrbitDown)),
                          Opposed(c.IsActive(OrbitCw), c.IsActive(OrbitCcw)),
                          Opposed(c.IsActive(ZoomIn), c.IsActive(ZoomOut)))
  {
    var active := ActiveSignals(c);
    forall g
      ensures g in active <==> c.IsActive(g)
    {
      AllSignalsComplete(g);
    }
    forall g
      ensures g in AllSignals
    {
      AllSignalsComplete(g);
    }
  }

  /** The i-th signal of values() is not among the ones before it. */
  lemma NotYetVisited(i: int)
    requires 0 <= i < |AllSignals|
    ensures AllSignals[i] !in AllSignals[..i]
    ensures AllSignals[..i + 1] == AllSignals[..i] + [AllSignals[i]]
  {
    AllSignalsComplete(AllSignals[i]);
  }

  // ---------------------------------------------------------------------
  // Obstructions

  /**
   * isObstruction: the target's own collision object never obstructs; with
   * no filter every other object does, otherwise the filter decides.
   */
  function IsObstruction(pco: Pco, targetPco: Pco, filter: Option<Pco -> bool>): (r: bool)
    ensures pco == targetPco ==> !r
    ensures pco != targetPco && filter.None? ==> r
    ensures pco != targetPco && filter.Some? ==> r == filter.value(pco)
  {
    if pco == targetPco then false
    else if filter.None? then true
    else filter.value(pco)
  }

  /** Some object in the list obstructs. */
  predicate AnyObstruction(pcos: seq<Pco>, targetPco: Pco, filter: Option<Pco -> bool>) {
    exists i | 0 <= i < |pcos| :: IsObstruction(pcos[i], targetPco, filter)
  }

  /**
   * The fraction of the closest obstructing hit, or 1 if none is closer: the
   * minimum over 1 and the fractions of the obstructing hits.
   */
  function ClosestFraction(hits: seq<Hit>, targetPco: Pco, filter: Option<Pco -> bool>): (f: real)
    ensures f <= 1.0
    ensures forall i :: 0 <= i < |hits| && IsObstruction(hits[i].pco, targetPco, filter) ==>
              f <= hits[i].fraction
    ensures f == 1.0 || exists i :: 0 <= i < |hits| && IsObstruction(hits[i].pco, targetPco, filter) &&
                                    f == hits[i].fraction
    decreases |hits|
  {
    if |hits| == 0 then 1.0
    else
      var rest := ClosestFraction(hits[..|hits| - 1], targetPco, filter);
      var h := hits[|hits| - 1];
      if IsObstruction(h.pco, targetPco, filter) && h.fraction < rest then h.fraction else rest
  }

  /** Bullet reports hit fractions in [0, 1]. */
  predicate FractionsInUnitInterval(hits: seq<Hit>) {
    forall i :: 0 <= i < |hits| ==> 0.0 <= hits[i].fraction <= 1.0
  }

  /** The closest obstruction lies in [0, 1] when every hit fraction does. */
  lemma ClosestFractionInUnitInterval(hits: seq<Hit>, targetPco: Pco, filter: Option<Pco -> bool>)
    ensures FractionsInUnitInterval(hits) ==> 0.0 <= ClosestFraction(hits, targetPco, filter) <= 1.0
  {
  }

  /**
   * What sightlineRay and sightlineSweep return: the range scaled by the
   * closest obstruction fraction, never more than the range.
   */
  function ObstructedRange(range: real, hits: seq<Hit>, targetPco: Pco, filter: Option<Pco -> bool>): (r: real)
  {
    CutShort(range, ClosestFraction(hits, targetPco, filter))
  }

  /** The range scaled by an obstruction fraction, but never lengthened. */
  function CutShort(range: real, fraction: real): (r: real)
  {
    Min(range * fraction, range)
  }

  /**
   * An obstructed range never exceeds the range, is nonnegative when every
   * hit fraction lies in [0, 1], and is the whole range when no hit obstructs.
   */
  lemma ObstructedRangeBounds(range: real, hits: seq<Hit>, targetPco: Pco, filter: Option<Pco -> bool>)
    ensures var r := ObstructedRange(range, hits, targetPco, filter);
            && (range >= 0.0 ==> r <= range)
            && (range >= 0.0 && FractionsInUnitInterval(hits) ==> 0.0 <= r)
            && (range >= 0.0 && (forall i :: 0 <= i < |hits| ==> !IsObstruction(hits[i].pco, targetPco, filter)) ==>
                  r == range)
  {
    var f := ClosestFraction(hits, targetPco, filter);
    ClosestFractionInUnitInterval(hits, targetPco, filter);
    ScaleByFraction(range, f);
  }

  /** A nonnegative range scaled by a fraction at most 1 does not grow. */
  lemma ScaleByFraction(range: real, f: real)
    requires f <= 1.0
    ensures range >= 0.0 ==> range * f <= range
    ensures range >= 0.0 && f >= 0.0 ==> range * f >= 0.0
  {
    if range >= 0.0 {
      assert range * f <= range * 1.0;
    }
  }

  /** A gap of at least 1/100 that is halved loses at least one hundredth. */
  lemma HalvedGapDecreases(gap: real)
    requires gap >= Accuracy
    ensures 0 <= ((gap / 2.0) * 100.0).Floor < (gap * 100.0).Floor
  {
    var x := gap * 100.0;
    assert x >= 1.0;
    assert (gap / 2.0) * 100.0 == x / 2.0;
    assert x < (x.Floor as real) + 1.0;
    assert x / 2.0 < x.Floor as real;
  }

  // ---------------------------------------------------------------------
  // Analog input

  /**
   * The (yaw, pitch) change one orbit analog event makes while DragToOrbit
   * is active: "orbit ccw" and "orbit down" add the reading, "orbit cw" and
   * "orbit up" subtract it; other names are not orbit events.
   */
  function OrbitAnalogDelta(eventName: string, reading: real): (d: Option<(real, real)>)
    ensures d.Some? <==> eventName in {AnalogOrbitCcw, AnalogOrbitCw, AnalogOrbitDown, AnalogOrbitUp}
    ensures eventName == AnalogOrbitCcw ==> d == Some((reading, 0.0))
    ensures eventName == AnalogOrbitCw ==> d == Some((-reading, 0.0))
    ensures eventName == AnalogOrbitDown ==> d == Some((0.0, reading))
    ensures eventName == AnalogOrbitUp ==> d == Some((0.0, -reading))
  {
    if eventName == AnalogOrbitCcw then Some((reading, 0.0))
    else if eventName == AnalogOrbitCw then Some((-reading, 0.0))
    else if eventName == AnalogOrbitDown then Some((0.0, reading))
    else if eventName == AnalogOrbitUp then Some((0.0, -reading))
    else None
  }

  // ---------------------------------------------------------------------
  // Orbiting

  /** Quaternion rotation, as the model uses it, preserves length. */
  ghost predicate RotationLaw(m: MathOracle) {
    forall pitch, yaw, v :: LengthSquared(Rotate(m, pitch, yaw, v)) == LengthSquared(v)
  }

  /**
   * The discrete orbit step of update: move the offset sideways along the
   * camera's left and up axes, then rescale it to the old range.
   */
  function OrbitedOffset(m: MathOracle, offset: Vec3, left: Vec3, up: Vec3, orbitCw: int, orbitUp: int,
                         orbitRate: real, tpf: real): Vec3
    requires Lawful(m)
  {
    if orbitCw == 0 && orbitUp == 0 then offset
    else Rescaled(m, Sidestepped(m, offset, left, up, orbitCw, orbitUp, orbitRate, tpf), Length(m, offset))
  }

  /**
   * The sideways move: range * orbitRate * tpf, split between the left and
   * up axes in proportion to the two signs over their hypotenuse.
   */
  function Sidestepped(m: MathOracle, offset: Vec3, left: Vec3, up: Vec3, orbitCw: int, orbitUp: int,
                       orbitRate: real, tpf: real): Vec3
    requires Lawful(m)
  {
    var range := Length(m, offset);
    var rootSumSquares := Sqrt(m, (orbitCw * orbitCw + orbitUp * orbitUp) as real);
    var dist := if rootSumSquares == 0.0 then 0.0 else range * orbitRate * tpf / rootSumSquares;
    Add(Add(offset, Scale(left, (orbitCw as real) * dist)), Scale(up, (orbitUp as real) * dist))
  }

  /**
   * offset.multLocal(range / offset.length()); a zero vector, where Java
   * would divide by zero, is kept.
   */
  function Rescaled(m: MathOracle, v: Vec3, range: real): Vec3
    requires Lawful(m)
  {
    var length := Length(m, v);
    if length == 0.0 then v else Scale(v, range / length)
  }

  /**
   * Discrete orbiting keeps the camera's distance to the target, unless the
   * sideways move lands exactly on the target.
   */
  lemma OrbitKeepsRange(m: MathOracle, offset: Vec3, left: Vec3, up: Vec3, orbitCw: int, orbitUp: int,
                        orbitRate: real, tpf: real)
    requires Lawful(m)
    ensures var o := OrbitedOffset(m, offset, left, up, orbitCw, orbitUp, orbitRate, tpf);
            IsZero(o) || Length(m, o) == Length(m, offset)
  {
    if orbitCw != 0 || orbitUp != 0 {
      var moved := Sidestepped(m, offset, left, up, orbitCw, orbitUp, orbitRate, tpf);
      RescaleToLength(m, moved, Length(m, offset));
    }
  }

  /** Rescaling a vector gives it the requested length unless it is zero. */
  lemma RescaleToLength(m: MathOracle, v: Vec3, range: real)
    requires Lawful(m) && range >= 0.0
    ensures IsZero(Rescaled(m, v, range)) || Length(m, Rescaled(m, v, range)) == range
  {
    var l := Length(m, v);
    if l != 0.0 {
      assert range / l >= 0.0;
      ScaledLength(m, v, range / l);
      assert (range / l) * l == range;
    }
  }

  /** Scaling by k >= 0 scales the length by k. */
  lemma ScaledLength(m: MathOracle, v: Vec3, k: real)
    requires Lawful(m) && k >= 0.0
    ensures Length(m, Scale(v, k)) == k * Length(m, v)
  {
    LengthSquaredScale(v, k);
    ScaledRoot(m, v, Scale(v, k), k);
  }

  /** A vector whose squared length is k^2 times that of v is k times as long. */
  lemma ScaledRoot(m: MathOracle, v: Vec3, w: Vec3, k: real)
    requires Lawful(m) && k >= 0.0 && LengthSquared(w) == k * k * LengthSquared(v)
    ensures Length(m, w) == k * Length(m, v)
  {
    ProductRoot(k, Length(m, v), Length(m, w), LengthSquared(v));
  }

  /** If l is the root of s and r that of k^2 s, then r is k l. */
  lemma ProductRoot(k: real, l: real, r: real, s: real)
    requires k >= 0.0 && l >= 0.0 && r >= 0.0 && l * l == s && r * r == k * k * s
    ensures r == k * l
  {
    assert r * r == (k * l) * (k * l);
    SquareRootUnique(r, k * l);
  }

  /**
   * The analog step of update: pitch and yaw the offset by the accumulated
   * drag, in units of 1024 pixels of display height.
   */
  function AnalogRotated(m: MathOracle, offset: Vec3, pitchSum: real, yawSum: real, height: nat): Vec3 {
    var multiplier := (height as real) / 1024.0;
    if pitchSum != 0.0 || yawSum != 0.0 then Rotate(m, multiplier * pitchSum, multiplier * yawSum, offset)
    else offset
  }

  /** Drag-to-orbit keeps the camera's distance to the target. */
  lemma AnalogKeepsRange(m: MathOracle, offset: Vec3, pitchSum: real, yawSum: real, height: nat)
    requires Lawful(m) && RotationLaw(m)
    ensures Length(m, AnalogRotated(m, offset, pitchSum, yawSum, height)) == Length(m, offset)
  {
    var o := AnalogRotated(m, offset, pitchSum, yawSum, height);
    assert LengthSquared(o) == LengthSquared(offset);
    SquareRootUnique(Length(m, o), Length(m, offset));
  }

  // ---------------------------------------------------------------------
  // Azimuth chasing

  /**
   * The standardized error between the azimuth setpoint and the camera's
   * azimuth relative to the target's heading, or None when that relative
   * azimuth is not finite.
   */
  function AzimuthError(m: MathOracle, setpoint: real, targetForward: Vec3, look: Vec3): Option<real> {
    var deltaAzimuth := Atan2(m, look.x, look.z) - Atan2(m, targetForward.x, targetForward.z);
    if IsFinite(m, deltaAzimuth) then Some(StandardizeAngle(m, setpoint - deltaAzimuth)) else None
  }

  /**
   * The yaw update turns the look direction by: nothing when the azimuth is
   * free, the error is unknown or zero; the whole error when locked (tau 0);
   * otherwise the fraction 1 - exp(-tpf/tau) of it.
   */
  function AzimuthTurn(m: MathOracle, tau: TimeConstant, error: Option<real>, tpf: real): Option<real> {
    if tau.Forever? || error.None? || error.value == 0.0 then None
    else if tau.t == 0.0 then Some(error.value)
    else Some(ChaseTurn(m, tpf, tau.t, error.value))
  }

  /** The fraction 1 - exp(-tpf/tau) of the error that a frame turns by. */
  function ChaseTurn(m: MathOracle, tpf: real, tau: real, error: real): real
    requires tau != 0.0
  {
    (1.0 - Exp(m, -tpf / tau)) * error
  }

  /** A positive time constant turns by a fraction of the error: its sign, at most its size. */
  lemma ChaseTurnBounded(m: MathOracle, tpf: real, tau: real, error: real)
    requires ExpLaw(m) && tpf >= 0.0 && tau > 0.0
    ensures ChaseTurn(m, tpf, tau, error) * error >= 0.0
    ensures Abs(ChaseTurn(m, tpf, tau, error)) <= Abs(error)
  {
    assert -tpf / tau <= 0.0;
    FractionBounded(1.0 - Exp(m, -tpf / tau), error);
  }

  /** A fraction g in [0, 1] of e has e's sign and at most its size. */
  lemma FractionBounded(g: real, e: real)
    requires 0.0 <= g <= 1.0
    ensures (g * e) * e >= 0.0
    ensures Abs(g * e) <= Abs(e)
  {
    calc {
      (g * e) * e;
      g * (e * e);
    >= 0.0;
    }
    if e >= 0.0 {
      assert g * e <= 1.0 * e;
    } else {
      assert g * (-e) <= 1.0 * (-e);
    }
  }

  /**
   * Chasing never overshoots: the turn has the error's sign and at most its
   * size, and a locked azimuth turns by the full error.
   */
  lemma AzimuthTurnBounded(m: MathOracle, tau: TimeConstant, error: Option<real>, tpf: real)
    requires Lawful(m) && (tau.Seconds? ==> tau.t >= 0.0) && tpf >= 0.0
    ensures tau.Forever? || error.None? ==> AzimuthTurn(m, tau, error, tpf).None?
    ensures tau == Seconds(0.0) && error.Some? && error.value != 0.0 ==> AzimuthTurn(m, tau, error, tpf) == error
    ensures var turn := AzimuthTurn(m, tau, error, tpf);
            turn.Some? ==> error.Some? && turn.value * error.value >= 0.0 && Abs(turn.value) <= Abs(error.value)
  {
    if tau.Seconds? && tau.t != 0.0 && error.Some? && error.value != 0.0 {
      ChaseTurnBounded(m, tpf, tau.t, error.value);
    }
  }

  // ---------------------------------------------------------------------
  // Range rule

  /**
   * The (range, preferredRange) pair update settles on before testing the
   * sightline: forward input scales the range by exp(-tpf * forwardSum) and,
   * with X-ray vision, WarpNoBias, or WarpBias moving forward, makes it the
   * preferred range; without forward input a warping camera springs back out
   * to the preferred range. The range is finally capped at half the far
   * plane distance.
   */
  function RangeRule(m: MathOracle, range: real, preferred: real, forwardSum: int, tpf: real,
                     response: ObstructionResponse, xrayVision: bool, far: real): (rp: (real, real))
  {
    RangeRuleScaled(range, preferred, forwardSum, range * Stretch(m, tpf, forwardSum), response, xrayVision, far)
  }

  /** The exponent of this frame's range scaling: -tpf * forwardSum. */
  function Exponent(tpf: real, forwardSum: int): real {
    -tpf * (forwardSum as real)
  }

  /** The factor forward input scales the range by this frame: exp(-tpf * forwardSum). */
  function Stretch(m: MathOracle, tpf: real, forwardSum: int): real {
    Exp(m, Exponent(tpf, forwardSum))
  }

  /** The range rule, given the range already scaled by this frame's forward input. */
  function RangeRuleScaled(range: real, preferred: real, forwardSum: int, scaled: real,
                           response: ObstructionResponse, xrayVision: bool, far: real): (rp: (real, real))
  {
    var warps := response == WarpBias || response == WarpNoBias;
    var r :=
      if forwardSum != 0 then scaled
      else if warps && range < preferred then preferred
      else range;
    (if r > 0.5 * far then 0.5 * far else r, if Rebiases(forwardSum, response, xrayVision) then scaled else preferred)
  }

  /** Whether forward input this frame resets the preferred range. */
  predicate Rebiases(forwardSum: int, response: ObstructionResponse, xrayVision: bool) {
    forwardSum != 0 && (xrayVision || response == WarpNoBias || (response == WarpBias && forwardSum > 0))
  }

  /**
   * What the range rule promises of its (range, preferredRange) result rp:
   * the range never exceeds half the far distance; the preferred range
   * changes only when forward input rebiases it, and then the range follows
   * it; moving forward never lengthens the range and moving back never
   * shortens it; without forward input a warping camera takes the longer of
   * range and preferred range, any other camera keeps its range, both
   * subject to the cap; and nonnegative inputs give nonnegative results.
   */
  predicate RangeRuleHolds(range: real, preferred: real, forwardSum: int, response: ObstructionResponse,
                           xrayVision: bool, far: real, rp: (real, real))
  {
    rp.0 <= 0.5 * far
    && (!Rebiases(forwardSum, response, xrayVision) ==> rp.1 == preferred)
    && (Rebiases(forwardSum, response, xrayVision) ==> rp.0 == Min(rp.1, 0.5 * far))
    && (forwardSum > 0 ==> rp.0 <= range)
    && (forwardSum < 0 ==> rp.0 >= Min(range, 0.5 * far))
    && (forwardSum == 0 && response in {WarpBias, WarpNoBias} ==> rp.0 == Min(Max(range, preferred), 0.5 * far))
    && (forwardSum == 0 && response !in {WarpBias, WarpNoBias} ==> rp.0 == Min(range, 0.5 * far))
    && (preferred >= 0.0 && far >= 0.0 ==> rp.0 >= 0.0 && rp.1 >= 0.0)
  }

  /**
   * The range rule keeps its promises: exp(-tpf * forwardSum) shrinks the
   * range when moving forward and stretches it when moving back.
   */
  lemma RangeRuleProperties(m: MathOracle, range: real, preferred: real, forwardSum: int, tpf: real,
                            response: ObstructionResponse, xrayVision: bool, far: real)
    requires ExpLaw(m) && range >= 0.0 && tpf >= 0.0
    ensures RangeRuleHolds(range, preferred, forwardSum, response, xrayVision, far,
                           RangeRule(m, range, preferred, forwardSum, tpf, response, xrayVision, far))
  {
    ExpScalesRange(m, range, tpf, forwardSum);
    RangeRuleUnfolds(m, range, preferred, forwardSum, tpf, response, xrayVision, far);
    ScaledRangeRule(range, preferred, forwardSum, range * Stretch(m, tpf, forwardSum), response, xrayVision, far,
                    RangeRule(m, range, preferred, forwardSum, tpf, response, xrayVision, far));
  }

  /** The range rule is its scaled form, applied to the range scaled by exp. */
  lemma RangeRuleUnfolds(m: MathOracle, range: real, preferred: real, forwardSum: int, tpf: real,
                         response: ObstructionResponse, xrayVision: bool, far: real)
    ensures RangeRule(m, range, preferred, forwardSum, tpf, response, xrayVision, far)
            == RangeRuleScaled(range, preferred, forwardSum, range * Stretch(m, tpf, forwardSum), response, xrayVision, far)
  {
    var scaled := range * Stretch(m, tpf, forwardSum);
    assert RangeRule(m, range, preferred, forwardSum, tpf, response, xrayVision, far)
           == RangeRuleScaled(range, preferred, forwardSum, scaled, response, xrayVision, far);
  }

  /** Forward input shrinks the range, backward input stretches it, and it stays nonnegative. */
  lemma ExpScalesRange(m: MathOracle, range: real, tpf: real, forwardSum: int)
    requires ExpLaw(m) && range >= 0.0 && tpf >= 0.0
    ensures var scaled := range * Stretch(m, tpf, forwardSum);
            && scaled >= 0.0
            && (forwardSum > 0 ==> scaled <= range)
            && (forwardSum < 0 ==> scaled >= range)
  {
    ExponentSign(tpf, forwardSum);
    ExpScales(m, range, Exponent(tpf, forwardSum));
  }

  /** The range rule's properties, for any scaled range on the right side of the range. */
  lemma ScaledRangeRule(range: real, preferred: real, forwardSum: int, scaled: real,
                        response: ObstructionResponse, xrayVision: bool, far: real, rp: (real, real))
    requires range >= 0.0 && scaled >= 0.0
    requires forwardSum > 0 ==> scaled <= range
    requires forwardSum < 0 ==> scaled >= range
    requires rp == RangeRuleScaled(range, preferred, forwardSum, scaled, response, xrayVision, far)
    ensures RangeRuleHolds(range, preferred, forwardSum, response, xrayVision, far, rp)
  {
  }

  /** The frame's exponent -tpf * forwardSum has the opposite sign of the forward input. */
  lemma ExponentSign(tpf: real, forwardSum: int)
    requires tpf >= 0.0
    ensures forwardSum > 0 ==> Exponent(tpf, forwardSum) <= 0.0
    ensures forwardSum < 0 ==> Exponent(tpf, forwardSum) >= 0.0
  {
    if forwardSum > 0 {
      assert tpf * (forwardSum as real) >= 0.0;
    } else if forwardSum < 0 {
      assert tpf * (-(forwardSum as real)) >= 0.0;
    }
  }

  /** exp of a nonpositive exponent shrinks a nonnegative range, of a nonnegative one stretches it. */
  lemma ExpScales(m: MathOracle, range: real, t: real)
    requires ExpLaw(m) && range >= 0.0
    ensures range * Exp(m, t) >= 0.0
    ensures t <= 0.0 ==> range * Exp(m, t) <= range
    ensures t >= 0.0 ==> range * Exp(m, t) >= range
  {
    var e := Exp(m, t);
    if t <= 0.0 {
      assert e <= 1.0;
      assert range * e <= range * 1.0;
    }
    if t >= 0.0 {
      assert e >= 1.0;
      assert range * e >= range * 1.0;
    }
    assert range * e >= 0.0;
  }

  // ---------------------------------------------------------------------
  // One frame of steering

  /**
   * The offset after this frame's orbit input: the discrete orbit step, then
   * the analog drag, with the yaw drag dropped when the azimuth is locked.
   */
  function InputOffset(m: MathOracle, offset: Vec3, left: Vec3, up: Vec3, sums: SignalSums, orbitRate: real,
                       tpf: real, pitchSum: real, yawSum: real, locked: bool, height: nat): Vec3
    requires Lawful(m)
  {
    var orbited := OrbitedOffset(m, offset, left, up, sums.orbitCw, sums.orbitUp, orbitRate, tpf);
    AnalogRotated(m, orbited, pitchSum, if locked then 0.0 else yawSum, height)
  }

  /**
   * Orbit input moves the camera around the target without changing its
   * distance, unless the discrete step lands exactly on the target.
   */
  lemma InputKeepsRange(m: MathOracle, offset: Vec3, left: Vec3, up: Vec3, sums: SignalSums, orbitRate: real,
                        tpf: real, pitchSum: real, yawSum: real, locked: bool, height: nat)
    requires Lawful(m) && RotationLaw(m)
    ensures var o := InputOffset(m, offset, left, up, sums, orbitRate, tpf, pitchSum, yawSum, locked, height);
            IsZero(o) || Length(m, o) == Length(m, offset)
  {
    var orbited := OrbitedOffset(m, offset, left, up, sums.orbitCw, sums.orbitUp, orbitRate, tpf);
    OrbitKeepsRange(m, offset, left, up, sums.orbitCw, sums.orbitUp, orbitRate, tpf);
    var yaw := if locked then 0.0 else yawSum;
    AnalogKeepsRange(m, orbited, pitchSum, yaw, height);
    var o := AnalogRotated(m, orbited, pitchSum, yaw, height);
    if IsZero(orbited) {
      assert LengthSquared(o) == LengthSquared(orbited);
      LengthSquaredSign(orbited);
      LengthSquaredSign(o);
    }
  }

  /**
   * The look direction after azimuth chasing: turned about the vertical
   * axis by AzimuthTurn, or kept when there is no turn.
   */
  function ChasedLook(m: MathOracle, tau: TimeConstant, setpoint: real, targetForward: Vec3, look: Vec3,
                      tpf: real): Vec3
  {
    match AzimuthTurn(m, tau, AzimuthError(m, setpoint, targetForward, look), tpf)
    case None => look
    case Some(turn) => Rotate(m, 0.0, turn, look)
  }

  /**
   * Chasing turns a unit look direction into a unit look direction, and a
   * free azimuth leaves it alone.
   */
  lemma ChasedLookIsUnit(m: MathOracle, tau: TimeConstant, setpoint: real, targetForward: Vec3, look: Vec3,
                         tpf: real)
    requires RotationLaw(m) && IsUnit(look)
    ensures IsUnit(ChasedLook(m, tau, setpoint, targetForward, look, tpf))
    ensures tau == Forever ==> ChasedLook(m, tau, setpoint, targetForward, look, tpf) == look
  {
    var turn := AzimuthTurn(m, tau, AzimuthError(m, setpoint, targetForward, look), tpf);
    if turn.Some? {
      assert LengthSquared(Rotate(m, 0.0, turn.value, look)) == LengthSquared(look);
    }
  }

  /**
   * The look direction a frame settles on for a steered offset: the reversed
   * offset turned out of the exclusion cones about `up` and then chased
   * toward the azimuth setpoint; an error when the offset is zero.
   */
  function SettledLook(m: MathOracle, offset: Vec3, up: Vec3, lo: real, hi: real, tau: TimeConstant,
                       setpoint: real, targetForward: Vec3, tpf: real): (r: Result<Vec3>)
    requires Lawful(m) && RotationLaw(m) && IsUnit(up) && -1.0 <= lo <= hi <= 1.0
    ensures r.Err? <==> IsZero(offset)
    ensures r.Err? ==> r.failure == IllegalArgument
    ensures r.Ok? ==> IsUnit(r.value)
  {
    if IsZero(offset) then Err(IllegalArgument)
    else Ok(SettledDirection(m, offset, up, lo, hi, tau, setpoint, targetForward, tpf))
  }

  /** The settled look direction for a nonzero steered offset: a unit vector. */
  function SettledDirection(m: MathOracle, offset: Vec3, up: Vec3, lo: real, hi: real, tau: TimeConstant,
                            setpoint: real, targetForward: Vec3, tpf: real): (r: Vec3)
    requires Lawful(m) && RotationLaw(m) && IsUnit(up) && -1.0 <= lo <= hi <= 1.0 && !IsZero(offset)
    ensures IsUnit(r)
  {
    var avoided := AvoidExclusionCones(m, Reversed(offset), up, lo, hi);
    AvoidedIsAllowedUnit(m, Reversed(offset), up, lo, hi);
    ChasedLookIsUnit(m, tau, setpoint, targetForward, avoided.value, tpf);
    ChasedLook(m, tau, setpoint, targetForward, avoided.value, tpf)
  }

  /**
   * The collision space reports hit fractions between 0 (at the start of a
   * ray or sweep) and 1 (at its end), as Bullet does.
   */
  ghost predicate SaneFractions(space: Physics) {
    forall a, b :: FractionsInUnitInterval(space.rayTest(a, b)) && FractionsInUnitInterval(space.sweepTest(a, b))
  }

  /** The look direction is the reversed offset; it is zero exactly when the offset is. */
  function Reversed(v: Vec3): (r: Vec3)
    ensures IsZero(r) <==> IsZero(v)
    ensures Add(v, r) == Zero
  {
    Vec3(-v.x, -v.y, -v.z)
  }

  /** FastMath.TWO_PI. */
  function TwoPi(m: MathOracle): real {
    2.0 * m.pi
  }

  /** Where the camera stands for a given range: target + (-range) * look. */
  function CameraLocation(targetLocation: Vec3, look: Vec3, range: real): Vec3 {
    Add(targetLocation, Scale(look, -range))
  }

  // ---------------------------------------------------------------------
  // The controller

  /**
   * new OrbitCamera(id, camera, tracker): an ExclusionCamera with its
   * defaults, extended by the orbit state with its defaults, detached and
   * disabled.
   */
  method Create(id: string, camera: Camera, tracker: SignalTracker, math: MathOracle) returns (c: OrbitCamera)
    requires Lawful(math) && RotationLaw(math) && camera.frustumFar > 0.0
    ensures fresh(c) && fresh(c.base) && fresh(c.base.controller) && c.Valid()
    ensures c.base.controller.camera == camera && c.base.controller.tracker == tracker
    ensures c.base.controller.math == math && c.base.controller.cameraName == Some(id)
    ensures !c.base.controller.initialized && !c.base.controller.enabled
    ensures c.azimuthTau == Forever && c.preferredRange == 10.0 && c.obstructionResponse == Clip && c.target.None?
  {
    var base := new ExclusionCamera(id, camera, tracker, math);
    c := new OrbitCamera(base);
  }

  class OrbitCamera {
    const base: ExclusionCamera
    var azimuthTau: TimeConstant
    var deltaAzimuthSetpoint: real     // radians, camera azimuth minus target azimuth
    var maxFraction: real              // of the viewport, checked for obstructions
    var orbitRate: real                // radians per second
    var pitchAnalogSum: real           // accumulated drag since the last update
    var preferredClip: real            // near-plane distance with X-ray vision
    var preferredRange: real           // distance to the target with X-ray vision
    var yawAnalogSum: real
    var obstructionFilter: Option<Pco -> bool>
    var obstructionResponse: ObstructionResponse
    var target: Option<Target>
    var offset: Vec3                   // camera location relative to the target

    ghost predicate Valid()
      reads this, base, base.controller, base.controller.camera
    {
      && base.Valid()
      && RotationLaw(base.controller.math)
      && base.controller.camera.frustumFar > 0.0
      && (azimuthTau.Seconds? ==> azimuthTau.t >= 0.0)
      && -TwoPi(base.controller.math) <= deltaAzimuthSetpoint <= TwoPi(base.controller.math)
      && -1.0 <= maxFraction <= 1.0
      && orbitRate >= 0.0
      && preferredClip > 0.0
      && preferredRange >= 0.0
    }

    /**
     * The OrbitCamera part of the constructor, around a superclass part that
     * Create has just built.
     */
    constructor (base: ExclusionCamera)
      requires base.Valid() && RotationLaw(base.controller.math) && base.controller.camera.frustumFar > 0.0
      ensures Valid() && this.base == base
      ensures azimuthTau == Forever && deltaAzimuthSetpoint == 0.0 && maxFraction == 0.0
      ensures orbitRate == 0.5 && pitchAnalogSum == 0.0 && yawAnalogSum == 0.0
      ensures preferredClip == 0.1 && preferredRange == 10.0
      ensures obstructionFilter.None? && obstructionResponse == Clip && target.None? && offset == Zero
    {
      this.base := base;
      azimuthTau := Forever;
      deltaAzimuthSetpoint := 0.0;
      maxFraction := 0.0;
      orbitRate := 0.5;
      pitchAnalogSum := 0.0;
      preferredClip := 0.1;
      preferredRange := 10.0;
      yawAnalogSum := 0.0;
      obstructionFilter := None;
      obstructionResponse := Clip;
      target := None;
      offset := Zero;
    }

    /** isAzimuthFree: tau is +Infinity, the camera does not chase the heading. */
    predicate IsAzimuthFree()
      reads this
    {
      azimuthTau == Forever
    }

    /** isAzimuthLocked: tau is 0, the camera holds the azimuth setpoint exactly. */
    predicate IsAzimuthLocked()
      reads this
    {
      azimuthTau == Seconds(0.0)
    }

    // -------------------------------------------------------------------
    // Setters

    /**
     * setAzimuthTau: a negative time constant is rejected first; then the
     * change is refused while the controller is attached and enabled.
     */
    method SetAzimuthTau(tau: TimeConstant) returns (outcome: Outcome)
      requires Valid()
      modifies this`azimuthTau
      ensures Valid()
      ensures outcome ==
                if tau.Seconds? && tau.t < 0.0 then Thrown(IllegalArgument)
                else if base.controller.Live() then Thrown(IllegalState)
                else Done
      ensures azimuthTau == if outcome.Done? then tau else old(azimuthTau)
    {
      if tau.Seconds? && tau.t < 0.0 {
        return Thrown(IllegalArgument);
      }
      if base.controller.initialized && base.controller.enabled {
        return Thrown(IllegalState);
      }
      azimuthTau := tau;
      return Done;
    }

    /** setDeltaAzimuth: the setpoint must lie in [-2 pi, 2 pi]. */
    method SetDeltaAzimuth(angle: real) returns (outcome: Outcome)
      requires Valid()
      modifies this`deltaAzimuthSetpoint
      ensures Valid()
      ensures outcome ==
                if -TwoPi(base.controller.math) <= angle <= TwoPi(base.controller.math) then Done
                else Thrown(IllegalArgument)
      ensures deltaAzimuthSetpoint == if outcome.Done? then angle else old(deltaAzimuthSetpoint)
    {
      var twoPi := TwoPi(base.controller.math);
      if !(-twoPi <= angle <= twoPi) {
        return Thrown(IllegalArgument);
      }
      deltaAzimuthSetpoint := angle;
      return Done;
    }

    /** setMaxFraction: the fraction must lie in [-1, 1]. */
    method SetMaxFraction(fraction: real) returns (outcome: Outcome)
      requires Valid()
      modifies this`maxFraction
      ensures Valid()
      ensures outcome == if -1.0 <= fraction <= 1.0 then Done else Thrown(IllegalArgument)
      ensures maxFraction == if outcome.Done? then fraction else old(maxFraction)
    {
      if !(-1.0 <= fraction <= 1.0) {
        return Thrown(IllegalArgument);
      }
      maxFraction := fraction;
      return Done;
    }

    method SetObstructionFilter(filter: Option<Pco -> bool>)
      modifies this`obstructionFilter
      ensures obstructionFilter == filter
    {
      obstructionFilter := filter;
    }

    method SetObstructionResponse(response: ObstructionResponse)
      modifies this`obstructionResponse
      ensures obstructionResponse == response
    {
      obstructionResponse := response;
    }

    method SetOffset(desiredOffset: Vec3)
      modifies this`offset
      ensures offset == desiredOffset
    {
      offset := desiredOffset;
    }

    /** setOrbitRate: the rate must not be negative. */
    method SetOrbitRate(rate: real) returns (outcome: Outcome)
      requires Valid()
      modifies this`orbitRate
      ensures Valid()
      ensures outcome == if rate >= 0.0 then Done else Thrown(IllegalArgument)
      ensures orbitRate == if outcome.Done? then rate else old(orbitRate)
    {
      if rate < 0.0 {
        return Thrown(IllegalArgument);
      }
      orbitRate := rate;
      return Done;
    }

    /** setPreferredClip: the distance must be positive. */
    method SetPreferredClip(distance: real) returns (outcome: Outcome)
      requires Valid()
      modifies this`preferredClip
      ensures Valid()
      ensures outcome == if distance > 0.0 then Done else Thrown(IllegalArgument)
      ensures preferredClip == if outcome.Done? then distance else old(preferredClip)
    {
      if distance <= 0.0 {
        return Thrown(IllegalArgument);
      }
      preferredClip := distance;
      return Done;
    }

    /** setPreferredRange: the range must be positive. */
    method SetPreferredRange(range: real) returns (outcome: Outcome)
      requires Valid()
      modifies this`preferredRange
      ensures Valid()
      ensures outcome == if range > 0.0 then Done else Thrown(IllegalArgument)
      ensures preferredRange == if outcome.Done? then range else old(preferredRange)
    {
      if range <= 0.0 {
        return Thrown(IllegalArgument);
      }
      preferredRange := range;
      return Done;
    }

    /**
     * setRangeAndOffset: measure the offset from the target to the camera
     * and make its length the preferred range. Without a target the Java
     * method dereferences null, which throws before anything changes.
     */
    method SetRangeAndOffset() returns (outcome: Outcome)
      requires Valid()
      modifies this`offset, this`preferredRange
      ensures Valid()
      ensures outcome == if target.None? then Thrown(Unchecked) else Done
      ensures target.None? ==> offset == old(offset) && preferredRange == old(preferredRange)
      ensures target.Some? ==> offset == Sub(base.controller.camera.location, target.value.location)
      ensures target.Some? ==> preferredRange == Length(base.controller.math, offset)
    {
      if target.None? {
        return Thrown(Unchecked);
      }
      offset := Sub(base.controller.camera.location, target.value.location);
      preferredRange := Length(base.controller.math, offset);
      outcome := Done;
    }

    /** setTarget: a new target re-measures the offset; the same one changes nothing. */
    method SetTarget(newTarget: Target)
      requires Valid()
      modifies this`target, this`offset, this`preferredRange
      ensures Valid() && target == Some(newTarget)
      ensures old(target) == Some(newTarget) ==> offset == old(offset) && preferredRange == old(preferredRange)
      ensures old(target) != Some(newTarget) ==>
                offset == Sub(base.controller.camera.location, newTarget.location) &&
                preferredRange == Length(base.controller.math, offset)
    {
      if target != Some(newTarget) {
        target := Some(newTarget);
        var _ := SetRangeAndOffset();
      }
    }

    // -------------------------------------------------------------------
    // Lifecycle

    /**
     * enable: refuse to start without a target, otherwise re-measure the
     * offset and preferred range.
     */
    method Enable() returns (outcome: Outcome)
      requires Valid()
      modifies this`offset, this`preferredRange
      ensures Valid()
      ensures outcome == if target.None? then Thrown(IllegalState) else Done
      ensures outcome.Done? ==> offset == Sub(base.controller.camera.location, target.value.location)
                                && preferredRange == Length(base.controller.math, offset)
      ensures outcome.Thrown? ==> offset == old(offset) && preferredRange == old(preferredRange)
    {
      if target.None? {
        return Thrown(IllegalState);
      }
      var _ := SetRangeAndOffset();
      return Done;
    }

    /**
     * setEnabled as BaseAppState drives it: flip the flag, and on an attached
     * disabled-to-enabled transition name the camera and run enable, whose
     * exception (no target) escapes with the flag already set.
     */
    method SetEnabled(b: bool) returns (outcome: Outcome)
      requires Valid()
      modifies base.controller`enabled, base.controller.camera`name, this`offset, this`preferredRange
      ensures Valid() && base.controller.enabled == b
      ensures outcome.Thrown? <==> !old(base.controller.enabled) && b && base.controller.initialized && target.None?
      ensures outcome.Thrown? ==> outcome.failure == IllegalState
      ensures !old(base.controller.enabled) && b && base.controller.initialized && target.Some? ==>
                offset == Sub(base.controller.camera.location, target.value.location)
      ensures old(base.controller.enabled) == b || !base.controller.initialized || !b ==>
                offset == old(offset) && preferredRange == old(preferredRange)
    {
      var transition := base.controller.SetEnabled(b);
      outcome := Done;
      if transition == Enabling {
        outcome := Enable();
      }
    }

    /**
     * initialize as BaseAppState drives it: attach, and if already enabled
     * run onEnable (name the camera, then enable).
     */
    method Attach() returns (outcome: Outcome)
      requires Valid()
      modifies base.controller`initialized, base.controller.camera`name, this`offset, this`preferredRange
      ensures Valid() && base.controller.initialized
      ensures outcome.Thrown? <==> !old(base.controller.initialized) && base.controller.enabled && target.None?
      ensures old(base.controller.initialized) || !base.controller.enabled ==>
                offset == old(offset) && preferredRange == old(preferredRange)
    {
      var starting := !base.controller.initialized && base.controller.enabled;
      base.controller.Attach();
      outcome := Done;
      if starting {
        outcome := Enable();
      }
    }

    // -------------------------------------------------------------------
    // Analog input

    /**
     * onAnalog: validate the event; orbit events change the yaw or pitch sum
     * only while DragToOrbit is active; zoom events go to the base
     * controller; any other name is rejected.
     */
    method OnAnalog(eventName: string, reading: real, tpf: real) returns (outcome: Outcome)
      requires Valid() && base.controller.enabled
      modifies this`yawAnalogSum, this`pitchAnalogSum, base.controller`zoomAnalogSum
      ensures Valid()
      ensures outcome ==
                if eventName == [] || reading < 0.0 || tpf < 0.0 then Thrown(IllegalArgument)
                else if OrbitAnalogDelta(eventName, reading).None? && AnalogZoomDelta(eventName, reading).None?
                then Thrown(IllegalArgument)
                else Done
      ensures var d := OrbitAnalogDelta(eventName, reading);
              var drag := base.controller.IsActive(DragToOrbit);
              && yawAnalogSum == (if outcome.Done? && d.Some? && drag then old(yawAnalogSum) + d.value.0 else old(yawAnalogSum))
              && pitchAnalogSum == (if outcome.Done? && d.Some? && drag then old(pitchAnalogSum) + d.value.1 else old(pitchAnalogSum))
      ensures base.controller.zoomAnalogSum ==
                if outcome.Done? && AnalogZoomDelta(eventName, reading).Some?
                then old(base.controller.zoomAnalogSum) + AnalogZoomDelta(eventName, reading).value
                else old(base.controller.zoomAnalogSum)
    {
      if eventName == [] || reading < 0.0 || tpf < 0.0 {
        return Thrown(IllegalArgument);
      }
      var isDragToOrbit := base.controller.IsActive(DragToOrbit);
      if eventName == AnalogOrbitCcw {
        if isDragToOrbit {
          yawAnalogSum := yawAnalogSum + reading;
        }
      } else if eventName == AnalogOrbitCw {
        if isDragToOrbit {
          yawAnalogSum := yawAnalogSum - reading;
        }
      } else if eventName == AnalogOrbitDown {
        if isDragToOrbit {
          pitchAnalogSum := pitchAnalogSum + reading;
        }
      } else if eventName == AnalogOrbitUp {
        if isDragToOrbit {
          pitchAnalogSum := pitchAnalogSum - reading;
        }
      } else if eventName == AnalogZoomIn || eventName == AnalogZoomOut {
        outcome := base.controller.OnAnalog(eventName, reading, tpf);
        return;
      } else {
        return Thrown(IllegalArgument);
      }
      return Done;
    }

    // -------------------------------------------------------------------
    // Signal sums

    /** The sums update asks for, from the active signals. */
    function Sums(): SignalSums
      reads base.controller, base.controller.tracker
    {
      var c := base.controller;
      SignalSums(Opposed(c.IsActive(Forward), c.IsActive(Back)),
                 Opposed(c.IsActive(OrbitUp), c.IsActive(OrbitDown)),
                 Opposed(c.IsActive(OrbitCw), c.IsActive(OrbitCcw)),
                 Opposed(c.IsActive(ZoomIn), c.IsActive(ZoomOut)))
    }

    /**
     * The signal loop of update: visit CameraSignal.values() in order and
     * count each active signal toward its sum; other signals are ignored.
     */
    method SumSignals() returns (sums: SignalSums)
      ensures sums == Sums()
      ensures -1 <= sums.forward <= 1 && -1 <= sums.orbitUp <= 1
      ensures -1 <= sums.orbitCw <= 1 && -1 <= sums.zoom <= 1
    {
      var c := base.controller;
      ghost var active := ActiveSignals(c);
      sums := SignalSums(0, 0, 0, 0);
      for i := 0 to |AllSignals|
        invariant sums == Tally(AllSignals[..i], active)
      {
        var f := AllSignals[i];
        NotYetVisited(i);
        TallyStep(AllSignals[..i], f, active);
        assert f in active <==> c.IsActive(f);
        if c.IsActive(f) {
          sums := Counted(sums, f);
        }
      }
      assert AllSignals[..|AllSignals|] == AllSignals;
      TallyAll(c);
    }
  
    // -------------------------------------------------------------------
    // Sightline

    /** isObstruction with this controller's filter. */
    predicate Obstructs(pco: Pco, targetPco: Pco)
      reads this
    {
      IsObstruction(pco, targetPco, obstructionFilter)
    }

    /**
     * The hit loop of sightlineRay and sightlineSweep: the smallest fraction
     * among the obstructing hits, starting from 1.
     */
    method MinObstructionFraction(hits: seq<Hit>, targetPco: Pco) returns (minFraction: real)
      ensures minFraction == ClosestFraction(hits, targetPco, obstructionFilter)
    {
      minFraction := 1.0;
      for i := 0 to |hits|
        invariant minFraction == ClosestFraction(hits[..i], targetPco, obstructionFilter)
      {
        assert hits[..i + 1][..i] == hits[..i];
        var hit := hits[i];
        if Obstructs(hit.pco, targetPco) {
          if hit.fraction < minFraction {
            minFraction := hit.fraction;
          }
        }
      }
      assert hits[..|hits|] == hits;
    }

    /** sightlineRay: the range cut short by the closest obstruction on the ray. */
    method SightlineRay(space: Physics, targetLocation: Vec3, cameraLocation: Vec3, targetPco: Pco, range: real)
      returns (result: real)
      ensures result == ObstructedRange(range, space.rayTest(targetLocation, cameraLocation), targetPco, obstructionFilter)
    {
      var hits := space.rayTest(targetLocation, cameraLocation);
      var minFraction := MinObstructionFraction(hits, targetPco);
      result := CutShort(range, minFraction);
    }

    /** sightlineSweep: the range cut short by the closest obstruction the view sweeps. */
    method SightlineSweep(space: Physics, targetLocation: Vec3, cameraLocation: Vec3, targetPco: Pco, range: real)
      returns (result: real)
      ensures result == ObstructedRange(range, space.sweepTest(targetLocation, cameraLocation), targetPco, obstructionFilter)
    {
      var hits := space.sweepTest(targetLocation, cameraLocation);
      var minFraction := MinObstructionFraction(hits, targetPco);
      result := CutShort(range, minFraction);
    }

    /**
     * Some object touching the frustum between zNear and zFar (scaled by
     * fraction of the viewport), seen from the camera location, obstructs.
     */
    predicate FrustumObstructed(space: Physics, cameraLocation: Vec3, zNear: real, zFar: real, fraction: real,
                                targetPco: Pco)
      reads this`obstructionFilter
    {
      AnyObstruction(space.contactTest(cameraLocation, zNear, zFar, fraction), targetPco, obstructionFilter)
    }

    /** The frustum from zNear out is unobstructed, or starts at the full range. */
    predicate ClearFrom(space: Physics, cameraLocation: Vec3, zNear: real, range: real, fraction: real,
                        targetPco: Pco)
      reads this`obstructionFilter
    {
      zNear == range || !FrustumObstructed(space, cameraLocation, zNear, range, fraction, targetPco)
    }

    /**
     * Where the fraction search's bisection of [min, max] settles: the lower
     * end once the gap is under 0.01, otherwise the bisection of the half
     * that the contact test at the midpoint selects (the lower half when the
     * full-range frustum at the midpoint is obstructed).
     */
    function FractionBisection(space: Physics, cameraLocation: Vec3, range: real, targetPco: Pco,
                               min: real, max: real): real
      reads this`obstructionFilter
      decreases ((max - min) * 100.0).Floor
    {
      if max - min < Accuracy then min
      else
        HalvedGapDecreases(max - min);
        var fraction := (min + max) / 2.0;
        if FrustumObstructed(space, cameraLocation, range, range, fraction, targetPco)
        then FractionBisection(space, cameraLocation, range, targetPco, min, fraction)
        else FractionBisection(space, cameraLocation, range, targetPco, fraction, max)
    }

    /**
     * The fraction of the viewport sightline checks: maxFraction when the
     * full-range frustum at maxFraction is clear, else where the bisection
     * of [0, maxFraction] settles.
     */
    function SearchedFraction(space: Physics, cameraLocation: Vec3, range: real, targetPco: Pco): real
      reads this`obstructionFilter, this`maxFraction
    {
      if FrustumObstructed(space, cameraLocation, range, range, maxFraction, targetPco)
      then FractionBisection(space, cameraLocation, range, targetPco, 0.0, maxFraction)
      else maxFraction
    }

    /**
     * What the distance search's bisection of [min, max] returns: range
     * minus the lower end once the gap is under 0.01, otherwise the
     * bisection of the half the contact test from the midpoint selects (the
     * upper half when the frustum from the midpoint is obstructed).
     */
    function DistanceBisection(space: Physics, cameraLocation: Vec3, range: real, fraction: real, targetPco: Pco,
                               min: real, max: real): real
      reads this`obstructionFilter
      decreases ((max - min) * 100.0).Floor
    {
      if max - min < Accuracy then range - min
      else
        HalvedGapDecreases(max - min);
        var z := (min + max) / 2.0;
        if FrustumObstructed(space, cameraLocation, z, range, fraction, targetPco)
        then DistanceBisection(space, cameraLocation, range, fraction, targetPco, z, max)
        else DistanceBisection(space, cameraLocation, range, fraction, targetPco, min, z)
    }

    /**
     * The distance search returns between range - max and range - min:
     * the lower end it settles on never leaves [min, max].
     */
    lemma {:induction false} DistanceBisectionBounds(space: Physics, cameraLocation: Vec3, range: real,
                                                     fraction: real, targetPco: Pco, min: real, max: real)
      requires min <= max
      ensures range - max <= DistanceBisection(space, cameraLocation, range, fraction, targetPco, min, max) <= range - min
      decreases ((max - min) * 100.0).Floor
    {
      if max - min >= Accuracy {
        HalvedGapDecreases(max - min);
        var z := (min + max) / 2.0;
        if FrustumObstructed(space, cameraLocation, z, range, fraction, targetPco) {
          DistanceBisectionBounds(space, cameraLocation, range, fraction, targetPco, z, max);
        } else {
          DistanceBisectionBounds(space, cameraLocation, range, fraction, targetPco, min, z);
        }
      }
    }

    /**
     * The value of sightline(range): the range itself when the target's
     * object is in no collision space; otherwise, by maxFraction, the sweep
     * test's range (negative), the ray test's range (zero), or (positive) the
     * ray test's range when the frustum from it out is clear at the searched
     * fraction, and the distance search's result when it is not.
     */
    function SightlineRange(space: Physics, targetLocation: Vec3, look: Vec3, range: real, targetPco: Pco): real
      reads this`obstructionFilter, this`maxFraction
    {
      if targetPco !in space.added then range
      else
        var cameraLocation := CameraLocation(targetLocation, look, range);
        if maxFraction < 0.0 then
          ObstructedRange(range, space.sweepTest(targetLocation, cameraLocation), targetPco, obstructionFilter)
        else
          var newRange := ObstructedRange(range, space.rayTest(targetLocation, cameraLocation), targetPco,
                                          obstructionFilter);
          if maxFraction == 0.0 then newRange
          else
            var fraction := SearchedFraction(space, cameraLocation, range, targetPco);
            if !FrustumObstructed(space, cameraLocation, newRange, range, fraction, targetPco) then newRange
            else DistanceBisection(space, cameraLocation, range, fraction, targetPco, newRange, range)
    }

    /**
     * sightline never lengthens the range and never goes negative, when
     * every hit fraction lies in [0, 1].
     */
    lemma SightlineRangeBounds(space: Physics, targetLocation: Vec3, look: Vec3, range: real, targetPco: Pco)
      requires SaneFractions(space) && range >= 0.0
      ensures 0.0 <= SightlineRange(space, targetLocation, look, range, targetPco) <= range
    {
      if targetPco in space.added {
        var cameraLocation := CameraLocation(targetLocation, look, range);
        var rayHits := space.rayTest(targetLocation, cameraLocation);
        var sweepHits := space.sweepTest(targetLocation, cameraLocation);
        assert FractionsInUnitInterval(rayHits) && FractionsInUnitInterval(sweepHits);
        ObstructedRangeBounds(range, sweepHits, targetPco, obstructionFilter);
        ObstructedRangeBounds(range, rayHits, targetPco, obstructionFilter);
        var newRange := ObstructedRange(range, rayHits, targetPco, obstructionFilter);
        var fraction := SearchedFraction(space, cameraLocation, range, targetPco);
        DistanceBisectionBounds(space, cameraLocation, range, fraction, targetPco, newRange, range);
      }
    }

    /**
     * testFrustum: run the contact test of the frustum-shaped ghost and
     * report whether any contact is an obstruction.
     */
    method TestFrustum(space: Physics, cameraLocation: Vec3, zNear: real, zFar: real, fraction: real,
                       targetPco: Pco) returns (obstructed: bool)
      requires 0.0 <= fraction <= 1.0
      ensures obstructed <==> FrustumObstructed(space, cameraLocation, zNear, zFar, fraction, targetPco)
    {
      var contacts := space.contactTest(cameraLocation, zNear, zFar, fraction);
      obstructed := false;
      for i := 0 to |contacts|
        invariant obstructed <==> AnyObstruction(contacts[..i], targetPco, obstructionFilter)
      {
        assert forall j :: 0 <= j < i ==> contacts[..i + 1][j] == contacts[..i][j];
        if Obstructs(contacts[i], targetPco) {
          obstructed := true;
        }
        assert contacts[..i + 1][i] == contacts[i];
      }
      assert contacts[..|contacts|] == contacts;
    }

    /**
     * The fraction search of sightline: if the frustum over the full range at
     * maxFraction is obstructed, bisect [0, maxFraction] keeping the lower
     * end unobstructed (or 0) and the upper end obstructed, until the gap is
     * under 0.01, and settle on the lower end.
     */
    method FractionSearch(space: Physics, cameraLocation: Vec3, range: real, targetPco: Pco)
      returns (fraction: real)
      requires 0.0 < maxFraction <= 1.0
      ensures 0.0 <= fraction <= maxFraction
      ensures !FrustumObstructed(space, cameraLocation, range, range, maxFraction, targetPco) ==> fraction == maxFraction
      ensures FrustumObstructed(space, cameraLocation, range, range, maxFraction, targetPco) ==>
                && fraction < maxFraction
                && (fraction == 0.0 || !FrustumObstructed(space, cameraLocation, range, range, fraction, targetPco))
                && exists max :: fraction < max < fraction + Accuracy &&
                                 FrustumObstructed(space, cameraLocation, range, range, max, targetPco)
      ensures fraction == SearchedFraction(space, cameraLocation, range, targetPco)
    {
      fraction := maxFraction;
      var obstructed := TestFrustum(space, cameraLocation, range, range, fraction, targetPco);
      if obstructed {
        var min, max := 0.0, fraction;
        while max - min >= Accuracy
          invariant 0.0 <= min < max <= maxFraction
          invariant min == 0.0 || !FrustumObstructed(space, cameraLocation, range, range, min, targetPco)
          invariant FrustumObstructed(space, cameraLocation, range, range, max, targetPco)
          invariant FractionBisection(space, cameraLocation, range, targetPco, min, max)
                    == FractionBisection(space, cameraLocation, range, targetPco, 0.0, maxFraction)
          decreases ((max - min) * 100.0).Floor
        {
          HalvedGapDecreases(max - min);
          fraction := (min + max) / 2.0;
          obstructed := TestFrustum(space, cameraLocation, range, range, fraction, targetPco);
          if obstructed {
            max := fraction;
          } else {
            min := fraction;
          }
        }
        fraction := min;
      }
    }

    /**
     * The distance search of sightline: with the frustum from newRange to
     * range obstructed, bisect [newRange, range] keeping the lower end
     * obstructed and the upper end unobstructed (or the full range), until
     * the gap is under 0.01, and return range minus the lower end.
     */
    method DistanceSearch(space: Physics, cameraLocation: Vec3, range: real, newRange: real, fraction: real,
                          targetPco: Pco) returns (result: real)
      requires 0.0 <= fraction <= 1.0 && newRange <= range
      requires FrustumObstructed(space, cameraLocation, newRange, range, fraction, targetPco)
      ensures 0.0 <= result <= range - newRange
      ensures FrustumObstructed(space, cameraLocation, range - result, range, fraction, targetPco)
      ensures exists clear :: range - result <= clear < range - result + Accuracy && clear <= range &&
                              ClearFrom(space, cameraLocation, clear, range, fraction, targetPco)
      ensures result == DistanceBisection(space, cameraLocation, range, fraction, targetPco, newRange, range)
    {
      var min, max := newRange, range;
      while max - min >= Accuracy
        invariant newRange <= min <= max <= range
        invariant FrustumObstructed(space, cameraLocation, min, range, fraction, targetPco)
        invariant ClearFrom(space, cameraLocation, max, range, fraction, targetPco)
        invariant DistanceBisection(space, cameraLocation, range, fraction, targetPco, min, max)
                  == DistanceBisection(space, cameraLocation, range, fraction, targetPco, newRange, range)
        decreases ((max - min) * 100.0).Floor
      {
        HalvedGapDecreases(max - min);
        var z := (min + max) / 2.0;
        var obstructed := TestFrustum(space, cameraLocation, z, range, fraction, targetPco);
        if obstructed {
          min := z;
        } else {
          max := z;
        }
      }
      result := range - min;
      assert range - result == min;
      assert ClearFrom(space, cameraLocation, max, range, fraction, targetPco);
    }

    /**
     * sightline: the longest range, at most `range`, with a clear view of the
     * target. No collision space: the range itself. Negative maxFraction: the
     * sweep test alone; zero: the ray test alone; positive: the ray test,
     * then the fraction search and, if the frustum from the ray's range out
     * is obstructed, the distance search.
     */
    method Sightline(space: Physics, targetLocation: Vec3, look: Vec3, range: real, targetPco: Pco)
      returns (result: real)
      requires -1.0 <= maxFraction <= 1.0
      ensures targetPco !in space.added ==> result == range
      ensures var cameraLocation := CameraLocation(targetLocation, look, range);
              targetPco in space.added && maxFraction < 0.0 ==>
                result == ObstructedRange(range, space.sweepTest(targetLocation, cameraLocation), targetPco, obstructionFilter)
      ensures var cameraLocation := CameraLocation(targetLocation, look, range);
              targetPco in space.added && maxFraction == 0.0 ==>
                result == ObstructedRange(range, space.rayTest(targetLocation, cameraLocation), targetPco, obstructionFilter)
      ensures SaneFractions(space) && range >= 0.0 ==> 0.0 <= result <= range
      ensures result == SightlineRange(space, targetLocation, look, range, targetPco)
    {
      if targetPco !in space.added {
        return range;
      }
      var cameraLocation := CameraLocation(targetLocation, look, range);
      ghost var rayHits := space.rayTest(targetLocation, cameraLocation);
      ghost var sweepHits := space.sweepTest(targetLocation, cameraLocation);
      if maxFraction < 0.0 {
        result := SightlineSweep(space, targetLocation, cameraLocation, targetPco, range);
        if SaneFractions(space) && range >= 0.0 {
          assert FractionsInUnitInterval(sweepHits);
          ObstructedRangeBounds(range, sweepHits, targetPco, obstructionFilter);
        }
        return;
      }
      var newRange := SightlineRay(space, targetLocation, cameraLocation, targetPco, range);
      if SaneFractions(space) && range >= 0.0 {
        assert FractionsInUnitInterval(rayHits);
        ObstructedRangeBounds(range, rayHits, targetPco, obstructionFilter);
      }
      if maxFraction == 0.0 {
        return newRange;
      }
      var fraction := FractionSearch(space, cameraLocation, range, targetPco);
      var obstructed := TestFrustum(space, cameraLocation, newRange, range, fraction, targetPco);
      if !obstructed {
        return newRange;
      }
      assert newRange <= range;
      result := DistanceSearch(space, cameraLocation, range, newRange, fraction, targetPco);
    }

    // -------------------------------------------------------------------
    // Update

    /** The target is set, has a collision object, and that object is in the collision space. */
    predicate Tracking(space: Physics)
      reads this, if target.Some? then {target.value} else {}
    {
      target.Some? && target.value.pco.Some? && target.value.pco.value in space.added
    }

    /** X-ray vision: the XRay response, or the Xray signal held. */
    predicate XrayVision()
      reads this, base.controller, base.controller.tracker
    {
      obstructionResponse == XRay || base.controller.IsActive(Xray)
    }

    /**
     * The orbit part of update: apply the discrete orbit signals and then
     * the analog drag (yaw dropped while locked) to the offset, and clear
     * both analog sums.
     */
    method SteerByInput(sums: SignalSums, tpf: real)
      requires Valid()
      modifies this`offset, this`pitchAnalogSum, this`yawAnalogSum
      ensures Valid()
      ensures offset == InputOffset(base.controller.math, old(offset), base.controller.camera.left,
                                    base.controller.camera.up, sums, orbitRate, tpf, old(pitchAnalogSum),
                                    old(yawAnalogSum), IsAzimuthLocked(), base.controller.camera.height)
      ensures pitchAnalogSum == 0.0 && yawAnalogSum == 0.0
    {
      var m := base.controller.math;
      var camera := base.controller.camera;
      offset := OrbitedOffset(m, offset, camera.left, camera.up, sums.orbitCw, sums.orbitUp, orbitRate, tpf);
      if IsAzimuthLocked() {
        yawAnalogSum := 0.0;
      }
      if pitchAnalogSum != 0.0 || yawAnalogSum != 0.0 {
        offset := AnalogRotated(m, offset, pitchAnalogSum, yawAnalogSum, camera.height);
        pitchAnalogSum := 0.0;
        yawAnalogSum := 0.0;
      }
    }

    /**
     * The range a frame places the camera at, given the range rule's
     * (range, preferredRange): a warping camera without X-ray vision jumps to
     * the sightline over the longer of the two; otherwise the range stands.
     */
    function SettledRange(space: Physics, targetLocation: Vec3, look: Vec3, rp: (real, real), xrayVision: bool,
                          targetPco: Pco): real
      reads this`obstructionFilter, this`maxFraction, this`obstructionResponse
    {
      if !xrayVision && obstructionResponse in {WarpBias, WarpNoBias}
      then SightlineRange(space, targetLocation, look, Max(rp.0, rp.1), targetPco)
      else rp.0
    }

    /**
     * The near plane after a frame that started with near plane near0: only
     * a clipping camera sets it, to the preferred clip with X-ray vision, and
     * otherwise to the obstructed stretch of the sightline (range minus
     * sightline(range)) clamped into [preferredClip, far].
     */
    function SettledNear(space: Physics, targetLocation: Vec3, look: Vec3, range: real, xrayVision: bool,
                         targetPco: Pco, near0: real, far: real): real
      reads this`obstructionFilter, this`maxFraction, this`obstructionResponse, this`preferredClip
    {
      if obstructionResponse != Clip then near0
      else if xrayVision then preferredClip
      else Clamp(range - SightlineRange(space, targetLocation, look, range, targetPco), preferredClip, far)
    }

    /**
     * A warped range never exceeds the longer of the rule's range and the
     * preferred range and never goes negative; every other response keeps
     * the rule's range.
     */
    lemma SettledRangeBounds(space: Physics, targetLocation: Vec3, look: Vec3, rp: (real, real), xrayVision: bool,
                             targetPco: Pco)
      requires SaneFractions(space) && rp.0 >= 0.0 && rp.1 >= 0.0
      ensures 0.0 <= SettledRange(space, targetLocation, look, rp, xrayVision, targetPco) <= Max(rp.0, rp.1)
      ensures xrayVision || obstructionResponse !in {WarpBias, WarpNoBias} ==>
                SettledRange(space, targetLocation, look, rp, xrayVision, targetPco) == rp.0
    {
      SightlineRangeBounds(space, targetLocation, look, Max(rp.0, rp.1), targetPco);
    }

    /**
     * A clipping camera's near plane lands in [preferredClip, far], and never
     * beyond the range when that is farther than the preferred clip; other
     * responses leave the near plane alone.
     */
    lemma SettledNearBounds(space: Physics, targetLocation: Vec3, look: Vec3, range: real, xrayVision: bool,
                            targetPco: Pco, near0: real, far: real)
      requires SaneFractions(space) && range >= 0.0
      ensures var near := SettledNear(space, targetLocation, look, range, xrayVision, targetPco, near0, far);
              && (obstructionResponse == Clip && preferredClip <= far ==> preferredClip <= near <= far)
              && (obstructionResponse == Clip ==> near <= Max(range, preferredClip))
              && (obstructionResponse != Clip ==> near == near0)
    {
      SightlineRangeBounds(space, targetLocation, look, range, targetPco);
    }

    /**
     * The obstruction part of update, for a range the range rule has
     * settled on: X-ray vision keeps it; a warping camera moves to the
     * sightline over the longer of it and the preferred range; a clipping
     * camera keeps it and pushes the near plane out past the obstruction,
     * clamped into [preferredClip, far].
     */
    method ObstructionStep(space: Physics, targetLocation: Vec3, look: Vec3, range: real, far: real,
                           xrayVision: bool, targetPco: Pco) returns (newRange: real, near: real)
      requires -1.0 <= maxFraction <= 1.0
      ensures newRange == SettledRange(space, targetLocation, look, (range, preferredRange), xrayVision, targetPco)
      ensures near == if !xrayVision && obstructionResponse !in {WarpBias, WarpNoBias}
                      then Clamp(range - SightlineRange(space, targetLocation, look, range, targetPco), preferredClip, far)
                      else preferredClip
    {
      newRange, near := range, preferredClip;
      if !xrayVision {
        if obstructionResponse == WarpBias || obstructionResponse == WarpNoBias {
          var rayRange := Max(range, preferredRange);
          newRange := Sightline(space, targetLocation, look, rayRange, targetPco);
        } else {
          var clear := Sightline(space, targetLocation, look, range, targetPco);
          near := Clamp(range - clear, preferredClip, far);
        }
      }
    }

    /** The offset this frame's orbit input steers to, from the current state. */
    function SteeredInput(tpf: real): (o: Vec3)
      requires Valid()
      reads this, base, base.controller, base.controller.camera, base.controller.tracker
    {
      var camera := base.controller.camera;
      InputOffset(base.controller.math, offset, camera.left, camera.up, Sums(), orbitRate, tpf, pitchAnalogSum,
                  yawAnalogSum, IsAzimuthLocked(), camera.height)
    }

    /**
     * The look direction this frame settles on: the reversed steered offset
     * turned out of the exclusion cones, then chased toward the azimuth
     * setpoint; an error when the steered offset is zero.
     */
    function SteeredLook(tpf: real): (r: Result<Vec3>)
      requires Valid() && target.Some?
      reads this, base, base.controller, base.controller.camera, base.controller.tracker, target.value
    {
      SettledLook(base.controller.math, SteeredInput(tpf), base.preferredUpDirection, base.minDot, base.maxDot,
                  azimuthTau, deltaAzimuthSetpoint, target.value.forward, tpf)
    }

    /** The (range, preferredRange) pair the range rule gives this frame, from the current state. */
    function SteeredRange(tpf: real): (rp: (real, real))
      requires Valid() && tpf >= 0.0
      reads this, base, base.controller, base.controller.camera, base.controller.tracker
      ensures rp.0 >= 0.0 && rp.1 >= 0.0 && rp.0 <= 0.5 * base.controller.camera.frustumFar
    {
      var m := base.controller.math;
      var camera := base.controller.camera;
      RangeRuleProperties(m, Length(m, offset), preferredRange, Sums().forward, tpf, obstructionResponse,
                          XrayVision(), camera.frustumFar);
      RangeRule(m, Length(m, offset), preferredRange, Sums().forward, tpf, obstructionResponse, XrayVision(),
                camera.frustumFar)
    }

    /** The camera's Y tangent after this frame's zoom, from the current state. */
    function ZoomedTangent(tpf: real): (t: real)
      requires base.controller.Valid()
      reads base.controller, base.controller.camera, base.controller.tracker
    {
      var c := base.controller;
      FocalZoomed(c.math, c.camera.yTangent, Sums().zoom, tpf, c.zoomAnalogSum, c.zoomMultiplier,
                  c.minYTangent, c.maxYTangent, c.Live())
    }

    /**
     * The steering half of update: sum the signals, steer the offset by the
     * orbit input, and settle on the look direction.
     */
    method Steer(tpf: real) returns (sums: SignalSums, look: Result<Vec3>)
      requires Valid() && target.Some?
      modifies this`offset, this`pitchAnalogSum, this`yawAnalogSum
      ensures Valid()
      ensures sums == old(Sums())
      ensures look == old(SteeredLook(tpf))
      ensures offset == old(SteeredInput(tpf))
      ensures pitchAnalogSum == 0.0 && yawAnalogSum == 0.0
      ensures preferredRange == old(preferredRange) && unchanged(base.controller.camera)
    {
      var m := base.controller.math;
      var up, lo, hi := base.preferredUpDirection, base.minDot, base.maxDot;
      var tau, setpoint, forward := azimuthTau, deltaAzimuthSetpoint, target.value.forward;
      ghost var input := SteeredInput(tpf);
      sums := SumSignals();
      assert SteeredInput(tpf) == input;
      SteerByInput(sums, tpf);
      assert offset == input;
      look := SettledLook(m, offset, up, lo, hi, tau, setpoint, forward, tpf);
    }

    /**
     * Where a frame leaves the camera's pose, given the look direction, the
     * range rule's (range, preferredRange), whether x-ray vision was on, and
     * the frustum's near and far planes before the frame: the camera faces
     * `look` from SettledRange behind the target, with "left" and "up"
     * completing the frame about the preferred up direction, the near plane
     * is SettledNear, the far plane stays, and the preferred range is the
     * rule's.
     */
    ghost predicate Posed(space: Physics, look: Vec3, rp: (real, real), xrayVision: bool, near0: real, far0: real)
      reads this, base`preferredUpDirection, base.controller.camera`direction, base.controller.camera`location
      reads base.controller.camera`left, base.controller.camera`up
      reads base.controller.camera`frustumNear, base.controller.camera`frustumFar
      reads if target.Some? then {target.value} else {}
    {
      var camera := base.controller.camera;
      && target.Some? && target.value.pco.Some?
      && camera.direction == look
      && Lawful(base.controller.math)
      && camera.left == Normalize(base.controller.math, Cross(base.preferredUpDirection, look))
      && camera.up == Cross(look, camera.left)
      && preferredRange == rp.1
      && offset == Scale(look, -SettledRange(space, target.value.location, look, rp, xrayVision, target.value.pco.value))
      && camera.location == Add(target.value.location, offset)
      && camera.frustumNear == SettledNear(space, target.value.location, look, rp.0, xrayVision,
                                           target.value.pco.value, near0, far0)
      && camera.frustumFar == far0
    }

    /** Posed, with the frame's zoom applied (to the tangent `zoomed`) and consumed. */
    ghost predicate Placed(space: Physics, look: Vec3, rp: (real, real), xrayVision: bool, zoomed: real,
                           near0: real, far0: real)
      reads this, base`preferredUpDirection, base.controller, base.controller.camera
      reads if target.Some? then {target.value} else {}
    {
      && Posed(space, look, rp, xrayVision, near0, far0)
      && base.controller.camera.yTangent == zoomed
      && base.controller.zoomAnalogSum == 0.0
    }

    /**
     * The placing half of update, for a unit look direction and the range
     * rule's (range, preferredRange): face the camera, take the preferred
     * range, apply the obstruction response and place the camera behind the
     * target.
     */
    method Position(space: Physics, look: Vec3, rangePreferred: (real, real), xrayVision: bool)
      requires Valid() && Tracking(space) && IsUnit(look)
      requires rangePreferred.0 >= 0.0 && rangePreferred.1 >= 0.0
      modifies this`preferredRange, this`offset
      modifies base.controller.camera`direction, base.controller.camera`left, base.controller.camera`up
      modifies base.controller.camera`location, base.controller.camera`frustumNear
      ensures Valid()
      ensures Posed(space, look, rangePreferred, xrayVision, old(base.controller.camera.frustumNear),
                    old(base.controller.camera.frustumFar))
    {
      base.ReorientCamera(look);
      preferredRange := rangePreferred.1;
      Retreat(space, look, rangePreferred, xrayVision);
    }

    /**
     * The end of positioning, with the preferred range already the rule's:
     * apply the obstruction response, set a clipping camera's near plane,
     * and place the camera behind the target.
     */
    method Retreat(space: Physics, look: Vec3, rangePreferred: (real, real), xrayVision: bool)
      requires Valid() && Tracking(space) && preferredRange == rangePreferred.1
      modifies this`offset, base.controller.camera`location, base.controller.camera`frustumNear
      ensures Valid()
      ensures offset == Scale(look, -SettledRange(space, target.value.location, look, rangePreferred, xrayVision,
                                                  target.value.pco.value))
      ensures base.controller.camera.location == Add(target.value.location, offset)
      ensures base.controller.camera.frustumNear ==
                SettledNear(space, target.value.location, look, rangePreferred.0, xrayVision, target.value.pco.value,
                            old(base.controller.camera.frustumNear), base.controller.camera.frustumFar)
    {
      var camera := base.controller.camera;
      var tgt := target.value;
      var newRange, near := ObstructionStep(space, tgt.location, look, rangePreferred.0, camera.frustumFar,
                                            xrayVision, tgt.pco.value);
      if obstructionResponse == Clip {
        camera.frustumNear := near;
      }
      offset := Scale(look, -newRange);
      camera.location := Add(tgt.location, offset);
    }

    /** Position the camera, then zoom. */
    method Place(tpf: real, space: Physics, look: Vec3, rangePreferred: (real, real), xrayVision: bool, zoom: int)
      requires Valid() && tpf >= 0.0 && Tracking(space) && IsUnit(look) && zoom == Sums().zoom
      requires rangePreferred.0 >= 0.0 && rangePreferred.1 >= 0.0
      modifies this`preferredRange, this`offset, base.controller`zoomAnalogSum
      modifies base.controller.camera`direction, base.controller.camera`left, base.controller.camera`up
      modifies base.controller.camera`location, base.controller.camera`frustumNear, base.controller.camera`yTangent
      ensures Valid()
      ensures Placed(space, look, rangePreferred, xrayVision, old(ZoomedTangent(tpf)),
                     old(base.controller.camera.frustumNear), old(base.controller.camera.frustumFar))
    {
      Position(space, look, rangePreferred, xrayVision);
      base.controller.ApplyFocalZoom(zoom, tpf);
    }

    /** What only reads the controller, its camera and its tracker survives a step that changes none of them. */
    twostate lemma ControllerKept(tpf: real)
      requires old(base.controller.Valid())
      requires unchanged(base.controller, base.controller.camera, base.controller.tracker)
      ensures Sums() == old(Sums()) && ZoomedTangent(tpf) == old(ZoomedTangent(tpf))
    {
    }

    /**
     * update: one frame. Without a target, a target collision object, or
     * that object in the collision space, nothing changes; otherwise the
     * frame proceeds as Frame describes.
     */
    method Update(tpf: real, space: Physics) returns (outcome: Outcome)
      requires Valid() && tpf >= 0.0
      modifies this`offset, this`pitchAnalogSum, this`yawAnalogSum, this`preferredRange
      modifies base.controller`zoomAnalogSum
      modifies base.controller.camera`direction, base.controller.camera`left, base.controller.camera`up
      modifies base.controller.camera`location, base.controller.camera`frustumNear, base.controller.camera`yTangent
      ensures Valid()
      ensures !old(Tracking(space)) ==>
                outcome == Done && unchanged(this) && unchanged(base.controller) && unchanged(base.controller.camera)
      ensures old(Tracking(space)) ==> pitchAnalogSum == 0.0 && yawAnalogSum == 0.0
      ensures old(Tracking(space)) ==> (outcome.Thrown? <==> old(SteeredLook(tpf)).Err?)
      ensures old(Tracking(space)) && outcome.Thrown? ==>
                && outcome.failure == IllegalArgument
                && offset == old(SteeredInput(tpf))
                && preferredRange == old(preferredRange)
                && base.controller.zoomAnalogSum == old(base.controller.zoomAnalogSum)
                && unchanged(base.controller.camera)
      ensures old(Tracking(space)) && outcome.Done? ==>
                Placed(space, old(SteeredLook(tpf)).value, old(SteeredRange(tpf)), old(XrayVision()),
                       old(ZoomedTangent(tpf)), old(base.controller.camera.frustumNear),
                       old(base.controller.camera.frustumFar))
    {
      if !Tracking(space) {
        return Done;
      }
      outcome := Frame(tpf, space);
    }

    /**
     * One frame with a target in the collision space: sum the signals; orbit
     * the offset by the discrete and analog input; turn the reversed offset
     * out of the exclusion cones (a zero offset throws) and chase the azimuth
     * setpoint; face the camera that way; apply the range rule and the
     * obstruction response; place the camera at the new range behind the
     * target; zoom.
     */
    method Frame(tpf: real, space: Physics) returns (outcome: Outcome)
      requires Valid() && tpf >= 0.0 && Tracking(space)
      modifies this`offset, this`pitchAnalogSum, this`yawAnalogSum, this`preferredRange
      modifies base.controller`zoomAnalogSum
      modifies base.controller.camera`direction, base.controller.camera`left, base.controller.camera`up
      modifies base.controller.camera`location, base.controller.camera`frustumNear, base.controller.camera`yTangent
      ensures Valid()
      ensures pitchAnalogSum == 0.0 && yawAnalogSum == 0.0
      ensures outcome.Thrown? <==> old(SteeredLook(tpf)).Err?
      ensures outcome.Thrown? ==>
                && outcome.failure == IllegalArgument
                && offset == old(SteeredInput(tpf))
                && preferredRange == old(preferredRange)
                && base.controller.zoomAnalogSum == old(base.controller.zoomAnalogSum)
                && unchanged(base.controller.camera)
      ensures outcome.Done? ==>
                Placed(space, old(SteeredLook(tpf)).value, old(SteeredRange(tpf)), old(XrayVision()),
                       old(ZoomedTangent(tpf)), old(base.controller.camera.frustumNear),
                       old(base.controller.camera.frustumFar))
    {
      var m := base.controller.math;
      var range0 := Length(m, offset);
      var preferred := preferredRange;
      var xrayVision := XrayVision();
      var far := base.controller.camera.frustumFar;
      ghost var rp := SteeredRange(tpf);
      var sums, look := Steer(tpf);
      if look.Err? {
        return Thrown(IllegalArgument);
      }
      assert rp == RangeRule(m, range0, preferred, sums.forward, tpf, obstructionResponse, xrayVision, far);
      ControllerKept(tpf);
      Finish(tpf, space, look.value, range0, preferred, sums, xrayVision);
      outcome := Done;
    }

    /**
     * The second half of a frame, once the look direction is settled: apply
     * the range rule to the range before steering, then place the camera.
     */
    method Finish(tpf: real, space: Physics, look: Vec3, range0: real, preferred: real, sums: SignalSums,
                  xrayVision: bool)
      requires Valid() && tpf >= 0.0 && Tracking(space) && IsUnit(look) && sums.zoom == Sums().zoom
      requires range0 >= 0.0 && preferred >= 0.0
      modifies this`preferredRange, this`offset, base.controller`zoomAnalogSum
      modifies base.controller.camera`direction, base.controller.camera`left, base.controller.camera`up
      modifies base.controller.camera`location, base.controller.camera`frustumNear, base.controller.camera`yTangent
      ensures Valid()
      ensures Placed(space, look,
                     RangeRule(base.controller.math, range0, preferred, sums.forward, tpf, obstructionResponse,
                               xrayVision, old(base.controller.camera.frustumFar)),
                     xrayVision, old(ZoomedTangent(tpf)), old(base.controller.camera.frustumNear),
                     old(base.controller.camera.frustumFar))
    {
      var m := base.controller.math;
      var far := base.controller.camera.frustumFar;
      RangeRuleProperties(m, range0, preferred, sums.forward, tpf, obstructionResponse, xrayVision, far);
      var rangePreferred := RangeRule(m, range0, preferred, sums.forward, tpf, obstructionResponse, xrayVision, far);
      Place(tpf, space, look, rangePreferred, xrayVision, sums.zoom);
    }
  }
}
