/*
 * com.github.stephengold.garrett.ExclusionCamera: a camera controller with a
 * preferred "up" direction and two pole-exclusion cones. The camera may not
 * look closer to "up" than the angle whose cosine is maxDot, nor closer to
 * "down" than the one whose cosine is -minDot.
 *
 * Java inheritance is modelled by composition: an ExclusionCamera holds the
 * CameraController whose state it extends.
 */
module ExclusionCamera {
  import opened Common
  import opened CameraController

  // ---------------------------------------------------------------------
  // setPoleExclusionAngle's closing assertion (see Findings in the README)

  /**
   * The (maxDot, minDot) pair setPoleExclusionAngle stores for an angle in
   * [0, pi/2]: the cosine, raised to 0 if negative, and its negation.
   */
  function PoleDots(m: MathOracle, angle: real): (dots: (real, real))
    requires Lawful(m)
  {
    var cos := if Cos(m, angle) < 0.0 then 0.0 else Cos(m, angle);
    (cos, -cos)
  }

  /** The assertion setPoleExclusionAngle makes after storing the pair. */
  predicate PoleAssertionHolds(m: MathOracle, angle: real)
    requires Lawful(m)
  {
    PoleDots(m, angle).0 > PoleDots(m, angle).1
  }

  /**
   * The documented upper limit pi/2 makes the cosine 0, so maxDot == minDot
   * and the assertion fails for an argument the validation accepts.
   */
  lemma PoleAssertionFailsAtHalfPi(m: MathOracle)
    requires Lawful(m)
    ensures 0.0 <= m.pi / 2.0 <= m.pi / 2.0
    ensures PoleDots(m, m.pi / 2.0) == (0.0, 0.0)
    ensures !PoleAssertionHolds(m, m.pi / 2.0)
  {
  }

  /**
   * The ordering the rest of the controller relies on, maxDot >= minDot,
   * holds for every angle setPoleExclusionAngle accepts, pi/2 included: the
   * assertion's strict > is one step stronger than what the cones need.
   */
  lemma PoleDotsOrdered(m: MathOracle, angle: real)
    requires Lawful(m) && 0.0 <= angle <= m.pi / 2.0
    ensures -1.0 <= PoleDots(m, angle).1 <= PoleDots(m, angle).0 <= 1.0
    ensures PoleDots(m, angle).1 == -PoleDots(m, angle).0
  {
  }

  /** Below pi/2 the assertion holds: the cosine is positive there. */
  lemma PoleAssertionHoldsBelowHalfPi(m: MathOracle, angle: real)
    requires Lawful(m) && 0.0 <= angle < m.pi / 2.0
    ensures PoleAssertionHolds(m, angle)
  {
    CosPositiveBelowHalfPi(m, angle);
  }

  lemma CosPositiveBelowHalfPi(m: MathOracle, angle: real)
    requires Lawful(m) && 0.0 <= angle < m.pi / 2.0
    ensures Cos(m, angle) > 0.0
  {
    assert Cos(m, m.pi / 2.0) < Cos(m, angle);
  }

  // ---------------------------------------------------------------------
  // The controller

  class ExclusionCamera {
    const controller: CameraController
    var maxDot: real                 // largest allowed dot(look, up)
    var minDot: real                 // smallest allowed dot(look, up)
    var preferredUpDirection: Vec3

    /**
     * The cone bounds are ordered cosines and the preferred "up" direction
     * is a unit vector.
     */
    ghost predicate Valid()
      reads this, controller
    {
      && controller.Valid()
      && -1.0 <= minDot <= maxDot <= 1.0
      && IsUnit(preferredUpDirection)
    }

    constructor (id: string, camera: Camera, tracker: SignalTracker, math: MathOracle)
      requires Lawful(math)
      ensures Valid() && fresh(controller)
      ensures controller.camera == camera && controller.tracker == tracker && controller.math == math
      ensures controller.cameraName == Some(id) && !controller.initialized && !controller.enabled
      ensures maxDot == Cos(math, 0.3) && minDot == -Cos(math, 0.3)
      ensures preferredUpDirection == Vec3(0.0, 1.0, 0.0)
    {
      var cos := Cos(math, 0.3);
      CosPositiveBelowHalfPi(math, 0.3);
      controller := new CameraController(id, camera, tracker, math);
      maxDot := cos;
      minDot := -cos;
      preferredUpDirection := Vec3(0.0, 1.0, 0.0);
    }

    /**
     * setPoleExclusionAngle: one aperture for both cones. The angle must lie
     * in [0, pi/2]; maxDot becomes its cosine (never negative) and minDot the
     * negation, so the bounds stay ordered. The closing assertion asks for
     * maxDot > minDot, which fails (after the store) at pi/2.
     */
    method SetPoleExclusionAngle(minAngle: real) returns (outcome: Outcome)
      requires Valid()
      modifies this`maxDot, this`minDot
      ensures Valid()
      ensures outcome ==
                if !(0.0 <= minAngle <= controller.math.pi / 2.0) then Thrown(IllegalArgument)
                else if PoleAssertionHolds(controller.math, minAngle) then Done
                else Thrown(AssertionFailed)
      ensures outcome != Thrown(IllegalArgument) ==>
                maxDot == Max(Cos(controller.math, minAngle), 0.0) && minDot == -maxDot
      ensures outcome == Thrown(IllegalArgument) ==> maxDot == old(maxDot) && minDot == old(minDot)
    {
      if !(0.0 <= minAngle <= controller.math.pi / 2.0) {
        return Thrown(IllegalArgument);
      }
      var cos := Cos(controller.math, minAngle);
      if cos < 0.0 {
        cos := 0.0;
      }
      maxDot := cos;
      minDot := -cos;
      if !(maxDot > minDot) {
        return Thrown(AssertionFailed);
      }
      return Done;
    }

    /**
     * setPoleExclusionAngles: separate apertures for the upper and lower
     * cones, each in [0, pi], together less than pi; maxDot is then strictly
     * greater than minDot.
     */
    method SetPoleExclusionAngles(upperAngle: real, lowerAngle: real) returns (outcome: Outcome)
      requires Valid()
      modifies this`maxDot, this`minDot
      ensures Valid()
      ensures outcome ==
                if 0.0 <= upperAngle <= controller.math.pi && 0.0 <= lowerAngle <= controller.math.pi
                   && upperAngle + lowerAngle < controller.math.pi
                then Done else Thrown(IllegalArgument)
      ensures outcome.Done? ==>
                maxDot == Cos(controller.math, upperAngle) && minDot == -Cos(controller.math, lowerAngle)
                && maxDot > minDot
      ensures outcome.Thrown? ==> maxDot == old(maxDot) && minDot == old(minDot)
    {
      var m := controller.math;
      if !(0.0 <= upperAngle <= m.pi) || !(0.0 <= lowerAngle <= m.pi) {
        return Thrown(IllegalArgument);
      }
      var sum := upperAngle + lowerAngle;
      if !(sum < m.pi) {
        return Thrown(IllegalArgument);
      }
      maxDot := Cos(m, upperAngle);
      minDot := -Cos(m, lowerAngle);
      assert Cos(m, upperAngle) + Cos(m, lowerAngle) > 0.0;
      return Done;
    }

    /** setPreferredUpDirection: reject the zero vector, store the direction normalized. */
    method SetPreferredUpDirection(direction: Vec3) returns (outcome: Outcome)
      requires Valid()
      modifies this`preferredUpDirection
      ensures Valid()
      ensures outcome == if IsZero(direction) then Thrown(IllegalArgument) else Done
      ensures preferredUpDirection ==
                if outcome.Done? then Normalize(controller.math, direction) else old(preferredUpDirection)
    {
      if IsZero(direction) {
        return Thrown(IllegalArgument);
      }
      preferredUpDirection := Normalize(controller.math, direction);
      NormalizeIsUnit(controller.math, direction);
      return Done;
    }

    /** reorientCamera: point the camera along a unit look direction. */
    method ReorientCamera(look: Vec3)
      requires Valid() && IsUnit(look)
      modifies controller.camera`direction, controller.camera`left, controller.camera`up
      ensures controller.camera.direction == look
      ensures controller.camera.left == Normalize(controller.math, Cross(preferredUpDirection, look))
      ensures controller.camera.up == Cross(look, controller.camera.left)
    {
      controller.camera.LookAtDirection(controller.math, look, preferredUpDirection);
    }
  }

  // ---------------------------------------------------------------------
  // avoidExclusionCones

  /**
   * avoidExclusionCones for the bounds [lo, hi] about the unit direction up:
   * reject a zero look direction and normalize it. If its component d along
   * up lies outside [lo, hi], rebuild it from d clamped into the range and
   * the normalized horizontal rejection (a generated basis vector when the
   * look is exactly along +-up).
   */
  function AvoidExclusionCones(m: MathOracle, look: Vec3, up: Vec3, lo: real, hi: real): (r: Result<Vec3>)
    requires Lawful(m) && -1.0 <= lo <= hi <= 1.0
    ensures r.Err? <==> IsZero(look)
    ensures r.Err? ==> r.failure == IllegalArgument
  {
    if IsZero(look) then Err(IllegalArgument)
    else
      var n := Normalize(m, look);
      var dot := Dot(n, up);
      if Between(lo, dot, hi) then Ok(n)
      else
        var pole := dot >= 1.0 || dot <= -1.0;
        // tmpRej: the horizontal direction closest to the look direction
        var rej := if pole then Basis(m, n) else Normalize(m, Sub(n, Scale(up, dot)));
        var newDot := Clamp(if pole then Dot(rej, up) else dot, lo, hi);
        Ok(Add(Scale(up, newDot), Scale(rej, Circle(m, newDot))))
  }

  /**
   * Any nonzero look direction comes out as a unit vector whose component
   * along up lies in [lo, hi], as reorientCamera requires.
   */
  lemma AvoidedIsAllowedUnit(m: MathOracle, look: Vec3, up: Vec3, lo: real, hi: real)
    requires Lawful(m) && -1.0 <= lo <= hi <= 1.0 && IsUnit(up) && !IsZero(look)
    ensures IsUnit(AvoidExclusionCones(m, look, up, lo, hi).value)
    ensures lo <= Dot(AvoidExclusionCones(m, look, up, lo, hi).value, up) <= hi
  {
    var n := Normalize(m, look);
    NormalizeIsUnit(m, look);
    var dot := Dot(n, up);
    BetweenOrdered(lo, dot, hi);
    if !Between(lo, dot, hi) {
      if dot >= 1.0 || dot <= -1.0 {
        DeflectFromPole(m, n, up, lo, hi);
      } else {
        DeflectSideways(m, n, up, lo, hi);
      }
    }
  }

  /** A normalized look direction that is already allowed is kept as is. */
  lemma AvoidedKeepsAllowed(m: MathOracle, look: Vec3, up: Vec3, lo: real, hi: real)
    requires Lawful(m) && -1.0 <= lo <= hi <= 1.0 && !IsZero(look)
    requires lo <= Dot(Normalize(m, look), up) <= hi
    ensures AvoidExclusionCones(m, look, up, lo, hi) == Ok(Normalize(m, look))
  {
    BetweenOrdered(lo, Dot(Normalize(m, look), up), hi);
  }

  /**
   * Off the poles, an excluded look direction is rebuilt from its component
   * along up clamped into [lo, hi] and its normalized horizontal rejection.
   */
  lemma AvoidedOffPole(m: MathOracle, look: Vec3, up: Vec3, lo: real, hi: real)
    requires Lawful(m) && -1.0 <= lo <= hi <= 1.0 && !IsZero(look)
    requires !(lo <= Dot(Normalize(m, look), up) <= hi)
    requires -1.0 < Dot(Normalize(m, look), up) < 1.0
    ensures
      var n := Normalize(m, look);
      var d := Dot(n, up);
      var a := Clamp(d, lo, hi);
      AvoidExclusionCones(m, look, up, lo, hi)
        == Ok(Add(Scale(up, a), Scale(Normalize(m, Sub(n, Scale(up, d))), Circle(m, a))))
  {
    BetweenOrdered(lo, Dot(Normalize(m, look), up), hi);
  }

  /**
   * An excluded look direction off the poles has its component along up
   * clamped into the range.
   */
  lemma AvoidedClampsExcluded(m: MathOracle, look: Vec3, up: Vec3, lo: real, hi: real)
    requires Lawful(m) && -1.0 <= lo <= hi <= 1.0 && IsUnit(up) && !IsZero(look)
    requires !(lo <= Dot(Normalize(m, look), up) <= hi)
    requires -1.0 < Dot(Normalize(m, look), up) < 1.0
    ensures Dot(AvoidExclusionCones(m, look, up, lo, hi).value, up) == Clamp(Dot(Normalize(m, look), up), lo, hi)
  {
    NormalizeIsUnit(m, look);
    AvoidedOffPole(m, look, up, lo, hi);
    DeflectSideways(m, Normalize(m, look), up, lo, hi);
  }

  /**
   * An excluded look direction off the poles keeps its heading: the
   * horizontal part of the result is a nonnegative multiple of the original
   * one.
   */
  lemma AvoidedKeepsHeading(m: MathOracle, look: Vec3, up: Vec3, lo: real, hi: real)
    requires Lawful(m) && -1.0 <= lo <= hi <= 1.0 && IsUnit(up) && !IsZero(look)
    requires !(lo <= Dot(Normalize(m, look), up) <= hi)
    requires -1.0 < Dot(Normalize(m, look), up) < 1.0
    ensures exists k :: k >= 0.0 &&
              Horizontal(AvoidExclusionCones(m, look, up, lo, hi).value, up) == Scale(Horizontal(Normalize(m, look), up), k)
  {
    NormalizeIsUnit(m, look);
    AvoidedOffPole(m, look, up, lo, hi);
    DeflectKeepsHeading(m, Normalize(m, look), up, lo, hi);
  }

  /**
   * A look direction straight along +-up is turned horizontal and then
   * tilted to 0 clamped into the range.
   */
  lemma AvoidedTurnsPole(m: MathOracle, look: Vec3, up: Vec3, lo: real, hi: real)
    requires Lawful(m) && -1.0 <= lo <= hi <= 1.0 && IsUnit(up) && !IsZero(look)
    requires !(lo <= Dot(Normalize(m, look), up) <= hi)
    requires Dot(Normalize(m, look), up) >= 1.0 || Dot(Normalize(m, look), up) <= -1.0
    ensures Dot(AvoidExclusionCones(m, look, up, lo, hi).value, up) == Clamp(0.0, lo, hi)
  {
    var n := Normalize(m, look);
    NormalizeIsUnit(m, look);
    BetweenOrdered(lo, Dot(n, up), hi);
    DeflectFromPole(m, n, up, lo, hi);
  }

  /**
   * The out-of-range case of avoidExclusionCones away from the poles: the
   * rebuilt look direction is a unit vector, its "up" component is the
   * clamped dot, and its horizontal part is a nonnegative multiple of the
   * original one.
   */
  lemma DeflectSideways(m: MathOracle, n: Vec3, up: Vec3, lo: real, hi: real)
    requires Lawful(m) && IsUnit(n) && IsUnit(up) && -1.0 <= lo <= hi <= 1.0
    requires -1.0 < Dot(n, up) < 1.0
    ensures
      var d := Dot(n, up);
      var a := Clamp(d, lo, hi);
      var w := Normalize(m, Sub(n, Scale(up, d)));
      var res := Add(Scale(up, a), Scale(w, Circle(m, a)));
      IsUnit(res) && Dot(res, up) == a && Horizontal(res, up) == Scale(w, Circle(m, a))
  {
    var d := Dot(n, up);
    var w := Normalize(m, Sub(n, Scale(up, d)));
    UnitRejection(m, n, up);
    var a := Clamp(d, lo, hi);
    Compose(up, w, a, Circle(m, a));
    HorizontalOfComposition(up, w, a, Circle(m, a));
  }

  /** The deflection keeps the heading of n about up. */
  lemma DeflectKeepsHeading(m: MathOracle, n: Vec3, up: Vec3, lo: real, hi: real)
    requires Lawful(m) && IsUnit(n) && IsUnit(up) && -1.0 <= lo <= hi <= 1.0
    requires -1.0 < Dot(n, up) < 1.0
    ensures
      var d := Dot(n, up);
      var a := Clamp(d, lo, hi);
      var res := Add(Scale(up, a), Scale(Normalize(m, Sub(n, Scale(up, d))), Circle(m, a)));
      exists k :: k >= 0.0 && Horizontal(res, up) == Scale(Horizontal(n, up), k)
  {
    var d := Dot(n, up);
    var t := Sub(n, Scale(up, d));
    var a := Clamp(d, lo, hi);
    var c := Circle(m, a);
    var k := NormalizeFactor(m, t);
    var res := Add(Scale(up, a), Scale(Normalize(m, t), c));
    DeflectSideways(m, n, up, lo, hi);
    ScaleScale(t, k, c);
    NonnegativeProduct(c, k);
    NonnegativeMultiple(Horizontal(res, up), Horizontal(n, up), c * k);
  }

  lemma NonnegativeProduct(c: real, k: real)
    requires c >= 0.0 && k > 0.0
    ensures c * k >= 0.0
  {
  }

  /** The normalized rejection of n from up is a unit vector orthogonal to up. */
  lemma UnitRejection(m: MathOracle, n: Vec3, up: Vec3)
    requires Lawful(m) && IsUnit(n) && IsUnit(up)
    requires -1.0 < Dot(n, up) < 1.0
    ensures
      var t := Sub(n, Scale(up, Dot(n, up)));
      IsUnit(Normalize(m, t)) && Dot(up, Normalize(m, t)) == 0.0
  {
    var d := Dot(n, up);
    var t := Sub(n, Scale(up, d));
    Rejection(n, up, d);
    SquareBelowOne(d);
    LengthSquaredSign(t);
    assert !IsZero(t);
    NormalizeIsUnit(m, t);
    var k := NormalizeFactor(m, t);
    calc {
      Dot(up, Normalize(m, t));
      Dot(Scale(t, k), up);
      { DotScaleLeft(t, k, up); }
      k * Dot(t, up);
      k * 0.0;
      0.0;
    }
  }

  /**
   * The out-of-range case of avoidExclusionCones at a pole: the generated
   * basis vector is horizontal, and the rebuilt look direction is a unit
   * vector whose "up" component is 0 clamped into the range.
   */
  lemma DeflectFromPole(m: MathOracle, n: Vec3, up: Vec3, lo: real, hi: real)
    requires Lawful(m) && IsUnit(n) && IsUnit(up) && -1.0 <= lo <= hi <= 1.0
    requires Dot(n, up) >= 1.0 || Dot(n, up) <= -1.0
    ensures !IsZero(n)
    ensures
      var w := Basis(m, n);
      var a := Clamp(Dot(w, up), lo, hi);
      var res := Add(Scale(up, a), Scale(w, Circle(m, a)));
      && Dot(w, up) == 0.0 && IsUnit(res) && Dot(res, up) == a
  {
    UnitNonZero(n);
    var d := Dot(n, up);
    var w := Basis(m, n);
    Aligned(n, up, d);
    OrthogonalToMultiple(w, up, d);
    var a := Clamp(0.0, lo, hi);
    Compose(up, w, a, Circle(m, a));
  }

  lemma SquareBelowOne(d: real)
    requires -1.0 < d < 1.0
    ensures d * d < 1.0
  {
    if d >= 0.0 {
      calc {
        d * d;
      <= 1.0 * d;
      < 1.0;
      }
    } else {
      calc {
        d * d;
        (-d) * (-d);
      <= 1.0 * (-d);
      < 1.0;
      }
    }
  }

  lemma ScaleScale(v: Vec3, a: real, b: real)
    ensures Scale(Scale(v, a), b) == Scale(v, b * a)
  {
  }

  /** Removing the u component of a.u + c.w (w orthogonal to u) leaves c.w. */
  lemma HorizontalOfComposition(u: Vec3, w: Vec3, a: real, c: real)
    requires IsUnit(u) && IsUnit(w) && Dot(u, w) == 0.0
    requires c * c == 1.0 - a * a
    ensures Sub(Add(Scale(u, a), Scale(w, c)), Scale(u, Dot(Add(Scale(u, a), Scale(w, c)), u))) == Scale(w, c)
  {
    Compose(u, w, a, c);
  }
}
