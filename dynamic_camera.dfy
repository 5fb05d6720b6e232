/*
 * com.github.stephengold.garrett.DynamicCamera: a free-flying camera whose
 * location follows a spherical rigid body (the "shell"). Signals push the
 * shell at a fixed speed, turn ghost mode on and off, and make it heavy for
 * ramming; analog input turns the view and zooms. The look direction is
 * kept out of a cone about the preferred "up" direction and its opposite.
 */
module DynamicCamera {
  import opened Common
  import opened CameraController

  /**
   * The camera functions DynamicCamera consults. The controller names more
   * functions than the CameraSignal enum shipped beside it, so they are
   * declared here, in alphabetical order.
   */
  datatype DynamicSignal =
    | Back | DragToRotate | East | Forward | Ghost | Left | North | PointToLook
    | PreferredDown | PreferredUp | Ram | Right | South | ViewDown | ViewUp | West
    | WorldDown | WorldUp | ZoomIn | ZoomOut

  /** values(), in declaration order. */
  const AllDynamicSignals: seq<DynamicSignal> :=
    [Back, DragToRotate, East, Forward, Ghost, Left, North, PointToLook,
     PreferredDown, PreferredUp, Ram, Right, South, ViewDown, ViewUp, West,
     WorldDown, WorldUp, ZoomIn, ZoomOut]

  /** values() lists every constant, each exactly once. */
  lemma AllDynamicSignalsComplete()
    ensures forall f :: f in AllDynamicSignals
    ensures forall i, j :: 0 <= i < j < |AllDynamicSignals| ==> AllDynamicSignals[i] != AllDynamicSignals[j]
  {
    forall f
      ensures f in AllDynamicSignals
    {
      match f
      case Back => assert AllDynamicSignals[0] == f;
      case _ =>
    }
  }

  /** Names of the analog events. */
  const AnalogPitchDown: string := "pitch down"
  const AnalogPitchUp: string := "pitch up"
  const AnalogYawLeft: string := "yaw left"
  const AnalogYawRight: string := "yaw right"

  /** The signal names the constructor installs, imitating FlyByCamera. */
  const DefaultSignalNames: map<DynamicSignal, string> := map[
    Back := "FLYCAM_Backward",
    DragToRotate := "cameraDrag",
    Forward := "FLYCAM_Forward",
    Left := "FLYCAM_StrafeLeft",
    Right := "FLYCAM_StrafeRight",
    WorldDown := "FLYCAM_Lower",
    WorldUp := "FLYCAM_Rise"]

  // ---------------------------------------------------------------------
  // The pole clamp in update

  /**
   * The look direction after update's pole check: when the unit look
   * direction's component along up exceeds maxAbsDot in magnitude, keep its
   * projection scaled to the clamped component and rescale its rejection to
   * make a unit vector; a look straight along +-up (zero rejection) is
   * replaced by a generated basis vector.
   */
  function PoleClamped(m: MathOracle, look: Vec3, up: Vec3, maxAbsDot: real): (r: Vec3)
    requires Lawful(m) && 0.0 <= maxAbsDot <= 1.0
  {
    var dot := Dot(look, up);
    if Abs(dot) > maxAbsDot then
      var proj := Scale(up, dot);
      var rej := Sub(look, proj);
      var rejL2 := LengthSquared(rej);
      if rejL2 > 0.0 then
        var newDot := Clamp(dot, -maxAbsDot, maxAbsDot);
        Add(Scale(proj, newDot / dot), Scale(rej, RejCoefficient(m, newDot, rejL2)))
      else Basis(m, look)
    else look
  }

  /** sqrt((1 - newDot^2) / rejL2): the factor that gives the rejection its new length. */
  function RejCoefficient(m: MathOracle, newDot: real, rejL2: real): real
    requires rejL2 > 0.0
  {
    Sqrt(m, (1.0 - newDot * newDot) / rejL2)
  }

  /**
   * For a unit look direction the result is a unit vector inside the
   * allowed band, as update asserts; an allowed look is kept, and off the
   * poles an excluded one gets exactly the clamped component along up while
   * keeping its heading.
   */
  lemma PoleClampedIsAllowedUnit(m: MathOracle, look: Vec3, up: Vec3, maxAbsDot: real)
    requires Lawful(m) && 0.0 <= maxAbsDot <= 1.0 && IsUnit(look) && IsUnit(up)
    ensures IsUnit(PoleClamped(m, look, up, maxAbsDot))
    ensures Abs(Dot(PoleClamped(m, look, up, maxAbsDot), up)) <= maxAbsDot
    ensures Abs(Dot(look, up)) <= maxAbsDot ==> PoleClamped(m, look, up, maxAbsDot) == look
    ensures -1.0 < Dot(look, up) < 1.0 ==>
              Dot(PoleClamped(m, look, up, maxAbsDot), up) == Clamp(Dot(look, up), -maxAbsDot, maxAbsDot)
    ensures -1.0 < Dot(look, up) < 1.0 ==>
              exists k :: k >= 0.0 && Horizontal(PoleClamped(m, look, up, maxAbsDot), up) == Scale(Horizontal(look, up), k)
  {
    var dot := Dot(look, up);
    if Abs(dot) > maxAbsDot {
      if LengthSquared(Sub(look, Scale(up, dot))) > 0.0 {
        ClampedOffPole(m, look, up, maxAbsDot);
      } else {
        ClampedAtPole(m, look, up, maxAbsDot);
      }
    } else {
      NonnegativeMultiple(Horizontal(look, up), Horizontal(look, up), 1.0);
    }
  }

  /** The pole case of PoleClamped: the look lies along +-up and is replaced by a horizontal basis vector. */
  lemma ClampedAtPole(m: MathOracle, look: Vec3, up: Vec3, maxAbsDot: real)
    requires Lawful(m) && 0.0 <= maxAbsDot <= 1.0 && IsUnit(look) && IsUnit(up)
    requires Abs(Dot(look, up)) > maxAbsDot
    requires !(LengthSquared(Sub(look, Scale(up, Dot(look, up)))) > 0.0)
    ensures IsUnit(Basis(m, look)) && Dot(Basis(m, look), up) == 0.0
    ensures Dot(look, up) == 1.0 || Dot(look, up) == -1.0
  {
    var dot := Dot(look, up);
    AlongUp(look, up);
    UnitNonZero(look);
    OrthogonalToMultiple(Basis(m, look), up, dot);
  }

  /** A unit vector with no rejection from the unit vector up is +-up. */
  lemma AlongUp(look: Vec3, up: Vec3)
    requires IsUnit(look) && IsUnit(up)
    requires !(LengthSquared(Sub(look, Scale(up, Dot(look, up)))) > 0.0)
    ensures look == Scale(up, Dot(look, up))
    ensures Dot(look, up) == 1.0 || Dot(look, up) == -1.0
  {
    var dot := Dot(look, up);
    var rej := Sub(look, Scale(up, dot));
    Rejection(look, up, dot);
    LengthSquaredSign(rej);
    ZeroLength(rej);
    SubZero(look, Scale(up, dot));
    SquareOne(dot);
  }

  /** A number whose square is 1 is 1 or -1. */
  lemma SquareOne(d: real)
    requires d * d == 1.0
    ensures d == 1.0 || d == -1.0
  {
    assert (d - 1.0) * (d + 1.0) == 0.0;
  }

  /** The rescaling case of PoleClamped: unit length and the clamped component. */
  lemma ClampedOffPole(m: MathOracle, look: Vec3, up: Vec3, maxAbsDot: real)
    requires Lawful(m) && 0.0 <= maxAbsDot <= 1.0 && IsUnit(look) && IsUnit(up)
    requires Abs(Dot(look, up)) > maxAbsDot
    requires LengthSquared(Sub(look, Scale(up, Dot(look, up)))) > 0.0
    ensures var r := PoleClamped(m, look, up, maxAbsDot);
            IsUnit(r) && Dot(r, up) == Clamp(Dot(look, up), -maxAbsDot, maxAbsDot)
    ensures exists k :: k >= 0.0 && Horizontal(PoleClamped(m, look, up, maxAbsDot), up) == Scale(Horizontal(look, up), k)
  {
    var dot := Dot(look, up);
    var proj := Scale(up, dot);
    var rej := Sub(look, proj);
    var rejL2 := LengthSquared(rej);
    var newDot := Clamp(dot, -maxAbsDot, maxAbsDot);
    var c := RejCoefficient(m, newDot, rejL2);
    Rejection(look, up, dot);
    RescaledProjection(up, dot, newDot);
    SquareAtMostOne(newDot);
    RescaledRejection(m, rej, rejL2, newDot);
    DotScaleLeft(rej, c, up);
    ComposeOrthogonal(up, Scale(rej, c), newDot);
    SqrtNonnegative(m, (1.0 - newDot * newDot) / rejL2);
    var r := PoleClamped(m, look, up, maxAbsDot);
    assert r == Add(Scale(up, newDot), Scale(rej, c));
    assert rej == Horizontal(look, up);
    assert Horizontal(r, up) == Scale(Horizontal(look, up), c);
    NonnegativeMultiple(Horizontal(r, up), Horizontal(look, up), c);
  }

  /** Rescaling the projection dot.u by newDot/dot gives newDot.u. */
  lemma RescaledProjection(u: Vec3, dot: real, newDot: real)
    requires dot != 0.0
    ensures Scale(Scale(u, dot), newDot / dot) == Scale(u, newDot)
  {
    ScaleTwice(u, dot, newDot / dot);
    assert dot * (newDot / dot) == newDot;
  }

  /** Scaling twice is scaling by the product. */
  lemma ScaleTwice(v: Vec3, a: real, b: real)
    ensures Scale(Scale(v, a), b) == Scale(v, a * b)
  {
    assert (v.x * a) * b == v.x * (a * b);
    assert (v.y * a) * b == v.y * (a * b);
    assert (v.z * a) * b == v.z * (a * b);
  }

  /** A product of nonnegative numbers is nonnegative. */
  lemma NonnegativeProduct(a: real, b: real)
    requires a >= 0.0 && b >= 0.0
    ensures a * b >= 0.0
  {
  }

  lemma SqrtNonnegative(m: MathOracle, t: real)
    requires Lawful(m) && t >= 0.0
    ensures Sqrt(m, t) >= 0.0
  {
    if t > 0.0 {
      assert Sqrt(m, t) > 0.0;
    }
  }

  /** A clamped component has square at most 1. */
  lemma SquareAtMostOne(d: real)
    requires -1.0 <= d <= 1.0
    ensures 0.0 <= 1.0 - d * d
  {
    if d >= 0.0 {
      assert d * d <= 1.0 * d;
    } else {
      assert d * d == (-d) * (-d) <= 1.0 * (-d);
    }
  }

  /** The rejection scaled by RejCoefficient has squared length 1 - newDot^2. */
  lemma RescaledRejection(m: MathOracle, rej: Vec3, rejL2: real, newDot: real)
    requires Lawful(m) && rejL2 > 0.0 && LengthSquared(rej) == rejL2
    requires 0.0 <= 1.0 - newDot * newDot
    ensures LengthSquared(Scale(rej, RejCoefficient(m, newDot, rejL2))) == 1.0 - newDot * newDot
  {
    var q := (1.0 - newDot * newDot) / rejL2;
    assert q >= 0.0;
    var c := Sqrt(m, q);
    assert c * c == q;
    LengthSquaredScale(rej, c);
    assert q * rejL2 == 1.0 - newDot * newDot;
  }

  /**
   * a.u + q is a unit vector whose component along the unit vector u is a,
   * when q is orthogonal to u and has squared length 1 - a^2.
   */
  lemma ComposeOrthogonal(u: Vec3, q: Vec3, a: real)
    requires IsUnit(u) && Dot(q, u) == 0.0 && LengthSquared(q) == 1.0 - a * a
    ensures IsUnit(Add(Scale(u, a), q))
    ensures Dot(Add(Scale(u, a), q), u) == a
  {
    var p := Scale(u, a);
    LengthSquaredAdd(p, q);
    LengthSquaredScale(u, a);
    DotScaleLeft(u, a, q);
    DotScaleLeft(u, a, u);
  }

  // ---------------------------------------------------------------------
  // Turning the view in update

  /**
   * Point-to-look: move the look direction toward the mouse ray's
   * direction by at most maxTurn; within reach, take the ray's direction.
   */
  function PointedLook(m: MathOracle, look: Vec3, newDir: Vec3, maxTurn: real): Vec3
    requires Lawful(m) && maxTurn >= 0.0
  {
    var delta := Sub(newDir, look);
    var deltaLength := Length(m, delta);
    if deltaLength > maxTurn then Add(look, Scale(delta, maxTurn / deltaLength))
    else newDir
  }

  /**
   * Point-to-look turns the view by at most maxTurn a frame: exactly that
   * far when the ray's direction is out of reach, all the way otherwise.
   */
  lemma PointedLookTurnsAtMost(m: MathOracle, look: Vec3, newDir: Vec3, maxTurn: real)
    requires Lawful(m) && maxTurn >= 0.0
    ensures LengthSquared(Sub(PointedLook(m, look, newDir, maxTurn), look)) <= maxTurn * maxTurn
    ensures Length(m, Sub(newDir, look)) <= maxTurn ==> PointedLook(m, look, newDir, maxTurn) == newDir
    ensures Length(m, Sub(newDir, look)) > maxTurn ==>
              LengthSquared(Sub(PointedLook(m, look, newDir, maxTurn), look)) == maxTurn * maxTurn
  {
    var delta := Sub(newDir, look);
    var l := Length(m, delta);
    if l > maxTurn {
      var k := maxTurn / l;
      assert Sub(Add(look, Scale(delta, k)), look) == Scale(delta, k);
      ShortenedStep(delta, l, maxTurn);
    } else {
      SquareMonotone(l, maxTurn);
    }
  }

  /**
   * Point-to-look as the update code writes it: the difference is taken in
   * place on the ray's direction vector, so the within-reach branch, which
   * meant to copy the ray's direction, copies the difference instead.
   */
  function PointedLookAsWritten(m: MathOracle, look: Vec3, newDir: Vec3, maxTurn: real): Vec3
    requires Lawful(m) && maxTurn >= 0.0
  {
    var delta := Sub(newDir, look);
    var deltaLength := Length(m, delta);
    if deltaLength > maxTurn then Add(look, Scale(delta, maxTurn / deltaLength))
    else delta
  }

  /**
   * Within reach of a nonzero look the code as written parts from the
   * intended turn: it yields the difference newDir - look instead of newDir.
   * Out of reach both agree.
   */
  lemma PointedLookAsWrittenDiverges(m: MathOracle, look: Vec3, newDir: Vec3, maxTurn: real)
    requires Lawful(m) && maxTurn >= 0.0
    ensures Length(m, Sub(newDir, look)) > maxTurn ==>
              PointedLookAsWritten(m, look, newDir, maxTurn) == PointedLook(m, look, newDir, maxTurn)
    ensures Length(m, Sub(newDir, look)) <= maxTurn ==>
              PointedLookAsWritten(m, look, newDir, maxTurn) == Sub(newDir, look)
    ensures Length(m, Sub(newDir, look)) <= maxTurn && !IsZero(look) ==>
              PointedLookAsWritten(m, look, newDir, maxTurn) != PointedLook(m, look, newDir, maxTurn)
  {
    var delta := Sub(newDir, look);
    if Length(m, delta) <= maxTurn && !IsZero(look) {
      assert PointedLook(m, look, newDir, maxTurn) == newDir;
      assert delta.x != newDir.x || delta.y != newDir.y || delta.z != newDir.z;
    }
  }

  /**
   * A mouse ray straight along the look: the code as written turns the
   * view to a zero vector, which normalization keeps, so the unit-vector
   * assertion that follows fails; the intended turn keeps the look.
   */
  lemma PointedLookAsWrittenZeroesLook(m: MathOracle, look: Vec3, maxTurn: real)
    requires Lawful(m) && maxTurn >= 0.0
    ensures IsZero(PointedLookAsWritten(m, look, look, maxTurn))
    ensures !IsUnit(Normalize(m, PointedLookAsWritten(m, look, look, maxTurn)))
    ensures PointedLook(m, look, look, maxTurn) == look
  {
    var w := PointedLookAsWritten(m, look, look, maxTurn);
    assert w == Zero by {
      assert Sub(look, look) == Zero;
    }
    assert Normalize(m, w) == Zero by {
      NormalizeIsUnit(m, w);
    }
  }

  /** A step scaled by maxTurn over its length has length maxTurn. */
  lemma ShortenedStep(delta: Vec3, l: real, maxTurn: real)
    requires l > maxTurn >= 0.0 && l * l == LengthSquared(delta)
    ensures LengthSquared(Scale(delta, maxTurn / l)) == maxTurn * maxTurn
  {
    var k := maxTurn / l;
    LengthSquaredScale(delta, k);
    assert k * l == maxTurn;
    calc {
      k * k * LengthSquared(delta);
      k * k * (l * l);
      (k * l) * (k * l);
      maxTurn * maxTurn;
    }
  }

  lemma SquareMonotone(a: real, b: real)
    requires 0.0 <= a <= b
    ensures a * a <= b * b
  {
    assert a * a <= a * b <= b * b;
  }

  /**
   * The new look direction before the pole check: point-to-look toward the
   * mouse ray, or else the accumulated drag applied as a pitch and a yaw
   * (each scaled by the display height times the Y tangent over 1024),
   * then normalized.
   */
  function TurnedLook(m: MathOracle, look: Vec3, pointToLook: bool, mouseDirection: Vec3, maxTurn: real,
                      height: nat, yTangent: real, pitchSum: real, yawSum: real): Vec3
    requires Lawful(m) && maxTurn >= 0.0
  {
    Normalize(m, if pointToLook then PointedLook(m, look, mouseDirection, maxTurn)
                 else Rotate(m, DragAngle(height, yTangent, pitchSum), DragAngle(height, yTangent, yawSum), look))
  }

  // ---------------------------------------------------------------------
  // Summing the motion signals in updateVelocity

  /** The turned look is a unit vector, or zero when the turn left nothing to normalize. */
  lemma TurnedLookIsUnitOrZero(m: MathOracle, look: Vec3, pointToLook: bool, mouseDirection: Vec3, maxTurn: real,
                               height: nat, yTangent: real, pitchSum: real, yawSum: real)
    requires Lawful(m) && maxTurn >= 0.0
    ensures var r := TurnedLook(m, look, pointToLook, mouseDirection, maxTurn, height, yTangent, pitchSum, yawSum);
            IsUnit(r) || IsZero(r)
  {
    NormalizeIsUnit(m, if pointToLook then PointedLook(m, look, mouseDirection, maxTurn)
                       else Rotate(m, DragAngle(height, yTangent, pitchSum), DragAngle(height, yTangent, yawSum), look));
  }

  /**
   * The look direction update settles on: the turned look (toward the mouse
   * ray under point-to-look, else by the drag), out of the pole cones about up.
   */
  function SettledLook(m: MathOracle, look: Vec3, pointToLook: bool, mouseDirection: Vec3, maxTurn: real,
                       height: nat, yTangent: real, pitchSum: real, yawSum: real, up: Vec3, maxAbsDot: real): Vec3
    requires Lawful(m) && maxTurn >= 0.0 && 0.0 <= maxAbsDot <= 1.0
  {
    PoleClamped(m, TurnedLook(m, look, pointToLook, mouseDirection, maxTurn, height, yTangent, pitchSum, yawSum),
                up, maxAbsDot)
  }

  /**
   * The settled look is a unit vector with an allowed component along up,
   * or zero when the turn left nothing to normalize.
   */
  lemma SettledLookIsAllowed(m: MathOracle, look: Vec3, pointToLook: bool, mouseDirection: Vec3, maxTurn: real,
                             height: nat, yTangent: real, pitchSum: real, yawSum: real, up: Vec3, maxAbsDot: real)
    requires Lawful(m) && maxTurn >= 0.0 && IsUnit(up) && 0.0 <= maxAbsDot <= 1.0
    ensures var r := SettledLook(m, look, pointToLook, mouseDirection, maxTurn, height, yTangent, pitchSum, yawSum,
                                 up, maxAbsDot);
            (IsUnit(r) || IsZero(r)) && Abs(Dot(r, up)) <= maxAbsDot
  {
    var turned := TurnedLook(m, look, pointToLook, mouseDirection, maxTurn, height, yTangent, pitchSum, yawSum);
    TurnedLookIsUnitOrZero(m, look, pointToLook, mouseDirection, maxTurn, height, yTangent, pitchSum, yawSum);
    var r := SettledLook(m, look, pointToLook, mouseDirection, maxTurn, height, yTangent, pitchSum, yawSum,
                         up, maxAbsDot);
    assert r == PoleClamped(m, turned, up, maxAbsDot);
    if IsZero(turned) {
      assert Dot(turned, up) == 0.0;
      assert r == turned;
    } else {
      PoleClampedIsAllowedUnit(m, turned, up, maxAbsDot);
    }
  }

  /**
   * A mouse ray straight behind a unit look, with a turn limit of one, is
   * out of reach and the point-to-look step goes exactly halfway to it:
   * the look comes out zero, so update's unit-vector assertion fails even
   * for the intended step.
   */
  lemma OppositeRayVanishes(m: MathOracle, look: Vec3, height: nat, yTangent: real, pitchSum: real, yawSum: real,
                            up: Vec3, maxAbsDot: real)
    requires Lawful(m) && IsUnit(look) && 0.0 <= maxAbsDot <= 1.0
    ensures IsZero(SettledLook(m, look, true, Scale(look, -1.0), 1.0, height, yTangent, pitchSum, yawSum, up,
                               maxAbsDot))
  {
    var back := Scale(look, -1.0);
    OppositeStepVanishes(m, look);
    var turned := TurnedLook(m, look, true, back, 1.0, height, yTangent, pitchSum, yawSum);
    assert turned == Zero by {
      assert NormalizeFactor(m, Zero) == 1.0;
    }
    assert Dot(turned, up) == 0.0;
    assert PoleClamped(m, turned, up, maxAbsDot) == turned;
    assert SettledLook(m, look, true, back, 1.0, height, yTangent, pitchSum, yawSum, up, maxAbsDot) == turned;
  }

  /** The point-to-look step toward the ray straight behind a unit look, with a turn limit of one, is zero. */
  lemma OppositeStepVanishes(m: MathOracle, look: Vec3)
    requires Lawful(m) && IsUnit(look)
    ensures IsZero(PointedLook(m, look, Scale(look, -1.0), 1.0))
  {
    var delta := Sub(Scale(look, -1.0), look);
    assert delta == Scale(look, -2.0);
    LengthSquaredScale(look, -2.0);
    var l := Length(m, delta);
    SquareRootUnique(l, 2.0);
    assert Add(look, Scale(delta, 1.0 / l)) == Zero;
  }

  /**
   * A drag turn: the accumulated reading times the multiplier
   * height * yTangent / 1024, which makes the turn track the pointer.
   */
  function DragAngle(height: nat, yTangent: real, sum: real): real {
    (height as real) * yTangent / 1024.0 * sum
  }

  /** The point-to-look turn limit for one frame: the turn rate times the frame time. */
  function TurnLimit(rate: real, tpf: real): (limit: real)
    requires rate >= 0.0 && tpf >= 0.0
    ensures limit >= 0.0
    ensures rate == 0.0 || tpf == 0.0 <==> limit == 0.0
  {
    rate * tpf
  }

  /** The camera's axes and the preferred "up" direction, which motion signals push along. */
  datatype Axes = Axes(look: Vec3, left: Vec3, up: Vec3, preferredUp: Vec3)

  /** One active signal's effect on the velocity being summed; other signals have none. */
  function Push(v: Vec3, f: DynamicSignal, a: Axes): Vec3
  {
    match f
    case Back => Sub(v, a.look)
    case East => Vec3(v.x, v.y, v.z + 1.0)
    case Forward => Add(v, a.look)
    case Left => Add(v, a.left)
    case North => Vec3(v.x + 1.0, v.y, v.z)
    case PreferredDown => Sub(v, a.preferredUp)
    case PreferredUp => Add(v, a.preferredUp)
    case Right => Sub(v, a.left)
    case South => Vec3(v.x - 1.0, v.y, v.z)
    case ViewDown => Sub(v, a.up)
    case ViewUp => Add(v, a.up)
    case West => Vec3(v.x, v.y, v.z - 1.0)
    case WorldDown => Vec3(v.x, v.y - 1.0, v.z)
    case WorldUp => Vec3(v.x, v.y + 1.0, v.z)
    case _ => v
  }

  /** The velocity summed over the visited signals that are active, in visiting order. */
  function Thrust(visited: seq<DynamicSignal>, active: set<DynamicSignal>, a: Axes): Vec3
  {
    if visited == [] then Zero
    else
      var v := Thrust(visited[..|visited| - 1], active, a);
      var f := visited[|visited| - 1];
      if f in active then Push(v, f, a) else v
  }

  /** The zoom direction summed over the visited signals that are active. */
  function ZoomTally(visited: seq<DynamicSignal>, active: set<DynamicSignal>): int
  {
    if visited == [] then 0
    else
      var z := ZoomTally(visited[..|visited| - 1], active);
      var f := visited[|visited| - 1];
      if f in active && f == ZoomIn then z + 1
      else if f in active && f == ZoomOut then z - 1
      else z
  }

  /** A tally over signals that include neither zoom signal is 0. */
  lemma {:induction false} NoZoomTally(visited: seq<DynamicSignal>, active: set<DynamicSignal>)
    requires ZoomIn !in visited && ZoomOut !in visited
    ensures ZoomTally(visited, active) == 0
    decreases |visited|
  {
    if visited != [] {
      var t := visited[..|visited| - 1];
      assert forall f :: f in t ==> f in visited;
      NoZoomTally(t, active);
    }
  }

  /** Over all signals the zoom direction is [ZoomIn] - [ZoomOut]. */
  lemma ZoomTallyAll(active: set<DynamicSignal>)
    ensures ZoomTally(AllDynamicSignals, active) == Indicator(ZoomIn in active) - Indicator(ZoomOut in active)
  {
    var s := AllDynamicSignals;
    var motion := s[..18];
    assert motion == [Back, DragToRotate, East, Forward, Ghost, Left, North, PointToLook,
                      PreferredDown, PreferredUp, Ram, Right, South, ViewDown, ViewUp, West,
                      WorldDown, WorldUp];
    NoZoomTally(motion, active);
    assert s[..19][..18] == motion;
  }

  /**
   * updateVelocity's final scaling: a zero sum stays zero, any other sum is
   * normalized and scaled to moveSpeed.
   */
  function Velocity(m: MathOracle, thrust: Vec3, moveSpeed: real): Vec3
    requires Lawful(m)
  {
    if IsZero(thrust) then thrust else Scale(Normalize(m, thrust), moveSpeed)
  }

  /**
   * The velocity has magnitude 0 or moveSpeed: 0 exactly when the signals
   * cancel, and otherwise it points along their sum.
   */
  lemma VelocitySpeed(m: MathOracle, thrust: Vec3, moveSpeed: real)
    requires Lawful(m) && moveSpeed >= 0.0
    ensures IsZero(thrust) ==> Velocity(m, thrust, moveSpeed) == Zero
    ensures !IsZero(thrust) ==> LengthSquared(Velocity(m, thrust, moveSpeed)) == moveSpeed * moveSpeed
    ensures !IsZero(thrust) ==> exists k :: k >= 0.0 && Velocity(m, thrust, moveSpeed) == Scale(thrust, k)
  {
    if !IsZero(thrust) {
      NormalizeIsUnit(m, thrust);
      LengthSquaredScale(Normalize(m, thrust), moveSpeed);
      var k := NormalizeFactor(m, thrust);
      ScaleTwice(thrust, k, moveSpeed);
      NonnegativeProduct(k, moveSpeed);
      NonnegativeMultiple(Velocity(m, thrust, moveSpeed), thrust, k * moveSpeed);
    }
  }

  // ---------------------------------------------------------------------
  // The shell and the controller

  /** The parts of the shell's PhysicsRigidBody the controller reads and writes. */
  class RigidBody {
    var mass: real
    var contactResponse: bool
    var linearVelocity: Vec3
    var angularVelocity: Vec3
    var location: Vec3

    constructor (mass: real)
      ensures this.mass == mass && contactResponse
      ensures linearVelocity == Zero && angularVelocity == Zero && location == Zero
    {
      this.mass := mass;
      contactResponse := true;
      linearVelocity := Zero;
      angularVelocity := Zero;
      location := Zero;
    }
  }

  /**
   * new DynamicCamera(id, camera, physicsSpace, tracker, usualMass,
   * ramMass): the usual mass must be positive and the ramming mass between
   * it and Float.MAX_VALUE; otherwise nothing is built.
   */
  method Create(camera: Camera, tracker: SignalTracker, math: MathOracle, usualMass: real, ramMass: real)
    returns (r: Result<DynamicCamera>)
    requires Lawful(math)
    ensures r.Err? <==> !(usualMass > 0.0 && usualMass <= ramMass <= FloatMaxValue)
    ensures r.Err? ==> r.failure == IllegalArgument
    ensures r.Ok? ==> fresh(r.value) && fresh(r.value.rigidBody) && r.value.Valid()
    ensures r.Ok? ==> r.value.camera == camera && r.value.tracker == tracker && r.value.math == math
    ensures r.Ok? ==> r.value.usualMass == usualMass && r.value.ramMass == ramMass
    ensures r.Ok? ==> r.value.rigidBody.mass == usualMass && !r.value.enabled && !r.value.initialized
    ensures r.Ok? ==> r.value.signalNames == DefaultSignalNames
  {
    if !(usualMass > 0.0) || !(usualMass <= ramMass <= FloatMaxValue) {
      return Err(IllegalArgument);
    }
    var c := new DynamicCamera(camera, tracker, math, usualMass, ramMass);
    return Ok(c);
  }

  class DynamicCamera {
    const camera: Camera
    const tracker: SignalTracker
    const math: MathOracle
    const rigidBody: RigidBody
    const usualMass: real
    const ramMass: real
    var maxAbsDot: real                // largest allowed |dot(look, up)|
    var signalNames: map<DynamicSignal, string>
    var maxYTangent: real
    var minYTangent: real
    var moveSpeed: real                // psu per second
    var pitchAnalogSum: real
    var ptlTurnRate: real              // radians per second
    var yawAnalogSum: real
    var zoomAnalogSum: real
    var zoomMultiplier: real
    var zoomSignalDirection: int
    var cameraName: Option<string>     // null until set
    var preferredUpDirection: Vec3
    var initialized: bool              // BaseAppState.isInitialized
    var enabled: bool                  // BaseAppState.isEnabled

    ghost predicate Valid()
      reads this
    {
      && Lawful(math)
      && 0.0 < usualMass <= ramMass
      && 0.0 <= maxAbsDot <= 1.0
      && 0.0 < minYTangent <= maxYTangent
      && moveSpeed >= 0.0
      && ptlTurnRate > 0.0
      && zoomMultiplier > 0.0
      && IsUnit(preferredUpDirection)
    }

    /** Attached to the state manager and enabled: the camera may be written. */
    predicate Live()
      reads this
    {
      initialized && enabled
    }

    /** The checked part of the constructor: a disabled controller with its defaults. */
    constructor (camera: Camera, tracker: SignalTracker, math: MathOracle, usualMass: real, ramMass: real)
      requires Lawful(math) && 0.0 < usualMass <= ramMass
      ensures Valid() && fresh(rigidBody)
      ensures this.camera == camera && this.tracker == tracker && this.math == math
      ensures this.usualMass == usualMass && this.ramMass == ramMass
      ensures rigidBody.mass == usualMass
      ensures maxAbsDot == Cos(math, 0.3) && signalNames == DefaultSignalNames
      ensures maxYTangent == 2.0 && minYTangent == 0.01 && moveSpeed == 1.0 && ptlTurnRate == 0.5
      ensures pitchAnalogSum == 0.0 && yawAnalogSum == 0.0 && zoomAnalogSum == 0.0
      ensures zoomMultiplier == 0.3 && zoomSignalDirection == 0 && cameraName.None?
      ensures preferredUpDirection == Vec3(0.0, 1.0, 0.0) && !initialized && !enabled
    {
      this.camera := camera;
      this.tracker := tracker;
      this.math := math;
      this.usualMass := usualMass;
      this.ramMass := ramMass;
      rigidBody := new RigidBody(usualMass);
      assert Cos(math, math.pi / 2.0) < Cos(math, 0.3);
      maxAbsDot := Cos(math, 0.3);
      signalNames := DefaultSignalNames;
      maxYTangent := 2.0;
      minYTangent := 0.01;
      moveSpeed := 1.0;
      pitchAnalogSum := 0.0;
      ptlTurnRate := 0.5;
      yawAnalogSum := 0.0;
      zoomAnalogSum := 0.0;
      zoomMultiplier := 0.3;
      zoomSignalDirection := 0;
      cameraName := None;
      preferredUpDirection := Vec3(0.0, 1.0, 0.0);
      initialized := false;
      enabled := false;
    }

    /** signalName: the configured signal name, if any. */
    function SignalName(f: DynamicSignal): (r: Option<string>)
      reads this
      ensures r.Some? <==> f in signalNames
      ensures r.Some? ==> r.value == signalNames[f]
    {
      if f in signalNames then Some(signalNames[f]) else None
    }

    /**
     * isActive: the function's signal is named and the tracker reports it
     * active. Unlike CameraController there are no default states.
     */
    function IsActive(f: DynamicSignal): (r: bool)
      reads this, tracker
      ensures r ==> SignalName(f).Some?
      ensures SignalName(f).Some? ==> (r <==> tracker.Test(SignalName(f).value))
    {
      var name := SignalName(f);
      name.Some? && tracker.Test(name.value)
    }

    /** The set of functions whose signals are active. */
    ghost function ActiveSignals(): (active: set<DynamicSignal>)
      reads this, tracker
      ensures forall f :: f in active <==> IsActive(f)
    {
      AllDynamicSignalsComplete();
      set f | f in AllDynamicSignals && IsActive(f)
    }

    /** maxMagnification: the reciprocal of the smallest tangent. */
    function MaxMagnification(): (r: real)
      requires Valid()
      reads this
      ensures r > 0.0 && r * minYTangent == 1.0
    {
      1.0 / minYTangent
    }

    /** minMagnification: the reciprocal of the largest tangent, at most the maximum. */
    function MinMagnification(): (r: real)
      requires Valid()
      reads this
      ensures r > 0.0 && r * maxYTangent == 1.0
      ensures r <= MaxMagnification()
    {
      InverseAntitone(minYTangent, maxYTangent);
      1.0 / maxYTangent
    }

    /** magnify: reject a non-positive factor, else zoom by it when live. */
    method Magnify(factor: real) returns (outcome: Outcome)
      requires Valid()
      modifies camera`yTangent
      ensures outcome == if factor > 0.0 then Done else Thrown(IllegalArgument)
      ensures camera.yTangent ==
                if factor > 0.0 && Live()
                then Magnified(old(camera.yTangent), factor, minYTangent, maxYTangent)
                else old(camera.yTangent)
    {
      if factor <= 0.0 {
        return Thrown(IllegalArgument);
      }
      var frustumYTangent := camera.yTangent / factor;
      frustumYTangent := Clamp(frustumYTangent, minYTangent, maxYTangent);
      if initialized && enabled {
        camera.yTangent := frustumYTangent;
      }
      return Done;
    }

    /** setCameraName: refused while attached and enabled. */
    method SetCameraName(name: Option<string>) returns (outcome: Outcome)
      modifies this`cameraName
      ensures outcome == if old(Live()) then Thrown(IllegalState) else Done
      ensures cameraName == if outcome.Done? then name else old(cameraName)
    {
      if initialized && enabled {
        return Thrown(IllegalState);
      }
      cameraName := name;
      return Done;
    }

    /**
     * setMaxMinMagnification: min must be positive and max in [min,
     * Float.MAX_VALUE]; the tangent bounds become 1/max and 1/min, and a live
     * camera's tangent is re-clamped into them.
     */
    method SetMaxMinMagnification(min: real, max: real) returns (outcome: Outcome)
      requires Valid()
      modifies this`minYTangent, this`maxYTangent, camera`yTangent
      ensures outcome == if min > 0.0 && min <= max <= FloatMaxValue then Done else Thrown(IllegalArgument)
      ensures Valid()
      ensures outcome.Done? ==> MaxMagnification() == max && MinMagnification() == min
      ensures outcome.Done? ==> minYTangent == 1.0 / max && maxYTangent == 1.0 / min
      ensures outcome.Thrown? ==> minYTangent == old(minYTangent) && maxYTangent == old(maxYTangent)
      ensures camera.yTangent ==
                if outcome.Done? && Live()
                then Clamp(old(camera.yTangent), minYTangent, maxYTangent)
                else old(camera.yTangent)
    {
      if min <= 0.0 || !(min <= max <= FloatMaxValue) {
        return Thrown(IllegalArgument);
      }
      var frustumYTangent := camera.yTangent;
      minYTangent := 1.0 / max;
      maxYTangent := 1.0 / min;
      InverseAntitone(min, max);
      ReciprocalTwice(max);
      ReciprocalTwice(min);
      frustumYTangent := Clamp(frustumYTangent, minYTangent, maxYTangent);
      if initialized && enabled {
        camera.yTangent := frustumYTangent;
      }
      return Done;
    }

    /** setMoveSpeed: any nonnegative speed. */
    method SetMoveSpeed(speed: real) returns (outcome: Outcome)
      requires Valid()
      modifies this`moveSpeed
      ensures Valid()
      ensures outcome == if speed >= 0.0 then Done else Thrown(IllegalArgument)
      ensures moveSpeed == if outcome.Done? then speed else old(moveSpeed)
    {
      if speed < 0.0 {
        return Thrown(IllegalArgument);
      }
      moveSpeed := speed;
      return Done;
    }

    /**
     * setPoleExclusionAngle: an angle in [0, pi/2]; maxAbsDot becomes its
     * cosine, which lies in [0, 1].
     */
    method SetPoleExclusionAngle(minAngle: real) returns (outcome: Outcome)
      requires Valid()
      modifies this`maxAbsDot
      ensures Valid()
      ensures outcome == if 0.0 <= minAngle <= math.pi / 2.0 then Done else Thrown(IllegalArgument)
      ensures maxAbsDot == if outcome.Done? then Cos(math, minAngle) else old(maxAbsDot)
    {
      if !(0.0 <= minAngle <= math.pi / 2.0) {
        return Thrown(IllegalArgument);
      }
      if minAngle < math.pi / 2.0 {
        assert Cos(math, math.pi / 2.0) < Cos(math, minAngle);
      }
      maxAbsDot := Cos(math, minAngle);
      return Done;
    }

    /** setPreferredUpDirection: reject the zero vector, store the direction normalized. */
    method SetPreferredUpDirection(direction: Vec3) returns (outcome: Outcome)
      requires Valid()
      modifies this`preferredUpDirection
      ensures Valid()
      ensures outcome == if IsZero(direction) then Thrown(IllegalArgument) else Done
      ensures preferredUpDirection ==
                if outcome.Done? then Normalize(math, direction) else old(preferredUpDirection)
    {
      if IsZero(direction) {
        return Thrown(IllegalArgument);
      }
      preferredUpDirection := Normalize(math, direction);
      NormalizeIsUnit(math, direction);
      return Done;
    }

    /** setPtlTurnRate: any positive rate. */
    method SetPtlTurnRate(turnRate: real) returns (outcome: Outcome)
      requires Valid()
      modifies this`ptlTurnRate
      ensures Valid()
      ensures outcome == if turnRate > 0.0 then Done else Thrown(IllegalArgument)
      ensures ptlTurnRate == if outcome.Done? then turnRate else old(ptlTurnRate)
    {
      if turnRate <= 0.0 {
        return Thrown(IllegalArgument);
      }
      ptlTurnRate := turnRate;
      return Done;
    }

    /** setSignalName: name (or, with None, un-name) the signal for a function. */
    method SetSignalName(f: DynamicSignal, name: Option<string>)
      modifies this`signalNames
      ensures signalNames == if name.Some? then old(signalNames)[f := name.value]
                             else old(signalNames) - {f}
      ensures SignalName(f) == name
    {
      if name.Some? {
        signalNames := signalNames[f := name.value];
      } else {
        signalNames := signalNames - {f};
      }
    }

    /** setZoomMultiplier: any positive multiplier. */
    method SetZoomMultiplier(multiplier: real) returns (outcome: Outcome)
      requires Valid()
      modifies this`zoomMultiplier
      ensures Valid()
      ensures outcome == if multiplier > 0.0 then Done else Thrown(IllegalArgument)
      ensures zoomMultiplier == if outcome.Done? then multiplier else old(zoomMultiplier)
    {
      if multiplier <= 0.0 {
        return Thrown(IllegalArgument);
      }
      zoomMultiplier := multiplier;
      return Done;
    }

    /**
     * onAnalog: validate the event; pitch and yaw readings accumulate only
     * while DragToRotate is active (down and left add, up and right
     * subtract), zoom readings always; any other name is rejected.
     */
    method OnAnalog(eventName: string, reading: real, tpf: real) returns (outcome: Outcome)
      requires enabled
      modifies this`pitchAnalogSum, this`yawAnalogSum, this`zoomAnalogSum
      ensures outcome ==
                if eventName == [] || reading < 0.0 || tpf < 0.0 then Thrown(IllegalArgument)
                else if eventName !in {AnalogPitchDown, AnalogPitchUp, AnalogYawLeft, AnalogYawRight,
                                       AnalogZoomIn, AnalogZoomOut} then Thrown(IllegalArgument)
                else Done
      ensures var dragging := outcome.Done? && IsActive(DragToRotate);
              && pitchAnalogSum == old(pitchAnalogSum) + (if !dragging then 0.0
                   else if eventName == AnalogPitchDown then reading
                   else if eventName == AnalogPitchUp then -reading else 0.0)
              && yawAnalogSum == old(yawAnalogSum) + (if !dragging then 0.0
                   else if eventName == AnalogYawLeft then reading
                   else if eventName == AnalogYawRight then -reading else 0.0)
      ensures zoomAnalogSum == old(zoomAnalogSum) + (if outcome.Thrown? then 0.0
                else if eventName == AnalogZoomIn then reading
                else if eventName == AnalogZoomOut then -reading else 0.0)
    {
      if eventName == [] || reading < 0.0 || tpf < 0.0 {
        return Thrown(IllegalArgument);
      }
      if eventName == AnalogPitchDown {
        if IsActive(DragToRotate) {
          pitchAnalogSum := pitchAnalogSum + reading;
        }
      } else if eventName == AnalogPitchUp {
        if IsActive(DragToRotate) {
          pitchAnalogSum := pitchAnalogSum - reading;
        }
      } else if eventName == AnalogYawLeft {
        if IsActive(DragToRotate) {
          yawAnalogSum := yawAnalogSum + reading;
        }
      } else if eventName == AnalogYawRight {
        if IsActive(DragToRotate) {
          yawAnalogSum := yawAnalogSum - reading;
        }
      } else if eventName == AnalogZoomIn {
        zoomAnalogSum := zoomAnalogSum + reading;
      } else if eventName == AnalogZoomOut {
        zoomAnalogSum := zoomAnalogSum - reading;
      } else {
        return Thrown(IllegalArgument);
      }
      return Done;
    }

    /** The axes updateVelocity pushes along: the camera's, and the preferred "up". */
    function CurrentAxes(): (a: Axes)
      reads this, camera
      ensures a.look == camera.direction && a.left == camera.left && a.up == camera.up
      ensures a.preferredUp == preferredUpDirection
    {
      Axes(camera.direction, camera.left, camera.up, preferredUpDirection)
    }

    /**
     * The loop in updateVelocity: visit the signals in declaration order,
     * pushing the velocity for each active motion signal and counting the
     * active zoom signals.
     */
    method SumSignals() returns (thrust: Vec3, zoom: int)
      ensures thrust == Thrust(AllDynamicSignals, ActiveSignals(), CurrentAxes())
      ensures zoom == ZoomTally(AllDynamicSignals, ActiveSignals())
    {
      var axes := CurrentAxes();
      ghost var active := ActiveSignals();
      thrust := Zero;
      zoom := 0;
      var i := 0;
      while i < |AllDynamicSignals|
        invariant 0 <= i <= |AllDynamicSignals|
        invariant thrust == Thrust(AllDynamicSignals[..i], active, axes)
        invariant zoom == ZoomTally(AllDynamicSignals[..i], active)
      {
        var f := AllDynamicSignals[i];
        assert AllDynamicSignals[..i + 1][..i] == AllDynamicSignals[..i];
        if IsActive(f) {
          if f == ZoomIn {
            zoom := zoom + 1;
          } else if f == ZoomOut {
            zoom := zoom - 1;
          } else {
            thrust := Push(thrust, f, axes);
          }
        }
        i := i + 1;
      }
      assert AllDynamicSignals[..|AllDynamicSignals|] == AllDynamicSignals;
    }

    /**
     * updateVelocity: sum the pushes of the active signals and the zoom
     * direction, then give a nonzero sum the length moveSpeed.
     */
    method UpdateVelocity() returns (velocity: Vec3)
      requires Valid()
      modifies this`zoomSignalDirection
      ensures zoomSignalDirection == Indicator(IsActive(ZoomIn)) - Indicator(IsActive(ZoomOut))
      ensures velocity == Velocity(math, Thrust(AllDynamicSignals, old(ActiveSignals()), old(CurrentAxes())), moveSpeed)
    {
      var thrust, zoom := SumSignals();
      ZoomTallyAll(ActiveSignals());
      velocity := thrust;
      if !IsZero(velocity) {
        velocity := Scale(Normalize(math, velocity), moveSpeed);
      }
      zoomSignalDirection := zoom;
    }

    /**
     * prePhysicsTick: nothing while disabled; otherwise drive the shell at
     * the signalled velocity without spin, make it a ghost while Ghost is
     * active, and give it the ramming mass while Ram is active.
     */
    method PrePhysicsTick()
      requires Valid()
      modifies this`zoomSignalDirection, rigidBody`linearVelocity, rigidBody`angularVelocity,
               rigidBody`contactResponse, rigidBody`mass
      ensures !old(enabled) ==> unchanged(this) && unchanged(rigidBody)
      ensures old(enabled) ==>
                && zoomSignalDirection == Indicator(IsActive(ZoomIn)) - Indicator(IsActive(ZoomOut))
                && rigidBody.linearVelocity
                     == Velocity(math, Thrust(AllDynamicSignals, old(ActiveSignals()), old(CurrentAxes())), moveSpeed)
                && rigidBody.angularVelocity == Zero
                && rigidBody.contactResponse == !IsActive(Ghost)
                && rigidBody.mass == if IsActive(Ram) then ramMass else usualMass
    {
      if !enabled {
        return;
      }
      var velocity := UpdateVelocity();
      rigidBody.linearVelocity := velocity;
      rigidBody.angularVelocity := Zero;
      var isGhost := IsActive(Ghost);
      rigidBody.contactResponse := !isGhost;
      var newMass := if IsActive(Ram) then ramMass else usualMass;
      if newMass != rigidBody.mass {
        rigidBody.mass := newMass;
      }
    }

    /** The look direction update settles on, from the current state. */
    function NewLook(tpf: real, mouseDirection: Vec3): (look: Vec3)
      requires Valid() && tpf >= 0.0
      reads this, camera, tracker
    {
      SettledLook(math, camera.direction, IsActive(PointToLook), mouseDirection, TurnLimit(ptlTurnRate, tpf),
                  camera.height, camera.yTangent, pitchAnalogSum, yawAnalogSum, preferredUpDirection, maxAbsDot)
    }

    /**
     * Where update past its assertion leaves the view: facing the unit
     * vector `look`, inside the pole band, with "left" and "up" completing
     * the frame about the preferred up direction, the tangent `zoomed`, and
     * the analog zoom consumed.
     */
    ghost predicate Faced(look: Vec3, zoomed: real)
      reads this, camera
    {
      && Lawful(math)
      && IsUnit(look) && Abs(Dot(look, preferredUpDirection)) <= maxAbsDot
      && camera.direction == look
      && camera.left == Normalize(math, Cross(preferredUpDirection, look))
      && camera.up == Cross(look, camera.left)
      && camera.yTangent == zoomed
      && zoomAnalogSum == 0.0
    }

    /**
     * update: follow the shell; turn the view (point-to-look toward the
     * mouse ray, or else by the accumulated drag), forget the drag, keep
     * the look out of the pole cones, assert that it is a unit vector, then
     * face it and apply the discrete and analog zoom, forgetting the analog
     * zoom. A look that comes out zero fails the assertion: the camera has
     * already moved and the drag is forgotten, but the view and the zoom
     * stay as they were.
     */
    method Update(tpf: real, mouseDirection: Vec3) returns (outcome: Outcome)
      requires Valid() && tpf >= 0.0
      modifies this`pitchAnalogSum, this`yawAnalogSum, this`zoomAnalogSum,
               camera`location, camera`direction, camera`left, camera`up, camera`yTangent
      ensures pitchAnalogSum == 0.0 && yawAnalogSum == 0.0
      ensures camera.location == old(rigidBody.location)
      ensures outcome.Thrown? <==> IsZero(old(NewLook(tpf, mouseDirection)))
      ensures outcome.Thrown? ==>
                && outcome.failure == AssertionFailed
                && unchanged(camera`direction, camera`left, camera`up, camera`yTangent, this`zoomAnalogSum)
      ensures outcome.Done? ==>
                Faced(old(NewLook(tpf, mouseDirection)),
                      old(FocalZoomed(math, camera.yTangent, zoomSignalDirection, tpf, zoomAnalogSum, zoomMultiplier,
                                      minYTangent, maxYTangent, Live())))
    {
      if LookVanishes(tpf, mouseDirection) {
        camera.location := rigidBody.location;
        pitchAnalogSum := 0.0;
        yawAnalogSum := 0.0;
        return Thrown(AssertionFailed);
      }
      var _ := Turn(tpf, mouseDirection);
      ApplyFocalZoom(zoomSignalDirection, tpf);
      camera.location := rigidBody.location;
      pitchAnalogSum := 0.0;
      yawAnalogSum := 0.0;
      outcome := Done;
    }

    /** Whether the look update settles on is zero, which fails update's unit-vector assertion. */
    predicate LookVanishes(tpf: real, mouseDirection: Vec3)
      requires Valid() && tpf >= 0.0
      reads this, camera, tracker
    {
      IsZero(NewLook(tpf, mouseDirection))
    }

    /**
     * The turning part of update: turn the look direction, keep it out of
     * the pole cones and, unless that leaves it zero (where the unit-vector
     * assertion fails), face the camera that way.
     */
    method Turn(tpf: real, mouseDirection: Vec3) returns (faced: bool)
      requires Valid() && tpf >= 0.0
      modifies camera`direction, camera`left, camera`up
      ensures faced <==> !IsZero(old(NewLook(tpf, mouseDirection)))
      ensures !faced ==> camera.direction == old(camera.direction) && camera.left == old(camera.left)
                         && camera.up == old(camera.up)
      ensures faced ==>
                && IsUnit(camera.direction) && Abs(Dot(camera.direction, preferredUpDirection)) <= maxAbsDot
                && camera.direction == old(NewLook(tpf, mouseDirection))
                && camera.left == Normalize(math, Cross(preferredUpDirection, camera.direction))
                && camera.up == Cross(camera.direction, camera.left)
    {
      assert camera as object != this;
      var look := NewLook(tpf, mouseDirection);
      SettledLookIsAllowed(math, camera.direction, IsActive(PointToLook), mouseDirection, TurnLimit(ptlTurnRate, tpf),
                           camera.height, camera.yTangent, pitchAnalogSum, yawAnalogSum, preferredUpDirection,
                           maxAbsDot);
      if IsZero(look) {
        return false;
      }
      camera.LookAtDirection(math, look, preferredUpDirection);
      faced := true;
    }

    /**
     * The zoom half of update: the discrete zoom, then the analog zoom;
     * the analog accumulator is empty afterwards.
     */
    method ApplyFocalZoom(dir: int, tpf: real)
      requires Valid()
      modifies this`zoomAnalogSum, camera`yTangent
      ensures zoomAnalogSum == 0.0
      ensures camera.yTangent ==
                FocalZoomed(math, old(camera.yTangent), dir, tpf, old(zoomAnalogSum),
                            zoomMultiplier, minYTangent, maxYTangent, Live())
    {
      var discreteFactor := DiscreteZoomFactor(math, dir, tpf);
      var analogFactor := AnalogZoomFactor(math, zoomMultiplier, zoomAnalogSum);
      if dir != 0 {
        var _ := Magnify(discreteFactor);
      }
      if zoomAnalogSum != 0.0 {
        var _ := Magnify(analogFactor);
        zoomAnalogSum := 0.0;
      }
    }

    /**
     * enable, as far as the controller's state goes: name the camera and
     * move the shell to the camera's location.
     */
    method Enable()
      modifies camera`name, rigidBody`location
      ensures camera.name == cameraName
      ensures rigidBody.location == camera.location
    {
      camera.name := cameraName;
      rigidBody.location := camera.location;
    }

    /**
     * initialize as BaseAppState drives it: mark the controller attached
     * and, if it is already enabled, run onEnable.
     */
    method Attach()
      modifies this`initialized, camera`name, rigidBody`location
      ensures initialized
      ensures if !old(initialized) && enabled
              then camera.name == cameraName && rigidBody.location == camera.location
              else camera.name == old(camera.name) && rigidBody.location == old(rigidBody.location)
    {
      if !initialized {
        initialized := true;
        if enabled {
          Enable();
        }
      }
    }

    /**
     * BaseAppState.setEnabled: flip the flag; on an attached off-to-on
     * change run onEnable. Disabling only unhooks input and physics, which
     * the model does not hold.
     */
    method SetEnabled(b: bool)
      modifies this`enabled, camera`name, rigidBody`location
      ensures enabled == b
      ensures if !old(enabled) && b && initialized
              then camera.name == cameraName && rigidBody.location == camera.location
              else camera.name == old(camera.name) && rigidBody.location == old(rigidBody.location)
    {
      if enabled == b {
        return;
      }
      enabled := b;
      if initialized && b {
        Enable();
      }
    }
  }
}
