/*
 * Shared vocabulary of the Garrett camera controllers: outcomes of the
 * validating setters, 3-D vectors over the reals, the clamp used by every
 * controller, the uninterpreted math helpers, and the jMonkeyEngine and
 * Bullet collaborators that the controllers read and write (camera, signal
 * tracker, target, collision world).
 */
module Common {

  datatype Option<T> = None | Some(value: T)

  /** The unchecked exceptions a controller throws instead of mutating. */
  datatype Failure =
    | IllegalArgument   // a Validate.* check failed
    | IllegalState      // the controller is attached and enabled, or has no target
    | Unchecked         // a plain RuntimeException
    | AssertionFailed   // a Java `assert` failed (assertions enabled)

  /** Completion of a `void` Java method: normal return or a thrown exception. */
  datatype Outcome = Done | Thrown(failure: Failure) {
    predicate IsDone() { this.Done? }
  }

  /** Completion of a Java method that returns a value. */
  datatype Result<T> = Ok(value: T) | Err(failure: Failure)

  // ---------------------------------------------------------------------
  // Scalars

  /**
   * FastMath.clamp / MyMath.clamp: the value if it lies in [lo, hi],
   * otherwise the nearer bound.
   */
  function Clamp(v: real, lo: real, hi: real): (r: real)
    ensures lo <= hi ==> lo <= r <= hi
    ensures lo <= v <= hi ==> r == v
    ensures r == v || r == lo || r == hi
    ensures lo <= hi ==> forall x :: lo <= x <= hi ==> Distance(r, v) <= Distance(x, v)
  {
    if v < lo then lo else if v > hi then hi else v
  }

  function Distance(a: real, b: real): (d: real)
    ensures d >= 0.0
    ensures d == 0.0 <==> a == b
  {
    if a < b then b - a else a - b
  }

  function Abs(x: real): (r: real)
    ensures r >= 0.0 && (r == x || r == -x)
  {
    if x < 0.0 then -x else x
  }

  /** MyMath.isBetween: b lies between a and c, inclusive, in either order. */
  predicate Between(a: real, b: real, c: real) {
    if a > c then a >= b && b >= c else a <= b && b <= c
  }

  lemma BetweenOrdered(lo: real, b: real, hi: real)
    requires lo <= hi
    ensures Between(lo, b, hi) <==> lo <= b <= hi
  {
  }

  function Max(a: real, b: real): (r: real)
    ensures r >= a && r >= b
    ensures r == a || r == b
  {
    if a >= b then a else b
  }

  function Min(a: real, b: real): (r: real)
    ensures r <= a && r <= b
    ensures r == a || r == b
  {
    if a <= b then a else b
  }

  /** 1 for an active signal, 0 otherwise. */
  function Indicator(b: bool): (n: int)
    ensures 0 <= n <= 1
    ensures n == 1 <==> b
  {
    if b then 1 else 0
  }

  // ---------------------------------------------------------------------
  // Vectors (com.jme3.math.Vector3f as a value)

  datatype Vec3 = Vec3(x: real, y: real, z: real)

  const Zero: Vec3 := Vec3(0.0, 0.0, 0.0)

  function Add(a: Vec3, b: Vec3): Vec3 {
    Vec3(a.x + b.x, a.y + b.y, a.z + b.z)
  }

  function Sub(a: Vec3, b: Vec3): Vec3 {
    Vec3(a.x - b.x, a.y - b.y, a.z - b.z)
  }

  function Scale(v: Vec3, k: real): Vec3 {
    Vec3(k * v.x, k * v.y, k * v.z)
  }

  function Dot(a: Vec3, b: Vec3): real {
    a.x * b.x + a.y * b.y + a.z * b.z
  }

  function Cross(a: Vec3, b: Vec3): Vec3 {
    Vec3(a.y * b.z - a.z * b.y, a.z * b.x - a.x * b.z, a.x * b.y - a.y * b.x)
  }

  function LengthSquared(v: Vec3): real {
    Dot(v, v)
  }

  /** MyVector3f.isZero: every component is zero. */
  predicate IsZero(v: Vec3) {
    v.x == 0.0 && v.y == 0.0 && v.z == 0.0
  }

  predicate IsUnit(v: Vec3) {
    LengthSquared(v) == 1.0
  }

  lemma SquareSign(a: real)
    ensures a * a >= 0.0
    ensures a != 0.0 ==> a * a > 0.0
  {
    if a > 0.0 {
      assert a * a > 0.0;
    } else if a < 0.0 {
      assert (-a) * (-a) > 0.0;
      assert a * a > 0.0;
    }
  }

  /** A squared length is never negative, and is positive for a nonzero vector. */
  lemma LengthSquaredSign(v: Vec3)
    ensures LengthSquared(v) >= 0.0
    ensures !IsZero(v) ==> LengthSquared(v) > 0.0
    ensures IsZero(v) ==> LengthSquared(v) == 0.0
  {
    SquareSign(v.x);
    SquareSign(v.y);
    SquareSign(v.z);
    calc {
      LengthSquared(v);
      v.x * v.x + v.y * v.y + v.z * v.z;
    >= 0.0;
    }
    if v.x != 0.0 {
      calc {
        LengthSquared(v);
        v.x * v.x + v.y * v.y + v.z * v.z;
      > 0.0;
      }
    } else if v.y != 0.0 {
      calc {
        LengthSquared(v);
        v.x * v.x + v.y * v.y + v.z * v.z;
      > 0.0;
      }
    } else if v.z != 0.0 {
      calc {
        LengthSquared(v);
        v.x * v.x + v.y * v.y + v.z * v.z;
      > 0.0;
      }
    } else {
      calc {
        LengthSquared(v);
        0.0 * 0.0 + 0.0 * 0.0 + 0.0 * 0.0;
        0.0;
      }
    }
  }

  lemma DotScaleLeft(a: Vec3, k: real, b: Vec3)
    ensures Dot(Scale(a, k), b) == k * Dot(a, b)
  {
  }

  lemma LengthSquaredScale(v: Vec3, k: real)
    ensures LengthSquared(Scale(v, k)) == k * k * LengthSquared(v)
  {
    calc {
      LengthSquared(Scale(v, k));
      (k * v.x) * (k * v.x) + (k * v.y) * (k * v.y) + (k * v.z) * (k * v.z);
      { ScaledSquare(k, v.x); ScaledSquare(k, v.y); ScaledSquare(k, v.z); }
      (k * k) * (v.x * v.x) + (k * k) * (v.y * v.y) + (k * k) * (v.z * v.z);
      k * k * (v.x * v.x + v.y * v.y + v.z * v.z);
    }
  }

  lemma ScaledSquare(k: real, a: real)
    ensures (k * a) * (k * a) == (k * k) * (a * a)
  {
  }

  /** |a + b|^2 expands into the two squares and the cross term. */
  lemma LengthSquaredAdd(a: Vec3, b: Vec3)
    ensures LengthSquared(Add(a, b)) == LengthSquared(a) + 2.0 * Dot(a, b) + LengthSquared(b)
  {
  }

  /** A unit vector is not the zero vector. */
  lemma UnitNonZero(v: Vec3)
    requires IsUnit(v)
    ensures !IsZero(v)
  {
    LengthSquaredSign(v);
  }

  /** A vector of squared length zero is the zero vector. */
  lemma ZeroLength(v: Vec3)
    requires LengthSquared(v) == 0.0
    ensures IsZero(v)
  {
    LengthSquaredSign(v);
  }

  /**
   * Removing from a unit vector n its component d along a unit vector u
   * leaves a rejection of squared length 1 - d^2, orthogonal to u.
   */
  lemma Rejection(n: Vec3, u: Vec3, d: real)
    requires IsUnit(n) && IsUnit(u) && d == Dot(n, u)
    ensures LengthSquared(Sub(n, Scale(u, d))) == 1.0 - d * d
    ensures Dot(Sub(n, Scale(u, d)), u) == 0.0
  {
    var w := Scale(u, -d);
    assert Sub(n, Scale(u, d)) == Add(n, w);
    LengthSquaredAdd(n, w);
    LengthSquaredScale(u, -d);
    calc {
      Dot(n, w);
      { DotScaleLeft(u, -d, n); }
      -d * Dot(u, n);
      -d * d;
    }
    calc {
      LengthSquared(Add(n, w));
      LengthSquared(n) + 2.0 * Dot(n, w) + LengthSquared(w);
      1.0 + 2.0 * (-d * d) + (-d) * (-d) * 1.0;
      1.0 - d * d;
    }
    calc {
      Dot(Add(n, w), u);
      Dot(n, u) + Dot(w, u);
      { DotScaleLeft(u, -d, u); }
      d + (-d) * 1.0;
      0.0;
    }
  }

  /**
   * a.u + c.w is a unit vector whose component along u is a, when u and w
   * are orthonormal and c^2 = 1 - a^2.
   */
  lemma Compose(u: Vec3, w: Vec3, a: real, c: real)
    requires IsUnit(u) && IsUnit(w) && Dot(u, w) == 0.0
    requires c * c == 1.0 - a * a
    ensures IsUnit(Add(Scale(u, a), Scale(w, c)))
    ensures Dot(Add(Scale(u, a), Scale(w, c)), u) == a
  {
    var p, q := Scale(u, a), Scale(w, c);
    LengthSquaredAdd(p, q);
    LengthSquaredScale(u, a);
    LengthSquaredScale(w, c);
    calc {
      Dot(p, q);
      { DotScaleLeft(u, a, q); }
      a * Dot(u, q);
      { DotScaleLeft(w, c, u); }
      a * (c * Dot(w, u));
      0.0;
    }
    calc {
      LengthSquared(Add(p, q));
      LengthSquared(p) + 2.0 * Dot(p, q) + LengthSquared(q);
      a * a * 1.0 + 0.0 + c * c * 1.0;
      1.0;
    }
    calc {
      Dot(Add(p, q), u);
      Dot(p, u) + Dot(q, u);
      { DotScaleLeft(u, a, u); DotScaleLeft(w, c, u); }
      a * 1.0 + c * 0.0;
      a;
    }
  }

  /**
   * A unit vector whose component along the unit vector u is at least 1 in
   * magnitude lies along u.
   */
  lemma Aligned(n: Vec3, u: Vec3, d: real)
    requires IsUnit(n) && IsUnit(u) && d == Dot(n, u)
    requires d >= 1.0 || d <= -1.0
    ensures n == Scale(u, d) && d != 0.0
  {
    var r := Sub(n, Scale(u, d));
    Rejection(n, u, d);
    LengthSquaredSign(r);
    SquareAtLeastOne(d);
    assert LengthSquared(r) == 0.0;
    ZeroLength(r);
    SubZero(n, Scale(u, d));
  }

  lemma SquareAtLeastOne(d: real)
    requires d >= 1.0 || d <= -1.0
    ensures d * d >= 1.0
  {
    if d >= 1.0 {
      calc {
        d * d;
      >= 1.0 * d;
      >= 1.0;
      }
    } else {
      calc {
        d * d;
        (-d) * (-d);
      >= 1.0 * (-d);
      >= 1.0;
      }
    }
  }

  lemma SubZero(a: Vec3, b: Vec3)
    requires IsZero(Sub(a, b))
    ensures a == b
  {
  }

  /** A vector orthogonal to a nonzero multiple of u is orthogonal to u. */
  lemma OrthogonalToMultiple(b: Vec3, u: Vec3, d: real)
    requires d != 0.0 && Dot(b, Scale(u, d)) == 0.0
    ensures Dot(b, u) == 0.0
  {
    calc {
      0.0;
      Dot(Scale(u, d), b);
      { DotScaleLeft(u, d, b); }
      d * Dot(u, b);
    }
    calc {
      Dot(b, u);
      (d * Dot(u, b)) / d;
      0.0 / d;
      0.0;
    }
  }

  // ---------------------------------------------------------------------
  // Math helpers (FastMath, MyMath, MyVector3f, Quaternion)

  /** The part of v orthogonal to the unit vector up. */
  function Horizontal(v: Vec3, up: Vec3): Vec3 {
    Sub(v, Scale(up, Dot(v, up)))
  }

  /** A witness for "is a nonnegative multiple of". */
  lemma NonnegativeMultiple(a: Vec3, b: Vec3, k: real)
    requires k >= 0.0 && a == Scale(b, k)
    ensures exists k' :: k' >= 0.0 && a == Scale(b, k')
  {
  }

  /**
   * The transcendental and rotation helpers the controllers call. They are
   * left uninterpreted; `Lawful` lists the only facts the proofs use.
   */
  datatype MathOracle = MathOracle(
    exp: real -> real,                 // FastMath.exp
    cos: real -> real,                 // Math.cos
    sqrt: real -> real,                // Math.sqrt
    atan2: (real, real) -> real,       // FastMath.atan2
    isFinite: real -> bool,            // Float.isFinite of the float the real stands for
    standardizeAngle: real -> real,    // MyMath.standardizeAngle
    rotate: (real, real, Vec3) -> Vec3,// Quaternion.fromAngles(pitch, yaw, 0) applied to a vector
    basis: Vec3 -> Vec3,               // a unit vector orthogonal to the input (MyVector3f.generateBasis)
    pi: real)                          // FastMath.PI

  // The oracle's operations, applied outside any heap so that every use of
  // one at the same arguments denotes the same value.
  function Exp(m: MathOracle, t: real): real { m.exp(t) }
  function Cos(m: MathOracle, t: real): real { m.cos(t) }
  function Sqrt(m: MathOracle, t: real): real { m.sqrt(t) }
  function Atan2(m: MathOracle, y: real, x: real): real { m.atan2(y, x) }
  function IsFinite(m: MathOracle, t: real): bool { m.isFinite(t) }
  function StandardizeAngle(m: MathOracle, t: real): real { m.standardizeAngle(t) }
  function Rotate(m: MathOracle, pitch: real, yaw: real, v: Vec3): Vec3 { m.rotate(pitch, yaw, v) }
  function Basis(m: MathOracle, v: Vec3): Vec3 { m.basis(v) }

  ghost predicate Lawful(m: MathOracle) {
    && 3.14159 < m.pi < 3.1416
    && ExpLaw(m)
    && Sqrt(m, 0.0) == 0.0
    && (forall t :: t > 0.0 ==> Sqrt(m, t) > 0.0)
    && (forall t :: t >= 0.0 ==> Sqrt(m, t) * Sqrt(m, t) == t)
    && (forall t :: -1.0 <= Cos(m, t) <= 1.0)
    && Cos(m, 0.0) == 1.0
    && Cos(m, m.pi / 2.0) == 0.0
    && (forall a, b :: 0.0 <= a < b <= m.pi ==> Cos(m, b) < Cos(m, a))
    // cos b > cos (pi - a) = -cos a when a + b < pi
    && (forall a, b :: 0.0 <= a && 0.0 <= b && a + b < m.pi ==> Cos(m, a) + Cos(m, b) > 0.0)
    && (forall v :: !IsZero(v) ==> IsUnit(Basis(m, v)) && Dot(Basis(m, v), v) == 0.0)
  }

  /** The laws of FastMath.exp that the model relies on. */
  ghost predicate ExpLaw(m: MathOracle) {
    && (forall t :: Exp(m, t) > 0.0)
    && (forall t :: t <= 0.0 ==> Exp(m, t) <= 1.0)
    && (forall t :: t >= 0.0 ==> Exp(m, t) >= 1.0)
  }

  /** MyMath.circle: the height sqrt(1 - x^2) of the unit circle at x. */
  function Circle(m: MathOracle, x: real): (r: real)
    requires Lawful(m)
    requires -1.0 <= x <= 1.0
    ensures r >= 0.0 && r * r == 1.0 - x * x
  {
    assert x * x <= 1.0 by {
      if x >= 0.0 {
        assert x * x <= 1.0 * x;
      } else {
        assert x * x <= (-1.0) * x;
      }
    }
    Sqrt(m, 1.0 - x * x)
  }

  /** Vector3f.length. */
  function Length(m: MathOracle, v: Vec3): (r: real)
    requires Lawful(m)
    ensures r >= 0.0 && r * r == LengthSquared(v)
    ensures IsZero(v) ==> r == 0.0
    ensures !IsZero(v) ==> r > 0.0
  {
    LengthSquaredSign(v);
    Sqrt(m, LengthSquared(v))
  }

  /**
   * Vector3f.normalizeLocal: a vector whose squared length is 0 or 1 is left
   * alone, any other one is divided by its length.
   */
  function Normalize(m: MathOracle, v: Vec3): Vec3
    requires Lawful(m)
  {
    Scale(v, NormalizeFactor(m, v))
  }

  /** The factor Normalize multiplies by: 1, or the reciprocal of the length. */
  function NormalizeFactor(m: MathOracle, v: Vec3): (k: real)
    requires Lawful(m)
    ensures k > 0.0
  {
    var l := LengthSquared(v);
    if l == 0.0 || l == 1.0 then 1.0
    else
      LengthSquaredSign(v);
      1.0 / Sqrt(m, l)
  }

  /**
   * Normalize yields a unit vector for any nonzero input, and leaves the zero
   * vector and unit vectors alone.
   */
  lemma NormalizeIsUnit(m: MathOracle, v: Vec3)
    requires Lawful(m)
    ensures !IsZero(v) ==> IsUnit(Normalize(m, v))
    ensures IsZero(v) || IsUnit(v) ==> Normalize(m, v) == v
  {
    var l := LengthSquared(v);
    var k := NormalizeFactor(m, v);
    LengthSquaredSign(v);
    LengthSquaredScale(v, k);
    if l == 0.0 || l == 1.0 {
      assert k == 1.0;
    } else {
      var s := Sqrt(m, l);
      assert s > 0.0 && s * s == l;
      assert k == 1.0 / s;
      InverseSquare(s, l);
    }
  }

  /** Two nonnegative numbers with equal squares are equal. */
  lemma SquareRootUnique(a: real, b: real)
    requires a >= 0.0 && b >= 0.0 && a * a == b * b
    ensures a == b
  {
    calc {
      (a - b) * (a + b);
      a * a - b * b;
      0.0;
    }
    if a + b != 0.0 {
      calc {
        a - b;
        ((a - b) * (a + b)) / (a + b);
        0.0 / (a + b);
        0.0;
      }
    }
  }

  lemma InverseSquare(s: real, l: real)
    requires s > 0.0 && s * s == l
    ensures (1.0 / s) * (1.0 / s) * l == 1.0
  {
    calc {
      (1.0 / s) * (1.0 / s) * l;
      (1.0 / s) * (1.0 / s) * (s * s);
      ((1.0 / s) * s) * ((1.0 / s) * s);
      1.0;
    }
  }

  // ---------------------------------------------------------------------
  // jMonkeyEngine collaborators

  /**
   * The parts of com.jme3.renderer.Camera the controllers read and write,
   * as plain fields.
   */
  class Camera {
    var yTangent: real     // tangent of half the vertical field of view
    var frustumNear: real
    var frustumFar: real
    var location: Vec3
    var direction: Vec3    // look direction
    var left: Vec3
    var up: Vec3
    var height: nat        // display height in pixels
    var name: Option<string>  // None: no name (null)

    constructor (yTangent: real, near: real, far: real, height: nat)
      ensures this.yTangent == yTangent && frustumNear == near && frustumFar == far
      ensures this.height == height && location == Zero && name == None
      ensures direction == Vec3(0.0, 0.0, -1.0) && left == Vec3(-1.0, 0.0, 0.0)
      ensures up == Vec3(0.0, 1.0, 0.0)
    {
      this.yTangent := yTangent;
      frustumNear := near;
      frustumFar := far;
      this.height := height;
      location := Zero;
      direction := Vec3(0.0, 0.0, -1.0);
      left := Vec3(-1.0, 0.0, 0.0);
      up := Vec3(0.0, 1.0, 0.0);
      name := None;
    }

    /**
     * Camera.lookAtDirection: face `look`, with "left" perpendicular to the
     * world "up" vector and "up" completing the right-handed frame.
     */
    method LookAtDirection(m: MathOracle, look: Vec3, worldUp: Vec3)
      requires Lawful(m)
      modifies this`direction, this`left, this`up
      ensures direction == look
      ensures left == Normalize(m, Cross(worldUp, look))
      ensures up == Cross(look, left)
    {
      direction := look;
      left := Normalize(m, Cross(worldUp, look));
      up := Cross(look, left);
    }
  }

  /**
   * jme3utilities.SignalTracker: the set of named signals currently active
   * (keys held down, buttons pressed). Shared by the controllers.
   */
  class SignalTracker {
    var active: set<string>

    constructor ()
      ensures active == {}
    {
      active := {};
    }

    function Test(name: string): bool
      reads this
    {
      name in active
    }
  }

  // ---------------------------------------------------------------------
  // Bullet collaborators

  /** A PhysicsCollisionObject, compared by identity. */
  datatype Pco = Pco(id: nat)

  /** One result of a ray or sweep test: the object hit and the hit fraction. */
  datatype Hit = Hit(pco: Pco, fraction: real)

  /**
   * The collision world's answers, as inputs: which objects are added to a
   * CollisionSpace, the hits of a ray test and of a sweep test between two
   * points, and the objects a frustum-shaped ghost touches.
   */
  datatype Physics = Physics(
    added: set<Pco>,
    rayTest: (Vec3, Vec3) -> seq<Hit>,
    sweepTest: (Vec3, Vec3) -> seq<Hit>,
    contactTest: (Vec3, real, real, real) -> seq<Pco>)

  /**
   * com.github.stephengold.garrett.Target: the thing an orbit camera looks
   * at. Its location and heading change from frame to frame.
   */
  class Target {
    var location: Vec3          // locateTarget
    var forward: Vec3           // forwardDirection
    var pco: Option<Pco>        // getTargetPco

    constructor (location: Vec3, forward: Vec3, pco: Option<Pco>)
      ensures this.location == location && this.forward == forward && this.pco == pco
    {
      this.location := location;
      this.forward := forward;
      this.pco := pco;
    }
  }
}
