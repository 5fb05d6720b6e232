// Model of the ChaseOption enum: the five ways a chase camera can relate
// its azimuth to the target's heading, each with a fixed azimuth offset
// and a display name.

module ChaseOption {

  /** jME's FastMath.PI is the single-precision value of pi, widened exactly. */
  const FloatPi: real := 3.1415927410125732
  /** FastMath.HALF_PI, computed as 0.5f * PI, is exactly half of FloatPi. */
  const FloatHalfPi: real := 1.5707963705062866

  datatype ChaseOption = FreeOrbit | StrictFollow | StrictLead | StrictLeft | StrictRight {

    /** Whether the camera's azimuth is locked to the target's heading. */
    function IsStrictAzimuth(): (strict: bool)
    {
      match this
      case FreeOrbit => false
      case StrictFollow => true
      case StrictLead => true
      case StrictLeft => true
      case StrictRight => true
    }

    /** The azimuth offset from the target's heading, in radians. */
    function DeltaTheta(): (theta: real)
    {
      match this
      case FreeOrbit => 0.0
      case StrictFollow => 0.0
      case StrictLead => FloatPi
      case StrictLeft => -FloatHalfPi
      case StrictRight => FloatHalfPi
    }

    /** The name of the camera that the option selects. */
    function CameraName(): (name: string)
    {
      match this
      case FreeOrbit => "orbit camera"
      case StrictFollow => "chase camera"
      case StrictLead => "lead camera"
      case StrictLeft => "left camera"
      case StrictRight => "right camera"
    }
  }

  /** ChaseOption.values(), in declaration order. */
  const AllOptions: seq<ChaseOption> := [FreeOrbit, StrictFollow, StrictLead, StrictLeft, StrictRight]

  /** FreeOrbit is the one option whose azimuth is not strict. */
  lemma OnlyFreeOrbitIsFree(option: ChaseOption)
    ensures !option.IsStrictAzimuth() <==> option == FreeOrbit
  {
  }

  /** Every azimuth offset lies in [-pi, pi]; following and free orbiting need none. */
  lemma DeltaThetaInRange(option: ChaseOption)
    ensures -FloatPi <= option.DeltaTheta() <= FloatPi
    ensures option.DeltaTheta() == 0.0 <==> option == FreeOrbit || option == StrictFollow
    ensures option == StrictLeft <==> option.DeltaTheta() < 0.0
    ensures FloatHalfPi + FloatHalfPi == FloatPi
  {
  }

  /** No two options share a camera name, so the name identifies the option. */
  lemma CameraNamesDistinct(a: ChaseOption, b: ChaseOption)
    ensures a.CameraName() == b.CameraName() <==> a == b
  {
    if a != b {
      assert a.CameraName()[0] != b.CameraName()[0] || a.CameraName()[2] != b.CameraName()[2];
    }
  }

  /** The options list names each option exactly once. */
  lemma AllOptionsComplete(option: ChaseOption)
    ensures option in AllOptions
    ensures forall i, j :: 0 <= i < j < |AllOptions| ==> AllOptions[i] != AllOptions[j]
  {
  }

  /** The offset and the strictness together identify the option. */
  lemma OffsetAndStrictnessIdentify(a: ChaseOption, b: ChaseOption)
    ensures a.DeltaTheta() == b.DeltaTheta() && a.IsStrictAzimuth() == b.IsStrictAzimuth() <==> a == b
  {
  }
}
