// Model of the two pieces of decision logic in the GarrettDemo application:
// cycling the active orbit camera through the obstruction responses, and
// switching between the registered camera controllers so that at most one
// of them is enabled at any time.

module GarrettDemo {
  import opened Common
  import opened OrbitCamera

  /** The order in which the demo's hotkey steps through the responses. */
  function NextResponse(current: ObstructionResponse): (next: ObstructionResponse)
  {
    match current
    case Clip => WarpBias
    case WarpBias => WarpNoBias
    case WarpNoBias => XRay
    case XRay => Clip
  }

  /** A response's position in the cycle, counted from Clip. */
  function CyclePosition(r: ObstructionResponse): (k: nat)
    ensures k < 4
  {
    match r
    case Clip => 0
    case WarpBias => 1
    case WarpNoBias => 2
    case XRay => 3
  }

  /** n steps of the hotkey. */
  function Steps(r: ObstructionResponse, n: nat): (s: ObstructionResponse)
    decreases n
  {
    if n == 0 then r else Steps(NextResponse(r), n - 1)
  }

  /** Each press moves one place round a cycle of four. */
  lemma NextAdvancesCycle(r: ObstructionResponse)
    ensures CyclePosition(NextResponse(r)) == (CyclePosition(r) + 1) % 4
    ensures NextResponse(r) != r
  {
  }

  /** The cycle position identifies the response. */
  lemma CyclePositionInjective(a: ObstructionResponse, b: ObstructionResponse)
    ensures CyclePosition(a) == CyclePosition(b) <==> a == b
  {
  }

  /** n presses move n places round the cycle. */
  lemma {:induction false} StepsAdvance(r: ObstructionResponse, n: nat)
    ensures CyclePosition(Steps(r, n)) == (CyclePosition(r) + n) % 4
    decreases n
  {
    if n > 0 {
      NextAdvancesCycle(r);
      StepsAdvance(NextResponse(r), n - 1);
    }
  }

  /** Four presses restore the original response, and fewer never do. */
  lemma FourStepsRestore(r: ObstructionResponse, n: nat)
    ensures Steps(r, n) == r <==> n % 4 == 0
  {
    StepsAdvance(r, n);
    CyclePositionInjective(Steps(r, n), r);
  }

  /** The controllers a name can select; each AppState has its own identity. */
  type ControllerId = nat

  /** The enabled set that goes with an active controller. */
  function OnlyActive(active: Option<ControllerId>): (ids: set<ControllerId>)
    ensures |ids| <= 1
    ensures forall id :: id in ids <==> active == Some(id)
  {
    if active.Some? then {active.value} else {}
  }

  class Demo {
    /** cameraControllers: controller name to controller. */
    var controllers: map<string, ControllerId>
    /** The controllers whose AppState is enabled. */
    var enabled: set<ControllerId>
    /** activeCameraController; None until the first switch. */
    var active: Option<ControllerId>
    /** The obstruction response of each registered controller that is an OrbitCamera. */
    var orbitResponses: map<ControllerId, ObstructionResponse>

    /** At most one controller is enabled, and it is the active one. */
    ghost predicate Valid()
      reads this
    {
      enabled == OnlyActive(active)
      && (active.Some? ==> active.value in controllers.Values)
    }

    /**
     * The demo after it has registered its controllers: every controller
     * is constructed disabled and none is active yet.
     */
    constructor (controllers: map<string, ControllerId>, orbitResponses: map<ControllerId, ObstructionResponse>)
      ensures Valid()
      ensures this.controllers == controllers && this.orbitResponses == orbitResponses
      ensures enabled == {} && active == None
    {
      this.controllers := controllers;
      this.orbitResponses := orbitResponses;
      enabled := {};
      active := None;
    }

    /**
     * nextObstructionResponse: when the active controller is an orbit
     * camera, advance its response one place round the cycle; otherwise
     * do nothing.
     */
    method NextObstructionResponse()
      modifies this`orbitResponses
      ensures if old(active).Some? && old(active).value in old(orbitResponses)
              then orbitResponses == old(orbitResponses)[active.value := NextResponse(old(orbitResponses)[active.value])]
              else orbitResponses == old(orbitResponses)
    {
      if active.Some? && active.value in orbitResponses {
        orbitResponses := orbitResponses[active.value := NextResponse(orbitResponses[active.value])];
      }
    }

    /**
     * setCameraController: an unknown name or the active controller's own
     * name changes nothing; otherwise the previous controller is disabled,
     * then the named one is enabled and becomes active.
     */
    method SetCameraController(name: string)
      requires Valid()
      modifies this`enabled, this`active
      ensures Valid()
      ensures if name !in controllers || old(active) == Some(controllers[name])
              then enabled == old(enabled) && active == old(active)
              else active == Some(controllers[name]) && enabled == {controllers[name]}
    {
      if name !in controllers {
        return;
      }
      var cc := controllers[name];
      if active == Some(cc) {
        return;
      }
      if active.Some? {
        // The source asserts that the outgoing controller is enabled.
        assert active.value in enabled;
        enabled := enabled - {active.value};
      }
      enabled := enabled + {cc};
      active := Some(cc);
    }

    /**
     * resetCamera, as far as controllers go: switch to the "WatchCam"
     * controller.
     */
    method ResetCamera()
      requires Valid()
      modifies this`enabled, this`active
      ensures Valid()
      ensures "WatchCam" in controllers ==> active == Some(controllers["WatchCam"]) && enabled == {active.value}
      ensures "WatchCam" !in controllers ==> enabled == old(enabled) && active == old(active)
    {
      SetCameraController("WatchCam");
    }
  }
}
