/*
 * The camera functions that named signals can control
 * (com.github.stephengold.garrett.CameraSignal), in declaration order.
 */
module Signals {

  datatype CameraSignal =
    | Back          // translate backward
    | DragToOrbit   // activate drag-to-orbit mode
    | Forward       // translate forward
    | OrbitCcw      // orbit counter-clockwise about world +Y
    | OrbitCw       // orbit clockwise about world +Y
    | OrbitDown     // orbit in the camera's "down" direction
    | OrbitUp       // orbit in the camera's "up" direction
    | Xray          // X-ray vision: no line-of-sight constraint
    | ZoomIn        // magnify
    | ZoomOut       // de-magnify

  /** CameraSignal.values(). */
  const AllSignals: seq<CameraSignal> :=
    [Back, DragToOrbit, Forward, OrbitCcw, OrbitCw, OrbitDown, OrbitUp, Xray, ZoomIn, ZoomOut]

  /** values() lists every constant, each exactly once. */
  lemma AllSignalsComplete(f: CameraSignal)
    ensures f in AllSignals
    ensures forall i, j :: 0 <= i < j < |AllSignals| ==> AllSignals[i] != AllSignals[j]
  {
  }
}
