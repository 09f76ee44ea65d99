/** The camera of camera.js: two rotation angles that mouse drags accumulate,
    and three ways of placing the eye around the snake's head. Each view is
    the (eye, center, up) triple handed to the look-at matrix builder. */
module CameraModel {
  import opened Geometry

  /** Radians of rotation per pixel of drag. */
  const Sensitivity: real := 0.005
  /** Math.PI / 3 as the double the program computes: the pitch bound. */
  const PitchLimit: real := 1.0471975511965976
  /** Horizontal distance of the look-ahead point and of the orbiting eye. */
  const ViewDistance: real := 5.0
  /** Height of the first-person eye above the head. */
  const EyeHeight: real := 0.8
  /** Height of the third-person eye above the head. */
  const OrbitHeight: real := 2.0
  /** Height of the top-down eye above the ground. */
  const GodHeight: real := 20.0

  datatype LookAt = LookAt(eye: Vec3, center: Vec3, up: Vec3)

  /** `Math.max(lo, Math.min(hi, v))`. */
  function Clamp(lo: real, hi: real, v: real): (r: real)
    ensures lo <= hi ==> lo <= r <= hi
    ensures lo <= v <= hi ==> r == v
    ensures v < lo ==> r == lo
    ensures lo <= hi < v ==> r == hi
  {
    if hi < v then (if lo < hi then hi else lo)
    else if lo < v then v
    else lo
  }

  /** Scaling a unit (a, b) by k gives a vector of length |k|. */
  lemma ScaledSquares(k: real, a: real, b: real)
    ensures Sq(a) + Sq(b) == 1.0 ==> Sq(k * a) + Sq(k * b) == Sq(k)
  {
    assert Sq(k * a) == Sq(k) * Sq(a);
    assert Sq(k * b) == Sq(k) * Sq(b);
    assert Sq(k) * Sq(a) + Sq(k) * Sq(b) == Sq(k) * (Sq(a) + Sq(b));
  }

  class Camera {
    var rotationX: real
    var rotationY: real

    constructor ()
      ensures rotationX == 0.0 && rotationY == 0.0
    {
      rotationX := 0.0;
      rotationY := 0.0;
    }

    /** Accumulates a drag of (deltaX, deltaY) pixels: yaw without bound,
        pitch clamped to [-PI/3, PI/3]. */
    method UpdateRotation(deltaX: real, deltaY: real)
      modifies this
      ensures -PitchLimit <= rotationY <= PitchLimit
      ensures rotationX == old(rotationX) + deltaX * Sensitivity
      ensures rotationY == Clamp(-PitchLimit, PitchLimit, old(rotationY) + deltaY * Sensitivity)
    {
      rotationX := rotationX + deltaX * Sensitivity;
      var pitch := rotationY + deltaY * Sensitivity;
      rotationY := if PitchLimit < pitch then PitchLimit
                   else if -PitchLimit < pitch then pitch
                   else -PitchLimit;
    }

    /** From just above the head, looking 5 units ahead along the heading, at
        head height. Only the horizontal part of `direction` is used. */
    function FirstPersonView(position: Vec3, direction: Vec3): (v: LookAt)
      ensures v.eye.x == position.x && v.eye.z == position.z
      ensures v.eye.y - v.center.y == EyeHeight && v.center.y == position.y
      ensures v.center.x - v.eye.x == ViewDistance * direction.x
      ensures v.center.z - v.eye.z == ViewDistance * direction.z
      ensures IsHorizontalUnit(Vec3(direction.x, 0.0, direction.z)) ==>
        Sq(v.center.x - v.eye.x) + Sq(v.center.z - v.eye.z) == Sq(ViewDistance)
      ensures v.up == Vec3(0.0, 1.0, 0.0)
    {
      ScaledSquares(ViewDistance, direction.x, direction.z);
      LookAt(Vec3(position.x, position.y + EyeHeight, position.z),
             Vec3(position.x + direction.x * ViewDistance, position.y,
                  position.z + direction.z * ViewDistance),
             Vec3(0.0, 1.0, 0.0))
    }

    /** Orbiting the head: 2 units above it and 5 units away horizontally at
        yaw rotationX, looking at the head. `sin` and `cos` stand for the
        platform's Math.sin and Math.cos. */
    function ThirdPersonView(position: Vec3, sin: real -> real, cos: real -> real): (v: LookAt)
      reads this
      ensures v.center == position && v.up == Vec3(0.0, 1.0, 0.0)
      ensures v.eye.y == position.y + OrbitHeight
      ensures v.eye.x - position.x == ViewDistance * sin(rotationX)
      ensures v.eye.z - position.z == ViewDistance * cos(rotationX)
      ensures Sq(sin(rotationX)) + Sq(cos(rotationX)) == 1.0 ==>
        Sq(v.eye.x - v.center.x) + Sq(v.eye.z - v.center.z) == Sq(ViewDistance)
      // with the yaw at its initial 0 the eye sits behind the head on +Z
      ensures rotationX == 0.0 && sin(0.0) == 0.0 && cos(0.0) == 1.0 ==>
        v.eye == Vec3(position.x, position.y + OrbitHeight, position.z + ViewDistance)
    {
      ScaledSquares(ViewDistance, sin(rotationX), cos(rotationX));
      LookAt(Vec3(position.x + ViewDistance * sin(rotationX), position.y + OrbitHeight,
                  position.z + ViewDistance * cos(rotationX)),
             position,
             Vec3(0.0, 1.0, 0.0))
    }

    /** Straight down onto the head from height 20, with -Z at the top of the
        screen; the head's own height plays no part. */
    function GodView(position: Vec3): (v: LookAt)
      ensures v.eye.x == v.center.x == position.x && v.eye.z == v.center.z == position.z
      ensures v.center.y == 0.0 && v.eye.y - v.center.y == GodHeight
      ensures v.up == Vec3(0.0, 0.0, -1.0)
    {
      LookAt(Vec3(position.x, GodHeight, position.z),
             Vec3(position.x, 0.0, position.z),
             Vec3(0.0, 0.0, -1.0))
    }
  }
}
