/**
 * What both camera implementations share: rotations are Euler angles
 * (pitch, yaw, roll) in a `Vec3`, and every rotation a setter stores is
 * clamped component-wise with glam's `Vec3::clamp` so that the pitch
 * stays just short of straight up or down, the yaw is free within the
 * range of an `f32`, and the roll is zero. Angles are modelled as reals.
 */
module CameraMath {
  import opened Geometry

  /** `PI / 2.0 - 0.0001`, with `PI / 2` the `f32` value 1.5707963705062866. */
  const MAX_ANGLE: real := 1.5707963705062866 - 0.0001

  /** `f32::MAX`: the bound that leaves the yaw unclamped in practice. */
  const UNBOUNDED: real := 340282346638528859811704183484516925440.0

  /** `f32::clamp` on one component: `max(lo)` then `min(hi)`. */
  function Clamp(v: real, lo: real, hi: real): (r: real)
    requires lo <= hi
    ensures lo <= r <= hi
    ensures lo <= v <= hi ==> r == v
    ensures v < lo ==> r == lo
    ensures hi < v ==> r == hi
  {
    var raised := if v < lo then lo else v;
    if hi < raised then hi else raised
  }

  /** A rotation the cameras can hold once it has been through a setter. */
  predicate ValidRotation(rot: Vec3) {
    -MAX_ANGLE <= rot.x <= MAX_ANGLE && -UNBOUNDED <= rot.y <= UNBOUNDED && rot.z == 0.0
  }

  /** `clamp_rotation`: clamp against (-MAX_ANGLE, -UNBOUNDED, 0) .. (MAX_ANGLE, UNBOUNDED, 0). */
  function ClampRotation(rot: Vec3): (r: Vec3)
    ensures ValidRotation(r)
    ensures -MAX_ANGLE <= rot.x <= MAX_ANGLE ==> r.x == rot.x
    ensures -UNBOUNDED <= rot.y <= UNBOUNDED ==> r.y == rot.y
    ensures rot.x > MAX_ANGLE ==> r.x == MAX_ANGLE
    ensures rot.x < -MAX_ANGLE ==> r.x == -MAX_ANGLE
  {
    Vec3(Clamp(rot.x, -MAX_ANGLE, MAX_ANGLE), Clamp(rot.y, -UNBOUNDED, UNBOUNDED), Clamp(rot.z, 0.0, 0.0))
  }

  /** Clamping changes exactly the rotations that are not valid already. */
  lemma ClampFixesExactlyValid(rot: Vec3)
    ensures ClampRotation(rot) == rot <==> ValidRotation(rot)
  {
    if ValidRotation(rot) {
      assert ClampRotation(rot).z == 0.0;
    }
  }

  /** Clamping twice is clamping once. */
  lemma {:induction false} ClampIdempotent(rot: Vec3)
    ensures ClampRotation(ClampRotation(rot)) == ClampRotation(rot)
  {
    ClampFixesExactlyValid(ClampRotation(rot));
  }

  /** Component-wise `a * s`. */
  function Scale3(a: Vec3, s: real): Vec3 {
    Vec3(a.x * s, a.y * s, a.z * s)
  }

  /** The rotation a mouse drag of (dx, dy) asks for: (-dy, dx, 0) times 0.01. */
  function RotateDelta(dx: real, dy: real): (r: Vec3)
    ensures r.z == 0.0 && r.x == -dy / 100.0 && r.y == dx / 100.0
  {
    Scale3(Vec3(-dy, dx, 0.0), 0.01)
  }

  /**
   * The basis `front`, `right` and `up` the camera derives from its
   * rotation with trigonometry and cross products; it is a parameter of
   * the model.
   */
  datatype CameraVectors = CameraVectors(front: Vec3, right: Vec3, up: Vec3)
}
