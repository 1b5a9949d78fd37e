/**
 * The application's older `Camera` state: position, rotation and field
 * of view, without input handling. Setters clamp rotations as the camera
 * crate does. The basis vectors and the view matrix are not modelled.
 */
module StateCamera {
  import opened Geometry
  import opened CameraMath

  class Camera {
    var position: Vec3
    var rotation: Vec3
    var fov: real

    /** `Default`: at the origin, unrotated, a 90 degree field of view. */
    constructor Default()
      ensures position == Vec3(0.0, 0.0, 0.0) && rotation == Vec3(0.0, 0.0, 0.0) && fov == 90.0
      ensures ValidRotation(rotation)
    {
      position := Vec3(0.0, 0.0, 0.0);
      rotation := Vec3(0.0, 0.0, 0.0);
      fov := 90.0;
    }

    method SetPosition(pos: Vec3)
      modifies this`position
      ensures position == pos
    {
      position := pos;
    }

    /** `set_rotation`: the clamped rotation, so always a valid one. */
    method SetRotation(rot: Vec3)
      modifies this`rotation
      ensures rotation == ClampRotation(rot) && ValidRotation(rotation)
      ensures ValidRotation(rot) ==> rotation == rot
    {
      rotation := ClampRotation(rot);
      ClampFixesExactlyValid(rot);
    }

    /** `update_position`: move by `pos`. */
    method UpdatePosition(pos: Vec3)
      modifies this`position
      ensures position == Add3(old(position), pos)
    {
      position := Add3(position, pos);
    }

    /** `update_rotation`: add `rot`, then clamp the sum. */
    method UpdateRotation(rot: Vec3)
      modifies this`rotation
      ensures rotation == ClampRotation(Add3(old(rotation), rot)) && ValidRotation(rotation)
    {
      rotation := Add3(rotation, rot);
      rotation := ClampRotation(rotation);
    }

    /** `update_fov`: widen by `fov`, without bound. */
    method UpdateFov(fov: real)
      modifies this`fov
      ensures this.fov == old(this.fov) + fov
    {
      this.fov := this.fov + fov;
    }
  }
}
