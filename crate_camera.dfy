/**
 * `CameraState` of the camera crate: position, rotation, field of view
 * and whether input controls it. Setters clamp rotations; input events
 * drag, orbit and zoom the camera while controls are enabled.
 *
 * The basis vectors (`front`, `right`, `up`) come from trigonometry on the
 * rotation and are the parameter `basis`; the view matrix, the lock
 * around the state and the event-bus registration are not modelled.
 */
module CrateCamera {
  import opened Wrappers
  import opened Geometry
  import opened InputTypes
  import opened CameraMath

  /** The drag speed of `handle_move` and the zoom speed of `handle_scroll`. */
  const MOVE_SPEED: real := 5.0
  const SCROLL_SPEED: real := 50.0

  /** The offset `handle_move` adds for a drag of `delta`: along `up` by dy, against `right` by dx. */
  function MoveOffset(vectors: CameraVectors, delta: Delta): Vec3 {
    Scale3(Add3(Scale3(vectors.up, delta.y), Scale3(vectors.right, -delta.x)), MOVE_SPEED)
  }

  /** The offset `handle_scroll` adds: along `front` by the vertical scroll. */
  function ScrollOffset(vectors: CameraVectors, scroll: ScrollInfo): Vec3 {
    Scale3(Scale3(vectors.front, scroll.deltaY), SCROLL_SPEED)
  }

  class CameraState {
    var position: Vec3
    var rotation: Vec3
    var fov: real
    var enableControls: bool

    /** `Camera::new`: the state as given, rotation unclamped, with controls enabled. */
    constructor New(position: Vec3, rotation: Vec3, fov: real)
      ensures this.position == position && this.rotation == rotation && this.fov == fov
      ensures enableControls
    {
      this.position := position;
      this.rotation := rotation;
      this.fov := fov;
      enableControls := true;
    }

    /** `Default`: at the origin, unrotated, a 90 degree field of view, controls disabled. */
    constructor Default()
      ensures position == Vec3(0.0, 0.0, 0.0) && rotation == Vec3(0.0, 0.0, 0.0) && fov == 90.0
      ensures !enableControls
      ensures ValidRotation(rotation)
    {
      position := Vec3(0.0, 0.0, 0.0);
      rotation := Vec3(0.0, 0.0, 0.0);
      fov := 90.0;
      enableControls := false;
    }

    method SetPosition(pos: Vec3)
      modifies this`position
      ensures position == pos
    {
      position := pos;
    }

    /** `set_rotation`: the clamped rotation, so always a valid one. */
    method SetRotation(rot: Vec3)
      modifies this`rotation
      ensures rotation == ClampRotation(rot) && ValidRotation(rotation)
      ensures ValidRotation(rot) ==> rotation == rot
    {
      rotation := ClampRotation(rot);
      ClampFixesExactlyValid(rot);
    }

    /** `update_position`: move by `pos`. */
    method UpdatePosition(pos: Vec3)
      modifies this`position
      ensures position == Add3(old(position), pos)
    {
      position := Add3(position, pos);
    }

    /** `update_rotation`: add `rot`, then clamp the sum. */
    method UpdateRotation(rot: Vec3)
      modifies this`rotation
      ensures rotation == ClampRotation(Add3(old(rotation), rot)) && ValidRotation(rotation)
    {
      rotation := Add3(rotation, rot);
      rotation := ClampRotation(rotation);
    }

    /** `update_fov`: widen by `fov`, without bound. */
    method UpdateFov(fov: real)
      modifies this`fov
      ensures this.fov == old(this.fov) + fov
    {
      this.fov := this.fov + fov;
    }

    method EnableControls(enabled: bool)
      modifies this`enableControls
      ensures enableControls == enabled
    {
      enableControls := enabled;
    }

    /** `handle_rotate`: orbit by the drag, pitch from dy (inverted) and yaw from dx. */
    method HandleRotate(delta: Delta) returns (r: Result<Unit>)
      modifies this`rotation
      ensures r == Ok(Unit)
      ensures rotation == ClampRotation(Add3(old(rotation), RotateDelta(delta.x, delta.y)))
    {
      UpdateRotation(RotateDelta(delta.x, delta.y));
      r := Ok(Unit);
    }

    /**
     * `handle_event`: nothing while controls are disabled. A mouse move
     * counts only while the middle button is held: with Shift it drags
     * the camera, without it orbits. A scroll zooms along the view
     * direction. Other events are ignored. It never fails.
     */
    method HandleEvent(event: InputEvent, mouseButtons: map<MouseButtonId, ButtonState>,
                       keys: map<Key, ButtonState>, basis: Vec3 -> CameraVectors)
      returns (r: Result<Unit>)
      modifies this`position, this`rotation
      ensures r == Ok(Unit)
      ensures !enableControls ==> position == old(position) && rotation == old(rotation)
      ensures enableControls && event.MouseMove? && StateOf(mouseButtons, Middle) == Pressed ==>
                if StateOf(keys, Shift) == Pressed then
                  position == Add3(old(position), MoveOffset(basis(old(rotation)), event.delta)) && rotation == old(rotation)
                else
                  position == old(position) && rotation == ClampRotation(Add3(old(rotation), RotateDelta(event.delta.x, event.delta.y)))
      ensures enableControls && event.Scroll? ==>
                position == Add3(old(position), ScrollOffset(basis(old(rotation)), event.scroll)) && rotation == old(rotation)
      ensures (event.MouseMove? && StateOf(mouseButtons, Middle) != Pressed) || !(event.MouseMove? || event.Scroll?) ==>
                position == old(position) && rotation == old(rotation)
      ensures ValidRotation(old(rotation)) ==> ValidRotation(rotation)
    {
      r := Ok(Unit);
      if !enableControls {
        return;
      }
      match event {
        case MouseMove(delta) =>
          if StateOf(mouseButtons, Middle) == Pressed {
            if StateOf(keys, Shift) == Pressed {
              UpdatePosition(MoveOffset(basis(rotation), delta));
            } else {
              r := HandleRotate(delta);
            }
          }
        case Scroll(scroll) =>
          UpdatePosition(ScrollOffset(basis(rotation), scroll));
        case _ =>
      }
    }
  }
}
