/**
 * The scene-texture protocol both resize actors follow: the world view
 * asks for the texture at its current size, the renderer polls for a
 * pending size, renders at it and hands back the new image.
 */
module SceneTexture {
  import opened Wrappers

  /** `USize`: a size in pixels, two `u32`. */
  datatype USize = USize(x: nat, y: nat)

  /** `Image`: an egui texture id and the size of the texture. */
  datatype Image = Image(id: nat, size: USize)

  /**
   * The pending size after a resize request for `size`: the request is
   * recorded unless the current image already has that size, in which
   * case whatever was pending stays pending.
   */
  function PendingAfterResize(current: Option<Image>, pending: Option<USize>, size: USize): (r: Option<USize>)
    ensures current.None? ==> r == Some(size)
    ensures current.Some? && current.value.size != size ==> r == Some(size)
    ensures current.Some? && current.value.size == size ==> r == pending
  {
    match current
    case None => Some(size)
    case Some(cur) => if cur.size != size then Some(size) else pending
  }

  /** A request is never lost: it is pending, or the image already has its size. */
  lemma RequestHonoured(current: Option<Image>, pending: Option<USize>, size: USize)
    ensures PendingAfterResize(current, pending, size) == Some(size)
            || (current.Some? && current.value.size == size)
  {
  }

  /** Asking twice for the same size is asking once. */
  lemma ResizeIdempotent(current: Option<Image>, pending: Option<USize>, size: USize)
    ensures PendingAfterResize(current, PendingAfterResize(current, pending, size), size)
            == PendingAfterResize(current, pending, size)
  {
  }

  /**
   * A request for the current image's size does not clear an earlier
   * request for another size: until the next image arrives, the other
   * size stays pending.
   */
  lemma StaleRequestSurvives(img: Image, other: USize)
    requires other != img.size
    ensures PendingAfterResize(Some(img), PendingAfterResize(Some(img), None, other), img.size) == Some(other)
  {
  }
}
