/**
 * The scene-texture `TargetResizeActor` of the editor's world view: the image the scene is
 * rendered to and the size the view asked for since it was made.
 */
module WorldView {
  import opened Wrappers
  import opened SceneTexture

  class TargetResizeActor {
    var currentImage: Option<Image>
    var newSize: Option<USize>

    /** `Default`: no image, nothing pending. */
    constructor Default()
      ensures currentImage == None && newSize == None
    {
      currentImage := None;
      newSize := None;
    }

    /**
     * The `ResizeSceneTexture` handler: record the requested size when
     * there is no image or the image has another size, and answer with
     * the current image, which stays as it is.
     */
    method ResizeSceneTexture(size: USize) returns (r: Option<Image>)
      modifies this`newSize
      ensures r == currentImage
      ensures newSize == PendingAfterResize(currentImage, old(newSize), size)
      ensures newSize == Some(size) || (r.Some? && r.value.size == size && newSize == old(newSize))
    {
      if currentImage.Some? {
        if currentImage.value.size != size {
          newSize := Some(size);
        }
      } else {
        newSize := Some(size);
      }
      r := currentImage;
    }

    /** The `QuerySceneTextureSize` handler: the pending size, if any. */
    method QuerySceneTextureSize() returns (r: Option<USize>)
      ensures r == newSize
    {
      r := newSize;
    }

    /** The `QueryCurrentSceneTexture` handler: the current image, if any. */
    method QueryCurrentSceneTexture() returns (r: Option<Image>)
      ensures r == currentImage
    {
      r := currentImage;
    }

    /** The `SetNewTexture` handler: the new image is current and nothing is pending. */
    method SetNewTexture(image: Image)
      modifies this
      ensures currentImage == Some(image) && newSize == None
      ensures PendingAfterResize(currentImage, newSize, image.size) == None
    {
      currentImage := Some(image);
      newSize := None;
    }
  }
}
