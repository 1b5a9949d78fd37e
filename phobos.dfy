/** Constants of the `phobos` Vulkan wrapper that the modelled code depends on. */
module Phobos {
  /** `phobos::wsi::frame::FRAMES_IN_FLIGHT`: two frames are in flight at once. */
  const FRAMES_IN_FLIGHT: nat := 2
}
