/**
 * `RenderTargets` of the renderer crate: named render targets, each
 * following the render resolution, the output resolution or a custom size,
 * with an FSR2 upscaler deciding the render resolution from the output
 * resolution and a quality mode.
 */
module RendererTargets {
  import opened Wrappers
  import opened TargetEntries

  /** `UpscaleQuality`. */
  datatype UpscaleQuality = Quality | Balanced | Performance | UltraPerformance

  /**
   * `resize_target`: the `Custom` branch stores the group's own size back,
   * so every group is left as it was; the image is reallocated at the
   * requested size and the old one retired.
   */
  function ResizeTarget(e: Entry, size: TargetSize): (r: Result<Resized>)
    ensures r.Ok? <==> e.recreate(size).Ok?
    ensures r.Ok? ==> && r.value.entry.sizeGroup == e.sizeGroup
                      && r.value.entry.target == e.recreate(size).value
                      && r.value.entry.recreate == e.recreate
                      && r.value.retired == e.target
  {
    var e' := if e.sizeGroup.Custom? then e.(sizeGroup := Custom(e.sizeGroup.size)) else e;
    Reallocate(e', size)
  }

  /** `Target {name} not found`. */
  function NotFound(name: string): string {
    "Target " + name + " not found"
  }

  /**
   * `set_render_resolution(width, height)` taking targets `t0`, queue `q0`
   * and render size `render0` to `t1`, `q1` and `render1` under the
   * output size `output`. The early exit compares the new width with the
   * render width but the new height with the *output* height. Past it, a
   * size larger than the output resolution in either direction is
   * refused; otherwise the size is stored and the render-resolution
   * targets resized, the first failing allocation aborting the rest. The
   * deletion queue only grows.
   */
  ghost predicate RenderStep(t0: map<string, Entry>, q0: seq<PairedImageView>, render0: TargetSize, output: TargetSize,
                             t1: map<string, Entry>, q1: seq<PairedImageView>, render1: TargetSize,
                             width: nat, height: nat, r: Result<Unit>)
  {
    var same := render0.width == width && output.height == height;
    var tooLarge := width > output.width || height > output.height;
    && (same ==> r.Ok? && t1 == t0 && render1 == render0 && q1 == q0)
    && (!same && tooLarge ==>
          r == Err("Cannot set render resolution above output resolution") && t1 == t0 && render1 == render0 && q1 == q0)
    && (!same && !tooLarge ==>
          && render1 == TargetSize(width, height)
          && GroupResized(t0, t1, RenderResolution, render1, ResizeTarget, r))
    && |q1| >= |q0|
    && q1[..|q0|] == q0
  }

  class RenderTargets {
    var targets: map<string, Entry>
    var deferredDelete: seq<PairedImageView>
    var outputResolution: TargetSize
    var renderResolution: TargetSize
    var upscaleQuality: UpscaleQuality

    /** `new`: no targets, both resolutions zero, quality mode `Quality`. */
    constructor ()
      ensures targets == map[] && deferredDelete == []
      ensures outputResolution == ZERO_SIZE && renderResolution == ZERO_SIZE
      ensures upscaleQuality == Quality
    {
      targets := map[];
      deferredDelete := [];
      outputResolution := ZERO_SIZE;
      renderResolution := ZERO_SIZE;
      upscaleQuality := Quality;
    }

    /** `size_group_resolution`: the size a target of `group` has. */
    function SizeGroupResolution(group: SizeGroup): (size: TargetSize)
      reads this
      ensures group.RenderResolution? ==> size == renderResolution
      ensures group.OutputResolution? ==> size == outputResolution
      ensures group.Custom? ==> size == group.size
    {
      match group
      case RenderResolution => renderResolution
      case OutputResolution => outputResolution
      case Custom(size) => size
    }

    /** `target_size`: the size of a registered target's group, or "not found". */
    function TargetSizeOf(name: string): (r: Result<TargetSize>)
      reads this
      ensures r.Err? <==> name !in targets
      ensures r.Ok? ==> r.value == SizeGroupResolution(targets[name].sizeGroup)
      ensures r.Err? ==> r.message == NotFound(name)
    {
      if name in targets then Ok(SizeGroupResolution(targets[name].sizeGroup)) else Err(NotFound(name))
    }

    /** `get_target_view`: a registered target's current image, or "not found". */
    function GetTargetView(name: string): (r: Result<PairedImageView>)
      reads this
      ensures r.Err? <==> name !in targets
      ensures r.Ok? ==> r.value == targets[name].target
      ensures r.Err? ==> r.message == NotFound(name)
    {
      if name in targets then Ok(targets[name].target) else Err(NotFound(name))
    }

    /**
     * `register_target`: allocate at the group's current size; on success
     * insert under `name`, replacing any entry of that name.
     */
    method RegisterTarget(name: string, group: SizeGroup, recreate: TargetSize -> Result<PairedImageView>)
      returns (r: Result<Unit>)
      modifies this`targets
      ensures var created := recreate(SizeGroupResolution(group));
              && (r.Ok? <==> created.Ok?)
              && (r.Ok? ==> targets == old(targets)[name := Entry(group, created.value, recreate)])
              && (r.Err? ==> r.message == created.message && targets == old(targets))
      ensures r.Ok? ==> TargetSizeOf(name) == Ok(SizeGroupResolution(group))
      ensures r.Ok? ==> GetTargetView(name) == Ok(recreate(SizeGroupResolution(group)).value)
    {
      var created := recreate(SizeGroupResolution(group));
      if created.Err? {
        return Err(created.message);
      }
      targets := targets[name := Entry(group, created.value, recreate)];
      r := Ok(Unit);
    }

    /** What `set_render_resolution(width, height)` promises: `RenderStep` from the old state to the new. */
    twostate predicate RenderResolutionApplied(width: nat, height: nat, new r: Result<Unit>)
      reads this
    {
      && outputResolution == old(outputResolution)
      && RenderStep(old(targets), old(deferredDelete), old(renderResolution), outputResolution,
                    targets, deferredDelete, renderResolution, width, height, r)
    }

    /** `set_render_resolution`. */
    method SetRenderResolution(width: nat, height: nat) returns (r: Result<Unit>)
      modifies this`renderResolution, this`targets, this`deferredDelete
      ensures RenderResolutionApplied(width, height, r)
    {
      if renderResolution.width == width && outputResolution.height == height {
        return Ok(Unit);
      }
      if width > outputResolution.width || height > outputResolution.height {
        return Err("Cannot set render resolution above output resolution");
      }
      renderResolution := TargetSize(width, height);
      var resized, retired;
      ghost var order;
      r, resized, retired, order := ResizeGroup(targets, RenderResolution, renderResolution, ResizeTarget);
      targets := resized;
      deferredDelete := deferredDelete + retired;
    }

    /**
     * `set_output_resolution`. An unchanged size returns at once. Otherwise
     * the size is stored and every output-resolution target is resized,
     * giving the targets `mid`, the queue `midQueue` and the result
     * `resized`; a failed resize is returned. Then the upscaler is told the
     * new display size (`display`, its answer) and asked for the render
     * size of the current quality mode (`renderSize`, its answer); either
     * error is returned, and otherwise that size goes through
     * `set_render_resolution`. Custom-size targets are never touched.
     */
    method SetOutputResolution(width: nat, height: nat, display: Result<Unit>, renderSize: Result<TargetSize>)
      returns (r: Result<Unit>, ghost mid: map<string, Entry>, ghost midQueue: seq<PairedImageView>,
               ghost resized: Result<Unit>)
      modifies this`outputResolution, this`renderResolution, this`targets, this`deferredDelete
      ensures old(outputResolution) == TargetSize(width, height) ==>
                r.Ok? && targets == old(targets) && deferredDelete == old(deferredDelete)
                && renderResolution == old(renderResolution)
      ensures outputResolution == TargetSize(width, height)
      ensures old(outputResolution) != outputResolution ==>
                && GroupResized(old(targets), mid, OutputResolution, outputResolution, ResizeTarget, resized)
                && |midQueue| >= |old(deferredDelete)| && midQueue[..|old(deferredDelete)|] == old(deferredDelete)
      // The resize, the display size or the render size failed: that error, nothing past it done.
      ensures old(outputResolution) != outputResolution && resized.Err? ==> r == resized
      ensures old(outputResolution) != outputResolution && resized.Ok? && display.Err? ==> r == Err(display.message)
      ensures old(outputResolution) != outputResolution && resized.Ok? && display.Ok? && renderSize.Err? ==>
                r == Err(renderSize.message)
      ensures old(outputResolution) != outputResolution && (resized.Err? || display.Err? || renderSize.Err?) ==>
                targets == mid && deferredDelete == midQueue && renderResolution == old(renderResolution)
      // All three succeeded: the render size is applied to the resized targets.
      ensures old(outputResolution) != outputResolution && resized.Ok? && display.Ok? && renderSize.Ok? ==>
                RenderStep(mid, midQueue, old(renderResolution), outputResolution, targets, deferredDelete,
                           renderResolution, renderSize.value.width, renderSize.value.height, r)
      ensures targets.Keys == old(targets).Keys
      ensures forall k :: k in targets && old(targets)[k].sizeGroup.Custom? ==> targets[k] == old(targets)[k]
      ensures |deferredDelete| >= |old(deferredDelete)| && deferredDelete[..|old(deferredDelete)|] == old(deferredDelete)
    {
      mid, midQueue, resized := targets, deferredDelete, Ok(Unit);
      if outputResolution.width == width && outputResolution.height == height {
        return Ok(Unit), mid, midQueue, resized;
      }
      outputResolution := TargetSize(width, height);
      var result, resizedTargets, retired;
      ghost var order;
      result, resizedTargets, retired, order := ResizeGroup(targets, OutputResolution, outputResolution, ResizeTarget);
      targets := resizedTargets;
      deferredDelete := deferredDelete + retired;
      mid, midQueue, resized := targets, deferredDelete, result;
      if result.Err? {
        return result, mid, midQueue, resized;
      }
      if display.Err? {
        return Err(display.message), mid, midQueue, resized;
      }
      if renderSize.Err? {
        return Err(renderSize.message), mid, midQueue, resized;
      }
      r := SetRenderResolution(renderSize.value.width, renderSize.value.height);
    }

    /**
     * `set_upscale_quality`: store the mode, then apply the render size the
     * upscaler gives for it (`renderSize`, its answer).
     */
    method SetUpscaleQuality(quality: UpscaleQuality, renderSize: Result<TargetSize>) returns (r: Result<Unit>)
      modifies this`upscaleQuality, this`renderResolution, this`targets, this`deferredDelete
      ensures upscaleQuality == quality
      ensures renderSize.Err? ==> r == Err(renderSize.message) && targets == old(targets)
                                  && renderResolution == old(renderResolution) && deferredDelete == old(deferredDelete)
      ensures renderSize.Ok? ==> RenderResolutionApplied(renderSize.value.width, renderSize.value.height, r)
    {
      upscaleQuality := quality;
      if renderSize.Err? {
        return Err(renderSize.message);
      }
      r := SetRenderResolution(renderSize.value.width, renderSize.value.height);
    }
  }

  /** Resizing never changes which group a target follows, `Custom` included. */
  lemma ResizeKeepsGroup(e: Entry, size: TargetSize)
    requires e.recreate(size).Ok?
    ensures ResizeTarget(e, size).Ok? && ResizeTarget(e, size).value.entry.sizeGroup == e.sizeGroup
  {
  }
}
