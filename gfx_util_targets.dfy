/**
 * `RenderTargets` of the older `gfx::util` tree: the same registry without
 * an upscaler, where everything about the render resolution is still
 * `todo!()` and so panics.
 */
module GfxUtilTargets {
  import opened Wrappers
  import opened TargetEntries

  /** The panic message of `todo!()`. */
  const TODO: string := "not yet implemented"

  /** `resize_target`: identical to the renderer crate's; a `Custom` group keeps its own size. */
  function ResizeTarget(e: Entry, size: TargetSize): (r: Result<Resized>)
    ensures r.Ok? <==> e.recreate(size).Ok?
    ensures r.Ok? ==> && r.value.entry.sizeGroup == e.sizeGroup
                      && r.value.entry.target == e.recreate(size).value
                      && r.value.retired == e.target
  {
    var e' := if e.sizeGroup.Custom? then e.(sizeGroup := Custom(e.sizeGroup.size)) else e;
    Reallocate(e', size)
  }

  /** `Target {name} not found`. */
  function NotFound(name: string): string {
    "Target " + name + " not found"
  }

  class RenderTargets {
    var targets: map<string, Entry>
    var deferredDelete: seq<PairedImageView>
    var outputResolution: TargetSize
    var renderResolution: TargetSize

    /** `new`: no targets, both resolutions zero. */
    constructor ()
      ensures targets == map[] && deferredDelete == []
      ensures outputResolution == ZERO_SIZE && renderResolution == ZERO_SIZE
    {
      targets := map[];
      deferredDelete := [];
      outputResolution := ZERO_SIZE;
      renderResolution := ZERO_SIZE;
    }

    /** `size_group_resolution`: the render-resolution arm is `todo!()`. */
    function SizeGroupResolution(group: SizeGroup): (r: Run<TargetSize>)
      reads this
      ensures r.Panics? <==> group.RenderResolution?
      ensures group.OutputResolution? ==> r == Returns(outputResolution)
      ensures group.Custom? ==> r == Returns(group.size)
    {
      match group
      case RenderResolution => Panics(TODO)
      case OutputResolution => Returns(outputResolution)
      case Custom(size) => Returns(size)
    }

    /** `target_size`: "not found" for an unknown name, a panic for a render-resolution target. */
    function TargetSizeOf(name: string): (r: Run<Result<TargetSize>>)
      reads this
      ensures r.Panics? <==> name in targets && targets[name].sizeGroup.RenderResolution?
      ensures r == Returns(Err(NotFound(name))) <==> name !in targets
      ensures name in targets && r.Returns? ==> r.value == Ok(SizeGroupResolution(targets[name].sizeGroup).value)
    {
      if name !in targets then Returns(Err(NotFound(name)))
      else match SizeGroupResolution(targets[name].sizeGroup)
        case Panics(m) => Panics(m)
        case Returns(size) => Returns(Ok(size))
    }

    /** `get_target_view`: a registered target's current image, or "not found". */
    function GetTargetView(name: string): (r: Result<PairedImageView>)
      reads this
      ensures r.Err? <==> name !in targets
      ensures r.Ok? ==> r.value == targets[name].target
      ensures r.Err? ==> r.message == NotFound(name)
    {
      if name in targets then Ok(targets[name].target) else Err(NotFound(name))
    }

    /**
     * `register_target`: allocate at the group's current size (a panic
     * for the render resolution); on success insert under `name`,
     * replacing any entry of that name.
     */
    method RegisterTarget(name: string, group: SizeGroup, recreate: TargetSize -> Result<PairedImageView>)
      returns (r: Run<Result<Unit>>)
      modifies this`targets
      ensures r.Panics? <==> group.RenderResolution?
      ensures r.Panics? ==> targets == old(targets)
      ensures r.Returns? ==>
                var created := recreate(SizeGroupResolution(group).value);
                && (r.value.Ok? <==> created.Ok?)
                && (r.value.Ok? ==> targets == old(targets)[name := Entry(group, created.value, recreate)])
                && (r.value.Err? ==> r.value.message == created.message && targets == old(targets))
    {
      var size := SizeGroupResolution(group);
      if size.Panics? {
        return Panics(size.reason);
      }
      var created := recreate(size.value);
      if created.Err? {
        return Returns(Err(created.message));
      }
      targets := targets[name := Entry(group, created.value, recreate)];
      r := Returns(Ok(Unit));
    }

    /** `set_render_resolution`: `todo!()`. */
    method SetRenderResolution(width: nat, height: nat) returns (r: Run<Result<Unit>>)
      ensures r == Panics(TODO)
    {
      r := Panics(TODO);
    }

    /**
     * `set_output_resolution`: an unchanged size returns at once;
     * otherwise the size is stored and every output-resolution target
     * resized, the first failing allocation aborting the rest. Nothing
     * else is touched.
     */
    method SetOutputResolution(width: nat, height: nat) returns (r: Result<Unit>)
      modifies this`outputResolution, this`targets, this`deferredDelete
      ensures old(outputResolution) == TargetSize(width, height) ==>
                r.Ok? && targets == old(targets) && deferredDelete == old(deferredDelete)
      ensures outputResolution == TargetSize(width, height)
      ensures ResizedOrKept(old(targets), targets, OutputResolution, outputResolution, ResizeTarget)
      ensures r.Ok? && old(outputResolution) != outputResolution ==>
                AllResized(old(targets), targets, OutputResolution, outputResolution, ResizeTarget)
      ensures r.Err? ==> exists k :: k in old(targets) && old(targets)[k].sizeGroup.OutputResolution?
                                     && ResizeTarget(old(targets)[k], outputResolution) == Err(r.message)
      ensures |deferredDelete| >= |old(deferredDelete)| && deferredDelete[..|old(deferredDelete)|] == old(deferredDelete)
    {
      if outputResolution.width == width && outputResolution.height == height {
        return Ok(Unit);
      }
      outputResolution := TargetSize(width, height);
      var resized, retired;
      ghost var order;
      r, resized, retired, order := ResizeGroup(targets, OutputResolution, outputResolution, ResizeTarget);
      targets := resized;
      deferredDelete := deferredDelete + retired;
    }
  }
}
