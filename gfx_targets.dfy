/**
 * `RenderTargets` of the oldest `gfx` tree: sizes are `(u32, u32)` pairs
 * (modelled as `TargetSize`), the render resolution is `todo!()`, and
 * `resize_target` stores the new size into a `Custom` group.
 */
module GfxTargets {
  import opened Wrappers
  import opened TargetEntries
  import RendererTargets

  const TODO: string := "not yet implemented"

  /**
   * `resize_target`: a `Custom` group is rewritten to the new size; the
   * image is reallocated at that size and the old one retired.
   */
  function ResizeTarget(e: Entry, size: TargetSize): (r: Result<Resized>)
    ensures r.Ok? <==> e.recreate(size).Ok?
    ensures r.Ok? ==> && r.value.entry.sizeGroup == (if e.sizeGroup.Custom? then Custom(size) else e.sizeGroup)
                      && r.value.entry.target == e.recreate(size).value
                      && r.value.retired == e.target
  {
    var e' := if e.sizeGroup.Custom? then e.(sizeGroup := Custom(size)) else e;
    Reallocate(e', size)
  }

  /** The two registries resize a `Custom` target differently: only this one moves its group. */
  lemma CustomResizeDiffersFromRenderer(e: Entry, size: TargetSize)
    requires e.sizeGroup.Custom? && e.sizeGroup.size != size && e.recreate(size).Ok?
    ensures ResizeTarget(e, size).value.entry.sizeGroup == Custom(size)
    ensures RendererTargets.ResizeTarget(e, size).value.entry.sizeGroup == e.sizeGroup
    ensures ResizeTarget(e, size).value.entry != RendererTargets.ResizeTarget(e, size).value.entry
  {
  }

  class RenderTargets {
    var targets: map<string, Entry>
    var deferredDelete: seq<PairedImageView>
    var outputResolution: TargetSize
    var renderResolution: TargetSize

    /** `new`: no targets, both resolutions `(0, 0)`. */
    constructor ()
      ensures targets == map[] && deferredDelete == []
      ensures outputResolution == ZERO_SIZE && renderResolution == ZERO_SIZE
    {
      targets := map[];
      deferredDelete := [];
      outputResolution := ZERO_SIZE;
      renderResolution := ZERO_SIZE;
    }

    /** `size_group_resolution`: the render-resolution arm is `todo!()`. */
    function SizeGroupResolution(group: SizeGroup): (r: Run<TargetSize>)
      reads this
      ensures r.Panics? <==> group.RenderResolution?
      ensures group.OutputResolution? ==> r == Returns(outputResolution)
      ensures group.Custom? ==> r == Returns(group.size)
    {
      match group
      case RenderResolution => Panics(TODO)
      case OutputResolution => Returns(outputResolution)
      case Custom(size) => Returns(size)
    }

    /** `target_size`: "Target {name} not found", or a panic for a render-resolution target. */
    function TargetSizeOf(name: string): (r: Run<Result<TargetSize>>)
      reads this
      ensures r.Panics? <==> name in targets && targets[name].sizeGroup.RenderResolution?
      ensures r == Returns(Err("Target " + name + " not found")) <==> name !in targets
      ensures name in targets && r.Returns? ==> r.value == Ok(SizeGroupResolution(targets[name].sizeGroup).value)
    {
      if name !in targets then Returns(Err("Target " + name + " not found"))
      else match SizeGroupResolution(targets[name].sizeGroup)
        case Panics(m) => Panics(m)
        case Returns(size) => Returns(Ok(size))
    }

    /** `get_target_view`: worded differently here, "Target not found: {name}". */
    function GetTargetView(name: string): (r: Result<PairedImageView>)
      reads this
      ensures r.Err? <==> name !in targets
      ensures r.Ok? ==> r.value == targets[name].target
      ensures r.Err? ==> r.message == "Target not found: " + name
    {
      if name in targets then Ok(targets[name].target) else Err("Target not found: " + name)
    }

    /** `register_target`: as in the `gfx::util` registry. */
    method RegisterTarget(name: string, group: SizeGroup, recreate: TargetSize -> Result<PairedImageView>)
      returns (r: Run<Result<Unit>>)
      modifies this`targets
      ensures r.Panics? <==> group.RenderResolution?
      ensures r.Panics? ==> targets == old(targets)
      ensures r.Returns? ==>
                var created := recreate(SizeGroupResolution(group).value);
                && (r.value.Ok? <==> created.Ok?)
                && (r.value.Ok? ==> targets == old(targets)[name := Entry(group, created.value, recreate)])
                && (r.value.Err? ==> r.value.message == created.message && targets == old(targets))
    {
      var size := SizeGroupResolution(group);
      if size.Panics? {
        return Panics(size.reason);
      }
      var created := recreate(size.value);
      if created.Err? {
        return Returns(Err(created.message));
      }
      targets := targets[name := Entry(group, created.value, recreate)];
      r := Returns(Ok(Unit));
    }

    /** `set_render_resolution`: `todo!()`. */
    method SetRenderResolution(width: nat, height: nat) returns (r: Run<Result<Unit>>)
      ensures r == Panics(TODO)
    {
      r := Panics(TODO);
    }

    /**
     * `set_output_resolution`: an unchanged size returns at once;
     * otherwise the size is stored and every output-resolution target
     * resized. `resize_target` is never reached with a `Custom` target,
     * so custom sizes stay as they were.
     */
    method SetOutputResolution(width: nat, height: nat) returns (r: Result<Unit>)
      modifies this`outputResolution, this`targets, this`deferredDelete
      ensures old(outputResolution) == TargetSize(width, height) ==>
                r.Ok? && targets == old(targets) && deferredDelete == old(deferredDelete)
      ensures outputResolution == TargetSize(width, height)
      ensures ResizedOrKept(old(targets), targets, OutputResolution, outputResolution, ResizeTarget)
      ensures forall k :: k in targets && old(targets)[k].sizeGroup.Custom? ==> targets[k] == old(targets)[k]
      ensures old(outputResolution) != outputResolution ==>
                GroupResized(old(targets), targets, OutputResolution, outputResolution, ResizeTarget, r)
      ensures |deferredDelete| >= |old(deferredDelete)| && deferredDelete[..|old(deferredDelete)|] == old(deferredDelete)
    {
      if outputResolution.width == width && outputResolution.height == height {
        return Ok(Unit);
      }
      outputResolution := TargetSize(width, height);
      var resized, retired;
      ghost var order;
      r, resized, retired, order := ResizeGroup(targets, OutputResolution, outputResolution, ResizeTarget);
      targets := resized;
      deferredDelete := deferredDelete + retired;
    }
  }
}
