/**
 * `FrameGraph` of the pass crate: the passes of one frame keyed by name,
 * and named aliases for virtual resources.
 */
module PassGraph {
  import opened Wrappers
  import opened PassTypes

  class FrameGraph {
    var passes: map<string, Pass>
    var aliases: map<string, VirtualResource>

    /** `FrameGraph::new()`: no passes and no aliases. */
    constructor ()
      ensures passes == map[] && aliases == map[]
    {
      passes := map[];
      aliases := map[];
    }

    /** `swapchain_resource()`: the source version of the image "swapchain". */
    function SwapchainResource(): (r: VirtualResource)
      ensures r == ImageResource("swapchain")
    {
      ImageResource("swapchain")
    }

    /** `add_pass`: keyed by the pass name, replacing a pass of the same name. */
    method AddPass(pass: Pass)
      modifies this`passes
      ensures passes == old(passes)[pass.name := pass]
    {
      passes := passes[pass.name := pass];
    }

    /** `alias`: name a resource, replacing an earlier alias of that name. */
    method Alias(name: string, resource: VirtualResource)
      modifies this`aliases
      ensures aliases == old(aliases)[name := resource]
      ensures AliasedResource(name) == Ok(resource)
    {
      aliases := aliases[name := resource];
    }

    /** `aliased_resource`: the aliased resource, or "No such alias". */
    function AliasedResource(name: string): (r: Result<VirtualResource>)
      reads this
      ensures r.Ok? <==> name in aliases
      ensures r.Ok? ==> r.value == aliases[name]
      ensures r.Err? ==> r.message == "No such alias " + name
    {
      if name in aliases then Ok(aliases[name]) else Err("No such alias " + name)
    }

    /**
     * `latest_version`: over all passes, in the map's unspecified order,
     * the output of `resource` of largest version (the last one met among
     * equal versions), or "No such resource" when no pass produces it.
     */
    method LatestVersion(resource: VirtualResource) returns (r: Result<VirtualResource>)
      ensures r.Err? <==> forall name :: name in passes ==> PassOutput(passes[name], resource).None?
      ensures r.Ok? ==> exists name :: name in passes && PassOutput(passes[name], resource) == Some(r.value)
      ensures r.Ok? ==> forall name :: name in passes && PassOutput(passes[name], resource).Some? ==>
                          PassOutput(passes[name], resource).value.version <= r.value.version
    {
      var remaining := passes.Keys;
      var best: Option<VirtualResource> := None;
      while remaining != {}
        invariant remaining <= passes.Keys
        invariant best.None? <==>
                    forall name :: name in passes && name !in remaining ==> PassOutput(passes[name], resource).None?
        invariant best.Some? ==>
                    exists name :: name in passes && name !in remaining && PassOutput(passes[name], resource) == best
        invariant best.Some? ==>
                    forall name :: name in passes && name !in remaining && PassOutput(passes[name], resource).Some? ==>
                      PassOutput(passes[name], resource).value.version <= best.value.version
        decreases remaining
      {
        var name :| name in remaining;
        var output := PassOutput(passes[name], resource);
        if output.Some? && (best.None? || output.value.version >= best.value.version) {
          best := output;
        }
        remaining := remaining - {name};
      }
      r := if best.Some? then Ok(best.value) else Err("No such resource " + resource.uid);
    }

    /** `output`: the output of `resource` by the named pass; unknown passes and resources fail. */
    function Output(passName: string, resource: VirtualResource): (r: Result<VirtualResource>)
      reads this
      ensures passName !in passes ==> r == Err("No such pass " + passName)
      ensures passName in passes ==> (r.Ok? <==> exists o :: o in passes[passName].outputs && o.uid == resource.uid)
      ensures r.Ok? ==> r.value in passes[passName].outputs && r.value.uid == resource.uid
    {
      if passName !in passes then Err("No such pass " + passName)
      else
        match PassOutput(passes[passName], resource)
        case None => Err("No such resource " + resource.uid)
        case Some(o) => Ok(o)
    }
  }
}
