/**
 * The pass-graph values of the rendering library the frame graph is built
 * on: a virtual resource is a named, versioned image or buffer, and a pass
 * has a name, the resources it reads, the resources it produces and the
 * commands it records.
 */
module PassTypes {
  import opened Wrappers
  import opened Commands

  datatype ResourceKind = Image | Buffer

  /** `VirtualResource`: every write of a resource produces a new version. */
  datatype VirtualResource = VirtualResource(kind: ResourceKind, uid: string, version: nat)

  datatype Pass = Pass(name: string, inputs: seq<VirtualResource>, outputs: seq<VirtualResource>,
                       commands: seq<Command>)

  /** `VirtualResource::image(uid)`: the source version of an image. */
  function ImageResource(uid: string): (r: VirtualResource)
    ensures r.kind == Image && r.uid == uid && r.version == 0
  {
    VirtualResource(Image, uid, 0)
  }

  /** `Pass::output(resource)`: the first output of the pass that is a version of `resource`. */
  function PassOutput(pass: Pass, resource: VirtualResource): (r: Option<VirtualResource>)
    ensures r.Some? ==> r.value in pass.outputs && r.value.uid == resource.uid
    ensures r.None? ==> forall o :: o in pass.outputs ==> o.uid != resource.uid
    decreases |pass.outputs|
  {
    if pass.outputs == [] then None
    else if pass.outputs[0].uid == resource.uid then Some(pass.outputs[0])
    else PassOutput(pass.(outputs := pass.outputs[1..]), resource)
  }
}
