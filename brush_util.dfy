/**
 * Helpers of the brush crate: the on-terrain guard, the compute-dispatch
 * size of a square patch, the layout transitions around a compute write,
 * and the recording of the normal-recompute pass around a brush patch.
 */
module BrushUtil {
  import opened Wrappers
  import opened Geometry
  import opened Commands

  /** `position_on_terrain`: neither NaN nor infinite in any component. */
  function PositionOnTerrain(position: FloatVec3): (onTerrain: bool)
    ensures onTerrain <==> position.x.Finite? && position.y.Finite? && position.z.Finite?
  {
    !IsNan(position) && IsFinite(position)
  }

  /**
   * `(radius as f32 / local_size as f32).ceil() as u32`. A zero local size
   * divides by zero: `x / 0.0` is +inf, which saturates to `u32::MAX`, and
   * `0.0 / 0.0` is NaN, which converts to 0.
   */
  function GroupCount(radius: nat, localSize: nat): (groups: nat)
    ensures localSize > 0 ==> groups * localSize >= radius
    ensures localSize > 0 && groups > 0 ==> (groups - 1) * localSize < radius
    ensures localSize == 0 ==> groups == if radius == 0 then 0 else U32_MAX
  {
    if localSize == 0 then (if radius == 0 then 0 else U32_MAX)
    else CeilDivBounds(radius, localSize); (radius + localSize - 1) / localSize
  }

  lemma CeilDivBounds(radius: nat, localSize: nat)
    requires localSize > 0
    ensures (radius + localSize - 1) / localSize * localSize >= radius
    ensures (radius + localSize - 1) / localSize > 0 ==>
              ((radius + localSize - 1) / localSize - 1) * localSize < radius
  {
    var n := radius + localSize - 1;
    var q, r := n / localSize, n % localSize;
    assert n == q * localSize + r && 0 <= r < localSize;
    assert q * localSize == n - r;
    assert (q - 1) * localSize == n - r - localSize;
  }

  /** `dispatch_patch_rect`: a `g` by `g` by 1 dispatch covering the patch. */
  function DispatchPatchRect(cmds: seq<Command>, radius: nat, localSize: nat): (r: seq<Command>)
    ensures r == cmds + [Dispatch(GroupCount(radius, localSize), GroupCount(radius, localSize), 1)]
    ensures localSize > 0 ==> r[|cmds|].x * localSize >= radius && r[|cmds|].y * localSize >= radius
  {
    var g := GroupCount(radius, localSize);
    cmds + [Dispatch(g, g, 1)]
  }

  /** `prepare_for_write`: SHADER_READ_ONLY_OPTIMAL to GENERAL, ahead of a compute shader. */
  function PrepareForWrite(texture: string, cmds: seq<Command>, src: Stage): (r: seq<Command>)
    ensures |r| == |cmds| + 1 && r[..|cmds|] == cmds
    ensures r[|cmds|].TransitionImage? && r[|cmds|].dstStage == ComputeShader
    ensures forall initial :: LayoutAfter(r, texture, initial) == General
    ensures forall image, initial :: image != texture ==>
              LayoutAfter(r, image, initial) == LayoutAfter(cmds, image, initial)
    ensures forall initial :: TransitionsChain(cmds, texture, initial) ==>
              (TransitionsChain(r, texture, initial) <==> LayoutAfter(cmds, texture, initial) == ShaderReadOnlyOptimal)
    ensures forall image, initial :: image != texture ==>
              (TransitionsChain(r, image, initial) <==> TransitionsChain(cmds, image, initial))
  {
    var c := TransitionImage(texture, src, ComputeShader, ShaderReadOnlyOptimal, General,
                             NoAccess, MemoryReadWrite);
    ChainAppendOneAll(cmds, c);
    assert (cmds + [c])[..|cmds|] == cmds;
    cmds + [c]
  }

  /** `prepare_for_read`: GENERAL back to SHADER_READ_ONLY_OPTIMAL, after a compute shader. */
  function PrepareForRead(texture: string, cmds: seq<Command>, dstStage: Stage, dstAccess: Access): (r: seq<Command>)
    ensures |r| == |cmds| + 1 && r[..|cmds|] == cmds
    ensures r[|cmds|].TransitionImage? && r[|cmds|].srcStage == ComputeShader
    ensures forall initial :: LayoutAfter(r, texture, initial) == ShaderReadOnlyOptimal
    ensures forall image, initial :: image != texture ==>
              LayoutAfter(r, image, initial) == LayoutAfter(cmds, image, initial)
    ensures forall initial :: TransitionsChain(cmds, texture, initial) ==>
              (TransitionsChain(r, texture, initial) <==> LayoutAfter(cmds, texture, initial) == General)
    ensures forall image, initial :: image != texture ==>
              (TransitionsChain(r, image, initial) <==> TransitionsChain(cmds, image, initial))
  {
    var c := TransitionImage(texture, ComputeShader, dstStage, General, ShaderReadOnlyOptimal,
                             MemoryReadWrite, dstAccess);
    ChainAppendOneAll(cmds, c);
    assert (cmds + [c])[..|cmds|] == cmds;
    cmds + [c]
  }

  /** A write followed by a read leaves the texture in the layout it started in, with a valid chain. */
  lemma WriteThenReadRestores(texture: string, cmds: seq<Command>, src: Stage, dst: Stage, access: Access)
    requires LayoutAfter(cmds, texture, ShaderReadOnlyOptimal) == ShaderReadOnlyOptimal
    requires TransitionsChain(cmds, texture, ShaderReadOnlyOptimal)
    ensures var r := PrepareForRead(texture, PrepareForWrite(texture, cmds, src), dst, access);
            LayoutAfter(r, texture, ShaderReadOnlyOptimal) == ShaderReadOnlyOptimal
            && TransitionsChain(r, texture, ShaderReadOnlyOptimal)
  {
  }

  /**
   * `update_normals_around_patch`: the normal-recompute pass over the patch
   * widened by 4 texels. Binding a pipeline missing from the cache fails;
   * `patch_radius + 4` overflows `u32` near its maximum.
   */
  function UpdateNormalsAroundPatch(cmds: seq<Command>, uv: Vec2, patchRadius: nat,
                                    heights: string, normals: string, pipelines: set<string>)
    : (r: Run<Result<seq<Command>>>)
    requires IsU32(patchRadius)
    ensures r.Panics? <==> patchRadius + 4 > U32_MAX
    ensures r.Returns? ==> (r.value.Ok? <==> "normal_recompute" in pipelines)
    ensures r.Returns? && r.value.Ok? ==>
              var out := r.value.value;
              |out| == |cmds| + 6 && out[..|cmds|] == cmds
              && out[|cmds|] == BindComputePipeline("normal_recompute")
              && out[|cmds| + 1] == BindStorageImage(0, 0, normals)
              && out[|cmds| + 2] == BindSampledImage(0, 1, heights)
              && out[|cmds| + 3] == PushConstant(0, PushVec2(uv))
              && out[|cmds| + 4] == PushConstant(8, PushU32(patchRadius + 4))
              && out[|cmds| + 5].Dispatch?
              && out[|cmds| + 5].x * 16 >= patchRadius + 4 && out[|cmds| + 5].y * 16 >= patchRadius + 4
              && out[|cmds| + 5].z == 1
  {
    if patchRadius + 4 > U32_MAX then Panics("attempt to add with overflow")
    else if "normal_recompute" !in pipelines then Returns(Err("pipeline not found: normal_recompute"))
    else
      var size := patchRadius + 4;
      var bound := cmds + [BindComputePipeline("normal_recompute"),
                           BindStorageImage(0, 0, normals),
                           BindSampledImage(0, 1, heights),
                           PushConstant(0, PushVec2(uv)),
                           PushConstant(8, PushU32(size))];
      Returns(Ok(DispatchPatchRect(bound, size, 16)))
  }
}
