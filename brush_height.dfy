/**
 * The height brush: the command sequence that applies the brush to a
 * 256 by 256 texel patch of the heightmap and then recomputes the normals
 * of a slightly wider patch.
 */
module BrushHeight {
  import opened Wrappers
  import opened Geometry
  import opened Commands
  import BrushUtil

  /** Side of the brushed patch in texels. */
  const SIZE: nat := 256
  /** The normal pass covers 4 more texels on every side. */
  const NORMAL_SIZE: nat := SIZE + 8
  /** The (unused) blur pass covers 2 more texels on every side. */
  const BLUR_SIZE: nat := SIZE + 4

  /** The pipeline that a dispatch at index `i` runs under: the last one bound before it. */
  function BoundAt(s: seq<Command>, i: nat): Option<string>
    requires i <= |s|
  {
    if i == 0 then None
    else if s[i - 1].BindComputePipeline? then Some(s[i - 1].pipeline)
    else BoundAt(s, i - 1)
  }

  /** `s[i]` is a dispatch of `pipeline`. */
  predicate DispatchOf(s: seq<Command>, i: nat, pipeline: string)
    requires i < |s|
  {
    s[i].Dispatch? && BoundAt(s, i) == Some(pipeline)
  }

  /** No command of `s` changes the layout of `image`. */
  predicate Untouched(s: seq<Command>, image: string) {
    forall i :: 0 <= i < |s| ==> !(s[i].TransitionImage? && s[i].image == image)
  }

  /** The bindings, push constants and dispatch of the height brush, then the compute-to-compute barrier. */
  function HeightBrushPass(uv: Vec2, heights: string): (s: seq<Command>)
    ensures forall image :: Untouched(s, image)
  {
    [BindComputePipeline("height_brush"),
     BindStorageImage(0, 0, heights),
     PushConstant(0, PushVec2(uv)),
     PushConstant(8, PushU32(SIZE)),
     Dispatch(SIZE / 16, SIZE / 16, 1),
     MemoryBarrier(ComputeShader, MemoryReadWrite, ComputeShader, MemoryReadWrite)]
  }

  /** The bindings, push constants and dispatch of the normal recompute over `NORMAL_SIZE` texels. */
  function NormalRecomputePass(uv: Vec2, heights: string, normals: string): (s: seq<Command>)
    ensures forall image :: Untouched(s, image)
  {
    var groups := BrushUtil.GroupCount(NORMAL_SIZE, 16);
    [BindComputePipeline("normal_recompute"),
     BindStorageImage(0, 0, normals),
     BindSampledImage(0, 1, heights),
     PushConstant(0, PushVec2(uv)),
     PushConstant(8, PushU32(NORMAL_SIZE)),
     Dispatch(groups, groups, 1)]
  }

  /**
   * `record_update_normals`: normals from read-only to GENERAL (after
   * TOP_OF_PIPE), the recompute, and back to read-only (before
   * BOTTOM_OF_PIPE). Binding a pipeline missing from the cache fails.
   */
  function RecordUpdateNormals(cmds: seq<Command>, uv: Vec2, heights: string, normals: string,
                               pipelines: set<string>): (r: Result<seq<Command>>)
    ensures r.Ok? <==> "normal_recompute" in pipelines
    ensures r.Ok? ==> |r.value| == |cmds| + 8 && r.value[..|cmds|] == cmds
  {
    var cmds := BrushUtil.PrepareForWrite(normals, cmds, TopOfPipe);
    if "normal_recompute" !in pipelines then Err("pipeline not found: normal_recompute")
    else Ok(BrushUtil.PrepareForRead(normals, cmds + NormalRecomputePass(uv, heights, normals), BottomOfPipe, NoAccess))
  }

  /** `record_height_blur`: a blur of the patch widened by 2 texels per side. */
  function RecordHeightBlur(cmds: seq<Command>, uv: Vec2, heights: string, pipelines: set<string>)
    : (r: Result<seq<Command>>)
    ensures r.Ok? <==> "blur_rect" in pipelines
    ensures r.Ok? ==> |r.value| == |cmds| + 5 && r.value[..|cmds|] == cmds
    ensures r.Ok? ==> r.value[|cmds| + 4] == Dispatch(17, 17, 1)
  {
    if "blur_rect" !in pipelines then Err("pipeline not found: blur_rect")
    else
      var groups := BrushUtil.GroupCount(BLUR_SIZE, 16);
      var r := cmds + [BindComputePipeline("blur_rect"),
                       BindStorageImage(0, 0, heights),
                       PushConstant(0, PushVec2(uv)),
                       PushConstant(8, PushU32(BLUR_SIZE)),
                       Dispatch(groups, groups, 1)];
      assert r[..|cmds|] == cmds;
      Ok(r)
  }

  /**
   * `record_update_commands`: heights to GENERAL, the brush, a barrier,
   * heights back to read-only (sampled by the compute stage that follows),
   * then the normal recompute.
   */
  function RecordUpdateCommands(cmds: seq<Command>, uv: Vec2, heights: string, normals: string,
                                pipelines: set<string>): (r: Result<seq<Command>>)
    ensures r.Ok? <==> "height_brush" in pipelines && "normal_recompute" in pipelines
    ensures r.Ok? ==> |r.value| == |cmds| + 16 && r.value[..|cmds|] == cmds
  {
    var written := BrushUtil.PrepareForWrite(heights, cmds, TopOfPipe);
    if "height_brush" !in pipelines then Err("pipeline not found: height_brush")
    else
      var brushed := BrushUtil.PrepareForRead(heights, written + HeightBrushPass(uv, heights),
                                              ComputeShader, ShaderSampledRead);
      var r := RecordUpdateNormals(brushed, uv, heights, normals, pipelines);
      assert r.Ok? ==> r.value[..|cmds|] == brushed[..|cmds|];
      r
  }

  /** The commands `RecordUpdateCommands` appends, in recording order. */
  function UpdateSequence(uv: Vec2, heights: string, normals: string): seq<Command>
  {
    [TransitionImage(heights, TopOfPipe, ComputeShader, ShaderReadOnlyOptimal, General, NoAccess, MemoryReadWrite),
     BindComputePipeline("height_brush"),
     BindStorageImage(0, 0, heights),
     PushConstant(0, PushVec2(uv)),
     PushConstant(8, PushU32(SIZE)),
     Dispatch(16, 16, 1),
     MemoryBarrier(ComputeShader, MemoryReadWrite, ComputeShader, MemoryReadWrite),
     TransitionImage(heights, ComputeShader, ComputeShader, General, ShaderReadOnlyOptimal,
                     MemoryReadWrite, ShaderSampledRead),
     TransitionImage(normals, TopOfPipe, ComputeShader, ShaderReadOnlyOptimal, General, NoAccess, MemoryReadWrite),
     BindComputePipeline("normal_recompute"),
     BindStorageImage(0, 0, normals),
     BindSampledImage(0, 1, heights),
     PushConstant(0, PushVec2(uv)),
     PushConstant(8, PushU32(NORMAL_SIZE)),
     Dispatch(17, 17, 1),
     TransitionImage(normals, ComputeShader, BottomOfPipe, General, ShaderReadOnlyOptimal,
                     MemoryReadWrite, NoAccess)]
  }

  /** The height dispatch covers the patch exactly; the normal dispatch covers the widened patch. */
  lemma DispatchCoverage()
    ensures SIZE / 16 * 16 == SIZE
    ensures BrushUtil.GroupCount(NORMAL_SIZE, 16) == 17 && 17 * 16 >= NORMAL_SIZE && 16 * 16 < NORMAL_SIZE
    ensures BrushUtil.GroupCount(BLUR_SIZE, 16) == 17
  {
  }

  /**
   * The recorded order: heights to GENERAL, height dispatch, barrier,
   * heights to read-only, normals to GENERAL, normal dispatch, normals to
   * read-only.
   */
  lemma UpdateCommandsRecordOrder(cmds: seq<Command>, uv: Vec2, heights: string, normals: string,
                                  pipelines: set<string>)
    requires "height_brush" in pipelines && "normal_recompute" in pipelines
    ensures RecordUpdateCommands(cmds, uv, heights, normals, pipelines)
         == Ok(cmds + UpdateSequence(uv, heights, normals))
  {
    DispatchCoverage();
    var s := UpdateSequence(uv, heights, normals);
    var written := BrushUtil.PrepareForWrite(heights, cmds, TopOfPipe);
    var brushed := BrushUtil.PrepareForRead(heights, written + HeightBrushPass(uv, heights),
                                            ComputeShader, ShaderSampledRead);
    assert brushed == cmds + s[..8];
    var n1 := BrushUtil.PrepareForWrite(normals, brushed, TopOfPipe);
    var n3 := BrushUtil.PrepareForRead(normals, n1 + NormalRecomputePass(uv, heights, normals), BottomOfPipe, NoAccess);
    assert n3 == cmds + s;
  }

  /** In the recorded sequence every normal dispatch follows a barrier that follows every height dispatch. */
  lemma NormalsAfterBarrier(uv: Vec2, heights: string, normals: string)
    ensures var s := UpdateSequence(uv, heights, normals);
            forall i, j :: 0 <= i < |s| && 0 <= j < |s| && DispatchOf(s, i, "height_brush")
                           && DispatchOf(s, j, "normal_recompute") ==>
              i < 6 < j && s[6].MemoryBarrier? && s[6].srcStage == ComputeShader && s[6].dstStage == ComputeShader
  {
    var s := UpdateSequence(uv, heights, normals);
    assert BoundAt(s, 2) == Some("height_brush");
    assert BoundAt(s, 4) == Some("height_brush");
    assert BoundAt(s, 5) == Some("height_brush");
    assert BoundAt(s, 10) == Some("normal_recompute");
    assert BoundAt(s, 12) == Some("normal_recompute");
    assert BoundAt(s, 14) == Some("normal_recompute");
  }

  /** The heights image ends the recording read-only, every transition of it starting where it is. */
  lemma HeightsLayoutRestored(cmds: seq<Command>, uv: Vec2, heights: string, normals: string, pipelines: set<string>)
    requires heights != normals
    requires "height_brush" in pipelines && "normal_recompute" in pipelines
    requires LayoutAfter(cmds, heights, ShaderReadOnlyOptimal) == ShaderReadOnlyOptimal
    requires TransitionsChain(cmds, heights, ShaderReadOnlyOptimal)
    ensures RecordUpdateCommands(cmds, uv, heights, normals, pipelines).Ok?
    ensures var r := RecordUpdateCommands(cmds, uv, heights, normals, pipelines).value;
            LayoutAfter(r, heights, ShaderReadOnlyOptimal) == ShaderReadOnlyOptimal
            && TransitionsChain(r, heights, ShaderReadOnlyOptimal)
  {
    var written := BrushUtil.PrepareForWrite(heights, cmds, TopOfPipe);
    AppendUntouched(written, HeightBrushPass(uv, heights), heights);
    var brushed := BrushUtil.PrepareForRead(heights, written + HeightBrushPass(uv, heights),
                                            ComputeShader, ShaderSampledRead);
    assert LayoutAfter(brushed, heights, ShaderReadOnlyOptimal) == ShaderReadOnlyOptimal;
    assert TransitionsChain(brushed, heights, ShaderReadOnlyOptimal);
    var n1 := BrushUtil.PrepareForWrite(normals, brushed, TopOfPipe);
    AppendUntouched(n1, NormalRecomputePass(uv, heights, normals), heights);
    var n3 := BrushUtil.PrepareForRead(normals, n1 + NormalRecomputePass(uv, heights, normals), BottomOfPipe, NoAccess);
    assert RecordUpdateCommands(cmds, uv, heights, normals, pipelines) == Ok(n3);
  }

  /** The normals image ends the recording read-only, every transition of it starting where it is. */
  lemma NormalsLayoutRestored(cmds: seq<Command>, uv: Vec2, heights: string, normals: string, pipelines: set<string>)
    requires heights != normals
    requires "height_brush" in pipelines && "normal_recompute" in pipelines
    requires LayoutAfter(cmds, normals, ShaderReadOnlyOptimal) == ShaderReadOnlyOptimal
    requires TransitionsChain(cmds, normals, ShaderReadOnlyOptimal)
    ensures RecordUpdateCommands(cmds, uv, heights, normals, pipelines).Ok?
    ensures var r := RecordUpdateCommands(cmds, uv, heights, normals, pipelines).value;
            LayoutAfter(r, normals, ShaderReadOnlyOptimal) == ShaderReadOnlyOptimal
            && TransitionsChain(r, normals, ShaderReadOnlyOptimal)
  {
    var written := BrushUtil.PrepareForWrite(heights, cmds, TopOfPipe);
    AppendUntouched(written, HeightBrushPass(uv, heights), normals);
    var brushed := BrushUtil.PrepareForRead(heights, written + HeightBrushPass(uv, heights),
                                            ComputeShader, ShaderSampledRead);
    assert LayoutAfter(brushed, normals, ShaderReadOnlyOptimal) == ShaderReadOnlyOptimal;
    assert TransitionsChain(brushed, normals, ShaderReadOnlyOptimal);
    var n1 := BrushUtil.PrepareForWrite(normals, brushed, TopOfPipe);
    AppendUntouched(n1, NormalRecomputePass(uv, heights, normals), normals);
    var n3 := BrushUtil.PrepareForRead(normals, n1 + NormalRecomputePass(uv, heights, normals), BottomOfPipe, NoAccess);
    assert RecordUpdateCommands(cmds, uv, heights, normals, pipelines) == Ok(n3);
  }

  /** The blur pass is never part of the brush recording. */
  lemma BlurNeverRecorded(uv: Vec2, heights: string, normals: string)
    ensures forall i :: 0 <= i < |UpdateSequence(uv, heights, normals)| ==>
              UpdateSequence(uv, heights, normals)[i] != BindComputePipeline("blur_rect")
  {
  }
}
