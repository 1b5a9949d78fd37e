/**
 * The command-buffer vocabulary the host code records: image layout
 * transitions, memory barriers, pipeline and descriptor bindings, push
 * constants, dispatches and timestamp writes. A command buffer under
 * construction is the sequence of commands recorded so far.
 */
module Commands {
  import opened Geometry

  datatype Layout = Undefined | General | ShaderReadOnlyOptimal

  datatype Stage = TopOfPipe | ComputeShader | BottomOfPipe | OtherStage(bits: nat)

  datatype Access = NoAccess | MemoryReadWrite | ShaderSampledRead | OtherAccess(bits: nat)

  /** A value pushed as a push constant. */
  datatype PushValue = PushVec2(v: Vec2) | PushFloatVec2(f: FloatVec2) | PushU32(n: nat)

  datatype Command =
    | TransitionImage(image: string, srcStage: Stage, dstStage: Stage,
                      from: Layout, to: Layout, srcAccess: Access, dstAccess: Access)
    | MemoryBarrier(srcStage: Stage, srcAccess: Access, dstStage: Stage, dstAccess: Access)
    | BindComputePipeline(pipeline: string)
    | BindStorageImage(descriptorSet: nat, binding: nat, image: string)
    | BindSampledImage(descriptorSet: nat, binding: nat, image: string)
    | BindStorageBuffer(descriptorSet: nat, binding: nat, buffer: string)
    | PushConstant(offset: nat, value: PushValue)
    | Dispatch(x: nat, y: nat, z: nat)
    | WriteTimestamp(query: nat)

  /** The layout of `image` after `cmds`, starting from `initial`. */
  function LayoutAfter(cmds: seq<Command>, image: string, initial: Layout): Layout
  {
    if cmds == [] then initial
    else
      var before := LayoutAfter(cmds[..|cmds| - 1], image, initial);
      var last := cmds[|cmds| - 1];
      if last.TransitionImage? && last.image == image then last.to else before
  }

  /** Every transition of `image` in `cmds` starts from the layout the image is in. */
  predicate TransitionsChain(cmds: seq<Command>, image: string, initial: Layout)
  {
    forall i :: 0 <= i < |cmds| && cmds[i].TransitionImage? && cmds[i].image == image ==>
      cmds[i].from == LayoutAfter(cmds[..i], image, initial)
  }

  /** Recording more commands does not change the layouts reached by the earlier ones. */
  lemma {:induction false} LayoutAfterAppend(a: seq<Command>, b: seq<Command>, image: string, initial: Layout)
    ensures LayoutAfter(a + b, image, initial) == LayoutAfter(b, image, LayoutAfter(a, image, initial))
    decreases |b|
  {
    if b == [] {
      assert a + b == a;
    } else {
      assert (a + b)[..|a + b| - 1] == a + b[..|b| - 1];
      LayoutAfterAppend(a, b[..|b| - 1], image, initial);
    }
  }

  /** Appending one command keeps a chain valid exactly when that command starts where the image is. */
  lemma ChainAppendOne(cmds: seq<Command>, c: Command, image: string)
    ensures forall initial :: LayoutAfter(cmds + [c], image, initial) ==
              (if c.TransitionImage? && c.image == image then c.to else LayoutAfter(cmds, image, initial))
    ensures forall initial :: TransitionsChain(cmds + [c], image, initial) <==>
              TransitionsChain(cmds, image, initial)
              && (c.TransitionImage? && c.image == image ==> c.from == LayoutAfter(cmds, image, initial))
  {
    var r := cmds + [c];
    assert r[..|cmds|] == cmds;
    forall i | 0 <= i < |cmds|
      ensures r[..i] == cmds[..i]
    {
    }
  }

  /** Appending commands that never transition `image` changes neither its layout nor its chain. */
  lemma {:induction false} AppendUntouched(cmds: seq<Command>, extra: seq<Command>, image: string)
    requires forall i :: 0 <= i < |extra| ==> !(extra[i].TransitionImage? && extra[i].image == image)
    ensures forall initial :: LayoutAfter(cmds + extra, image, initial) == LayoutAfter(cmds, image, initial)
    ensures forall initial :: TransitionsChain(cmds + extra, image, initial) <==> TransitionsChain(cmds, image, initial)
    decreases |extra|
  {
    if extra != [] {
      var init := extra[..|extra| - 1];
      AppendUntouched(cmds, init, image);
      ChainAppendOne(cmds + init, extra[|extra| - 1], image);
      assert cmds + extra == (cmds + init) + [extra[|extra| - 1]];
    } else {
      assert cmds + extra == cmds;
    }
  }

  /** `ChainAppendOne` for every image at once. */
  lemma ChainAppendOneAll(cmds: seq<Command>, c: Command)
    ensures forall image, initial :: LayoutAfter(cmds + [c], image, initial) ==
              (if c.TransitionImage? && c.image == image then c.to else LayoutAfter(cmds, image, initial))
    ensures forall image, initial :: TransitionsChain(cmds + [c], image, initial) <==>
              TransitionsChain(cmds, image, initial)
              && (c.TransitionImage? && c.image == image ==> c.from == LayoutAfter(cmds, image, initial))
  {
    forall image, initial
      ensures TransitionsChain(cmds + [c], image, initial) <==>
                TransitionsChain(cmds, image, initial)
                && (c.TransitionImage? && c.image == image ==> c.from == LayoutAfter(cmds, image, initial))
    {
      ChainAppendOne(cmds, c, image);
    }
  }
}
