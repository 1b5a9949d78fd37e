/**
 * What the two shader hot-reloaders share: Vulkan shader stage flags, the
 * shaders a graphics pipeline is built from, a watched file's entry in the
 * watch list, file-system events, and the two edits both reloaders make —
 * swapping one stage's shader in a pipeline, and adding a pipeline to a
 * file's watch-list entry.
 */
module ShaderTypes {
  import opened Wrappers
  import opened Paths

  /** `vk::ShaderStageFlags`: a bit set, compared as a whole. */
  type StageFlags = nat

  const VERTEX: StageFlags := 0x1
  const TESSELLATION_CONTROL: StageFlags := 0x2
  const TESSELLATION_EVALUATION: StageFlags := 0x4
  const FRAGMENT: StageFlags := 0x10
  const COMPUTE: StageFlags := 0x20

  /** SPIR-V: a sequence of 32-bit words. */
  type Binary = seq<nat>

  /** `ShaderCreateInfo`: a stage and its SPIR-V. */
  datatype Shader = Shader(stage: StageFlags, binary: Binary)

  /** `ShaderInfo`: a watched file's stage and the pipelines built from it, in registration order. */
  datatype ShaderInfo = ShaderInfo(stage: StageFlags, pipelines: seq<string>)

  /** `notify::EventKind`: only modifications matter to either reloader. */
  datatype EventKind = Modify | OtherKind

  /** `notify::Event`: what happened, and to which paths. */
  datatype FileEvent = FileEvent(kind: EventKind, paths: seq<string>)

  /** One call of `reload_pipeline`: the shader file, the pipeline, the stage. */
  datatype Reload = Reload(shader: string, pipeline: string, stage: StageFlags)

  /** The panic message of `Option::unwrap` on `None`. */
  const UNWRAP_NONE: string := "called `Option::unwrap()` on a `None` value"

  /** The panic message of `Result::unwrap` on an error. */
  function UnwrapErr(message: string): string {
    "called `Result::unwrap()` on an `Err` value: " + message
  }

  /** The panic message of `todo!()`. */
  const TODO: string := "not yet implemented"

  /**
   * `shaders.retain(|s| s.stage != stage)`: the shaders of every other
   * stage, in their order.
   */
  function WithoutStage(shaders: seq<Shader>, stage: StageFlags): (r: seq<Shader>)
    ensures forall s :: s in r <==> s in shaders && s.stage != stage
    ensures (forall s :: s in shaders ==> s.stage != stage) ==> r == shaders
  {
    if shaders == [] then []
    else (if shaders[0].stage == stage then [] else [shaders[0]]) + WithoutStage(shaders[1..], stage)
  }

  /**
   * The shader list of a reloaded graphics pipeline: the old shader of the
   * stage removed, the new one pushed last. The result has exactly one
   * shader of that stage, and every other shader is one the pipeline had.
   */
  function WithShader(shaders: seq<Shader>, s: Shader): (r: seq<Shader>)
    ensures |r| > 0 && r[|r| - 1] == s
    ensures forall i :: 0 <= i < |r| - 1 ==> r[i].stage != s.stage
    ensures forall x :: x in r && x != s ==> x in shaders && x.stage != s.stage
    ensures forall x :: x in shaders && x.stage != s.stage ==> x in r
  {
    var kept := WithoutStage(shaders, s.stage);
    assert forall i :: 0 <= i < |kept| ==> kept[i] in kept;
    kept + [s]
  }

  /** Reloading the same stage twice leaves the list the second reload alone would. */
  lemma {:induction false} WithShaderTwice(shaders: seq<Shader>, s: Shader, t: Shader)
    requires s.stage == t.stage
    ensures WithShader(WithShader(shaders, s), t) == WithShader(shaders, t)
  {
    WithoutStageTwice(shaders, s.stage);
    var kept := WithoutStage(shaders, s.stage);
    WithoutStageAppend(kept, [s], s.stage);
    assert WithoutStage([s], s.stage) == [] by {
      assert [s][1..] == [];
    }
    assert kept + [] == kept;
  }

  /** Filtering a stage out is idempotent. */
  lemma {:induction false} WithoutStageTwice(shaders: seq<Shader>, stage: StageFlags)
    ensures WithoutStage(WithoutStage(shaders, stage), stage) == WithoutStage(shaders, stage)
  {
    var r := WithoutStage(shaders, stage);
    assert forall x :: x in r ==> x.stage != stage;
  }

  /** Filtering distributes over concatenation. */
  lemma {:induction false} WithoutStageAppend(a: seq<Shader>, b: seq<Shader>, stage: StageFlags)
    ensures WithoutStage(a + b, stage) == WithoutStage(a, stage) + WithoutStage(b, stage)
    decreases |a|
  {
    if a == [] {
      assert a + b == b;
    } else {
      assert (a + b)[0] == a[0];
      assert (a + b)[1..] == a[1..] + b;
      WithoutStageAppend(a[1..], b, stage);
    }
  }

  /**
   * The watch-list update of `add_shader`: a file already watched gains
   * the pipeline at the end of its list and keeps its stage; a new file
   * is watched for that one pipeline at `stage`. Other files are untouched.
   */
  function AddPipeline(shaders: map<string, ShaderInfo>, key: string, stage: StageFlags, pipeline: string)
    : (r: map<string, ShaderInfo>)
    ensures r.Keys == shaders.Keys + {key}
    ensures key in shaders ==> r[key] == shaders[key].(pipelines := shaders[key].pipelines + [pipeline])
    ensures key !in shaders ==> r[key] == ShaderInfo(stage, [pipeline])
    ensures forall k :: k in shaders && k != key ==> r[k] == shaders[k]
  {
    if key in shaders then shaders[key := shaders[key].(pipelines := shaders[key].pipelines + [pipeline])]
    else shaders[key := ShaderInfo(stage, [pipeline])]
  }

  /**
   * A file keeps the stage it was first added with, and gains each
   * pipeline added later: the stage passed with a later pipeline is not
   * stored.
   */
  lemma {:induction false} FirstStageWins(shaders: map<string, ShaderInfo>, key: string, s1: StageFlags, p1: string,
                                          s2: StageFlags, p2: string)
    requires key !in shaders
    ensures var twice := AddPipeline(AddPipeline(shaders, key, s1, p1), key, s2, p2);
            twice[key] == ShaderInfo(s1, [p1, p2])
  {
    var once := AddPipeline(shaders, key, s1, p1);
    assert once[key] == ShaderInfo(s1, [p1]);
    assert [p1] + [p2] == [p1, p2];
  }

  /** The reloads that refreshing `path`, watched as `info`, asks for, in list order. */
  function PlanFor(path: string, info: ShaderInfo): (r: seq<Reload>)
    ensures |r| == |info.pipelines|
    ensures forall i :: 0 <= i < |r| ==> r[i] == Reload(path, info.pipelines[i], info.stage)
  {
    seq(|info.pipelines|, i requires 0 <= i < |info.pipelines| => Reload(path, info.pipelines[i], info.stage))
  }

  /** `rl` reloads one pipeline registered for one watched file, at that file's stage. */
  predicate Scheduled(shaders: map<string, ShaderInfo>, rl: Reload) {
    rl.shader in shaders && rl.stage == shaders[rl.shader].stage && rl.pipeline in shaders[rl.shader].pipelines
  }

  /** The error for a modified file nobody watches; `{:?}` quotes the file name. */
  function NotInWatchlist(name: string): string {
    "Shader path not in watchlist: \"" + name + "\""
  }

  /** A temporary file some editors save first: its name ends in `~`. */
  predicate IsTemporary(name: string) {
    |name| > 0 && name[|name| - 1] == '~'
  }

  /*
   * Runs of reloads. `step` is one `reload_pipeline` on a pipeline cache
   * of type `C`: a panic, an error, or the rebuilt cache.
   */

  /** Whether a reload succeeded, failed, or panicked, without the cache. */
  function Status<C>(o: Run<Result<C>>): (r: Run<Result<Unit>>)
    ensures r.Panics? <==> o.Panics?
    ensures r.Panics? ==> r.reason == o.reason
    ensures r == Returns(Ok(Unit)) <==> o.Returns? && o.value.Ok?
    ensures r.Returns? && r.value.Err? ==> o.Returns? && o.value.Err? && r.value.message == o.value.message
  {
    match o
    case Panics(m) => Panics(m)
    case Returns(Err(m)) => Returns(Err(m))
    case Returns(Ok(_)) => Returns(Ok(Unit))
  }

  /** The cache after one reload: the rebuilt one on success, the same one otherwise. */
  function After<C>(cache: C, rl: Reload, step: (C, Reload) -> Run<Result<C>>): C {
    var o := step(cache, rl);
    if o.Returns? && o.value.Ok? then o.value.value else cache
  }

  /** The cache after the reloads `rs`, each applied to the cache the previous ones left. */
  function Replay<C>(cache: C, rs: seq<Reload>, step: (C, Reload) -> Run<Result<C>>): C
    decreases |rs|
  {
    if rs == [] then cache else After(Replay(cache, rs[..|rs| - 1], step), rs[|rs| - 1], step)
  }

  /** The result of running `rs` in order with `?`: the first failure, or success. */
  function Attempt<C>(cache: C, rs: seq<Reload>, step: (C, Reload) -> Run<Result<C>>): Run<Result<Unit>>
    decreases |rs|
  {
    if rs == [] then Returns(Ok(Unit))
    else
      var previous := Attempt(cache, rs[..|rs| - 1], step);
      if previous != Returns(Ok(Unit)) then previous
      else Status(step(Replay(cache, rs[..|rs| - 1], step), rs[|rs| - 1]))
  }

  /** A run of reloads that stopped, if it did, at its last reload. */
  predicate StopsAtFailure<C>(cache: C, rs: seq<Reload>, step: (C, Reload) -> Run<Result<C>>) {
    rs == [] || Attempt(cache, rs[..|rs| - 1], step) == Returns(Ok(Unit))
  }

  /** Replaying two runs one after the other is replaying them joined. */
  lemma {:induction false} ReplayAppend<C>(cache: C, a: seq<Reload>, b: seq<Reload>, step: (C, Reload) -> Run<Result<C>>)
    ensures Replay(cache, a + b, step) == Replay(Replay(cache, a, step), b, step)
    decreases |b|
  {
    if b == [] {
      assert a + b == a;
    } else {
      var b' := b[..|b| - 1];
      assert (a + b)[..|a + b| - 1] == a + b';
      assert (a + b)[|a + b| - 1] == b[|b| - 1];
      ReplayAppend(cache, a, b', step);
    }
  }

  /** A run that follows a successful run starts from the cache the first one left. */
  lemma {:induction false} AttemptAppend<C>(cache: C, a: seq<Reload>, b: seq<Reload>, step: (C, Reload) -> Run<Result<C>>)
    requires Attempt(cache, a, step) == Returns(Ok(Unit))
    ensures Attempt(cache, a + b, step) == Attempt(Replay(cache, a, step), b, step)
    decreases |b|
  {
    if b == [] {
      assert a + b == a;
    } else {
      var b' := b[..|b| - 1];
      assert (a + b)[..|a + b| - 1] == a + b';
      assert (a + b)[|a + b| - 1] == b[|b| - 1];
      AttemptAppend(cache, a, b', step);
      ReplayAppend(cache, a, b', step);
    }
  }

  /**
   * A run after a successful run `done`: the two together replay, succeed
   * or fail, and stop, as the second does from where the first left off.
   */
  lemma {:induction false} RunExtends<C>(cache: C, done: seq<Reload>, more: seq<Reload>, step: (C, Reload) -> Run<Result<C>>)
    requires Attempt(cache, done, step) == Returns(Ok(Unit))
    ensures Replay(cache, done + more, step) == Replay(Replay(cache, done, step), more, step)
    ensures Attempt(cache, done + more, step) == Attempt(Replay(cache, done, step), more, step)
    ensures StopsAtFailure(Replay(cache, done, step), more, step) ==> StopsAtFailure(cache, done + more, step)
  {
    ReplayAppend(cache, done, more, step);
    AttemptAppend(cache, done, more, step);
    if more != [] && StopsAtFailure(Replay(cache, done, step), more, step) {
      var all := done + more;
      assert all[..|all| - 1] == done + more[..|more| - 1];
      AttemptAppend(cache, done, more[..|more| - 1], step);
    }
  }

  /** Taking one more element of a sequence appends that element. */
  lemma TakeSnoc<T>(s: seq<T>, i: nat)
    requires i < |s|
    ensures s[..i + 1] == s[..i] + [s[i]] && s[..i + 1][..i] == s[..i]
  {
  }

  /** Replaying the log from `r0` to `r1` and then on to `r2` is replaying it from `r0` to `r2`. */
  lemma ReplayChain<C>(cache: C, r0: seq<Reload>, r1: seq<Reload>, r2: seq<Reload>, step: (C, Reload) -> Run<Result<C>>)
    requires r0 <= r1 <= r2
    ensures Replay(Replay(cache, r1[|r0|..], step), r2[|r1|..], step) == Replay(cache, r2[|r0|..], step)
  {
    assert r2[|r0|..] == r1[|r0|..] + r2[|r1|..];
    ReplayAppend(cache, r1[|r0|..], r2[|r1|..], step);
  }

  /** One more reload after a successful run. */
  lemma RunSnoc<C>(cache: C, done: seq<Reload>, rl: Reload, step: (C, Reload) -> Run<Result<C>>)
    requires Attempt(cache, done, step) == Returns(Ok(Unit))
    ensures Replay(cache, done + [rl], step) == After(Replay(cache, done, step), rl, step)
    ensures Attempt(cache, done + [rl], step) == Status(step(Replay(cache, done, step), rl))
    ensures StopsAtFailure(cache, done + [rl], step)
  {
    assert (done + [rl])[..|done|] == done;
  }
}
