/**
 * `ShaderReloadActor` of the application's own `hot_reload` module, the
 * GLSL predecessor of the hot_reload crate: a watch list of shader files,
 * each with its stage and the graphics pipelines built from it. A
 * modified file is read, compiled with shaderc and every pipeline using
 * it rebuilt; once all of them are, the scene is asked to repaint.
 *
 * The outside world is the record `Tools`: path canonicalisation, reading
 * a file, a shaderc compilation, pipeline creation, the error phobos
 * reports for an unknown pipeline, and the outcome of telling the repaint
 * listener. The watcher task, the actor's mailbox, the mutex around the
 * cache and the log's other lines are not modelled.
 */
module AppHotReload {
  import opened Wrappers
  import opened Paths
  import opened ShaderTypes

  /** The pipeline cache: the shaders of each named graphics pipeline. */
  type Cache = map<string, seq<Shader>>

  /**
   * The calls out of the model: `fs::canonicalize`, reading a file to a
   * string, `compile_into_spirv` on (source, stage, file name),
   * `create_named_pipeline`, the `PipelineNotFound` error of a name, and
   * `repaint.tell(RepaintAll)`.
   */
  datatype Tools = Tools(canonicalize: string -> Result<string>,
                         read: string -> Result<string>,
                         compile: (string, StageFlags, string) -> Result<Binary>,
                         create: (string, seq<Shader>) -> Result<Unit>,
                         notFound: string -> string,
                         tell: Result<Unit>)

  /** The stages shaderc is asked for: any other is `todo!()`. */
  predicate Compilable(stage: StageFlags) {
    stage == VERTEX || stage == FRAGMENT
  }

  /**
   * `reload_pipeline` on a cache: read the file, pick the shader kind,
   * compile under the file's name, then swap the stage's shader in the
   * named pipeline and rebuild it; the cache keeps the new shaders once
   * creation succeeds.
   */
  function ReloadOutcome(cache: Cache, rl: Reload, tools: Tools): (r: Run<Result<Cache>>)
    ensures r.Panics? ==> r.reason == TODO || r.reason == UNWRAP_NONE
    ensures tools.read(rl.shader).Err? ==> r == Returns(Err(tools.read(rl.shader).message))
    ensures tools.read(rl.shader).Ok? ==> (r == Panics(TODO) <==> !Compilable(rl.stage))
    ensures r.Returns? && r.value.Ok? ==>
              && rl.pipeline in cache && Compilable(rl.stage)
              && r.value.value.Keys == cache.Keys
              && (forall p :: p in cache && p != rl.pipeline ==> r.value.value[p] == cache[p])
    ensures rl.pipeline !in cache && r.Returns? && r.value.Err? && tools.read(rl.shader).Ok? && FileName(rl.shader).Some?
              && tools.compile(tools.read(rl.shader).value, rl.stage, FileName(rl.shader).value).Ok? ==>
              r.value.message == tools.notFound(rl.pipeline)
  {
    match tools.read(rl.shader)
    case Err(m) => Returns(Err(m))
    case Ok(glsl) =>
      if !Compilable(rl.stage) then Panics(TODO)
      else match FileName(rl.shader)
        case None => Panics(UNWRAP_NONE)
        case Some(name) =>
          match tools.compile(glsl, rl.stage, name)
          case Err(m) => Returns(Err(m))
          case Ok(binary) =>
            if rl.pipeline !in cache then Returns(Err(tools.notFound(rl.pipeline)))
            else
              var shaders := WithShader(cache[rl.pipeline], Shader(rl.stage, binary));
              match tools.create(rl.pipeline, shaders)
              case Err(m) => Returns(Err(m))
              case Ok(_) => Returns(Ok(cache[rl.pipeline := shaders]))
  }

  /** A reload of a pipeline the cache does not know fails, with phobos's `PipelineNotFound`. */
  lemma MissingPipelineFails(cache: Cache, rl: Reload, tools: Tools)
    requires rl.pipeline !in cache
    ensures ReloadOutcome(cache, rl, tools) != Returns(Ok(cache))
    ensures !(ReloadOutcome(cache, rl, tools).Returns? && ReloadOutcome(cache, rl, tools).value.Ok?)
  {
  }

  /**
   * A rebuilt pipeline has exactly one shader of the reloaded stage, the
   * freshly compiled one, last; its other shaders are the ones it had
   * for other stages, and none of those is lost.
   */
  lemma ReloadSwapsStage(cache: Cache, rl: Reload, tools: Tools)
    requires ReloadOutcome(cache, rl, tools).Returns? && ReloadOutcome(cache, rl, tools).value.Ok?
    ensures var after := ReloadOutcome(cache, rl, tools).value.value[rl.pipeline];
            var glsl := tools.read(rl.shader).value;
            var binary := tools.compile(glsl, rl.stage, FileName(rl.shader).value).value;
            && |after| > 0 && after[|after| - 1] == Shader(rl.stage, binary)
            && (forall i :: 0 <= i < |after| - 1 ==> after[i].stage != rl.stage)
            && (forall x :: x in after && x.stage != rl.stage ==> x in cache[rl.pipeline])
            && (forall x :: x in cache[rl.pipeline] && x.stage != rl.stage ==> x in after)
  {
  }

  /** `reload_pipeline` as a step on the cache, for runs of reloads. */
  function Step(tools: Tools): (Cache, Reload) -> Run<Result<Cache>> {
    (c: Cache, rl: Reload) => ReloadOutcome(c, rl, tools)
  }

  class ShaderReloadActor {
    /** The watch list, keyed by canonical path. */
    var shaders: map<string, ShaderInfo>
    var pipelines: Cache
    /** The errors `safe_unwrap` logged, in order. */
    var logged: seq<string>
    /** How many `RepaintAll` messages were sent. */
    var repaints: nat
    /** Every `reload_pipeline` call, in order. */
    ghost var reloads: seq<Reload>
    /** Every `reload_file` call, in order. */
    ghost var refreshed: seq<string>
    const tools: Tools

    /** `new`: an empty watch list over the given cache (the watcher task is not modelled). */
    constructor (pipelines: Cache, tools: Tools)
      ensures this.pipelines == pipelines && this.tools == tools
      ensures shaders == map[] && logged == [] && repaints == 0 && reloads == [] && refreshed == []
    {
      this.pipelines := pipelines;
      this.tools := tools;
      shaders := map[];
      logged := [];
      repaints := 0;
      reloads := [];
      refreshed := [];
    }

    /** `reload_pipeline`: one reload, recorded, applied to the cache. */
    method ReloadPipeline(shader: string, pipeline: string, stage: StageFlags) returns (r: Run<Result<Unit>>)
      modifies this`pipelines, this`reloads
      ensures reloads == old(reloads) + [Reload(shader, pipeline, stage)]
      ensures r == Status(Step(tools)(old(pipelines), Reload(shader, pipeline, stage)))
      ensures pipelines == After(old(pipelines), Reload(shader, pipeline, stage), Step(tools))
    {
      reloads := reloads + [Reload(shader, pipeline, stage)];
      var glsl := tools.read(shader);
      if glsl.Err? {
        return Returns(Err(glsl.message));
      }
      if !Compilable(stage) {
        return Panics(TODO);
      }
      var name := FileName(shader);
      if name.None? {
        return Panics(UNWRAP_NONE);
      }
      var binary := tools.compile(glsl.value, stage, name.value);
      if binary.Err? {
        return Returns(Err(binary.message));
      }
      if pipeline !in pipelines {
        return Returns(Err(tools.notFound(pipeline)));
      }
      var updated := WithShader(pipelines[pipeline], Shader(stage, binary.value));
      var created := tools.create(pipeline, updated);
      if created.Err? {
        return Returns(Err(created.message));
      }
      pipelines := pipelines[pipeline := updated];
      r := Returns(Ok(Unit));
    }

    /**
     * The loop `for pipeline in &info.pipelines { reload_pipeline(..)? }`:
     * the first `n` reloads of `plan` ran, all of them when none failed,
     * and the run stopped at the first failure.
     */
    method RunReloads(plan: seq<Reload>) returns (r: Run<Result<Unit>>, ghost n: nat)
      modifies this`pipelines, this`reloads
      ensures n <= |plan| && reloads == old(reloads) + plan[..n]
      ensures pipelines == Replay(old(pipelines), plan[..n], Step(tools))
      ensures r == Attempt(old(pipelines), plan[..n], Step(tools))
      ensures StopsAtFailure(old(pipelines), plan[..n], Step(tools))
      ensures r == Returns(Ok(Unit)) ==> n == |plan|
    {
      r := Returns(Ok(Unit));
      var i := 0;
      ghost var done: seq<Reload> := [];
      while i < |plan| && r == Returns(Ok(Unit))
        invariant 0 <= i <= |plan| && done == plan[..i]
        invariant reloads == old(reloads) + done
        invariant pipelines == Replay(old(pipelines), done, Step(tools))
        invariant r == Attempt(old(pipelines), done, Step(tools))
        invariant StopsAtFailure(old(pipelines), done, Step(tools))
      {
        var rl := plan[i];
        RunSnoc(old(pipelines), done, rl, Step(tools));
        r := ReloadPipeline(rl.shader, rl.pipeline, rl.stage);
        done := done + [rl];
        i := i + 1;
      }
      n := i;
    }

    /**
     * `reload_file`: a temporary `~` file is ignored, an unwatched one is
     * an error, and a watched one reloads its pipelines in list order
     * until the first failure. Only when all of them succeeded is one
     * `RepaintAll` sent; a failed send is the call's error. The file name
     * is unwrapped first, so a path without one panics.
     */
    method ReloadFile(path: string) returns (r: Run<Result<Unit>>)
      modifies this`pipelines, this`reloads, this`refreshed, this`repaints
      ensures refreshed == old(refreshed) + [path]
      ensures |reloads| >= |old(reloads)| && reloads[..|old(reloads)|] == old(reloads)
      ensures pipelines == Replay(old(pipelines), reloads[|old(reloads)|..], Step(tools))
      ensures repaints == old(repaints) || repaints == old(repaints) + 1
      ensures repaints == old(repaints) + 1 ==>
                && r == Returns(Ok(Unit)) && path in shaders
                && reloads[|old(reloads)|..] == PlanFor(path, shaders[path])
                && Attempt(old(pipelines), reloads[|old(reloads)|..], Step(tools)) == Returns(Ok(Unit))
      ensures FileName(path).None? ==> r == Panics(UNWRAP_NONE) && reloads == old(reloads) && repaints == old(repaints)
      ensures FileName(path).Some? ==>
                var name := FileName(path).value;
                && (IsTemporary(name) ==> r == Returns(Ok(Unit)) && reloads == old(reloads) && repaints == old(repaints))
                && (!IsTemporary(name) && path !in shaders ==>
                      r == Returns(Err(NotInWatchlist(name))) && reloads == old(reloads) && repaints == old(repaints))
                && (!IsTemporary(name) && path in shaders ==>
                      var done := reloads[|old(reloads)|..];
                      var run := Attempt(old(pipelines), done, Step(tools));
                      && done <= PlanFor(path, shaders[path])
                      && StopsAtFailure(old(pipelines), done, Step(tools))
                      && (run != Returns(Ok(Unit)) ==> r == run && repaints == old(repaints))
                      && (run == Returns(Ok(Unit)) ==>
                            && done == PlanFor(path, shaders[path])
                            && (tools.tell.Ok? ==> r == Returns(Ok(Unit)) && repaints == old(repaints) + 1)
                            && (tools.tell.Err? ==> r == Returns(Err(tools.tell.message)) && repaints == old(repaints))))
    {
      refreshed := refreshed + [path];
      assert reloads[|reloads|..] == [];
      var name := FileName(path);
      if name.None? {
        return Panics(UNWRAP_NONE);
      }
      if IsTemporary(name.value) {
        return Returns(Ok(Unit));
      }
      if path !in shaders {
        return Returns(Err(NotInWatchlist(name.value)));
      }
      var plan := PlanFor(path, shaders[path]);
      ghost var n;
      r, n := RunReloads(plan);
      assert reloads[|old(reloads)|..] == plan[..n];
      if r != Returns(Ok(Unit)) {
        return;
      }
      assert plan[..n] == plan;
      if tools.tell.Err? {
        return Returns(Err(tools.tell.message));
      }
      repaints := repaints + 1;
    }

    /**
     * The `FileEventMessage` handler: for a modification, `reload_file`
     * on every path of the event, in order, whatever its extension; an
     * error is logged and the next path is tried. Other events do nothing.
     */
    method HandleFileEvent(event: FileEvent) returns (r: Run<Unit>)
      modifies this`pipelines, this`reloads, this`refreshed, this`repaints, this`logged
      ensures event.kind != Modify ==>
                && r == Returns(Unit) && pipelines == old(pipelines) && reloads == old(reloads)
                && refreshed == old(refreshed) && repaints == old(repaints) && logged == old(logged)
      ensures event.kind == Modify ==> old(refreshed) <= refreshed <= old(refreshed) + event.paths
      ensures event.kind == Modify && r.Returns? ==> refreshed == old(refreshed) + event.paths
      ensures old(reloads) <= reloads && pipelines == Replay(old(pipelines), reloads[|old(reloads)|..], Step(tools))
      ensures old(repaints) <= repaints <= old(repaints) + |event.paths|
      ensures old(logged) <= logged
    {
      if event.kind != Modify {
        return Returns(Unit);
      }
      r := RefreshAll(event.paths);
    }

    /** The loop of the handler: `reload_file(path).safe_unwrap()` on each path. */
    method RefreshAll(paths: seq<string>) returns (r: Run<Unit>)
      modifies this`pipelines, this`reloads, this`refreshed, this`repaints, this`logged
      ensures old(refreshed) <= refreshed <= old(refreshed) + paths
      ensures r.Returns? ==> refreshed == old(refreshed) + paths
      ensures old(reloads) <= reloads && pipelines == Replay(old(pipelines), reloads[|old(reloads)|..], Step(tools))
      ensures old(repaints) <= repaints <= old(repaints) + |paths|
      ensures old(logged) <= logged
    {
      var i := 0;
      r := Returns(Unit);
      assert reloads[|old(reloads)|..] == [];
      while i < |paths| && r.Returns?
        invariant 0 <= i <= |paths|
        invariant refreshed == old(refreshed) + paths[..i]
        invariant old(reloads) <= reloads && pipelines == Replay(old(pipelines), reloads[|old(reloads)|..], Step(tools))
        invariant old(repaints) <= repaints <= old(repaints) + i
        invariant old(logged) <= logged
      {
        r := RefreshNext(paths, i, old(pipelines), old(reloads), old(refreshed), old(repaints), old(logged));
        i := i + 1;
      }
      assert paths[..i] <= paths;
      assert paths[..|paths|] == paths;
    }

    /** Turn `i` of the handler's loop, in terms of the state the loop started from. */
    method RefreshNext(paths: seq<string>, i: nat, ghost c0: Cache, ghost r0: seq<Reload>, ghost f0: seq<string>,
                       ghost n0: nat, ghost l0: seq<string>)
      returns (r: Run<Unit>)
      requires i < |paths| && refreshed == f0 + paths[..i]
      requires r0 <= reloads && pipelines == Replay(c0, reloads[|r0|..], Step(tools))
      requires n0 <= repaints <= n0 + i && l0 <= logged
      modifies this`pipelines, this`reloads, this`refreshed, this`repaints, this`logged
      ensures refreshed == f0 + paths[..i + 1]
      ensures r0 <= reloads && pipelines == Replay(c0, reloads[|r0|..], Step(tools))
      ensures n0 <= repaints <= n0 + i + 1 && l0 <= logged
    {
      TakeSnoc(paths, i);
      ghost var before := reloads;
      r := RefreshOne(paths[i]);
      ReplayChain(c0, r0, before, reloads, Step(tools));
      if logged != old(logged) {
        assert logged == old(logged) + [logged[|logged| - 1]];
      }
    }

    /** One turn of the handler's loop: a panic ends it, an error is logged. */
    method RefreshOne(path: string) returns (r: Run<Unit>)
      modifies this`pipelines, this`reloads, this`refreshed, this`repaints, this`logged
      ensures refreshed == old(refreshed) + [path]
      ensures old(reloads) <= reloads && pipelines == Replay(old(pipelines), reloads[|old(reloads)|..], Step(tools))
      ensures repaints == old(repaints) || repaints == old(repaints) + 1
      ensures logged == old(logged) || (|logged| == |old(logged)| + 1 && logged[..|old(logged)|] == old(logged))
    {
      r := Returns(Unit);
      var reloaded := ReloadFile(path);
      if reloaded.Panics? {
        r := Panics(reloaded.reason);
      } else if reloaded.value.Err? {
        logged := logged + [reloaded.value.message];
      }
    }

    /**
     * The `AddShader` handler: watch the canonical path for the pipeline,
     * then reload the pipeline from the path as given, logging a failure.
     * A path that cannot be canonicalised panics on `unwrap` before
     * anything changes. No repaint is requested.
     */
    method AddShader(path: string, stage: StageFlags, pipeline: string) returns (r: Run<Unit>)
      modifies this`shaders, this`pipelines, this`reloads, this`logged
      ensures tools.canonicalize(path).Err? ==>
                && r == Panics(UnwrapErr(tools.canonicalize(path).message))
                && shaders == old(shaders) && pipelines == old(pipelines) && reloads == old(reloads) && logged == old(logged)
      ensures tools.canonicalize(path).Ok? ==>
                var rl := Reload(path, pipeline, stage);
                var status := Status(Step(tools)(old(pipelines), rl));
                && shaders == AddPipeline(old(shaders), tools.canonicalize(path).value, stage, pipeline)
                && reloads == old(reloads) + [rl]
                && pipelines == After(old(pipelines), rl, Step(tools))
                && (r.Panics? <==> status.Panics?)
                && logged == old(logged) + (if status.Returns? && status.value.Err? then [status.value.message] else [])
    {
      var key := tools.canonicalize(path);
      if key.Err? {
        return Panics(UnwrapErr(key.message));
      }
      shaders := AddPipeline(shaders, key.value, stage, pipeline);
      var reloaded := ReloadPipeline(path, pipeline, stage);
      if reloaded.Panics? {
        return Panics(reloaded.reason);
      }
      if reloaded.value.Err? {
        logged := logged + [reloaded.value.message];
      }
      r := Returns(Unit);
    }
  }
}
