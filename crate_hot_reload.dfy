/**
 * `ShaderReload` of the hot_reload crate: a watch list of HLSL files, each
 * with the stage it is compiled for and the pipelines built from it. When
 * a watched file changes it is recompiled with dxc and every pipeline
 * using it is rebuilt in the pipeline cache; a change under the shared
 * include directory rebuilds every pipeline on the list.
 *
 * The outside world is the record `Tools`: path canonicalisation, the
 * creation of the output directory, a dxc run (which also reads back the
 * SPIR-V it wrote), and pipeline creation. The watcher task, the lock
 * around the state and the log's other lines are not modelled.
 */
module CrateHotReload {
  import opened Wrappers
  import opened Paths
  import opened ShaderTypes

  /** A path containing this, written with Windows separators, is a shared include file. */
  const INCLUDE_DIR: string := "shaders\\include\\"

  /** The stages `hlsl_profile` knows. */
  predicate Supported(stage: StageFlags) {
    stage == VERTEX || stage == FRAGMENT || stage == COMPUTE
    || stage == TESSELLATION_CONTROL || stage == TESSELLATION_EVALUATION
  }

  /**
   * `hlsl_profile`: the dxc target profile of a stage, shader model 6.7;
   * any other stage, a combination of stages included, is `todo!()`.
   */
  function HlslProfile(stage: StageFlags): (r: Run<string>)
    ensures r.Returns? <==> Supported(stage)
    ensures r.Panics? ==> r.reason == TODO
    ensures r.Returns? ==> |r.value| == 6 && r.value[2..] == "_6_7"
  {
    var kind :=
      if stage == VERTEX then Some("vs")
      else if stage == FRAGMENT then Some("ps")
      else if stage == COMPUTE then Some("cs")
      else if stage == TESSELLATION_CONTROL then Some("hs")
      else if stage == TESSELLATION_EVALUATION then Some("ds")
      else None;
    match kind
    case None => Panics(TODO)
    case Some(k) => Returns(k + "_6_7")
  }

  /** No two stages share a profile: dxc is always told which stage it compiles. */
  lemma ProfilesDistinct(a: StageFlags, b: StageFlags)
    requires HlslProfile(a).Returns? && HlslProfile(a) == HlslProfile(b)
    ensures a == b
  {
    assert HlslProfile(a).value[..2] == HlslProfile(b).value[..2];
  }

  /**
   * `get_output_path`: `<parent>/out/<file name>.spv`, after creating the
   * parent directory. A path without a parent or without a file name
   * panics on `unwrap`.
   */
  function GetOutputPath(path: string, createDir: string -> Result<Unit>): (r: Run<Result<string>>)
    ensures r.Panics? ==> r.reason == UNWRAP_NONE
    ensures r.Panics? <==> Parent(path).None? || (createDir(Parent(path).value).Ok? && FileName(path).None?)
    ensures r.Returns? && r.value.Err? ==>
              Parent(path).Some? && createDir(Parent(path).value).Err? && r.value.message == createDir(Parent(path).value).message
  {
    match Parent(path)
    case None => Panics(UNWRAP_NONE)
    case Some(prefix) =>
      match createDir(prefix)
      case Err(m) => Returns(Err(m))
      case Ok(_) =>
        match FileName(path)
        case None => Panics(UNWRAP_NONE)
        case Some(name) => Returns(Ok(Join(Join(prefix, "out/"), name + ".spv")))
  }

  /** The SPIR-V of `dir/name` goes to `dir/out/name.spv`. */
  lemma {:induction false} OutputPathBesideSource(dir: string, name: string, createDir: string -> Result<Unit>)
    requires IsNormalName(name) && dir != "" && dir[|dir| - 1] != '/'
    requires createDir(dir).Ok?
    ensures GetOutputPath(dir + "/" + name, createDir) == Returns(Ok(dir + "/out/" + name + ".spv"))
  {
    ParentAfterDirectory(dir, name);
    FileNameAfterDirectory(dir, name);
    OutDirectoryJoin(dir, name);
  }

  /** Joining `out/` and then `name.spv` onto a directory spells `dir/out/name.spv`. */
  lemma OutDirectoryJoin(dir: string, name: string)
    requires IsNormalName(name) && dir != "" && dir[|dir| - 1] != '/'
    ensures Join(Join(dir, "out/"), name + ".spv") == dir + "/out/" + name + ".spv"
  {
    assert Join(dir, "out/") == dir + "/out/";
    assert (name + ".spv")[0] == name[0];
    assert name[0] != '/' by {
      assert name[0] in name;
    }
  }

  /** The SPIR-V of a file in the working directory goes to `out/name.spv`. */
  lemma {:induction false} OutputPathOfBareName(name: string, createDir: string -> Result<Unit>)
    requires IsNormalName(name) && createDir("").Ok?
    ensures GetOutputPath(name, createDir) == Returns(Ok("out/" + name + ".spv"))
  {
    ParentOfName(name);
    NameIsFileName(name);
    assert Join("", "out/") == "out/";
    assert (name + ".spv")[0] == name[0] != '/';
    assert Join("out/", name + ".spv") == "out/" + name + ".spv";
  }

  /** What the pipeline cache knows of a pipeline, by `PipelineType`. */
  datatype PipelineInfo = Graphics(shaders: seq<Shader>) | ComputeInfo(shader: Option<Shader>) | RayTracing

  /** The pipeline cache: pipeline descriptions by name. */
  type Cache = map<string, PipelineInfo>

  /**
   * The calls out of the model: `fs::canonicalize`, `fs::create_dir_all`,
   * a dxc run on (source, output path, profile) together with reading back
   * its output, and `create_named_pipeline` /
   * `create_named_compute_pipeline`.
   */
  datatype Tools = Tools(canonicalize: string -> Result<string>,
                         createDir: string -> Result<Unit>,
                         dxc: (string, string, string) -> Result<Binary>,
                         create: (string, PipelineInfo) -> Result<Unit>)

  /**
   * `compile_hlsl`: the output path first, then the profile (so an
   * unsupported stage panics only once the directory exists), then dxc.
   */
  function CompileHlsl(path: string, stage: StageFlags, tools: Tools): (r: Run<Result<Binary>>)
    ensures r.Panics? ==> r.reason == UNWRAP_NONE || r.reason == TODO
    ensures GetOutputPath(path, tools.createDir).Returns? && GetOutputPath(path, tools.createDir).value.Ok? ==>
              (r.Panics? <==> !Supported(stage))
    ensures r.Returns? && r.value.Ok? ==> Supported(stage) && GetOutputPath(path, tools.createDir).Returns?
  {
    match GetOutputPath(path, tools.createDir)
    case Panics(m) => Panics(m)
    case Returns(Err(m)) => Returns(Err(m))
    case Returns(Ok(out)) =>
      match HlslProfile(stage)
      case Panics(m) => Panics(m)
      case Returns(profile) => Returns(tools.dxc(path, out, profile))
  }

  /**
   * The new description of a pipeline after its shader of `stage` was
   * recompiled to `binary`: a graphics pipeline swaps that stage's
   * shader, a compute pipeline's one shader is replaced (as a compute
   * shader, whatever `stage` was), and ray tracing is `todo!()`.
   */
  function ReloadedInfo(info: PipelineInfo, stage: StageFlags, binary: Binary): (r: Run<PipelineInfo>)
    ensures r.Panics? <==> info.RayTracing?
    ensures r.Panics? ==> r.reason == TODO
    ensures info.ComputeInfo? ==> r == Returns(ComputeInfo(Some(Shader(COMPUTE, binary))))
    ensures info.Graphics? ==> r.Returns? && r.value.Graphics?
  {
    match info
    case Graphics(shaders) => Returns(Graphics(WithShader(shaders, Shader(stage, binary))))
    case ComputeInfo(_) => Returns(ComputeInfo(Some(Shader(COMPUTE, binary))))
    case RayTracing => Panics(TODO)
  }

  /**
   * `reload_pipeline` on a cache: compile, then rebuild the pipeline if
   * the cache has one of that name (an unknown name is skipped without
   * error), and store its new description once creation succeeds.
   */
  function ReloadOutcome(cache: Cache, rl: Reload, tools: Tools): (r: Run<Result<Cache>>)
    ensures r.Returns? && r.value.Ok? ==>
              && r.value.value.Keys == cache.Keys
              && (forall p :: p in cache && p != rl.pipeline ==> r.value.value[p] == cache[p])
    ensures r.Returns? && r.value.Ok? && rl.pipeline !in cache ==> r.value.value == cache
  {
    match CompileHlsl(rl.shader, rl.stage, tools)
    case Panics(m) => Panics(m)
    case Returns(Err(m)) => Returns(Err(m))
    case Returns(Ok(binary)) =>
      if rl.pipeline !in cache then Returns(Ok(cache))
      else match ReloadedInfo(cache[rl.pipeline], rl.stage, binary)
        case Panics(m) => Panics(m)
        case Returns(info) =>
          match tools.create(rl.pipeline, info)
          case Err(m) => Returns(Err(m))
          case Ok(_) => Returns(Ok(cache[rl.pipeline := info]))
  }

  /**
   * A graphics pipeline rebuilt after a reload of `stage` has exactly one
   * shader of that stage, the freshly compiled one, last; its other
   * shaders are the ones it had for other stages.
   */
  lemma GraphicsReloadSwapsStage(cache: Cache, rl: Reload, tools: Tools)
    requires rl.pipeline in cache && cache[rl.pipeline].Graphics?
    requires ReloadOutcome(cache, rl, tools).Returns? && ReloadOutcome(cache, rl, tools).value.Ok?
    ensures var after := ReloadOutcome(cache, rl, tools).value.value[rl.pipeline];
            var binary := CompileHlsl(rl.shader, rl.stage, tools).value.value;
            && after.Graphics? && |after.shaders| > 0
            && after.shaders[|after.shaders| - 1] == Shader(rl.stage, binary)
            && (forall i :: 0 <= i < |after.shaders| - 1 ==> after.shaders[i].stage != rl.stage)
            && (forall x :: x in after.shaders && x.stage != rl.stage ==> x in cache[rl.pipeline].shaders)
  {
  }

  /** `reload_pipeline` as a step on the cache, for runs of reloads. */
  function Step(tools: Tools): (Cache, Reload) -> Run<Result<Cache>> {
    (c: Cache, rl: Reload) => ReloadOutcome(c, rl, tools)
  }

  /** The paths `keep` accepts, in order. */
  function Filter(paths: seq<string>, keep: string -> bool): (r: seq<string>)
    ensures |r| <= |paths|
    decreases |paths|
  {
    if paths == [] then []
    else
      var last := paths[|paths| - 1];
      Filter(paths[..|paths| - 1], keep) + (if keep(last) then [last] else [])
  }

  /** `Filter` keeps exactly the paths `keep` accepts. */
  lemma {:induction false} FilterMembers(paths: seq<string>, keep: string -> bool, p: string)
    ensures p in Filter(paths, keep) <==> p in paths && keep(p)
    decreases |paths|
  {
    if paths != [] {
      var init := paths[..|paths| - 1];
      FilterMembers(init, keep, p);
      assert paths == init + [paths[|paths| - 1]];
    }
  }

  /** What a prefix of the paths keeps is a prefix of what all of them keep. */
  lemma {:induction false} FilterPrefix(paths: seq<string>, keep: string -> bool, i: nat)
    requires i <= |paths|
    ensures Filter(paths[..i], keep) <= Filter(paths, keep)
    decreases |paths|
  {
    if i < |paths| {
      var init := paths[..|paths| - 1];
      FilterPrefix(init, keep, i);
      assert init[..i] == paths[..i];
    } else {
      assert paths[..i] == paths;
    }
  }

  /** After `i` turns, the paths refreshed so far lie between none and all of those `keep` accepts. */
  lemma FilterBounds(f0: seq<string>, paths: seq<string>, keep: string -> bool, i: nat)
    requires i <= |paths|
    ensures f0 <= f0 + Filter(paths[..i], keep) <= f0 + Filter(paths, keep)
    ensures i == |paths| ==> f0 + Filter(paths[..i], keep) == f0 + Filter(paths, keep)
  {
    FilterPrefix(paths, keep, i);
    PrefixAfter(f0, Filter(paths[..i], keep), Filter(paths, keep));
    assert paths[..|paths|] == paths;
  }

  /** A prefix stays a prefix behind a common start. */
  lemma PrefixAfter(c: seq<string>, a: seq<string>, b: seq<string>)
    requires a <= b
    ensures c + a <= c + b
  {
    assert (c + b)[..|c + a|] == c + a;
  }

  lemma AppendAssociates<T>(a: seq<T>, b: seq<T>, c: seq<T>)
    ensures a + b + c == a + (b + c)
  {
  }

  /** A path with extension `hlsl`. */
  predicate IsHlslPath(p: string) {
    ExtensionOrEmpty(p) == "hlsl"
  }

  /** The paths of an event that `handle_file_event` refreshes: exactly those with extension `hlsl`, in order. */
  function HlslPaths(paths: seq<string>): (r: seq<string>)
    ensures forall p :: p in r <==> p in paths && ExtensionOrEmpty(p) == "hlsl"
  {
    var r := Filter(paths, IsHlslPath);
    assert forall p :: p in r <==> p in paths && IsHlslPath(p) by {
      forall p ensures p in r <==> p in paths && IsHlslPath(p) {
        FilterMembers(paths, IsHlslPath, p);
      }
    }
    r
  }

  /** Every reload of a file's plan is scheduled for that file. */
  lemma PlanScheduled(shaders: map<string, ShaderInfo>, k: string, n: nat)
    requires k in shaders && n <= |shaders[k].pipelines|
    ensures forall rl :: rl in PlanFor(k, shaders[k])[..n] ==> Scheduled(shaders, rl)
  {
    var plan := PlanFor(k, shaders[k]);
    forall rl | rl in plan[..n] ensures Scheduled(shaders, rl) {
      var i :| 0 <= i < n && plan[..n][i] == rl;
      assert rl == Reload(k, shaders[k].pipelines[i], shaders[k].stage);
    }
  }

  /** A file's plan reloads every pipeline registered for it. */
  lemma PlanCovers(shaders: map<string, ShaderInfo>, k: string)
    requires k in shaders
    ensures forall p :: p in shaders[k].pipelines ==> Reload(k, p, shaders[k].stage) in PlanFor(k, shaders[k])
  {
    var plan := PlanFor(k, shaders[k]);
    forall p | p in shaders[k].pipelines ensures Reload(k, p, shaders[k].stage) in plan {
      var i :| 0 <= i < |shaders[k].pipelines| && shaders[k].pipelines[i] == p;
      assert plan[i] == Reload(k, p, shaders[k].stage);
    }
  }

  /** Every reload in `done` is one the watch list schedules. */
  predicate AllScheduled(shaders: map<string, ShaderInfo>, done: seq<Reload>) {
    forall rl :: rl in done ==> Scheduled(shaders, rl)
  }

  /** Every pipeline registered for a file in `keys` was reloaded in `done`. */
  predicate Covered(shaders: map<string, ShaderInfo>, keys: set<string>, done: seq<Reload>) {
    forall k, p :: k in keys && k in shaders && p in shaders[k].pipelines ==> Reload(k, p, shaders[k].stage) in done
  }

  lemma {:induction false} ScheduledAppend(shaders: map<string, ShaderInfo>, done: seq<Reload>, more: seq<Reload>)
    requires AllScheduled(shaders, done) && AllScheduled(shaders, more)
    ensures AllScheduled(shaders, done + more)
  {
    forall rl | rl in done + more ensures Scheduled(shaders, rl) {
      assert rl in done || rl in more;
    }
  }

  lemma {:induction false} CoveredAppend(shaders: map<string, ShaderInfo>, keys: set<string>, k: string,
                                         done: seq<Reload>, more: seq<Reload>)
    requires k in shaders && Covered(shaders, keys, done)
    requires forall p :: p in shaders[k].pipelines ==> Reload(k, p, shaders[k].stage) in more
    ensures Covered(shaders, keys + {k}, done + more)
  {
    forall k', p | k' in keys + {k} && k' in shaders && p in shaders[k'].pipelines
      ensures Reload(k', p, shaders[k'].stage) in done + more
    {
      if k' == k {
        assert Reload(k', p, shaders[k'].stage) in more;
      } else {
        assert Reload(k', p, shaders[k'].stage) in done;
      }
    }
  }

  class ShaderReload {
    /** The watch list, keyed by canonical path. */
    var shaders: map<string, ShaderInfo>
    var pipelines: Cache
    /** The errors `safe_unwrap` logged, in order. */
    var logged: seq<string>
    /** Every `reload_pipeline` call, in order. */
    ghost var reloads: seq<Reload>
    /** Every `reload_file` call, in order. */
    ghost var refreshed: seq<string>
    const tools: Tools

    /** `new`: an empty watch list over the given cache (the watcher task is not modelled). */
    constructor (pipelines: Cache, tools: Tools)
      ensures this.pipelines == pipelines && this.tools == tools
      ensures shaders == map[] && logged == [] && reloads == [] && refreshed == []
    {
      this.pipelines := pipelines;
      this.tools := tools;
      shaders := map[];
      logged := [];
      reloads := [];
      refreshed := [];
    }

    /** `reload_pipeline`: one reload, recorded, applied to the cache. */
    method ReloadPipeline(shader: string, pipeline: string, stage: StageFlags) returns (r: Run<Result<Unit>>)
      modifies this`pipelines, this`reloads
      ensures reloads == old(reloads) + [Reload(shader, pipeline, stage)]
      ensures r == Status(Step(tools)(old(pipelines), Reload(shader, pipeline, stage)))
      ensures pipelines == After(old(pipelines), Reload(shader, pipeline, stage), Step(tools))
    {
      reloads := reloads + [Reload(shader, pipeline, stage)];
      var binary := CompileHlsl(shader, stage, tools);
      if binary.Panics? {
        return Panics(binary.reason);
      }
      if binary.value.Err? {
        return Returns(Err(binary.value.message));
      }
      if pipeline !in pipelines {
        return Returns(Ok(Unit));
      }
      var info := ReloadedInfo(pipelines[pipeline], stage, binary.value.value);
      if info.Panics? {
        return Panics(info.reason);
      }
      var created := tools.create(pipeline, info.value);
      if created.Err? {
        return Returns(Err(created.message));
      }
      pipelines := pipelines[pipeline := info.value];
      r := Returns(Ok(Unit));
    }

    /**
     * The loop `for pipeline in &info.pipelines { reload_pipeline(..)? }`:
     * the first `n` reloads of `plan` ran, all of them when none failed,
     * and the run stopped at the first failure.
     */
    method RunReloads(plan: seq<Reload>) returns (r: Run<Result<Unit>>, ghost n: nat)
      modifies this`pipelines, this`reloads
      ensures n <= |plan| && reloads == old(reloads) + plan[..n]
      ensures pipelines == Replay(old(pipelines), plan[..n], Step(tools))
      ensures r == Attempt(old(pipelines), plan[..n], Step(tools))
      ensures StopsAtFailure(old(pipelines), plan[..n], Step(tools))
      ensures r == Returns(Ok(Unit)) ==> n == |plan|
    {
      r := Returns(Ok(Unit));
      var i := 0;
      ghost var done: seq<Reload> := [];
      while i < |plan| && r == Returns(Ok(Unit))
        invariant 0 <= i <= |plan| && done == plan[..i]
        invariant reloads == old(reloads) + done
        invariant pipelines == Replay(old(pipelines), done, Step(tools))
        invariant r == Attempt(old(pipelines), done, Step(tools))
        invariant StopsAtFailure(old(pipelines), done, Step(tools))
      {
        r := ReloadStep(plan[i], old(pipelines), old(reloads), done);
        TakeSnoc(plan, i);
        done := done + [plan[i]];
        i := i + 1;
      }
      n := i;
    }

    /** One reload of the loop of `RunReloads`, after the reloads `done` all succeeded. */
    method ReloadStep(rl: Reload, ghost initial: Cache, ghost start: seq<Reload>, ghost done: seq<Reload>)
      returns (r: Run<Result<Unit>>)
      requires reloads == start + done && pipelines == Replay(initial, done, Step(tools))
      requires Attempt(initial, done, Step(tools)) == Returns(Ok(Unit))
      modifies this`pipelines, this`reloads
      ensures reloads == start + (done + [rl])
      ensures pipelines == Replay(initial, done + [rl], Step(tools))
      ensures r == Attempt(initial, done + [rl], Step(tools))
      ensures StopsAtFailure(initial, done + [rl], Step(tools))
    {
      RunSnoc(initial, done, rl, Step(tools));
      r := ReloadPipeline(rl.shader, rl.pipeline, rl.stage);
    }

    /**
     * `reload_file`. A path under the include directory reloads every
     * pipeline of every watched file, in the map's unspecified order. Any
     * other path: a temporary `~` file is ignored, an unwatched one is an
     * error, and a watched one reloads its pipelines in list order. In
     * both cases the first failing reload ends the call. The file name is
     * unwrapped for the log first, so a path without one panics.
     */
    method ReloadFile(path: string) returns (r: Run<Result<Unit>>)
      modifies this`pipelines, this`reloads, this`refreshed
      ensures refreshed == old(refreshed) + [path]
      ensures |reloads| >= |old(reloads)| && reloads[..|old(reloads)|] == old(reloads)
      ensures pipelines == Replay(old(pipelines), reloads[|old(reloads)|..], Step(tools))
      ensures reloads != old(reloads) ==>
                && r == Attempt(old(pipelines), reloads[|old(reloads)|..], Step(tools))
                && StopsAtFailure(old(pipelines), reloads[|old(reloads)|..], Step(tools))
      ensures FileName(path).None? ==> r == Panics(UNWRAP_NONE) && reloads == old(reloads)
      ensures FileName(path).Some? && !Contains(path, INCLUDE_DIR) ==>
                var name := FileName(path).value;
                && (IsTemporary(name) ==> r == Returns(Ok(Unit)) && reloads == old(reloads))
                && (!IsTemporary(name) && path !in shaders ==> r == Returns(Err(NotInWatchlist(name))) && reloads == old(reloads))
                && (!IsTemporary(name) && path in shaders ==>
                      && reloads[|old(reloads)|..] <= PlanFor(path, shaders[path])
                      && (r == Returns(Ok(Unit)) ==> reloads[|old(reloads)|..] == PlanFor(path, shaders[path])))
      ensures FileName(path).Some? && Contains(path, INCLUDE_DIR) ==>
                && (forall rl :: rl in reloads[|old(reloads)|..] ==> Scheduled(shaders, rl))
                && (r == Returns(Ok(Unit)) ==>
                      forall k, p :: k in shaders && p in shaders[k].pipelines ==>
                        Reload(k, p, shaders[k].stage) in reloads[|old(reloads)|..])
    {
      refreshed := refreshed + [path];
      assert reloads[|reloads|..] == [];
      var name := FileName(path);
      if Contains(path, INCLUDE_DIR) {
        if name.None? {
          return Panics(UNWRAP_NONE);
        }
        r := ReloadAll();
        return;
      }
      if name.None? {
        return Panics(UNWRAP_NONE);
      }
      if IsTemporary(name.value) {
        return Returns(Ok(Unit));
      }
      if path !in shaders {
        return Returns(Err(NotInWatchlist(name.value)));
      }
      ghost var done;
      r, done := ReloadWatched(path);
    }

    /**
     * The include branch of `reload_file`: for every watched file, every
     * pipeline built from it, until the first failure.
     */
    method ReloadAll() returns (r: Run<Result<Unit>>)
      modifies this`pipelines, this`reloads
      ensures |reloads| >= |old(reloads)| && reloads[..|old(reloads)|] == old(reloads)
      ensures var done := reloads[|old(reloads)|..];
              && pipelines == Replay(old(pipelines), done, Step(tools))
              && r == Attempt(old(pipelines), done, Step(tools))
              && StopsAtFailure(old(pipelines), done, Step(tools))
              && AllScheduled(shaders, done)
              && (r == Returns(Ok(Unit)) ==> Covered(shaders, shaders.Keys, done))
    {
      var todo := shaders.Keys;
      ghost var done: seq<Reload> := [];
      ghost var start := reloads;
      while todo != {}
        invariant todo <= shaders.Keys
        invariant reloads == start + done
        invariant pipelines == Replay(old(pipelines), done, Step(tools))
        invariant Attempt(old(pipelines), done, Step(tools)) == Returns(Ok(Unit))
        invariant AllScheduled(shaders, done)
        invariant Covered(shaders, shaders.Keys - todo, done)
        decreases todo
      {
        var k :| k in todo;
        r, done := ReloadNext(k, old(pipelines), start, done, shaders.Keys - todo);
        if r != Returns(Ok(Unit)) {
          assert reloads[|start|..] == done;
          return;
        }
        assert shaders.Keys - (todo - {k}) == (shaders.Keys - todo) + {k};
        todo := todo - {k};
      }
      assert reloads[|start|..] == done;
      assert shaders.Keys - todo == shaders.Keys;
      r := Returns(Ok(Unit));
    }

    /**
     * One turn of `reload_all`: the watched file `k` after the reloads in
     * `done`, which all succeeded from `initial`.
     */
    method ReloadNext(k: string, ghost initial: Cache, ghost start: seq<Reload>, ghost done: seq<Reload>,
                      ghost keys: set<string>)
      returns (r: Run<Result<Unit>>, ghost done': seq<Reload>)
      requires k in shaders
      requires reloads == start + done
      requires pipelines == Replay(initial, done, Step(tools))
      requires Attempt(initial, done, Step(tools)) == Returns(Ok(Unit))
      requires AllScheduled(shaders, done) && Covered(shaders, keys, done)
      modifies this`pipelines, this`reloads
      ensures reloads == start + done' && done <= done'
      ensures pipelines == Replay(initial, done', Step(tools))
      ensures r == Attempt(initial, done', Step(tools))
      ensures StopsAtFailure(initial, done', Step(tools))
      ensures AllScheduled(shaders, done')
      ensures r == Returns(Ok(Unit)) ==> Covered(shaders, keys + {k}, done')
    {
      ghost var more;
      r, more := ReloadWatched(k);
      RunExtends(initial, done, more, Step(tools));
      ScheduledAppend(shaders, done, more);
      if r == Returns(Ok(Unit)) {
        CoveredAppend(shaders, keys, k, done, more);
      }
      AppendAssociates(start, done, more);
      done' := done + more;
    }

    /**
     * `for pipeline in &info.pipelines { reload_pipeline(..)? }` for the
     * watched file `path`: its pipelines in list order, until the first
     * failure.
     */
    method ReloadWatched(path: string) returns (r: Run<Result<Unit>>, ghost done: seq<Reload>)
      requires path in shaders
      modifies this`pipelines, this`reloads
      ensures reloads == old(reloads) + done && done <= PlanFor(path, shaders[path])
      ensures pipelines == Replay(old(pipelines), done, Step(tools))
      ensures r == Attempt(old(pipelines), done, Step(tools))
      ensures StopsAtFailure(old(pipelines), done, Step(tools))
      ensures AllScheduled(shaders, done)
      ensures r == Returns(Ok(Unit)) ==>
                done == PlanFor(path, shaders[path])
                && forall p :: p in shaders[path].pipelines ==> Reload(path, p, shaders[path].stage) in done
    {
      var plan := PlanFor(path, shaders[path]);
      ghost var n;
      r, n := RunReloads(plan);
      done := plan[..n];
      PlanScheduled(shaders, path, n);
      if r == Returns(Ok(Unit)) {
        PlanCovers(shaders, path);
        assert done == plan;
      }
    }

    /**
     * `handle_file_event`: for a modification, `reload_file` on each path
     * with extension `hlsl`, in order; an error is logged and the next
     * path is tried. Other events do nothing.
     */
    method HandleFileEvent(event: FileEvent) returns (r: Run<Unit>)
      modifies this`pipelines, this`reloads, this`refreshed, this`logged
      ensures event.kind != Modify ==>
                && r == Returns(Unit) && pipelines == old(pipelines) && reloads == old(reloads)
                && refreshed == old(refreshed) && logged == old(logged)
      ensures event.kind == Modify ==> old(refreshed) <= refreshed <= old(refreshed) + HlslPaths(event.paths)
      ensures event.kind == Modify && r.Returns? ==> refreshed == old(refreshed) + HlslPaths(event.paths)
      ensures old(reloads) <= reloads && pipelines == Replay(old(pipelines), reloads[|old(reloads)|..], Step(tools))
      ensures old(logged) <= logged
    {
      if event.kind != Modify {
        return Returns(Unit);
      }
      r := RefreshWhere(event.paths, IsHlslPath);
    }

    /**
     * The loop of `handle_file_event`: `reload_file` on each path `keep`
     * accepts, in order, logging an error and going on to the next path.
     */
    method RefreshWhere(paths: seq<string>, keep: string -> bool) returns (r: Run<Unit>)
      modifies this`pipelines, this`reloads, this`refreshed, this`logged
      ensures old(refreshed) <= refreshed <= old(refreshed) + Filter(paths, keep)
      ensures r.Returns? ==> refreshed == old(refreshed) + Filter(paths, keep)
      ensures old(reloads) <= reloads && pipelines == Replay(old(pipelines), reloads[|old(reloads)|..], Step(tools))
      ensures old(logged) <= logged
    {
      var i := 0;
      r := Returns(Unit);
      assert reloads[|old(reloads)|..] == [];
      while i < |paths| && r.Returns?
        invariant 0 <= i <= |paths|
        invariant refreshed == old(refreshed) + Filter(paths[..i], keep)
        invariant old(reloads) <= reloads && pipelines == Replay(old(pipelines), reloads[|old(reloads)|..], Step(tools))
        invariant old(logged) <= logged
      {
        r := RefreshNext(paths, keep, i, old(pipelines), old(reloads), old(refreshed), old(logged));
        i := i + 1;
      }
      FilterBounds(old(refreshed), paths, keep, i);
    }

    /** Turn `i` of the loop of `handle_file_event`, in terms of the state the loop started from. */
    method RefreshNext(paths: seq<string>, keep: string -> bool, i: nat, ghost c0: Cache, ghost r0: seq<Reload>,
                       ghost f0: seq<string>, ghost l0: seq<string>)
      returns (r: Run<Unit>)
      requires i < |paths| && refreshed == f0 + Filter(paths[..i], keep)
      requires r0 <= reloads && pipelines == Replay(c0, reloads[|r0|..], Step(tools))
      requires l0 <= logged
      modifies this`pipelines, this`reloads, this`refreshed, this`logged
      ensures refreshed == f0 + Filter(paths[..i + 1], keep)
      ensures r0 <= reloads && pipelines == Replay(c0, reloads[|r0|..], Step(tools))
      ensures l0 <= logged
    {
      TakeSnoc(paths, i);
      ghost var before := reloads;
      r := RefreshIf(paths[i], keep);
      ReplayChain(c0, r0, before, reloads, Step(tools));
    }

    /** One turn of the loop of `handle_file_event`. */
    method RefreshIf(path: string, keep: string -> bool) returns (r: Run<Unit>)
      modifies this`pipelines, this`reloads, this`refreshed, this`logged
      ensures refreshed == old(refreshed) + (if keep(path) then [path] else [])
      ensures old(reloads) <= reloads && pipelines == Replay(old(pipelines), reloads[|old(reloads)|..], Step(tools))
      ensures old(logged) <= logged
    {
      r := Returns(Unit);
      if !keep(path) {
        assert reloads[|old(reloads)|..] == [];
        return;
      }
      var reloaded := ReloadFile(path);
      if reloaded.Panics? {
        r := Panics(reloaded.reason);
      } else if reloaded.value.Err? {
        logged := logged + [reloaded.value.message];
      }
    }

    /**
     * `add_shader` (and `handle_add_shader`, which calls it): watch the
     * canonical path for the pipeline, then reload the pipeline from the
     * path as given, logging a failure. A path that cannot be
     * canonicalised panics on `unwrap` before anything changes.
     */
    method AddShader(path: string, stage: StageFlags, pipeline: string) returns (r: Run<Unit>)
      modifies this`shaders, this`pipelines, this`reloads, this`logged
      ensures tools.canonicalize(path).Err? ==>
                && r == Panics(UnwrapErr(tools.canonicalize(path).message))
                && shaders == old(shaders) && pipelines == old(pipelines) && reloads == old(reloads) && logged == old(logged)
      ensures tools.canonicalize(path).Ok? ==>
                var rl := Reload(path, pipeline, stage);
                var status := Status(Step(tools)(old(pipelines), rl));
                && shaders == AddPipeline(old(shaders), tools.canonicalize(path).value, stage, pipeline)
                && reloads == old(reloads) + [rl]
                && pipelines == After(old(pipelines), rl, Step(tools))
                && (r.Panics? <==> status.Panics?)
                && logged == old(logged) + (if status.Returns? && status.value.Err? then [status.value.message] else [])
    {
      var key := tools.canonicalize(path);
      if key.Err? {
        return Panics(UnwrapErr(key.message));
      }
      shaders := AddPipeline(shaders, key.value, stage, pipeline);
      var reloaded := ReloadPipeline(path, pipeline, stage);
      if reloaded.Panics? {
        return Panics(reloaded.reason);
      }
      if reloaded.value.Err? {
        logged := logged + [reloaded.value.message];
      }
      r := Returns(Unit);
    }
  }
}
