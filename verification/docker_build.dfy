/**
 * The image-build step executor: the job's workspace becomes a Docker build
 * context holding the rendered Dockerfile, the image is built under its
 * target tag and, if asked for, pushed. Every Docker call is an outcome
 * supplied by the caller; the disk is modelled as in `BuildContext`.
 */
module DockerBuild {
  import opened Wrappers
  import opened Errors
  import opened Api
  import Define
  import BC = BuildContext

  // -------------------------------------------------------------- rendering

  /** `renderCfg`: with rendering on, the base image, the target image and the Dockerfile are rendered. */
  function RenderCfg(flow: Flow, env: Define.Env): (r: Flow)
    requires flow.noEnvRender || flow.dockerBuildCfg.Some?
    ensures flow.noEnvRender ==> r == flow
    ensures r.dockerBuildCfg.Some? <==> flow.dockerBuildCfg.Some?
    ensures r.(dockerBuildCfg := flow.dockerBuildCfg) == flow
    ensures r.dockerBuildCfg.Some? ==> r.dockerBuildCfg.value.pushAfterBuild == flow.dockerBuildCfg.value.pushAfterBuild
  {
    if flow.noEnvRender then flow
    else
      var cfg := flow.dockerBuildCfg.value;
      flow.(dockerBuildCfg := Some(cfg.(baseImage := Define.RenderByEnv(env, cfg.baseImage),
                                        targetImage := Define.RenderByEnv(env, cfg.targetImage),
                                        dockerfile := Define.RenderByEnv(env, cfg.dockerfile))))
  }

  /** With rendering on, each rendered field is the field with its placeholders expanded. */
  lemma RenderCfgFields(flow: Flow, env: Define.Env)
    requires !flow.noEnvRender && flow.dockerBuildCfg.Some?
    ensures var cfg := flow.dockerBuildCfg.value;
      var out := RenderCfg(flow, env).dockerBuildCfg.value;
      out.baseImage == Define.Expand(env, Define.Segments(cfg.baseImage))
      && out.targetImage == Define.Expand(env, Define.Segments(cfg.targetImage))
      && out.dockerfile == Define.Expand(env, Define.Segments(cfg.dockerfile))
  {
    var cfg := flow.dockerBuildCfg.value;
    Define.RenderIsExpand(env, cfg.baseImage);
    Define.RenderIsExpand(env, cfg.targetImage);
    Define.RenderIsExpand(env, cfg.dockerfile);
  }

  /** Rendering with an empty environment changes nothing. */
  lemma RenderCfgEmptyEnv(flow: Flow)
    requires flow.dockerBuildCfg.Some?
    ensures RenderCfg(flow, map[]) == flow
  {
  }

  // -------------------------------------------------------------------- Run

  /** The files of a directory as the tar stream sent to the daemon carries them. */
  function TarOf(files: map<string, string>, dir: string): (r: map<string, string>)
    ensures forall p :: p in r <==> p in files && BC.Under(p, dir)
    ensures forall p :: p in r ==> r[p] == files[p]
  {
    map p | p in files && BC.Under(p, dir) :: files[p]
  }

  /** The calls a build step makes after its context exists. */
  datatype Action =
    | BuildImage(context: map<string, string>, tags: seq<string>)
    | PushImage(image: string)
    | CloseContext(dir: string)

  /** The outcomes of the outside world, in the order they are asked for. */
  datatype DockerWorld = DockerWorld(
    temp: Result<string, Error>,
    disk: BC.Disk,
    tarErr: Option<Error>,
    buildErr: Option<Error>,
    copyErr: Option<Error>,
    pushErr: Option<Error>)

  /** The step's result, its configuration as rendered, the calls made and the disk as left. */
  datatype BuildRun = BuildRun(flow: Flow, result: RunResult, actions: seq<Action>, disk: BC.Disk)

  /** The stages after the tar stream is open: build, copy the build log, and push if asked for. */
  function AfterTar(cfg: DockerBuildCfg, context: map<string, string>, w: DockerWorld): (r: (Option<Error>, seq<Action>))
    ensures 1 <= |r.1| <= 2 && r.1[0] == BuildImage(context, [cfg.targetImage])
    ensures r.0.None? <==> w.buildErr.None? && w.copyErr.None? && (!cfg.pushAfterBuild || w.pushErr.None?)
    ensures |r.1| == 2 <==> cfg.pushAfterBuild && w.buildErr.None? && w.copyErr.None?
    ensures |r.1| == 2 ==> r.1[1] == PushImage(cfg.targetImage)
  {
    var build := BuildImage(context, [cfg.targetImage]);
    if w.buildErr.Some? then (Some(Wrap(w.buildErr.value, "docker构建请求出错")), [build])
    else if w.copyErr.Some? then (Some(Wrap(w.copyErr.value, "docker build日志io copy失败")), [build])
    else if !cfg.pushAfterBuild then (None, [build])
    else (WrapOpt(w.pushErr, "docker image push 出错"), [build, PushImage(cfg.targetImage)])
  }

  /**
   * `Runner.Run` for an image build. A nil build configuration panics. The
   * context is the workspace itself with the rendered Dockerfile written
   * into it; once it exists, it is closed on every path, which removes the
   * workspace.
   */
  function Run(workDir: string, flow: Flow, env: Define.Env, w: DockerWorld): (r: BuildRun)
    ensures flow.dockerBuildCfg.None? ==> r == BuildRun(flow, Panicked(NilDereference), [], w.disk)
    ensures flow.dockerBuildCfg.Some? ==> r.flow == RenderCfg(flow, env) && r.result.Returned?
  {
    if flow.dockerBuildCfg.None? then BuildRun(flow, Panicked(NilDereference), [], w.disk)
    else
      var f := RenderCfg(flow, env);
      var cfg := f.dockerBuildCfg.value;
      var made := BC.New(workDir, w.temp, [BC.WithDockerfile(cfg.dockerfile)], w.disk);
      match made.ctx
      case Err(e) => BuildRun(f, Returned(Some(Wrap(e, "docker build context创建失败"))), [], made.disk)
      case Ok(c) =>
        var closed := BC.Close(c, made.disk);
        if w.tarErr.Some? then
          BuildRun(f, Returned(Some(Wrap(w.tarErr.value, "docker build tar reader创建失败"))), [CloseContext(c.dir)], closed)
        else
          var rest := AfterTar(cfg, TarOf(made.disk.files, c.dir), w);
          BuildRun(f, Returned(rest.0), rest.1 + [CloseContext(c.dir)], closed)
  }

  // --------------------------------------------------------- Run properties

  /** The directory the context is made in: the workspace, or a temporary one when it is empty. */
  function ContextDir(workDir: string, w: DockerWorld): string
    requires workDir != "" || w.temp.Ok?
  {
    if workDir != "" then workDir else w.temp.value
  }

  /** Whether writing the Dockerfile into the context fails. */
  predicate DockerfileFails(workDir: string, w: DockerWorld)
    requires workDir != "" || w.temp.Ok?
  {
    BC.Join(ContextDir(workDir, w), BC.DockerfileName) in w.disk.writeFaults
  }

  /** Whether the build context gets created. */
  predicate ContextMade(workDir: string, w: DockerWorld) {
    (workDir != "" || w.temp.Ok?) && !DockerfileFails(workDir, w)
  }

  /** The context made for a step: the Dockerfile written into the context directory. */
  lemma NewContext(workDir: string, content: string, w: DockerWorld)
    requires ContextMade(workDir, w)
    ensures var c := BC.Context(ContextDir(workDir, w));
      BC.New(workDir, w.temp, [BC.WithDockerfile(content)], w.disk)
        == BC.Made(Ok(c), BC.Add(c, BC.DockerfileName, content, w.disk).0)
  {
    var c := BC.Context(ContextDir(workDir, w));
    assert BC.ApplyAll(c, [BC.WithDockerfile(content)], w.disk) == BC.Apply(c, BC.WithDockerfile(content), w.disk);
  }

  /** A step whose context is made and whose tar stream opens runs the later stages on that context. */
  lemma RunAfterTar(workDir: string, flow: Flow, env: Define.Env, w: DockerWorld)
    requires flow.dockerBuildCfg.Some? && ContextMade(workDir, w) && w.tarErr.None?
    ensures var cfg := RenderCfg(flow, env).dockerBuildCfg.value;
      var c := BC.Context(ContextDir(workDir, w));
      var disk := BC.Add(c, BC.DockerfileName, cfg.dockerfile, w.disk).0;
      var rest := AfterTar(cfg, TarOf(disk.files, c.dir), w);
      Run(workDir, flow, env, w) == BuildRun(RenderCfg(flow, env), Returned(rest.0), rest.1 + [CloseContext(c.dir)], BC.Close(c, disk))
  {
    NewContext(workDir, RenderCfg(flow, env).dockerBuildCfg.value.dockerfile, w);
  }

  /** When the context cannot be made, no Docker call is made and nothing is removed. */
  lemma ContextFailure(workDir: string, flow: Flow, env: Define.Env, w: DockerWorld)
    requires flow.dockerBuildCfg.Some? && !ContextMade(workDir, w)
    ensures var r := Run(workDir, flow, env, w);
      r.actions == [] && r.disk == w.disk && r.result.err.Some?
      && r.result.err.value.msg[..|"docker build context创建失败"|] == "docker build context创建失败"
  {
    var cfg := RenderCfg(flow, env).dockerBuildCfg.value;
    if workDir != "" || w.temp.Ok? {
      var c := BC.Context(ContextDir(workDir, w));
      assert BC.ApplyAll(c, [BC.WithDockerfile(cfg.dockerfile)], w.disk) == BC.Apply(c, BC.WithDockerfile(cfg.dockerfile), w.disk);
    }
  }

  /** Once made, the context is closed last, and afterwards nothing is left in its directory. */
  lemma ContextClosed(workDir: string, flow: Flow, env: Define.Env, w: DockerWorld)
    requires flow.dockerBuildCfg.Some? && ContextMade(workDir, w)
    ensures var r := Run(workDir, flow, env, w);
      |r.actions| > 0 && r.actions[|r.actions| - 1] == CloseContext(ContextDir(workDir, w))
      && (forall k :: 0 <= k < |r.actions| - 1 ==> !r.actions[k].CloseContext?)
      && (forall p :: p in r.disk.files ==> !BC.Under(p, ContextDir(workDir, w)))
      && (forall p :: p in w.disk.files && !BC.Under(p, ContextDir(workDir, w)) ==> p in r.disk.files && r.disk.files[p] == w.disk.files[p])
  {
    var cfg := RenderCfg(flow, env).dockerBuildCfg.value;
    var c := BC.Context(ContextDir(workDir, w));
    RunMadeShape(workDir, flow, env, w);
    CloseAfterAdd(c, cfg.dockerfile, w.disk);
  }

  /** Once made, the context's close is the last call and the disk as left is the closed one. */
  lemma RunMadeShape(workDir: string, flow: Flow, env: Define.Env, w: DockerWorld)
    requires flow.dockerBuildCfg.Some? && ContextMade(workDir, w)
    ensures var c := BC.Context(ContextDir(workDir, w));
      var r := Run(workDir, flow, env, w);
      r.disk == BC.Close(c, BC.Add(c, BC.DockerfileName, RenderCfg(flow, env).dockerBuildCfg.value.dockerfile, w.disk).0)
      && |r.actions| > 0 && r.actions[|r.actions| - 1] == CloseContext(c.dir)
      && (forall k :: 0 <= k < |r.actions| - 1 ==> !r.actions[k].CloseContext?)
  {
    if w.tarErr.Some? {
      RunTarFails(workDir, flow, env, w);
    } else {
      var cfg := RenderCfg(flow, env).dockerBuildCfg.value;
      var c := BC.Context(ContextDir(workDir, w));
      var disk := BC.Add(c, BC.DockerfileName, cfg.dockerfile, w.disk).0;
      RunAfterTar(workDir, flow, env, w);
      CloseLast(AfterTar(cfg, TarOf(disk.files, c.dir), w).1, c.dir);
    }
  }

  /** A step whose context is made but whose tar stream fails only closes the context. */
  lemma RunTarFails(workDir: string, flow: Flow, env: Define.Env, w: DockerWorld)
    requires flow.dockerBuildCfg.Some? && ContextMade(workDir, w) && w.tarErr.Some?
    ensures var cfg := RenderCfg(flow, env).dockerBuildCfg.value;
      var c := BC.Context(ContextDir(workDir, w));
      var disk := BC.Add(c, BC.DockerfileName, cfg.dockerfile, w.disk).0;
      Run(workDir, flow, env, w)
        == BuildRun(RenderCfg(flow, env), Returned(Some(Wrap(w.tarErr.value, "docker build tar reader创建失败"))), [CloseContext(c.dir)], BC.Close(c, disk))
  {
    NewContext(workDir, RenderCfg(flow, env).dockerBuildCfg.value.dockerfile, w);
  }

  /** Calls made before the close, followed by the close. */
  lemma CloseLast(before: seq<Action>, dir: string)
    requires forall k :: 0 <= k < |before| ==> !before[k].CloseContext?
    ensures var acts := before + [CloseContext(dir)];
      acts[|acts| - 1] == CloseContext(dir) && forall k :: 0 <= k < |acts| - 1 ==> !acts[k].CloseContext?
  {
  }

  /** Closing a context the Dockerfile was written into leaves nothing below it and every other file as it was. */
  lemma CloseAfterAdd(c: BC.Context, content: string, d: BC.Disk)
    ensures var after := BC.Close(c, BC.Add(c, BC.DockerfileName, content, d).0);
      (forall p :: p in after.files ==> !BC.Under(p, c.dir))
      && (forall p :: p in d.files && !BC.Under(p, c.dir) ==> p in after.files && after.files[p] == d.files[p])
  {
    BC.JoinUnder(c.dir, BC.DockerfileName);
  }

  /**
   * A build, when requested, is tagged with exactly the rendered target image
   * and is sent the whole context directory, whose Dockerfile holds the
   * rendered content.
   */
  lemma BuildRequest(workDir: string, flow: Flow, env: Define.Env, w: DockerWorld)
    requires flow.dockerBuildCfg.Some? && ContextMade(workDir, w) && w.tarErr.None?
    ensures var cfg := RenderCfg(flow, env).dockerBuildCfg.value;
      var r := Run(workDir, flow, env, w);
      var path := BC.Join(ContextDir(workDir, w), BC.DockerfileName);
      |r.actions| > 0 && r.actions[0].BuildImage? && r.actions[0].tags == [cfg.targetImage]
      && path in r.actions[0].context && r.actions[0].context[path] == cfg.dockerfile
      && (forall p :: p in w.disk.files && BC.Under(p, ContextDir(workDir, w)) && p != path ==>
            p in r.actions[0].context && r.actions[0].context[p] == w.disk.files[p])
  {
    var cfg := RenderCfg(flow, env).dockerBuildCfg.value;
    var c := BC.Context(ContextDir(workDir, w));
    var disk := BC.Add(c, BC.DockerfileName, cfg.dockerfile, w.disk).0;
    RunAfterTar(workDir, flow, env, w);
    BC.JoinUnder(c.dir, BC.DockerfileName);
    var rest := AfterTar(cfg, TarOf(disk.files, c.dir), w);
    assert rest.1[0] == BuildImage(TarOf(disk.files, c.dir), [cfg.targetImage]);
    assert Run(workDir, flow, env, w).actions[0] == rest.1[0];
  }

  /** When the tar stream cannot be opened, the only call is the closing of the context. */
  lemma TarFailure(workDir: string, flow: Flow, env: Define.Env, w: DockerWorld)
    requires flow.dockerBuildCfg.Some? && ContextMade(workDir, w) && w.tarErr.Some?
    ensures Run(workDir, flow, env, w).actions == [CloseContext(ContextDir(workDir, w))]
  {
    NewContext(workDir, RenderCfg(flow, env).dockerBuildCfg.value.dockerfile, w);
  }

  /** The later stages push the target image exactly when pushing is asked for and the build and its log copy succeed. */
  lemma AfterTarPushes(cfg: DockerBuildCfg, context: map<string, string>, w: DockerWorld, dir: string)
    ensures var acts := AfterTar(cfg, context, w).1 + [CloseContext(dir)];
      (exists k :: 0 <= k < |acts| && acts[k] == PushImage(cfg.targetImage)) <==>
        cfg.pushAfterBuild && w.buildErr.None? && w.copyErr.None?
  {
    var acts := AfterTar(cfg, context, w).1 + [CloseContext(dir)];
    if cfg.pushAfterBuild && w.buildErr.None? && w.copyErr.None? {
      assert acts[1] == PushImage(cfg.targetImage);
    } else {
      assert forall k :: 0 <= k < |acts| ==> !acts[k].PushImage?;
    }
  }

  /** The image is pushed exactly when pushing is asked for and every earlier stage succeeded. */
  lemma PushIff(workDir: string, flow: Flow, env: Define.Env, w: DockerWorld)
    requires flow.dockerBuildCfg.Some?
    ensures var cfg := RenderCfg(flow, env).dockerBuildCfg.value;
      var acts := Run(workDir, flow, env, w).actions;
      (exists k :: 0 <= k < |acts| && acts[k] == PushImage(cfg.targetImage)) <==>
        cfg.pushAfterBuild && ContextMade(workDir, w)
        && w.tarErr.None? && w.buildErr.None? && w.copyErr.None?
  {
    var cfg := RenderCfg(flow, env).dockerBuildCfg.value;
    if !ContextMade(workDir, w) {
      ContextFailure(workDir, flow, env, w);
    } else if w.tarErr.Some? {
      TarFailure(workDir, flow, env, w);
    } else {
      var c := BC.Context(ContextDir(workDir, w));
      var disk := BC.Add(c, BC.DockerfileName, cfg.dockerfile, w.disk).0;
      RunAfterTar(workDir, flow, env, w);
      AfterTarPushes(cfg, TarOf(disk.files, c.dir), w, c.dir);
    }
  }

  /** The step succeeds exactly when every stage it runs succeeds. */
  lemma RunSucceedsIff(workDir: string, flow: Flow, env: Define.Env, w: DockerWorld)
    requires flow.dockerBuildCfg.Some?
    ensures var cfg := RenderCfg(flow, env).dockerBuildCfg.value;
      Run(workDir, flow, env, w).result == Returned(None) <==>
        ContextMade(workDir, w) && w.tarErr.None? && w.buildErr.None? && w.copyErr.None?
        && (cfg.pushAfterBuild ==> w.pushErr.None?)
  {
    var cfg := RenderCfg(flow, env).dockerBuildCfg.value;
    if ContextMade(workDir, w) {
      var c := BC.Context(ContextDir(workDir, w));
      assert BC.ApplyAll(c, [BC.WithDockerfile(cfg.dockerfile)], w.disk) == BC.Apply(c, BC.WithDockerfile(cfg.dockerfile), w.disk);
    } else {
      ContextFailure(workDir, flow, env, w);
    }
  }
}
