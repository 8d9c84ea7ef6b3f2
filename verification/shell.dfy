/**
 * The shell step executor: the script is written into the job's workspace,
 * the image is pulled according to its policy, and a container runs the
 * script with the workspace mounted. Every Docker and file-system call is an
 * outcome supplied by the caller; the model records the calls made, in order.
 */
module Shell {
  import opened Wrappers
  import opened Errors
  import opened Text
  import opened Api
  import Define

  const WorkDirInContainer := "/code"
  const Shebang := "#!/bin/bash\n"
  const LatestTag := ":latest"

  // --------------------------------------------------------------- the script

  /** `wrapShellScript`: a bash shebang line, the script, and a final newline. */
  function WrapShellScript(script: string): (r: string)
    ensures |r| == |Shebang| + |script| + 1
    ensures r[..|Shebang|] == Shebang
    ensures r[|Shebang|..|r| - 1] == script
    ensures r[|r| - 1] == '\n'
  {
    Shebang + script + "\n"
  }

  /** The wrapped script determines the script. */
  lemma WrapShellScriptInjective(a: string, b: string)
    requires WrapShellScript(a) == WrapShellScript(b)
    ensures a == b
  {
    var w := WrapShellScript(a);
    assert a == w[|Shebang|..|w| - 1];
  }

  function ScriptFileName(uid: string): string {
    "shell-" + uid + ".sh"
  }

  /** Where the script is written: directly in the workspace, under a name that holds the run's uid. */
  function ScriptPath(workDir: string, uid: string): (r: string)
    ensures |r| == |workDir| + 1 + |ScriptFileName(uid)|
    ensures r[..|workDir| + 1] == workDir + "/" && r[|workDir| + 1..] == ScriptFileName(uid)
  {
    workDir + "/" + ScriptFileName(uid)
  }

  function ScriptPathInContainer(uid: string): string {
    WorkDirInContainer + "/" + ScriptFileName(uid)
  }

  /** The script is written beside the workspace's other files and found at the same name under the mount. */
  lemma ScriptPathsAgree(workDir: string, uid: string)
    ensures ScriptPath(workDir, uid)[|workDir|..] == ScriptPathInContainer(uid)[|WorkDirInContainer|..]
  {
  }

  // --------------------------------------------------------------- image tags

  /** The last `/`-separated segment (`strings.Split(s, "/")`'s last element). */
  function LastSegment(s: string): string
    decreases |s|
  {
    if s == [] then []
    else if s[|s| - 1] == '/' then []
    else LastSegment(s[..|s| - 1]) + [s[|s| - 1]]
  }

  /** The last segment is the longest suffix without `/`. */
  lemma {:induction false} LastSegmentIsSuffix(s: string)
    ensures var r := LastSegment(s);
      '/' !in r && |r| <= |s| && r == s[|s| - |r|..]
      && (|r| < |s| ==> s[|s| - |r| - 1] == '/')
    decreases |s|
  {
    if s != [] && s[|s| - 1] != '/' {
      var u := s[..|s| - 1];
      LastSegmentIsSuffix(u);
      var r := LastSegment(u);
      assert LastSegment(s) == r + [s[|s| - 1]];
      assert s[|s| - |r| - 1..] == u[|u| - |r|..] + [s[|s| - 1]];
      if |r| < |u| {
        assert s[|s| - |r| - 2] == u[|u| - |r| - 1];
      }
    }
  }

  /** The reference looked up locally: `:latest` is added when the last segment has no tag. */
  function WithDefaultTag(image: string): (r: string)
    ensures ':' in LastSegment(image) ==> r == image
    ensures ':' !in LastSegment(image) ==> r == image + LatestTag
  {
    if ':' in LastSegment(image) then image else image + LatestTag
  }

  /** Appending text without `/` extends the last segment. */
  lemma {:induction false} LastSegmentAppend(s: string, t: string)
    requires '/' !in t
    ensures LastSegment(s + t) == LastSegment(s) + t
    decreases |t|
  {
    if t != [] {
      var u := t[..|t| - 1];
      assert s + t == (s + u) + [t[|t| - 1]];
      assert (s + t)[..|s + t| - 1] == s + u;
      assert t[|t| - 1] in t;
      LastSegmentAppend(s, u);
      assert LastSegment(s) + u + [t[|t| - 1]] == LastSegment(s) + t;
    } else {
      assert s + t == s;
    }
  }

  /** Normalising twice is normalising once, and a normalised reference always carries a tag. */
  lemma WithDefaultTagIdempotent(image: string)
    ensures ':' in LastSegment(WithDefaultTag(image))
    ensures WithDefaultTag(WithDefaultTag(image)) == WithDefaultTag(image)
  {
    if ':' !in LastSegment(image) {
      LastSegmentAppend(image, LatestTag);
      assert LastSegment(image + LatestTag)[|LastSegment(image)|] == ':';
    }
  }

  // ---------------------------------------------------------------- pulling

  /** The answer to the local image listing. */
  datatype ImageList = Listed(count: nat) | ListError

  /** `imageExistsLocal`: a listing error counts as absent. */
  predicate ImageExistsLocal(list: ImageList): (b: bool)
    ensures list.ListError? ==> !b
    ensures list.Listed? ==> (b <==> list.count > 0)
  {
    list.Listed? && list.count > 0
  }

  /** The decision in `pullImage`. */
  function ShouldPull(policy: ImagePullPolicy, list: ImageList): (pull: bool)
    ensures pull <==> policy == Always || (policy == IfNotPresent && !ImageExistsLocal(list))
  {
    match policy
    case Never => false
    case Always => true
    case IfNotPresent => !ImageExistsLocal(list)
    case UnknownPullPolicy(_) => false
  }

  /** The error of `pullImage` once the decision is made. */
  function PullError(pull: bool, image: string, requestErr: Option<Error>, copyErr: Option<Error>): (r: Option<Error>)
    ensures !pull ==> r.None?
    ensures pull && requestErr.Some? ==> r == Some(Wrap(requestErr.value, "docker 镜像[" + image + "]拉取失败"))
    ensures pull && requestErr.None? ==> r == WrapOpt(copyErr, "docker 拉取镜像日志io copy失败")
  {
    if !pull then None
    else if requestErr.Some? then Some(Wrap(requestErr.value, "docker 镜像[" + image + "]拉取失败"))
    else WrapOpt(copyErr, "docker 拉取镜像日志io copy失败")
  }

  // -------------------------------------------------------------- rendering

  /** `renderCfg`: only the command and the image are rendered, and only when rendering is on. */
  function RenderCfg(flow: Flow, env: Define.Env): (r: Flow)
    requires flow.noEnvRender || flow.shellCfg.Some?
    ensures flow.noEnvRender ==> r == flow
    ensures r.shellCfg.Some? <==> flow.shellCfg.Some?
    ensures r.(shellCfg := flow.shellCfg) == flow
    ensures r.shellCfg.Some? ==>
      r.shellCfg.value.withDocker == flow.shellCfg.value.withDocker
      && r.shellCfg.value.imagePullPolicy == flow.shellCfg.value.imagePullPolicy
  {
    if flow.noEnvRender then flow
    else
      var cfg := flow.shellCfg.value;
      flow.(shellCfg := Some(cfg.(cmd := Define.RenderByEnv(env, cfg.cmd),
                                  dockerImage := Define.RenderByEnv(env, cfg.dockerImage))))
  }

  /** With rendering on, the command and the image are the configured ones with their placeholders expanded. */
  lemma RenderCfgFields(flow: Flow, env: Define.Env)
    requires !flow.noEnvRender && flow.shellCfg.Some?
    ensures var cfg := flow.shellCfg.value;
      var out := RenderCfg(flow, env).shellCfg.value;
      out.cmd == Define.Expand(env, Define.Segments(cfg.cmd))
      && out.dockerImage == Define.Expand(env, Define.Segments(cfg.dockerImage))
  {
    Define.RenderIsExpand(env, flow.shellCfg.value.cmd);
    Define.RenderIsExpand(env, flow.shellCfg.value.dockerImage);
  }

  /** Rendering with an empty environment changes nothing. */
  lemma RenderCfgEmptyEnv(flow: Flow)
    requires flow.shellCfg.Some?
    ensures RenderCfg(flow, map[]) == flow
  {
  }

  // ------------------------------------------------------------ the container

  /** What the container is created with; its environment list holds the entries of `env`. */
  datatype ContainerConfig = ContainerConfig(
    image: string,
    env: Define.Env,
    workingDir: string,
    entrypoint: seq<string>,
    mountSource: string,
    mountTarget: string,
    tty: bool)

  /**
   * The container of a shell step: the workspace is bind-mounted at the
   * directory the container starts in, and the entrypoint runs the script
   * by its path below the mount.
   */
  function ContainerFor(image: string, env: Define.Env, workDir: string, uid: string): (r: ContainerConfig)
    ensures r.image == image && r.env == env && r.tty
    ensures r.mountSource == workDir && r.mountTarget == r.workingDir
    ensures r.entrypoint == ["sh", ScriptPathInContainer(uid)]
  {
    ContainerConfig(image, env, WorkDirInContainer, ["sh", ScriptPathInContainer(uid)], workDir, WorkDirInContainer, true)
  }

  /** How waiting for the container ends. */
  datatype WaitEvent = ContextDone | WaitError(err: Option<Error>) | Exited(code: int, statusErr: Option<string>)

  /** The classification of the wait. */
  function WaitResult(ev: WaitEvent): (r: Option<Error>)
    ensures ev.ContextDone? ==> r == Some(New("shell脚本执行超时"))
    ensures ev.WaitError? ==> r == WrapOpt(ev.err, "shell脚本执行出错")
    ensures ev.Exited? && ev.code != 0 ==> r == Some(New("shell脚本执行exit code = " + IntToString(ev.code)))
    ensures ev.Exited? && ev.code == 0 && ev.statusErr.Some? ==>
      r == Some(New("等待docker 容器运行完成出错: " + ev.statusErr.value))
    ensures r.None? <==> ev == WaitError(None) || ev == Exited(0, None)
  {
    match ev
    case ContextDone => Some(New("shell脚本执行超时"))
    case WaitError(err) => WrapOpt(err, "shell脚本执行出错")
    case Exited(code, statusErr) =>
      if code != 0 then Some(New("shell脚本执行exit code = " + IntToString(code)))
      else if statusErr.Some? then Some(New("等待docker 容器运行完成出错: " + statusErr.value))
      else None
  }

  /** A timeout is never reported as a cancellation, whatever ended the context. */
  lemma TimeoutIsNotCancellation()
    ensures !WaitResult(ContextDone).value.canceled
  {
  }

  // ------------------------------------------------------------------ Run

  /** Every outcome the outside world gives a shell step, in the order they are asked for. */
  datatype ShellWorld = ShellWorld(
    uid: string,
    writeErr: Option<Error>,
    localImages: ImageList,
    pullErr: Option<Error>,
    pullCopyErr: Option<Error>,
    created: Result<string, Error>,
    startErr: Option<Error>,
    logsErr: Option<Error>,
    logCopyErr: Option<Error>,
    wait: WaitEvent)

  /** The calls a shell step makes. */
  datatype Action =
    | WriteScript(path: string, content: string)
    | ListImages(reference: string)
    | PullImage(image: string)
    | CreateContainer(config: ContainerConfig)
    | StartContainer(id: string)
    | FetchLogs(id: string)
    | WaitContainer(id: string)
    | RemoveContainer(id: string)
    | RemoveScript(path: string)

  /** The step's result, the calls it made, and its configuration as rendered. */
  datatype ShellRun = ShellRun(flow: Flow, result: RunResult, actions: seq<Action>)

  /** The calls that decide about and perform the pull. */
  function PullActions(cfg: ShellCfg, w: ShellWorld): seq<Action> {
    (if cfg.imagePullPolicy == IfNotPresent then [ListImages(WithDefaultTag(cfg.dockerImage))] else [])
    + (if ShouldPull(cfg.imagePullPolicy, w.localImages) then [PullImage(cfg.dockerImage)] else [])
  }

  /** What happens once the container has started: logs, wait, then removal. */
  function AfterStart(id: string, w: ShellWorld): (r: (Option<Error>, seq<Action>)) {
    if w.logsErr.Some? then (Some(Wrap(w.logsErr.value, "获取docker日志出错")), [FetchLogs(id)])
    else if w.logCopyErr.Some? then (Some(Wrap(w.logCopyErr.value, "docker 容器运行日志io copy失败")), [FetchLogs(id)])
    else (WaitResult(w.wait), [FetchLogs(id), WaitContainer(id)])
  }

  /** What happens once the script is written: pull, create, start, and what follows. */
  function AfterWrite(cfg: ShellCfg, env: Define.Env, workDir: string, w: ShellWorld): (r: (Option<Error>, seq<Action>)) {
    var pulls := PullActions(cfg, w);
    var pullErr := PullError(ShouldPull(cfg.imagePullPolicy, w.localImages), cfg.dockerImage, w.pullErr, w.pullCopyErr);
    if pullErr.Some? then (pullErr, pulls)
    else
      var create := [CreateContainer(ContainerFor(cfg.dockerImage, env, workDir, w.uid))];
      match w.created
      case Err(e) => (Some(Wrap(e, "容器创建失败")), pulls + create)
      case Ok(id) =>
        if w.startErr.Some? then (Some(Wrap(w.startErr.value, "容器启动失败")), pulls + create + [StartContainer(id)])
        else
          var after := AfterStart(id, w);
          (after.0, pulls + create + [StartContainer(id)] + after.1 + [RemoveContainer(id)])
  }

  /**
   * `Runner.Run` for a shell step. A nil shell configuration panics before any
   * call is made; the script file, once written, is removed last on every path.
   */
  function Run(workDir: string, flow: Flow, env: Define.Env, w: ShellWorld): (r: ShellRun)
    ensures flow.shellCfg.None? ==> r == ShellRun(flow, Panicked(NilDereference), [])
    ensures flow.shellCfg.Some? ==> r.flow == RenderCfg(flow, env) && r.result.Returned?
    ensures flow.shellCfg.Some? ==> |r.actions| > 0 && r.actions[0] == WriteScript(ScriptPath(workDir, w.uid), WrapShellScript(r.flow.shellCfg.value.cmd))
  {
    if flow.shellCfg.None? then ShellRun(flow, Panicked(NilDereference), [])
    else
      var f := RenderCfg(flow, env);
      var cfg := f.shellCfg.value;
      var path := ScriptPath(workDir, w.uid);
      var write := WriteScript(path, WrapShellScript(cfg.cmd));
      if w.writeErr.Some? then ShellRun(f, Returned(Some(Wrap(w.writeErr.value, "shell脚本写入文件失败"))), [write])
      else
        var rest := AfterWrite(cfg, env, workDir, w);
        ShellRun(f, Returned(rest.0), [write] + rest.1 + [RemoveScript(path)])
  }

  // ------------------------------------------------------------ Run properties

  /** The step succeeds exactly when every stage succeeds and the container exits cleanly. */
  lemma RunSucceedsIff(workDir: string, flow: Flow, env: Define.Env, w: ShellWorld)
    requires flow.shellCfg.Some?
    ensures var cfg := RenderCfg(flow, env).shellCfg.value;
      Run(workDir, flow, env, w).result == Returned(None) <==>
        w.writeErr.None?
        && PullError(ShouldPull(cfg.imagePullPolicy, w.localImages), cfg.dockerImage, w.pullErr, w.pullCopyErr).None?
        && w.created.Ok? && w.startErr.None? && w.logsErr.None? && w.logCopyErr.None?
        && WaitResult(w.wait).None?
  {
  }

  predicate NoContainerRemoval(acts: seq<Action>) {
    forall k :: 0 <= k < |acts| ==> !acts[k].RemoveContainer?
  }

  /** Whether the container of a step with this world gets started. */
  predicate Starts(cfg: ShellCfg, w: ShellWorld) {
    w.writeErr.None?
    && PullError(ShouldPull(cfg.imagePullPolicy, w.localImages), cfg.dockerImage, w.pullErr, w.pullCopyErr).None?
    && w.created.Ok? && w.startErr.None?
  }

  lemma PullActionsRemoveNothing(cfg: ShellCfg, w: ShellWorld)
    ensures NoContainerRemoval(PullActions(cfg, w))
    ensures forall k :: 0 <= k < |PullActions(cfg, w)| ==> !PullActions(cfg, w)[k].CreateContainer?
  {
  }

  /** Once the script is written, the step's calls are those after the write, then the script's removal. */
  lemma RunAfterWrite(workDir: string, flow: Flow, env: Define.Env, w: ShellWorld)
    requires flow.shellCfg.Some? && w.writeErr.None?
    ensures var cfg := RenderCfg(flow, env).shellCfg.value;
      var rest := AfterWrite(cfg, env, workDir, w);
      var path := ScriptPath(workDir, w.uid);
      Run(workDir, flow, env, w) == ShellRun(RenderCfg(flow, env), Returned(rest.0), [WriteScript(path, WrapShellScript(cfg.cmd))] + rest.1 + [RemoveScript(path)])
  {
  }

  /** After the write, a started container is removed as the last call. */
  lemma AfterWriteStarted(cfg: ShellCfg, env: Define.Env, workDir: string, w: ShellWorld)
    requires Starts(cfg, w)
    ensures AfterWrite(cfg, env, workDir, w).1
      == PullActions(cfg, w)
         + [CreateContainer(ContainerFor(cfg.dockerImage, env, workDir, w.uid)), StartContainer(w.created.value)]
         + AfterStart(w.created.value, w).1 + [RemoveContainer(w.created.value)]
  {
    var pulls := PullActions(cfg, w);
    var create := [CreateContainer(ContainerFor(cfg.dockerImage, env, workDir, w.uid))];
    var id := w.created.value;
    assert create + [StartContainer(id)] == [CreateContainer(ContainerFor(cfg.dockerImage, env, workDir, w.uid)), StartContainer(id)];
    assert pulls + create + [StartContainer(id)] == pulls + (create + [StartContainer(id)]);
  }

  /** After the write, a container that is not started is not removed. */
  lemma AfterWriteUnstarted(cfg: ShellCfg, env: Define.Env, workDir: string, w: ShellWorld)
    requires w.writeErr.None? && !Starts(cfg, w)
    ensures NoContainerRemoval(AfterWrite(cfg, env, workDir, w).1)
  {
    PullActionsRemoveNothing(cfg, w);
  }

  /** A started container is removed, and the calls end with its removal and then the script's. */
  lemma StartedContainerRemoved(workDir: string, flow: Flow, env: Define.Env, w: ShellWorld)
    requires flow.shellCfg.Some? && Starts(RenderCfg(flow, env).shellCfg.value, w)
    ensures var cfg := RenderCfg(flow, env).shellCfg.value;
      Run(workDir, flow, env, w).actions
        == [WriteScript(ScriptPath(workDir, w.uid), WrapShellScript(cfg.cmd))] + PullActions(cfg, w)
           + [CreateContainer(ContainerFor(cfg.dockerImage, env, workDir, w.uid)), StartContainer(w.created.value)]
           + AfterStart(w.created.value, w).1
           + [RemoveContainer(w.created.value), RemoveScript(ScriptPath(workDir, w.uid))]
  {
    var cfg := RenderCfg(flow, env).shellCfg.value;
    RunAfterWrite(workDir, flow, env, w);
    AfterWriteStarted(cfg, env, workDir, w);
  }

  /** A container that was never started is never removed. */
  lemma UnstartedContainerKept(workDir: string, flow: Flow, env: Define.Env, w: ShellWorld)
    requires flow.shellCfg.Some? && !Starts(RenderCfg(flow, env).shellCfg.value, w)
    ensures NoContainerRemoval(Run(workDir, flow, env, w).actions)
  {
    var cfg := RenderCfg(flow, env).shellCfg.value;
    if w.writeErr.None? {
      var path := ScriptPath(workDir, w.uid);
      RunAfterWrite(workDir, flow, env, w);
      AfterWriteUnstarted(cfg, env, workDir, w);
      NoRemovalAround(WriteScript(path, WrapShellScript(cfg.cmd)), AfterWrite(cfg, env, workDir, w).1, RemoveScript(path));
    }
  }

  lemma NoRemovalAround(first: Action, acts: seq<Action>, last: Action)
    requires !first.RemoveContainer? && !last.RemoveContainer? && NoContainerRemoval(acts)
    ensures NoContainerRemoval([first] + acts + [last])
  {
  }

  /** After the write and a good pull, the next call creates the container. */
  lemma AfterWriteCreates(cfg: ShellCfg, env: Define.Env, workDir: string, w: ShellWorld)
    requires PullError(ShouldPull(cfg.imagePullPolicy, w.localImages), cfg.dockerImage, w.pullErr, w.pullCopyErr).None?
    ensures var acts := AfterWrite(cfg, env, workDir, w).1;
      |PullActions(cfg, w)| < |acts| && acts[|PullActions(cfg, w)|] == CreateContainer(ContainerFor(cfg.dockerImage, env, workDir, w.uid))
  {
  }

  /** The container is created, right after the pull, to run the script from the mounted workspace. */
  lemma ContainerSetup(workDir: string, flow: Flow, env: Define.Env, w: ShellWorld)
    requires flow.shellCfg.Some? && w.writeErr.None?
    requires var cfg := RenderCfg(flow, env).shellCfg.value;
      PullError(ShouldPull(cfg.imagePullPolicy, w.localImages), cfg.dockerImage, w.pullErr, w.pullCopyErr).None?
    ensures var cfg := RenderCfg(flow, env).shellCfg.value;
      var acts := Run(workDir, flow, env, w).actions;
      var k := 1 + |PullActions(cfg, w)|;
      k < |acts| && acts[k].CreateContainer?
      && acts[k].config.entrypoint == ["sh", "/code/shell-" + w.uid + ".sh"]
      && acts[k].config.workingDir == "/code" && acts[k].config.mountSource == workDir
      && acts[k].config.mountTarget == "/code"
      && acts[k].config.image == cfg.dockerImage && acts[k].config.env == env
  {
    var cfg := RenderCfg(flow, env).shellCfg.value;
    RunAfterWrite(workDir, flow, env, w);
    AfterWriteCreates(cfg, env, workDir, w);
    var acts := Run(workDir, flow, env, w).actions;
    var k := 1 + |PullActions(cfg, w)|;
    assert acts[k] == AfterWrite(cfg, env, workDir, w).1[k - 1];
    assert ScriptPathInContainer(w.uid) == "/code/shell-" + w.uid + ".sh";
  }

  /** A non-zero exit code fails the step with the code in the message. */
  lemma ExitCodeExample()
    ensures WaitResult(Exited(2, None)) == Some(New("shell脚本执行exit code = 2"))
    ensures WaitResult(Exited(-1, None)) == Some(New("shell脚本执行exit code = -1"))
  {
    assert IntToString(2) == NatToString(2) == [DigitChar(2)] == "2";
    assert IntToString(-1) == "-" + NatToString(1) == "-1";
    assert "shell脚本执行exit code = " + "2" == "shell脚本执行exit code = 2";
    assert "shell脚本执行exit code = " + "-1" == "shell脚本执行exit code = -1";
  }
}
