/**
 * The pipeline processor: the table of run records queried and mutated by
 * callers, and `Run`, which drives one pipeline through its steps and keeps
 * the stored progress record up to date.
 */
module Processor {
  import opened Wrappers
  import opened Errors
  import opened Text
  import opened Api
  import Define

  const NotFound := "流水线任务不存在"
  const BadEntity := "流水线任务数据转换失败"

  /** `PipelineRunEntity`; the cancel handle is only recorded as present or nil. */
  datatype Entity = Entity(progress: PipelineProgress, jobDir: string, hasCancel: bool)

  /** A value stored in the table: a run record, or anything else (which fails conversion). */
  datatype Slot = RunEntity(entity: Entity) | Foreign

  type Table = map<string, Slot>

  /** What `Stop` and `Delete` do: return an error (or nil), or panic. */
  datatype Control = Done(err: Option<Error>) | ControlPanic(reason: string)

  // ------------------------------------------------------------------ paths

  /** A job's directory: directly below the root, named after the job's uid, which it determines. */
  function JobRootDir(root: string, uid: string): (r: string)
    ensures |r| == |root| + 5 + |uid|
    ensures r[..|root| + 1] == root + "/" && r[|root| + 5..] == uid
  {
    root + "/job-" + uid
  }

  /** The workspace the steps run in, below the job's directory. */
  function JobWorkDir(jobRoot: string): (r: string)
    ensures |r| > |jobRoot| + 1 && r[..|jobRoot| + 1] == jobRoot + "/"
  {
    jobRoot + "/workspace"
  }

  /** The job's data directory, below the job's directory. */
  function JobDataDir(jobRoot: string): (r: string)
    ensures |r| > |jobRoot| + 1 && r[..|jobRoot| + 1] == jobRoot + "/"
  {
    jobRoot + "/data"
  }

  /** `getJobLogFile`: the log file lies in the job's data directory. */
  function JobLogFile(jobRoot: string): (r: string)
    ensures r == JobDataDir(jobRoot) + "/job.log"
  {
    jobRoot + "/data/job.log"
  }

  /** The log file lies inside the data directory, and both lie under the job's directory. */
  lemma JobPathsNest(root: string, uid: string)
    ensures var dir := JobRootDir(root, uid);
      JobLogFile(dir) == JobDataDir(dir) + "/job.log"
      && JobWorkDir(dir)[..|dir|] == dir && JobDataDir(dir)[..|dir|] == dir
      && JobWorkDir(dir) != JobDataDir(dir)
  {
    var dir := JobRootDir(root, uid);
    assert JobWorkDir(dir)[|dir| + 1] == 'w' && JobDataDir(dir)[|dir| + 1] == 'd';
  }

  // ---------------------------------------------------------- the record table

  /** `InitPipeline`: a fresh record under the pipeline's id, replacing any earlier one. */
  function InitPipeline(t: Table, pl: Pipeline): (r: Table)
    ensures r.Keys == t.Keys + {pl.uid}
    ensures forall id :: id in t && id != pl.uid ==> r[id] == t[id]
    ensures r[pl.uid].RunEntity?
    ensures var e := r[pl.uid].entity;
      e.progress.pipeline == pl && e.progress.status == Created && e.progress.created
      && e.progress.flowProgresses == [] && e.progress.env.None?
      && e.jobDir == "" && !e.hasCancel
  {
    var progress := PipelineProgress(pl, Created, "", [], None, "", true, false, false);
    t[pl.uid := RunEntity(Entity(progress, "", false))]
  }

  /** The lookup shared by every query: the record, the not-found error or the conversion error. */
  function Lookup(t: Table, id: string): (r: Result<Entity, Error>)
    ensures r.Ok? <==> id in t && t[id].RunEntity?
    ensures r.Ok? ==> r.value == t[id].entity
    ensures id !in t ==> r == Err(New(NotFound))
    ensures id in t && t[id].Foreign? ==> r == Err(New(BadEntity))
  {
    if id !in t then Err(New(NotFound))
    else match t[id]
      case Foreign => Err(New(BadEntity))
      case RunEntity(e) => Ok(e)
  }

  /** `GetPipelineProgress`. */
  function GetPipelineProgress(t: Table, id: string): (r: Result<PipelineProgress, Error>)
    ensures r.Ok? <==> id in t && t[id].RunEntity?
    ensures r.Ok? ==> r.value == t[id].entity.progress
    ensures id !in t ==> r == Err(New(NotFound))
  {
    var e :- Lookup(t, id);
    Ok(e.progress)
  }

  /**
   * `GetPipelineLog` over the files on disk (path to content): a record
   * without a log file yet gives no content and no error.
   */
  function GetPipelineLog(t: Table, id: string, files: map<string, string>): (r: Result<Option<string>, Error>)
    ensures r.Ok? <==> id in t && t[id].RunEntity?
    ensures r.Ok? ==> var path := JobLogFile(t[id].entity.jobDir);
      r.value == (if path in files then Some(files[path]) else None)
    ensures id !in t ==> r == Err(New(NotFound))
  {
    var e :- Lookup(t, id);
    var path := JobLogFile(e.jobDir);
    Ok(if path in files then Some(files[path]) else None)
  }

  /**
   * `StopPipeline`: cancels the run. A record made by `InitPipeline` alone has
   * no cancel handle, and calling it panics. The table is not changed.
   */
  function StopPipeline(t: Table, id: string): (r: Control)
    ensures id !in t ==> r == Done(Some(New(NotFound)))
    ensures id in t && t[id].Foreign? ==> r == Done(Some(New(BadEntity)))
    ensures r == Done(None) <==> id in t && t[id].RunEntity? && t[id].entity.hasCancel
    ensures r.ControlPanic? <==> id in t && t[id].RunEntity? && !t[id].entity.hasCancel
    ensures r.ControlPanic? ==> r.reason == NilDereference
  {
    match Lookup(t, id)
    case Err(e) => Done(Some(e))
    case Ok(e) => if e.hasCancel then Done(None) else ControlPanic(NilDereference)
  }

  /**
   * `DeletePipeline`: once the id is found, its entry is removed on every
   * path, even when conversion fails or cancelling panics; the job directory
   * is removed (the second component) whenever conversion succeeds.
   */
  function DeletePipeline(t: Table, id: string): (r: (Table, Option<string>, Control))
    ensures id !in t ==> r == (t, None, Done(Some(New(NotFound))))
    ensures id in t ==> r.0 == t - {id}
    ensures id in t && t[id].Foreign? ==> r.1 == None && r.2 == Done(Some(New(BadEntity)))
    ensures id in t && t[id].RunEntity? ==>
      r.1 == Some(t[id].entity.jobDir)
      && r.2 == (if t[id].entity.hasCancel then Done(None) else ControlPanic(NilDereference))
  {
    if id !in t then (t, None, Done(Some(New(NotFound))))
    else
      match t[id]
      case Foreign => (t - {id}, None, Done(Some(New(BadEntity))))
      case RunEntity(e) =>
        (t - {id}, Some(e.jobDir), if e.hasCancel then Done(None) else ControlPanic(NilDereference))
  }

  /** Delete leaves every other entry as it was, and a second delete finds nothing. */
  lemma DeleteThenLookup(t: Table, id: string, other: string)
    requires id in t && other != id
    ensures Lookup(DeletePipeline(t, id).0, id) == Err(New(NotFound))
    ensures Lookup(DeletePipeline(t, id).0, other) == Lookup(t, other)
    ensures DeletePipeline(DeletePipeline(t, id).0, id).2 == Done(Some(New(NotFound)))
  {
  }

  /** A record fresh from `InitPipeline` reads back as a Created progress, and stopping it panics. */
  lemma InitThenQuery(t: Table, pl: Pipeline)
    ensures GetPipelineProgress(InitPipeline(t, pl), pl.uid).Ok?
    ensures GetPipelineProgress(InitPipeline(t, pl), pl.uid).value.status == Created
    ensures StopPipeline(InitPipeline(t, pl), pl.uid) == ControlPanic(NilDereference)
  {
  }

  // ------------------------------------------------------------------ one step

  /** What a step executor did: the environment it left behind and how its `Run` ended. */
  datatype StepOutcome = StepOutcome(env: Env, result: RunResult)

  /** The step executors that a processor has, by step type. */
  type Executor = (nat, Flow, Env) -> StepOutcome

  function UnknownTypeMessage(t: FlowType): string {
    "未知的pipeline流程类型[" + FlowTypeName(t) + "]"
  }

  function StepErrorPrefix(idx: nat, t: FlowType): string {
    "流程执行失败, 流程index=[" + NatToString(idx) + "], 流程type=[" + FlowTypeName(t) + "]"
  }

  function PanicMessage(reason: string): string {
    "runFlow internal error: " + reason
  }

  /**
   * `runFlow`: an unregistered step type is an error; an executor error is
   * wrapped with the step's index and type; a panic is recovered into a new
   * error (which drops any cancellation).
   */
  function RunFlow(idx: nat, flow: Flow, env: Env, runners: set<FlowType>, exec: Executor): (r: (Env, Option<Error>))
    ensures flow.flowType !in runners ==> r == (env, Some(New(UnknownTypeMessage(flow.flowType))))
    ensures flow.flowType in runners ==> r.0 == exec(idx, flow, env).env
    ensures flow.flowType in runners ==> match exec(idx, flow, env).result
      case Returned(err) => r.1 == WrapOpt(err, StepErrorPrefix(idx, flow.flowType))
      case Panicked(reason) => r.1 == Some(New(PanicMessage(reason)))
  {
    if flow.flowType !in runners then (env, Some(New(UnknownTypeMessage(flow.flowType))))
    else
      var out := exec(idx, flow, env);
      match out.result
      case Returned(err) => (out.env, WrapOpt(err, StepErrorPrefix(idx, flow.flowType)))
      case Panicked(reason) => (out.env, Some(New(PanicMessage(reason))))
  }

  /** A step's verdict: its terminal status, its fail reason, and whether the loop stops. */
  datatype Verdict = Verdict(status: Status, reason: string, stop: bool)

  function CanceledReason(msg: string): string {
    "流程执行被取消: " + msg
  }

  /**
   * The classification after a step: an error is a cancellation exactly when
   * it wraps the context's cancellation, and otherwise a failure; with no error
   * the environment's status key can fail the step or end the pipeline early.
   */
  function Classify(err: Option<Error>, env: Env): (v: Verdict)
    ensures v.status in {Succeed, Failed, Canceled}
    ensures v.status != Succeed ==> v.stop
    ensures err.Some? ==> v.stop && (v.status == Canceled <==> err.value.canceled)
    ensures err.Some? && err.value.canceled ==> v.reason == CanceledReason(err.value.msg)
    ensures err.Some? && !err.value.canceled ==> v == Verdict(Failed, err.value.msg, true)
    ensures err.None? ==> v.status != Canceled
    ensures err.None? ==> (v.status == Failed <==> Define.PipelineFailed(env))
    ensures err.None? && Define.PipelineFailed(env) ==> v.reason == Define.GetFailReason(env)
    ensures err.None? ==> (v.stop <==> Define.PipelineFailed(env) || Define.PipelineSucceed(env))
  {
    match err
    case Some(e) =>
      if e.canceled then Verdict(Canceled, CanceledReason(e.msg), true)
      else Verdict(Failed, e.msg, true)
    case None =>
      if Define.PipelineFailed(env) then Verdict(Failed, Define.GetFailReason(env), true)
      else if Define.PipelineSucceed(env) then Verdict(Succeed, "", true)
      else Verdict(Succeed, "", false)
  }

  // --------------------------------------------------------------- the step loop

  /** The record stored as a step starts: a Running entry is appended for it. */
  function StartStep(p: PipelineProgress, flow: Flow): (r: PipelineProgress)
    ensures |r.flowProgresses| == |p.flowProgresses| + 1
    ensures r.flowProgresses[..|p.flowProgresses|] == p.flowProgresses
    ensures r.flowProgresses[|p.flowProgresses|] == FlowProgress(flow, Running, "", false)
    ensures r.pipeline == p.pipeline && r.status == Running && r.env == p.env
  {
    p.(flowProgresses := p.flowProgresses + [FlowProgress(flow, Running, "", false)],
       status := Running, curRunningFlowId := flow.uid)
  }

  /** The record stored as a step ends: its entry gets the verdict and a finish time. */
  function EndStep(p: PipelineProgress, v: Verdict, env: Env): (r: PipelineProgress)
    requires |p.flowProgresses| > 0
    ensures |r.flowProgresses| == |p.flowProgresses|
    ensures forall j :: 0 <= j < |p.flowProgresses| - 1 ==> r.flowProgresses[j] == p.flowProgresses[j]
    ensures var last := r.flowProgresses[|p.flowProgresses| - 1];
      var was := p.flowProgresses[|p.flowProgresses| - 1];
      last.flow == was.flow && last.status == v.status && last.finished
      && last.failReason == (if v.status == Succeed then was.failReason else v.reason)
    ensures r.pipeline == p.pipeline && r.status == p.status && r.env == Some(env)
  {
    var i := |p.flowProgresses| - 1;
    var fp := p.flowProgresses[i];
    var status := v.status;
    var reason := if v.status == Succeed then fp.failReason else v.reason;
    p.(flowProgresses := p.flowProgresses[..i] + [fp.(status := status, failReason := reason, finished := true)],
       env := Some(env))
  }

  /** The loop state: the progress record, the shared environment and every record stored so far. */
  datatype Loop = Loop(progress: PipelineProgress, env: Env, stores: seq<PipelineProgress>)

  /**
   * The `for idx, flow := range job.Flows` loop, from step `i` on: start the
   * step, run it, classify it, store the record, and stop on a terminal
   * verdict. Every step stores twice: when it starts and when it ends.
   */
  function Steps(flows: seq<Flow>, i: nat, p: PipelineProgress, env: Env, runners: set<FlowType>, exec: Executor): (r: Loop)
    requires i <= |flows| && |p.flowProgresses| == i
    ensures i <= |r.progress.flowProgresses| <= |flows|
    ensures |r.stores| == 2 * (|r.progress.flowProgresses| - i)
    decreases |flows| - i
  {
    if i == |flows| then Loop(p, env, [])
    else
      var started := StartStep(p, flows[i]);
      var ran := RunFlow(i, flows[i], env, runners, exec);
      var v := Classify(ran.1, ran.0);
      var ended := EndStep(started, v, ran.0);
      if v.stop then Loop(ended, ran.0, [started, ended])
      else
        var rest := Steps(flows, i + 1, ended, ran.0, runners, exec);
        Loop(rest.progress, rest.env, [started, ended] + rest.stores)
  }

  // ------------------------------------------------------------ after the loop

  predicate IsBad(s: Status) {
    s == Failed || s == Canceled
  }

  /** The index of the first Failed or Canceled entry. */
  function FirstBad(fps: seq<FlowProgress>): (r: Option<nat>)
    ensures r.Some? ==> (r.value < |fps| && IsBad(fps[r.value].status)
                         && forall j :: 0 <= j < r.value ==> !IsBad(fps[j].status))
    ensures r.None? ==> forall j :: 0 <= j < |fps| ==> !IsBad(fps[j].status)
  {
    if fps == [] then None
    else if IsBad(fps[0].status) then Some(0)
    else
      match FirstBad(fps[1..])
      case None => None
      case Some(j) => Some(j + 1)
  }

  function FailedReason(idx: nat, reason: string): string {
    "流程[索引=" + NatToString(idx) + "]执行出错: " + reason
  }

  function CanceledPipelineReason(idx: nat): string {
    "流程[索引=" + NatToString(idx) + "]执行被取消"
  }

  /** The post-loop scan: the first bad entry decides the pipeline's status and reason. */
  function Finish(p: PipelineProgress): (r: PipelineProgress)
    ensures r.finished && r.flowProgresses == p.flowProgresses && r.env == p.env
    ensures FirstBad(p.flowProgresses).None? && !IsBad(p.status) ==> r.status == Succeed && r.failReason == p.failReason
    ensures FirstBad(p.flowProgresses).Some? ==> var i := FirstBad(p.flowProgresses).value;
      r.status == p.flowProgresses[i].status
      && r.failReason == (if r.status == Failed then FailedReason(i, p.flowProgresses[i].failReason)
                          else CanceledPipelineReason(i))
  {
    var p1 :=
      match FirstBad(p.flowProgresses)
      case Some(i) =>
        var fp := p.flowProgresses[i];
        if fp.status == Failed then p.(status := Failed, failReason := FailedReason(i, fp.failReason))
        else p.(status := Canceled, failReason := CanceledPipelineReason(i))
      case None => p;
    var p2 := if !IsBad(p1.status) then p1.(status := Succeed) else p1;
    p2.(finished := true)
  }

  // --------------------------------------------------------------------- Run

  /** A queue message's payload: a pipeline, or something else. */
  datatype Payload = PipelinePayload(pipeline: Pipeline) | OtherPayload

  /** Whether creating the workspace, the data directory and the log file fails. */
  datatype JobIo = JobIo(workDirErr: bool, dataDirErr: bool, logFileErr: bool)

  /** What `Run` returns and leaves behind: the requeue flag, the table, and every record it stored. */
  datatype RunOutput = RunOutput(retry: bool, table: Table, stores: seq<PipelineProgress>)

  /** The environment a run starts with: the build id, overlaid with the pipeline's parameters. */
  function InitialEnv(job: Pipeline): (env: Env)
    ensures Define.BuildIdKey in env
    ensures Define.BuildIdKey !in job.params ==> env[Define.BuildIdKey] == job.uid
    ensures forall k :: k in job.params ==> k in env && env[k] == job.params[k]
    ensures env.Keys == job.params.Keys + {Define.BuildIdKey}
  {
    Define.AppendEnv(Define.AppendEnv(map[], map[Define.BuildIdKey := job.uid]), job.params)
  }

  /** Stores a record under the pipeline's id, with the run's job directory and cancel handle. */
  function Store(t: Table, job: Pipeline, jobRoot: string, p: PipelineProgress): Table {
    t[job.uid := RunEntity(Entity(p, jobRoot, true))]
  }

  function StoreLast(t: Table, job: Pipeline, jobRoot: string, stores: seq<PipelineProgress>): Table {
    if stores == [] then t else Store(t, job, jobRoot, stores[|stores| - 1])
  }

  /** `Run`. */
  function Run(t: Table, root: string, msg: Payload, io: JobIo, runners: set<FlowType>, exec: Executor): (out: RunOutput)
    ensures out.retry <==> msg.OtherPayload?
    ensures msg.OtherPayload? || msg.pipeline.uid == "" ==> out.table == t && out.stores == []
    ensures out.table == (if msg.OtherPayload? then t else StoreLast(t, msg.pipeline, JobRootDir(root, msg.pipeline.uid), out.stores))
  {
    match msg
    case OtherPayload => RunOutput(true, t, [])
    case PipelinePayload(job) =>
      if job.uid == "" then RunOutput(false, t, [])
      else
        var jobRoot := JobRootDir(root, job.uid);
        var env := InitialEnv(job);
        var started := PipelineProgress(job, Started, "", [], Some(env), "", false, true, false);
        var stores :=
          if io.workDirErr || io.dataDirErr || io.logFileErr then [started]
          else
            var running := started.(status := Running);
            if |job.flows| == 0 then [started, running]
            else
              var loop := Steps(job.flows, 0, running, env, runners, exec);
              [started, running] + loop.stores + [Finish(loop.progress)];
        RunOutput(false, StoreLast(t, job, jobRoot, stores), stores)
  }

  // ------------------------------------------------------------ loop properties

  /** The first `n` entries are finished successes. */
  predicate DoneSucceeded(fps: seq<FlowProgress>, n: int) {
    forall j :: 0 <= j < n && j < |fps| ==> fps[j].status == Succeed && fps[j].finished
  }

  /** The entries belong to the declared steps, in declaration order. */
  predicate FollowsFlows(fps: seq<FlowProgress>, flows: seq<Flow>) {
    |fps| <= |flows| && forall j :: 0 <= j < |fps| ==> fps[j].flow == flows[j]
  }

  /**
   * A stored record is orderly when every entry but the last is a finished
   * success and the last is Running exactly while it is unfinished.
   */
  predicate Orderly(p: PipelineProgress) {
    var fps := p.flowProgresses;
    DoneSucceeded(fps, |fps| - 1)
    && (|fps| > 0 ==> (fps[|fps| - 1].status == Running <==> !fps[|fps| - 1].finished))
  }

  /** In an orderly record at most one step is Running, and it is the last. */
  lemma OrderlyRunning(p: PipelineProgress, j: int)
    requires Orderly(p) && 0 <= j < |p.flowProgresses| && p.flowProgresses[j].status == Running
    ensures j == |p.flowProgresses| - 1 && !p.flowProgresses[j].finished
  {
  }

  /** Every stored record is orderly, and the record stored `k`-th belongs to step `i + k / 2`: Running when it starts, with its verdict when it ends. */
  predicate StoresShape(stores: seq<PipelineProgress>, i: nat) {
    (forall k :: 0 <= k < |stores| ==> Orderly(stores[k]) && |stores[k].flowProgresses| == i + k / 2 + 1)
    && (forall k :: 0 <= k < |stores| ==> (stores[k].flowProgresses[i + k / 2].status == Running <==> k % 2 == 0))
  }

  /** What the loop run from step `i` produces, given the state it starts in. */
  predicate StepsShape(flows: seq<Flow>, i: nat, p: PipelineProgress, l: Loop) {
    var fps := l.progress.flowProgresses;
    var last := |fps| - 1;
    i < |fps| <= |flows|
    && FollowsFlows(fps, flows)
    && fps[..i] == p.flowProgresses
    && DoneSucceeded(fps, last)
    && fps[last].finished && fps[last].status in {Succeed, Failed, Canceled}
    && (|fps| < |flows| ==> IsBad(fps[last].status) || Define.PipelineSucceed(l.env))
    && l.progress.env == Some(l.env) && l.progress.status == Running
    && |l.stores| == 2 * (|fps| - i)
    && StoresShape(l.stores, i)
    && l.stores[|l.stores| - 1] == l.progress
  }

  /** The records stored as step `i` starts and ends. */
  predicate StepPair(flows: seq<Flow>, i: nat, p: PipelineProgress, started: PipelineProgress, ended: PipelineProgress) {
    i < |flows|
    && Orderly(started) && |started.flowProgresses| == i + 1 && started.flowProgresses[i].status == Running
    && Orderly(ended) && |ended.flowProgresses| == i + 1 && ended.flowProgresses[..i] == p.flowProgresses
    && ended.flowProgresses[i].status in {Succeed, Failed, Canceled} && ended.flowProgresses[i].finished
    && FollowsFlows(ended.flowProgresses, flows) && ended.status == Running
  }

  lemma StartEndStep(flows: seq<Flow>, i: nat, p: PipelineProgress, v: Verdict, env: Env)
    requires i < |flows| && |p.flowProgresses| == i && FollowsFlows(p.flowProgresses, flows)
    requires DoneSucceeded(p.flowProgresses, i)
    requires v.status in {Succeed, Failed, Canceled}
    ensures StepPair(flows, i, p, StartStep(p, flows[i]), EndStep(StartStep(p, flows[i]), v, env))
    ensures EndStep(StartStep(p, flows[i]), v, env).flowProgresses[i].status == v.status
    ensures EndStep(StartStep(p, flows[i]), v, env).env == Some(env)
  {
    var s := StartStep(p, flows[i]);
    assert s.flowProgresses[..i] == p.flowProgresses;
    var e := EndStep(s, v, env);
    assert e.flowProgresses[..i] == s.flowProgresses[..i];
  }

  /** The loop ends with step `i`. */
  lemma ShapeOfLastStep(flows: seq<Flow>, i: nat, p: PipelineProgress, started: PipelineProgress, ended: PipelineProgress, env: Env)
    requires StepPair(flows, i, p, started, ended) && ended.env == Some(env)
    requires i + 1 < |flows| ==> IsBad(ended.flowProgresses[i].status) || Define.PipelineSucceed(env)
    ensures StepsShape(flows, i, p, Loop(ended, env, [started, ended]))
  {
    assert [started, ended][1] == ended;
  }

  /** Step `i` succeeds and the loop goes on with the rest. */
  lemma ShapeCons(flows: seq<Flow>, i: nat, p: PipelineProgress, started: PipelineProgress, ended: PipelineProgress, rest: Loop)
    requires StepPair(flows, i, p, started, ended) && ended.flowProgresses[i].status == Succeed
    requires StepsShape(flows, i + 1, ended, rest)
    ensures StepsShape(flows, i, p, Loop(rest.progress, rest.env, [started, ended] + rest.stores))
  {
    var fps := rest.progress.flowProgresses;
    assert fps[..i] == fps[..i + 1][..i];
    var stores := [started, ended] + rest.stores;
    forall k | 0 <= k < |stores|
      ensures Orderly(stores[k]) && |stores[k].flowProgresses| == i + k / 2 + 1
      ensures stores[k].flowProgresses[i + k / 2].status == Running <==> k % 2 == 0
    {
      if k >= 2 {
        assert stores[k] == rest.stores[k - 2];
        assert (k - 2) / 2 == k / 2 - 1 && (k - 2) % 2 == k % 2;
      }
    }
  }

  /**
   * The loop from step `i`: the entries follow the declared steps, every
   * entry but the last is a finished success, the loop ends early only on a
   * failure, a cancellation or the environment's success signal, and every
   * step is stored first as Running and then with its verdict.
   */
  lemma {:induction false} StepsProperties(flows: seq<Flow>, i: nat, p: PipelineProgress, env: Env,
                                           runners: set<FlowType>, exec: Executor)
    requires i < |flows| && |p.flowProgresses| == i && FollowsFlows(p.flowProgresses, flows)
    requires DoneSucceeded(p.flowProgresses, i)
    ensures StepsShape(flows, i, p, Steps(flows, i, p, env, runners, exec))
    decreases |flows| - i
  {
    var started := StartStep(p, flows[i]);
    var ran := RunFlow(i, flows[i], env, runners, exec);
    var v := Classify(ran.1, ran.0);
    var ended := EndStep(started, v, ran.0);
    StartEndStep(flows, i, p, v, ran.0);
    var l := Steps(flows, i, p, env, runners, exec);
    if v.stop {
      assert l == Loop(ended, ran.0, [started, ended]);
      assert v.status == Succeed ==> Define.PipelineSucceed(ran.0);
      ShapeOfLastStep(flows, i, p, started, ended, ran.0);
    } else if i + 1 == |flows| {
      assert Steps(flows, i + 1, ended, ran.0, runners, exec) == Loop(ended, ran.0, []);
      assert [started, ended] + [] == [started, ended];
      assert l == Loop(ended, ran.0, [started, ended]);
      ShapeOfLastStep(flows, i, p, started, ended, ran.0);
    } else {
      var rest := Steps(flows, i + 1, ended, ran.0, runners, exec);
      assert l == Loop(rest.progress, rest.env, [started, ended] + rest.stores);
      StepsProperties(flows, i + 1, ended, ran.0, runners, exec);
      ShapeCons(flows, i, p, started, ended, rest);
    }
  }

  // ------------------------------------------------------------- Run properties

  /** With every entry but the last a success, the first bad entry can only be the last. */
  lemma FirstBadIsLast(fps: seq<FlowProgress>)
    requires |fps| > 0 && DoneSucceeded(fps, |fps| - 1)
    ensures FirstBad(fps) == if IsBad(fps[|fps| - 1].status) then Some(|fps| - 1) else None
  {
  }

  /** The first two records a run stores. */
  function StartedRecord(job: Pipeline): PipelineProgress {
    PipelineProgress(job, Started, "", [], Some(InitialEnv(job)), "", false, true, false)
  }

  /**
   * The final record of a run with at least one step: finished; its entries
   * follow the declared steps and are all finished; it is a success exactly
   * when every entry is; otherwise its status and its reason come from the
   * last entry, by index; and the loop ended early only on a failure, a
   * cancellation or the environment's success signal.
   */
  predicate FinalShape(final: PipelineProgress, flows: seq<Flow>) {
    var fps := final.flowProgresses;
    var last := |fps| - 1;
    final.finished
    && 0 < |fps| && FollowsFlows(fps, flows) && Orderly(final)
    && (forall j :: 0 <= j < |fps| ==> fps[j].finished)
    && (final.status == Succeed <==> forall j :: 0 <= j < |fps| ==> fps[j].status == Succeed)
    && final.status in {Succeed, Failed, Canceled}
    && (final.status == Failed ==> fps[last].status == Failed && final.failReason == FailedReason(last, fps[last].failReason))
    && (final.status == Canceled ==> fps[last].status == Canceled && final.failReason == CanceledPipelineReason(last))
    && (|fps| < |flows| ==> final.status != Succeed || (final.env.Some? && Define.PipelineSucceed(final.env.value)))
  }

  lemma FinishShape(flows: seq<Flow>, running: PipelineProgress, loop: Loop)
    requires running.flowProgresses == [] && running.status == Running
    requires StepsShape(flows, 0, running, loop)
    ensures FinalShape(Finish(loop.progress), flows)
  {
    var fps := loop.progress.flowProgresses;
    var last := |fps| - 1;
    FirstBadIsLast(fps);
    if IsBad(fps[last].status) {
      assert Finish(loop.progress).status == fps[last].status;
    } else {
      assert fps[last].status == Succeed;
      assert forall j :: 0 <= j < |fps| ==> fps[j].status == Succeed;
    }
  }

  /**
   * A run of a pipeline with at least one step stores the Started record, the
   * Running record, two records per step run, and a final record of the shape
   * above, which is what the table keeps; every stored record is orderly.
   */
  lemma RunOutcome(t: Table, root: string, job: Pipeline, runners: set<FlowType>, exec: Executor)
    requires job.uid != "" && |job.flows| > 0
    ensures var out := Run(t, root, PipelinePayload(job), JobIo(false, false, false), runners, exec);
      var final := out.stores[|out.stores| - 1];
      !out.retry && |out.stores| >= 3
      && out.stores[0] == StartedRecord(job) && out.stores[1] == StartedRecord(job).(status := Running)
      && out.table == t[job.uid := RunEntity(Entity(final, JobRootDir(root, job.uid), true))]
      && final.pipeline == job && FinalShape(final, job.flows)
      && (forall k :: 0 <= k < |out.stores| ==> Orderly(out.stores[k]))
  {
    var env := InitialEnv(job);
    var running := StartedRecord(job).(status := Running);
    var loop := Steps(job.flows, 0, running, env, runners, exec);
    StepsProperties(job.flows, 0, running, env, runners, exec);
    FinishShape(job.flows, running, loop);
    StepsKeepPipeline(job.flows, 0, running, env, runners, exec);
    RunWithSteps(t, root, job, runners, exec);
    OutcomeOfStores(t, root, job, loop, Run(t, root, PipelinePayload(job), JobIo(false, false, false), runners, exec));
  }

  /** A run with steps stores Started, Running, the loop's records and the post-loop record, and keeps the last. */
  lemma RunWithSteps(t: Table, root: string, job: Pipeline, runners: set<FlowType>, exec: Executor)
    requires job.uid != "" && |job.flows| > 0
    ensures var loop := Steps(job.flows, 0, StartedRecord(job).(status := Running), InitialEnv(job), runners, exec);
      Run(t, root, PipelinePayload(job), JobIo(false, false, false), runners, exec)
        == RunOutput(false, t[job.uid := RunEntity(Entity(Finish(loop.progress), JobRootDir(root, job.uid), true))],
                     [StartedRecord(job), StartedRecord(job).(status := Running)] + loop.stores + [Finish(loop.progress)])
  {
  }

  lemma OutcomeOfStores(t: Table, root: string, job: Pipeline, loop: Loop, out: RunOutput)
    requires out == RunOutput(false, t[job.uid := RunEntity(Entity(Finish(loop.progress), JobRootDir(root, job.uid), true))],
                              [StartedRecord(job), StartedRecord(job).(status := Running)] + loop.stores + [Finish(loop.progress)])
    requires Finish(loop.progress).pipeline == job && FinalShape(Finish(loop.progress), job.flows)
    requires forall k :: 0 <= k < |loop.stores| ==> Orderly(loop.stores[k])
    ensures var final := out.stores[|out.stores| - 1];
      !out.retry && |out.stores| >= 3
      && out.stores[0] == StartedRecord(job) && out.stores[1] == StartedRecord(job).(status := Running)
      && out.table == t[job.uid := RunEntity(Entity(final, JobRootDir(root, job.uid), true))]
      && final.pipeline == job && FinalShape(final, job.flows)
      && (forall k :: 0 <= k < |out.stores| ==> Orderly(out.stores[k]))
  {
    AllOrderly(StartedRecord(job), StartedRecord(job).(status := Running), loop.stores, Finish(loop.progress));
  }

  lemma AllOrderly(a: PipelineProgress, b: PipelineProgress, mid: seq<PipelineProgress>, z: PipelineProgress)
    requires Orderly(a) && Orderly(b) && Orderly(z)
    requires forall k :: 0 <= k < |mid| ==> Orderly(mid[k])
    ensures forall k :: 0 <= k < |[a, b] + mid + [z]| ==> Orderly(([a, b] + mid + [z])[k])
  {
    var all := [a, b] + mid + [z];
    forall k | 0 <= k < |all|
      ensures Orderly(all[k])
    {
      if 2 <= k < |all| - 1 {
        assert all[k] == mid[k - 2];
      }
    }
  }

  /** The loop never changes which pipeline the record belongs to. */
  lemma {:induction false} StepsKeepPipeline(flows: seq<Flow>, i: nat, p: PipelineProgress, env: Env,
                                             runners: set<FlowType>, exec: Executor)
    requires i <= |flows| && |p.flowProgresses| == i
    ensures Steps(flows, i, p, env, runners, exec).progress.pipeline == p.pipeline
    decreases |flows| - i
  {
    if i < |flows| {
      var started := StartStep(p, flows[i]);
      var ran := RunFlow(i, flows[i], env, runners, exec);
      var v := Classify(ran.1, ran.0);
      var ended := EndStep(started, v, ran.0);
      if !v.stop {
        StepsKeepPipeline(flows, i + 1, ended, ran.0, runners, exec);
      }
    }
  }

  /** A pipeline without steps is left Running, with no finish time. */
  lemma RunWithoutSteps(t: Table, root: string, job: Pipeline, runners: set<FlowType>, exec: Executor)
    requires job.uid != "" && job.flows == []
    ensures var out := Run(t, root, PipelinePayload(job), JobIo(false, false, false), runners, exec);
      !out.retry && out.stores == [StartedRecord(job), StartedRecord(job).(status := Running)]
      && out.table[job.uid].entity.progress.status == Running
      && !out.table[job.uid].entity.progress.finished
  {
  }

  /** When the job's directories or log file cannot be made, only the Started record is stored. */
  lemma RunIoFailure(t: Table, root: string, job: Pipeline, io: JobIo, runners: set<FlowType>, exec: Executor)
    requires job.uid != "" && (io.workDirErr || io.dataDirErr || io.logFileErr)
    ensures var out := Run(t, root, PipelinePayload(job), io, runners, exec);
      !out.retry && out.stores == [StartedRecord(job)]
      && out.table == t[job.uid := RunEntity(Entity(StartedRecord(job), JobRootDir(root, job.uid), true))]
  {
  }

  // ------------------------------------------------------------------ scenarios

  function SimpleFlow(uid: string, t: FlowType): Flow {
    Flow(uid, t, false, None, None, None, None)
  }

  /** The final record of a run, as the table keeps it. */
  function FinalRecord(out: RunOutput): PipelineProgress
    requires |out.stores| > 0
  {
    out.stores[|out.stores| - 1]
  }

  /** The final record of a run with steps is the post-loop scan of the loop's record. */
  lemma RunFinal(t: Table, root: string, job: Pipeline, runners: set<FlowType>, exec: Executor)
    requires job.uid != "" && |job.flows| > 0
    ensures FinalRecord(Run(t, root, PipelinePayload(job), JobIo(false, false, false), runners, exec))
         == Finish(Steps(job.flows, 0, StartedRecord(job).(status := Running), InitialEnv(job), runners, exec).progress)
  {
  }

  function CancelAtSecond(i: nat, f: Flow, e: Env): StepOutcome {
    StepOutcome(e, if i == 0 then Returned(None) else Returned(Some(Error("context canceled", true))))
  }

  lemma CanceledSecondLoop(job: Pipeline, p1: PipelineProgress, env: Env)
    requires job.flows == [SimpleFlow("a", Shell), SimpleFlow("b", Shell)] && |p1.flowProgresses| == 1
    ensures var p2 := Steps(job.flows, 1, p1, env, {Shell}, CancelAtSecond).progress;
      |p2.flowProgresses| == 2 && p2.flowProgresses[0] == p1.flowProgresses[0]
      && p2.flowProgresses[1].status == Canceled
      && p2.flowProgresses[1].failReason == CanceledReason(StepErrorPrefix(1, Shell) + ": context canceled")
  {
    var v := Verdict(Canceled, CanceledReason(StepErrorPrefix(1, Shell) + ": context canceled"), true);
    SecondRunCanceled(env);
    EndStepEntry(p1, job.flows[1], v, env);
    assert Steps(job.flows, 1, p1, env, {Shell}, CancelAtSecond).progress == EndStep(StartStep(p1, job.flows[1]), v, env);
  }

  /** The second step's cancellation reaches the classification wrapped with the step's prefix. */
  lemma SecondRunCanceled(env: Env)
    ensures var ran := RunFlow(1, SimpleFlow("b", Shell), env, {Shell}, CancelAtSecond);
      ran.0 == env && Classify(ran.1, ran.0)
        == Verdict(Canceled, CanceledReason(StepErrorPrefix(1, Shell) + ": context canceled"), true)
  {
    var err := Wrap(Error("context canceled", true), StepErrorPrefix(1, Shell));
    assert RunFlow(1, SimpleFlow("b", Shell), env, {Shell}, CancelAtSecond) == (env, Some(err));
  }

  /** Starting and ending a step appends one finished entry carrying the verdict. */
  lemma EndStepEntry(p: PipelineProgress, flow: Flow, v: Verdict, env: Env)
    ensures EndStep(StartStep(p, flow), v, env).flowProgresses
         == p.flowProgresses + [FlowProgress(flow, v.status, if v.status == Succeed then "" else v.reason, true)]
  {
    var s := StartStep(p, flow);
    assert s.flowProgresses[..|p.flowProgresses|] == p.flowProgresses;
  }

  /**
   * Two shell steps where the second is cancelled: the second entry is
   * Canceled with the wrapped message, and the pipeline is Canceled at index 1.
   */
  lemma CanceledSecondStep(t: Table, root: string)
    ensures var job := Pipeline("p", "", map[], [SimpleFlow("a", Shell), SimpleFlow("b", Shell)]);
      var final := FinalRecord(Run(t, root, PipelinePayload(job), JobIo(false, false, false), {Shell}, CancelAtSecond));
      |final.flowProgresses| == 2
      && final.flowProgresses[0].status == Succeed
      && final.flowProgresses[1].status == Canceled
      && final.flowProgresses[1].failReason == CanceledReason(StepErrorPrefix(1, Shell) + ": context canceled")
      && final.status == Canceled && final.failReason == CanceledPipelineReason(1)
  {
    var job := Pipeline("p", "", map[], [SimpleFlow("a", Shell), SimpleFlow("b", Shell)]);
    RunFinal(t, root, job, {Shell}, CancelAtSecond);
    var env := InitialEnv(job);
    var running := StartedRecord(job).(status := Running);
    var p1 := FirstOfTwoSucceeds(job, running, env);
    CanceledSecondLoop(job, p1, env);
    FinishCanceledSecond(Steps(job.flows, 1, p1, env, {Shell}, CancelAtSecond).progress);
  }

  /** The first of the two shell steps succeeds, and the loop goes on from the record it leaves. */
  lemma FirstOfTwoSucceeds(job: Pipeline, running: PipelineProgress, env: Env) returns (p1: PipelineProgress)
    requires job.flows == [SimpleFlow("a", Shell), SimpleFlow("b", Shell)] && running.flowProgresses == []
    requires Define.StatusKey !in env
    ensures |p1.flowProgresses| == 1 && p1.flowProgresses[0].status == Succeed
    ensures Steps(job.flows, 0, running, env, {Shell}, CancelAtSecond).progress
         == Steps(job.flows, 1, p1, env, {Shell}, CancelAtSecond).progress
  {
    Define.StatusSignals(env);
    p1 := EndStep(StartStep(running, job.flows[0]), Verdict(Succeed, "", false), env);
    assert RunFlow(0, job.flows[0], env, {Shell}, CancelAtSecond) == (env, None);
  }

  /** A succeeded entry followed by a cancelled one makes the pipeline Canceled at index 1. */
  lemma FinishCanceledSecond(p: PipelineProgress)
    requires |p.flowProgresses| == 2 && p.flowProgresses[0].status == Succeed && p.flowProgresses[1].status == Canceled
    ensures Finish(p).status == Canceled && Finish(p).failReason == CanceledPipelineReason(1)
    ensures Finish(p).flowProgresses == p.flowProgresses
  {
    assert FirstBad(p.flowProgresses) == Some(1);
  }

  /**
   * A first step that writes the success signal into the environment ends
   * the pipeline early: only its entry exists and the pipeline succeeds.
   */
  lemma EarlySuccess(t: Table, root: string)
    ensures var job := Pipeline("p", "", map[], [SimpleFlow("a", Lua), SimpleFlow("b", Shell), SimpleFlow("c", Shell)]);
      var exec: Executor := (i: nat, f: Flow, e: Env) =>
        StepOutcome(e[Define.StatusKey := Define.BuildSuccess], Returned(None));
      var final := FinalRecord(Run(t, root, PipelinePayload(job), JobIo(false, false, false), {Lua, Shell}, exec));
      |final.flowProgresses| == 1 && final.flowProgresses[0].status == Succeed && final.status == Succeed
  {
    var job := Pipeline("p", "", map[], [SimpleFlow("a", Lua), SimpleFlow("b", Shell), SimpleFlow("c", Shell)]);
    var exec: Executor := (i: nat, f: Flow, e: Env) =>
      StepOutcome(e[Define.StatusKey := Define.BuildSuccess], Returned(None));
    var env := InitialEnv(job);
    var running := StartedRecord(job).(status := Running);
    var env1 := env[Define.StatusKey := Define.BuildSuccess];
    assert Define.PipelineSucceed(env1) && !Define.PipelineFailed(env1);
    var p1 := EndStep(StartStep(running, job.flows[0]), Verdict(Succeed, "", true), env1);
    assert Steps(job.flows, 0, running, env, {Lua, Shell}, exec).progress == p1;
    FirstBadIsLast(p1.flowProgresses);
  }

  /**
   * A step whose type has no executor fails the pipeline at its index with the
   * unknown-type message, and a step that marks the environment failed fails
   * it with the environment's reason.
   */
  lemma UnknownTypeAndEnvFailure(t: Table, root: string)
    ensures var job := Pipeline("p", "", map[], [SimpleFlow("a", DockerBuild)]);
      var exec: Executor := (i: nat, f: Flow, e: Env) => StepOutcome(e, Returned(None));
      var final := FinalRecord(Run(t, root, PipelinePayload(job), JobIo(false, false, false), {Shell}, exec));
      final.status == Failed && final.failReason == FailedReason(0, UnknownTypeMessage(DockerBuild))
    ensures var job := Pipeline("p", "", map[], [SimpleFlow("a", Lua)]);
      var exec: Executor := (i: nat, f: Flow, e: Env) => StepOutcome(Define.Fail(e, "bad input"), Returned(None));
      var final := FinalRecord(Run(t, root, PipelinePayload(job), JobIo(false, false, false), {Lua}, exec));
      final.status == Failed && final.failReason == FailedReason(0, "bad input")
  {
    var job := Pipeline("p", "", map[], [SimpleFlow("a", DockerBuild)]);
    var exec: Executor := (i: nat, f: Flow, e: Env) => StepOutcome(e, Returned(None));
    var env := InitialEnv(job);
    var running := StartedRecord(job).(status := Running);
    var p1 := EndStep(StartStep(running, job.flows[0]), Verdict(Failed, UnknownTypeMessage(DockerBuild), true), env);
    assert Steps(job.flows, 0, running, env, {Shell}, exec).progress == p1;
    FirstBadIsLast(p1.flowProgresses);

    var job2 := Pipeline("p", "", map[], [SimpleFlow("a", Lua)]);
    var exec2: Executor := (i: nat, f: Flow, e: Env) => StepOutcome(Define.Fail(e, "bad input"), Returned(None));
    var env2 := InitialEnv(job2);
    var running2 := StartedRecord(job2).(status := Running);
    var failed := Define.Fail(env2, "bad input");
    var q1 := EndStep(StartStep(running2, job2.flows[0]), Verdict(Failed, "bad input", true), failed);
    assert Steps(job2.flows, 0, running2, env2, {Lua}, exec2).progress == q1;
    FirstBadIsLast(q1.flowProgresses);
  }
}
