/**
 * The step executors the service registers with the processor, one per
 * declared step type, joined into the processor's executor. Each step is
 * given the outside world it meets. The SCM step is the runner as the
 * service registers it, which lets a version-control system it has no
 * cloner for pass; a second executor uses the intended SCM runner instead.
 */
module Runners {
  import opened Wrappers
  import opened Errors
  import opened Api
  import Define
  import Processor
  import Scm
  import Git
  import Shell
  import DockerBuild
  import Lua
  import LuaPool

  /** The step types with a registered executor. */
  const Registered: set<FlowType> := {SCM, Shell, DockerBuild, Lua}

  /** What the outside world answers to one step, whichever its type. */
  datatype StepWorld = StepWorld(
    git: Git.GitWorld,
    shell: Shell.ShellWorld,
    docker: DockerBuild.DockerWorld,
    pool: LuaPool.Pool,
    created: LuaPool.Vm,
    interp: Lua.Interpreter)

  /**
   * The result and environment of one registered step, run in the job's
   * workspace by the executor registered for its type. The SCM executor is
   * the one the service registers, as written.
   */
  function RunStep(workDir: string, flow: Flow, env: Define.Env, w: StepWorld): (r: Processor.StepOutcome)
    requires flow.flowType in Registered
    ensures flow.flowType == SCM ==> r == Processor.StepOutcome(env, Scm.RunAsWritten(workDir, flow, env, w.git).result)
    ensures flow.flowType == Shell ==> r == Processor.StepOutcome(env, Shell.Run(workDir, flow, env, w.shell).result)
    ensures flow.flowType == DockerBuild ==> r == Processor.StepOutcome(env, DockerBuild.Run(workDir, flow, env, w.docker).result)
    ensures flow.flowType == Lua ==>
      var l := Lua.Run(flow, env, w.pool, w.created, w.interp);
      r == Processor.StepOutcome(l.env, l.result)
    ensures flow.flowType != Lua ==> r.env == env
  {
    match flow.flowType
    case SCM => Processor.StepOutcome(env, Scm.RunAsWritten(workDir, flow, env, w.git).result)
    case Shell => Processor.StepOutcome(env, Shell.Run(workDir, flow, env, w.shell).result)
    case DockerBuild => Processor.StepOutcome(env, DockerBuild.Run(workDir, flow, env, w.docker).result)
    case Lua =>
      var l := Lua.Run(flow, env, w.pool, w.created, w.interp);
      Processor.StepOutcome(l.env, l.result)
  }

  /** The same step with the SCM executor as intended, which fails on a system it has no cloner for. */
  function IntendedRunStep(workDir: string, flow: Flow, env: Define.Env, w: StepWorld): (r: Processor.StepOutcome)
    requires flow.flowType in Registered
    ensures flow.flowType == SCM ==> r == Processor.StepOutcome(env, Scm.Run(workDir, flow, env, w.git).result)
    ensures flow.flowType != SCM ==> r == RunStep(workDir, flow, env, w)
  {
    if flow.flowType == SCM then Processor.StepOutcome(env, Scm.Run(workDir, flow, env, w.git).result)
    else RunStep(workDir, flow, env, w)
  }

  /** The processor's executor: step `i` meets world `worlds(i)`; only a Lua step passes on a changed environment. */
  function Executor(workDir: string, worlds: nat -> StepWorld): (r: Processor.Executor)
    ensures forall i: nat, flow: Flow, env: Define.Env :: flow.flowType != Lua ==> r(i, flow, env).env == env
  {
    var f := (i: nat, flow: Flow, env: Define.Env) =>
      if flow.flowType in Registered then RunStep(workDir, flow, env, worlds(i))
      else Processor.StepOutcome(env, Returned(None));
    assert forall i: nat, flow: Flow, env: Define.Env :: flow.flowType != Lua ==> f(i, flow, env).env == env by {
      forall i: nat, flow: Flow, env: Define.Env | flow.flowType != Lua
        ensures f(i, flow, env).env == env
      {
        if flow.flowType in Registered {
          assert f(i, flow, env) == RunStep(workDir, flow, env, worlds(i));
        }
      }
    }
    f
  }

  /** The executor with the intended SCM executor. */
  function IntendedExecutor(workDir: string, worlds: nat -> StepWorld): (r: Processor.Executor)
    ensures forall i: nat, flow: Flow, env: Define.Env :: flow.flowType != Lua ==> r(i, flow, env).env == env
  {
    var f := (i: nat, flow: Flow, env: Define.Env) =>
      if flow.flowType in Registered then IntendedRunStep(workDir, flow, env, worlds(i))
      else Processor.StepOutcome(env, Returned(None));
    assert forall i: nat, flow: Flow, env: Define.Env :: flow.flowType != Lua ==> f(i, flow, env).env == env by {
      forall i: nat, flow: Flow, env: Define.Env | flow.flowType != Lua
        ensures f(i, flow, env).env == env
      {
        if flow.flowType in Registered {
          assert f(i, flow, env) == IntendedRunStep(workDir, flow, env, worlds(i));
        }
      }
    }
    f
  }

  /**
   * As the service runs it, an SCM step for a system without a cloner
   * succeeds without cloning: the environment is unchanged, and the step is
   * recorded as a success unless the environment already marks the pipeline
   * failed.
   */
  lemma UnknownSystemPassesStep(i: nat, workDir: string, flow: Flow, env: Define.Env, worlds: nat -> StepWorld)
    requires flow.flowType == SCM && flow.scmCfg.Some? && flow.scmCfg.value.vcsType != Git
    ensures Processor.RunFlow(i, flow, env, Registered, Executor(workDir, worlds)) == (env, None)
    ensures !Define.PipelineFailed(env) ==> Processor.Classify(None, env).status == Succeed
  {
    assert Executor(workDir, worlds)(i, flow, env) == RunStep(workDir, flow, env, worlds(i));
  }

  /**
   * With the intended SCM executor the same step fails with the cloner
   * error under the step's prefix.
   */
  lemma UnknownSystemFailsStep(i: nat, workDir: string, flow: Flow, env: Define.Env, worlds: nat -> StepWorld)
    requires flow.flowType == SCM && flow.scmCfg.Some? && flow.scmCfg.value.vcsType != Git
    ensures Processor.RunFlow(i, flow, env, Registered, IntendedExecutor(workDir, worlds))
      == (env, Some(Wrap(New(Scm.NoClonerMessage(flow.scmCfg.value.vcsType)), Processor.StepErrorPrefix(i, SCM))))
  {
    assert IntendedExecutor(workDir, worlds)(i, flow, env) == IntendedRunStep(workDir, flow, env, worlds(i));
  }

  /** Every step type without a registered executor fails its step as unknown. */
  lemma UnregisteredTypeFails(i: nat, workDir: string, flow: Flow, env: Define.Env, worlds: nat -> StepWorld)
    requires flow.flowType.UnknownFlowType?
    ensures Processor.RunFlow(i, flow, env, Registered, Executor(workDir, worlds))
      == (env, Some(New(Processor.UnknownTypeMessage(flow.flowType))))
  {
  }

  /** A step whose configuration of its own type is missing panics, and the panic becomes its error. */
  lemma MissingConfigPanics(i: nat, workDir: string, flow: Flow, env: Define.Env, worlds: nat -> StepWorld)
    requires flow.flowType in Registered
    requires (flow.flowType == SCM && flow.scmCfg.None?) || (flow.flowType == Shell && flow.shellCfg.None?)
          || (flow.flowType == DockerBuild && flow.dockerBuildCfg.None?) || (flow.flowType == Lua && flow.luaCfg.None?)
    ensures Processor.RunFlow(i, flow, env, Registered, Executor(workDir, worlds)).1
      == Some(New(Processor.PanicMessage(NilDereference)))
  {
    assert Executor(workDir, worlds)(i, flow, env) == RunStep(workDir, flow, env, worlds(i));
  }

  /** Only a Lua step can change the environment the later steps see. */
  lemma OnlyLuaWritesEnv(i: nat, workDir: string, flow: Flow, env: Define.Env, worlds: nat -> StepWorld)
    requires flow.flowType != Lua
    ensures Processor.RunFlow(i, flow, env, Registered, Executor(workDir, worlds)).0 == env
  {
  }
}
