/**
 * The SCM step executor: the version-control system of the step selects a
 * cloner (git is the only one), the repository configuration is rendered
 * with the pipeline's environment, and the repository is cloned into the
 * job's workspace.
 */
module Scm {
  import opened Wrappers
  import opened Errors
  import opened Api
  import Define
  import Git
  import Text

  const ClonePrefix := "代码拉取失败"

  // -------------------------------------------------------------- rendering

  /** The credential as `renderCfg` leaves it: rendered unless absent or of type NoCredit. */
  function RenderCredit(env: Define.Env, credit: Option<Credit>): (r: Option<Credit>)
    ensures r.None? <==> credit.None?
    ensures r.Some? ==> r.value.creditType == credit.value.creditType
    ensures credit.Some? && credit.value.creditType == NoCredit ==> r == credit
  {
    match credit
    case None => None
    case Some(c) =>
      if c.creditType == NoCredit then credit
      else Some(c.(username := Define.RenderByEnv(env, c.username),
                   password := Define.RenderByEnv(env, c.password),
                   privateKey := Define.RenderByEnv(env, c.privateKey)))
  }

  /**
   * `renderCfg`: nothing changes when rendering is off; otherwise the address
   * and the branch are rendered, and so is the credential unless it is
   * absent or of type NoCredit. The system type is never touched.
   */
  function RenderCfg(flow: Flow, env: Define.Env): (r: Flow)
    requires flow.noEnvRender || flow.scmCfg.Some?
    ensures flow.noEnvRender ==> r == flow
    ensures r.scmCfg.Some? <==> flow.scmCfg.Some?
    ensures r.(scmCfg := flow.scmCfg) == flow
    ensures r.scmCfg.Some? ==> r.scmCfg.value.vcsType == flow.scmCfg.value.vcsType
  {
    if flow.noEnvRender then flow
    else
      var cfg := flow.scmCfg.value;
      flow.(scmCfg := Some(cfg.(address := Define.RenderByEnv(env, cfg.address),
                                branch := Define.RenderByEnv(env, cfg.branch),
                                credit := RenderCredit(env, cfg.credit))))
  }

  /** With rendering on, each rendered field is the field with its placeholders expanded. */
  lemma RenderCfgFields(flow: Flow, env: Define.Env)
    requires !flow.noEnvRender && flow.scmCfg.Some?
    ensures var cfg := flow.scmCfg.value;
      var out := RenderCfg(flow, env).scmCfg.value;
      out.address == Define.Expand(env, Define.Segments(cfg.address))
      && out.branch == Define.Expand(env, Define.Segments(cfg.branch))
      && (cfg.credit.Some? && cfg.credit.value.creditType != NoCredit ==>
            out.credit.value.username == Define.Expand(env, Define.Segments(cfg.credit.value.username))
            && out.credit.value.password == Define.Expand(env, Define.Segments(cfg.credit.value.password))
            && out.credit.value.privateKey == Define.Expand(env, Define.Segments(cfg.credit.value.privateKey)))
  {
    var cfg := flow.scmCfg.value;
    Define.RenderIsExpand(env, cfg.address);
    Define.RenderIsExpand(env, cfg.branch);
    if cfg.credit.Some? && cfg.credit.value.creditType != NoCredit {
      Define.RenderIsExpand(env, cfg.credit.value.username);
      Define.RenderIsExpand(env, cfg.credit.value.password);
      Define.RenderIsExpand(env, cfg.credit.value.privateKey);
    }
  }

  /** Rendering with an empty environment changes nothing. */
  lemma RenderCfgEmptyEnv(flow: Flow)
    requires flow.scmCfg.Some?
    ensures RenderCfg(flow, map[]) == flow
  {
  }

  // -------------------------------------------------------------------- Run

  /** The step's result, its configuration as rendered, and the clone it asked for. */
  datatype ScmRun = ScmRun(flow: Flow, result: RunResult, clone: Option<Git.CloneRequest>)

  /** The message of the error for a system without a cloner: the system's name in brackets. */
  function NoClonerMessage(t: VcsType): (r: string)
    ensures |r| == |"找不到该平台["| + |VcsTypeName(t)| + |"]的代码拉取工具"|
    ensures r[..|"找不到该平台["|] == "找不到该平台["
    ensures r[|"找不到该平台["|..|r| - |"]的代码拉取工具"|] == VcsTypeName(t)
    ensures r[|r| - |"]的代码拉取工具"|..] == "]的代码拉取工具"
  {
    "找不到该平台[" + VcsTypeName(t) + "]的代码拉取工具"
  }

  /** Two systems get the same message exactly when they have the same name. */
  lemma NoClonerMessageNamesSystem(a: VcsType, b: VcsType)
    ensures NoClonerMessage(a) == NoClonerMessage(b) <==> VcsTypeName(a) == VcsTypeName(b)
  {
    var ra, rb := NoClonerMessage(a), NoClonerMessage(b);
    if ra == rb {
      assert VcsTypeName(a) == ra[|"找不到该平台["|..|ra| - |"]的代码拉取工具"|];
    }
  }

  /** The git branch of `Runner.Run`: render, clone, and wrap a clone error. */
  function RunGit(workDir: string, flow: Flow, env: Define.Env, w: Git.GitWorld): (r: ScmRun)
    requires flow.scmCfg.Some?
    ensures r.flow == RenderCfg(flow, env)
    ensures var c := Git.Clone(workDir, r.flow.scmCfg.value, w);
      r.result == Returned(WrapOpt(c.err, ClonePrefix)) && r.clone == c.request
  {
    var f := RenderCfg(flow, env);
    var c := Git.Clone(workDir, f.scmCfg.value, w);
    ScmRun(f, Returned(WrapOpt(c.err, ClonePrefix)), c.request)
  }

  /**
   * `Runner.Run` as written. A nil repository configuration panics at the
   * dispatch. For a system other than git the error returned is
   * `errors.Wrapf` of the still-nil named result, which is nil: the step
   * succeeds without rendering or cloning anything.
   */
  function RunAsWritten(workDir: string, flow: Flow, env: Define.Env, w: Git.GitWorld): (r: ScmRun)
    ensures flow.scmCfg.None? ==> r == ScmRun(flow, Panicked(NilDereference), None)
    ensures flow.scmCfg.Some? && flow.scmCfg.value.vcsType != Git ==> r == ScmRun(flow, Returned(None), None)
    ensures flow.scmCfg.Some? && flow.scmCfg.value.vcsType == Git ==> r == RunGit(workDir, flow, env, w)
  {
    if flow.scmCfg.None? then ScmRun(flow, Panicked(NilDereference), None)
    else if flow.scmCfg.value.vcsType != Git then ScmRun(flow, Returned(WrapOpt(None, NoClonerMessage(flow.scmCfg.value.vcsType))), None)
    else RunGit(workDir, flow, env, w)
  }

  /** `Runner.Run` as intended: a system without a cloner fails the step with an error naming it. */
  function Run(workDir: string, flow: Flow, env: Define.Env, w: Git.GitWorld): (r: ScmRun)
    ensures flow.scmCfg.None? ==> r == ScmRun(flow, Panicked(NilDereference), None)
    ensures flow.scmCfg.Some? && flow.scmCfg.value.vcsType != Git ==>
      r == ScmRun(flow, Returned(Some(New(NoClonerMessage(flow.scmCfg.value.vcsType)))), None)
    ensures flow.scmCfg.Some? && flow.scmCfg.value.vcsType == Git ==> r == RunGit(workDir, flow, env, w)
  {
    if flow.scmCfg.None? then ScmRun(flow, Panicked(NilDereference), None)
    else if flow.scmCfg.value.vcsType != Git then
      ScmRun(flow, Returned(Some(New(NoClonerMessage(flow.scmCfg.value.vcsType)))), None)
    else RunGit(workDir, flow, env, w)
  }

  // --------------------------------------------------------- Run properties

  /** A clone error reaches the caller wrapped twice, once by the cloner and once by the runner. */
  lemma CloneErrorWrapped(workDir: string, flow: Flow, env: Define.Env, w: Git.GitWorld)
    requires flow.scmCfg.Some? && flow.scmCfg.value.vcsType == Git
    requires Git.GetAuth(RenderCfg(flow, env).scmCfg.value, w.keyErr).Ok? && w.cloneErr.Some?
    ensures Run(workDir, flow, env, w).result
      == Returned(Some(Wrap(Wrap(w.cloneErr.value, ClonePrefix), ClonePrefix)))
  {
  }

  /**
   * As intended, the step succeeds exactly when the system is git, the
   * rendered credential is usable and the clone succeeds; and a clone is
   * requested exactly for git with a usable credential.
   */
  lemma RunSucceedsIff(workDir: string, flow: Flow, env: Define.Env, w: Git.GitWorld)
    requires flow.scmCfg.Some?
    ensures var cfg := RenderCfg(flow, env).scmCfg.value;
      (Run(workDir, flow, env, w).result == Returned(None) <==>
        cfg.vcsType == Git && Git.GetAuth(cfg, w.keyErr).Ok? && w.cloneErr.None?)
      && (Run(workDir, flow, env, w).clone.Some? <==> cfg.vcsType == Git && Git.GetAuth(cfg, w.keyErr).Ok?)
  {
    var cfg := RenderCfg(flow, env).scmCfg.value;
    if cfg.vcsType == Git {
      Git.CloneSucceedsIff(workDir, cfg, w);
    }
  }

  /** A requested clone is of the rendered address at the rendered branch, into the workspace. */
  lemma RunClonesRenderedBranch(workDir: string, flow: Flow, env: Define.Env, w: Git.GitWorld)
    requires Run(workDir, flow, env, w).clone.Some?
    ensures flow.scmCfg.Some?
    ensures var cfg := RenderCfg(flow, env).scmCfg.value;
      var req := Run(workDir, flow, env, w).clone.value;
      req.dir == workDir && req.url == cfg.address && req.referenceName[|Git.RefPrefix|..] == cfg.branch
  {
    var cfg := RenderCfg(flow, env).scmCfg.value;
    Git.CloneAsksForBranch(workDir, cfg, w);
  }

  /**
   * As written, every system other than git makes the step succeed without a
   * clone, while the intended runner fails it; on git the two agree.
   */
  lemma RunAsWrittenIgnoresSystem(workDir: string, flow: Flow, env: Define.Env, w: Git.GitWorld)
    requires flow.scmCfg.Some?
    ensures flow.scmCfg.value.vcsType != Git ==>
      RunAsWritten(workDir, flow, env, w).result == Returned(None)
      && RunAsWritten(workDir, flow, env, w).clone.None?
      && Run(workDir, flow, env, w).result.Returned? && Run(workDir, flow, env, w).result.err.Some?
    ensures flow.scmCfg.value.vcsType == Git ==> RunAsWritten(workDir, flow, env, w) == Run(workDir, flow, env, w)
  {
  }

  /** The input that shows it: a repository of undeclared system number 1. */
  lemma UnknownSystemExample(workDir: string, env: Define.Env, w: Git.GitWorld)
    ensures var flow := Flow("f", SCM, false, Some(ScmCfg(UnknownVcsType(1), "https://example.com/r.git", "main", None)), None, None, None);
      RunAsWritten(workDir, flow, env, w).result == Returned(None)
      && Run(workDir, flow, env, w).result == Returned(Some(New("找不到该平台[1]的代码拉取工具")))
  {
    assert VcsTypeName(UnknownVcsType(1)) == "1" by {
      assert Text.IntToString(1) == Text.NatToString(1) == [Text.DigitChar(1)] == "1";
    }
    assert NoClonerMessage(UnknownVcsType(1)) == "找不到该平台[" + "1" + "]的代码拉取工具" == "找不到该平台[1]的代码拉取工具";
  }
}
