/**
 * The protobuf messages of the executor's v1 API (pipelines, steps, their
 * configuration and progress records), as far as the executor reads or
 * writes them. Timestamps are reduced to whether they have been set.
 */
module Api {
  import opened Wrappers
  import opened Text

  type Env = map<string, string>

  datatype Status = Created | Started | Running | Succeed | Failed | Canceled

  /** Step types; a value outside the declared ones keeps its number. */
  datatype FlowType = SCM | Shell | DockerBuild | Lua | UnknownFlowType(code: int)

  /** The protobuf `String()` of a step type: its declared name, or its number when undeclared. */
  function FlowTypeName(t: FlowType): string {
    match t
    case SCM => "SCM"
    case Shell => "Shell"
    case DockerBuild => "DockerBuild"
    case Lua => "Lua"
    case UnknownFlowType(code) => IntToString(code)
  }

  datatype VcsType = Git | UnknownVcsType(code: int)

  function VcsTypeName(t: VcsType): string {
    match t
    case Git => "Git"
    case UnknownVcsType(code) => IntToString(code)
  }

  datatype CreditType = NoCredit | TypeUserPwd | TypeSSHPrivateKey | UnknownCreditType(code: int)

  datatype Credit = Credit(creditType: CreditType, username: string, password: string, privateKey: string)

  datatype ScmCfg = ScmCfg(vcsType: VcsType, address: string, branch: string, credit: Option<Credit>)

  datatype ImagePullPolicy = Never | Always | IfNotPresent | UnknownPullPolicy(code: int)

  datatype ShellCfg = ShellCfg(cmd: string, dockerImage: string, withDocker: bool, imagePullPolicy: ImagePullPolicy)

  datatype DockerBuildCfg = DockerBuildCfg(baseImage: string, targetImage: string, dockerfile: string, pushAfterBuild: bool)

  datatype LuaCfg = LuaCfg(script: string)

  /** A step. Each configuration is a message pointer that may be nil. */
  datatype Flow = Flow(
    uid: string,
    flowType: FlowType,
    noEnvRender: bool,
    scmCfg: Option<ScmCfg>,
    shellCfg: Option<ShellCfg>,
    dockerBuildCfg: Option<DockerBuildCfg>,
    luaCfg: Option<LuaCfg>)

  datatype Pipeline = Pipeline(uid: string, title: string, params: Env, flows: seq<Flow>)

  datatype FlowProgress = FlowProgress(flow: Flow, status: Status, failReason: string, finished: bool)

  datatype PipelineProgress = PipelineProgress(
    pipeline: Pipeline,
    status: Status,
    curRunningFlowId: string,
    flowProgresses: seq<FlowProgress>,
    env: Option<Env>,
    failReason: string,
    created: bool,
    started: bool,
    finished: bool)
}
