/**
 * The git cloner of the SCM step: the credential of a repository
 * configuration is turned into an authentication method, and the repository
 * is cloned, single-branch, at the configured branch. The clone itself and
 * the parsing of an SSH private key are outcomes supplied by the caller.
 */
module Git {
  import opened Wrappers
  import opened Errors
  import opened Api

  const RefPrefix := "refs/heads/"
  /** The user name of SSH public-key authentication. */
  const SshUser := "git"

  /** The authentication methods a clone may use; `NoAuth` is a nil method. */
  datatype Auth =
    | NoAuth
    | BasicAuth(username: string, password: string)
    | PublicKeys(user: string, privateKey: string, passphrase: string)
    | TokenAuth(token: string)

  /**
   * `getAuth`: no credential, or one of type NoCredit, means no
   * authentication; a user/password credential gives basic authentication;
   * an SSH credential gives public-key authentication as user "git" with the
   * password as passphrase, unless parsing the key fails (`keyErr`); every
   * other credential type gives token authentication with the password as
   * token.
   */
  function GetAuth(cfg: ScmCfg, keyErr: Option<Error>): (r: Result<Auth, Error>)
    ensures cfg.credit.None? ==> r == Ok(NoAuth)
    ensures r.Err? <==> cfg.credit.Some? && cfg.credit.value.creditType == TypeSSHPrivateKey && keyErr.Some?
    ensures r.Err? ==> r.error == keyErr.value
    ensures r == Ok(NoAuth) <==> cfg.credit.None? || cfg.credit.value.creditType == NoCredit
    ensures r.Ok? && r.value.BasicAuth? ==>
      cfg.credit.value.creditType == TypeUserPwd
      && r.value == BasicAuth(cfg.credit.value.username, cfg.credit.value.password)
    ensures r.Ok? && r.value.PublicKeys? ==>
      cfg.credit.value.creditType == TypeSSHPrivateKey
      && r.value == PublicKeys(SshUser, cfg.credit.value.privateKey, cfg.credit.value.password)
    ensures r.Ok? && r.value.TokenAuth? ==>
      cfg.credit.value.creditType.UnknownCreditType? && r.value == TokenAuth(cfg.credit.value.password)
  {
    match cfg.credit
    case None => Ok(NoAuth)
    case Some(c) =>
      match c.creditType
      case NoCredit => Ok(NoAuth)
      case TypeUserPwd => Ok(BasicAuth(c.username, c.password))
      case TypeSSHPrivateKey =>
        if keyErr.Some? then Err(keyErr.value) else Ok(PublicKeys(SshUser, c.privateKey, c.password))
      case UnknownCreditType(_) => Ok(TokenAuth(c.password))
  }

  /** Every credential type is answered by exactly one kind of authentication. */
  lemma GetAuthByType(cfg: ScmCfg, keyErr: Option<Error>)
    requires cfg.credit.Some?
    ensures var r := GetAuth(cfg, keyErr);
      match cfg.credit.value.creditType
      case NoCredit => r == Ok(NoAuth)
      case TypeUserPwd => r.Ok? && r.value.BasicAuth?
      case TypeSSHPrivateKey => (keyErr.None? ==> r.Ok? && r.value.PublicKeys?) && (keyErr.Some? ==> r.Err?)
      case UnknownCreditType(_) => r.Ok? && r.value.TokenAuth?
  {
  }

  // ------------------------------------------------------------------ the ref

  /** The reference of a branch, as the clone asks for it. */
  function BranchRef(branch: string): (r: string)
    ensures |r| == |RefPrefix| + |branch|
    ensures r[..|RefPrefix|] == RefPrefix
  {
    RefPrefix + branch
  }

  /** The branch can be read back from its reference. */
  lemma BranchRefRoundTrip(branch: string)
    ensures BranchRef(branch)[|RefPrefix|..] == branch
  {
  }

  /** Different branches are cloned under different references. */
  lemma BranchRefInjective(a: string, b: string)
    requires BranchRef(a) == BranchRef(b)
    ensures a == b
  {
    BranchRefRoundTrip(a);
    BranchRefRoundTrip(b);
  }

  // ---------------------------------------------------------------- the clone

  /** What `PlainCloneContext` is asked to do: clone into `dir`, single-branch, TLS checks skipped. */
  datatype CloneRequest = CloneRequest(
    dir: string,
    url: string,
    auth: Auth,
    referenceName: string,
    singleBranch: bool,
    insecureSkipTls: bool)

  /** The outcomes of the outside world: parsing the SSH key, and the clone. */
  datatype GitWorld = GitWorld(keyErr: Option<Error>, cloneErr: Option<Error>)

  /** The error of a clone, and the clone request made, if any. */
  datatype CloneRun = CloneRun(err: Option<Error>, request: Option<CloneRequest>)

  /**
   * `Clone`: an authentication error is wrapped and no clone is made;
   * otherwise the repository at the configured address is cloned into the
   * workspace at the configured branch, and a clone error is wrapped.
   */
  function Clone(workDir: string, cfg: ScmCfg, w: GitWorld): (r: CloneRun)
    ensures GetAuth(cfg, w.keyErr).Err? ==>
      r == CloneRun(Some(Wrap(GetAuth(cfg, w.keyErr).error, "解析代码拉取凭证失败")), None)
    ensures GetAuth(cfg, w.keyErr).Ok? ==>
      r.request == Some(CloneRequest(workDir, cfg.address, GetAuth(cfg, w.keyErr).value, BranchRef(cfg.branch), true, true))
      && r.err == WrapOpt(w.cloneErr, "代码拉取失败")
  {
    match GetAuth(cfg, w.keyErr)
    case Err(e) => CloneRun(Some(Wrap(e, "解析代码拉取凭证失败")), None)
    case Ok(auth) =>
      var req := CloneRequest(workDir, cfg.address, auth, BranchRef(cfg.branch), true, true);
      CloneRun(WrapOpt(w.cloneErr, "代码拉取失败"), Some(req))
  }

  /** The clone succeeds exactly when the credential is usable and the clone itself succeeds. */
  lemma CloneSucceedsIff(workDir: string, cfg: ScmCfg, w: GitWorld)
    ensures Clone(workDir, cfg, w).err.None? <==>
      !(cfg.credit.Some? && cfg.credit.value.creditType == TypeSSHPrivateKey && w.keyErr.Some?) && w.cloneErr.None?
  {
  }

  /** A clone that is requested asks for exactly the configured branch. */
  lemma CloneAsksForBranch(workDir: string, cfg: ScmCfg, w: GitWorld)
    requires Clone(workDir, cfg, w).request.Some?
    ensures var req := Clone(workDir, cfg, w).request.value;
      req.referenceName[|RefPrefix|..] == cfg.branch && req.singleBranch && req.dir == workDir
  {
    BranchRefRoundTrip(cfg.branch);
  }
}
