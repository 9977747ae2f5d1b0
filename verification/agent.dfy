/**
 The startup decision logic of the per-workspace agent: project lookup, the
 git-provider lookup, and the `Start` sequencer with its fatal/non-fatal
 policy. Every collaborator outcome comes from a `Collaborators` record; the
 functions here decide which calls are made, with which arguments, and what
 `Start` returns.

 The steps of `Start`, in order: 1 project lookup, 2 URL check, 3 provider
 lookup, 4 repository existence check and clone, 5 user-data fetch, 6 git
 configuration, 7 ssh launch, 8 Tailscale start. Failures in steps 1-3 abort
 startup; steps 4-6 are best effort; the outcome of step 7 is not observed;
 the outcome of step 8 is the result.
 */
module Agent {
  import opened Wrappers
  import opened AgentTypes

  /** `projects[i]` carries `name` and no earlier project does. */
  predicate IsFirstMatch(projects: seq<Project>, name: string, i: int)
  {
    && 0 <= i < |projects|
    && projects[i].name == name
    && forall j :: 0 <= j < i ==> projects[j].name != name
  }

  /** No project of `projects` carries `name`. */
  predicate NoneNamed(projects: seq<Project>, name: string)
  {
    forall j :: 0 <= j < |projects| ==> projects[j].name != name
  }

  /** The scan in `getProject`: the position of the first project named `name`. */
  function FirstMatch(projects: seq<Project>, name: string): (r: Option<nat>)
    ensures r.Some? ==> IsFirstMatch(projects, name, r.value)
    ensures r.None? <==> NoneNamed(projects, name)
  {
    if |projects| == 0 then None
    else if projects[0].name == name then Some(0)
    else
      match FirstMatch(projects[1..], name)
      case None => None
      case Some(i) => Some(i + 1)
  }

  /** `getProject`: fetch the workspace and select the configured project. */
  function GetProject(config: AgentConfig, env: Collaborators): (s: Step<Project>)
    ensures s.calls == [GetWorkspace(config.workspaceId)]
    ensures env.workspace.Err? ==> s.result == Err(Collaborator(env.workspace.error))
    ensures s.result == Err(ProjectNotFound)
            <==> env.workspace.Ok? && NoneNamed(env.workspace.value.projects, config.projectName)
    ensures s.result.Ok?
            <==> env.workspace.Ok? && !NoneNamed(env.workspace.value.projects, config.projectName)
    ensures s.result.Ok? ==>
              && env.workspace.Ok?
              && exists i :: IsFirstMatch(env.workspace.value.projects, config.projectName, i)
                             && env.workspace.value.projects[i] == s.result.value
  {
    var calls := [GetWorkspace(config.workspaceId)];
    match env.workspace
    case Err(f) => Step(calls, Err(Collaborator(f)))
    case Ok(w) =>
      match FirstMatch(w.projects, config.projectName)
      case None => Step(calls, Err(ProjectNotFound))
      case Some(i) => Step(calls, Ok(w.projects[i]))
  }

  /**
   `getGitProvider`: fetch the server configuration (the API client and the
   config request share one outcome) and match the repository URL against
   its providers. Finding no provider is not an error.
   */
  function GetGitProvider(url: string, env: Collaborators): (s: Step<Option<GitProvider>>)
    ensures s.result.Err? <==> env.serverConfig.Err?
    ensures s.result.Err? ==>
              s.calls == [GetConfig] && s.result.error == Collaborator(env.serverConfig.error)
    ensures s.result.Ok? ==>
              && s.calls == [GetConfig, MatchProvider(url, env.serverConfig.value)]
              && s.result.value == env.matchHost(url, env.serverConfig.value)
  {
    match env.serverConfig
    case Err(f) => Step([GetConfig], Err(Collaborator(f)))
    case Ok(providers) =>
      Step([GetConfig, MatchProvider(url, providers)], Ok(env.matchHost(url, providers)))
  }

  /**
   What steps 1-3 of `Start` establish, stated without reference to how they
   are computed: the workspace fetch succeeded, `r.project` is the first
   project with the configured name, its URL is `r.url`, the server
   configuration was fetched and `r.provider` is what the host matcher makes
   of the URL.
   */
  ghost predicate ResolvesTo(config: AgentConfig, env: Collaborators, r: Resolution)
  {
    && env.workspace.Ok?
    && (exists i :: IsFirstMatch(env.workspace.value.projects, config.projectName, i)
                    && env.workspace.value.projects[i] == r.project)
    && r.project.repository.url == Some(r.url)
    && env.serverConfig.Ok?
    && r.provider == env.matchHost(r.url, env.serverConfig.value)
  }

  lemma FirstMatchUnique(projects: seq<Project>, name: string, i: int, k: int)
    requires IsFirstMatch(projects, name, i) && IsFirstMatch(projects, name, k)
    ensures i == k
  {
  }

  /** Steps 1-3 of `Start`: the prefix whose failures abort startup. */
  function Resolve(config: AgentConfig, env: Collaborators): (s: Step<Resolution>)
    ensures InStartOrder(s.calls) && RanksWithin(s.calls, 0, 3)
    ensures 0 < |s.calls| && s.calls[0] == GetWorkspace(config.workspaceId)
    ensures s.result.Ok? ==> ResolvesTo(config, env, s.result.value)
    ensures s.result.Ok? ==>
              s.calls == [GetWorkspace(config.workspaceId), GetConfig,
                          MatchProvider(s.result.value.url, env.serverConfig.value)]
    ensures forall r :: ResolvesTo(config, env, r) ==> s.result == Ok(r)
  {
    var found := GetProject(config, env);
    match found.result
    case Err(e) => Step(found.calls, Err(e))
    case Ok(project) =>
      match project.repository.url
      case None => Step(found.calls, Err(RepositoryUrlNotFound))
      case Some(url) =>
        var lookup := GetGitProvider(url, env);
        var calls := found.calls + lookup.calls;
        match lookup.result
        case Err(e) => Step(calls, Err(e))
        case Ok(provider) => Step(calls, Ok(Resolution(project, url, provider)))
  }

  /**
   Step 4 of `Start`: check whether the repository exists and clone it only
   when the check succeeded and said no. Neither a failed check nor a failed
   clone changes what happens next.
   */
  function Materialize(project: Project, token: Option<string>, env: Collaborators): (calls: seq<Call>)
    ensures InStartOrder(calls) && RanksWithin(calls, 3, 5)
    ensures 0 < |calls| && calls[0] == RepositoryExists(project)
    ensures Occurs(calls, Clone) <==> env.repositoryExists == Ok(false)
    ensures forall c :: c in calls && StageOf(c) == Clone ==> c == CloneRepository(project, token)
  {
    var check := [RepositoryExists(project)];
    if env.repositoryExists == Ok(false) then
      var calls := check + [CloneRepository(project, token)];
      assert StageOf(calls[1]) == Clone;
      calls
    else
      check
  }

  /**
   Steps 5-6 of `Start`: fetch the user data only when a provider matched,
   fall back to no user data when that fetch fails, then set the git
   configuration exactly once.
   */
  function ConfigureIdentity(provider: Option<GitProvider>, env: Collaborators): (calls: seq<Call>)
    ensures InStartOrder(calls) && RanksWithin(calls, 5, 7)
    ensures Occurs(calls, UserDataFetch) <==> provider.Some?
    ensures forall c :: c in calls && StageOf(c) == UserDataFetch ==> c == GetGitUserData(provider.value.id)
    ensures 0 < |calls| && StageOf(calls[|calls| - 1]) == GitConfig
    ensures calls[|calls| - 1].userData.Some? ==>
              provider.Some? && env.gitUserData == Ok(calls[|calls| - 1].userData)
    ensures provider.Some? && env.gitUserData.Ok? ==>
              calls[|calls| - 1] == SetGitConfig(env.gitUserData.value)
  {
    var fetch := if provider.Some? then [GetGitUserData(provider.value.id)] else [];
    var userData :=
      if provider.Some? && env.gitUserData.Ok? then env.gitUserData.value else None;
    var calls := fetch + [SetGitConfig(userData)];
    assert provider.Some? ==> StageOf(calls[0]) == UserDataFetch;
    calls
  }

  lemma OrderedConcat(a: seq<Call>, b: seq<Call>, lo: nat, mid: nat, hi: nat)
    requires lo <= mid <= hi
    requires InStartOrder(a) && RanksWithin(a, lo, mid)
    requires InStartOrder(b) && RanksWithin(b, mid, hi)
    ensures InStartOrder(a + b) && RanksWithin(a + b, lo, hi)
  {
  }

  /** Appending the two launches to the repository and identity calls keeps the order and puts them last. */
  lemma LaunchesLast(repo: seq<Call>, identity: seq<Call>)
    requires InStartOrder(repo) && RanksWithin(repo, 3, 5)
    requires InStartOrder(identity) && RanksWithin(identity, 5, 7)
    ensures var calls := repo + identity + [SshStart, TailscaleStart];
            && InStartOrder(calls) && RanksWithin(calls, 3, 9)
            && |calls| >= 2 && calls[|calls| - 2] == SshStart && calls[|calls| - 1] == TailscaleStart
  {
    OrderedConcat(repo, identity, 3, 5, 7);
    OrderedConcat(repo + identity, [SshStart, TailscaleStart], 3, 7, 9);
  }

  /**
   Steps 4-8 of `Start`, run once steps 1-3 have passed: the repository, the
   git identity, then the ssh launch and, last, the Tailscale start.
   */
  function Services(r: Resolution, env: Collaborators): (calls: seq<Call>)
    ensures InStartOrder(calls) && RanksWithin(calls, 3, 9)
    ensures |calls| >= 2 && calls[|calls| - 2] == SshStart && calls[|calls| - 1] == TailscaleStart
  {
    var repo := match r.provider
      case None => Materialize(r.project, None, env)
      case Some(p) => Materialize(r.project, p.token, env);
    var identity := ConfigureIdentity(r.provider, env);
    LaunchesLast(repo, identity);
    repo + identity + [SshStart, TailscaleStart]
  }

  /**
   `Agent.Start`. Steps 1-3 abort startup on failure; the repository, user
   data and git configuration steps are best effort; the ssh server is
   launched without observing its outcome; the Tailscale outcome is the
   result.
   */
  function Start(config: AgentConfig, env: Collaborators): (run: Run)
    ensures InStartOrder(run.trace)
    ensures 0 < |run.trace| && run.trace[0] == GetWorkspace(config.workspaceId)
    ensures run.result.Pass? ==>
              env.tailscale.Pass? && run.trace[|run.trace| - 1] == TailscaleStart
  {
    var res := Resolve(config, env);
    match res.result
    case Err(e) => Run(res.calls, Fail(e))
    case Ok(r) =>
      var services := Services(r, env);
      OrderedConcat(res.calls, services, 0, 3, 9);
      var result := match env.tailscale
        case Pass => Pass
        case Fail(f) => Fail(Collaborator(f));
      Run(res.calls + services, result)
  }
}
