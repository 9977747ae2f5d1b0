/**
 Properties of one run of `Start`, stated over its call trace and result and
 phrased against `ResolvesTo`, the description of steps 1-3 that does not
 depend on how `Start` computes them.
 */
module StartProperties {
  import opened Wrappers
  import opened AgentTypes
  import opened Agent

  /** Steps 1-3 succeed for some resolution. */
  ghost predicate Resolves(config: AgentConfig, env: Collaborators)
  {
    exists r :: ResolvesTo(config, env, r)
  }

  /** A failed workspace fetch is returned unchanged and nothing else is called. */
  lemma WorkspaceErrorAborts(config: AgentConfig, env: Collaborators)
    requires env.workspace.Err?
    ensures Start(config, env)
            == Run([GetWorkspace(config.workspaceId)], Fail(Collaborator(env.workspace.error)))
  {
  }

  /**
   `Start` reports that the project was not found exactly when no project of
   the fetched workspace carries the configured name, and then nothing but
   the workspace fetch has been called.
   */
  lemma ProjectNotFoundExactly(config: AgentConfig, env: Collaborators)
    ensures Start(config, env).result == Fail(ProjectNotFound)
            <==> env.workspace.Ok? && NoneNamed(env.workspace.value.projects, config.projectName)
    ensures Start(config, env).result == Fail(ProjectNotFound) ==>
              Start(config, env).trace == [GetWorkspace(config.workspaceId)]
  {
  }

  /**
   `Start` reports a missing repository URL exactly when the first project
   with the configured name has none; no provider lookup and no Git call has
   happened then.
   */
  lemma MissingUrlAborts(config: AgentConfig, env: Collaborators)
    ensures Start(config, env).result == Fail(RepositoryUrlNotFound)
            <==> && env.workspace.Ok?
                 && exists i :: IsFirstMatch(env.workspace.value.projects, config.projectName, i)
                                && env.workspace.value.projects[i].repository.url.None?
    ensures Start(config, env).result == Fail(RepositoryUrlNotFound) ==>
              Start(config, env).trace == [GetWorkspace(config.workspaceId)]
  {
  }

  /**
   With the project resolved and its URL present, a failed server
   configuration fetch is returned unchanged: the host matcher and every Git
   call are skipped.
   */
  lemma ConfigErrorAborts(config: AgentConfig, env: Collaborators, i: nat)
    requires env.workspace.Ok?
    requires IsFirstMatch(env.workspace.value.projects, config.projectName, i)
    requires env.workspace.value.projects[i].repository.url.Some?
    requires env.serverConfig.Err?
    ensures Start(config, env)
            == Run([GetWorkspace(config.workspaceId), GetConfig],
                   Fail(Collaborator(env.serverConfig.error)))
  {
  }

  /**
   Once steps 1-3 pass, the result of `Start` is the Tailscale outcome, and
   the trace ends with the ssh launch followed by the Tailscale start.
   */
  lemma ResultIsTailscale(config: AgentConfig, env: Collaborators, r: Resolution)
    requires ResolvesTo(config, env, r)
    ensures Start(config, env).result.Pass? <==> env.tailscale.Pass?
    ensures env.tailscale.Fail? ==>
              Start(config, env).result == Fail(Collaborator(env.tailscale.error))
    ensures var t := Start(config, env).trace;
            |t| >= 2 && t[|t| - 2] == SshStart && t[|t| - 1] == TailscaleStart
  {
  }

  /**
   Every failure of `Start` is one of the fatal ones: a failed workspace
   fetch, a missing project, a missing URL, a failed server configuration
   fetch, or a failed Tailscale start. Errors of the best-effort steps never
   reach the caller.
   */
  lemma FailuresAreFatalSteps(config: AgentConfig, env: Collaborators)
    requires Start(config, env).result.Fail?
    ensures var e := Start(config, env).result.error;
            || e == ProjectNotFound
            || e == RepositoryUrlNotFound
            || env.workspace == Err(e.fault)
            || env.serverConfig == Err(e.fault)
            || env.tailscale == Fail(e.fault)
  {
  }

  /** The existence check, the git configuration and both launches happen exactly when steps 1-3 pass. */
  lemma ServicesRunIffResolved(config: AgentConfig, env: Collaborators)
    ensures Occurs(Start(config, env).trace, ExistenceCheck) <==> Resolves(config, env)
    ensures Occurs(Start(config, env).trace, GitConfig) <==> Resolves(config, env)
    ensures Occurs(Start(config, env).trace, SshLaunch) <==> Resolves(config, env)
    ensures Occurs(Start(config, env).trace, TailscaleLaunch) <==> Resolves(config, env)
  {
    var t := Start(config, env).trace;
    var res := Resolve(config, env);
    if res.result.Ok? {
      var r := res.result.value;
      assert ResolvesTo(config, env, r);
      var repo := Materialize(r.project, (if r.provider.Some? then r.provider.value.token else None), env);
      var identity := ConfigureIdentity(r.provider, env);
      assert t == res.calls + (repo + identity + [SshStart, TailscaleStart]);
      assert StageOf(t[|res.calls|]) == ExistenceCheck;
      assert StageOf(t[|t| - 3]) == GitConfig;
      assert StageOf(t[|t| - 2]) == SshLaunch;
      assert StageOf(t[|t| - 1]) == TailscaleLaunch;
    } else {
      assert t == res.calls;
      assert RanksWithin(t, 0, 3);
    }
  }

  /**
   The clone happens exactly when steps 1-3 pass and the existence check
   succeeded and reported that the repository is absent.
   */
  lemma CloneOnlyWhenAbsent(config: AgentConfig, env: Collaborators)
    ensures Occurs(Start(config, env).trace, Clone)
            <==> Resolves(config, env) && env.repositoryExists == Ok(false)
  {
    var t := Start(config, env).trace;
    var res := Resolve(config, env);
    if res.result.Ok? {
      var r := res.result.value;
      assert ResolvesTo(config, env, r);
      var repo := Materialize(r.project, (if r.provider.Some? then r.provider.value.token else None), env);
      var identity := ConfigureIdentity(r.provider, env);
      assert t == res.calls + (repo + identity + [SshStart, TailscaleStart]);
      if env.repositoryExists == Ok(false) {
        assert StageOf(t[|res.calls| + 1]) == Clone;
      } else {
        assert !Occurs(repo, Clone);
        forall i | 0 <= i < |t|
          ensures StageOf(t[i]) != Clone
        {
          if i < |res.calls| {
            assert t[i] == res.calls[i];
          } else if i < |res.calls| + |repo| {
            assert t[i] == repo[i - |res.calls|];
          } else if i < |res.calls| + |repo| + |identity| {
            assert t[i] == identity[i - |res.calls| - |repo|];
          }
        }
      }
    } else {
      assert t == res.calls;
      assert RanksWithin(t, 0, 3);
    }
  }

  /**
   The clone targets the resolved project with the matched provider's token,
   and with no token when no provider matched; the existence check is asked
   about the same project.
   */
  lemma CloneUsesProviderToken(config: AgentConfig, env: Collaborators, r: Resolution)
    requires ResolvesTo(config, env, r)
    ensures RepositoryExists(r.project) in Start(config, env).trace
    ensures forall c :: c in Start(config, env).trace && StageOf(c) == Clone ==>
              c.project == r.project
              && c.authToken == (if r.provider.Some? then r.provider.value.token else None)
  {
    var res := Resolve(config, env);
    var t := Start(config, env).trace;
    var repo := Materialize(r.project, (if r.provider.Some? then r.provider.value.token else None), env);
    var identity := ConfigureIdentity(r.provider, env);
    assert t == res.calls + (repo + identity + [SshStart, TailscaleStart]);
    forall c | c in t && StageOf(c) == Clone
      ensures c == CloneRepository(r.project, (if r.provider.Some? then r.provider.value.token else None))
    {
      assert c in repo;
    }
  }

  /**
   The user data is fetched exactly when a provider matched, and then by that
   provider's id.
   */
  lemma UserDataOnlyWithProvider(config: AgentConfig, env: Collaborators, r: Resolution)
    requires ResolvesTo(config, env, r)
    ensures Occurs(Start(config, env).trace, UserDataFetch) <==> r.provider.Some?
    ensures forall c :: c in Start(config, env).trace && StageOf(c) == UserDataFetch ==>
              c == GetGitUserData(r.provider.value.id)
  {
    var res := Resolve(config, env);
    var t := Start(config, env).trace;
    var repo := Materialize(r.project, (if r.provider.Some? then r.provider.value.token else None), env);
    var identity := ConfigureIdentity(r.provider, env);
    var prefix := res.calls + repo;
    assert t == res.calls + (repo + identity + [SshStart, TailscaleStart]);
    assert t == prefix + identity + [SshStart, TailscaleStart];
    forall c | c in t && StageOf(c) == UserDataFetch
      ensures c in identity
    {
    }
    if r.provider.Some? {
      assert t[|prefix|] == identity[0];
    } else {
      forall i | 0 <= i < |t|
        ensures StageOf(t[i]) != UserDataFetch
      {
        assert t[i] in t;
      }
    }
  }

  /**
   The git configuration is set exactly once after steps 1-3 pass, with the
   fetched user data when a provider matched and its fetch succeeded, and
   with no user data otherwise.
   */
  lemma GitConfigUserData(config: AgentConfig, env: Collaborators, r: Resolution)
    requires ResolvesTo(config, env, r)
    ensures Occurs(Start(config, env).trace, GitConfig)
    ensures forall c :: c in Start(config, env).trace && StageOf(c) == GitConfig ==>
              (c.userData.Some? ==> r.provider.Some? && env.gitUserData == Ok(c.userData))
    ensures r.provider.Some? && env.gitUserData.Ok? ==>
              SetGitConfig(env.gitUserData.value) in Start(config, env).trace
    ensures r.provider.None? || env.gitUserData.Err? ==>
              SetGitConfig(None) in Start(config, env).trace
  {
    var res := Resolve(config, env);
    var t := Start(config, env).trace;
    var repo := Materialize(r.project, (if r.provider.Some? then r.provider.value.token else None), env);
    var identity := ConfigureIdentity(r.provider, env);
    var prefix := res.calls + repo;
    assert t == res.calls + (repo + identity + [SshStart, TailscaleStart]);
    assert t == prefix + identity + [SshStart, TailscaleStart];
    var last := identity[|identity| - 1];
    assert t[|prefix| + |identity| - 1] == last;
    forall c | c in t && StageOf(c) == GitConfig
      ensures c == last
    {
      var i :| 0 <= i < |t| && t[i] == c;
      assert i == |prefix| + |identity| - 1;
    }
  }

  /** No kind of call is made twice in one run. */
  lemma EachCallAtMostOnce(config: AgentConfig, env: Collaborators, i: nat, j: nat)
    requires i < |Start(config, env).trace| && j < |Start(config, env).trace|
    requires StageOf(Start(config, env).trace[i]) == StageOf(Start(config, env).trace[j])
    ensures i == j
  {
  }

  /**
   The outcomes of the best-effort steps (existence check, clone, user-data
   fetch, git configuration) and of the ssh server never change the result
   of `Start`.
   */
  lemma BestEffortOutcomesIgnored(
    config: AgentConfig, env: Collaborators,
    exists': Result<bool, Fault>, clone': Outcome<Fault>,
    userData': Result<Option<GitUserData>, Fault>, gitConfig': Outcome<Fault>,
    ssh': Outcome<Fault>)
    ensures Start(config, env.(repositoryExists := exists', clone := clone',
                               gitUserData := userData', setGitConfig := gitConfig',
                               ssh := ssh')).result
            == Start(config, env).result
  {
  }

  /**
   Outcomes that are only logged (clone, git configuration, ssh) leave the
   whole run, trace included, unchanged.
   */
  lemma LoggedOutcomesLeaveRunUnchanged(
    config: AgentConfig, env: Collaborators,
    clone': Outcome<Fault>, gitConfig': Outcome<Fault>, ssh': Outcome<Fault>)
    ensures Start(config, env.(clone := clone', setGitConfig := gitConfig', ssh := ssh'))
            == Start(config, env)
  {
    var env' := env.(clone := clone', setGitConfig := gitConfig', ssh := ssh');
    assert GetProject(config, env') == GetProject(config, env);
    assert forall url :: GetGitProvider(url, env') == GetGitProvider(url, env);
    assert Resolve(config, env') == Resolve(config, env);
    var res := Resolve(config, env);
    if res.result.Ok? {
      var r := res.result.value;
      assert Materialize(r.project, (if r.provider.Some? then r.provider.value.token else None), env')
             == Materialize(r.project, (if r.provider.Some? then r.provider.value.token else None), env);
      assert ConfigureIdentity(r.provider, env') == ConfigureIdentity(r.provider, env);
      assert Services(r, env') == Services(r, env);
    }
  }

  /**
   A run with a single project "app": no provider matches and the repository is
   absent, so the clone runs without a token, the git configuration gets no
   user data, both services are launched, and `Start` succeeds exactly when
   Tailscale does.
   */
  lemma SingleProjectScenario(env: Collaborators)
    requires env.workspace
             == Ok(Workspace("ws1", [Project("app", Repository(Some("https://git.example.com/org/app")))]))
    requires env.serverConfig.Ok?
    requires env.matchHost("https://git.example.com/org/app", env.serverConfig.value).None?
    requires env.repositoryExists == Ok(false)
    ensures var app := Project("app", Repository(Some("https://git.example.com/org/app")));
            Start(AgentConfig("ws1", "app"), env).trace
            == [GetWorkspace("ws1"), GetConfig,
                MatchProvider("https://git.example.com/org/app", env.serverConfig.value),
                RepositoryExists(app), CloneRepository(app, None), SetGitConfig(None),
                SshStart, TailscaleStart]
    ensures Start(AgentConfig("ws1", "app"), env).result.Pass? <==> env.tailscale.Pass?
  {
  }
}
