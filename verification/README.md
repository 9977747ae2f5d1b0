# Daytona agent startup — a Dafny model

This project models the startup decision logic of Daytona's per-workspace
agent, `Agent.Start` in `pkg/agent/agent.go`, together with its helpers
`getProject`, `getGitProvider` and `getGitUserData`.

`Start` runs eight steps in a fixed order:

1. project lookup: fetch the workspace and pick the configured project
   (agent.go:21-24, 80-93);
2. URL check: the project must have a repository URL (agent.go:26-28);
3. provider lookup: fetch the server configuration and match the URL's host
   against its git providers (agent.go:30-38, 95-112);
4. repository: check whether the repository exists and clone it if not
   (agent.go:40-55);
5. user data: fetch the git user data when a provider matched
   (agent.go:57-63, 114-126);
6. git config: set the local git configuration (agent.go:65-68);
7. ssh launch: start the ssh server in the background (agent.go:70-75);
8. Tailscale start: its outcome is the result of `Start` (agent.go:77).

A failure in steps 1-3 aborts startup. Steps 4-6 are best effort: their
errors are only logged. The outcome of step 7 is never observed.

Every collaborator is an outcome chosen in advance. This covers the
control-plane API client, Git, Ssh, Tailscale and the host matcher
`gitprovider.GetGitProviderFromHost`. The outcomes sit in one record,
`Collaborators`. Each modelled operation happens at most once per run: the
workspace fetch, config fetch, host match, user-data fetch, and the Git, Ssh
and Tailscale calls. So the record keeps one outcome per operation. The
host matcher is a pure function of the URL and the provider list. `Start`
is a pure function. It returns a `Run`: the trace of every collaborator
call, with its arguments, in the order the calls are made, plus the
returned error.

Files:
- `wrappers.dfy`: `Option`, `Result`, `Outcome`.
- `types.dfy`: the data model. It holds the configuration, workspace, project,
  provider, user data, the collaborator outcomes, the `Call` trace and the
  stage order.
- `agent.dfy`: the operations. `FirstMatch`, `GetProject`, `GetGitProvider`,
  `Resolve` (steps 1-3), `Materialize`, `ConfigureIdentity`, `Services`
  (steps 4-8) and `Start`.
- `properties.dfy`: lemmas over the trace and result of `Start`.

The errors `Start` creates itself, "project not found" and "repository url
not found", are the constructors `ProjectNotFound` and
`RepositoryUrlNotFound`. Every collaborator error that `Start` returns is
`Collaborator(fault)`, carrying that outcome unchanged. In Go, each
`errors.New` value is a distinct error, so no collaborator error can be
mistaken for these two.

Three details of the code the model keeps:
- A workspace-fetch error is returned unchanged (agent.go:83).
- The user data is fetched in `Start`, after the clone step
  (agent.go:57-63).
- The first project carrying the configured name wins, and names need not be
  unique (agent.go:86-88).

## Model

| member | source | states |
|---|---|---|
| Agent.FirstMatch | pkg/agent/agent.go:86-90 | the result is the position of a project carrying the configured name with no earlier one carrying it; none is returned exactly when no project carries the name |
| Agent.FirstMatchUnique | pkg/agent/agent.go:86-90 | at most one position is the first match, so the scan can never select a later match |
| Agent.GetProject | pkg/agent/agent.go:80-93 | only the workspace fetch is called; a fetch error is returned unchanged; "project not found" exactly when no project carries the name; it succeeds exactly when the fetch succeeds and some project carries the name, and the success is the first such project in workspace order |
| Agent.GetGitProvider | pkg/agent/agent.go:95-112 | it fails exactly when the server configuration fetch fails, and then returns that error without calling the host matcher; finding no provider is a success with no provider |
| Agent.Resolve | pkg/agent/agent.go:21-33 | steps 1-3 succeed exactly with the resolution that `ResolvesTo` describes, and with no other; the calls they make start with the workspace fetch and keep the fixed order; on success they are the workspace fetch, the config fetch and the host match on the project's URL |
| Agent.Materialize | pkg/agent/agent.go:40-55 | the existence check comes first; a clone happens exactly when the check succeeded and said the repository is absent; the clone gets the project and the token passed in |
| Agent.ConfigureIdentity | pkg/agent/agent.go:57-68 | user data is fetched exactly when a provider matched, by that provider's id; the step ends with one git-config call, and its user data is present only if a provider matched and the fetch returned that data, and is that data whenever both hold |
| Agent.Services | pkg/agent/agent.go:40-77 | after steps 1-3 the calls keep the fixed order, stay within the best-effort and launch stages, and end with the ssh launch followed by the Tailscale start |
| Agent.Start | pkg/agent/agent.go:18-78 | calls follow the fixed order with no kind repeated; the first is the workspace fetch for the configured id; success implies Tailscale succeeded and was the last call |
| StartProperties.WorkspaceErrorAborts | pkg/agent/agent.go:21-24 | a workspace-fetch error is the result, and the workspace fetch is the only call |
| StartProperties.ProjectNotFoundExactly | pkg/agent/agent.go:86-92 | "project not found" is returned exactly when the fetched workspace has no project with the configured name, and then only the workspace fetch was called |
| StartProperties.MissingUrlAborts | pkg/agent/agent.go:26-28 | "repository url not found" is returned exactly when the first matching project has no URL; no provider lookup or Git call has happened then |
| StartProperties.ConfigErrorAborts | pkg/agent/agent.go:30-33 | with the project resolved and its URL present, a failed config fetch is the result; the calls are only the workspace fetch and the config fetch |
| StartProperties.ResultIsTailscale | pkg/agent/agent.go:70-77 | once steps 1-3 pass, `Start` succeeds exactly when Tailscale does and otherwise returns Tailscale's error; the trace ends with the ssh launch and then the Tailscale start |
| StartProperties.FailuresAreFatalSteps | pkg/agent/agent.go:18-78 | every error `Start` returns comes from the workspace fetch, project lookup, URL check, config fetch or Tailscale, never from a best-effort step |
| StartProperties.ServicesRunIffResolved | pkg/agent/agent.go:40-77 | the existence check, the git-config call, the ssh launch and the Tailscale start each happen exactly when steps 1-3 pass |
| StartProperties.CloneOnlyWhenAbsent | pkg/agent/agent.go:40-55 | the clone happens exactly when steps 1-3 pass and the existence check succeeded with false |
| StartProperties.CloneUsesProviderToken | pkg/agent/agent.go:35-48 | the existence check and the clone target the resolved project; the clone's token is the matched provider's token, or none when no provider matched |
| StartProperties.UserDataOnlyWithProvider | pkg/agent/agent.go:57-63 | once steps 1-3 pass, the user data is fetched exactly when a provider matched, by that provider's id |
| StartProperties.GitConfigUserData | pkg/agent/agent.go:57-68 | once steps 1-3 pass, the git config is set; it gets the fetched user data when a provider matched and the fetch succeeded, and no user data when no provider matched or the fetch failed |
| StartProperties.EachCallAtMostOnce | pkg/agent/agent.go:18-78 | no two calls of one run are of the same kind, so the git config is set at most once |
| StartProperties.BestEffortOutcomesIgnored | pkg/agent/agent.go:40-75 | changing the existence-check, clone, user-data, git-config and ssh outcomes never changes the result of `Start` |
| StartProperties.LoggedOutcomesLeaveRunUnchanged | pkg/agent/agent.go:48-75 | the clone, git-config and ssh outcomes are only logged, so changing them leaves the whole run unchanged, trace included |
| StartProperties.SingleProjectScenario | pkg/agent/agent.go:18-78 | one project "app", no matching provider, repository absent: the clone runs without a token, the git config gets no user data, both services launch, and `Start` succeeds exactly when Tailscale does |

## Left out

- Network and API calls are not modelled: `server.GetWorkspace`,
  `server.GetApiClient`, `ServerAPI.GetConfig`,
  `GitProviderAPI.GetGitUserData` and `apiclient.HandleErrorResponse`. Each
  appears only as a given outcome.
- `getGitProvider` calls `GetApiClient` and then `GetConfig`. A `GetApiClient`
  error is returned raw, and a `GetConfig` error after `HandleErrorResponse`.
  Both are one outcome, `serverConfig`, and one trace event, `GetConfig`.
- `getGitUserData` obtains the API client a second time. It is modelled the
  same way, as the single outcome `gitUserData`.
- The internals of `gitprovider.GetGitProviderFromHost` are not modelled. It
  is the uninterpreted function `matchHost`.
- The goroutine that starts the ssh server is not modelled as concurrency. Its
  launch is the trace event `SshStart`, and its outcome is never observed.
- Logging text and `context.Background()` are not modelled.
- Go nil-pointer dereferences are not modelled. This covers `*project.Name`,
  `*gitProvider.Id` and a nil `project.Repository`. Names and ids are plain
  fields, and the repository is always present.
- The Git, Ssh and Tailscale components themselves are not part of this model.
