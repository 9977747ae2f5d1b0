/**
 The data the agent's startup works on: its configuration, the workspace and
 projects the control plane returns, git providers and user data, the
 collaborator outcomes that drive one run of `Start`, and the call trace it
 produces.
 */
module AgentTypes {
  import opened Wrappers

  /** The agent's fixed configuration (`Agent.Config`). */
  datatype AgentConfig = AgentConfig(workspaceId: string, projectName: string)

  /** A project's repository; its URL may be missing. */
  datatype Repository = Repository(url: Option<string>)

  /** A project of a workspace. The name is modelled as always present. */
  datatype Project = Project(name: string, repository: Repository)

  /** A workspace as fetched from the control plane: its projects in order. */
  datatype Workspace = Workspace(id: string, projects: seq<Project>)

  /** A git provider configured on the server; the token is optional. */
  datatype GitProvider = GitProvider(id: string, token: Option<string>)

  /** The identity the control plane holds for a git provider. */
  datatype GitUserData = GitUserData(name: string, email: string)

  /** An error produced by a collaborator (API client, Git, Ssh, Tailscale). */
  datatype Fault = Fault(message: string)

  /**
   What `Start` can return as an error. The two errors `Start` creates itself
   are distinct from every collaborator error, as Go's `errors.New` values are.
   */
  datatype StartError =
    | Collaborator(fault: Fault)
    | ProjectNotFound
    | RepositoryUrlNotFound

  /**
   The outcome of every operation `Start` invokes in one run. Each modelled
   operation (workspace fetch, config fetch, host match, user-data fetch,
   and the Git, Ssh and Tailscale calls) happens at most once per run, so one
   pre-chosen outcome per operation covers every behaviour. `matchHost` is
   the host-matching utility `gitprovider.GetGitProviderFromHost`, a pure
   foreign function.
   */
  datatype Collaborators = Collaborators(
    workspace: Result<Workspace, Fault>,
    serverConfig: Result<seq<GitProvider>, Fault>,
    matchHost: (string, seq<GitProvider>) -> Option<GitProvider>,
    repositoryExists: Result<bool, Fault>,
    clone: Outcome<Fault>,
    gitUserData: Result<Option<GitUserData>, Fault>,
    setGitConfig: Outcome<Fault>,
    ssh: Outcome<Fault>,
    tailscale: Outcome<Fault>)

  /** One call of `Start` into a collaborator, with the arguments it passes. */
  datatype Call =
    | GetWorkspace(workspaceId: string)
    | GetConfig
    | MatchProvider(repoUrl: string, providers: seq<GitProvider>)
    | RepositoryExists(project: Project)
    | CloneRepository(project: Project, authToken: Option<string>)
    | GetGitUserData(providerId: string)
    | SetGitConfig(userData: Option<GitUserData>)
    | SshStart
    | TailscaleStart

  /** The kinds of call, one per step of `Start`. */
  datatype Stage =
    | WorkspaceFetch
    | ConfigFetch
    | HostMatch
    | ExistenceCheck
    | Clone
    | UserDataFetch
    | GitConfig
    | SshLaunch
    | TailscaleLaunch

  function StageOf(c: Call): Stage
  {
    match c
    case GetWorkspace(_) => WorkspaceFetch
    case GetConfig => ConfigFetch
    case MatchProvider(_, _) => HostMatch
    case RepositoryExists(_) => ExistenceCheck
    case CloneRepository(_, _) => Clone
    case GetGitUserData(_) => UserDataFetch
    case SetGitConfig(_) => GitConfig
    case SshStart => SshLaunch
    case TailscaleStart => TailscaleLaunch
  }

  /** The position of a stage in the fixed order of `Start`. */
  function Rank(s: Stage): nat
  {
    match s
    case WorkspaceFetch => 0
    case ConfigFetch => 1
    case HostMatch => 2
    case ExistenceCheck => 3
    case Clone => 4
    case UserDataFetch => 5
    case GitConfig => 6
    case SshLaunch => 7
    case TailscaleLaunch => 8
  }

  /** Calls happen in the fixed order of `Start`, each kind at most once. */
  predicate InStartOrder(trace: seq<Call>)
  {
    forall i, j :: 0 <= i < j < |trace| ==> Rank(StageOf(trace[i])) < Rank(StageOf(trace[j]))
  }

  /** Every call of `trace` belongs to a stage ranked in `[lo, hi)`. */
  predicate RanksWithin(trace: seq<Call>, lo: nat, hi: nat)
  {
    forall i :: 0 <= i < |trace| ==> lo <= Rank(StageOf(trace[i])) < hi
  }

  /** Some call of `trace` is of stage `s`. */
  predicate Occurs(trace: seq<Call>, s: Stage)
  {
    exists i :: 0 <= i < |trace| && StageOf(trace[i]) == s
  }

  /** A partial run of `Start`: the calls made so far and what they produced. */
  datatype Step<+T> = Step(calls: seq<Call>, result: Result<T, StartError>)

  /** What steps 1-3 of `Start` establish: the project, its URL and the matched provider. */
  datatype Resolution = Resolution(project: Project, url: string, provider: Option<GitProvider>)

  /** A complete run of `Start`: every call made, in order, and the returned error. */
  datatype Run = Run(trace: seq<Call>, result: Outcome<StartError>)
}
