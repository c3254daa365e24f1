/**
 * The provisioning run of scripts/railway-setup.mjs (`main`): resolve the settings,
 * then create or reuse a project, take its first environment, create the api and
 * frontend services, resolve their instances, generate domains, upsert the variable
 * maps and trigger the deploys, stopping at the first failure.
 *
 * The platform is an oracle: `remote(k, c)` is the answer to call c made as the k-th
 * call of the run (counting from 0). A run is deterministic, so this covers every
 * sequence of answers a run can meet.
 */
module Setup {
  import opened Wrappers
  import opened Remote
  import Repo
  import Variables
  import Instances

  type Oracle = (nat, Call) -> Response

  /** The process environment the script reads; "" stands for an unset variable. */
  datatype Config = Config(
    token: string,            // RAILWAY_TOKEN
    projectId: string,        // RAILWAY_PROJECT_ID
    workspaceId: string,      // RAILWAY_WORKSPACE_ID
    githubOwner: string,      // GITHUB_OWNER
    repoApi: string,          // GITHUB_REPO_API
    repoFrontend: string,     // GITHUB_REPO_FRONTEND
    branch: string,           // GITHUB_BRANCH
    apiRootDir: string,       // API_ROOT_DIR
    frontendRootDir: string,  // FRONTEND_ROOT_DIR
    dryRun: string)           // DRY_RUN

  /** The settings `main` derives from the environment before its first call. */
  datatype Settings = Settings(
    dryRun: bool,
    projectId: string,
    workspaceId: Option<string>,
    apiRepo: Repo.RepoRef,
    frontendRepo: Repo.RepoRef,
    branch: string,
    apiRootDir: string,
    frontendRootDir: string)

  datatype Resolution = Missing(name: string) | Ready(settings: Settings)

  datatype StopReason = DryRun | InstancesNotReady
  datatype Outcome = Success | EarlyStop(reason: StopReason) | Fatal(error: Error)
  datatype Run = Run(outcome: Outcome, trace: seq<Call>)

  const PROJECT_NAME := "nap-us"
  const DEFAULT_BRANCH := "main"
  const DEFAULT_ROOT_DIRECTORY := "/"

  /** The exit status: 1 for a fatal error, 0 otherwise (early stops included). */
  function ExitCode(o: Outcome): (code: nat)
    ensures code <= 1 && (code == 1 <==> o.Fatal?)
  {
    if o.Fatal? then 1 else 0
  }

  predicate IsDryRun(flag: string) {
    flag == "1" || flag == "true"
  }

  /**
   * Lines 67-76: the required variables are checked in the order the script reads
   * them, and a missing one ends the run before any call, in dry-run mode too.
   */
  function Resolve(cfg: Config): (r: Resolution)
    ensures r.Ready? <==> cfg.token != "" && cfg.githubOwner != "" && cfg.repoApi != "" && cfg.repoFrontend != ""
    ensures r == Missing("RAILWAY_TOKEN") <==> cfg.token == ""
    ensures r == Missing("GITHUB_OWNER") <==> cfg.token != "" && cfg.githubOwner == ""
    ensures r == Missing("GITHUB_REPO_API") <==> cfg.token != "" && cfg.githubOwner != "" && cfg.repoApi == ""
    ensures r == Missing("GITHUB_REPO_FRONTEND") <==>
      cfg.token != "" && cfg.githubOwner != "" && cfg.repoApi != "" && cfg.repoFrontend == ""
    ensures r.Ready? ==> r.settings.dryRun == IsDryRun(cfg.dryRun) && r.settings.projectId == cfg.projectId
    ensures r.Ready? ==> (r.settings.workspaceId.Some? <==> cfg.workspaceId != "")
                         && (r.settings.workspaceId.Some? ==> r.settings.workspaceId.value == cfg.workspaceId)
    ensures r.Ready? ==> r.settings.branch == (if cfg.branch != "" then cfg.branch else DEFAULT_BRANCH)
    ensures r.Ready? ==> r.settings.apiRootDir == cfg.apiRootDir && r.settings.frontendRootDir == cfg.frontendRootDir
    ensures r.Ready? ==> Some(r.settings.apiRepo) == Repo.ParseRepo(cfg.repoApi, cfg.githubOwner)
    ensures r.Ready? ==> Some(r.settings.frontendRepo) == Repo.ParseRepo(cfg.repoFrontend, cfg.githubOwner)
  {
    if cfg.token == "" then Missing("RAILWAY_TOKEN")
    else if cfg.githubOwner == "" then Missing("GITHUB_OWNER")
    else if cfg.repoApi == "" then Missing("GITHUB_REPO_API")
    else if cfg.repoFrontend == "" then Missing("GITHUB_REPO_FRONTEND")
    else
      Ready(Settings(
        IsDryRun(cfg.dryRun),
        cfg.projectId,
        if cfg.workspaceId != "" then Some(cfg.workspaceId) else None,
        Repo.ParseRepo(cfg.repoApi, cfg.githubOwner).value,
        Repo.ParseRepo(cfg.repoFrontend, cfg.githubOwner).value,
        if cfg.branch != "" then cfg.branch else DEFAULT_BRANCH,
        cfg.apiRootDir,
        cfg.frontendRootDir))
  }

  function RootDirectory(dir: string): string {
    if dir != "" then dir else DEFAULT_ROOT_DIRECTORY
  }

  // Reading the answers, as the script dereferences them.

  /** `envs[0]?.id`. */
  function FirstEnvironmentId(ids: seq<string>): string {
    if ids == [] then "" else ids[0]
  }

  /** `x.serviceCreate?.id` of a non-null answer. */
  function CreatedServiceId(d: Payload): string {
    if d.ServiceCreated? then d.id else ""
  }

  /** `x.serviceDomainCreate?.domain` of a non-null answer. */
  function Hostname(d: Payload): string {
    if d.DomainCreated? then d.domain else ""
  }

  // The calls, built once and shared by the run and its plan.

  function CreateCall(workspaceId: Option<string>): Call {
    ProjectCreate(PROJECT_NAME, workspaceId)
  }

  function ApiServiceCall(s: Settings, projectId: string, env: string): Call {
    ServiceCreate(projectId, env, API_SERVICE, Repo.FullName(s.apiRepo), s.branch, RootDirectory(s.apiRootDir))
  }

  function FrontendServiceCall(s: Settings, projectId: string, env: string): Call {
    ServiceCreate(projectId, env, FRONTEND_SERVICE, Repo.FullName(s.frontendRepo), s.branch, RootDirectory(s.frontendRootDir))
  }


  // The run, phase by phase; t is the trace so far and |t| the index of the next call.

  /** Where a run stands: the next step of `main` and the values it has read so far. */
  datatype Phase =
    | AtCreate(workspaceId: Option<string>)
    | AtQuery(id: string)
    | AtServices(projectId: string, env: string)
    | AtInstances(projectId: string, env: string, apiId: string, frontendId: string)
    | AtDomains(projectId: string, env: string, apiId: string, frontendId: string)
    | AtVariables(projectId: string, env: string, apiId: string, frontendId: string,
                  apiDomain: string, frontendDomain: string)
    | AtDeploy(env: string, apiId: string, frontendId: string)

  /** The number of phases left, this one included. */
  function Rank(p: Phase): nat {
    match p
    case AtCreate(_) => 7
    case AtQuery(_) => 6
    case AtServices(_, _) => 5
    case AtInstances(_, _, _, _) => 4
    case AtDomains(_, _, _, _) => 3
    case AtVariables(_, _, _, _, _, _) => 2
    case AtDeploy(_, _, _) => 1
  }

  /** A configured project is reused; without one the run starts by creating it (line 90). */
  function FirstPhase(s: Settings): Phase {
    if s.projectId != "" then AtQuery(s.projectId) else AtCreate(s.workspaceId)
  }

  function Pipeline(cfg: Config, remote: Oracle): Run {
    match Resolve(cfg)
    case Missing(name) => Run(Fatal(MissingEnv(name)), [])
    case Ready(s) =>
      if s.dryRun then Run(EarlyStop(DryRun), [])
      else Provisioning(s, remote)
  }

  /** Lines 90-313: the calls, from a fresh trace, once the settings are resolved. */
  function Provisioning(s: Settings, remote: Oracle): Run {
    Continue(s, remote, [], FirstPhase(s))
  }

  /** The rest of the run from phase p, the calls so far being t. */
  function Continue(s: Settings, remote: Oracle, t: seq<Call>, p: Phase): Run
    decreases Rank(p), 1
  {
    match p
    case AtCreate(workspaceId) => CreateStage(s, remote, t, workspaceId)
    case AtQuery(id) => QueryStage(s, remote, t, id)
    case AtServices(projectId, env) => ServicesStage(s, remote, t, projectId, env)
    case AtInstances(projectId, env, apiId, frontendId) => InstancesStage(s, remote, t, projectId, env, apiId, frontendId)
    case AtDomains(projectId, env, apiId, frontendId) => DomainsStage(s, remote, t, projectId, env, apiId, frontendId)
    case AtVariables(projectId, env, apiId, frontendId, apiDomain, frontendDomain) =>
      VariablesStage(s, remote, t, projectId, env, apiId, frontendId, apiDomain, frontendDomain)
    case AtDeploy(env, apiId, frontendId) => DeployStage(s, remote, t, env, apiId, frontendId)
  }

  /** Lines 90-107: `data.projectCreate.id`, unguarded. */
  function CreateStage(s: Settings, remote: Oracle, t: seq<Call>, workspaceId: Option<string>): Run
    decreases Rank(AtCreate(workspaceId)), 0
  {
    var t1 := t + [CreateCall(workspaceId)];
    match Gql(remote(|t|, CreateCall(workspaceId)))
    case Err(e) => Run(Fatal(e), t1)
    case Ok(d) =>
      if d.ProjectCreated? then Continue(s, remote, t1, AtQuery(d.id))
      else Run(Fatal(TypeError), t1)
  }

  /** Lines 109-125. */
  function QueryStage(s: Settings, remote: Oracle, t: seq<Call>, id: string): Run
    decreases Rank(AtQuery(id)), 0
  {
    var t1 := t + [ProjectQuery(id)];
    match Gql(remote(|t|, ProjectQuery(id)))
    case Err(e) => Run(Fatal(e), t1)
    case Ok(d) =>
      if d.Null? then Run(Fatal(TypeError), t1)
      else if d.ServiceEdges? then Run(Fatal(Thrown(NoEnvironment)), t1)  // a project without `environments`
      else if !(d.ProjectFound? && d.project.Some?) then Run(Fatal(Thrown(ProjectNotFound)), t1)
      else
        var env := FirstEnvironmentId(d.project.value.environmentIds);
        if env == "" then Run(Fatal(Thrown(NoEnvironment)), t1)
        else Continue(s, remote, t1, AtServices(d.project.value.id, env))
  }

  /** Lines 127-183. */
  function ServicesStage(s: Settings, remote: Oracle, t: seq<Call>, projectId: string, env: string): Run
    decreases Rank(AtServices(projectId, env)), 0
  {
    var t1 := t + [ApiServiceCall(s, projectId, env)];
    match Gql(remote(|t|, ApiServiceCall(s, projectId, env)))
    case Err(e) => Run(Fatal(e), t1)
    case Ok(d1) =>
      if d1.Null? then Run(Fatal(TypeError), t1)
      else if CreatedServiceId(d1) == "" then Run(Fatal(Thrown(ApiServiceFailed)), t1)
      else
        var t2 := t1 + [FrontendServiceCall(s, projectId, env)];
        match Gql(remote(|t1|, FrontendServiceCall(s, projectId, env)))
        case Err(e) => Run(Fatal(e), t2)
        case Ok(d2) =>
          if d2.Null? then Run(Fatal(TypeError), t2)
          else if CreatedServiceId(d2) == "" then Run(Fatal(Thrown(FrontendServiceFailed)), t2)
          else Continue(s, remote, t2, AtInstances(projectId, env, CreatedServiceId(d1), CreatedServiceId(d2)))
  }

  /** Lines 185-216: `instances.project.services.edges`, unguarded. */
  function InstancesStage(s: Settings, remote: Oracle, t: seq<Call>, projectId: string, env: string,
                          apiId: string, frontendId: string): Run
    decreases Rank(AtInstances(projectId, env, apiId, frontendId)), 0
  {
    var t1 := t + [InstancesQuery(projectId)];
    match Gql(remote(|t|, InstancesQuery(projectId)))
    case Err(e) => Run(Fatal(e), t1)
    case Ok(d) =>
      if !d.ServiceEdges? then Run(Fatal(TypeError), t1)
      else if Instances.AssignedInstance(d.services, API_SERVICE, env) == ""
           || Instances.AssignedInstance(d.services, FRONTEND_SERVICE, env) == ""
      then Run(EarlyStop(InstancesNotReady), t1)
      else Continue(s, remote, t1, AtDomains(projectId, env, apiId, frontendId))
  }

  /** Lines 218-243: both answers are read only after both calls. */
  function DomainsStage(s: Settings, remote: Oracle, t: seq<Call>, projectId: string, env: string,
                        apiId: string, frontendId: string): Run
    decreases Rank(AtDomains(projectId, env, apiId, frontendId)), 0
  {
    var t1 := t + [DomainCreate(apiId, env)];
    match Gql(remote(|t|, DomainCreate(apiId, env)))
    case Err(e) => Run(Fatal(e), t1)
    case Ok(d1) =>
      var t2 := t1 + [DomainCreate(frontendId, env)];
      match Gql(remote(|t1|, DomainCreate(frontendId, env)))
      case Err(e) => Run(Fatal(e), t2)
      case Ok(d2) =>
        if d1.Null? || d2.Null? then Run(Fatal(TypeError), t2)
        else
          Continue(s, remote, t2, AtVariables(projectId, env, apiId, frontendId,
                                              Hostname(d1), Hostname(d2)))
  }

  /** Lines 245-283: each upsert carries the assignment whose map (Variables.Values) is built from both hostnames. */
  function VariablesStage(s: Settings, remote: Oracle, t: seq<Call>, projectId: string, env: string,
                          apiId: string, frontendId: string, apiDomain: string, frontendDomain: string): Run
    decreases Rank(AtVariables(projectId, env, apiId, frontendId, apiDomain, frontendDomain)), 0
  {
    var apiVars := Variables.ApiAssignment(apiDomain, frontendDomain);
    var frontendVars := Variables.FrontendAssignment(apiDomain, frontendDomain);
    var t1 := t + [VariableUpsert(projectId, env, apiId, apiVars)];
    match Gql(remote(|t|, VariableUpsert(projectId, env, apiId, apiVars)))
    case Err(e) => Run(Fatal(e), t1)
    case Ok(_) =>
      var t2 := t1 + [VariableUpsert(projectId, env, frontendId, frontendVars)];
      match Gql(remote(|t1|, VariableUpsert(projectId, env, frontendId, frontendVars)))
      case Err(e) => Run(Fatal(e), t2)
      case Ok(_) => Continue(s, remote, t2, AtDeploy(env, apiId, frontendId))
  }

  /** Lines 285-305. */
  function DeployStage(s: Settings, remote: Oracle, t: seq<Call>, env: string, apiId: string, frontendId: string): Run
    decreases Rank(AtDeploy(env, apiId, frontendId)), 0
  {
    var t1 := t + [DeployTrigger(apiId, env)];
    match Gql(remote(|t|, DeployTrigger(apiId, env)))
    case Err(e) => Run(Fatal(e), t1)
    case Ok(_) =>
      var t2 := t1 + [DeployTrigger(frontendId, env)];
      match Gql(remote(|t1|, DeployTrigger(frontendId, env)))
      case Err(e) => Run(Fatal(e), t2)
      case Ok(_) => Run(Success, t2)
  }

  // The planned trace: the calls a run makes when every answer lets it go on.

  /** The data of an answer, Null for a failed call (a run never reads past one). */
  function DataAt(remote: Oracle, k: nat, c: Call): Payload {
    var r := remote(k, c);
    if r.Json? && r.errors == [] then r.data else Null
  }

  /** DataAt is the data `gql` returns for the answer, and Null when `gql` throws. */
  lemma {:induction false} DataAtIsGqlData(remote: Oracle, k: nat, c: Call)
    ensures DataAt(remote, k, c) == (if Gql(remote(k, c)).Ok? then Gql(remote(k, c)).data else Null)
  {
  }

  function CreatedProjectId(d: Payload): string {
    if d.ProjectCreated? then d.id else ""
  }

  function QueriedProject(d: Payload): ProjectNode {
    if d.ProjectFound? && d.project.Some? then d.project.value else ProjectNode("", [])
  }

  /** The phase after p when its calls, the first at index n, are answered as the run needs. */
  function Next(s: Settings, remote: Oracle, n: nat, p: Phase): (q: Phase)
    requires !p.AtDeploy?
    ensures Rank(q) + 1 == Rank(p)
  {
    match p
    case AtCreate(workspaceId) => AtQuery(CreatedProjectId(DataAt(remote, n, CreateCall(workspaceId))))
    case AtQuery(id) =>
      var project := QueriedProject(DataAt(remote, n, ProjectQuery(id)));
      AtServices(project.id, FirstEnvironmentId(project.environmentIds))
    case AtServices(projectId, env) =>
      AtInstances(projectId, env,
                  CreatedServiceId(DataAt(remote, n, ApiServiceCall(s, projectId, env))),
                  CreatedServiceId(DataAt(remote, n + 1, FrontendServiceCall(s, projectId, env))))
    case AtInstances(projectId, env, apiId, frontendId) => AtDomains(projectId, env, apiId, frontendId)
    case AtDomains(projectId, env, apiId, frontendId) =>
      AtVariables(projectId, env, apiId, frontendId,
                  Hostname(DataAt(remote, n, DomainCreate(apiId, env))),
                  Hostname(DataAt(remote, n + 1, DomainCreate(frontendId, env))))
    case AtVariables(_, env, apiId, frontendId, _, _) => AtDeploy(env, apiId, frontendId)
  }

  /** The calls phase p itself makes. */
  function PhaseCalls(s: Settings, p: Phase): seq<Call> {
    match p
    case AtCreate(workspaceId) => [CreateCall(workspaceId)]
    case AtQuery(id) => [ProjectQuery(id)]
    case AtServices(projectId, env) => [ApiServiceCall(s, projectId, env), FrontendServiceCall(s, projectId, env)]
    case AtInstances(projectId, _, _, _) => [InstancesQuery(projectId)]
    case AtDomains(_, env, apiId, frontendId) => [DomainCreate(apiId, env), DomainCreate(frontendId, env)]
    case AtVariables(projectId, env, apiId, frontendId, apiDomain, frontendDomain) =>
      [ VariableUpsert(projectId, env, apiId, Variables.ApiAssignment(apiDomain, frontendDomain)),
        VariableUpsert(projectId, env, frontendId, Variables.FrontendAssignment(apiDomain, frontendDomain)) ]
    case AtDeploy(env, apiId, frontendId) => [DeployTrigger(apiId, env), DeployTrigger(frontendId, env)]
  }

  /** The calls from phase p on, the first at index n, each built from the answers before it. */
  function Plan(s: Settings, remote: Oracle, n: nat, p: Phase): seq<Call>
    decreases Rank(p)
  {
    if p.AtDeploy? then PhaseCalls(s, p)
    else PhaseCalls(s, p) + Plan(s, remote, n + |PhaseCalls(s, p)|, Next(s, remote, n, p))
  }

  /** The full provisioning trace. */
  function Planned(s: Settings, remote: Oracle): seq<Call> {
    Plan(s, remote, 0, FirstPhase(s))
  }

  /** The number of calls before the project query: 1 when a project is created. */
  function Offset(s: Settings): nat {
    if s.projectId == "" then 1 else 0
  }

  /** The project the run queries: the configured one, or the one the creation answered with. */
  function TargetProjectId(s: Settings, remote: Oracle): string {
    if s.projectId == "" then CreatedProjectId(DataAt(remote, 0, CreateCall(s.workspaceId))) else s.projectId
  }

  /** The project record the query answered with. */
  function TargetProject(s: Settings, remote: Oracle): ProjectNode {
    QueriedProject(DataAt(remote, Offset(s), ProjectQuery(TargetProjectId(s, remote))))
  }

  /** The environment every later call is made in: the project's first. */
  function ActiveEnvironment(s: Settings, remote: Oracle): string {
    FirstEnvironmentId(TargetProject(s, remote).environmentIds)
  }

  function ApiServiceId(s: Settings, remote: Oracle): string {
    CreatedServiceId(DataAt(remote, Offset(s) + 1,
                            ApiServiceCall(s, TargetProject(s, remote).id, ActiveEnvironment(s, remote))))
  }

  function FrontendServiceId(s: Settings, remote: Oracle): string {
    CreatedServiceId(DataAt(remote, Offset(s) + 2,
                            FrontendServiceCall(s, TargetProject(s, remote).id, ActiveEnvironment(s, remote))))
  }

  // The order of the calls.

  const DEPLOY_KINDS := [TriggerDeploy, TriggerDeploy]
  const VARIABLES_KINDS := [UpsertVariables, UpsertVariables] + DEPLOY_KINDS
  const DOMAINS_KINDS := [CreateDomain, CreateDomain] + VARIABLES_KINDS
  const INSTANCES_KINDS := [QueryInstances] + DOMAINS_KINDS
  const SERVICES_KINDS := [CreateService, CreateService] + INSTANCES_KINDS
  const PROJECT_KINDS := [QueryProject] + SERVICES_KINDS

  /** The kinds of the calls left from phase p: api always before frontend. */
  function PhaseKinds(p: Phase): seq<Kind> {
    match p
    case AtCreate(_) => [CreateProject] + PROJECT_KINDS
    case AtQuery(_) => PROJECT_KINDS
    case AtServices(_, _) => SERVICES_KINDS
    case AtInstances(_, _, _, _) => INSTANCES_KINDS
    case AtDomains(_, _, _, _) => DOMAINS_KINDS
    case AtVariables(_, _, _, _, _, _) => VARIABLES_KINDS
    case AtDeploy(_, _, _) => DEPLOY_KINDS
  }

  lemma {:induction false} KindsAppend(a: seq<Call>, b: seq<Call>)
    ensures Kinds(a + b) == Kinds(a) + Kinds(b)
  {
  }

  /** The kinds of one phase's own calls, followed by those of the phases after it. */
  lemma {:induction false} PhaseKindsSplit(s: Settings, remote: Oracle, n: nat, p: Phase)
    requires !p.AtDeploy?
    ensures PhaseKinds(p) == Kinds(PhaseCalls(s, p)) + PhaseKinds(Next(s, remote, n, p))
  {
    var calls := PhaseCalls(s, p);
    if |calls| == 1 {
      assert Kinds(calls) == [KindOf(calls[0])];
    } else {
      assert Kinds(calls) == [KindOf(calls[0]), KindOf(calls[1])];
    }
  }

  lemma {:induction false} PlanKinds(s: Settings, remote: Oracle, n: nat, p: Phase)
    decreases Rank(p)
    ensures Kinds(Plan(s, remote, n, p)) == PhaseKinds(p)
  {
    if p.AtDeploy? {
      PlanKindsLast(s, remote, n, p);
    } else {
      PlanKinds(s, remote, n + |PhaseCalls(s, p)|, Next(s, remote, n, p));
      PlanKindsStep(s, remote, n, p);
    }
  }

  lemma {:induction false} PlanKindsLast(s: Settings, remote: Oracle, n: nat, p: Phase)
    requires p.AtDeploy?
    ensures Kinds(Plan(s, remote, n, p)) == PhaseKinds(p)
  {
    assert Plan(s, remote, n, p) == PhaseCalls(s, p);
  }

  /** The kinds of the plan from p, given those of the plan from the phase after it. */
  lemma {:induction false} PlanKindsStep(s: Settings, remote: Oracle, n: nat, p: Phase)
    requires !p.AtDeploy?
    requires Kinds(Plan(s, remote, n + |PhaseCalls(s, p)|, Next(s, remote, n, p))) == PhaseKinds(Next(s, remote, n, p))
    ensures Kinds(Plan(s, remote, n, p)) == PhaseKinds(p)
  {
    var calls, next := PhaseCalls(s, p), Next(s, remote, n, p);
    var rest := Plan(s, remote, n + |calls|, next);
    PlanUnfold(s, remote, n, p);
    PhaseKindsSplit(s, remote, n, p);
    KindsJoin(Plan(s, remote, n, p), calls, rest, PhaseKinds(next));
  }

  /** A plan that is not at its last phase: the phase's own calls, then the plan of the next one. */
  lemma {:induction false} PlanUnfold(s: Settings, remote: Oracle, n: nat, p: Phase)
    requires !p.AtDeploy?
    ensures Plan(s, remote, n, p) == PhaseCalls(s, p) + Plan(s, remote, n + |PhaseCalls(s, p)|, Next(s, remote, n, p))
  {
  }

  lemma {:induction false} KindsJoin(whole: seq<Call>, calls: seq<Call>, rest: seq<Call>, restKinds: seq<Kind>)
    requires whole == calls + rest && Kinds(rest) == restKinds
    ensures Kinds(whole) == Kinds(calls) + restKinds
  {
    KindsAppend(calls, rest);
  }

  /**
   * The order of the plan: an optional project creation, the project query, api then
   * frontend service, the instance query, then domains, variables and deploys, each
   * for api then frontend.
   */
  lemma {:induction false} PlannedKinds(s: Settings, remote: Oracle)
    ensures Kinds(Planned(s, remote)) == (if s.projectId == "" then [CreateProject] else []) + PROJECT_KINDS
    ensures |Planned(s, remote)| == Offset(s) + 10
  {
    PlanKinds(s, remote, 0, FirstPhase(s));
  }

  /** The service- and environment-scoped calls all use the queried project and its first environment. */
  predicate Scoped(c: Call, projectId: string, env: string) {
    match c
    case ServiceCreate(p, e, _, _, _, _) => p == projectId && e == env
    case InstancesQuery(p) => p == projectId
    case DomainCreate(_, e) => e == env
    case VariableUpsert(p, e, _, _) => p == projectId && e == env
    case DeployTrigger(_, e) => e == env
    case _ => false
  }

  /** The phases from the service creations on, in one project and environment. */
  predicate InScope(p: Phase, projectId: string, env: string) {
    match p
    case AtCreate(_) => false
    case AtQuery(_) => false
    case AtServices(pid, e) => pid == projectId && e == env
    case AtInstances(pid, e, _, _) => pid == projectId && e == env
    case AtDomains(pid, e, _, _) => pid == projectId && e == env
    case AtVariables(pid, e, _, _, _, _) => pid == projectId && e == env
    case AtDeploy(e, _, _) => e == env
  }

  lemma {:induction false} PlanScoped(s: Settings, remote: Oracle, n: nat, p: Phase, projectId: string, env: string)
    requires InScope(p, projectId, env)
    decreases Rank(p)
    ensures forall k :: 0 <= k < |Plan(s, remote, n, p)| ==> Scoped(Plan(s, remote, n, p)[k], projectId, env)
  {
    var calls := PhaseCalls(s, p);
    assert forall k :: 0 <= k < |calls| ==> Scoped(calls[k], projectId, env);
    if !p.AtDeploy? {
      var next := Next(s, remote, n, p);
      PlanScoped(s, remote, n + |calls|, next, projectId, env);
      var rest := Plan(s, remote, n + |calls|, next);
      forall k | 0 <= k < |calls + rest| ensures Scoped((calls + rest)[k], projectId, env) {
        if k >= |calls| {
          assert (calls + rest)[k] == rest[k - |calls|];
        }
      }
    }
  }

  // What a run does with the trace it extends.

  function AnswerAt(remote: Oracle, trace: seq<Call>, k: nat): GqlResult
    requires k < |trace|
  {
    Gql(remote(k, trace[k]))
  }

  /**
   * Whether the calls of phase p, the first at index n, are answered so that the run
   * goes on: no transport or remote error and the fields each step dereferences present.
   */
  predicate Passes(s: Settings, remote: Oracle, n: nat, p: Phase) {
    match p
    case AtCreate(workspaceId) =>
      var g := Gql(remote(n, CreateCall(workspaceId)));
      g.Ok? && g.data.ProjectCreated?
    case AtQuery(id) =>
      var g := Gql(remote(n, ProjectQuery(id)));
      g.Ok? && g.data.ProjectFound? && g.data.project.Some?
      && FirstEnvironmentId(g.data.project.value.environmentIds) != ""
    case AtServices(projectId, env) =>
      var g1 := Gql(remote(n, ApiServiceCall(s, projectId, env)));
      var g2 := Gql(remote(n + 1, FrontendServiceCall(s, projectId, env)));
      && g1.Ok? && CreatedServiceId(g1.data) != ""
      && g2.Ok? && CreatedServiceId(g2.data) != ""
    case AtInstances(projectId, env, _, _) =>
      var g := Gql(remote(n, InstancesQuery(projectId)));
      && g.Ok? && g.data.ServiceEdges?
      && Instances.AssignedInstance(g.data.services, API_SERVICE, env) != ""
      && Instances.AssignedInstance(g.data.services, FRONTEND_SERVICE, env) != ""
    case AtDomains(_, env, apiId, frontendId) =>
      var g1 := Gql(remote(n, DomainCreate(apiId, env)));
      var g2 := Gql(remote(n + 1, DomainCreate(frontendId, env)));
      g1.Ok? && g2.Ok? && !g1.data.Null? && !g2.data.Null?
    case AtVariables(projectId, env, apiId, frontendId, apiDomain, frontendDomain) =>
      && Gql(remote(n, VariableUpsert(projectId, env, apiId, Variables.ApiAssignment(apiDomain, frontendDomain)))).Ok?
      && Gql(remote(n + 1, VariableUpsert(projectId, env, frontendId, Variables.FrontendAssignment(apiDomain, frontendDomain)))).Ok?
    case AtDeploy(env, apiId, frontendId) =>
      Gql(remote(n, DeployTrigger(apiId, env))).Ok? && Gql(remote(n + 1, DeployTrigger(frontendId, env))).Ok?
  }

  /**
   * Every call r adds after t was answered without a transport or remote error except
   * perhaps the last; the last was so answered exactly when the run failed with that error.
   */
  ghost predicate StopsAtFailure(remote: Oracle, t: seq<Call>, r: Run)
    requires |t| < |r.trace|
  {
    && (forall k :: |t| <= k < |r.trace| - 1 ==> AnswerAt(remote, r.trace, k).Ok?)
    && (AnswerAt(remote, r.trace, |r.trace| - 1).Err? <==> r.outcome.Fatal? && r.outcome.error.FromGql())
    && (AnswerAt(remote, r.trace, |r.trace| - 1).Err? ==> r.outcome.error == AnswerAt(remote, r.trace, |r.trace| - 1).error)
  }

  /**
   * A phase that passes hands the run on with all its calls made (or ends it in success
   * after the deploys); one that does not ends the run within its own calls, at the first
   * call that fails, and only the instance phase may end it early instead of fatally.
   */
  ghost predicate Steps(s: Settings, remote: Oracle, t: seq<Call>, p: Phase, r: Run) {
    if Passes(s, remote, |t|, p) then
      if p.AtDeploy? then r == Run(Success, t + PhaseCalls(s, p))
      else r == Continue(s, remote, t + PhaseCalls(s, p), Next(s, remote, |t|, p))
    else
      && |t| < |r.trace| <= |t| + |PhaseCalls(s, p)|
      && r.trace == t + PhaseCalls(s, p)[..|r.trace| - |t|]
      && StopsAtFailure(remote, t, r)
      && (r.outcome.Fatal? || (p.AtInstances? && r.outcome == EarlyStop(InstancesNotReady) && |r.trace| == |t| + 1))
      && (p.AtInstances? ==> InstancesVerdict(remote, |t|, p.projectId, r))
  }

  /**
   * How a failing instance phase ends: an early stop exactly when the query was answered
   * with the service list (so an instance was missing), a fatal error otherwise.
   */
  ghost predicate InstancesVerdict(remote: Oracle, n: nat, projectId: string, r: Run) {
    var g := Gql(remote(n, InstancesQuery(projectId)));
    r.outcome.EarlyStop? <==> g.Ok? && g.data.ServiceEdges?
  }

  lemma {:induction false} StepCreate(s: Settings, remote: Oracle, t: seq<Call>, workspaceId: Option<string>)
    ensures Steps(s, remote, t, AtCreate(workspaceId), Continue(s, remote, t, AtCreate(workspaceId)))
  {
    var r := Continue(s, remote, t, AtCreate(workspaceId));
    assert r == CreateStage(s, remote, t, workspaceId);
    if !Passes(s, remote, |t|, AtCreate(workspaceId)) {
      assert r.trace[|t|] == CreateCall(workspaceId);
    }
  }

  lemma {:induction false} StepQuery(s: Settings, remote: Oracle, t: seq<Call>, id: string)
    ensures Steps(s, remote, t, AtQuery(id), Continue(s, remote, t, AtQuery(id)))
  {
    var r := Continue(s, remote, t, AtQuery(id));
    assert r == QueryStage(s, remote, t, id);
    if !Passes(s, remote, |t|, AtQuery(id)) {
      assert r.trace[|t|] == ProjectQuery(id);
    }
  }

  lemma {:induction false} StepServices(s: Settings, remote: Oracle, t: seq<Call>, projectId: string, env: string)
    ensures Steps(s, remote, t, AtServices(projectId, env), Continue(s, remote, t, AtServices(projectId, env)))
  {
    var r := Continue(s, remote, t, AtServices(projectId, env));
    var c1, c2 := ApiServiceCall(s, projectId, env), FrontendServiceCall(s, projectId, env);
    assert r == ServicesStage(s, remote, t, projectId, env);
    assert t + [c1] + [c2] == t + [c1, c2];
    if !Passes(s, remote, |t|, AtServices(projectId, env)) {
      assert r.trace[|t|] == c1;
    }
  }

  lemma {:induction false} StepInstances(s: Settings, remote: Oracle, t: seq<Call>, projectId: string, env: string,
                      apiId: string, frontendId: string)
    ensures var p := AtInstances(projectId, env, apiId, frontendId);
      Steps(s, remote, t, p, Continue(s, remote, t, p))
  {
    var r := Continue(s, remote, t, AtInstances(projectId, env, apiId, frontendId));
    assert r == InstancesStage(s, remote, t, projectId, env, apiId, frontendId);
    if !Passes(s, remote, |t|, AtInstances(projectId, env, apiId, frontendId)) {
      assert r.trace[|t|] == InstancesQuery(projectId);
    }
  }

  lemma {:induction false} StepDomains(s: Settings, remote: Oracle, t: seq<Call>, projectId: string, env: string,
                    apiId: string, frontendId: string)
    ensures var p := AtDomains(projectId, env, apiId, frontendId);
      Steps(s, remote, t, p, Continue(s, remote, t, p))
  {
    var r := Continue(s, remote, t, AtDomains(projectId, env, apiId, frontendId));
    var c1, c2 := DomainCreate(apiId, env), DomainCreate(frontendId, env);
    assert r == DomainsStage(s, remote, t, projectId, env, apiId, frontendId);
    assert t + [c1] + [c2] == t + [c1, c2];
    if !Passes(s, remote, |t|, AtDomains(projectId, env, apiId, frontendId)) {
      assert r.trace[|t|] == c1;
    }
  }

  lemma {:induction false} StepVariables(s: Settings, remote: Oracle, t: seq<Call>, projectId: string, env: string,
                      apiId: string, frontendId: string, apiDomain: string, frontendDomain: string)
    ensures var p := AtVariables(projectId, env, apiId, frontendId, apiDomain, frontendDomain);
      Steps(s, remote, t, p, Continue(s, remote, t, p))
  {
    var r := Continue(s, remote, t, AtVariables(projectId, env, apiId, frontendId, apiDomain, frontendDomain));
    var c1 := VariableUpsert(projectId, env, apiId, Variables.ApiAssignment(apiDomain, frontendDomain));
    var c2 := VariableUpsert(projectId, env, frontendId, Variables.FrontendAssignment(apiDomain, frontendDomain));
    assert r == VariablesStage(s, remote, t, projectId, env, apiId, frontendId, apiDomain, frontendDomain);
    assert t + [c1] + [c2] == t + [c1, c2];
    if !Passes(s, remote, |t|, AtVariables(projectId, env, apiId, frontendId, apiDomain, frontendDomain)) {
      assert r.trace[|t|] == c1;
    }
  }

  lemma {:induction false} StepDeploy(s: Settings, remote: Oracle, t: seq<Call>, env: string, apiId: string, frontendId: string)
    ensures var p := AtDeploy(env, apiId, frontendId);
      Steps(s, remote, t, p, Continue(s, remote, t, p))
  {
    var r := Continue(s, remote, t, AtDeploy(env, apiId, frontendId));
    var c1, c2 := DeployTrigger(apiId, env), DeployTrigger(frontendId, env);
    assert r == DeployStage(s, remote, t, env, apiId, frontendId);
    assert t + [c1] + [c2] == t + [c1, c2];
    if !Passes(s, remote, |t|, AtDeploy(env, apiId, frontendId)) {
      assert r.trace[|t|] == c1;
    }
  }

  lemma {:induction false} Step(s: Settings, remote: Oracle, t: seq<Call>, p: Phase)
    ensures Steps(s, remote, t, p, Continue(s, remote, t, p))
  {
    match p
    case AtCreate(workspaceId) => StepCreate(s, remote, t, workspaceId);
    case AtQuery(id) => StepQuery(s, remote, t, id);
    case AtServices(projectId, env) => StepServices(s, remote, t, projectId, env);
    case AtInstances(projectId, env, apiId, frontendId) => StepInstances(s, remote, t, projectId, env, apiId, frontendId);
    case AtDomains(projectId, env, apiId, frontendId) => StepDomains(s, remote, t, projectId, env, apiId, frontendId);
    case AtVariables(projectId, env, apiId, frontendId, apiDomain, frontendDomain) =>
      StepVariables(s, remote, t, projectId, env, apiId, frontendId, apiDomain, frontendDomain);
    case AtDeploy(env, apiId, frontendId) => StepDeploy(s, remote, t, env, apiId, frontendId);
  }

  /** A phase that passes, other than the last, hands the run on to the next phase. */
  lemma {:induction false} StepOn(s: Settings, remote: Oracle, t: seq<Call>, p: Phase)
    requires Passes(s, remote, |t|, p) && !p.AtDeploy?
    ensures Continue(s, remote, t, p) == Continue(s, remote, t + PhaseCalls(s, p), Next(s, remote, |t|, p))
  {
    Step(s, remote, t, p);
  }

  /** The deploy phase, when it passes, ends the run in success. */
  lemma {:induction false} StepDone(s: Settings, remote: Oracle, t: seq<Call>, p: Phase)
    requires Passes(s, remote, |t|, p) && p.AtDeploy?
    ensures Continue(s, remote, t, p) == Run(Success, t + PhaseCalls(s, p))
  {
    Step(s, remote, t, p);
  }

  /** A phase that does not pass ends the run within its own calls, at its first failing one. */
  lemma {:induction false} StepOff(s: Settings, remote: Oracle, t: seq<Call>, p: Phase)
    requires !Passes(s, remote, |t|, p)
    ensures var r := Continue(s, remote, t, p);
      && |t| < |r.trace| <= |t| + |PhaseCalls(s, p)|
      && r.trace == t + PhaseCalls(s, p)[..|r.trace| - |t|]
      && StopsAtFailure(remote, t, r)
      && (r.outcome.Fatal? || (p.AtInstances? && r.outcome == EarlyStop(InstancesNotReady) && |r.trace| == |t| + 1))
  {
    Step(s, remote, t, p);
  }

  /** A passing phase had every one of its calls answered without error. */
  lemma {:induction false} PassesAnswered(s: Settings, remote: Oracle, n: nat, p: Phase)
    requires Passes(s, remote, n, p)
    ensures forall i :: 0 <= i < |PhaseCalls(s, p)| ==> Gql(remote(n + i, PhaseCalls(s, p)[i])).Ok?
  {
  }

  /** r extends t with a non-empty prefix of calls, and with all of them on success. */
  ghost predicate Issues(t: seq<Call>, r: Run, calls: seq<Call>) {
    && |t| < |r.trace| <= |t| + |calls|
    && r.trace == t + calls[..|r.trace| - |t|]
    && (r.outcome.Success? ==> r.trace == t + calls)
  }

  /** Taking past a known front keeps the front. */
  lemma {:induction false} TakeAfter<T>(front: seq<T>, back: seq<T>, m: nat)
    requires m <= |back|
    ensures (front + back)[..|front| + m] == front + back[..m]
  {
  }

  /** Issues composes: calls a then, from t + a on, a prefix of b. */
  lemma {:induction false} IssuesThen(t: seq<Call>, a: seq<Call>, r: Run, calls: seq<Call>)
    requires Issues(t + a, r, calls)
    ensures Issues(t, r, a + calls)
  {
    TakeAfter(a, calls, |r.trace| - |t + a|);
  }

  /** From phase p a run makes a prefix of the plan from p, and all of it on success. */
  lemma {:induction false} ContinueIssues(s: Settings, remote: Oracle, t: seq<Call>, p: Phase)
    decreases Rank(p)
    ensures Issues(t, Continue(s, remote, t, p), Plan(s, remote, |t|, p))
  {
    if p.AtDeploy? {
      IssuesLast(s, remote, t, p);
    } else if !Passes(s, remote, |t|, p) {
      IssuesOff(s, remote, t, p);
    } else {
      ContinueIssues(s, remote, t + PhaseCalls(s, p), Next(s, remote, |t|, p));
      IssuesOn(s, remote, t, p);
    }
  }

  lemma {:induction false} IssuesLast(s: Settings, remote: Oracle, t: seq<Call>, p: Phase)
    requires p.AtDeploy?
    ensures Issues(t, Continue(s, remote, t, p), Plan(s, remote, |t|, p))
  {
    Step(s, remote, t, p);
    assert Plan(s, remote, |t|, p) == PhaseCalls(s, p);
  }

  lemma {:induction false} IssuesOff(s: Settings, remote: Oracle, t: seq<Call>, p: Phase)
    requires !p.AtDeploy? && !Passes(s, remote, |t|, p)
    ensures Issues(t, Continue(s, remote, t, p), Plan(s, remote, |t|, p))
  {
    var r, calls := Continue(s, remote, t, p), PhaseCalls(s, p);
    var rest := Plan(s, remote, |t| + |calls|, Next(s, remote, |t|, p));
    StepOff(s, remote, t, p);
    assert Plan(s, remote, |t|, p) == calls + rest;
    assert (calls + rest)[..|r.trace| - |t|] == calls[..|r.trace| - |t|];
  }

  lemma {:induction false} IssuesOn(s: Settings, remote: Oracle, t: seq<Call>, p: Phase)
    requires !p.AtDeploy? && Passes(s, remote, |t|, p)
    requires var t1, next := t + PhaseCalls(s, p), Next(s, remote, |t|, p);
      Issues(t1, Continue(s, remote, t1, next), Plan(s, remote, |t1|, next))
    ensures Issues(t, Continue(s, remote, t, p), Plan(s, remote, |t|, p))
  {
    var calls, next := PhaseCalls(s, p), Next(s, remote, |t|, p);
    var rest := Plan(s, remote, |t| + |calls|, next);
    StepOn(s, remote, t, p);
    assert Plan(s, remote, |t|, p) == calls + rest;
    IssuesThen(t, calls, Continue(s, remote, t, p), rest);
  }

  /** Calls answered without error before t' do not change where a run from t' stops. */
  lemma {:induction false} StopsAfter(remote: Oracle, t: seq<Call>, a: seq<Call>, r: Run)
    requires |t + a| < |r.trace| && r.trace[..|t + a|] == t + a
    requires forall i :: 0 <= i < |a| ==> Gql(remote(|t| + i, a[i])).Ok?
    requires StopsAtFailure(remote, t + a, r)
    ensures StopsAtFailure(remote, t, r)
  {
    forall k | |t| <= k < |t + a| ensures AnswerAt(remote, r.trace, k).Ok? {
      assert r.trace[k] == (t + a)[k] == a[k - |t|];
    }
  }

  /** A run that ends in success after calls all answered without error stopped at no failure. */
  lemma {:induction false} StopsAtSuccess(remote: Oracle, t: seq<Call>, a: seq<Call>, r: Run)
    requires r == Run(Success, t + a) && |a| > 0
    requires forall i :: 0 <= i < |a| ==> Gql(remote(|t| + i, a[i])).Ok?
    ensures |t| < |r.trace| && StopsAtFailure(remote, t, r)
  {
    forall k | |t| <= k < |r.trace| ensures AnswerAt(remote, r.trace, k).Ok? {
      assert r.trace[k] == a[k - |t|];
    }
  }

  /** From phase p a run makes at least one call and stops at its first failing one. */
  lemma {:induction false} ContinueStops(s: Settings, remote: Oracle, t: seq<Call>, p: Phase)
    decreases Rank(p), 1
    ensures var r := Continue(s, remote, t, p);
      |t| < |r.trace| && StopsAtFailure(remote, t, r)
  {
    if !Passes(s, remote, |t|, p) {
      StepOff(s, remote, t, p);
    } else if p.AtDeploy? {
      StepDone(s, remote, t, p);
      PassesAnswered(s, remote, |t|, p);
      StopsAtSuccess(remote, t, PhaseCalls(s, p), Continue(s, remote, t, p));
    } else {
      StopsOn(s, remote, t, p);
    }
  }

  lemma {:induction false} StopsOn(s: Settings, remote: Oracle, t: seq<Call>, p: Phase)
    requires Passes(s, remote, |t|, p) && !p.AtDeploy?
    decreases Rank(p), 0
    ensures var r := Continue(s, remote, t, p);
      |t| < |r.trace| && StopsAtFailure(remote, t, r)
  {
    var calls, next := PhaseCalls(s, p), Next(s, remote, |t|, p);
    var r := Continue(s, remote, t + calls, next);
    StepOn(s, remote, t, p);
    ContinueStops(s, remote, t + calls, next);
    ContinueExtends(s, remote, t + calls, next);
    PassesAnswered(s, remote, |t|, p);
    StopsAfter(remote, t, calls, r);
  }

  /** A run from t keeps t as the front of its trace and adds at least one call. */
  lemma {:induction false} ContinueExtends(s: Settings, remote: Oracle, t: seq<Call>, p: Phase)
    ensures var r := Continue(s, remote, t, p);
      |t| < |r.trace| && r.trace[..|t|] == t
  {
    ContinueIssues(s, remote, t, p);
  }

  /**
   * An early stop, which leaves the six calls after the instance query unmade, is the
   * only end that is neither success nor a fatal error.
   */
  lemma {:induction false} ContinueEarly(s: Settings, remote: Oracle, t: seq<Call>, p: Phase)
    decreases Rank(p)
    ensures var r := Continue(s, remote, t, p);
      r.outcome.EarlyStop? ==>
        r.outcome.reason == InstancesNotReady && |r.trace| + 6 == |t| + |Plan(s, remote, |t|, p)|
  {
    var calls := PhaseCalls(s, p);
    Step(s, remote, t, p);
    if Passes(s, remote, |t|, p) {
      if !p.AtDeploy? {
        ContinueEarly(s, remote, t + calls, Next(s, remote, |t|, p));
      }
    } else if p.AtInstances? {
      PlanKinds(s, remote, |t|, p);
    }
  }

  // The script's `main`, step by step.

  /** Whether a step of `main` returned or threw (Halt) or let the run go on (Proceed). */
  datatype Progress = Halt(outcome: Outcome) | Proceed

  /** One call of `gql`: the call joins the trace and its answer is classified. */
  method Exchange(remote: Oracle, trace: seq<Call>, c: Call) returns (res: GqlResult, trace': seq<Call>)
    ensures trace' == trace + [c] && res == Gql(remote(|trace|, c))
  {
    res := Gql(remote(|trace|, c));
    trace' := trace + [c];
  }

  /** Lines 90-107. */
  method StartProject(s: Settings, remote: Oracle, trace: seq<Call>)
    returns (progress: Progress, trace': seq<Call>, projectId: string)
    ensures progress.Halt? ==> Run(progress.outcome, trace') == Continue(s, remote, trace, AtCreate(s.workspaceId))
    ensures progress.Proceed? ==>
      Continue(s, remote, trace', AtQuery(projectId)) == Continue(s, remote, trace, AtCreate(s.workspaceId))
  {
    var res;
    res, trace' := Exchange(remote, trace, CreateCall(s.workspaceId));
    assert Continue(s, remote, trace, AtCreate(s.workspaceId)) == CreateStage(s, remote, trace, s.workspaceId);
    if res.Err? {
      return Halt(Fatal(res.error)), trace', "";
    }
    if !res.data.ProjectCreated? {
      return Halt(Fatal(TypeError)), trace', "";
    }
    return Proceed, trace', res.data.id;
  }

  /** Lines 109-125: the project and its first environment. */
  method FindEnvironment(s: Settings, remote: Oracle, trace: seq<Call>, id: string)
    returns (progress: Progress, trace': seq<Call>, projectId: string, environmentId: string)
    ensures progress.Halt? ==> Run(progress.outcome, trace') == Continue(s, remote, trace, AtQuery(id))
    ensures progress.Proceed? ==>
      Continue(s, remote, trace', AtServices(projectId, environmentId)) == Continue(s, remote, trace, AtQuery(id))
  {
    var res;
    res, trace' := Exchange(remote, trace, ProjectQuery(id));
    assert Continue(s, remote, trace, AtQuery(id)) == QueryStage(s, remote, trace, id);
    if res.Err? {
      return Halt(Fatal(res.error)), trace', "", "";
    }
    if res.data.Null? {
      return Halt(Fatal(TypeError)), trace', "", "";
    }
    if res.data.ServiceEdges? {
      return Halt(Fatal(Thrown(NoEnvironment))), trace', "", "";
    }
    if !(res.data.ProjectFound? && res.data.project.Some?) {
      return Halt(Fatal(Thrown(ProjectNotFound))), trace', "", "";
    }
    var project := res.data.project.value;
    environmentId := FirstEnvironmentId(project.environmentIds);
    if environmentId == "" {
      return Halt(Fatal(Thrown(NoEnvironment))), trace', "", "";
    }
    return Proceed, trace', project.id, environmentId;
  }

  /** Lines 127-183. */
  method CreateServices(s: Settings, remote: Oracle, trace: seq<Call>, projectId: string, env: string)
    returns (progress: Progress, trace': seq<Call>, apiServiceId: string, frontendServiceId: string)
    ensures progress.Halt? ==> Run(progress.outcome, trace') == Continue(s, remote, trace, AtServices(projectId, env))
    ensures progress.Proceed? ==>
      Continue(s, remote, trace', AtInstances(projectId, env, apiServiceId, frontendServiceId))
      == Continue(s, remote, trace, AtServices(projectId, env))
  {
    var res;
    assert Continue(s, remote, trace, AtServices(projectId, env)) == ServicesStage(s, remote, trace, projectId, env);
    res, trace' := Exchange(remote, trace, ApiServiceCall(s, projectId, env));
    if res.Err? {
      return Halt(Fatal(res.error)), trace', "", "";
    }
    if res.data.Null? {
      return Halt(Fatal(TypeError)), trace', "", "";
    }
    apiServiceId := CreatedServiceId(res.data);
    if apiServiceId == "" {
      return Halt(Fatal(Thrown(ApiServiceFailed))), trace', "", "";
    }
    res, trace' := Exchange(remote, trace', FrontendServiceCall(s, projectId, env));
    if res.Err? {
      return Halt(Fatal(res.error)), trace', "", "";
    }
    if res.data.Null? {
      return Halt(Fatal(TypeError)), trace', "", "";
    }
    frontendServiceId := CreatedServiceId(res.data);
    if frontendServiceId == "" {
      return Halt(Fatal(Thrown(FrontendServiceFailed))), trace', "", "";
    }
    return Proceed, trace', apiServiceId, frontendServiceId;
  }

  /** Lines 185-216: the instance ids come from one loop over the services. */
  method CheckInstances(s: Settings, remote: Oracle, trace: seq<Call>, projectId: string, env: string,
                        apiId: string, frontendId: string)
    returns (progress: Progress, trace': seq<Call>)
    ensures progress.Halt? ==>
      Run(progress.outcome, trace') == Continue(s, remote, trace, AtInstances(projectId, env, apiId, frontendId))
    ensures progress.Proceed? ==>
      Continue(s, remote, trace', AtDomains(projectId, env, apiId, frontendId))
      == Continue(s, remote, trace, AtInstances(projectId, env, apiId, frontendId))
  {
    var res;
    assert Continue(s, remote, trace, AtInstances(projectId, env, apiId, frontendId))
        == InstancesStage(s, remote, trace, projectId, env, apiId, frontendId);
    res, trace' := Exchange(remote, trace, InstancesQuery(projectId));
    if res.Err? {
      return Halt(Fatal(res.error)), trace';
    }
    if !res.data.ServiceEdges? {
      return Halt(Fatal(TypeError)), trace';
    }
    var apiInstanceId, frontendInstanceId := Instances.ResolveInstances(res.data.services, env);
    if apiInstanceId == "" || frontendInstanceId == "" {
      return Halt(EarlyStop(InstancesNotReady)), trace';
    }
    return Proceed, trace';
  }

  /** Lines 218-243: both answers are read after both calls. */
  method CreateDomains(s: Settings, remote: Oracle, trace: seq<Call>, projectId: string, env: string,
                       apiId: string, frontendId: string)
    returns (progress: Progress, trace': seq<Call>, apiDomain: string, frontendDomain: string)
    ensures progress.Halt? ==>
      Run(progress.outcome, trace') == Continue(s, remote, trace, AtDomains(projectId, env, apiId, frontendId))
    ensures progress.Proceed? ==>
      Continue(s, remote, trace', AtVariables(projectId, env, apiId, frontendId, apiDomain, frontendDomain))
      == Continue(s, remote, trace, AtDomains(projectId, env, apiId, frontendId))
  {
    var apiAnswer, frontendAnswer;
    assert Continue(s, remote, trace, AtDomains(projectId, env, apiId, frontendId))
        == DomainsStage(s, remote, trace, projectId, env, apiId, frontendId);
    apiAnswer, trace' := Exchange(remote, trace, DomainCreate(apiId, env));
    if apiAnswer.Err? {
      return Halt(Fatal(apiAnswer.error)), trace', "", "";
    }
    frontendAnswer, trace' := Exchange(remote, trace', DomainCreate(frontendId, env));
    if frontendAnswer.Err? {
      return Halt(Fatal(frontendAnswer.error)), trace', "", "";
    }
    if apiAnswer.data.Null? || frontendAnswer.data.Null? {
      return Halt(Fatal(TypeError)), trace', "", "";
    }
    apiDomain := Hostname(apiAnswer.data);
    frontendDomain := Hostname(frontendAnswer.data);
    return Proceed, trace', apiDomain, frontendDomain;
  }

  /** Lines 245-283. */
  method SetVariables(s: Settings, remote: Oracle, trace: seq<Call>, projectId: string, env: string,
                      apiId: string, frontendId: string, apiDomain: string, frontendDomain: string)
    returns (progress: Progress, trace': seq<Call>)
    ensures progress.Halt? ==>
      Run(progress.outcome, trace')
      == Continue(s, remote, trace, AtVariables(projectId, env, apiId, frontendId, apiDomain, frontendDomain))
    ensures progress.Proceed? ==>
      Continue(s, remote, trace', AtDeploy(env, apiId, frontendId))
      == Continue(s, remote, trace, AtVariables(projectId, env, apiId, frontendId, apiDomain, frontendDomain))
  {
    var res;
    assert Continue(s, remote, trace, AtVariables(projectId, env, apiId, frontendId, apiDomain, frontendDomain))
        == VariablesStage(s, remote, trace, projectId, env, apiId, frontendId, apiDomain, frontendDomain);
    var apiVars := Variables.ApiAssignment(apiDomain, frontendDomain);
    res, trace' := Exchange(remote, trace, VariableUpsert(projectId, env, apiId, apiVars));
    if res.Err? {
      return Halt(Fatal(res.error)), trace';
    }
    var frontendVars := Variables.FrontendAssignment(apiDomain, frontendDomain);
    res, trace' := Exchange(remote, trace', VariableUpsert(projectId, env, frontendId, frontendVars));
    if res.Err? {
      return Halt(Fatal(res.error)), trace';
    }
    return Proceed, trace';
  }

  /** Lines 285-305: the last step; the run succeeds once both deploys are triggered. */
  method TriggerDeploys(s: Settings, remote: Oracle, trace: seq<Call>, env: string, apiId: string, frontendId: string)
    returns (outcome: Outcome, trace': seq<Call>)
    ensures Run(outcome, trace') == Continue(s, remote, trace, AtDeploy(env, apiId, frontendId))
  {
    var res;
    assert Continue(s, remote, trace, AtDeploy(env, apiId, frontendId)) == DeployStage(s, remote, trace, env, apiId, frontendId);
    res, trace' := Exchange(remote, trace, DeployTrigger(apiId, env));
    if res.Err? {
      return Fatal(res.error), trace';
    }
    res, trace' := Exchange(remote, trace', DeployTrigger(frontendId, env));
    if res.Err? {
      return Fatal(res.error), trace';
    }
    return Success, trace';
  }

  /**
   * `main` (lines 66-313): the settings are read, then each step runs in turn on the
   * trace so far, and the first step that returns or throws ends the run.
   */
  method Provision(cfg: Config, remote: Oracle) returns (outcome: Outcome, trace: seq<Call>)
    ensures Run(outcome, trace) == Pipeline(cfg, remote)
  {
    trace := [];
    var resolution := Resolve(cfg);
    if resolution.Missing? {
      return Fatal(MissingEnv(resolution.name)), trace;
    }
    var s := resolution.settings;
    if s.dryRun {
      return EarlyStop(DryRun), trace;
    }
    ghost var rest := Pipeline(cfg, remote);
    assert rest == Continue(s, remote, [], FirstPhase(s));
    var progress;
    var projectIdentifier := s.projectId;
    if projectIdentifier == "" {
      progress, trace, projectIdentifier := StartProject(s, remote, trace);
      if progress.Halt? {
        return progress.outcome, trace;
      }
    }
    assert rest == Continue(s, remote, trace, AtQuery(projectIdentifier));
    var projectId, environmentId;
    progress, trace, projectId, environmentId := FindEnvironment(s, remote, trace, projectIdentifier);
    if progress.Halt? {
      return progress.outcome, trace;
    }
    var apiServiceId, frontendServiceId;
    progress, trace, apiServiceId, frontendServiceId := CreateServices(s, remote, trace, projectId, environmentId);
    if progress.Halt? {
      return progress.outcome, trace;
    }
    progress, trace := CheckInstances(s, remote, trace, projectId, environmentId, apiServiceId, frontendServiceId);
    if progress.Halt? {
      return progress.outcome, trace;
    }
    var apiDomain, frontendDomain;
    progress, trace, apiDomain, frontendDomain := CreateDomains(s, remote, trace, projectId, environmentId, apiServiceId, frontendServiceId);
    if progress.Halt? {
      return progress.outcome, trace;
    }
    progress, trace := SetVariables(s, remote, trace, projectId, environmentId, apiServiceId, frontendServiceId, apiDomain, frontendDomain);
    if progress.Halt? {
      return progress.outcome, trace;
    }
    outcome, trace := TriggerDeploys(s, remote, trace, environmentId, apiServiceId, frontendServiceId);
  }
}
