/**
 * What a provisioning run of scripts/railway-setup.mjs promises: which calls it makes,
 * in which order, with which arguments, and how each step ends the run.
 */
module Properties {
  import opened Remote
  import opened Setup
  import Variables
  import Instances

  // Reaching a step of the run.

  /** The run gets to phase p having made exactly the calls t. */
  ghost predicate Reaches(s: Settings, remote: Oracle, t: seq<Call>, p: Phase) {
    Provisioning(s, remote) == Continue(s, remote, t, p)
  }

  lemma {:induction false} ReachesStart(s: Settings, remote: Oracle)
    ensures Reaches(s, remote, [], FirstPhase(s))
  {
  }

  /** A phase that passes hands the run to the next phase, its own calls made. */
  lemma {:induction false} Advance(s: Settings, remote: Oracle, t: seq<Call>, p: Phase)
    requires Reaches(s, remote, t, p) && Passes(s, remote, |t|, p) && !p.AtDeploy?
    ensures Reaches(s, remote, t + PhaseCalls(s, p), Next(s, remote, |t|, p))
  {
    StepOn(s, remote, t, p);
  }

  // The phases of a run that reaches them, named by what they were given.

  function QueryPhase(s: Settings, remote: Oracle): Phase {
    AtQuery(TargetProjectId(s, remote))
  }

  function ServicesPhase(s: Settings, remote: Oracle): Phase {
    AtServices(TargetProject(s, remote).id, ActiveEnvironment(s, remote))
  }

  function InstancesPhase(s: Settings, remote: Oracle): Phase {
    AtInstances(TargetProject(s, remote).id, ActiveEnvironment(s, remote),
                ApiServiceId(s, remote), FrontendServiceId(s, remote))
  }

  function DomainsPhase(s: Settings, remote: Oracle): Phase {
    AtDomains(TargetProject(s, remote).id, ActiveEnvironment(s, remote),
              ApiServiceId(s, remote), FrontendServiceId(s, remote))
  }

  /** The hostname generated for the api service, "" for none. */
  function ApiDomain(s: Settings, remote: Oracle): string {
    Hostname(DataAt(remote, Offset(s) + 4, DomainCreate(ApiServiceId(s, remote), ActiveEnvironment(s, remote))))
  }

  function FrontendDomain(s: Settings, remote: Oracle): string {
    Hostname(DataAt(remote, Offset(s) + 5, DomainCreate(FrontendServiceId(s, remote), ActiveEnvironment(s, remote))))
  }

  function VariablesPhase(s: Settings, remote: Oracle): Phase {
    AtVariables(TargetProject(s, remote).id, ActiveEnvironment(s, remote),
                ApiServiceId(s, remote), FrontendServiceId(s, remote), ApiDomain(s, remote), FrontendDomain(s, remote))
  }

  function DeployPhase(s: Settings, remote: Oracle): Phase {
    AtDeploy(ActiveEnvironment(s, remote), ApiServiceId(s, remote), FrontendServiceId(s, remote))
  }

  /** The project query is reached when a project id is configured or the creation passes. */
  lemma {:induction false} ReachQuery(s: Settings, remote: Oracle)
    requires s.projectId != "" || Passes(s, remote, 0, AtCreate(s.workspaceId))
    ensures Reaches(s, remote, if s.projectId == "" then [CreateCall(s.workspaceId)] else [], QueryPhase(s, remote))
  {
    ReachesStart(s, remote);
    if s.projectId == "" {
      Advance(s, remote, [], AtCreate(s.workspaceId));
      assert [] + PhaseCalls(s, AtCreate(s.workspaceId)) == [CreateCall(s.workspaceId)];
    }
  }

  lemma {:induction false} ReachServices(s: Settings, remote: Oracle, t: seq<Call>)
    requires Reaches(s, remote, t, QueryPhase(s, remote)) && |t| == Offset(s)
    requires Passes(s, remote, |t|, QueryPhase(s, remote))
    ensures Reaches(s, remote, t + PhaseCalls(s, QueryPhase(s, remote)), ServicesPhase(s, remote))
  {
    Advance(s, remote, t, QueryPhase(s, remote));
  }

  lemma {:induction false} ReachInstances(s: Settings, remote: Oracle, t: seq<Call>)
    requires Reaches(s, remote, t, ServicesPhase(s, remote)) && |t| == Offset(s) + 1
    requires Passes(s, remote, |t|, ServicesPhase(s, remote))
    ensures Reaches(s, remote, t + PhaseCalls(s, ServicesPhase(s, remote)), InstancesPhase(s, remote))
  {
    Advance(s, remote, t, ServicesPhase(s, remote));
  }

  lemma {:induction false} ReachDomains(s: Settings, remote: Oracle, t: seq<Call>)
    requires Reaches(s, remote, t, InstancesPhase(s, remote)) && |t| == Offset(s) + 3
    requires Passes(s, remote, |t|, InstancesPhase(s, remote))
    ensures Reaches(s, remote, t + PhaseCalls(s, InstancesPhase(s, remote)), DomainsPhase(s, remote))
  {
    Advance(s, remote, t, InstancesPhase(s, remote));
  }

  lemma {:induction false} ReachVariables(s: Settings, remote: Oracle, t: seq<Call>)
    requires Reaches(s, remote, t, DomainsPhase(s, remote)) && |t| == Offset(s) + 4
    requires Passes(s, remote, |t|, DomainsPhase(s, remote))
    ensures Reaches(s, remote, t + PhaseCalls(s, DomainsPhase(s, remote)), VariablesPhase(s, remote))
  {
    Advance(s, remote, t, DomainsPhase(s, remote));
  }

  lemma {:induction false} ReachDeploy(s: Settings, remote: Oracle, t: seq<Call>)
    requires Reaches(s, remote, t, VariablesPhase(s, remote)) && |t| == Offset(s) + 6
    requires Passes(s, remote, |t|, VariablesPhase(s, remote))
    ensures Reaches(s, remote, t + PhaseCalls(s, VariablesPhase(s, remote)), DeployPhase(s, remote))
  {
    Advance(s, remote, t, VariablesPhase(s, remote));
  }

  // The whole run.

  /** A run makes a non-empty prefix of the planned calls, and all of them when it succeeds. */
  lemma {:induction false} RunIsPlanPrefix(s: Settings, remote: Oracle)
    ensures var r := Provisioning(s, remote);
      && 0 < |r.trace| <= |Planned(s, remote)|
      && r.trace == Planned(s, remote)[..|r.trace|]
      && (r.outcome.Success? ==> r.trace == Planned(s, remote))
  {
    ContinueIssues(s, remote, [], FirstPhase(s));
    assert [] + Planned(s, remote)[..|Provisioning(s, remote).trace|]
        == Planned(s, remote)[..|Provisioning(s, remote).trace|];
  }

  /** A run ends at the first call answered with a transport or remote error, if any. */
  lemma {:induction false} RunStopsAtFailure(s: Settings, remote: Oracle)
    ensures var r := Provisioning(s, remote);
      0 < |r.trace| && StopsAtFailure(remote, [], r)
  {
    ContinueStops(s, remote, [], FirstPhase(s));
  }

  /** A successful run made every planned call, and each was answered without error. */
  lemma {:induction false} SuccessMakesEveryCall(s: Settings, remote: Oracle)
    requires Provisioning(s, remote).outcome.Success?
    ensures Provisioning(s, remote).trace == Planned(s, remote)
    ensures forall k :: 0 <= k < |Planned(s, remote)| ==> Gql(remote(k, Planned(s, remote)[k])).Ok?
  {
    RunIsPlanPrefix(s, remote);
    RunStopsAtFailure(s, remote);
    var r := Provisioning(s, remote);
    assert forall k :: 0 <= k < |r.trace| ==> AnswerAt(remote, r.trace, k) == Gql(remote(k, r.trace[k]));
  }

  /**
   * The only early stop is the one for unassigned instances, right after the instance
   * query: no domain, variable or deploy call is made.
   */
  lemma {:induction false} EarlyStopAfterInstanceQuery(s: Settings, remote: Oracle)
    requires Provisioning(s, remote).outcome.EarlyStop?
    ensures Provisioning(s, remote).outcome.reason == InstancesNotReady
    ensures |Provisioning(s, remote).trace| == Offset(s) + 4
    ensures Kinds(Provisioning(s, remote).trace)[Offset(s) + 3] == QueryInstances
    ensures forall k :: 0 <= k < |Provisioning(s, remote).trace| ==>
      !(Provisioning(s, remote).trace[k].DomainCreate? || Provisioning(s, remote).trace[k].VariableUpsert?
        || Provisioning(s, remote).trace[k].DeployTrigger?)
  {
    var r := Provisioning(s, remote);
    var head: seq<Kind> := if s.projectId == "" then [CreateProject] else [];
    ContinueEarly(s, remote, [], FirstPhase(s));
    PlannedKinds(s, remote);
    RunKinds(s, remote);
    ProjectKindsSpelled();
    forall k | 0 <= k < |r.trace|
      ensures !(r.trace[k].DomainCreate? || r.trace[k].VariableUpsert? || r.trace[k].DeployTrigger?)
    {
      assert KindOf(r.trace[k]) == Kinds(r.trace)[k] == (head + PROJECT_KINDS)[k];
    }
  }

  /** A transport or remote error aborts the run: no call follows, and the run fails with it. */
  lemma {:induction false} ErrorAborts(s: Settings, remote: Oracle, k: nat)
    requires k < |Provisioning(s, remote).trace|
    requires AnswerAt(remote, Provisioning(s, remote).trace, k).Err?
    ensures k == |Provisioning(s, remote).trace| - 1
    ensures Provisioning(s, remote).outcome == Fatal(AnswerAt(remote, Provisioning(s, remote).trace, k).error)
  {
    RunStopsAtFailure(s, remote);
  }

  /** Taking a prefix commutes with taking kinds. */
  lemma {:induction false} KindsPrefix(a: seq<Call>, m: nat)
    requires m <= |a|
    ensures Kinds(a[..m]) == Kinds(a)[..m]
  {
  }

  lemma {:induction false} ProjectKindsSpelled()
    ensures PROJECT_KINDS == [QueryProject, CreateService, CreateService, QueryInstances, CreateDomain,
                              CreateDomain, UpsertVariables, UpsertVariables, TriggerDeploy, TriggerDeploy]
  {
  }

  /**
   * The kinds of the calls a run makes follow the fixed order: an optional project
   * creation, the project query, the two service creations, the instance query, then
   * two domain creations, two variable upserts and two deploys.
   */
  lemma {:induction false} RunKinds(s: Settings, remote: Oracle)
    ensures Kinds(Provisioning(s, remote).trace)
         <= (if s.projectId == "" then [CreateProject] else []) + PROJECT_KINDS
  {
    RunIsPlanPrefix(s, remote);
    PlannedKinds(s, remote);
    KindsPrefix(Planned(s, remote), |Provisioning(s, remote).trace|);
  }

  /** After the optional project creation, no call of a run creates a project. */
  lemma {:induction false} NoCreationAfterOffset(s: Settings, remote: Oracle)
    ensures forall k :: Offset(s) <= k < |Provisioning(s, remote).trace| ==> !Provisioning(s, remote).trace[k].ProjectCreate?
  {
    var r := Provisioning(s, remote);
    var head: seq<Kind> := if s.projectId == "" then [CreateProject] else [];
    RunKinds(s, remote);
    ProjectKindsSpelled();
    forall k | Offset(s) <= k < |r.trace| ensures !r.trace[k].ProjectCreate? {
      assert KindOf(r.trace[k]) == Kinds(r.trace)[k] == (head + PROJECT_KINDS)[k] == PROJECT_KINDS[k - Offset(s)];
    }
  }

  /** A run's calls up to the project query are the planned project calls. */
  lemma {:induction false} RunStartsWithProjectCalls(s: Settings, remote: Oracle)
    ensures forall k :: 0 <= k <= Offset(s) && k < |Provisioning(s, remote).trace| ==>
      Provisioning(s, remote).trace[k] == ProjectCalls(s, remote)[k]
  {
    var r := Provisioning(s, remote);
    RunIsPlanPrefix(s, remote);
    PlanFromStart(s, remote);
    forall k | 0 <= k <= Offset(s) && k < |r.trace| ensures r.trace[k] == ProjectCalls(s, remote)[k] {
      assert r.trace[k] == Planned(s, remote)[k];
    }
  }

  /** A configured project is queried first and no project is created. */
  lemma {:induction false} ProjectReused(s: Settings, remote: Oracle)
    requires s.projectId != ""
    ensures |Provisioning(s, remote).trace| > 0
    ensures Provisioning(s, remote).trace[0] == ProjectQuery(s.projectId)
    ensures forall k :: 0 <= k < |Provisioning(s, remote).trace| ==> !Provisioning(s, remote).trace[k].ProjectCreate?
  {
    RunIsPlanPrefix(s, remote);
    RunStartsWithProjectCalls(s, remote);
    NoCreationAfterOffset(s, remote);
  }

  /**
   * Without a configured project, exactly one project is created, as the first call,
   * and the query that follows is for the id the creation answered with.
   */
  lemma {:induction false} ProjectCreatedFirst(s: Settings, remote: Oracle)
    requires s.projectId == ""
    ensures |Provisioning(s, remote).trace| > 0
    ensures Provisioning(s, remote).trace[0] == ProjectCreate(PROJECT_NAME, s.workspaceId)
    ensures forall k :: 0 < k < |Provisioning(s, remote).trace| ==> !Provisioning(s, remote).trace[k].ProjectCreate?
    ensures |Provisioning(s, remote).trace| > 1 ==>
      Provisioning(s, remote).trace[1] == ProjectQuery(CreatedProjectId(DataAt(remote, 0, CreateCall(s.workspaceId))))
  {
    RunIsPlanPrefix(s, remote);
    RunStartsWithProjectCalls(s, remote);
    NoCreationAfterOffset(s, remote);
  }

  // The planned calls, phase by phase.

  /** The project creation, when no project is configured, and the project query. */
  function ProjectCalls(s: Settings, remote: Oracle): seq<Call> {
    (if s.projectId == "" then [CreateCall(s.workspaceId)] else [])
    + [ProjectQuery(TargetProjectId(s, remote))]
  }

  /**
   * The api then the frontend service, in the target project and its first environment,
   * each from its repository and branch, in its root directory ("/" by default).
   */
  function ServiceCalls(s: Settings, remote: Oracle): seq<Call> {
    var projectId, env := TargetProject(s, remote).id, ActiveEnvironment(s, remote);
    [ApiServiceCall(s, projectId, env), FrontendServiceCall(s, projectId, env)]
  }

  /** A domain for the api service, then one for the frontend service. */
  function DomainCalls(s: Settings, remote: Oracle): seq<Call> {
    [ DomainCreate(ApiServiceId(s, remote), ActiveEnvironment(s, remote)),
      DomainCreate(FrontendServiceId(s, remote), ActiveEnvironment(s, remote)) ]
  }

  /** The two variable maps, built from the domains' URLs, then a deploy of each service. */
  function VariableAndDeployCalls(s: Settings, remote: Oracle): seq<Call> {
    var projectId, env := TargetProject(s, remote).id, ActiveEnvironment(s, remote);
    var apiId, frontendId := ApiServiceId(s, remote), FrontendServiceId(s, remote);
    [ VariableUpsert(projectId, env, apiId, Variables.ApiAssignment(ApiDomain(s, remote), FrontendDomain(s, remote))),
      VariableUpsert(projectId, env, frontendId, Variables.FrontendAssignment(ApiDomain(s, remote), FrontendDomain(s, remote))),
      DeployTrigger(apiId, env),
      DeployTrigger(frontendId, env) ]
  }

  /** The calls of a run that goes through, written out in order. */
  function ScriptedTrace(s: Settings, remote: Oracle): seq<Call> {
    ProjectCalls(s, remote)
    + (ServiceCalls(s, remote)
       + ([InstancesQuery(TargetProject(s, remote).id)]
          + (DomainCalls(s, remote) + VariableAndDeployCalls(s, remote))))
  }

  // One step of the plan from each kind of phase.

  lemma {:induction false} PlanAtCreate(s: Settings, remote: Oracle, n: nat)
    ensures Plan(s, remote, n, AtCreate(s.workspaceId)) == [CreateCall(s.workspaceId)] + Plan(s, remote, n + 1, Next(s, remote, n, AtCreate(s.workspaceId)))
  {
  }

  lemma {:induction false} PlanAtQuery(s: Settings, remote: Oracle, n: nat, id: string)
    ensures Plan(s, remote, n, AtQuery(id)) == [ProjectQuery(id)] + Plan(s, remote, n + 1, Next(s, remote, n, AtQuery(id)))
  {
  }

  lemma {:induction false} PlanAtServices(s: Settings, remote: Oracle, n: nat, projectId: string, env: string)
    ensures var api, frontend := ApiServiceCall(s, projectId, env), FrontendServiceCall(s, projectId, env);
      Plan(s, remote, n, AtServices(projectId, env))
      == [api, frontend] + Plan(s, remote, n + 2, AtInstances(projectId, env, CreatedServiceId(DataAt(remote, n, api)),
                                                           CreatedServiceId(DataAt(remote, n + 1, frontend))))
  {
  }

  lemma {:induction false} PlanAtInstances(s: Settings, remote: Oracle, n: nat, projectId: string, env: string,
                        apiId: string, frontendId: string)
    ensures Plan(s, remote, n, AtInstances(projectId, env, apiId, frontendId))
         == [InstancesQuery(projectId)] + Plan(s, remote, n + 1, AtDomains(projectId, env, apiId, frontendId))
  {
  }

  lemma {:induction false} PlanAtDomains(s: Settings, remote: Oracle, n: nat, projectId: string, env: string,
                      apiId: string, frontendId: string)
    ensures var d1, d2 := DomainCreate(apiId, env), DomainCreate(frontendId, env);
      Plan(s, remote, n, AtDomains(projectId, env, apiId, frontendId))
      == [d1, d2] + Plan(s, remote, n + 2, AtVariables(projectId, env, apiId, frontendId,
                                                       Hostname(DataAt(remote, n, d1)),
                                                       Hostname(DataAt(remote, n + 1, d2))))
  {
  }

  lemma {:induction false} PlanAtVariables(s: Settings, remote: Oracle, n: nat, projectId: string, env: string,
                        apiId: string, frontendId: string, apiDomain: string, frontendDomain: string)
    ensures Plan(s, remote, n, AtVariables(projectId, env, apiId, frontendId, apiDomain, frontendDomain))
         == [ VariableUpsert(projectId, env, apiId, Variables.ApiAssignment(apiDomain, frontendDomain)),
              VariableUpsert(projectId, env, frontendId, Variables.FrontendAssignment(apiDomain, frontendDomain)),
              DeployTrigger(apiId, env),
              DeployTrigger(frontendId, env) ]
  {
  }

  // The same steps from the phases a run goes through.

  lemma {:induction false} PlanFromVariables(s: Settings, remote: Oracle)
    ensures Plan(s, remote, Offset(s) + 6, VariablesPhase(s, remote)) == VariableAndDeployCalls(s, remote)
  {
    var projectId, env := TargetProject(s, remote).id, ActiveEnvironment(s, remote);
    PlanAtVariables(s, remote, Offset(s) + 6, projectId, env, ApiServiceId(s, remote), FrontendServiceId(s, remote),
                    ApiDomain(s, remote), FrontendDomain(s, remote));
  }

  lemma {:induction false} PlanFromDomains(s: Settings, remote: Oracle)
    ensures Plan(s, remote, Offset(s) + 4, DomainsPhase(s, remote))
         == DomainCalls(s, remote) + Plan(s, remote, Offset(s) + 6, VariablesPhase(s, remote))
  {
    var projectId, env := TargetProject(s, remote).id, ActiveEnvironment(s, remote);
    PlanAtDomains(s, remote, Offset(s) + 4, projectId, env, ApiServiceId(s, remote), FrontendServiceId(s, remote));
  }

  lemma {:induction false} PlanFromInstances(s: Settings, remote: Oracle)
    ensures Plan(s, remote, Offset(s) + 3, InstancesPhase(s, remote))
         == [InstancesQuery(TargetProject(s, remote).id)] + Plan(s, remote, Offset(s) + 4, DomainsPhase(s, remote))
  {
    var projectId, env := TargetProject(s, remote).id, ActiveEnvironment(s, remote);
    PlanAtInstances(s, remote, Offset(s) + 3, projectId, env, ApiServiceId(s, remote), FrontendServiceId(s, remote));
  }

  lemma {:induction false} PlanFromServices(s: Settings, remote: Oracle)
    ensures Plan(s, remote, Offset(s) + 1, ServicesPhase(s, remote))
         == ServiceCalls(s, remote) + Plan(s, remote, Offset(s) + 3, InstancesPhase(s, remote))
  {
    PlanAtServices(s, remote, Offset(s) + 1, TargetProject(s, remote).id, ActiveEnvironment(s, remote));
  }

  lemma {:induction false} PlanFromQuery(s: Settings, remote: Oracle)
    ensures Plan(s, remote, Offset(s), QueryPhase(s, remote))
         == [ProjectQuery(TargetProjectId(s, remote))] + Plan(s, remote, Offset(s) + 1, ServicesPhase(s, remote))
  {
    PlanAtQuery(s, remote, Offset(s), TargetProjectId(s, remote));
  }

  lemma {:induction false} PlannedCreating(s: Settings, remote: Oracle)
    requires s.projectId == ""
    ensures Planned(s, remote) == [CreateCall(s.workspaceId)] + Plan(s, remote, 1, QueryPhase(s, remote))
  {
    PlanAtCreate(s, remote, 0);
    assert Next(s, remote, 0, AtCreate(s.workspaceId)) == QueryPhase(s, remote);
  }

  lemma {:induction false} PlannedReusing(s: Settings, remote: Oracle)
    requires s.projectId != ""
    ensures Planned(s, remote) == Plan(s, remote, 0, QueryPhase(s, remote))
  {
  }

  lemma {:induction false} PlanFromStart(s: Settings, remote: Oracle)
    ensures Planned(s, remote) == ProjectCalls(s, remote) + Plan(s, remote, Offset(s) + 1, ServicesPhase(s, remote))
  {
    var query, rest := [ProjectQuery(TargetProjectId(s, remote))], Plan(s, remote, Offset(s) + 1, ServicesPhase(s, remote));
    PlanFromQuery(s, remote);
    if s.projectId == "" {
      PlannedCreating(s, remote);
      assert [CreateCall(s.workspaceId)] + (query + rest) == ([CreateCall(s.workspaceId)] + query) + rest;
    } else {
      PlannedReusing(s, remote);
      assert [] + query == query;
    }
  }

  /** The planned calls are the scripted ones. */
  lemma {:induction false} PlannedIsScripted(s: Settings, remote: Oracle)
    ensures Planned(s, remote) == ScriptedTrace(s, remote)
  {
    PlanFromStart(s, remote);
    PlanFromServices(s, remote);
    PlanFromInstances(s, remote);
    PlanFromDomains(s, remote);
    PlanFromVariables(s, remote);
  }

  /** The exact calls of a successful run. */
  lemma {:induction false} SuccessTrace(s: Settings, remote: Oracle)
    requires Provisioning(s, remote).outcome.Success?
    ensures Provisioning(s, remote).trace == ScriptedTrace(s, remote)
  {
    RunIsPlanPrefix(s, remote);
    PlannedIsScripted(s, remote);
  }

  /**
   * Every call after the project query is made in the queried project and its first
   * environment.
   */
  lemma {:induction false} CallsInTargetScope(s: Settings, remote: Oracle)
    ensures forall k :: Offset(s) < k < |Provisioning(s, remote).trace| ==>
      Scoped(Provisioning(s, remote).trace[k], TargetProject(s, remote).id, ActiveEnvironment(s, remote))
  {
    var r := Provisioning(s, remote);
    RunIsPlanPrefix(s, remote);
    PlannedInTargetScope(s, remote);
    forall k | Offset(s) < k < |r.trace|
      ensures Scoped(r.trace[k], TargetProject(s, remote).id, ActiveEnvironment(s, remote))
    {
      assert r.trace[k] == Planned(s, remote)[k];
    }
  }

  /** The planned calls after the project query are in the target project and environment. */
  lemma {:induction false} PlannedInTargetScope(s: Settings, remote: Oracle)
    ensures forall k :: Offset(s) < k < |Planned(s, remote)| ==>
      Scoped(Planned(s, remote)[k], TargetProject(s, remote).id, ActiveEnvironment(s, remote))
  {
    var o := Offset(s);
    var projectId, env := TargetProject(s, remote).id, ActiveEnvironment(s, remote);
    PlanFromStart(s, remote);
    var front, rest := ProjectCalls(s, remote), Plan(s, remote, o + 1, ServicesPhase(s, remote));
    PlanScoped(s, remote, o + 1, ServicesPhase(s, remote), projectId, env);
    forall k | o < k < |front + rest| ensures Scoped((front + rest)[k], projectId, env) {
      assert (front + rest)[k] == rest[k - (o + 1)];
    }
  }

  // How each step ends the run once the run has reached it.

  /** An answer to the project creation without a `projectCreate` object is a TypeError. */
  lemma {:induction false} CreationUnreadable(s: Settings, remote: Oracle)
    requires s.projectId == ""
    requires Gql(remote(0, CreateCall(s.workspaceId))).Ok? && !Gql(remote(0, CreateCall(s.workspaceId))).data.ProjectCreated?
    ensures Provisioning(s, remote) == Run(Fatal(TypeError), [CreateCall(s.workspaceId)])
  {
    assert Provisioning(s, remote) == CreateStage(s, remote, [], s.workspaceId);
  }

  /**
   * Lines 109-125: a null answer is a TypeError, a missing project is "Project not
   * found", a project without a first environment id (one answered in the shape of the
   * instance query has no `environments` at all) is "No environment found"; in each
   * case the query is the last call, so no service is created.
   */
  lemma {:induction false} QueryOutcome(s: Settings, remote: Oracle, t: seq<Call>, id: string)
    requires Reaches(s, remote, t, AtQuery(id))
    ensures var g := Gql(remote(|t|, ProjectQuery(id)));
      var t1 := t + [ProjectQuery(id)];
      && (g.Ok? && g.data.Null? ==> Provisioning(s, remote) == Run(Fatal(TypeError), t1))
      && (g.Ok? && !g.data.Null? && !g.data.ServiceEdges? && !(g.data.ProjectFound? && g.data.project.Some?) ==>
            Provisioning(s, remote) == Run(Fatal(Thrown(ProjectNotFound)), t1))
      && (g.Ok? && g.data.ServiceEdges? ==> Provisioning(s, remote) == Run(Fatal(Thrown(NoEnvironment)), t1))
      && (g.Ok? && g.data.ProjectFound? && g.data.project.Some?
          && FirstEnvironmentId(g.data.project.value.environmentIds) == "" ==>
            Provisioning(s, remote) == Run(Fatal(Thrown(NoEnvironment)), t1))
  {
    assert Continue(s, remote, t, AtQuery(id)) == QueryStage(s, remote, t, id);
  }

  /**
   * Lines 127-183: a falsy api service id is fatal before the frontend service is
   * created; a falsy frontend service id is fatal after both creations.
   */
  lemma {:induction false} ServicesOutcome(s: Settings, remote: Oracle, t: seq<Call>, projectId: string, env: string)
    requires Reaches(s, remote, t, AtServices(projectId, env))
    ensures var api, frontend := ApiServiceCall(s, projectId, env), FrontendServiceCall(s, projectId, env);
      var g1, g2 := Gql(remote(|t|, api)), Gql(remote(|t| + 1, frontend));
      && (g1.Ok? && g1.data.Null? ==> Provisioning(s, remote) == Run(Fatal(TypeError), t + [api]))
      && (g1.Ok? && !g1.data.Null? && CreatedServiceId(g1.data) == "" ==>
            Provisioning(s, remote) == Run(Fatal(Thrown(ApiServiceFailed)), t + [api]))
      && (g1.Ok? && CreatedServiceId(g1.data) != "" && g2.Ok? && g2.data.Null? ==>
            Provisioning(s, remote) == Run(Fatal(TypeError), t + [api, frontend]))
      && (g1.Ok? && CreatedServiceId(g1.data) != "" && g2.Ok? && !g2.data.Null? && CreatedServiceId(g2.data) == "" ==>
            Provisioning(s, remote) == Run(Fatal(Thrown(FrontendServiceFailed)), t + [api, frontend]))
  {
    var api, frontend := ApiServiceCall(s, projectId, env), FrontendServiceCall(s, projectId, env);
    assert Continue(s, remote, t, AtServices(projectId, env)) == ServicesStage(s, remote, t, projectId, env);
    assert t + [api] + [frontend] == t + [api, frontend];
  }

  /**
   * Lines 185-216: an answer without the service list is a TypeError, and a service
   * without an instance in the environment stops the run early, with no domain,
   * variable or deploy call.
   */
  lemma {:induction false} InstancesOutcome(s: Settings, remote: Oracle, t: seq<Call>, projectId: string, env: string,
                         apiId: string, frontendId: string)
    requires Reaches(s, remote, t, AtInstances(projectId, env, apiId, frontendId))
    ensures var g := Gql(remote(|t|, InstancesQuery(projectId)));
      var t1 := t + [InstancesQuery(projectId)];
      && (g.Ok? && !g.data.ServiceEdges? ==> Provisioning(s, remote) == Run(Fatal(TypeError), t1))
      && (g.Ok? && g.data.ServiceEdges?
          && (Instances.AssignedInstance(g.data.services, API_SERVICE, env) == ""
              || Instances.AssignedInstance(g.data.services, FRONTEND_SERVICE, env) == "") ==>
            Provisioning(s, remote) == Run(EarlyStop(InstancesNotReady), t1))
  {
    assert Continue(s, remote, t, AtInstances(projectId, env, apiId, frontendId))
        == InstancesStage(s, remote, t, projectId, env, apiId, frontendId);
  }

  /** Lines 218-243: a null domain answer is a TypeError, raised only after both domain calls. */
  lemma {:induction false} DomainsOutcome(s: Settings, remote: Oracle, t: seq<Call>, projectId: string, env: string,
                       apiId: string, frontendId: string)
    requires Reaches(s, remote, t, AtDomains(projectId, env, apiId, frontendId))
    ensures var d1, d2 := DomainCreate(apiId, env), DomainCreate(frontendId, env);
      var g1, g2 := Gql(remote(|t|, d1)), Gql(remote(|t| + 1, d2));
      g1.Ok? && g2.Ok? && (g1.data.Null? || g2.data.Null?) ==>
        Provisioning(s, remote) == Run(Fatal(TypeError), t + [d1, d2])
  {
    var d1, d2 := DomainCreate(apiId, env), DomainCreate(frontendId, env);
    assert Continue(s, remote, t, AtDomains(projectId, env, apiId, frontendId))
        == DomainsStage(s, remote, t, projectId, env, apiId, frontendId);
    assert t + [d1] + [d2] == t + [d1, d2];
  }

  /** Lines 285-313: once both deploys are answered without error the run succeeds. */
  lemma {:induction false} DeployOutcome(s: Settings, remote: Oracle, t: seq<Call>, env: string, apiId: string, frontendId: string)
    requires Reaches(s, remote, t, AtDeploy(env, apiId, frontendId))
    ensures var c1, c2 := DeployTrigger(apiId, env), DeployTrigger(frontendId, env);
      Gql(remote(|t|, c1)).Ok? && Gql(remote(|t| + 1, c2)).Ok? ==>
        Provisioning(s, remote) == Run(Success, t + [c1, c2])
  {
    var c1, c2 := DeployTrigger(apiId, env), DeployTrigger(frontendId, env);
    assert Continue(s, remote, t, AtDeploy(env, apiId, frontendId)) == DeployStage(s, remote, t, env, apiId, frontendId);
    assert t + [c1] + [c2] == t + [c1, c2];
  }

  // Dry run and missing settings.

  /**
   * Only a run with every required variable set and without DRY_RUN makes calls; a
   * missing variable is fatal and a dry run stops early, both before any call.
   */
  lemma {:induction false} CallsOnlyWhenProvisioning(cfg: Config, remote: Oracle)
    ensures var r := Pipeline(cfg, remote);
      && (|r.trace| > 0 <==> Resolve(cfg).Ready? && !IsDryRun(cfg.dryRun))
      && (Resolve(cfg).Missing? ==> r.outcome == Fatal(MissingEnv(Resolve(cfg).name)) && ExitCode(r.outcome) == 1)
      && (Resolve(cfg).Ready? && IsDryRun(cfg.dryRun) ==> r.outcome == EarlyStop(DryRun) && ExitCode(r.outcome) == 0)
  {
    if Resolve(cfg).Ready? && !IsDryRun(cfg.dryRun) {
      RunIsPlanPrefix(Resolve(cfg).settings, remote);
    }
  }

  /** A missing token is fatal even in dry-run mode. */
  lemma {:induction false} MissingTokenBeforeDryRun(cfg: Config, remote: Oracle)
    requires cfg.token == ""
    ensures Pipeline(cfg, remote) == Run(Fatal(MissingEnv("RAILWAY_TOKEN")), [])
  {
  }
}
