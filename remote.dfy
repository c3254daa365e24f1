/**
 * The platform's GraphQL control plane as the script sees it: the calls it issues,
 * the answers it may get back, and how `gql` classifies an answer
 * (scripts/railway-setup.mjs, `gql`). Absent and empty strings are both "".
 */
module Remote {
  import opened Wrappers
  import Variables

  /** One remote call, with the arguments that distinguish it. */
  datatype Call =
    | ProjectCreate(name: string, workspaceId: Option<string>)
    | ProjectQuery(id: string)
    | ServiceCreate(projectId: string, environmentId: string, name: string,
                    repo: string, branch: string, rootDirectory: string)
    | InstancesQuery(projectId: string)
    | DomainCreate(serviceId: string, environmentId: string)
    | VariableUpsert(projectId: string, environmentId: string, serviceId: string,
                     variables: Variables.Assignment)
    | DeployTrigger(serviceId: string, environmentId: string)

  datatype Kind =
    CreateProject | QueryProject | CreateService | QueryInstances | CreateDomain
    | UpsertVariables | TriggerDeploy

  function KindOf(c: Call): Kind {
    match c
    case ProjectCreate(_, _) => CreateProject
    case ProjectQuery(_) => QueryProject
    case ServiceCreate(_, _, _, _, _, _) => CreateService
    case InstancesQuery(_) => QueryInstances
    case DomainCreate(_, _) => CreateDomain
    case VariableUpsert(_, _, _, _) => UpsertVariables
    case DeployTrigger(_, _) => TriggerDeploy
  }

  function Kinds(trace: seq<Call>): seq<Kind> {
    seq(|trace|, k requires 0 <= k < |trace| => KindOf(trace[k]))
  }

  /** The fixed names of the two services; the instance lookup finds them by name. */
  const API_SERVICE := "api"
  const FRONTEND_SERVICE := "frontend"

  datatype InstanceNode = InstanceNode(id: string, environmentId: string)
  /** A service with its instances; an absent instance list reads as empty. */
  datatype ServiceNode = ServiceNode(id: string, name: string, instances: seq<InstanceNode>)
  /** A project with the ids of its environments, in the platform's order. */
  datatype ProjectNode = ProjectNode(id: string, environmentIds: seq<string>)

  /** The `data` field of an answer, in the shapes the script reads. */
  datatype Payload =
    | Null                                      // `data` absent or null
    | ProjectCreated(id: string)                // data.projectCreate
    | ProjectFound(project: Option<ProjectNode>) // data.project
    | ServiceCreated(id: string)                // data.serviceCreate
    | ServiceEdges(services: seq<ServiceNode>)  // data.project.services.edges (a project with no `environments`)
    | DomainCreated(domain: string)             // data.serviceDomainCreate
    | Other                                     // any other object

  /** An HTTP exchange: a non-2xx status, or a JSON body with its errors list and data. */
  datatype Response =
    | HttpFailure(status: int, body: string)
    | Json(errors: seq<string>, data: Payload)

  datatype Error =
    | MissingEnv(name: string)
    | TransportError(status: int, body: string)
    | RemoteError(messages: seq<string>)  // the `message` of each entry of `errors`
    | TypeError
    | Thrown(failure: Failure)          // an `Error` main throws itself
  {
    /** The two errors `gql` itself raises. */
    predicate FromGql() {
      TransportError? || RemoteError?
    }
  }

  /** The checks of `main` that throw, each with its fixed message. */
  datatype Failure = ProjectNotFound | NoEnvironment | ApiServiceFailed | FrontendServiceFailed

  /** The message of each thrown error (lines 122, 125, 153 and 182). */
  function FailureMessage(f: Failure): string {
    match f
    case ProjectNotFound => "Project not found"
    case NoEnvironment => "No environment found; create one in the dashboard."
    case ApiServiceFailed =>
      "Failed to create API service. Ensure the repo is connected to Railway (install Railway GitHub app / deploy once from UI)."
    case FrontendServiceFailed => "Failed to create Frontend service."
  }

  datatype GqlResult = Ok(data: Payload) | Err(error: Error)

  const GRAPHQL_PREFIX := "GraphQL: "
  const MESSAGE_SEPARATOR := "; "

  /** `messages.join(sep)`. */
  function Join(messages: seq<string>, sep: string): string {
    if messages == [] then ""
    else if |messages| == 1 then messages[0]
    else messages[0] + sep + Join(messages[1..], sep)
  }

  /** Every message occurs, in full, in the joined text. */
  lemma {:induction false} JoinContains(messages: seq<string>, sep: string, i: nat)
    requires i < |messages|
    ensures exists before, after ::
      Join(messages, sep) == before + messages[i] + after
  {
    if |messages| == 1 {
      assert Join(messages, sep) == "" + messages[0] + "";
    } else if i == 0 {
      assert Join(messages, sep) == "" + messages[0] + (sep + Join(messages[1..], sep));
    } else {
      JoinContains(messages[1..], sep, i - 1);
      var before, after :| Join(messages[1..], sep) == before + messages[1..][i - 1] + after;
      assert Join(messages, sep) == (messages[0] + sep + before) + messages[i] + after;
    }
  }

  /**
   * The classification `gql` applies to an answer: a failed HTTP status is a transport
   * error, a non-empty errors list is a remote error, and otherwise the data is returned.
   */
  function Gql(r: Response): (g: GqlResult)
    ensures g.Ok? <==> r.Json? && r.errors == []
    ensures g.Ok? ==> g.data == r.data
    ensures g.Err? ==> g.error.FromGql()
    ensures r.HttpFailure? ==> g == Err(TransportError(r.status, r.body))
    ensures r.Json? && r.errors != [] ==> g == Err(RemoteError(r.errors))
  {
    match r
    case HttpFailure(status, body) => Err(TransportError(status, body))
    case Json(errors, data) =>
      if |errors| > 0 then Err(RemoteError(errors))
      else Ok(data)
  }

  /** The message of a remote error: the GraphQL prefix, then the platform's messages joined. */
  function RemoteErrorText(messages: seq<string>): string {
    GRAPHQL_PREFIX + Join(messages, MESSAGE_SEPARATOR)
  }

  /** A remote error's message starts with the GraphQL prefix and names every message the platform returned. */
  lemma {:induction false} RemoteErrorNamesEveryMessage(errors: seq<string>, data: Payload, i: nat)
    requires i < |errors|
    ensures Gql(Json(errors, data)).Err? && Gql(Json(errors, data)).error.RemoteError?
    ensures GRAPHQL_PREFIX <= RemoteErrorText(Gql(Json(errors, data)).error.messages)
    ensures exists before, after :: RemoteErrorText(Gql(Json(errors, data)).error.messages) == before + errors[i] + after
  {
    JoinContains(errors, MESSAGE_SEPARATOR, i);
    var before, after :| Join(errors, MESSAGE_SEPARATOR) == before + errors[i] + after;
    assert RemoteErrorText(errors) == (GRAPHQL_PREFIX + before) + errors[i] + after;
  }
}
