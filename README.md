# railway-setup, modelled in Dafny

`scripts/railway-setup.mjs` provisions a Railway deployment through the platform's
GraphQL control plane. It reads its settings from the environment, then makes these
calls in order:

1. it creates a project, or reuses a configured one;
2. it queries the project and takes its first environment;
3. it creates an `api` and a `frontend` service from GitHub repositories;
4. it finds each service's instance in that environment;
5. it generates a public domain for each service;
6. it upserts a variable map on each service;
7. it triggers a deploy of each service.

The run stops at the first failure. Every network exchange goes through `gql`. That
function turns a non-2xx status or a non-empty GraphQL `errors` list into a thrown error.

The model has seven modules:

- `Wrappers`: `Option`.
- `Repo`: `parseRepo`, the split of a repository spec into owner and repository.
- `Variables`: the composition of the two URLs and the two variable maps.
- `Remote`: the calls, the answers, and the classification `gql` applies (`Gql`).
- `Instances`: the loop that picks each service's instance in the environment.
- `Setup`: `main`, in two forms that are proved equal:
  - the imperative method `Provision`, built from one method per step of `main`;
  - a reference function `Pipeline`, written as a machine over the phases of the run.
- `Properties`: what a run promises. This covers which calls it makes, in which order,
  with which arguments, and how each step ends it.

The platform is a parameter. `remote(k, c)` is the answer to call `c` made as the `k`-th
call of the run. A run is deterministic, so this one function covers every sequence of
answers a run can receive. A run ends in one of three ways:

- `Success`;
- `EarlyStop`: a dry run, or service instances that are not ready yet (exit status 0);
- `Fatal(error)`: exit status 1.

The source promises the following, and the model proves it:

- A dry run, or a run missing a required variable, makes no call.
- A configured project is never created. Otherwise exactly one creation comes first,
  and the query uses the id it answered with.
- The api service is created before the frontend service, from the first environment.
- Every later call stays in the queried project and its environment.
- The last service with the expected name decides whether the run goes on.
- An unready instance stops the run right after the instance query.
- A transport or GraphQL error ends the run at the call that received it.
- A successful run makes exactly the scripted sequence of ten or eleven calls.

## Model

| member | source | states |
|---|---|---|
| Repo.ParseRepo | scripts/railway-setup.mjs:58-64 | A spec containing '/' yields its first two '/'-separated segments, whose "owner/repo" rejoining is a prefix of the spec ending at a '/' or at the end. A bare name gets the configured owner. With no owner there is no result (the required lookup fails). |
| Repo.ParseRepoSplit | scripts/railway-setup.mjs:59-61 | A spec of the form owner '/' repo tail, with no '/' in owner or repo and a tail that is empty or starts with '/', parses to exactly that owner and repo, whatever the configured owner is. |
| Repo.ParseFullName | scripts/railway-setup.mjs:58-64 | Parsing the "owner/repo" name sent as the GitHub source gives the reference back. |
| Repo.ParseBareName | scripts/railway-setup.mjs:63 | "myrepo" with owner "myorg" becomes myorg/myrepo. |
| Repo.ParseExplicitOwner | scripts/railway-setup.mjs:59-61 | An explicit owner in the spec wins over the configured one. |
| Repo.ParseDropsExtraSegments | scripts/railway-setup.mjs:60 | "a/b/c" keeps owner "a" and repo "b"; later segments are dropped. |
| Remote.Gql | scripts/railway-setup.mjs:47-55 | An answer is data exactly when it is JSON with an empty errors list. A non-2xx status is a transport error carrying the status and body. A non-empty errors list is a GraphQL error carrying the messages. For a received answer, these are the only errors. |
| Remote.Join | scripts/railway-setup.mjs:53 | `join` of the messages with a separator between consecutive ones; `Remote.JoinContains` states what it keeps. |
| Remote.RemoteErrorText | scripts/railway-setup.mjs:53 | The text of a GraphQL error: "GraphQL: " followed by the messages joined with "; ". |
| Remote.FailureMessage | scripts/railway-setup.mjs:122-182 | The fixed message of each error `main` throws itself, as written at lines 122, 125, 153 and 182. |
| Remote.JoinContains | scripts/railway-setup.mjs:53 | Every message occurs, in full, in the joined text. |
| Remote.RemoteErrorNamesEveryMessage | scripts/railway-setup.mjs:52-54 | The error for a non-empty errors list has a message that starts with "GraphQL: " and contains each message the platform returned. |
| Setup.Resolve | scripts/railway-setup.mjs:67-76 | The settings resolve exactly when RAILWAY_TOKEN, GITHUB_OWNER, GITHUB_REPO_API and GITHUB_REPO_FRONTEND are all set. Otherwise the first unset one, in that order, is named. When they resolve: the dry-run flag is DRY_RUN being "1" or "true"; the project id and both root directories pass through; the workspace is present exactly when RAILWAY_WORKSPACE_ID is set; the branch is GITHUB_BRANCH or "main"; both repositories are the parse of their specs under GITHUB_OWNER. |
| Setup.ExitCode | scripts/railway-setup.mjs:315-318 | The exit status is 1 exactly for a fatal outcome, and 0 otherwise. |
| Setup.Pipeline | scripts/railway-setup.mjs:66-313 | The reference run of `main`: a missing variable is fatal and a dry run stops early, both with no call; otherwise the provisioning calls run from the first phase. |
| Setup.Provisioning | scripts/railway-setup.mjs:90-313 | The provisioning calls start from an empty trace at the creation phase, or at the query phase for a configured project. |
| Setup.Continue | scripts/railway-setup.mjs:90-305 | The rest of a run from a phase, dispatched to that phase's stage. |
| Setup.CreateStage | scripts/railway-setup.mjs:90-107 | The creation call, in the configured workspace if any. An error ends the run with it. An answer without `projectCreate` is a TypeError. Otherwise the run goes on to query the created id. |
| Setup.QueryStage | scripts/railway-setup.mjs:109-125 | The project query. A null answer is a TypeError, a missing project is "Project not found", and a missing first environment is "No environment found". That includes an answer whose project has no `environments` at all, such as one shaped like the instance query's. Otherwise the run goes on in the project's id and its first environment. |
| Setup.ServicesStage | scripts/railway-setup.mjs:127-183 | The api service creation, then the frontend one. A null answer is a TypeError and a falsy id is that service's failure, each ending the run after that call. |
| Setup.InstancesStage | scripts/railway-setup.mjs:185-216 | The instance query. An answer without the service list is a TypeError, and a missing api or frontend instance in the environment is an early stop. |
| Setup.DomainsStage | scripts/railway-setup.mjs:218-243 | Both domain creations. A null answer is a TypeError, read only after both calls. The hostnames are passed on. |
| Setup.VariablesStage | scripts/railway-setup.mjs:245-283 | The api upsert, then the frontend upsert, each with the map built from both hostnames. |
| Setup.DeployStage | scripts/railway-setup.mjs:285-305 | The api deploy, then the frontend deploy, then success. |
| Setup.DataAtIsGqlData | scripts/railway-setup.mjs:47-55 | The data the plan reads at a call is the data `gql` returns, and Null when `gql` throws. |
| Setup.Exchange | scripts/railway-setup.mjs:38-55 | One call joins the end of the trace, and its answer is classified by `Gql`. |
| Setup.StartProject | scripts/railway-setup.mjs:90-107 | The creation step returns or throws exactly as the reference run does from the creation phase. When it goes on, it continues with the created project's id. |
| Setup.FindEnvironment | scripts/railway-setup.mjs:109-125 | The query step agrees with the reference run. When it goes on, it continues with the queried project's id and its first environment. |
| Setup.CreateServices | scripts/railway-setup.mjs:127-183 | The two service creations agree with the reference run, and continue with the two answered service ids. |
| Setup.CheckInstances | scripts/railway-setup.mjs:185-216 | The instance query and the instance loop agree with the reference run. That run stops early when either instance is missing. |
| Setup.CreateDomains | scripts/railway-setup.mjs:218-243 | The two domain creations agree with the reference run and continue with the two hostnames. |
| Setup.SetVariables | scripts/railway-setup.mjs:245-283 | The two upserts agree with the reference run. |
| Setup.TriggerDeploys | scripts/railway-setup.mjs:285-305 | The two deploy triggers end the run exactly as the reference run does. |
| Setup.Provision | scripts/railway-setup.mjs:66-313 | `main`, step by step, produces the same outcome and the same call trace as the reference run `Pipeline` for every environment and every sequence of answers. |
| Setup.Step | scripts/railway-setup.mjs:90-305 | A phase whose answers let the run proceed hands over to the next phase with its own calls made. A phase that fails ends the run within its own calls, at the first failing one. Of the phases that fail, only the instance phase can end without a fatal error. |
| Setup.StepCreate | scripts/railway-setup.mjs:90-107 | The creation phase either proceeds or ends the run at its one call. |
| Setup.StepQuery | scripts/railway-setup.mjs:109-125 | The same for the project query. |
| Setup.StepServices | scripts/railway-setup.mjs:127-183 | The same for the two service creations. A failure ends the run after the api call or after the frontend call. |
| Setup.StepInstances | scripts/railway-setup.mjs:185-216 | The same for the instance query. A failing instance phase ends after the query. It is an early stop exactly when the answer carried the service list, so that an instance was missing; otherwise it is fatal. |
| Setup.StepDomains | scripts/railway-setup.mjs:218-243 | The same for the two domain creations. |
| Setup.StepVariables | scripts/railway-setup.mjs:245-283 | The same for the two upserts. |
| Setup.StepDeploy | scripts/railway-setup.mjs:285-305 | The same for the two deploy triggers. When both pass, the run succeeds. |
| Setup.StepOn | scripts/railway-setup.mjs:90-283 | A phase that proceeds, other than the last, continues the run from the next phase. |
| Setup.StepDone | scripts/railway-setup.mjs:285-313 | The deploy phase, when it proceeds, ends the run in success. |
| Setup.StepOff | scripts/railway-setup.mjs:90-305 | A phase that does not proceed ends the run within its own calls, at the first failing call. |
| Setup.PassesAnswered | scripts/railway-setup.mjs:47-55 | Every call of a phase that proceeds was answered without error. |
| Setup.ContinueIssues | scripts/railway-setup.mjs:90-313 | From any phase, a run makes a non-empty prefix of the planned calls, and all of them when it succeeds. |
| Setup.ContinueStops | scripts/railway-setup.mjs:47-55 | From any phase, a run makes at least one call. Every call before the last one was answered without error. The last call had a transport or GraphQL error exactly when the run failed with that error. |
| Setup.ContinueEarly | scripts/railway-setup.mjs:211-216 | An early stop is always for unready instances, and it leaves the last six planned calls unmade. |
| Setup.ContinueExtends | scripts/railway-setup.mjs:90-313 | A run keeps the calls made before it and adds at least one. |
| Setup.PlanKinds | scripts/railway-setup.mjs:90-305 | The kinds of the planned calls from a phase are that phase's fixed kind sequence. |
| Setup.PlannedKinds | scripts/railway-setup.mjs:90-305 | The plan is an optional creation, then the query, two service creations, the instance query, two domains, two upserts and two deploys (10 calls plus the creation). |
| Setup.PlanScoped | scripts/railway-setup.mjs:127-305 | Every planned call from the services phase on carries that phase's project and environment. |
| Instances.FirstInstanceId | scripts/railway-setup.mjs:207 | The `find` over a service's instances: the id of the first one in the environment, undefined when none is. The lemmas below state this. |
| Instances.AssignedInstance | scripts/railway-setup.mjs:205-209 | What the loop leaves in the variable for a service name: the lookup of the last service with that name, undefined when none has it. The lemmas below state this. |
| Instances.FirstInstanceIsFound | scripts/railway-setup.mjs:207 | The lookup returns the first instance in the environment. |
| Instances.NoInstanceInEnvironment | scripts/railway-setup.mjs:207 | With no instance in the environment, the lookup is undefined. |
| Instances.FoundIndex | scripts/railway-setup.mjs:207 | A defined lookup comes from an instance in the environment. |
| Instances.LastServiceWins | scripts/railway-setup.mjs:205-209 | The last service with a name decides that name's instance, even when an earlier one had an instance. |
| Instances.NoServiceNamed | scripts/railway-setup.mjs:203-209 | With no service of that name, the variable stays undefined. |
| Instances.AssignedInstanceBelongs | scripts/railway-setup.mjs:205-209 | A found instance id belongs to an instance, in the environment, of a service with that name. |
| Instances.ResolveInstances | scripts/railway-setup.mjs:203-210 | The loop leaves in each variable the instance assigned by the last service with that variable's name. |
| Variables.Url | scripts/railway-setup.mjs:240-241 | A URL exists exactly when the hostname is non-empty, and it is "https://" followed by the hostname. |
| Variables.ApiVars | scripts/railway-setup.mjs:246-251 | The api map, built from the two URLs. `Variables.ApiVarsValues` states its contents. |
| Variables.FrontendVars | scripts/railway-setup.mjs:267-270 | The frontend map, built from the two URLs. `Variables.FrontendVarsValues` states its contents. |
| Variables.Values | scripts/railway-setup.mjs:246-270 | The map an upsert sends: the api or the frontend map, built from the URLs of both hostnames. |
| Variables.ApiVarsValues | scripts/railway-setup.mjs:246-251 | The api map has exactly the keys POSTGRES_URL, REDIS_URL, API_URL and EDITOR_URL_PATTERN. The two database references are fixed. Each URL entry is the URL or its placeholder. |
| Variables.FrontendVarsValues | scripts/railway-setup.mjs:267-270 | The frontend map has exactly the keys NEXT_PUBLIC_EDITEUR_URL and NEXT_PUBLIC_BAL_API_URL, each the URL or its placeholder. |
| Variables.MapsAgree | scripts/railway-setup.mjs:246-270 | The api's editor pattern is the frontend's URL followed by the editor path. The frontend's api URL is the api's URL followed by "/v2". This holds with placeholders too. |
| Variables.NoEmptyValue | scripts/railway-setup.mjs:246-270 | No upserted variable is empty. |
| Variables.DomainValues | scripts/railway-setup.mjs:240-270 | A generated hostname puts its https URL into both upserts, with the editor path or the version segment where required. An absent hostname puts a placeholder there instead. |
| Variables.PlaceholdersSpelled | scripts/railway-setup.mjs:250-269 | The composed fallbacks are the two literal placeholder URLs of the script. |
| Variables.ExampleUrls | scripts/railway-setup.mjs:250-269 | Worked values of the editor pattern and of the versioned api URL. |
| Properties.Advance | scripts/railway-setup.mjs:90-283 | A reached phase whose answers let it proceed reaches the next phase, with its own calls made. |
| Properties.ReachesStart | scripts/railway-setup.mjs:90 | A run starts at the creation phase, or at the query phase when a project is configured. |
| Properties.ReachQuery | scripts/railway-setup.mjs:90-120 | The query is reached for the configured project, or for the created project's id after one creation. |
| Properties.ReachServices | scripts/railway-setup.mjs:121-151 | After the query proceeds, the services are created in the queried project's id and its first environment. |
| Properties.ReachInstances | scripts/railway-setup.mjs:152-202 | After both creations proceed, the instance query uses the two answered service ids. |
| Properties.ReachDomains | scripts/railway-setup.mjs:203-229 | After the instances are found, the domains are created for the two service ids. |
| Properties.ReachVariables | scripts/railway-setup.mjs:240-263 | After both domain answers, the upserts carry the two hostnames. |
| Properties.ReachDeploy | scripts/railway-setup.mjs:285-295 | After both upserts, the deploys are triggered for the two service ids. |
| Properties.RunIsPlanPrefix | scripts/railway-setup.mjs:90-313 | A run's calls are a non-empty prefix of the planned calls, and all of them when it succeeds. |
| Properties.RunStopsAtFailure | scripts/railway-setup.mjs:47-55 | A run stops at the first call answered with a transport or GraphQL error, if there is one. |
| Properties.SuccessMakesEveryCall | scripts/railway-setup.mjs:90-313 | A successful run made every planned call, and each call was answered without error. |
| Properties.EarlyStopAfterInstanceQuery | scripts/railway-setup.mjs:211-216 | An early stop in a run that makes calls is for unready instances. The instance query is its last call, and no domain, variable or deploy call is made. |
| Properties.ErrorAborts | scripts/railway-setup.mjs:47-54 | A call answered with a transport or GraphQL error is the last call, and the run fails with that error. |
| Properties.ProjectKindsSpelled | scripts/railway-setup.mjs:109-305 | The calls after the project creation are, in order: query, two service creations, instance query, two domains, two upserts, two deploys. |
| Properties.RunKinds | scripts/railway-setup.mjs:90-305 | The kinds of a run's calls are a prefix of that fixed order. |
| Properties.NoCreationAfterOffset | scripts/railway-setup.mjs:90-107 | No call after the optional creation creates a project. |
| Properties.RunStartsWithProjectCalls | scripts/railway-setup.mjs:90-120 | A run's calls up to the query are the creation, if any, and the query of the target project. |
| Properties.ProjectReused | scripts/railway-setup.mjs:90 | With a configured project, the first call queries it and no call creates a project. |
| Properties.ProjectCreatedFirst | scripts/railway-setup.mjs:90-120 | Without a configured project, the first call creates "nap-us" in the configured workspace (if any), and no later call creates a project. The query after it uses the id the creation answered with. |
| Properties.PlannedIsScripted | scripts/railway-setup.mjs:90-305 | The planned calls are the scripted sequence, argument by argument. |
| Properties.SuccessTrace | scripts/railway-setup.mjs:90-313 | A successful run makes exactly the scripted sequence of calls. |
| Properties.PlannedInTargetScope | scripts/railway-setup.mjs:127-305 | Every planned call after the project query is in the queried project and its first environment. |
| Properties.CallsInTargetScope | scripts/railway-setup.mjs:127-305 | Every call a run makes after the project query is in the queried project and its first environment. |
| Properties.CreationUnreadable | scripts/railway-setup.mjs:105 | A creation answer without `projectCreate` is a TypeError after that one call. |
| Properties.QueryOutcome | scripts/railway-setup.mjs:121-125 | After a query, a null answer is a TypeError. A missing project is "Project not found". A project with no first environment, or with no `environments` at all, is "No environment found". In each case the query is the last call. |
| Properties.ServicesOutcome | scripts/railway-setup.mjs:152-182 | A falsy api service id is fatal before the frontend creation, and a falsy frontend id is fatal after it. A null answer is a TypeError. |
| Properties.InstancesOutcome | scripts/railway-setup.mjs:205-216 | An answer without the service list is a TypeError. A missing instance for either service stops the run early, with the query as the last call. |
| Properties.DomainsOutcome | scripts/railway-setup.mjs:240-241 | A null domain answer is a TypeError, raised only after both domain calls. |
| Properties.DeployOutcome | scripts/railway-setup.mjs:285-313 | When both deploys are answered without error, the run succeeds. |
| Properties.CallsOnlyWhenProvisioning | scripts/railway-setup.mjs:67-88 | A run makes calls exactly when every required variable is set and DRY_RUN is neither "1" nor "true". A missing variable is fatal with exit status 1. A dry run stops early with exit status 0. |
| Properties.MissingTokenBeforeDryRun | scripts/railway-setup.mjs:67-81 | A missing token is fatal, with no call, even in dry-run mode. |

## Left out

- HTTP and JSON decoding: an answer is already a status with a body, or a decoded `errors` list with its `data`. The other errors of `gql` are not modelled and do not come out of `Remote.Gql`: a rejected `fetch` (network or DNS failure, with no status or body), `res.text()` rejecting on a failed status, a body that is not JSON (`res.json()` rejecting), and a 2xx body that is the JSON value `null`, for which `json.errors?.length` throws a TypeError. Each would end the run with a fatal error at that call.
- The request itself (endpoint, headers, bearer token, query text) is not modelled. A call is identified only by its kind and the arguments the script varies.
- Null entries inside lists are not modelled; lists are read as lists of nodes. A `null` edge anywhere in the environment list makes `.map((e) => e.node)` throw a TypeError. An environment edge without a `node` is harmless unless it is the first one. As the first one it gives an undefined id, so the script throws "No environment found"; the model covers that case as a first environment id of "". `find` reads instance edges only up to the first match, and a node-less instance edge it reads throws a TypeError, as does a node-less service edge. None of these TypeErrors is modelled.
- Absent, null and empty strings are identified as "". The script treats them alike at every point where they matter (`!x`, `x || d`, `x ? a : b`).
- An environment entry is only its id, and a created object only the field the script reads. The `name` fields the script only logs are not modelled.
- Console output is not modelled: log lines, warnings, the dry-run plan and the final instructions.
- Each thrown `Error` of `main` is the `Failure` enumeration; `Remote.FailureMessage` gives its text. The transport error keeps the status and body, not the formatted text "Railway API <status>: <body>".
- `process.exit` and the top-level `catch` are modelled only as `Setup.ExitCode` of the outcome.
- Asynchrony is not modelled. Every `await` completes before the next step, so the run is sequential.
- The variable maps are `map`s, so key order is not modelled. An upsert call carries an `Assignment` that names its map (`Variables.Values`), not the map itself.
- `Repo.ParseRepo` takes the configured owner as a parameter. The `env('GITHUB_OWNER', true)` fallback is the case where that owner is empty. `main` never reaches that case, because it has already required GITHUB_OWNER.
- The header comment describes DRY_RUN as "if set". The model follows the code, which recognises only "1" and "true".
- The two composed placeholders are built from shared constants. `Variables.PlaceholdersSpelled` proves that they equal the script's literals.
