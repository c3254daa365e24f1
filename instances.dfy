/**
 * Resolution of the api and frontend service instances in the active environment
 * (scripts/railway-setup.mjs, the loop over `instances.project.services.edges`).
 */
module Instances {
  import opened Remote

  /**
   * `serviceInstances.edges.find(e => e.node.environmentId === env)?.node?.id`:
   * the id of the first instance in env, "" when there is none.
   */
  function FirstInstanceId(instances: seq<InstanceNode>, env: string): string {
    if instances == [] then ""
    else if instances[0].environmentId == env then instances[0].id
    else FirstInstanceId(instances[1..], env)
  }

  /** The first instance in env is the one found. */
  lemma {:induction false} FirstInstanceIsFound(instances: seq<InstanceNode>, env: string, k: nat)
    requires k < |instances| && instances[k].environmentId == env
    requires forall j :: 0 <= j < k ==> instances[j].environmentId != env
    ensures FirstInstanceId(instances, env) == instances[k].id
  {
    if k > 0 {
      FirstInstanceIsFound(instances[1..], env, k - 1);
    }
  }

  /** With no instance in env, nothing is found. */
  lemma {:induction false} NoInstanceInEnvironment(instances: seq<InstanceNode>, env: string)
    requires forall j :: 0 <= j < |instances| ==> instances[j].environmentId != env
    ensures FirstInstanceId(instances, env) == ""
  {
    if instances != [] {
      NoInstanceInEnvironment(instances[1..], env);
    }
  }

  /**
   * The value the loop leaves in the variable it assigns for services called name:
   * each such service overwrites it with its own lookup, so the last one wins;
   * "" (undefined) when no service has that name.
   */
  function AssignedInstance(services: seq<ServiceNode>, name: string, env: string): string {
    if services == [] then ""
    else if services[|services| - 1].name == name then FirstInstanceId(services[|services| - 1].instances, env)
    else AssignedInstance(services[..|services| - 1], name, env)
  }

  /** The last service called name decides, even when an earlier one had an instance. */
  lemma {:induction false} LastServiceWins(services: seq<ServiceNode>, name: string, env: string, k: nat)
    requires k < |services| && services[k].name == name
    requires forall j :: k < j < |services| ==> services[j].name != name
    ensures AssignedInstance(services, name, env) == FirstInstanceId(services[k].instances, env)
  {
    if k < |services| - 1 {
      LastServiceWins(services[..|services| - 1], name, env, k);
    }
  }

  /** With no service called name, the variable stays undefined. */
  lemma {:induction false} NoServiceNamed(services: seq<ServiceNode>, name: string, env: string)
    requires forall j :: 0 <= j < |services| ==> services[j].name != name
    ensures AssignedInstance(services, name, env) == ""
  {
    if services != [] {
      NoServiceNamed(services[..|services| - 1], name, env);
    }
  }

  /** A found instance is an instance, in env, of a service called name. */
  lemma {:induction false} AssignedInstanceBelongs(services: seq<ServiceNode>, name: string, env: string)
    requires AssignedInstance(services, name, env) != ""
    ensures exists k, j ::
              && 0 <= k < |services| && 0 <= j < |services[k].instances|
              && services[k].name == name && services[k].instances[j].environmentId == env
              && services[k].instances[j].id == AssignedInstance(services, name, env)
  {
    var last := services[|services| - 1];
    if last.name == name {
      var j := FoundIndex(last.instances, env);
      assert services[|services| - 1].instances[j].id == AssignedInstance(services, name, env);
    } else {
      AssignedInstanceBelongs(services[..|services| - 1], name, env);
      var k, j :| 0 <= k < |services| - 1 && 0 <= j < |services[..|services| - 1][k].instances| &&
        services[..|services| - 1][k].name == name &&
        services[..|services| - 1][k].instances[j].environmentId == env &&
        services[..|services| - 1][k].instances[j].id == AssignedInstance(services, name, env);
      assert services[k] == services[..|services| - 1][k];
    }
  }

  /** Where a non-empty lookup comes from. */
  lemma {:induction false} FoundIndex(instances: seq<InstanceNode>, env: string) returns (j: nat)
    requires FirstInstanceId(instances, env) != ""
    ensures j < |instances| && instances[j].environmentId == env
    ensures instances[j].id == FirstInstanceId(instances, env)
  {
    if instances[0].environmentId == env {
      j := 0;
    } else {
      var j' := FoundIndex(instances[1..], env);
      j := j' + 1;
    }
  }

  /** The loop at lines 203-210: one pass that records the api and frontend instance ids. */
  method ResolveInstances(services: seq<ServiceNode>, env: string)
    returns (apiInstanceId: string, frontendInstanceId: string)
    ensures apiInstanceId == AssignedInstance(services, API_SERVICE, env)
    ensures frontendInstanceId == AssignedInstance(services, FRONTEND_SERVICE, env)
  {
    apiInstanceId, frontendInstanceId := "", "";
    for i := 0 to |services|
      invariant apiInstanceId == AssignedInstance(services[..i], API_SERVICE, env)
      invariant frontendInstanceId == AssignedInstance(services[..i], FRONTEND_SERVICE, env)
    {
      var node := services[i];
      var inst := FirstInstanceId(node.instances, env);
      assert services[..i + 1][..i] == services[..i];
      if node.name == API_SERVICE {
        apiInstanceId := inst;
      }
      if node.name == FRONTEND_SERVICE {
        frontendInstanceId := inst;
      }
    }
    assert services[..|services|] == services;
  }
}
