// The ECS task definition of aws-infra's experimental layer
// (nodejs/aws-infra/experimental/ecs/taskDefinition.ts): log group and
// roles that are always present, the environment of each container, the
// placement constraints of an EC2 task, and the request `run` sends.
module InfraEcsTaskDefinition {
  import opened Wrappers
  import opened EcsTypes
  import A = AwsxEcsTaskDefinition

  /** The task's log group: the caller's, or a new one keeping logs for one day. */
  function LogGroupFor(name: string, logGroup: Option<A.LogGroup>): (r: A.LogGroup)
    ensures logGroup.Some? ==> r == logGroup.value
    ensures logGroup.None? ==> r == A.LogGroup(name, Some(1))
  {
    logGroup.GetOr(A.LogGroup(name, Some(1)))
  }

  /** A container of the task: only its environment matters here. */
  datatype Container = Container(environment: Option<seq<KeyValuePair>>)

  predicate UniqueNames<T>(containers: seq<(string, T)>)
  {
    forall i, j :: 0 <= i < j < |containers| ==> containers[i].0 != containers[j].0
  }

  /** `containerToEnvironment`: every container's environment, or none, by container name. */
  method ContainerToEnvironment(containers: seq<(string, Container)>) returns (result: map<string, seq<KeyValuePair>>)
    requires UniqueNames(containers)
    ensures result.Keys == set i | 0 <= i < |containers| :: containers[i].0
    ensures forall i :: 0 <= i < |containers| ==> result[containers[i].0] == containers[i].1.environment.GetOr([])
  {
    result := map[];
    var i := 0;
    while i < |containers|
      invariant 0 <= i <= |containers|
      invariant result.Keys == set k | 0 <= k < i :: containers[k].0
      invariant forall k :: 0 <= k < i ==> result[containers[k].0] == containers[k].1.environment.GetOr([])
    {
      result := result[containers[i].0 := containers[i].1.environment.GetOr([])];
      i := i + 1;
    }
  }

  /** An ECS placement constraint. */
  datatype PlacementConstraint = PlacementConstraint(kind: string, expression: string)

  /** `placementConstraints`: none for Fargate, else membership of the host OS (`os || "linux"`). */
  function PlacementConstraints(isFargate: bool, os: Option<string>): (r: Option<seq<PlacementConstraint>>)
    ensures isFargate <==> r.None?
    ensures !isFargate ==> |r.value| == 1 && r.value[0].kind == "memberOf"
    ensures !isFargate && os.Some? && os.value != "" ==> r.value[0].expression == "attribute:ecs.os-type == " + os.value
    ensures !isFargate && (os.None? || os.value == "") ==> r.value[0].expression == "attribute:ecs.os-type == linux"
  {
    if isFargate then None
    else
      var host := if os.Some? && os.value != "" then os.value else "linux";
      Some([PlacementConstraint("memberOf", "attribute:ecs.os-type == " + host)])
  }

  /** The cluster a task runs in: its ARN, security groups, subnets and whether they are private. */
  datatype Cluster = Cluster(id: string, securityGroupIds: seq<string>, subnetIds: seq<string>, usePrivateSubnets: bool)

  /** What the caller passes to `run`. */
  datatype TaskRunOptions = TaskRunOptions(
    cluster: Cluster, containerName: Option<string>, os: Option<string>, environment: Option<seq<KeyValuePair>>)

  datatype ContainerOverride = ContainerOverride(name: string, environment: seq<KeyValuePair>)

  /** The request sent to ECS. */
  datatype RunTask = RunTask(
    cluster: string, taskDefinition: string, placementConstraints: Option<seq<PlacementConstraint>>,
    launchType: string, networkConfiguration: A.NetworkConfiguration, containerOverride: ContainerOverride)

  const NoContainerName: string := "No valid container name found to run task for."

  /** `options.containerName || Object.keys(innerContainers)[0]`, if that is a non-empty name. */
  function RunContainerName(containerNames: seq<string>, containerName: Option<string>): (r: Option<string>)
    ensures containerName.Some? && containerName.value != "" ==> r == containerName
    ensures (containerName.None? || containerName.value == "") ==>
      (r.Some? <==> |containerNames| > 0 && containerNames[0] != "")
    ensures r.Some? ==> r.value != ""
  {
    if containerName.Some? && containerName.value != "" then containerName
    else if |containerNames| > 0 && containerNames[0] != "" then Some(containerNames[0])
    else None
  }

  /**
   * `run`: the named (or first) container's environment followed by the
   * caller's, a public IP exactly for Fargate on public subnets, and the
   * placement constraints; the environment goes to the container named
   * "container".
   */
  function RunRequest(isFargate: bool, taskDefinitionArn: string, containerNames: seq<string>,
                      environments: map<string, seq<KeyValuePair>>, options: TaskRunOptions): (r: Result<RunTask>)
    ensures r.Fail? <==> RunContainerName(containerNames, options.containerName).None?
    ensures r.Fail? ==> r.error == NoContainerName
    ensures r.Ok? ==> (
      var name := RunContainerName(containerNames, options.containerName).value;
      r.value.containerOverride.environment ==
        (if name in environments then environments[name] else []) + options.environment.GetOr([])
      && r.value.containerOverride.name == "container"
      && (r.value.networkConfiguration.assignPublicIp == "ENABLED" <==> isFargate && !options.cluster.usePrivateSubnets)
      && r.value.launchType == (if isFargate then "FARGATE" else "EC2")
      && r.value.placementConstraints == PlacementConstraints(isFargate, options.os)
      && r.value.cluster == options.cluster.id)
  {
    var name := RunContainerName(containerNames, options.containerName);
    if name.None? then Fail(NoContainerName)
    else
      var env1 := if name.value in environments then environments[name.value] else [];
      var env2 := options.environment.GetOr([]);
      var assignPublicIp := isFargate && !options.cluster.usePrivateSubnets;
      Ok(RunTask(options.cluster.id, taskDefinitionArn, PlacementConstraints(isFargate, options.os),
                 if isFargate then "FARGATE" else "EC2",
                 A.NetworkConfiguration(if assignPublicIp then "ENABLED" else "DISABLED",
                                        options.cluster.securityGroupIds, options.cluster.subnetIds),
                 ContainerOverride("container", env1 + env2)))
  }

  /** A task is started unless ECS reports failures; `failuresJson` is their JSON text. */
  function StartOutcome(failures: Option<seq<string>>, failuresJson: string): (r: Outcome)
    ensures r.Reject? <==> failures.Some? && |failures.value| > 0
    ensures r.Reject? ==> r.error == "Failed to start task:" + failuresJson
  {
    if failures.Some? && |failures.value| > 0 then Reject("Failed to start task:" + failuresJson) else Pass
  }

  /** What the constructor builds. */
  datatype TaskDefinition = TaskDefinition(
    logGroup: A.LogGroup, taskRole: A.Role, executionRole: A.Role, family: string,
    taskRoleArn: string, executionRoleArn: string)

  /**
   * The constructor: the caller's log group and roles or new ones, the
   * family computed as written (the same for all definitions), and both
   * role ARNs always set.
   */
  function NewTaskDefinition(name: string, logGroup: Option<A.LogGroup>, taskRole: Option<A.Role>,
                             executionRole: Option<A.Role>, stack: string, containerString: string,
                             outputText: string, hash: string -> string, arnOf: A.Role -> string)
    : (r: TaskDefinition)
    ensures r.logGroup == LogGroupFor(name, logGroup)
    ensures r.taskRole == taskRole.GetOr(A.Role(name + "-task", A.DefaultTaskRolePolicies))
    ensures r.executionRole == executionRole.GetOr(A.NewExecutionRole(name))
    ensures r.taskRoleArn == arnOf(r.taskRole) && r.executionRoleArn == arnOf(r.executionRole)
    ensures r.family == A.DefaultFamilyAsWritten(name, stack, containerString, outputText, hash)
  {
    var task := taskRole.GetOr(A.Role(name + "-task", A.DefaultTaskRolePolicies));
    var execution := executionRole.GetOr(A.NewExecutionRole(name));
    TaskDefinition(LogGroupFor(name, logGroup), task, execution,
                   A.DefaultFamilyAsWritten(name, stack, containerString, outputText, hash),
                   arnOf(task), arnOf(execution))
  }
}
