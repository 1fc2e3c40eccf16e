// The ECS task definition of the classic SDK layer
// (sdk/nodejs/classic/ecs/taskDefinition.ts): as awsx's, except that each
// of the log group, task role and execution role tests its own argument,
// the created roles get newer managed policies, and a container whose
// definition is refused stops the whole list.
module ClassicEcsTaskDefinition {
  import opened Wrappers
  import A = AwsxEcsTaskDefinition

  /** The managed policies a created task role gets. */
  const ClassicTaskRolePolicies: seq<A.ManagedPolicy> := [A.LambdaFullAccess, A.AmazonECSFullAccess]

  /** The managed policies a created execution role gets. */
  const ClassicExecutionRolePolicies: seq<A.ManagedPolicy> := [A.AmazonECSTaskExecutionRolePolicy, A.AWSLambdaBasicExecutionRole]

  /** The task role: none for null, the caller's, or `<name>-task` with the Lambda and ECS full-access policies. */
  function TaskRoleFor(name: string, taskRole: A.Provided<A.Role>): (r: Option<A.Role>)
    ensures taskRole.Null? <==> r.None?
    ensures taskRole.Given? ==> r == Some(taskRole.value)
    ensures taskRole.Undefined? ==> r == Some(A.Role(name + "-task", ClassicTaskRolePolicies))
  {
    A.Choose(taskRole, A.Role(name + "-task", ClassicTaskRolePolicies))
  }

  /** The execution role, decided by its own argument: none for null, the caller's, or `<name>-execution`. */
  function ExecutionRoleFor(name: string, executionRole: A.Provided<A.Role>): (r: Option<A.Role>)
    ensures executionRole.Null? <==> r.None?
    ensures executionRole.Given? ==> r == Some(executionRole.value)
    ensures executionRole.Undefined? ==> r == Some(A.Role(name + "-execution", ClassicExecutionRolePolicies))
  {
    A.Choose(executionRole, A.Role(name + "-execution", ClassicExecutionRolePolicies))
  }

  /**
   * Where awsx drops a given execution role because the task role is null,
   * the classic layer keeps it, and where the roles are given both layers
   * agree.
   */
  lemma ExecutionRoleDiffersFromAwsx(name: string, role: A.Role, taskRole: A.Provided<A.Role>)
    ensures A.ExecutionRoleAsWritten(name, A.Null, A.Given(role)) == None
    ensures ExecutionRoleFor(name, A.Given(role)) == Some(role)
    ensures !taskRole.Null? ==> A.ExecutionRoleAsWritten(name, taskRole, A.Given(role)) == ExecutionRoleFor(name, A.Given(role))
  {
  }

  /** The definitions of the containers in order, or the error of the first one refused. */
  function DefinitionsOf<C, D>(containers: seq<(string, C)>, define: (string, C) -> Result<D>): Result<seq<D>>
  {
    if |containers| == 0 then Ok([])
    else
      var before := DefinitionsOf(containers[..|containers| - 1], define);
      var last := containers[|containers| - 1];
      if before.Fail? then before
      else if define(last.0, last.1).Fail? then Fail(define(last.0, last.1).error)
      else Ok(before.value + [define(last.0, last.1).value])
  }

  /** One definition per container, in order, exactly when every container is accepted. */
  lemma {:induction false} DefinitionsInOrder<C, D>(containers: seq<(string, C)>, define: (string, C) -> Result<D>)
    ensures DefinitionsOf(containers, define).Ok? <==> forall i :: 0 <= i < |containers| ==> define(containers[i].0, containers[i].1).Ok?
    ensures DefinitionsOf(containers, define).Ok? ==>
      (var definitions := DefinitionsOf(containers, define).value;
       |definitions| == |containers|
       && forall i :: 0 <= i < |containers| ==> Ok(definitions[i]) == define(containers[i].0, containers[i].1))
  {
    if |containers| > 0 {
      var prefix := containers[..|containers| - 1];
      DefinitionsInOrder(prefix, define);
      assert forall i :: 0 <= i < |prefix| ==> prefix[i] == containers[i];
    }
  }

  /** Once a prefix is refused, the whole list is refused with the same error. */
  lemma {:induction false} FirstRefusalStops<C, D>(containers: seq<(string, C)>, k: nat, define: (string, C) -> Result<D>)
    requires k <= |containers| && DefinitionsOf(containers[..k], define).Fail?
    ensures DefinitionsOf(containers, define) == DefinitionsOf(containers[..k], define)
    decreases |containers| - k
  {
    if k < |containers| {
      var prefix := containers[..|containers| - 1];
      assert prefix[..k] == containers[..k];
      FirstRefusalStops(prefix, k, define);
    } else {
      assert containers[..k] == containers;
    }
  }

  /**
   * `computeContainerDefinitions`: one definition per container in the
   * record's order; `define` stands for the classic container module's
   * `computeContainerDefinition`, which is not part of this model.
   */
  method ComputeContainerDefinitions<C, D>(containers: seq<(string, C)>, define: (string, C) -> Result<D>)
    returns (r: Result<seq<D>>)
    ensures r == DefinitionsOf(containers, define)
  {
    var result: seq<D> := [];
    var i := 0;
    while i < |containers|
      invariant 0 <= i <= |containers|
      invariant DefinitionsOf(containers[..i], define) == Ok(result)
    {
      var definition := define(containers[i].0, containers[i].1);
      assert containers[..i + 1][..i] == containers[..i];
      if definition.Fail? {
        FirstRefusalStops(containers, i + 1, define);
        return Fail(definition.error);
      }
      result := result + [definition.value];
      i := i + 1;
    }
    assert containers[..|containers|] == containers;
    r := Ok(result);
  }

  /** The caller's arguments that the constructor reads. */
  datatype TaskDefinitionArgs<C> = TaskDefinitionArgs(
    logGroup: A.Provided<A.LogGroup>, taskRole: A.Provided<A.Role>, executionRole: A.Provided<A.Role>,
    family: Option<string>, containers: seq<(string, C)>)

  datatype TaskDefinition<D> = TaskDefinition(
    logGroup: Option<A.LogGroup>, taskRole: Option<A.Role>, executionRole: Option<A.Role>,
    containerDefinitions: seq<D>, resource: A.TaskDefinitionResource)

  /**
   * The classic `TaskDefinition` constructor: each of the log group and the
   * roles follows its own argument, the family defaults as in awsx (as
   * written, the same for all definitions), and role ARNs are undefined
   * without the role.
   */
  function NewTaskDefinition<C, D>(name: string, args: TaskDefinitionArgs<C>, define: (string, C) -> Result<D>,
                                   containerString: string, stack: string, outputText: string,
                                   hash: string -> string, arnOf: A.Role -> string): (r: Result<TaskDefinition<D>>)
    ensures r.Ok? <==> forall i :: 0 <= i < |args.containers| ==> define(args.containers[i].0, args.containers[i].1).Ok?
    ensures r.Ok? ==> (
      r.value.logGroup == A.LogGroupFor(name, args.logGroup)
      && r.value.taskRole == TaskRoleFor(name, args.taskRole)
      && r.value.executionRole == ExecutionRoleFor(name, args.executionRole)
      && |r.value.containerDefinitions| == |args.containers|
      && r.value.resource.family == args.family.GetOr(A.DefaultFamilyAsWritten(name, stack, containerString, outputText, hash))
      && (r.value.resource.taskRoleArn.Some? <==> !args.taskRole.Null?)
      && (r.value.resource.executionRoleArn.Some? <==> !args.executionRole.Null?))
  {
    DefinitionsInOrder(args.containers, define);
    var definitions := DefinitionsOf(args.containers, define);
    if definitions.Fail? then Fail(definitions.error)
    else
      var taskRole := TaskRoleFor(name, args.taskRole);
      var executionRole := ExecutionRoleFor(name, args.executionRole);
      Ok(TaskDefinition(A.LogGroupFor(name, args.logGroup), taskRole, executionRole, definitions.value,
        A.TaskDefinitionResource(
          args.family.GetOr(A.DefaultFamilyAsWritten(name, stack, containerString, outputText, hash)),
          if taskRole.Some? then Some(arnOf(taskRole.value)) else None,
          if executionRole.Some? then Some(arnOf(executionRole.value)) else None,
          containerString)))
  }

  /** A security group of the cluster, known here by its id. */
  datatype SecurityGroup = SecurityGroup(id: string)

  /** The classic cluster a task runs in: its ARN, its security groups and the public subnets of its VPC. */
  datatype Cluster = Cluster(id: string, securityGroups: seq<SecurityGroup>, vpcPublicSubnetIds: seq<string>)

  /** What the caller passes to `run`. */
  datatype RunTaskRequest = RunTaskRequest(cluster: Cluster, networkConfiguration: Option<A.NetworkConfiguration>,
                                           count: Option<int>)

  /** The ids of a list of security groups, in order. */
  function GroupIds(groups: seq<SecurityGroup>): (r: seq<string>)
    ensures |r| == |groups| && forall i :: 0 <= i < |groups| ==> r[i] == groups[i].id
  {
    if |groups| == 0 then [] else GroupIds(groups[..|groups| - 1]) + [groups[|groups| - 1].id]
  }

  /**
   * `run`: the task definition, FARGATE or EC2, a public IP exactly for
   * Fargate in the ids of the cluster's groups and its VPC's public subnets
   * unless the caller configures the network, then the caller's
   * parameters, with the cluster replaced by its ARN.
   */
  function RunRequest(isFargate: bool, taskDefinitionArn: string, params: RunTaskRequest): (r: A.RunTask)
    ensures r.launchType == (if isFargate then "FARGATE" else "EC2")
    ensures r.cluster == params.cluster.id && r.taskDefinition == taskDefinitionArn && r.count == params.count
    ensures params.networkConfiguration.Some? ==> r.networkConfiguration == params.networkConfiguration.value
    ensures params.networkConfiguration.None? ==>
      (r.networkConfiguration.assignPublicIp == "ENABLED" <==> isFargate)
      && |r.networkConfiguration.securityGroups| == |params.cluster.securityGroups|
      && (forall i :: 0 <= i < |params.cluster.securityGroups| ==>
            r.networkConfiguration.securityGroups[i] == params.cluster.securityGroups[i].id)
      && r.networkConfiguration.subnets == params.cluster.vpcPublicSubnetIds
  {
    var defaultNetwork := A.NetworkConfiguration(if isFargate then "ENABLED" else "DISABLED",
                                                 GroupIds(params.cluster.securityGroups), params.cluster.vpcPublicSubnetIds);
    A.RunTask(taskDefinitionArn, if isFargate then "FARGATE" else "EC2",
              params.networkConfiguration.GetOr(defaultNetwork), params.cluster.id, params.count)
  }

  /** The classic `run` sends what awsx's sends for a cluster with the same ARN, group ids and public subnets. */
  lemma RunMatchesAwsx(isFargate: bool, taskDefinitionArn: string, params: RunTaskRequest)
    ensures RunRequest(isFargate, taskDefinitionArn, params) ==
      A.RunRequest(isFargate, taskDefinitionArn,
        A.RunTaskRequest(A.Cluster(params.cluster.id, GroupIds(params.cluster.securityGroups), params.cluster.vpcPublicSubnetIds),
                         params.networkConfiguration, params.count))
  {
  }
}
