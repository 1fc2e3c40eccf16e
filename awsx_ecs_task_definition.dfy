// The ECS task definition of awsx (nodejs/awsx/ecs/taskDefinition.ts):
// the log group and roles chosen from null / given / undefined arguments,
// the container definitions computed container by container into the
// task's listener records, the default family, and the `run` request.
module AwsxEcsTaskDefinition {
  import opened Wrappers
  import opened Text
  import opened EcsTypes
  import opened EcsContainer
  import F = EcsxFargateTaskDefinition

  /** An optional argument that may also be explicitly `null`. */
  datatype Provided<T> = Null | Undefined | Given(value: T)

  /** `arg === null ? undefined : arg ? arg : created` */
  function Choose<T>(arg: Provided<T>, created: T): (r: Option<T>)
    ensures arg.Null? <==> r.None?
    ensures arg.Given? ==> r == Some(arg.value)
    ensures arg.Undefined? ==> r == Some(created)
  {
    match arg
    case Null => None
    case Given(v) => Some(v)
    case Undefined => Some(created)
  }

  /** A CloudWatch log group: its name (which is its id) and retention. */
  datatype LogGroup = LogGroup(name: string, retentionInDays: Option<int>)

  /** The AWS managed policies the created roles get. */
  datatype ManagedPolicy =
    | AWSLambdaFullAccess | AmazonEC2ContainerServiceFullAccess | AmazonECSTaskExecutionRolePolicy
    | LambdaFullAccess | AmazonECSFullAccess | AWSLambdaBasicExecutionRole

  /** A managed policy's ARN. */
  function PolicyArn(policy: ManagedPolicy): string
  {
    match policy
    case AWSLambdaFullAccess => "arn:aws:iam::aws:policy/AWSLambdaFullAccess"
    case AmazonEC2ContainerServiceFullAccess => "arn:aws:iam::aws:policy/AmazonEC2ContainerServiceFullAccess"
    case AmazonECSTaskExecutionRolePolicy => "arn:aws:iam::aws:policy/service-role/AmazonECSTaskExecutionRolePolicy"
    case LambdaFullAccess => "arn:aws:iam::aws:policy/AWSLambda_FullAccess"
    case AmazonECSFullAccess => "arn:aws:iam::aws:policy/AmazonECS_FullAccess"
    case AWSLambdaBasicExecutionRole => "arn:aws:iam::aws:policy/service-role/AWSLambdaBasicExecutionRole"
  }

  /** An IAM role: its name and the managed policies attached to it. */
  datatype Role = Role(name: string, policies: seq<ManagedPolicy>)

  /** The managed policies a created task role gets. */
  const DefaultTaskRolePolicies: seq<ManagedPolicy> := [AWSLambdaFullAccess, AmazonEC2ContainerServiceFullAccess]

  /** The managed policy a created execution role gets. */
  const DefaultExecutionRolePolicies: seq<ManagedPolicy> := [AmazonECSTaskExecutionRolePolicy]

  /** The task's log group: none for null, the caller's, or a new one keeping logs for one day. */
  function LogGroupFor(name: string, logGroup: Provided<LogGroup>): (r: Option<LogGroup>)
    ensures logGroup.Undefined? ==> r == Some(LogGroup(name, Some(1)))
    ensures logGroup.Null? <==> r.None?
    ensures logGroup.Given? ==> r == Some(logGroup.value)
  {
    Choose(logGroup, LogGroup(name, Some(1)))
  }

  /** The task role: none for null, the caller's, or `<name>-task` with the default task policies. */
  function TaskRoleFor(name: string, taskRole: Provided<Role>): (r: Option<Role>)
    ensures taskRole.Undefined? ==> r == Some(Role(name + "-task", DefaultTaskRolePolicies))
    ensures taskRole.Null? <==> r.None?
  {
    Choose(taskRole, Role(name + "-task", DefaultTaskRolePolicies))
  }

  /** The created execution role. */
  function NewExecutionRole(name: string): Role
  {
    Role(name + "-execution", DefaultExecutionRolePolicies)
  }

  /** The execution role as written: the null test looks at the task role. */
  function ExecutionRoleAsWritten(name: string, taskRole: Provided<Role>, executionRole: Provided<Role>): Option<Role>
  {
    if taskRole.Null? then None
    else if executionRole.Given? then Some(executionRole.value)
    else Some(NewExecutionRole(name))
  }

  /** The execution role with its own argument tested, as for the log group and the task role. */
  function ExecutionRoleFor(name: string, executionRole: Provided<Role>): (r: Option<Role>)
    ensures executionRole.Null? <==> r.None?
    ensures executionRole.Given? ==> r == Some(executionRole.value)
    ensures executionRole.Undefined? ==> r == Some(NewExecutionRole(name))
  {
    Choose(executionRole, NewExecutionRole(name))
  }

  /**
   * As written, a null task role also drops a given execution role, and a
   * null execution role still yields one; the corrected rule keeps the
   * first and drops the second.
   */
  lemma ExecutionRoleFollowsTaskRole(name: string, role: Role)
    ensures ExecutionRoleAsWritten(name, Null, Given(role)) == None
    ensures ExecutionRoleFor(name, Given(role)) == Some(role)
    ensures ExecutionRoleAsWritten(name, Undefined, Null) == Some(NewExecutionRole(name))
    ensures ExecutionRoleFor(name, Null) == None
  {
  }

  /** Where the task role is not null, the execution role as written agrees with the corrected rule, except that null still creates one. */
  lemma ExecutionRoleAgreesUnlessNull(name: string, taskRole: Provided<Role>, executionRole: Provided<Role>)
    requires !taskRole.Null? && !executionRole.Null?
    ensures ExecutionRoleAsWritten(name, taskRole, executionRole) == ExecutionRoleFor(name, executionRole)
  {
  }

  /**
   * The default family as written: the text hashed is the stack and the
   * container-definitions output object itself, whose string form
   * (`outputText`) does not depend on the definitions.
   */
  function DefaultFamilyAsWritten(name: string, stack: string, containerString: string, outputText: string,
                                  hash: string -> string): string
  {
    name + "-" + hash(stack + outputText)
  }

  /** As written, every set of container definitions gets the same default family. */
  lemma DefaultFamilyIgnoresContainers(name: string, stack: string, a: string, b: string, outputText: string,
                                       hash: string -> string)
    ensures DefaultFamilyAsWritten(name, stack, a, outputText, hash) == DefaultFamilyAsWritten(name, stack, b, outputText, hash)
  {
  }

  /** Strings that differ after a common prefix differ. */
  lemma AfterPrefixDiffer(prefix: string, a: string, b: string)
    requires a != b
    ensures prefix + a != prefix + b
  {
    assert (prefix + a)[|prefix|..] == a && (prefix + b)[|prefix|..] == b;
  }

  /** With the definitions' JSON hashed, different definitions give different families (for a collision-free hash). */
  lemma DefaultFamilyDistinguishes(name: string, stack: string, a: string, b: string, hash: string -> string)
    requires forall x, y :: hash(x) == hash(y) ==> x == y
    requires a != b
    ensures F.DefaultFamily(name, stack, a, hash) != F.DefaultFamily(name, stack, b, hash)
  {
    AfterPrefixDiffer(stack, a, b);
    AfterPrefixDiffer(name + "-", hash(stack + a), hash(stack + b));
  }

  /** The listener records after every container's port mappings, in order. */
  function RecordsAfterAll(records: (map<string, Listener>, map<string, Listener>), name: string,
                           containers: seq<(string, Container)>): (map<string, Listener>, map<string, Listener>)
  {
    if |containers| == 0 then records
    else RecordsAfter(RecordsAfterAll(records, name, containers[..|containers| - 1]), name, containers[|containers| - 1].1)
  }

  /** The definitions of the containers in order, or the error of the first container refused. */
  function AllDefinitions(name: string, containers: seq<(string, Container)>, logGroupId: Option<string>,
                          region: string): Result<seq<ContainerDefinition>>
  {
    if |containers| == 0 then Ok([])
    else
      var before := AllDefinitions(name, containers[..|containers| - 1], logGroupId, region);
      var last := containers[|containers| - 1];
      var definition := ContainerDefinitionFor(name, last.0, last.1, logGroupId, region);
      if before.Fail? then before
      else if definition.Fail? then Fail(definition.error)
      else Ok(before.value + [definition.value])
  }

  /** The definitions exist exactly when every container's port information is accepted. */
  lemma {:induction false} AllDefinitionsOk(name: string, containers: seq<(string, Container)>, logGroupId: Option<string>,
                                            region: string)
    ensures AllDefinitions(name, containers, logGroupId, region).Ok? <==>
      forall i :: 0 <= i < |containers| ==> PortMappings(name, containers[i].1).Ok?
  {
    if |containers| > 0 {
      var prefix := containers[..|containers| - 1];
      AllDefinitionsOk(name, prefix, logGroupId, region);
      assert forall i :: 0 <= i < |prefix| ==> prefix[i] == containers[i];
    }
  }

  /** Accepted definitions come one per container, in the containers' order. */
  lemma {:induction false} AllDefinitionsInOrder(name: string, containers: seq<(string, Container)>,
                                                 logGroupId: Option<string>, region: string)
    requires AllDefinitions(name, containers, logGroupId, region).Ok?
    ensures var definitions := AllDefinitions(name, containers, logGroupId, region).value;
      |definitions| == |containers|
      && forall i :: 0 <= i < |containers| ==>
           Ok(definitions[i]) == ContainerDefinitionFor(name, containers[i].0, containers[i].1, logGroupId, region)
  {
    if |containers| > 0 {
      var prefix, last := containers[..|containers| - 1], containers[|containers| - 1];
      var before := AllDefinitions(name, prefix, logGroupId, region);
      var definition := ContainerDefinitionFor(name, last.0, last.1, logGroupId, region);
      assert before.Ok? && definition.Ok?;
      AllDefinitionsInOrder(name, prefix, logGroupId, region);
      var definitions := AllDefinitions(name, containers, logGroupId, region).value;
      assert definitions == before.value + [definition.value];
      forall i | 0 <= i < |containers|
        ensures Ok(definitions[i]) == ContainerDefinitionFor(name, containers[i].0, containers[i].1, logGroupId, region)
      {
        if i < |prefix| {
          assert prefix[i] == containers[i] && definitions[i] == before.value[i];
        }
      }
    }
  }

  /** Once a prefix of the containers is refused, the whole list is refused with the same error. */
  lemma {:induction false} FirstRefusalStops(name: string, containers: seq<(string, Container)>, k: nat,
                                             logGroupId: Option<string>, region: string)
    requires k <= |containers| && AllDefinitions(name, containers[..k], logGroupId, region).Fail?
    ensures AllDefinitions(name, containers, logGroupId, region) == AllDefinitions(name, containers[..k], logGroupId, region)
    decreases |containers| - k
  {
    if k < |containers| {
      var prefix := containers[..|containers| - 1];
      assert prefix[..k] == containers[..k];
      FirstRefusalStops(name, prefix, k, logGroupId, region);
    } else {
      assert containers[..k] == containers;
    }
  }

  /**
   * `computeContainerDefinitions`: one definition per container in the
   * record's order, each writing the task's listener records; the first
   * container whose port information is refused stops the task.
   */
  method ComputeContainerDefinitions(records: ListenerRecords, name: string, containers: seq<(string, Container)>,
                                     logGroupId: Option<string>, region: string)
    returns (r: Result<seq<ContainerDefinition>>)
    modifies records
    ensures r == AllDefinitions(name, containers, logGroupId, region)
    ensures r.Ok? ==> records.Records() == RecordsAfterAll(old(records.Records()), name, containers)
  {
    var result: seq<ContainerDefinition> := [];
    var i := 0;
    while i < |containers|
      invariant 0 <= i <= |containers|
      invariant AllDefinitions(name, containers[..i], logGroupId, region) == Ok(result)
      invariant records.Records() == RecordsAfterAll(old(records.Records()), name, containers[..i])
    {
      var definition := records.ComputeContainerDefinition(name, containers[i].0, containers[i].1, logGroupId, region);
      assert containers[..i + 1][..i] == containers[..i];
      if definition.Fail? {
        FirstRefusalStops(name, containers, i + 1, logGroupId, region);
        return Fail(definition.error);
      }
      result := result + [definition.value];
      i := i + 1;
    }
    assert containers[..|containers|] == containers;
    r := Ok(result);
  }

  /** `{...applicationListeners, ...networkListeners}`: every listener, a network one winning a shared name. */
  function AllListeners(records: (map<string, Listener>, map<string, Listener>)): (r: map<string, Listener>)
    ensures r.Keys == records.0.Keys + records.1.Keys
    ensures forall k :: k in records.1 ==> r[k] == records.1[k]
    ensures forall k :: k in records.0 && k !in records.1 ==> r[k] == records.0[k]
  {
    records.0 + records.1
  }

  /** A log group's id, which is its name. */
  function LogGroupId(logGroup: Option<LogGroup>): Option<string>
  {
    if logGroup.Some? then Some(logGroup.value.name) else None
  }

  /** The caller's arguments that the constructor reads. */
  datatype TaskDefinitionArgs = TaskDefinitionArgs(
    logGroup: Provided<LogGroup>, taskRole: Provided<Role>, executionRole: Provided<Role>, family: Option<string>,
    containers: seq<(string, Container)>)

  /** The task definition resource's arguments: family, role ARNs (undefined without the role), definitions' JSON. */
  datatype TaskDefinitionResource = TaskDefinitionResource(
    family: string, taskRoleArn: Option<string>, executionRoleArn: Option<string>, containerDefinitions: string)

  datatype TaskDefinition = TaskDefinition(
    logGroup: Option<LogGroup>, taskRole: Option<Role>, executionRole: Option<Role>,
    containerDefinitions: seq<ContainerDefinition>, listeners: map<string, Listener>, resource: TaskDefinitionResource)

  /**
   * The `TaskDefinition` constructor: log group and roles, the container
   * definitions (the JSON of which is an input here), the listeners, the
   * family and the role ARNs. The execution role and family use the
   * corrected rules.
   */
  method NewTaskDefinition(name: string, args: TaskDefinitionArgs, region: string, containerString: string,
                           stack: string, hash: string -> string, arnOf: Role -> string)
    returns (r: Result<TaskDefinition>)
    ensures r.Ok? <==> AllDefinitions(name, args.containers, LogGroupId(LogGroupFor(name, args.logGroup)), region).Ok?
    ensures r.Ok? ==> (
      r.value.logGroup == LogGroupFor(name, args.logGroup)
      && r.value.taskRole == TaskRoleFor(name, args.taskRole)
      && r.value.executionRole == ExecutionRoleFor(name, args.executionRole)
      && r.value.containerDefinitions == AllDefinitions(name, args.containers, LogGroupId(r.value.logGroup), region).value
      && r.value.listeners == AllListeners(RecordsAfterAll((map[], map[]), name, args.containers))
      && r.value.resource.family == args.family.GetOr(F.DefaultFamily(name, stack, containerString, hash))
      && (r.value.resource.taskRoleArn.Some? <==> r.value.taskRole.Some?)
      && (r.value.resource.executionRoleArn.Some? <==> r.value.executionRole.Some?))
  {
    var logGroup := LogGroupFor(name, args.logGroup);
    var taskRole := TaskRoleFor(name, args.taskRole);
    var executionRole := ExecutionRoleFor(name, args.executionRole);
    var records := new ListenerRecords();
    var logGroupId := LogGroupId(logGroup);
    var definitions := ComputeContainerDefinitions(records, name, args.containers, logGroupId, region);
    if definitions.Fail? {
      return Fail(definitions.error);
    }
    var listeners := AllListeners(records.Records());
    var family := args.family.GetOr(F.DefaultFamily(name, stack, containerString, hash));
    var resource := TaskDefinitionResource(family,
      if taskRole.Some? then Some(arnOf(taskRole.value)) else None,
      if executionRole.Some? then Some(arnOf(executionRole.value)) else None,
      containerString);
    r := Ok(TaskDefinition(logGroup, taskRole, executionRole, definitions.value, listeners, resource));
  }

  /** The cluster a task runs in: its ARN, security groups and public subnets. */
  datatype Cluster = Cluster(id: string, securityGroupIds: seq<string>, publicSubnetIds: seq<string>)

  datatype NetworkConfiguration = NetworkConfiguration(assignPublicIp: string, securityGroups: seq<string>, subnets: seq<string>)

  /** What the caller passes to `run`. */
  datatype RunTaskRequest = RunTaskRequest(cluster: Cluster, networkConfiguration: Option<NetworkConfiguration>,
                                           count: Option<int>)

  /** The request sent to ECS. */
  datatype RunTask = RunTask(taskDefinition: string, launchType: string, networkConfiguration: NetworkConfiguration,
                             cluster: string, count: Option<int>)

  /**
   * `run`: the task definition, FARGATE or EC2, a public IP exactly for
   * Fargate in the cluster's groups and public subnets unless the caller
   * configures the network, then the caller's parameters, with the cluster
   * replaced by its ARN.
   */
  function RunRequest(isFargate: bool, taskDefinitionArn: string, params: RunTaskRequest): (r: RunTask)
    ensures r.launchType == (if isFargate then "FARGATE" else "EC2")
    ensures r.cluster == params.cluster.id && r.taskDefinition == taskDefinitionArn && r.count == params.count
    ensures params.networkConfiguration.Some? ==> r.networkConfiguration == params.networkConfiguration.value
    ensures params.networkConfiguration.None? ==>
      (r.networkConfiguration.assignPublicIp == "ENABLED" <==> isFargate)
      && r.networkConfiguration.securityGroups == params.cluster.securityGroupIds
      && r.networkConfiguration.subnets == params.cluster.publicSubnetIds
  {
    var assignPublicIp := isFargate;
    var defaultNetwork := NetworkConfiguration(if assignPublicIp then "ENABLED" else "DISABLED",
                                               params.cluster.securityGroupIds, params.cluster.publicSubnetIds);
    RunTask(taskDefinitionArn, if isFargate then "FARGATE" else "EC2",
            params.networkConfiguration.GetOr(defaultNetwork), params.cluster.id, params.count)
  }
}
