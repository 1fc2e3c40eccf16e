// The cluster task definition of aws-infra's cluster module
// (nodejs/aws-infra/clusterMod/clusterTaskDefinition.ts): the choice of
// containers, the single container that may ask for a load balancer, the
// environment `run` passes, and the subclasses that refuse to be built.
module InfraClusterTaskDefinition {
  import opened Wrappers
  import opened EcsTypes
  import A = AwsxEcsTaskDefinition

  /** A load-balancer port a container asks for. */
  datatype ClusterLoadBalancerPort = ClusterLoadBalancerPort(port: int, targetPort: Option<int>, protocol: string)

  /** A container: its load-balancer port and its environment, in key order. */
  datatype Container = Container(loadBalancerPort: Option<ClusterLoadBalancerPort>, environment: Option<seq<KeyValuePair>>)

  const NoContainers: string := "Either [container] or [containers] must be provided"
  const SeveralLoadBalancerPorts: string := "Only a single container can specify a [loadBalancerPort]."

  /** `args.containers || { container: args.container }`, refusing when neither is given. */
  function ContainersFor(container: Option<Container>, containers: Option<seq<(string, Container)>>)
    : (r: Result<seq<(string, Container)>>)
    ensures r.Fail? <==> container.None? && containers.None?
    ensures r.Fail? ==> r.error == NoContainers
    ensures containers.Some? ==> r == Ok(containers.value)
    ensures containers.None? && container.Some? ==> r == Ok([("container", container.value)])
  {
    if containers.Some? then Ok(containers.value)
    else if container.Some? then Ok([("container", container.value)])
    else Fail(NoContainers)
  }

  /** The containers that ask for a load-balancer port, in order. */
  function PortHolders(containers: seq<(string, Container)>): (r: seq<(string, Container)>)
    ensures |r| <= |containers|
    ensures forall c :: c in r ==> c in containers && c.1.loadBalancerPort.Some?
  {
    if |containers| == 0 then []
    else
      var last := containers[|containers| - 1];
      PortHolders(containers[..|containers| - 1]) + (if last.1.loadBalancerPort.Some? then [last] else [])
  }

  /** Every container with a port is among the holders: none is missed. */
  lemma {:induction false} PortHoldersComplete(containers: seq<(string, Container)>, i: nat)
    requires i < |containers| && containers[i].1.loadBalancerPort.Some?
    ensures containers[i] in PortHolders(containers)
  {
    var prefix := containers[..|containers| - 1];
    if i < |containers| - 1 {
      PortHoldersComplete(prefix, i);
    }
  }

  /** A longer list has at least as many holders as its prefix. */
  lemma {:induction false} PortHoldersGrow(containers: seq<(string, Container)>, k: nat)
    requires k <= |containers|
    ensures |PortHolders(containers[..k])| <= |PortHolders(containers)|
    decreases |containers| - k
  {
    if k < |containers| {
      var prefix := containers[..|containers| - 1];
      assert prefix[..k] == containers[..k];
      PortHoldersGrow(prefix, k);
    } else {
      assert containers[..k] == containers;
    }
  }

  /**
   * `singleContainerWithLoadBalancerPort`: the one container with a
   * load-balancer port, none when no container has one, and an error when
   * two or more do.
   */
  method SingleContainerWithLoadBalancerPort(containers: seq<(string, Container)>)
    returns (r: Result<Option<(string, Container)>>)
    ensures r.Fail? <==> |PortHolders(containers)| >= 2
    ensures r.Fail? ==> r.error == SeveralLoadBalancerPorts
    ensures r == Ok(None) <==> |PortHolders(containers)| == 0
    ensures r.Ok? && r.value.Some? ==> PortHolders(containers) == [r.value.value]
  {
    var found: Option<(string, Container)> := None;
    var i := 0;
    while i < |containers|
      invariant 0 <= i <= |containers|
      invariant |PortHolders(containers[..i])| <= 1
      invariant found.None? <==> |PortHolders(containers[..i])| == 0
      invariant found.Some? ==> PortHolders(containers[..i]) == [found.value]
    {
      assert containers[..i + 1][..i] == containers[..i];
      if containers[i].1.loadBalancerPort.Some? {
        if found.Some? {
          PortHoldersGrow(containers, i + 1);
          return Fail(SeveralLoadBalancerPorts);
        }
        found := Some(containers[i]);
      }
      i := i + 1;
    }
    assert containers[..i] == containers;
    r := Ok(found);
  }

  /** The entries of an environment whose value is not empty, in order. */
  function TruthyEntries(e: seq<KeyValuePair>): (r: seq<KeyValuePair>)
    ensures |r| <= |e|
  {
    if |e| == 0 then []
    else
      var last := e[|e| - 1];
      TruthyEntries(e[..|e| - 1]) + (if last.value != "" then [last] else [])
  }

  /** An entry is passed on exactly when it is in the environment and its value is not empty. */
  lemma {:induction false} TruthyEntriesMember(e: seq<KeyValuePair>, kv: KeyValuePair)
    ensures kv in TruthyEntries(e) <==> kv in e && kv.value != ""
  {
    if |e| > 0 {
      var prefix := e[..|e| - 1];
      TruthyEntriesMember(prefix, kv);
      assert e == prefix + [e[|e| - 1]];
    }
  }

  /** `addEnvironmentVariables`: appends the entries of `e` that have a value, if there is an `e`. */
  method AddEnvironmentVariables(env: seq<KeyValuePair>, e: Option<seq<KeyValuePair>>) returns (r: seq<KeyValuePair>)
    ensures r == env + TruthyEntries(e.GetOr([]))
  {
    r := env;
    if e.Some? {
      var entries := e.value;
      var i := 0;
      while i < |entries|
        invariant 0 <= i <= |entries|
        invariant r == env + TruthyEntries(entries[..i])
      {
        assert entries[..i + 1][..i] == entries[..i];
        if entries[i].value != "" {
          r := r + [entries[i]];
        }
        i := i + 1;
      }
      assert entries[..i] == entries;
    }
  }

  /** The cluster a task runs in. */
  datatype Cluster = Cluster(arn: string, instanceSecurityGroupId: string, subnetIds: seq<string>, usePrivateSubnets: bool)

  /** What the caller passes to `run`. */
  datatype TaskRunOptions = TaskRunOptions(containerName: Option<string>, environment: Option<seq<KeyValuePair>>)

  datatype ContainerOverride = ContainerOverride(name: string, environment: seq<KeyValuePair>)

  /** The request sent to ECS. */
  datatype RunTask = RunTask(
    cluster: string, taskDefinition: string, launchType: string,
    networkConfiguration: A.NetworkConfiguration, containerOverride: ContainerOverride)

  const NoContainerName: string := "No valid container name found to run task for."

  /** The run-time error of reading the environment of a container that is not there. */
  const MissingContainer: string := "Cannot read property 'environment' of undefined"

  /** `options.containerName || Object.keys(containers)[0]`, if that is a non-empty name. */
  function RunContainerName(containers: seq<(string, Container)>, containerName: Option<string>): (r: Option<string>)
    ensures containerName.Some? && containerName.value != "" ==> r == containerName
    ensures (containerName.None? || containerName.value == "") ==>
      (r.Some? <==> |containers| > 0 && containers[0].0 != "")
    ensures (containerName.None? || containerName.value == "") && r.Some? ==> r.value == containers[0].0
  {
    if containerName.Some? && containerName.value != "" then containerName
    else if |containers| > 0 && containers[0].0 != "" then Some(containers[0].0)
    else None
  }

  /** The first container of that name, if there is one. */
  function Find(containers: seq<(string, Container)>, name: string): (r: Option<Container>)
    ensures r.Some? <==> exists i :: 0 <= i < |containers| && containers[i].0 == name
    ensures r.Some? ==> exists i :: 0 <= i < |containers| && containers[i] == (name, r.value)
  {
    if |containers| == 0 then None
    else if containers[0].0 == name then Some(containers[0].1)
    else
      var rest := Find(containers[1..], name);
      assert forall i :: 0 <= i < |containers| - 1 ==> containers[1..][i] == containers[i + 1];
      assert rest.None? ==> forall i :: 1 <= i < |containers| ==> containers[i].0 != name by {
        if rest.None? {
          forall i | 1 <= i < |containers| ensures containers[i].0 != name {
            assert containers[1..][i - 1] == containers[i];
          }
        }
      }
      rest
  }

  /** Fargate exactly when the first required compatibility is "FARGATE". */
  predicate UsesFargate(requiresCompatibilities: seq<string>)
  {
    |requiresCompatibilities| > 0 && requiresCompatibilities[0] == "FARGATE"
  }

  /** The container `run` reads the environment of: the named or first one, if it is there. */
  function ChosenContainer(containers: seq<(string, Container)>, containerName: Option<string>): (r: Option<Container>)
    ensures RunContainerName(containers, containerName).None? ==> r.None?
    ensures r.Some? ==> (RunContainerName(containers, containerName).value, r.value) in containers
  {
    var name := RunContainerName(containers, containerName);
    if name.None? then None else Find(containers, name.value)
  }

  /**
   * `run`: the chosen container's non-empty environment entries followed by
   * the caller's, to the container named "container", with a public IP
   * exactly for Fargate on public subnets.
   */
  method Run(containers: seq<(string, Container)>, cluster: Cluster, taskDefinitionArn: string,
             requiresCompatibilities: seq<string>, options: TaskRunOptions) returns (r: Result<RunTask>)
    ensures r.Fail? <==> ChosenContainer(containers, options.containerName).None?
    ensures RunContainerName(containers, options.containerName).None? ==> r == Fail(NoContainerName)
    ensures r.Ok? ==> r.value.containerOverride == ContainerOverride("container",
      TruthyEntries(ChosenContainer(containers, options.containerName).value.environment.GetOr([]))
      + TruthyEntries(options.environment.GetOr([])))
    ensures r.Ok? ==> (r.value.networkConfiguration.assignPublicIp == "ENABLED" <==>
                         UsesFargate(requiresCompatibilities) && !cluster.usePrivateSubnets)
    ensures r.Ok? ==> r.value.networkConfiguration.securityGroups == [cluster.instanceSecurityGroupId]
    ensures r.Ok? ==> r.value.launchType == (if UsesFargate(requiresCompatibilities) then "FARGATE" else "EC2")
  {
    var name := RunContainerName(containers, options.containerName);
    if name.None? {
      return Fail(NoContainerName);
    }
    var container := Find(containers, name.value);
    assert container == ChosenContainer(containers, options.containerName);
    if container.None? {
      return Fail(MissingContainer);
    }
    var env := AddEnvironmentVariables([], container.value.environment);
    env := AddEnvironmentVariables(env, options.environment);
    assert env == TruthyEntries(container.value.environment.GetOr([])) + TruthyEntries(options.environment.GetOr([]));
    var useFargate := UsesFargate(requiresCompatibilities);
    var assignPublicIp := useFargate && !cluster.usePrivateSubnets;
    var network := A.NetworkConfiguration(if assignPublicIp then "ENABLED" else "DISABLED",
                                          [cluster.instanceSecurityGroupId], cluster.subnetIds);
    r := Ok(RunTask(cluster.arn, taskDefinitionArn, if useFargate then "FARGATE" else "EC2",
                    network, ContainerOverride("container", env)));
  }

  /** No entry `run` passes has an empty value, and every non-empty one of the caller's is passed. */
  lemma RunEnvironmentTruthy(containerEnvironment: seq<KeyValuePair>, callerEnvironment: seq<KeyValuePair>,
                             kv: KeyValuePair)
    ensures kv in TruthyEntries(containerEnvironment) + TruthyEntries(callerEnvironment) ==> kv.value != ""
    ensures kv in callerEnvironment && kv.value != "" ==>
      kv in TruthyEntries(containerEnvironment) + TruthyEntries(callerEnvironment)
  {
    TruthyEntriesMember(containerEnvironment, kv);
    TruthyEntriesMember(callerEnvironment, kv);
  }

  /** The caller's arguments that the constructor reads. */
  datatype ClusterTaskDefinitionArgs = ClusterTaskDefinitionArgs(
    container: Option<Container>, containers: Option<seq<(string, Container)>>,
    logGroup: Option<A.LogGroup>, taskRole: Option<A.Role>, executionRole: Option<A.Role>)

  /** What the constructor builds; `loadBalancerContainer` is the container a load balancer is made for. */
  datatype ClusterTaskDefinition = ClusterTaskDefinition(
    family: string, containers: seq<(string, Container)>, logGroup: A.LogGroup,
    taskRole: A.Role, executionRole: A.Role, loadBalancerContainer: Option<(string, Container)>)

  /** The task role created when none is given: fixed name "task", the compute policies. */
  const CreatedTaskRole: A.Role := A.Role("task", A.DefaultTaskRolePolicies)

  /** The execution role created when none is given: fixed name "execution". */
  const CreatedExecutionRole: A.Role := A.Role("execution", A.DefaultExecutionRolePolicies)

  /** Node's TypeError for `Object.keys(undefined)`. */
  const KeysOfUndefined: string := "Cannot convert undefined or null to object"

  /** Node's ReferenceError for the call to a function that no file declares or imports. */
  const ComputeContainerDefinitionUndeclared: string := "computeContainerDefinition is not defined"

  /**
   * `computeContainerDefinitions`: it walks `Object.keys(args.containers)`,
   * which throws when only `container` was given, and calls the undeclared
   * `computeContainerDefinition` for each key, which throws at the first
   * one. Only an empty map gets through, with no definitions.
   */
  function ComputeContainerDefinitions(containers: Option<seq<(string, Container)>>): (r: Result<seq<(string, Container)>>)
    ensures r.Ok? <==> containers == Some([])
    ensures r.Ok? ==> r.value == []
    ensures containers.None? ==> r == Fail(KeysOfUndefined)
    ensures containers.Some? && |containers.value| > 0 ==> r == Fail(ComputeContainerDefinitionUndeclared)
  {
    match containers
    case None => Fail(KeysOfUndefined)
    case Some(named) => if |named| == 0 then Ok([]) else Fail(ComputeContainerDefinitionUndeclared)
  }

  /**
   * The `ClusterTaskDefinition` constructor: the containers (or an error),
   * the caller's log group and roles or new ones, the single container with
   * a load-balancer port (or an error), then the container definitions,
   * which succeed only for an empty `containers` map; the family is the name.
   */
  method NewClusterTaskDefinition(name: string, args: ClusterTaskDefinitionArgs) returns (r: Result<ClusterTaskDefinition>)
    ensures ContainersFor(args.container, args.containers).Fail? ==> r == Fail(NoContainers)
    ensures (ContainersFor(args.container, args.containers).Ok?
             && |PortHolders(ContainersFor(args.container, args.containers).value)| > 1) ==>
              r == Fail(SeveralLoadBalancerPorts)
    ensures (ContainersFor(args.container, args.containers).Ok?
             && |PortHolders(ContainersFor(args.container, args.containers).value)| <= 1
             && ComputeContainerDefinitions(args.containers).Fail?) ==>
              r == Fail(ComputeContainerDefinitions(args.containers).error)
    ensures r.Ok? <==> args.containers == Some([])
    ensures r.Ok? ==> (
      r.value.containers == [] && r.value.loadBalancerContainer.None?
      && r.value.family == name
      && r.value.logGroup == args.logGroup.GetOr(A.LogGroup(name, Some(1)))
      && r.value.taskRole == args.taskRole.GetOr(CreatedTaskRole)
      && r.value.executionRole == args.executionRole.GetOr(CreatedExecutionRole))
  {
    var containers := ContainersFor(args.container, args.containers);
    if containers.Fail? {
      return Fail(containers.error);
    }
    var single := SingleContainerWithLoadBalancerPort(containers.value);
    if single.Fail? {
      return Fail(single.error);
    }
    var definitions := ComputeContainerDefinitions(args.containers);
    if definitions.Fail? {
      return Fail(definitions.error);
    }
    r := Ok(ClusterTaskDefinition(name, containers.value, args.logGroup.GetOr(A.LogGroup(name, Some(1))),
                                  args.taskRole.GetOr(CreatedTaskRole), args.executionRole.GetOr(CreatedExecutionRole),
                                  single.value));
  }

  const FargateRefusal: string := "Set memory and cpu"
  const Ec2Refusal: string := "Should we set the networking mode?"

  /** The Fargate subclass always refuses, before the base constructor runs. */
  function NewFargateTaskDefinition(name: string, args: ClusterTaskDefinitionArgs): (r: Result<ClusterTaskDefinition>)
    ensures r.Fail? && r.error == FargateRefusal
  {
    Fail(FargateRefusal)
  }

  /** The EC2 subclass always refuses, before the base constructor runs. */
  function NewEc2TaskDefinition(name: string, args: ClusterTaskDefinitionArgs): (r: Result<ClusterTaskDefinition>)
    ensures r.Fail? && r.error == Ec2Refusal
  {
    Fail(Ec2Refusal)
  }
}
