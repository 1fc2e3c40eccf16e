// The Fargate task definition of awsx's ecsx layer
// (nodejs/awsx/ecsx/fargateTaskDefinition.ts): one container or a record
// of them, container definitions whose port mappings take their ports from
// target groups, the load balancers those target groups give, and the task
// definition arguments with Fargate's fixed compatibility and network mode.
module EcsxFargateTaskDefinition {
  import opened Wrappers
  import opened Text
  import opened EcsTypes

  /** A target group as a port mapping names it: its ARN and port, once known. */
  datatype TargetGroup = TargetGroup(arn: Option<string>, port: Option<int>)

  /** A port mapping as the caller gives it. */
  datatype MappingInput = MappingInput(
    containerPort: Option<int>, hostPort: Option<int>, protocol: Option<string>, targetGroup: Option<TargetGroup>)

  /** A port mapping of the container definition; either port may stay undefined. */
  datatype ResolvedMapping = ResolvedMapping(containerPort: Option<int>, hostPort: Option<int>, protocol: Option<string>)

  /** A container: its image, port mappings and log configuration (the other fields pass through unchanged). */
  datatype Container = Container(image: string, portMappings: Option<seq<MappingInput>>,
                                 logConfiguration: Option<LogConfiguration>)

  /** The log group's name and region. */
  datatype LogGroupId = LogGroupId(logGroupName: string, logGroupRegion: string)

  datatype ContainerDefinition = ContainerDefinition(
    name: string, image: string, portMappings: Option<seq<ResolvedMapping>>, logConfiguration: Option<LogConfiguration>)

  /** A load balancer of the service: which container's port the target group sends to. */
  datatype ServiceLoadBalancer = ServiceLoadBalancer(containerName: string, containerPort: int, targetGroupArn: string)

  const ExactlyOneContainer: string := "Exactly one of [container] or [containers] must be provided"

  /** The containers of the task: `containers` as given, or `{container: container}`. */
  function ContainersOf(container: Option<Container>, containers: Option<seq<(string, Container)>>)
    : (r: Result<seq<(string, Container)>>)
    ensures r.Fail? <==> (container.Some? <==> containers.Some?)
    ensures r.Fail? ==> r.error == ExactlyOneContainer
    ensures containers.Some? && container.None? ==> r == Ok(containers.value)
    ensures container.Some? && containers.None? ==> r == Ok([("container", container.value)])
  {
    if containers.Some? && container.None? then Ok(containers.value)
    else if container.Some? && containers.None? then Ok([("container", container.value)])
    else Fail(ExactlyOneContainer)
  }

  /** The target group's port, if there is a target group and it has one. */
  function TargetGroupPort(mapping: MappingInput): Option<int>
  {
    if mapping.targetGroup.Some? then mapping.targetGroup.value.port else None
  }

  /**
   * A mapping's ports: the target group's port, when known, is the host
   * port, and the container port defaults to the same value as the host
   * port.
   */
  function ResolveMapping(mapping: MappingInput): (r: ResolvedMapping)
    ensures TargetGroupPort(mapping).Some? ==> r.hostPort == TargetGroupPort(mapping)
    ensures TargetGroupPort(mapping).None? ==> r.hostPort == mapping.hostPort
    ensures mapping.containerPort.Some? ==> r.containerPort == mapping.containerPort
    ensures mapping.containerPort.None? ==> r.containerPort == r.hostPort
    ensures r.protocol == mapping.protocol
  {
    var tgPort := TargetGroupPort(mapping);
    ResolvedMapping(
      if mapping.containerPort.Some? then mapping.containerPort else if tgPort.Some? then tgPort else mapping.hostPort,
      if tgPort.Some? then tgPort else mapping.hostPort,
      mapping.protocol)
  }

  /** Resolving a mapping again (its result read back as a mapping without target group) changes nothing. */
  lemma ResolveMappingStable(mapping: MappingInput)
    ensures var r := ResolveMapping(mapping);
      ResolveMapping(MappingInput(r.containerPort, r.hostPort, r.protocol, None)) == r
  {
  }

  /**
   * `computeContainerDefinition`: the container under its name, each port
   * mapping resolved, and awslogs into the log group when the container
   * has no log configuration of its own.
   */
  function ContainerDefinitionFor(containerName: string, container: Container, logGroupId: Option<LogGroupId>)
    : (r: ContainerDefinition)
    ensures r.name == containerName && r.image == container.image
    ensures r.portMappings.Some? <==> container.portMappings.Some?
    ensures r.portMappings.Some? ==> (|r.portMappings.value| == |container.portMappings.value|
      && forall j :: 0 <= j < |r.portMappings.value| ==>
           r.portMappings.value[j] == ResolveMapping(container.portMappings.value[j]))
    ensures container.logConfiguration.Some? ==> r.logConfiguration == container.logConfiguration
    ensures container.logConfiguration.None? && logGroupId.Some? ==>
      r.logConfiguration == Some(AwsLogs(logGroupId.value.logGroupName, logGroupId.value.logGroupRegion, containerName))
    ensures container.logConfiguration.None? && logGroupId.None? ==> r.logConfiguration.None?
  {
    var portMappings := if container.portMappings.Some? then
      var mappings := container.portMappings.value;
      Some(seq(|mappings|, j requires 0 <= j < |mappings| => ResolveMapping(mappings[j])))
    else None;
    var logConfiguration := if container.logConfiguration.None? && logGroupId.Some? then
      Some(AwsLogs(logGroupId.value.logGroupName, logGroupId.value.logGroupRegion, containerName))
    else container.logConfiguration;
    ContainerDefinition(containerName, container.image, portMappings, logConfiguration)
  }

  /** `computeContainerDefinitions`: one definition per container, in the record's order. */
  method ComputeContainerDefinitions(containers: seq<(string, Container)>, logGroupId: Option<LogGroupId>)
    returns (result: seq<ContainerDefinition>)
    ensures |result| == |containers|
    ensures forall i :: 0 <= i < |containers| ==>
      result[i] == ContainerDefinitionFor(containers[i].0, containers[i].1, logGroupId)
  {
    result := [];
    var i := 0;
    while i < |containers|
      invariant 0 <= i <= |containers| && |result| == i
      invariant forall k :: 0 <= k < i ==> result[k] == ContainerDefinitionFor(containers[k].0, containers[k].1, logGroupId)
    {
      result := result + [ContainerDefinitionFor(containers[i].0, containers[i].1, logGroupId)];
      i := i + 1;
    }
  }

  /** A mapping yields this load balancer: its target group has an ARN and a port, and the balancer targets them. */
  predicate Yields(containerName: string, mapping: MappingInput, lb: ServiceLoadBalancer)
  {
    mapping.targetGroup.Some? && mapping.targetGroup.value.arn.Some? && mapping.targetGroup.value.port.Some?
    && lb == ServiceLoadBalancer(containerName, mapping.targetGroup.value.port.value, mapping.targetGroup.value.arn.value)
  }

  /** `choose` over one container's mappings: those whose target group has both an ARN and a port. */
  function ChosenLoadBalancers(containerName: string, mappings: seq<MappingInput>): (r: seq<ServiceLoadBalancer>)
    ensures |r| <= |mappings|
  {
    if |mappings| == 0 then []
    else
      var m := mappings[0];
      var rest := ChosenLoadBalancers(containerName, mappings[1..]);
      if m.targetGroup.Some? && m.targetGroup.value.arn.Some? && m.targetGroup.value.port.Some? then
        [ServiceLoadBalancer(containerName, m.targetGroup.value.port.value, m.targetGroup.value.arn.value)] + rest
      else rest
  }

  /** A container's load balancers: none without port mappings. */
  function ContainerLoadBalancers(containerName: string, container: Container): seq<ServiceLoadBalancer>
  {
    if container.portMappings.None? then [] else ChosenLoadBalancers(containerName, container.portMappings.value)
  }

  /** `computeLoadBalancers`: every container's load balancers, container by container. */
  function LoadBalancers(containers: seq<(string, Container)>): seq<ServiceLoadBalancer>
  {
    if |containers| == 0 then []
    else ContainerLoadBalancers(containers[0].0, containers[0].1) + LoadBalancers(containers[1..])
  }

  /** A load balancer is chosen exactly when some mapping yields it. */
  lemma {:induction false} ChosenMember(containerName: string, mappings: seq<MappingInput>, lb: ServiceLoadBalancer)
    ensures lb in ChosenLoadBalancers(containerName, mappings) <==>
      exists j :: 0 <= j < |mappings| && Yields(containerName, mappings[j], lb)
  {
    if |mappings| > 0 {
      ChosenMember(containerName, mappings[1..], lb);
      if exists j :: 0 <= j < |mappings| && Yields(containerName, mappings[j], lb) {
        var j :| 0 <= j < |mappings| && Yields(containerName, mappings[j], lb);
        if j > 0 {
          assert mappings[1..][j - 1] == mappings[j];
        }
      }
      if exists j :: 0 <= j < |mappings[1..]| && Yields(containerName, mappings[1..][j], lb) {
        var j :| 0 <= j < |mappings[1..]| && Yields(containerName, mappings[1..][j], lb);
        assert mappings[j + 1] == mappings[1..][j];
      }
    }
  }

  /**
   * A load balancer is computed exactly when some mapping of some container
   * has a target group with both an ARN and a port, and then it targets
   * that container and the target group's port.
   */
  lemma {:induction false} LoadBalancersMember(containers: seq<(string, Container)>, lb: ServiceLoadBalancer)
    ensures lb in LoadBalancers(containers) <==>
      exists i :: 0 <= i < |containers| && lb in ContainerLoadBalancers(containers[i].0, containers[i].1)
  {
    if |containers| > 0 {
      LoadBalancersMember(containers[1..], lb);
      if exists i :: 0 <= i < |containers| && lb in ContainerLoadBalancers(containers[i].0, containers[i].1) {
        var i :| 0 <= i < |containers| && lb in ContainerLoadBalancers(containers[i].0, containers[i].1);
        if i > 0 {
          assert containers[1..][i - 1] == containers[i];
        }
      }
      if exists i :: 0 <= i < |containers[1..]| && lb in ContainerLoadBalancers(containers[1..][i].0, containers[1..][i].1) {
        var i :| 0 <= i < |containers[1..]| && lb in ContainerLoadBalancers(containers[1..][i].0, containers[1..][i].1);
        assert containers[i + 1] == containers[1..][i];
      }
    }
  }

  /** Every computed load balancer sends to its container at a target group's port with a known ARN. */
  lemma LoadBalancerFromMapping(containers: seq<(string, Container)>, lb: ServiceLoadBalancer)
    requires lb in LoadBalancers(containers)
    ensures exists i, j :: (0 <= i < |containers| && containers[i].1.portMappings.Some?
      && 0 <= j < |containers[i].1.portMappings.value| && Yields(containers[i].0, containers[i].1.portMappings.value[j], lb))
  {
    LoadBalancersMember(containers, lb);
    var i :| 0 <= i < |containers| && lb in ContainerLoadBalancers(containers[i].0, containers[i].1);
    ChosenMember(containers[i].0, containers[i].1.portMappings.value, lb);
    var j :| 0 <= j < |containers[i].1.portMappings.value| && Yields(containers[i].0, containers[i].1.portMappings.value[j], lb);
  }

  /** The CPU and memory computed for the containers, as the task's defaults. */
  datatype MemoryAndCpu = MemoryAndCpu(cpu: string, memory: string)

  /** The arguments the task definition is created with. */
  datatype TaskDefinitionArgs = TaskDefinitionArgs(
    cpu: string, memory: string, requiresCompatibilities: seq<string>, networkMode: string,
    taskRoleArn: Option<string>, executionRoleArn: Option<string>, family: string,
    containerDefinitions: string)

  /** The caller's arguments object, whose `cpu` and `memory` are filled in when undefined. */
  class FargateTaskDefinitionArgs {
    var cpu: Option<string>
    var memory: Option<string>
    var family: Option<string>

    constructor(cpu: Option<string>, memory: Option<string>, family: Option<string>)
      ensures this.cpu == cpu && this.memory == memory && this.family == family
    {
      this.cpu := cpu;
      this.memory := memory;
      this.family := family;
    }
  }

  /** `name-<hash of stack and container definitions>`. */
  function DefaultFamily(name: string, stack: string, containerString: string, hash: string -> string): (r: string)
    ensures StartsWith(r, name + "-")
  {
    assert (name + "-" + hash(stack + containerString))[..|name + "-"|] == name + "-";
    name + "-" + hash(stack + containerString)
  }

  /**
   * `buildTaskDefinitionArgs`: the caller's `cpu` and `memory` or else the
   * computed ones (written back into the caller's arguments), Fargate
   * compatibility, awsvpc networking, the roles' ARNs, and the caller's
   * family or a hashed default.
   */
  method BuildTaskDefinitionArgs(name: string, args: FargateTaskDefinitionArgs, required: MemoryAndCpu,
                                 containerString: string, stack: string, hash: string -> string,
                                 taskRoleArn: Option<string>, executionRoleArn: Option<string>)
    returns (r: TaskDefinitionArgs)
    modifies args
    ensures args.cpu == Some(old(args.cpu).GetOr(required.cpu)) && args.memory == Some(old(args.memory).GetOr(required.memory))
    ensures args.family == old(args.family)
    ensures r.cpu == args.cpu.value && r.memory == args.memory.value
    ensures r.requiresCompatibilities == ["FARGATE"] && r.networkMode == "awsvpc"
    ensures r.taskRoleArn == taskRoleArn && r.executionRoleArn == executionRoleArn
    ensures r.family == args.family.GetOr(DefaultFamily(name, stack, containerString, hash))
    ensures r.containerDefinitions == containerString
  {
    if args.cpu.None? {
      args.cpu := Some(required.cpu);
    }
    if args.memory.None? {
      args.memory := Some(required.memory);
    }
    var family := args.family.GetOr(DefaultFamily(name, stack, containerString, hash));
    r := TaskDefinitionArgs(args.cpu.value, args.memory.value, ["FARGATE"], "awsvpc", taskRoleArn, executionRoleArn,
                            family, containerString);
  }

  /** What the component exposes: the container definitions, the load balancers and the task definition's arguments. */
  datatype FargateTaskDefinition = FargateTaskDefinition(
    containerDefinitions: seq<ContainerDefinition>, loadBalancers: seq<ServiceLoadBalancer>, taskDefinition: TaskDefinitionArgs)

  /**
   * The `FargateTaskDefinition` constructor; the log group and the roles are
   * given by their results, and the JSON of the container definitions and
   * the computed CPU and memory are inputs.
   */
  method NewFargateTaskDefinition(name: string, container: Option<Container>, containers: Option<seq<(string, Container)>>,
                                  args: FargateTaskDefinitionArgs, logGroupId: Option<LogGroupId>,
                                  taskRoleArn: Option<string>, executionRoleArn: Option<string>,
                                  required: MemoryAndCpu, containerString: string, stack: string, hash: string -> string)
    returns (r: Result<FargateTaskDefinition>)
    modifies args
    ensures r.Fail? <==> ContainersOf(container, containers).Fail?
    ensures r.Fail? ==> r.error == ExactlyOneContainer && unchanged(args)
    ensures r.Ok? ==> (
      var cs := ContainersOf(container, containers).value;
      |r.value.containerDefinitions| == |cs|
      && (forall i :: 0 <= i < |cs| ==> r.value.containerDefinitions[i] == ContainerDefinitionFor(cs[i].0, cs[i].1, logGroupId))
      && r.value.loadBalancers == LoadBalancers(cs)
      && r.value.taskDefinition.requiresCompatibilities == ["FARGATE"] && r.value.taskDefinition.networkMode == "awsvpc"
      && args.cpu == Some(old(args.cpu).GetOr(required.cpu)) && args.memory == Some(old(args.memory).GetOr(required.memory))
      && args.family == old(args.family)
      && r.value.taskDefinition.cpu == old(args.cpu).GetOr(required.cpu)
      && r.value.taskDefinition.memory == old(args.memory).GetOr(required.memory)
      && r.value.taskDefinition.taskRoleArn == taskRoleArn && r.value.taskDefinition.executionRoleArn == executionRoleArn
      && r.value.taskDefinition.family == old(args.family).GetOr(DefaultFamily(name, stack, containerString, hash))
      && r.value.taskDefinition.containerDefinitions == containerString)
  {
    var cs := ContainersOf(container, containers);
    if cs.Fail? {
      return Fail(cs.error);
    }
    var definitions := ComputeContainerDefinitions(cs.value, logGroupId);
    var taskDefinition := BuildTaskDefinitionArgs(name, args, required, containerString, stack, hash,
                                                  taskRoleArn, executionRoleArn);
    r := Ok(FargateTaskDefinition(definitions, LoadBalancers(cs.value), taskDefinition));
  }
}
