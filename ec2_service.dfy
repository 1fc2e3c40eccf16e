// The EC2 task definition and service of the awsx ECS package
// (nodejs/awsx/ecs/ec2Service.ts): the task is EC2-only with the awsvpc
// network mode unless the caller picks another, and the service has a
// network configuration only under awsvpc, never with a public IP.
module AwsxEc2Service {
  import opened Wrappers
  import F = AwsxFargateService

  /** The arguments of an `EC2TaskDefinition` that the model reads. */
  datatype Ec2TaskDefinitionArgs = Ec2TaskDefinitionArgs(
    container: Option<F.Container>, containers: Option<seq<(string, F.Container)>>, networkMode: Option<string>)

  /** The arguments the task definition hands to its base class. */
  datatype Ec2TaskDefinition = Ec2TaskDefinition(
    containers: seq<(string, F.Container)>, requiresCompatibilities: seq<string>, networkMode: string)

  /**
   * The `EC2TaskDefinition` constructor: a container or a map of containers
   * is required; the task is EC2-only, on awsvpc unless the caller chose a
   * network mode.
   */
  function Ec2TaskDefinitionFor(args: Ec2TaskDefinitionArgs): (r: Result<Ec2TaskDefinition>)
    ensures r.Fail? <==> args.container.None? && args.containers.None?
    ensures r.Fail? ==> r.error == F.Message(F.NoContainers)
    ensures r.Ok? ==> r.value.requiresCompatibilities == ["EC2"]
    ensures r.Ok? ==> r.value.networkMode == args.networkMode.GetOr("awsvpc")
    ensures r.Ok? && args.containers.Some? ==> r.value.containers == args.containers.value
    ensures r.Ok? && args.containers.None? ==> r.value.containers == [("container", args.container.value)]
  {
    var containers := F.ContainersOf(F.TaskDefinitionArgs(args.container, args.containers, None, None));
    if containers.None? then Fail(F.Message(F.NoContainers))
    else Ok(Ec2TaskDefinition(containers.value, ["EC2"], args.networkMode.GetOr("awsvpc")))
  }

  /** The network configuration of a service. */
  datatype NetworkConfiguration = NetworkConfiguration(subnets: seq<string>, assignPublicIp: bool, securityGroups: seq<string>)

  /** An EC2 service gets a network configuration only for an awsvpc task, and never a public IP. */
  function Ec2NetworkConfiguration(networkMode: string, subnets: seq<string>, securityGroups: seq<string>)
    : (r: Option<NetworkConfiguration>)
    ensures r.Some? <==> networkMode == "awsvpc"
    ensures r.Some? ==> r.value == NetworkConfiguration(subnets, false, securityGroups)
  {
    if networkMode != "awsvpc" then None
    else Some(NetworkConfiguration(subnets, false, securityGroups))
  }

  /** The arguments of an `EC2Service` that the model reads. */
  datatype ServiceArgs = ServiceArgs(
    cluster: Option<F.Cluster>,
    taskDefinition: Option<Ec2TaskDefinition>,
    taskDefinitionArgs: Option<Ec2TaskDefinitionArgs>,
    subnets: Option<seq<string>>,
    securityGroups: Option<seq<string>>)

  /** What the service hands to its base class. */
  datatype Service = Service(
    taskDefinition: Ec2TaskDefinition, launchType: string, securityGroups: seq<string>,
    networkConfiguration: Option<NetworkConfiguration>)

  /**
   * The `EC2Service` constructor: a task definition or its arguments is
   * required; the cluster defaults to the default cluster, the security
   * groups to the cluster's, the subnets to the VPC's public ones, and the
   * launch type is EC2.
   */
  function ServiceFor(args: ServiceArgs, defaultCluster: F.Cluster): (r: Result<Service>)
    ensures args.taskDefinition.None? && args.taskDefinitionArgs.None? ==> r == Fail(F.Message(F.NoTaskDefinition))
    ensures args.taskDefinition.Some? ==> r.Ok? && r.value.taskDefinition == args.taskDefinition.value
    ensures args.taskDefinition.None? && args.taskDefinitionArgs.Some? ==>
      (r.Ok? <==> Ec2TaskDefinitionFor(args.taskDefinitionArgs.value).Ok?)
    ensures r.Ok? ==> var cluster := args.cluster.GetOr(defaultCluster);
      && r.value.launchType == "EC2"
      && r.value.securityGroups == args.securityGroups.GetOr(cluster.securityGroups)
      && r.value.networkConfiguration == Ec2NetworkConfiguration(r.value.taskDefinition.networkMode,
           args.subnets.GetOr(cluster.vpc.publicSubnetIds), r.value.securityGroups)
  {
    if args.taskDefinition.None? && args.taskDefinitionArgs.None? then Fail(F.Message(F.NoTaskDefinition))
    else
      var taskDefinition :=
        if args.taskDefinition.Some? then Ok(args.taskDefinition.value)
        else Ec2TaskDefinitionFor(args.taskDefinitionArgs.value);
      if taskDefinition.Fail? then Fail(taskDefinition.error)
      else
        var cluster := args.cluster.GetOr(defaultCluster);
        var securityGroups := args.securityGroups.GetOr(cluster.securityGroups);
        var subnets := args.subnets.GetOr(cluster.vpc.publicSubnetIds);
        Ok(Service(taskDefinition.value, "EC2", securityGroups,
                   Ec2NetworkConfiguration(taskDefinition.value.networkMode, subnets, securityGroups)))
  }

  /** A service made from task-definition arguments without a network mode is on awsvpc with private addressing. */
  lemma DefaultNetworkIsAwsvpc(args: ServiceArgs, defaultCluster: F.Cluster)
    requires args.taskDefinition.None? && args.taskDefinitionArgs.Some? && args.taskDefinitionArgs.value.networkMode.None?
    requires args.taskDefinitionArgs.value.container.Some? || args.taskDefinitionArgs.value.containers.Some?
    ensures ServiceFor(args, defaultCluster).Ok?
    ensures ServiceFor(args, defaultCluster).value.networkConfiguration.Some?
    ensures !ServiceFor(args, defaultCluster).value.networkConfiguration.value.assignPublicIp
  {
  }

  /**
   * `createService` on a task definition: the caller may not pass a task
   * definition or its arguments; the service then runs this one.
   */
  function CreateService(taskDefinition: Ec2TaskDefinition, args: ServiceArgs, defaultCluster: F.Cluster): (r: Result<Service>)
    ensures args.taskDefinition.Some? ==> r == Fail(F.Message(F.TaskDefinitionGiven))
    ensures args.taskDefinition.None? && args.taskDefinitionArgs.Some? ==> r == Fail(F.Message(F.TaskDefinitionArgsGiven))
    ensures args.taskDefinition.None? && args.taskDefinitionArgs.None? ==>
      r.Ok? && r.value.taskDefinition == taskDefinition
  {
    if args.taskDefinition.Some? then Fail(F.Message(F.TaskDefinitionGiven))
    else if args.taskDefinitionArgs.Some? then Fail(F.Message(F.TaskDefinitionArgsGiven))
    else ServiceFor(args.(taskDefinition := Some(taskDefinition)), defaultCluster)
  }
}
