// The capacity-provider service of the classic SDK
// (sdk/nodejs/classic/ecs/capacityProviderService.ts): a Fargate task is
// networked as a Fargate service is, an EC2 task as an EC2 service is.
module ClassicCapacityProviderService {
  import opened Wrappers
  import F = AwsxFargateService
  import E = AwsxEc2Service

  /** The task definition of the service: a Fargate one or an EC2 one. */
  datatype TaskDefinition = FargateTask(fargate: F.TaskDefinition) | Ec2Task(ec2: E.Ec2TaskDefinition)

  /** The arguments of a `CapacityProviderService` that the model reads. */
  datatype ServiceArgs = ServiceArgs(
    cluster: Option<F.Cluster>, taskDefinition: Option<TaskDefinition>, assignPublicIp: Option<bool>,
    subnets: Option<seq<string>>, securityGroups: Option<seq<string>>)

  /** What the service hands to its base class. */
  datatype Service = Service(
    taskDefinition: TaskDefinition, securityGroups: seq<string>, networkConfiguration: Option<E.NetworkConfiguration>)

  const NoTaskDefinition: string := "The [taskDefinition] must be provided"

  /**
   * The constructor: a task definition is required; a Fargate task gets a
   * public IP unless told otherwise and subnets chosen by `getSubnets`,
   * always with a network configuration; an EC2 task gets none, subnets
   * defaulting to the public ones, and a configuration only under awsvpc.
   */
  method NewCapacityProviderService(args: ServiceArgs, defaultCluster: F.Cluster) returns (r: Result<Service>)
    ensures r.Fail? <==> args.taskDefinition.None?
    ensures r.Fail? ==> r.error == NoTaskDefinition
    ensures r.Ok? ==> var cluster := args.cluster.GetOr(defaultCluster);
      && r.value.taskDefinition == args.taskDefinition.value
      && r.value.securityGroups == args.securityGroups.GetOr(cluster.securityGroups)
    ensures r.Ok? && args.taskDefinition.value.FargateTask? ==>
      var cluster := args.cluster.GetOr(defaultCluster);
      var assignPublicIp := args.assignPublicIp.GetOr(true);
      r.value.networkConfiguration == Some(E.NetworkConfiguration(
        F.GetSubnets(cluster.vpc, args.subnets, assignPublicIp), assignPublicIp, r.value.securityGroups))
    ensures r.Ok? && args.taskDefinition.value.Ec2Task? ==>
      var cluster := args.cluster.GetOr(defaultCluster);
      r.value.networkConfiguration == E.Ec2NetworkConfiguration(args.taskDefinition.value.ec2.networkMode,
        args.subnets.GetOr(cluster.vpc.publicSubnetIds), r.value.securityGroups)
  {
    if args.taskDefinition.None? {
      return Fail(NoTaskDefinition);
    }
    var cluster := args.cluster.GetOr(defaultCluster);
    var taskDefinition := args.taskDefinition.value;
    var securityGroups := args.securityGroups.GetOr(cluster.securityGroups);
    var assignPublicIp: bool;
    var subnets: seq<string>;
    var networkConfiguration: Option<E.NetworkConfiguration>;
    if taskDefinition.FargateTask? {
      assignPublicIp := args.assignPublicIp.GetOr(true);
      subnets := F.GetSubnets(cluster.vpc, args.subnets, assignPublicIp);
      networkConfiguration := Some(E.NetworkConfiguration(subnets, assignPublicIp, securityGroups));
    } else {
      assignPublicIp := false;
      subnets := args.subnets.GetOr(cluster.vpc.publicSubnetIds);
      networkConfiguration := E.Ec2NetworkConfiguration(taskDefinition.ec2.networkMode, subnets, securityGroups);
    }
    r := Ok(Service(taskDefinition, securityGroups, networkConfiguration));
  }

  /**
   * The network a Fargate task gets here is the one the Fargate service
   * computes for the same arguments, and an EC2 task's is the EC2
   * service's.
   */
  lemma NetworkMatchesServices(args: ServiceArgs, defaultCluster: F.Cluster)
    requires args.taskDefinition.Some?
    ensures args.taskDefinition.value.FargateTask? ==>
      var fargate := F.ServiceFor(F.ServiceArgs(args.cluster, Some(args.taskDefinition.value.fargate), None,
                                                args.assignPublicIp, args.subnets, args.securityGroups), defaultCluster);
      fargate.Ok? && fargate.value.subnets == F.GetSubnets(args.cluster.GetOr(defaultCluster).vpc, args.subnets, args.assignPublicIp.GetOr(true))
      && fargate.value.assignPublicIp == args.assignPublicIp.GetOr(true)
    ensures args.taskDefinition.value.Ec2Task? ==>
      var ec2 := E.ServiceFor(E.ServiceArgs(args.cluster, Some(args.taskDefinition.value.ec2), None,
                                            args.subnets, args.securityGroups), defaultCluster);
      var cluster := args.cluster.GetOr(defaultCluster);
      ec2.Ok? && ec2.value.networkConfiguration == E.Ec2NetworkConfiguration(args.taskDefinition.value.ec2.networkMode,
        args.subnets.GetOr(cluster.vpc.publicSubnetIds), args.securityGroups.GetOr(cluster.securityGroups))
  {
  }
}
