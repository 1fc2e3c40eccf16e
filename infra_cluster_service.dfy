// The cluster service of aws-infra's cluster module
// (nodejs/aws-infra/clusterMod/clusterService.ts): the load balancer of the
// task definition's single load-balanced container, the service defaults,
// and the dependency on the cluster's auto-scaling group.
module InfraClusterService {
  import opened Wrappers
  import T = InfraClusterTaskDefinition
  import S = EcsService

  /** `targetPort || port`: a missing or zero target port falls back to the port. */
  function ContainerPort(loadBalancerPort: T.ClusterLoadBalancerPort): (r: int)
    ensures loadBalancerPort.targetPort.Some? && loadBalancerPort.targetPort.value != 0 ==> r == loadBalancerPort.targetPort.value
    ensures loadBalancerPort.targetPort.None? || loadBalancerPort.targetPort.value == 0 ==> r == loadBalancerPort.port
  {
    if loadBalancerPort.targetPort.Some? && loadBalancerPort.targetPort.value != 0 then loadBalancerPort.targetPort.value
    else loadBalancerPort.port
  }

  /**
   * `createLoadBalancers`: nothing without a load balancer, else the one
   * entry for the single container with a load-balancer port, sending
   * traffic to the balancer's target group. A task definition built by the
   * constructor has its load balancer exactly for that container.
   */
  method CreateLoadBalancers(taskDefinition: T.ClusterTaskDefinition, targetGroupArn: string)
    returns (r: seq<S.ServiceLoadBalancer>)
    requires taskDefinition.loadBalancerContainer.Some? ==>
      T.PortHolders(taskDefinition.containers) == [taskDefinition.loadBalancerContainer.value]
    ensures taskDefinition.loadBalancerContainer.None? ==> r == []
    ensures taskDefinition.loadBalancerContainer.Some? ==>
      var (name, container) := taskDefinition.loadBalancerContainer.value;
      r == [S.ServiceLoadBalancer(name, ContainerPort(container.loadBalancerPort.value), None, Some(targetGroupArn))]
  {
    if taskDefinition.loadBalancerContainer.None? {
      return [];
    }
    var single := T.SingleContainerWithLoadBalancerPort(taskDefinition.containers);
    var (containerName, container) := single.value.value;
    var loadBalancerPort := container.loadBalancerPort.value;
    r := [S.ServiceLoadBalancer(containerName, ContainerPort(loadBalancerPort), None, Some(targetGroupArn))];
  }

  /** `opts.dependsOn`: absent, a single resource, or an array of resources. */
  datatype DependsOn = One(resource: string) | Many(resources: seq<string>)

  /** The part of the resource options the constructor may change. */
  class ResourceOptions {
    var dependsOn: Option<DependsOn>

    constructor(dependsOn: Option<DependsOn>)
      ensures this.dependsOn == dependsOn
    {
      this.dependsOn := dependsOn;
    }

    /** The resources depended on, as a list. */
    function DependsOnList(): (r: seq<string>)
      reads this
      ensures dependsOn.None? ==> r == []
      ensures dependsOn.Some? && dependsOn.value.One? ==> r == [dependsOn.value.resource]
    {
      if dependsOn.None? then []
      else if dependsOn.value.One? then [dependsOn.value.resource]
      else dependsOn.value.resources
    }

    /** Appends an auto-scaling group, turning a single dependency or none into an array first. */
    method AddDependency(group: string)
      modifies this
      ensures dependsOn == Some(Many(old(DependsOnList()) + [group]))
      ensures DependsOnList() == old(DependsOnList()) + [group]
    {
      var list := DependsOnList();
      dependsOn := Some(Many(list + [group]));
    }
  }

  /** The caller's service arguments the constructor reads. */
  datatype ClusterServiceArgs = ClusterServiceArgs(
    taskDefinition: T.ClusterTaskDefinition, desiredCount: Option<int>, launchType: Option<string>,
    waitForSteadyState: Option<bool>, autoScalingGroup: Option<string>)

  /** The service's settings. */
  datatype ServiceSettings = ServiceSettings(
    loadBalancers: seq<S.ServiceLoadBalancer>, desiredCount: int, launchType: string, waitForSteadyState: bool)

  /**
   * The `ClusterService` constructor: desired count 1 unless given (0 is
   * kept), launch type EC2 unless given and non-empty, waiting for a steady
   * state unless told otherwise, and a dependency on the auto-scaling group
   * appended to the caller's options when there is one.
   */
  method NewClusterService(args: ClusterServiceArgs, targetGroupArn: string, opts: ResourceOptions)
    returns (settings: ServiceSettings)
    requires args.taskDefinition.loadBalancerContainer.Some? ==>
      T.PortHolders(args.taskDefinition.containers) == [args.taskDefinition.loadBalancerContainer.value]
    modifies opts
    ensures |settings.loadBalancers| <= 1
    ensures settings.loadBalancers == [] <==> args.taskDefinition.loadBalancerContainer.None?
    ensures settings.desiredCount == args.desiredCount.GetOr(1)
    ensures args.launchType.Some? && args.launchType.value != "" ==> settings.launchType == args.launchType.value
    ensures args.launchType.None? || args.launchType.value == "" ==> settings.launchType == "EC2"
    ensures settings.waitForSteadyState == args.waitForSteadyState.GetOr(true)
    ensures args.autoScalingGroup.Some? ==> opts.DependsOnList() == old(opts.DependsOnList()) + [args.autoScalingGroup.value]
    ensures args.autoScalingGroup.None? ==> opts.dependsOn == old(opts.dependsOn)
  {
    var loadBalancers := CreateLoadBalancers(args.taskDefinition, targetGroupArn);
    var launchType := if args.launchType.Some? && args.launchType.value != "" then args.launchType.value else "EC2";
    settings := ServiceSettings(loadBalancers, args.desiredCount.GetOr(1), launchType, args.waitForSteadyState.GetOr(true));
    if args.autoScalingGroup.Some? {
      opts.AddDependency(args.autoScalingGroup.value);
    }
  }
}
