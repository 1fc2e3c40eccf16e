// The load balancers of aws-infra's experimental ECS layer
// (nodejs/aws-infra/experimental/ecs/loadBalancer.ts): port mappings and
// container load-balancer entries from existing target groups, and the
// balancer, target group and listener built for a service port.
module InfraEcsLoadBalancer {
  import opened Wrappers
  import C = InfraCluster
  import opened EcsTypes

  /** An existing target group and the container port it reaches. */
  datatype TargetGroupInfo = TargetGroupInfo(targetGroupArn: string, containerPort: int, hostPort: Option<int>)

  /** An entry of a service's `loadBalancers`. */
  datatype ContainerLoadBalancer = ContainerLoadBalancer(targetGroupArn: string, containerPort: int)

  /** `TargetGroupInfosLoadBalancer.portMappings`: the host port defaults to the container port. */
  function InfoPortMappings(infos: seq<TargetGroupInfo>): (r: seq<PortMapping>)
    ensures |r| == |infos|
    ensures forall i :: 0 <= i < |infos| ==>
      r[i] == PortMapping(infos[i].containerPort, Some(infos[i].hostPort.GetOr(infos[i].containerPort)))
  {
    seq(|infos|, i requires 0 <= i < |infos| =>
      PortMapping(infos[i].containerPort, Some(infos[i].hostPort.GetOr(infos[i].containerPort))))
  }

  /** `TargetGroupInfosLoadBalancer.loadBalancers`: each target group with its container port, in order. */
  function InfoLoadBalancers(infos: seq<TargetGroupInfo>): (r: seq<ContainerLoadBalancer>)
    ensures |r| == |infos|
    ensures forall i :: 0 <= i < |infos| ==>
      r[i] == ContainerLoadBalancer(infos[i].targetGroupArn, infos[i].containerPort)
  {
    seq(|infos|, i requires 0 <= i < |infos| => ContainerLoadBalancer(infos[i].targetGroupArn, infos[i].containerPort))
  }

  /**
   * The two views agree: the `i`th port mapping and the `i`th load-balancer
   * entry name the same container port, and every host port is set.
   */
  lemma InfoViewsAgree(infos: seq<TargetGroupInfo>)
    ensures |InfoPortMappings(infos)| == |InfoLoadBalancers(infos)|
    ensures forall i :: 0 <= i < |infos| ==>
      InfoPortMappings(infos)[i].containerPort == InfoLoadBalancers(infos)[i].containerPort
      && InfoPortMappings(infos)[i].hostPort.Some?
  {
  }

  /** A service port to expose, with the cluster it is exposed from. */
  datatype PortInfo = PortInfo(
    port: int, targetPort: Option<int>, external: Option<bool>, protocol: Option<string>, certificateArn: Option<string>)

  /** The part of an ECS cluster the port's load balancer reads. */
  datatype EcsCluster = EcsCluster(network: C.Network, securityGroupIds: seq<string>)

  /** A `PortInfoLoadBalancer`: the resources and the two views a service reads. */
  datatype PortInfoLoadBalancer = PortInfoLoadBalancer(
    resources: C.PortLoadBalancer,
    portMappings: seq<PortMapping>,
    loadBalancers: seq<ContainerLoadBalancer>)

  /**
   * `PortInfoLoadBalancer`: the shared protocol rules and per-port
   * resources, with the cluster's security groups on an application load
   * balancer; the container listens on `targetPort || port`.
   */
  function NewPortInfoLoadBalancer(name: string, cluster: EcsCluster, portInfo: PortInfo, hash: string -> string)
    : (r: Result<PortInfoLoadBalancer>)
    ensures r.Ok? <==> C.ComputeLoadBalancerInfo(portInfo.protocol, portInfo.certificateArn).Ok?
    ensures r.Fail? ==> r.error == C.ComputeLoadBalancerInfo(portInfo.protocol, portInfo.certificateArn).error
    ensures r.Ok? ==> r.value.resources == C.PortResources(name, portInfo.port, portInfo.targetPort, portInfo.external,
      C.ComputeLoadBalancerInfo(portInfo.protocol, portInfo.certificateArn).value, cluster.network,
      cluster.securityGroupIds, hash)
    ensures r.Ok? ==> r.value.portMappings == [PortMapping(C.TargetPort(portInfo.port, portInfo.targetPort), None)]
    ensures r.Ok? ==> (r.value.loadBalancers ==
      [ContainerLoadBalancer(r.value.resources.targetGroup.resourceName, C.TargetPort(portInfo.port, portInfo.targetPort))])
  {
    var info := C.ComputeLoadBalancerInfo(portInfo.protocol, portInfo.certificateArn);
    if info.Fail? then Fail(info.error)
    else
      var resources := C.PortResources(name, portInfo.port, portInfo.targetPort, portInfo.external, info.value,
                                       cluster.network, cluster.securityGroupIds, hash);
      var containerPort := C.TargetPort(portInfo.port, portInfo.targetPort);
      Ok(PortInfoLoadBalancer(resources, [PortMapping(containerPort, None)],
                              [ContainerLoadBalancer(resources.targetGroup.resourceName, containerPort)]))
  }

  /**
   * The container port a port-info load balancer advertises is the port its
   * target group sends to, and the load-balancer entry names that group.
   */
  lemma PortInfoTargetsItsGroup(name: string, cluster: EcsCluster, portInfo: PortInfo, hash: string -> string)
    requires NewPortInfoLoadBalancer(name, cluster, portInfo, hash).Ok?
    ensures var lb := NewPortInfoLoadBalancer(name, cluster, portInfo, hash).value;
      |lb.portMappings| == 1 && |lb.loadBalancers| == 1
      && lb.portMappings[0].containerPort == lb.resources.targetGroup.port
      && lb.loadBalancers[0].containerPort == lb.resources.targetGroup.port
      && lb.loadBalancers[0].targetGroupArn == lb.resources.listener.forwardTo
  {
  }
}
