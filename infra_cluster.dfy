// The ECS cluster of aws-infra (nodejs/aws-infra/cluster2.ts): the cluster's
// network check and instance security group, the EFS mount targets, the
// launch-configuration and auto-scaling template defaults, and the load
// balancer a cluster builds for a service port.
module InfraCluster {
  import opened Wrappers
  import opened Text

  const NoNetwork: string := "Expected a valid Network to use for creating Cluster"
  const NoCertificate: string := "Cannot create Service for HTTPS trafic. No ACM certificate ARN configured."

  /** One ingress or egress entry of a security group. */
  datatype SecurityRule = SecurityRule(fromPort: int, toPort: int, protocol: string, cidrBlocks: seq<string>, securityGroups: seq<string>)

  /** A security group the model creates: its name, ingress and egress rules. */
  datatype SecurityGroupDesc = SecurityGroupDesc(name: string, vpcId: string, ingress: seq<SecurityRule>, egress: seq<SecurityRule>)

  /** A security group that is either the caller's or one created here. */
  datatype SecurityGroupRef = ExistingGroup(id: string) | CreatedGroup(group: SecurityGroupDesc)

  /** The part of a `Network` the cluster reads. */
  datatype Network = Network(vpcId: string, subnetIds: seq<string>, publicSubnetIds: seq<string>, usePrivateSubnets: bool)

  datatype Cluster = Cluster(name: string, network: Network, instanceSecurityGroup: SecurityGroupRef)

  const AnyIpv4: seq<string> := ["0.0.0.0/0"]

  /** The created instance group: SSH and every TCP port open to the internet, all traffic out. */
  function InstanceSecurityGroup(name: string, vpcId: string): (r: SecurityGroupDesc)
    ensures r.name == name && r.vpcId == vpcId
    ensures r.ingress == [SecurityRule(22, 22, "TCP", AnyIpv4, []), SecurityRule(0, 65535, "TCP", AnyIpv4, [])]
    ensures r.egress == [SecurityRule(0, 0, "-1", AnyIpv4, [])]
  {
    SecurityGroupDesc(name, vpcId,
      [SecurityRule(22, 22, "TCP", AnyIpv4, []), SecurityRule(0, 65535, "TCP", AnyIpv4, [])],
      [SecurityRule(0, 0, "-1", AnyIpv4, [])])
  }

  /** The `Cluster2` constructor: a network is required; the caller's instance group wins. */
  function NewCluster(name: string, network: Option<Network>, instanceSecurityGroup: Option<string>): (r: Result<Cluster>)
    ensures r.Fail? <==> network.None?
    ensures r.Fail? ==> r.error == NoNetwork
    ensures r.Ok? ==> r.value.name == name && r.value.network == network.value
    ensures r.Ok? && instanceSecurityGroup.Some? ==> r.value.instanceSecurityGroup == ExistingGroup(instanceSecurityGroup.value)
    ensures r.Ok? && instanceSecurityGroup.None? ==>
      r.value.instanceSecurityGroup == CreatedGroup(InstanceSecurityGroup(name, network.value.vpcId))
  {
    if network.None? then Fail(NoNetwork)
    else
      var group := if instanceSecurityGroup.Some? then ExistingGroup(instanceSecurityGroup.value)
                   else CreatedGroup(InstanceSecurityGroup(name, network.value.vpcId));
      Ok(Cluster(name, network.value, group))
  }

  /** The id the cluster's other resources use for its instance group. */
  function InstanceGroupId(cluster: Cluster): string
  {
    GroupId(cluster.instanceSecurityGroup)
  }

  /** An EFS mount target: its resource name, subnet and security group. */
  datatype MountTarget = MountTarget(name: string, subnetId: string, securityGroupId: string)

  datatype FileSystem = FileSystem(name: string, securityGroup: SecurityGroupRef, mountTargets: seq<MountTarget>)

  /** The created EFS group: NFS (2049) from the cluster's instance group. */
  function FileSystemSecurityGroup(name: string, cluster: Cluster): (r: SecurityGroupDesc)
    ensures r.name == name + "-fs" && r.vpcId == cluster.network.vpcId && r.egress == []
    ensures r.ingress == [SecurityRule(2049, 2049, "TCP", [], [InstanceGroupId(cluster)])]
  {
    SecurityGroupDesc(name + "-fs", cluster.network.vpcId, [SecurityRule(2049, 2049, "TCP", [], [InstanceGroupId(cluster)])], [])
  }

  /** The name of the `i`th mount target. */
  function MountTargetName(name: string, i: nat): string
  {
    name + "-" + NatToString(i)
  }

  /** Two mount targets of one file system never share a name. */
  lemma MountTargetNamesDistinct(name: string, i: nat, j: nat)
    requires i != j
    ensures MountTargetName(name, i) != MountTargetName(name, j)
  {
    if MountTargetName(name, i) == MountTargetName(name, j) {
      var prefix := name + "-";
      assert MountTargetName(name, i)[|prefix|..] == NatToString(i);
      assert MountTargetName(name, j)[|prefix|..] == NatToString(j);
      NatToStringInjective(i, j);
    }
  }

  /**
   * `createFileSystem`: the caller's group or a new `${name}-fs` group, and
   * one mount target per subnet (the caller's subnets, else the network's),
   * the `i`th named `${name}-${i}`.
   */
  method CreateFileSystem(cluster: Cluster, name: string, securityGroup: Option<string>, subnetIds: Option<seq<string>>)
    returns (fs: FileSystem)
    ensures fs.name == name
    ensures securityGroup.Some? ==> fs.securityGroup == ExistingGroup(securityGroup.value)
    ensures securityGroup.None? ==> fs.securityGroup == CreatedGroup(FileSystemSecurityGroup(name, cluster))
    ensures var subnets := subnetIds.GetOr(cluster.network.subnetIds);
      |fs.mountTargets| == |subnets|
      && forall i :: 0 <= i < |subnets| ==>
           fs.mountTargets[i] == MountTarget(MountTargetName(name, i), subnets[i], GroupId(fs.securityGroup))
  {
    var group := if securityGroup.Some? then ExistingGroup(securityGroup.value)
                 else CreatedGroup(FileSystemSecurityGroup(name, cluster));
    var groupId := GroupId(group);
    var subnets := subnetIds.GetOr(cluster.network.subnetIds);
    var targets: seq<MountTarget> := [];
    var i := 0;
    while i < |subnets|
      invariant 0 <= i <= |subnets|
      invariant |targets| == i
      invariant forall k :: 0 <= k < i ==> targets[k] == MountTarget(MountTargetName(name, k), subnets[k], groupId)
    {
      targets := targets + [MountTarget(MountTargetName(name, i), subnets[i], groupId)];
      i := i + 1;
    }
    fs := FileSystem(name, group, targets);
  }

  /** The id a security group is referred to by: the caller's id, or the created group's name. */
  function GroupId(group: SecurityGroupRef): string
  {
    match group
    case ExistingGroup(id) => id
    case CreatedGroup(desc) => desc.name
  }

  /** A file system's mount targets have pairwise distinct names. */
  lemma MountTargetsDistinct(fs: FileSystem, name: string)
    requires forall i :: 0 <= i < |fs.mountTargets| ==> fs.mountTargets[i].name == MountTargetName(name, i)
    ensures forall i, j :: 0 <= i < j < |fs.mountTargets| ==> fs.mountTargets[i].name != fs.mountTargets[j].name
  {
    forall i, j | 0 <= i < j < |fs.mountTargets|
      ensures fs.mountTargets[i].name != fs.mountTargets[j].name
    {
      MountTargetNamesDistinct(name, i, j);
    }
  }

  /** The parameters of the auto-scaling group's CloudFormation template. */
  datatype TemplateParameters = TemplateParameters(minSize: Option<int>, maxSize: Option<int>)

  /** The settings the template text carries. */
  datatype AutoScalingTemplate = AutoScalingTemplate(
    instanceName: string,
    launchConfigurationId: string,
    subnetIds: seq<string>,
    cooldown: int,
    desiredCapacity: int,
    healthCheckGracePeriod: int,
    healthCheckType: string,
    minSize: int,
    maxSize: int,
    signalCount: int,
    minInstancesInService: int,
    maxBatchSize: int,
    suspendProcesses: seq<string>)

  /**
   * `getCloudFormationTemplate`: sizes default to 2 and 100, and the
   * desired capacity, the creation signal count and the instances kept in
   * service during a rolling update all equal the minimum size.
   */
  function CloudFormationTemplate(instanceName: string, launchConfigurationId: string, subnetIds: seq<string>,
                                  params: TemplateParameters): (r: AutoScalingTemplate)
    ensures r.minSize == params.minSize.GetOr(2) && r.maxSize == params.maxSize.GetOr(100)
    ensures r.desiredCapacity == r.minSize && r.signalCount == r.minSize && r.minInstancesInService == r.minSize
    ensures r.cooldown == 300 && r.healthCheckGracePeriod == 120 && r.healthCheckType == "EC2" && r.maxBatchSize == 1
    ensures r.suspendProcesses == ["ScheduledActions"]
    ensures r.instanceName == instanceName && r.launchConfigurationId == launchConfigurationId && r.subnetIds == subnetIds
  {
    var minSize := params.minSize.GetOr(2);
    var maxSize := params.maxSize.GetOr(100);
    AutoScalingTemplate(instanceName, launchConfigurationId, subnetIds, 300, minSize, 120, "EC2", minSize, maxSize,
                        minSize, minSize, 1, ["ScheduledActions"])
  }

  /** A block device of the launch configuration. */
  datatype BlockDevice = BlockDevice(deviceName: Option<string>, volumeSize: int, volumeType: string, deleteOnTermination: bool)

  const DefaultRootBlockDevice: BlockDevice := BlockDevice(None, 8, "gp2", true)
  const DefaultEbsBlockDevices: seq<BlockDevice> :=
    [BlockDevice(Some("/dev/xvdb"), 5, "gp2", true), BlockDevice(Some("/dev/xvdcz"), 50, "gp2", true)]

  /** The launch-configuration arguments the cluster fills in. */
  datatype LaunchConfigurationArgs = LaunchConfigurationArgs(
    instanceType: Option<string>,
    enableMonitoring: Option<bool>,
    placementTenancy: Option<string>,
    rootBlockDevice: Option<BlockDevice>,
    ebsBlockDevices: Option<seq<BlockDevice>>,
    securityGroups: Option<seq<string>>)

  datatype LaunchConfiguration = LaunchConfiguration(
    instanceType: string,
    enableMonitoring: bool,
    placementTenancy: string,
    rootBlockDevice: BlockDevice,
    ebsBlockDevices: seq<BlockDevice>,
    securityGroups: seq<string>)

  /** `t || fallback` on a string: the empty string counts as missing. */
  function StringOr(s: Option<string>, fallback: string): (r: string)
    ensures r == fallback <== s.None? || s == Some("")
    ensures s.Some? && s.value != "" ==> r == s.value
  {
    if s.Some? && s.value != "" then s.value else fallback
  }

  /**
   * `createAutoScalingConfig`'s launch configuration: t2.micro, monitoring
   * on unless given, tenancy "default", the default disks, and the
   * cluster's instance group.
   */
  function LaunchConfigurationFor(cluster: Cluster, args: LaunchConfigurationArgs): (r: LaunchConfiguration)
    ensures r.instanceType == StringOr(args.instanceType, "t2.micro")
    ensures r.enableMonitoring == args.enableMonitoring.GetOr(true)
    ensures r.placementTenancy == StringOr(args.placementTenancy, "default")
    ensures r.rootBlockDevice == args.rootBlockDevice.GetOr(DefaultRootBlockDevice)
    ensures r.ebsBlockDevices == args.ebsBlockDevices.GetOr(DefaultEbsBlockDevices)
    ensures r.securityGroups == args.securityGroups.GetOr([InstanceGroupId(cluster)])
  {
    LaunchConfiguration(
      StringOr(args.instanceType, "t2.micro"),
      args.enableMonitoring.GetOr(true),
      StringOr(args.placementTenancy, "default"),
      args.rootBlockDevice.GetOr(DefaultRootBlockDevice),
      args.ebsBlockDevices.GetOr(DefaultEbsBlockDevices),
      args.securityGroups.GetOr([InstanceGroupId(cluster)]))
  }

  /** The protocols and load-balancer kind a service port asks for. */
  datatype LoadBalancerInfo = LoadBalancerInfo(
    listenerProtocol: string,
    targetProtocol: string,
    useAppLoadBalancer: bool,
    certificateArn: Option<string>)

  function UnrecognizedProtocol(protocol: string): string
  {
    "Unrecognized Service protocol: " + protocol
  }

  /** The protocol after `protocol || "tcp"`. */
  function ServiceProtocol(protocol: Option<string>): string
  {
    StringOr(protocol, "tcp")
  }

  /**
   * `computeLoadBalancerInfo`: https (which needs a certificate) listens on
   * HTTPS and forwards HTTP through an application load balancer; http uses
   * HTTP both ways on one; tcp, the default, uses TCP on a network load
   * balancer; anything else is refused.
   */
  function ComputeLoadBalancerInfo(protocol: Option<string>, certificateArn: Option<string>): (r: Result<LoadBalancerInfo>)
    ensures var p := ServiceProtocol(protocol);
      r.Ok? <==> p == "tcp" || p == "http" || (p == "https" && certificateArn.Some? && certificateArn.value != "")
    ensures ServiceProtocol(protocol) == "https" && r.Fail? ==> r.error == NoCertificate
    ensures var p := ServiceProtocol(protocol);
      p != "https" && p != "http" && p != "tcp" ==> r == Fail(UnrecognizedProtocol(p))
    ensures r.Ok? && ServiceProtocol(protocol) == "https" ==>
      r.value == LoadBalancerInfo("HTTPS", "HTTP", true, certificateArn)
    ensures r.Ok? && ServiceProtocol(protocol) == "http" ==> r.value == LoadBalancerInfo("HTTP", "HTTP", true, None)
    ensures r.Ok? && ServiceProtocol(protocol) == "tcp" ==> r.value == LoadBalancerInfo("TCP", "TCP", false, None)
  {
    match ServiceProtocol(protocol)
    case "https" =>
      if certificateArn.None? || certificateArn.value == "" then Fail(NoCertificate)
      else Ok(LoadBalancerInfo("HTTPS", "HTTP", true, certificateArn))
    case "http" => Ok(LoadBalancerInfo("HTTP", "HTTP", true, None))
    case "tcp" => Ok(LoadBalancerInfo("TCP", "TCP", false, None))
    case other => Fail(UnrecognizedProtocol(other))
  }

  /**
   * What any accepted protocol yields: an application load balancer exactly
   * when the listener is not TCP, SSL terminated at the balancer (the target
   * speaks the listener's protocol unless that is HTTPS, and then HTTP), and
   * a certificate exactly for HTTPS.
   */
  lemma LoadBalancerInfoConsistent(protocol: Option<string>, certificateArn: Option<string>)
    requires ComputeLoadBalancerInfo(protocol, certificateArn).Ok?
    ensures var info := ComputeLoadBalancerInfo(protocol, certificateArn).value;
      (info.useAppLoadBalancer <==> info.listenerProtocol != "TCP")
      && (info.listenerProtocol == "HTTPS" ==> info.targetProtocol == "HTTP")
      && (info.listenerProtocol != "HTTPS" ==> info.targetProtocol == info.listenerProtocol)
      && (info.certificateArn.Some? <==> info.listenerProtocol == "HTTPS")
      && (info.certificateArn.Some? ==> info.certificateArn.value != "")
  {
  }

  /** The ELB load balancer a service port gets. */
  datatype LoadBalancerDesc = LoadBalancerDesc(
    resourceName: string,
    loadBalancerType: string,
    subnets: seq<string>,
    internal: bool,
    securityGroups: Option<seq<string>>,
    nameTag: string)

  datatype TargetGroupDesc = TargetGroupDesc(
    resourceName: string,
    port: int,
    protocol: string,
    vpcId: string,
    deregistrationDelay: int,
    nameTag: string,
    targetType: string)

  /** A listener forwarding everything to its target group. */
  datatype ListenerDesc = ListenerDesc(
    resourceName: string,
    protocol: string,
    certificateArn: Option<string>,
    port: int,
    forwardTo: string,
    sslPolicy: Option<string>)

  /** The recommended ELB policy put on listeners that terminate SSL. */
  const SslPolicy: string := "ELBSecurityPolicy-2016-08"

  /** A service port's load balancer, target group and listener. */
  datatype PortLoadBalancer = PortLoadBalancer(loadBalancer: LoadBalancerDesc, targetGroup: TargetGroupDesc, listener: ListenerDesc)

  /** `${name}-${port}`, the name tag of every resource built for a port. */
  function LongName(name: string, port: int): string
  {
    name + "-" + IntToString(port)
  }

  /** `targetPort || port`: a zero target port counts as missing. */
  function TargetPort(port: int, targetPort: Option<int>): (r: int)
    ensures targetPort.Some? && targetPort.value != 0 ==> r == targetPort.value
    ensures targetPort.None? || targetPort == Some(0) ==> r == port
  {
    if targetPort.Some? && targetPort.value != 0 then targetPort.value else port
  }

  /** `usePrivateSubnets && !external`: only an explicit `external: true` makes the balancer public. */
  function Internal(usePrivateSubnets: bool, external: Option<bool>): (r: bool)
    ensures r <==> usePrivateSubnets && external != Some(true)
  {
    usePrivateSubnets && !external.GetOr(false)
  }

  /**
   * The resources for one exposed port, shared by `ClusterLoadBalancer` and
   * `PortInfoLoadBalancer`: a load balancer named by the hash of
   * `${name}-${port}` in the public subnets, a target group on the target
   * port and a listener on the port forwarding to it.
   */
  function PortResources(name: string, port: int, targetPort: Option<int>, external: Option<bool>,
                         info: LoadBalancerInfo, network: Network, appSecurityGroups: seq<string>,
                         hash: string -> string): (r: PortLoadBalancer)
    ensures r.loadBalancer.resourceName == hash(LongName(name, port)) && r.loadBalancer.nameTag == LongName(name, port)
    ensures r.loadBalancer.loadBalancerType == (if info.useAppLoadBalancer then "application" else "network")
    ensures r.loadBalancer.subnets == network.publicSubnetIds
    ensures r.loadBalancer.internal == Internal(network.usePrivateSubnets, external)
    ensures r.loadBalancer.securityGroups == (if info.useAppLoadBalancer then Some(appSecurityGroups) else None)
    ensures r.targetGroup == TargetGroupDesc(hash(LongName(name, port)), TargetPort(port, targetPort), info.targetProtocol,
                                             network.vpcId, 180, LongName(name, port), "ip")
    ensures r.listener.resourceName == LongName(name, port) && r.listener.port == port
    ensures r.listener.protocol == info.listenerProtocol && r.listener.certificateArn == info.certificateArn
    ensures r.listener.forwardTo == r.targetGroup.resourceName
    ensures r.listener.sslPolicy.Some? <==> info.certificateArn.Some? && info.certificateArn.value != ""
    ensures r.listener.sslPolicy.Some? ==> r.listener.sslPolicy.value == SslPolicy
  {
    var longName := LongName(name, port);
    var shortName := hash(longName);
    var loadBalancer := LoadBalancerDesc(shortName, if info.useAppLoadBalancer then "application" else "network",
      network.publicSubnetIds, Internal(network.usePrivateSubnets, external),
      if info.useAppLoadBalancer then Some(appSecurityGroups) else None, longName);
    var targetGroup := TargetGroupDesc(shortName, TargetPort(port, targetPort), info.targetProtocol, network.vpcId, 180, longName, "ip");
    var ssl := if info.certificateArn.Some? && info.certificateArn.value != "" then Some(SslPolicy) else None;
    var listener := ListenerDesc(longName, info.listenerProtocol, info.certificateArn, port, shortName, ssl);
    PortLoadBalancer(loadBalancer, targetGroup, listener)
  }

  /** The arguments of `createLoadBalancer`. */
  datatype ClusterLoadBalancerArgs = ClusterLoadBalancerArgs(
    port: int, targetPort: Option<int>, external: Option<bool>, protocol: Option<string>, certificateArn: Option<string>)

  /** `ClusterLoadBalancer`: the port's resources, grouped by the cluster's own instance group. */
  function NewClusterLoadBalancer(name: string, cluster: Cluster, args: ClusterLoadBalancerArgs, hash: string -> string)
    : (r: Result<PortLoadBalancer>)
    ensures r.Ok? <==> ComputeLoadBalancerInfo(args.protocol, args.certificateArn).Ok?
    ensures r.Fail? ==> r.error == ComputeLoadBalancerInfo(args.protocol, args.certificateArn).error
    ensures r.Ok? ==> r.value == PortResources(name, args.port, args.targetPort, args.external,
      ComputeLoadBalancerInfo(args.protocol, args.certificateArn).value, cluster.network, [InstanceGroupId(cluster)], hash)
  {
    var info := ComputeLoadBalancerInfo(args.protocol, args.certificateArn);
    if info.Fail? then Fail(info.error)
    else Ok(PortResources(name, args.port, args.targetPort, args.external, info.value, cluster.network,
                          [InstanceGroupId(cluster)], hash))
  }

  /**
   * A cluster load balancer terminates SSL exactly when the service asked for
   * https: the listener then carries the certificate and the recommended
   * policy while the target group speaks plain HTTP.
   */
  lemma ClusterLoadBalancerSsl(name: string, cluster: Cluster, args: ClusterLoadBalancerArgs, hash: string -> string)
    requires NewClusterLoadBalancer(name, cluster, args, hash).Ok?
    ensures var lb := NewClusterLoadBalancer(name, cluster, args, hash).value;
      (lb.listener.sslPolicy == Some(SslPolicy) <==> ServiceProtocol(args.protocol) == "https")
      && (lb.listener.sslPolicy.Some? ==> lb.listener.certificateArn == args.certificateArn && lb.targetGroup.protocol == "HTTP")
      && (lb.loadBalancer.securityGroups.Some? <==> lb.loadBalancer.loadBalancerType == "application")
  {
    LoadBalancerInfoConsistent(args.protocol, args.certificateArn);
  }
}
