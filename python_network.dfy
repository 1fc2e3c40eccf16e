// The `Network` component of the Python package (pulumi_aws_infra/network.py):
// attaching to an existing VPC, or building a VPC of one to four zones with
// the fixed 10.10.x.0/24 layout, and the lazily created default network.
// Ids of created resources are references to those resources by name.
module PythonNetwork {
  import opened Wrappers
  import opened Text
  import opened LegacyNetwork

  /** The errors the component raises: the first three and the last four are TypeErrors, the fourth a RunError. */
  datatype NetworkError =
    | SubnetIdsNone
    | SecurityGroupIdsNone
    | PublicSubnetIdsNone
    | UnsupportedZoneCount(count: int)
    | VpcIdNotProvided
    | SubnetIdsNotProvided
    | SecurityGroupIdsNotProvided
    | PublicSubnetIdsNotProvided

  /** The text of an error. */
  function Message(e: NetworkError): string
  {
    match e
      case SubnetIdsNone => "subnet_ids argument must not be None"
      case SecurityGroupIdsNone => "security_group_ids must not be None"
      case PublicSubnetIdsNone => "public_subnet_ids argument must not be None"
      case UnsupportedZoneCount(n) => "Unsupported number of available zones for Network: " + IntToString(n)
      case VpcIdNotProvided => "vpc_id argument must be provided"
      case SubnetIdsNotProvided => "subnet_ids argument must be provided"
      case SecurityGroupIdsNotProvided => "security_group_ids must be provided"
      case PublicSubnetIdsNotProvided => "public_subnet_ids argument must be provided"
  }

  /** The keyword arguments of `Network(...)`; `None` is an omitted argument. */
  datatype NetworkArgs = NetworkArgs(
    numberOfAvailabilityZones: Option<int>,
    usePrivateSubnets: Option<bool>,
    vpcId: Option<string>,
    subnetIds: Option<seq<string>>,
    securityGroupIds: Option<seq<string>>,
    publicSubnetIds: Option<seq<string>>)

  /**
   * `number_of_availability_zones or 2`, checked against [1, 4]: an omitted
   * or zero count means two zones, any other count is kept, and a count
   * outside one to four is refused with the count in the message.
   */
  function ZoneCount(requested: Option<int>): (r: Result<nat>)
    ensures (requested.None? || requested.value == 0) ==> r == Ok(2)
    ensures (requested.Some? && requested.value != 0) ==>
      (r.Ok? <==> 1 <= requested.value <= 4) && (r.Ok? ==> r.value == requested.value)
    ensures r.Fail? ==> r.error == Message(UnsupportedZoneCount(requested.value))
    ensures r.Ok? ==> 1 <= r.value <= 4
  {
    var n := if requested.None? || requested.value == 0 then 2 else requested.value;
    if n < 1 || n > 4 then Fail(Message(UnsupportedZoneCount(n))) else Ok(n)
  }

  /**
   * The checks on an existing network's arguments: every list must be
   * given, and the first one missing, in the order subnets, security groups,
   * public subnets, names the error.
   */
  function CheckExisting(args: NetworkArgs): (r: Outcome)
    ensures r.Pass? <==> (args.subnetIds.Some? && args.securityGroupIds.Some? && args.publicSubnetIds.Some?)
    ensures args.subnetIds.None? ==> r == Reject(Message(SubnetIdsNone))
    ensures (args.subnetIds.Some? && args.securityGroupIds.None?) ==> r == Reject(Message(SecurityGroupIdsNone))
    ensures (args.subnetIds.Some? && args.securityGroupIds.Some? && args.publicSubnetIds.None?) ==>
      r == Reject(Message(PublicSubnetIdsNone))
  {
    if args.subnetIds.None? then Reject(Message(SubnetIdsNone))
    else if args.securityGroupIds.None? then Reject(Message(SecurityGroupIdsNone))
    else if args.publicSubnetIds.None? then Reject(Message(PublicSubnetIdsNone))
    else Pass
  }

  /**
   * What `Network(name, ...)` ends with: with a VPC id, the given ids and no
   * resources of its own; without one, a VPC of its own with the requested
   * number of zones.
   */
  function Plan(name: string, args: NetworkArgs): (r: Result<NetworkState>)
    ensures args.vpcId.Some? ==> (r.Ok? <==> CheckExisting(args).Pass?)
    ensures args.vpcId.None? ==> (r.Ok? <==> ZoneCount(args.numberOfAvailabilityZones).Ok?)
    ensures (r.Ok? && args.vpcId.Some?) ==> r.value.created.None? && r.value.zones == []
    ensures (r.Ok? && args.vpcId.None?) ==> r.value.created == Some(SharedResources(name)) && 1 <= |r.value.zones| <= 4
  {
    if args.vpcId.Some? then
      var check := CheckExisting(args);
      if check.Reject? then Fail(check.error)
      else Ok(AttachedState(Given(args.vpcId.value), Givens(args.subnetIds.value), args.usePrivateSubnets,
        Givens(args.securityGroupIds.value), Givens(args.publicSubnetIds.value)))
    else
      var count := ZoneCount(args.numberOfAvailabilityZones);
      if count.Fail? then Fail(count.error)
      else Ok(CreatedState(PythonSdk, name, count.value, args.usePrivateSubnets.GetOr(false)))
  }

  /** An existing network keeps exactly the ids it is given and creates nothing. */
  lemma PlanAttaches(name: string, args: NetworkArgs)
    requires args.vpcId.Some? && args.subnetIds.Some? && args.securityGroupIds.Some? && args.publicSubnetIds.Some?
    ensures Plan(name, args) == Ok(NetworkState(Given(args.vpcId.value), Givens(args.subnetIds.value), args.usePrivateSubnets,
      Givens(args.securityGroupIds.value), Givens(args.publicSubnetIds.value), None, []))
  {
  }

  /**
   * Without a VPC id and with an acceptable zone count n, the network builds
   * n zones, lists zone i's subnet `${name}-${i}` in `subnet_ids` and its
   * public subnet in `public_subnet_ids`, uses private subnets only when
   * asked, and its subnets do not overlap.
   */
  lemma PlanCreates(name: string, args: NetworkArgs)
    requires args.vpcId.None? && ZoneCount(args.numberOfAvailabilityZones).Ok?
    ensures var n := ZoneCount(args.numberOfAvailabilityZones).value;
      var p := args.usePrivateSubnets == Some(true);
      var r := Plan(name, args);
      r.Ok? && r.value.vpcId == VpcId(name) && r.value.securityGroupIds == [DefaultSecurityGroupId(name)]
      && r.value.usePrivateSubnets == Some(p)
      && |r.value.subnetIds| == n && |r.value.publicSubnetIds| == n
      && (forall i :: 0 <= i < n ==> r.value.subnetIds[i] == SubnetId(ZoneName(name, i)))
      && (forall i :: 0 <= i < n ==>
        r.value.publicSubnetIds[i] == SubnetId(if p then NatName(name, i) else ZoneName(name, i)))
      && |r.value.zones| == n && SubnetsDisjoint(r.value.zones)
  {
    var n := ZoneCount(args.numberOfAvailabilityZones).value;
    CreatedStateShape(PythonSdk, name, n, args.usePrivateSubnets.GetOr(false));
  }

  /**
   * The checks of `from_vpc`: every argument must be given, and the first
   * one missing, in the order VPC, subnets, security groups, public subnets,
   * names the error.
   */
  function CheckFromVpc(vpcId: Option<string>, subnetIds: Option<seq<string>>, securityGroupIds: Option<seq<string>>,
    publicSubnetIds: Option<seq<string>>): (r: Outcome)
    ensures r.Pass? <==> (vpcId.Some? && subnetIds.Some? && securityGroupIds.Some? && publicSubnetIds.Some?)
    ensures vpcId.None? ==> r == Reject(Message(VpcIdNotProvided))
    ensures (vpcId.Some? && subnetIds.None?) ==> r == Reject(Message(SubnetIdsNotProvided))
    ensures (vpcId.Some? && subnetIds.Some? && securityGroupIds.None?) ==> r == Reject(Message(SecurityGroupIdsNotProvided))
    ensures (vpcId.Some? && subnetIds.Some? && securityGroupIds.Some? && publicSubnetIds.None?) ==>
      r == Reject(Message(PublicSubnetIdsNotProvided))
  {
    if vpcId.None? then Reject(Message(VpcIdNotProvided))
    else if subnetIds.None? then Reject(Message(SubnetIdsNotProvided))
    else if securityGroupIds.None? then Reject(Message(SecurityGroupIdsNotProvided))
    else if publicSubnetIds.None? then Reject(Message(PublicSubnetIdsNotProvided))
    else Pass
  }

  /** The network object: its public fields, and the resources it created. */
  class Network {
    var vpcId: Ref
    var subnetIds: seq<Ref>
    var usePrivateSubnets: Option<bool>
    var securityGroupIds: seq<Ref>
    var publicSubnetIds: seq<Ref>
    var created: Option<Shared>
    var zones: seq<ZoneLayout>

    function State(): NetworkState
      reads this
    {
      NetworkState(vpcId, subnetIds, usePrivateSubnets, securityGroupIds, publicSubnetIds, created, zones)
    }

    /** The existing-network path: the given ids are kept and nothing is created. */
    constructor Attach(vpcId: string, subnetIds: seq<string>, usePrivateSubnets: Option<bool>,
      securityGroupIds: seq<string>, publicSubnetIds: seq<string>)
      ensures State() == AttachedState(Given(vpcId), Givens(subnetIds), usePrivateSubnets, Givens(securityGroupIds), Givens(publicSubnetIds))
    {
      this.vpcId := Given(vpcId);
      this.subnetIds := Givens(subnetIds);
      this.usePrivateSubnets := usePrivateSubnets;
      this.securityGroupIds := Givens(securityGroupIds);
      this.publicSubnetIds := Givens(publicSubnetIds);
      this.created := None;
      this.zones := [];
    }

    /** The new-network path: the VPC, its gateway and public route table, then the zone loop. */
    constructor Create(name: string, n: nat, usePrivateSubnets: bool)
      requires 1 <= n <= 4
      ensures State() == CreatedState(PythonSdk, name, n, usePrivateSubnets)
    {
      this.usePrivateSubnets := Some(usePrivateSubnets);
      this.vpcId := VpcId(name);
      this.securityGroupIds := [DefaultSecurityGroupId(name)];
      this.created := Some(SharedResources(name));
      var zones, subnetIds, publicSubnetIds := BuildZones(PythonSdk, name, n, usePrivateSubnets);
      this.zones := zones;
      this.subnetIds := subnetIds;
      this.publicSubnetIds := publicSubnetIds;
    }

    /** `Network(name, ...)`: the checks, then one of the two paths. */
    static method New(name: string, args: NetworkArgs) returns (r: Result<Network>)
      ensures r.Ok? <==> Plan(name, args).Ok?
      ensures r.Fail? ==> r.error == Plan(name, args).error
      ensures r.Ok? ==> fresh(r.value) && r.value.State() == Plan(name, args).value
    {
      if args.vpcId.Some? {
        if args.subnetIds.None? {
          return Fail(Message(SubnetIdsNone));
        }
        if args.securityGroupIds.None? {
          return Fail(Message(SecurityGroupIdsNone));
        }
        if args.publicSubnetIds.None? {
          return Fail(Message(PublicSubnetIdsNone));
        }
        var net := new Network.Attach(args.vpcId.value, args.subnetIds.value, args.usePrivateSubnets,
          args.securityGroupIds.value, args.publicSubnetIds.value);
        return Ok(net);
      }
      var count := ZoneCount(args.numberOfAvailabilityZones);
      if count.Fail? {
        return Fail(count.error);
      }
      var net := new Network.Create(name, count.value, args.usePrivateSubnets.GetOr(false));
      return Ok(net);
    }

    /** `Network.from_vpc`: every argument is checked, then the network attaches to the VPC. */
    static method FromVpc(name: string, vpcId: Option<string>, subnetIds: Option<seq<string>>,
      securityGroupIds: Option<seq<string>>, publicSubnetIds: Option<seq<string>>, usePrivateSubnets: Option<bool>)
      returns (r: Result<Network>)
      ensures r.Ok? <==> CheckFromVpc(vpcId, subnetIds, securityGroupIds, publicSubnetIds).Pass?
      ensures r.Fail? ==> r.error == CheckFromVpc(vpcId, subnetIds, securityGroupIds, publicSubnetIds).error
      ensures r.Ok? ==> fresh(r.value) && r.value.State() == AttachedState(Given(vpcId.value), Givens(subnetIds.value),
        usePrivateSubnets, Givens(securityGroupIds.value), Givens(publicSubnetIds.value))
    {
      if vpcId.None? {
        return Fail(Message(VpcIdNotProvided));
      }
      if subnetIds.None? {
        return Fail(Message(SubnetIdsNotProvided));
      }
      if securityGroupIds.None? {
        return Fail(Message(SecurityGroupIdsNotProvided));
      }
      if publicSubnetIds.None? {
        return Fail(Message(PublicSubnetIdsNotProvided));
      }
      r := New(name, NetworkArgs(None, usePrivateSubnets, vpcId, subnetIds, securityGroupIds, publicSubnetIds));
    }
  }

  /** What the account's lookups return: the default VPC, its subnets and its "default" security group. */
  datatype DefaultVpc = DefaultVpc(vpcId: string, subnetIds: seq<string>, securityGroupId: string)

  /** The default network: the default VPC with all its subnets as both lists, and no private subnets. */
  function DefaultState(vpc: DefaultVpc): NetworkState
  {
    AttachedState(Given(vpc.vpcId), Givens(vpc.subnetIds), Some(false), [Given(vpc.securityGroupId)], Givens(vpc.subnetIds))
  }

  /** The class attribute `Network._default_network`. */
  class NetworkClass {
    var defaultNetwork: Option<Network>

    constructor ()
      ensures defaultNetwork.None?
    {
      defaultNetwork := None;
    }

    /**
     * `Network.get_default`: the first call builds the default network and
     * stores it; every later call returns that same object.
     */
    method GetDefault(vpc: DefaultVpc) returns (net: Network)
      modifies this
      ensures old(defaultNetwork).Some? ==> net == old(defaultNetwork).value && defaultNetwork == old(defaultNetwork)
      ensures old(defaultNetwork).None? ==> defaultNetwork == Some(net) && fresh(net) && net.State() == DefaultState(vpc)
    {
      if defaultNetwork.None? {
        var r := Network.FromVpc("default-vpc", Some(vpc.vpcId), Some(vpc.subnetIds), Some([vpc.securityGroupId]),
          Some(vpc.subnetIds), Some(false));
        net := r.value;
        defaultNetwork := Some(net);
        return;
      }
      net := defaultNetwork.value;
    }
  }
}
