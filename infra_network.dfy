// The `Network` component of the Node aws-infra package (aws-infra/network.ts):
// attaching to an existing VPC, or building a VPC of one to four zones with
// the fixed 10.10.x.0/24 layout, and the lazily created default network.
// JavaScript truthiness decides which path the constructor takes.
module InfraNetwork {
  import opened Wrappers
  import opened Text
  import opened LegacyNetwork

  /** The errors the component throws. */
  datatype NetworkError =
    | VpcIdNotProvided
    | SubnetIdsNotProvided
    | SecurityGroupIdsNotProvided
    | PublicSubnetIdsNotProvided
    | UnsupportedZoneCount(count: int)
    | MapOfUndefined

  /** The text of an error. */
  function Message(e: NetworkError): string
  {
    match e
      case VpcIdNotProvided => "vpcArgs.vpcId must be provided."
      case SubnetIdsNotProvided => "vpcArgs.subnetIds must be provided."
      case SecurityGroupIdsNotProvided => "vpcArgs.securityGroupIds must be provided."
      case PublicSubnetIdsNotProvided => "vpcArgs.publicSubnetIds must be provided."
      case UnsupportedZoneCount(n) => "Unsupported number of availability zones for network: " + IntToString(n)
      case MapOfUndefined => "TypeError: Cannot read properties of undefined (reading 'map')"
  }

  /** A VPC id as handed in: a plain string, or a promise of one (which is always truthy). */
  datatype VpcIdInput = Plain(id: string) | Promised(id: string)

  /** JavaScript truthiness of a given VPC id: missing and empty ids are falsy. */
  predicate Truthy(v: Option<VpcIdInput>)
  {
    v.Some? && (v.value.Promised? || v.value.id != "")
  }

  /** The constructor's merged arguments: the fields of `NetworkArgs` and of `NetworkVpcArgs`, all optional. */
  datatype MergedArgs = MergedArgs(
    numberOfAvailabilityZones: Option<int>,
    usePrivateSubnets: Option<bool>,
    vpcId: Option<VpcIdInput>,
    subnetIds: Option<seq<Ref>>,
    securityGroupIds: Option<seq<Ref>>,
    publicSubnetIds: Option<seq<Ref>>)

  /** `NetworkVpcArgs`, as `fromVpc` takes them. */
  datatype VpcArgs = VpcArgs(
    vpcId: Option<VpcIdInput>,
    subnetIds: Option<seq<Ref>>,
    usePrivateSubnets: Option<bool>,
    securityGroupIds: Option<seq<Ref>>,
    publicSubnetIds: Option<seq<Ref>>)

  /**
   * `numberOfAvailabilityZones || 2`, checked against [1, 4]: a missing or
   * zero count means two zones, any other count is kept, and a count outside
   * one to four is refused with the count in the message.
   */
  function ZoneCount(requested: Option<int>): (r: Result<nat>)
    ensures (requested.None? || requested.value == 0) ==> r == Ok(2)
    ensures (requested.Some? && requested.value != 0) ==>
      (r.Ok? <==> 1 <= requested.value <= 4) && (r.Ok? ==> r.value == requested.value)
    ensures r.Fail? ==> r.error == Message(UnsupportedZoneCount(requested.value))
    ensures r.Ok? ==> 1 <= r.value <= 4
  {
    var n := if requested.None? || requested.value == 0 then 2 else requested.value;
    if n < 1 || n > 4 then Fail(Message(UnsupportedZoneCount(n))) else Ok(n)
  }

  /**
   * The existing-network path copies the three lists with `map`, in the
   * order subnets, security groups, public subnets: the first one missing
   * throws, and the network attaches only when all three are there.
   */
  function CopyExisting(vpcId: string, args: MergedArgs): (r: Result<NetworkState>)
    ensures r.Ok? <==> (args.subnetIds.Some? && args.securityGroupIds.Some? && args.publicSubnetIds.Some?)
    ensures r.Fail? ==> r.error == Message(MapOfUndefined)
    ensures r.Ok? ==> (r.value.created.None? && r.value.zones == [] && r.value.vpcId == Given(vpcId)
      && r.value.subnetIds == args.subnetIds.value && r.value.securityGroupIds == args.securityGroupIds.value
      && r.value.publicSubnetIds == args.publicSubnetIds.value && r.value.usePrivateSubnets == args.usePrivateSubnets)
  {
    if args.subnetIds.None? || args.securityGroupIds.None? || args.publicSubnetIds.None? then Fail(Message(MapOfUndefined))
    else Ok(AttachedState(Given(vpcId), args.subnetIds.value, args.usePrivateSubnets, args.securityGroupIds.value, args.publicSubnetIds.value))
  }

  /**
   * What `new Network(name, args)` ends with: a truthy VPC id attaches to
   * that VPC; anything else (no id, or an empty one) builds a VPC of its own.
   */
  function Plan(name: string, args: MergedArgs): (r: Result<NetworkState>)
    ensures Truthy(args.vpcId) ==> r == CopyExisting(args.vpcId.value.id, args)
    ensures !Truthy(args.vpcId) ==> (r.Ok? <==> ZoneCount(args.numberOfAvailabilityZones).Ok?)
    ensures (!Truthy(args.vpcId) && r.Fail?) ==> r.error == ZoneCount(args.numberOfAvailabilityZones).error
    ensures (!Truthy(args.vpcId) && r.Ok?) ==> r.value.created == Some(SharedResources(name)) && 1 <= |r.value.zones| <= 4
  {
    if Truthy(args.vpcId) then CopyExisting(args.vpcId.value.id, args)
    else
      var count := ZoneCount(args.numberOfAvailabilityZones);
      if count.Fail? then Fail(count.error)
      else Ok(CreatedState(NodeSdk, name, count.value, args.usePrivateSubnets.GetOr(false)))
  }

  /**
   * Without a truthy VPC id and with an acceptable zone count n, the network
   * builds n zones, lists zone i's subnet `${name}-${i}` in `subnetIds` and
   * its public subnet in `publicSubnetIds`, uses private subnets only when
   * asked, and its subnets do not overlap. An empty VPC id takes this path
   * and ignores any ids given with it.
   */
  lemma PlanCreates(name: string, args: MergedArgs)
    requires !Truthy(args.vpcId) && ZoneCount(args.numberOfAvailabilityZones).Ok?
    ensures var n := ZoneCount(args.numberOfAvailabilityZones).value;
      var p := args.usePrivateSubnets == Some(true);
      var r := Plan(name, args);
      r.Ok? && r.value.vpcId == VpcId(name) && r.value.securityGroupIds == [DefaultSecurityGroupId(name)]
      && r.value.usePrivateSubnets == Some(p)
      && |r.value.subnetIds| == n && |r.value.publicSubnetIds| == n
      && (forall i :: 0 <= i < n ==> r.value.subnetIds[i] == SubnetId(ZoneName(name, i)))
      && (forall i :: 0 <= i < n ==>
        r.value.publicSubnetIds[i] == SubnetId(if p then NatName(name, i) else ZoneName(name, i)))
      && |r.value.zones| == n && SubnetsDisjoint(r.value.zones)
  {
    var n := ZoneCount(args.numberOfAvailabilityZones).value;
    CreatedStateShape(NodeSdk, name, n, args.usePrivateSubnets.GetOr(false));
  }

  /**
   * The checks of `fromVpc`: a falsy VPC id or a missing list throws, the
   * first failing check, in the order VPC, subnets, security groups, public
   * subnets, naming the error.
   */
  function CheckFromVpc(args: VpcArgs): (r: Outcome)
    ensures r.Pass? <==> (Truthy(args.vpcId) && args.subnetIds.Some? && args.securityGroupIds.Some? && args.publicSubnetIds.Some?)
    ensures !Truthy(args.vpcId) ==> r == Reject(Message(VpcIdNotProvided))
    ensures (Truthy(args.vpcId) && args.subnetIds.None?) ==> r == Reject(Message(SubnetIdsNotProvided))
    ensures (Truthy(args.vpcId) && args.subnetIds.Some? && args.securityGroupIds.None?) ==>
      r == Reject(Message(SecurityGroupIdsNotProvided))
    ensures (Truthy(args.vpcId) && args.subnetIds.Some? && args.securityGroupIds.Some? && args.publicSubnetIds.None?) ==>
      r == Reject(Message(PublicSubnetIdsNotProvided))
  {
    if !Truthy(args.vpcId) then Reject(Message(VpcIdNotProvided))
    else if args.subnetIds.None? then Reject(Message(SubnetIdsNotProvided))
    else if args.securityGroupIds.None? then Reject(Message(SecurityGroupIdsNotProvided))
    else if args.publicSubnetIds.None? then Reject(Message(PublicSubnetIdsNotProvided))
    else Pass
  }

  /** `fromVpc` hands its arguments on to the constructor. */
  function AsMerged(args: VpcArgs): MergedArgs
  {
    MergedArgs(None, args.usePrivateSubnets, args.vpcId, args.subnetIds, args.securityGroupIds, args.publicSubnetIds)
  }

  /**
   * Whatever `fromVpc`'s checks let through, the constructor attaches to the
   * VPC without throwing: the checks cover every way the existing-network
   * path can fail.
   */
  lemma FromVpcAttaches(name: string, args: VpcArgs)
    requires CheckFromVpc(args).Pass?
    ensures Plan(name, AsMerged(args)).Ok?
    ensures Plan(name, AsMerged(args)).value == AttachedState(Given(args.vpcId.value.id), args.subnetIds.value,
      args.usePrivateSubnets, args.securityGroupIds.value, args.publicSubnetIds.value)
  {
    assert Truthy(AsMerged(args).vpcId);
  }

  /** The network object: its public fields, and the resources it created. */
  class Network {
    var vpcId: Ref
    var subnetIds: seq<Ref>
    var usePrivateSubnets: Option<bool>
    var securityGroupIds: seq<Ref>
    var publicSubnetIds: seq<Ref>
    var created: Option<Shared>
    var zones: seq<ZoneLayout>

    function State(): NetworkState
      reads this
    {
      NetworkState(vpcId, subnetIds, usePrivateSubnets, securityGroupIds, publicSubnetIds, created, zones)
    }

    /** The existing-network path: the given ids are kept and nothing is created. */
    constructor Attach(vpcId: string, subnetIds: seq<Ref>, usePrivateSubnets: Option<bool>,
      securityGroupIds: seq<Ref>, publicSubnetIds: seq<Ref>)
      ensures State() == AttachedState(Given(vpcId), subnetIds, usePrivateSubnets, securityGroupIds, publicSubnetIds)
    {
      this.vpcId := Given(vpcId);
      this.subnetIds := subnetIds;
      this.usePrivateSubnets := usePrivateSubnets;
      this.securityGroupIds := securityGroupIds;
      this.publicSubnetIds := publicSubnetIds;
      this.created := None;
      this.zones := [];
    }

    /** The new-network path: the VPC, its gateway and public route table, then the zone loop. */
    constructor Create(name: string, n: nat, usePrivateSubnets: bool)
      requires 1 <= n <= 4
      ensures State() == CreatedState(NodeSdk, name, n, usePrivateSubnets)
    {
      this.usePrivateSubnets := Some(usePrivateSubnets);
      this.vpcId := VpcId(name);
      this.securityGroupIds := [DefaultSecurityGroupId(name)];
      this.created := Some(SharedResources(name));
      var zones, subnetIds, publicSubnetIds := BuildZones(NodeSdk, name, n, usePrivateSubnets);
      this.zones := zones;
      this.subnetIds := subnetIds;
      this.publicSubnetIds := publicSubnetIds;
    }

    /** `new Network(name, mergedArgs)`, an omitted argument object being `{}`. */
    static method New(name: string, args: MergedArgs) returns (r: Result<Network>)
      ensures r.Ok? <==> Plan(name, args).Ok?
      ensures r.Fail? ==> r.error == Plan(name, args).error
      ensures r.Ok? ==> fresh(r.value) && r.value.State() == Plan(name, args).value
    {
      if Truthy(args.vpcId) {
        if args.subnetIds.None? || args.securityGroupIds.None? || args.publicSubnetIds.None? {
          return Fail(Message(MapOfUndefined));
        }
        var net := new Network.Attach(args.vpcId.value.id, args.subnetIds.value, args.usePrivateSubnets,
          args.securityGroupIds.value, args.publicSubnetIds.value);
        return Ok(net);
      }
      var count := ZoneCount(args.numberOfAvailabilityZones);
      if count.Fail? {
        return Fail(count.error);
      }
      var net := new Network.Create(name, count.value, args.usePrivateSubnets.GetOr(false));
      return Ok(net);
    }

    /** `Network.fromVpc`: the checks, then the constructor, which then attaches. */
    static method FromVpc(name: string, args: VpcArgs) returns (r: Result<Network>)
      ensures r.Ok? <==> CheckFromVpc(args).Pass?
      ensures r.Fail? ==> r.error == CheckFromVpc(args).error
      ensures r.Ok? ==> fresh(r.value) && r.value.State() == AttachedState(Given(args.vpcId.value.id), args.subnetIds.value,
        args.usePrivateSubnets, args.securityGroupIds.value, args.publicSubnetIds.value)
    {
      if !Truthy(args.vpcId) {
        return Fail(Message(VpcIdNotProvided));
      }
      if args.subnetIds.None? {
        return Fail(Message(SubnetIdsNotProvided));
      }
      if args.securityGroupIds.None? {
        return Fail(Message(SecurityGroupIdsNotProvided));
      }
      if args.publicSubnetIds.None? {
        return Fail(Message(PublicSubnetIdsNotProvided));
      }
      FromVpcAttaches(name, args);
      r := New(name, AsMerged(args));
    }
  }

  /** What the account's lookups return: the default VPC, its subnets and its "default" security group. */
  datatype DefaultVpc = DefaultVpc(vpcId: string, subnetIds: seq<string>, securityGroupId: string)

  /**
   * The default network: the default VPC, its first two subnets as both the
   * subnet and the public subnet lists, its default security group, and no
   * private subnets.
   */
  function DefaultState(vpc: DefaultVpc): NetworkState
  {
    var firstTwo := [Nth(vpc.subnetIds, 0), Nth(vpc.subnetIds, 1)];
    AttachedState(Given(vpc.vpcId), firstTwo, Some(false), [Given(vpc.securityGroupId)], firstTwo)
  }

  /** The static field `Network.defaultNetwork`. */
  class NetworkClass {
    var defaultNetwork: Option<Network>

    constructor ()
      ensures defaultNetwork.None?
    {
      defaultNetwork := None;
    }

    /**
     * `Network.getDefault`: the first call builds the default network from
     * the lookups and stores it; every later call returns that same object.
     */
    method GetDefault(vpc: DefaultVpc) returns (net: Network)
      modifies this
      ensures old(defaultNetwork).Some? ==> net == old(defaultNetwork).value && defaultNetwork == old(defaultNetwork)
      ensures old(defaultNetwork).None? ==> defaultNetwork == Some(net) && fresh(net) && net.State() == DefaultState(vpc)
    {
      if defaultNetwork.None? {
        var firstTwo := [Nth(vpc.subnetIds, 0), Nth(vpc.subnetIds, 1)];
        var r := Network.FromVpc("default-vpc", VpcArgs(Some(Promised(vpc.vpcId)), Some(firstTwo), Some(false),
          Some([Given(vpc.securityGroupId)]), Some(firstTwo)));
        net := r.value;
        defaultNetwork := Some(net);
        return;
      }
      net := defaultNetwork.value;
    }
  }
}
