// The fixed network layout shared by the two legacy `Network` components
// (python/pulumi_aws_infra/network.py and nodejs/aws-infra/network.ts): a
// 10.10.0.0/16 VPC, one /24 subnet per zone at 10.10.i.0/24 and, when
// private subnets are wanted, a NAT subnet per zone at 10.10.(i+64).0/24
// with its elastic IP, NAT gateway and route table.
module LegacyNetwork {
  import opened Wrappers
  import opened Cidr
  import opened Text
  import opened SubnetTypes

  /** Which of the two components builds the layout; they differ in two details. */
  datatype Dialect = PythonSdk | NodeSdk

  /** 10.10.0.0, the start of the network's /16. */
  const NetworkBase: int := 168427520

  /** The network's own block, 10.10.0.0/16. */
  const NetworkBlock: CidrBlock := CidrBlock(NetworkBase, 16)

  /** 10.10.k.0/24. */
  function OctetBlock(k: nat): CidrBlock
    requires k < 256
  {
    CidrBlock(NetworkBase + k * 256, 24)
  }

  /** Zone i's subnet block, 10.10.i.0/24. */
  function ZoneBlock(i: nat): CidrBlock
    requires i < 256
  {
    OctetBlock(i)
  }

  /** Zone i's NAT subnet block, 10.10.(i+64).0/24 (the top half of the subnet space). */
  function NatBlock(i: nat): CidrBlock
    requires i < 192
  {
    OctetBlock(i + 64)
  }

  /** 10.10.k.0/24 spans the 256 addresses from 10.10.k.0 on, all inside 10.10.0.0/16. */
  lemma OctetBlockRange(k: nat)
    requires k < 256
    ensures ValidMask(OctetBlock(k))
    ensures Start(OctetBlock(k)) == NetworkBase + k * 256
    ensures End(OctetBlock(k)) == NetworkBase + k * 256 + 255
    ensures Start(NetworkBlock) <= Start(OctetBlock(k)) && End(OctetBlock(k)) <= End(NetworkBlock)
  {
    SmallBlockSizes();
    AlignAligned(NetworkBase + k * 256, 24);
    AlignAligned(NetworkBase, 16);
  }

  /** The block is written `10.10.${k}.0/24`, as the source formats it. */
  lemma OctetBlockText(k: nat)
    requires k < 256
    ensures CidrString(OctetBlock(k)) == "10.10." + NatToString(k) + ".0/24"
  {
    OctetBlockOctets(k);
    DecimalConstants();
    TextShape(NatToString(k));
  }

  lemma TextShape(x: string)
    ensures "10" + "." + "10" + "." + x + "." + "0" + "/" + "24" == "10.10." + x + ".0/24"
  {
  }

  /** The four octets of 10.10.k.0. */
  lemma OctetBlockOctets(k: nat)
    requires k < 256
    ensures Dotted(OctetBlock(k).addr) == NatToString(10) + "." + NatToString(10) + "." + NatToString(k) + "." + NatToString(0)
  {
    var v := NetworkBase + k * 256;
    assert v % AddressSpace == v;
    assert v / 16777216 == 10;
    assert v / 65536 % 256 == 10 by {
      assert v / 65536 == 2570;
    }
    assert v / 256 % 256 == k by {
      assert v / 256 == 657920 + k;
    }
    assert v % 256 == 0;
  }

  lemma DecimalConstants()
    ensures NatToString(10) == "10" && NatToString(0) == "0" && IntToString(24) == "24"
  {
    assert NatToString(10) == "10" by {
      assert DigitChar(1) == '1' && DigitChar(0) == '0';
      assert NatToString(1) == ['1'];
    }
    assert IntToString(24) == "24" by {
      assert DigitChar(2) == '2' && DigitChar(4) == '4';
      assert NatToString(2) == ['2'];
    }
  }

  /** Two address ranges with no address in common. */
  predicate Disjoint(a: CidrBlock, b: CidrBlock)
    requires ValidMask(a) && ValidMask(b)
  {
    End(a) < Start(b) || End(b) < Start(a)
  }

  /** Distinct third octets give disjoint blocks. */
  lemma OctetBlocksDisjoint(k: nat, l: nat)
    requires k < 256 && l < 256 && k != l
    ensures ValidMask(OctetBlock(k)) && ValidMask(OctetBlock(l))
    ensures Disjoint(OctetBlock(k), OctetBlock(l))
  {
    OctetBlockRange(k);
    OctetBlockRange(l);
  }

  /**
   * An id as the components hand it on: a given string, the output of a
   * created resource, or (Node) `undefined` read past the end of a list.
   */
  datatype Ref = Given(id: string) | VpcId(vpc: string) | SubnetId(subnet: string) | DefaultSecurityGroupId(vpc: string) | Undefined

  /** Given ids, in order. */
  function Givens(ids: seq<string>): (r: seq<Ref>)
    ensures |r| == |ids| && forall i :: 0 <= i < |ids| ==> r[i] == Given(ids[i])
  {
    seq(|ids|, i requires 0 <= i < |ids| => Given(ids[i]))
  }

  /** Where a route table's 0.0.0.0/0 route leads. */
  /** `ids[k]` in JavaScript: the k-th id, or `undefined` past the end of the list. */
  function Nth(ids: seq<string>, k: nat): (r: Ref)
    ensures r.Undefined? <==> k >= |ids|
    ensures k < |ids| ==> r == Given(ids[k])
  {
    if k < |ids| then Given(ids[k]) else Undefined
  }

  datatype Target = ToInternetGateway(internetGateway: string) | ToNatGateway(natGateway: string)

  datatype RouteTable = RouteTable(name: string, target: Target, nameTag: string)

  datatype Subnet = Subnet(name: string, zone: nat, cidrBlock: CidrBlock, mapPublicIpOnLaunch: bool)

  datatype Association = Association(name: string, subnet: string, routeTable: string)

  datatype NatGateway = NatGateway(name: string, subnet: string, allocation: string, dependsOn: seq<string>)

  /** The NAT half of a zone: its public subnet, routed to the internet gateway, and the NAT gateway in it. */
  datatype NatPart = NatPart(subnet: Subnet, association: Association, eip: string, gateway: NatGateway, routeTable: RouteTable)

  /** What the loop creates for one zone. */
  datatype ZoneLayout = ZoneLayout(subnet: Subnet, natPart: Option<NatPart>, association: Association)

  /** The resources created before the loop: the VPC, its internet gateway and the public route table. */
  datatype Shared = Shared(vpcName: string, vpcBlock: CidrBlock, enableDnsHostnames: bool, enableDnsSupport: bool,
    internetGateway: string, publicRouteTable: RouteTable)

  function SharedResources(name: string): Shared
  {
    Shared(name, NetworkBlock, true, true, name, RouteTable(name, ToInternetGateway(name), name))
  }

  /** `${name}-${i}`: zone i's subnet, and its route table association. */
  function ZoneName(name: string, i: nat): string
  {
    name + "-" + NatToString(i)
  }

  /** `${name}-nat-${i}`: zone i's NAT subnet, elastic IP, gateway and route table. */
  function NatName(name: string, i: nat): string
  {
    name + "-nat-" + NatToString(i)
  }

  /**
   * What the loop creates for zone i. The Python component makes the NAT
   * gateway depend on its subnet's route table association and tags the
   * NAT route table with the network's name; the Node component tags it
   * with the NAT name.
   */
  function Zone(d: Dialect, name: string, i: nat, usePrivateSubnets: bool): ZoneLayout
    requires i < 192
  {
    var subnet := Subnet(ZoneName(name, i), i, ZoneBlock(i), !usePrivateSubnets);
    if usePrivateSubnets then
      var natName := NatName(name, i);
      var natSubnet := Subnet(natName, i, NatBlock(i), true);
      var natRoutes := Association(natName, natName, name);
      var gateway := NatGateway(natName, natName, natName, if d == PythonSdk then [natRoutes.name] else []);
      var table := RouteTable(natName, ToNatGateway(natName), if d == PythonSdk then name else natName);
      ZoneLayout(subnet, Some(NatPart(natSubnet, natRoutes, natName, gateway, table)), Association(ZoneName(name, i), subnet.name, natName))
    else
      ZoneLayout(subnet, None, Association(ZoneName(name, i), subnet.name, name))
  }

  /** The subnet of zone i that is listed as public: the NAT subnet, or the zone's own subnet. */
  function PublicSubnetOf(z: ZoneLayout): Subnet
  {
    if z.natPart.Some? then z.natPart.value.subnet else z.subnet
  }

  /** The subnets of a zone. */
  function Subnets(z: ZoneLayout): seq<Subnet>
  {
    [z.subnet] + if z.natPart.Some? then [z.natPart.value.subnet] else []
  }

  /** The layouts of zones 0 .. n - 1. */
  function Zones(d: Dialect, name: string, n: nat, usePrivateSubnets: bool): (r: seq<ZoneLayout>)
    requires n <= 64
    ensures |r| == n && forall i :: 0 <= i < n ==> r[i] == Zone(d, name, i, usePrivateSubnets)
  {
    seq(n, i requires 0 <= i < n => Zone(d, name, i, usePrivateSubnets))
  }

  /**
   * No two positions of the layout hold subnets that share an address: the
   * x-th subnet of zone i and the y-th subnet of zone j are disjoint unless
   * they are the same subnet of the same zone.
   */
  ghost predicate SubnetsDisjoint(zones: seq<ZoneLayout>)
  {
    forall i: nat, x: nat, j: nat, y: nat ::
      (i < |zones| && j < |zones| && x < |Subnets(zones[i])| && y < |Subnets(zones[j])|) ==> SubnetsApart(zones, i, x, j, y)
  }

  /** The x-th subnet of zone i and the y-th of zone j are valid blocks, disjoint unless they are one position. */
  ghost predicate SubnetsApart(zones: seq<ZoneLayout>, i: nat, x: nat, j: nat, y: nat)
    requires i < |zones| && j < |zones| && x < |Subnets(zones[i])| && y < |Subnets(zones[j])|
  {
    var a, b := Subnets(zones[i])[x].cidrBlock, Subnets(zones[j])[y].cidrBlock;
    ValidMask(a) && ValidMask(b) && ((i != j || x != y) ==> Disjoint(a, b))
  }

  /** The x-th subnet of zone i is 10.10.i.0/24 or, for the NAT subnet, 10.10.(i + 64).0/24. */
  lemma SubnetAt(d: Dialect, name: string, i: nat, usePrivateSubnets: bool, x: nat)
    requires i < 64 && x < |Subnets(Zone(d, name, i, usePrivateSubnets))|
    ensures x < 2 && Subnets(Zone(d, name, i, usePrivateSubnets))[x].cidrBlock == OctetBlock(if x == 0 then i else i + 64)
  {
  }

  /**
   * Every subnet of every zone lies in 10.10.0.0/16, and no two subnets of
   * the layout share an address: zone i uses the third octets i and i + 64.
   */
  lemma ZonesDisjoint(d: Dialect, name: string, n: nat, usePrivateSubnets: bool)
    requires n <= 64
    ensures forall i, a :: 0 <= i < n && a in Subnets(Zones(d, name, n, usePrivateSubnets)[i]) ==>
      ValidMask(a.cidrBlock) && Start(NetworkBlock) <= Start(a.cidrBlock) && End(a.cidrBlock) <= End(NetworkBlock)
    ensures SubnetsDisjoint(Zones(d, name, n, usePrivateSubnets))
  {
    ZonesInside(d, name, n, usePrivateSubnets);
    ZonesApart(d, name, n, usePrivateSubnets);
  }

  lemma ZonesInside(d: Dialect, name: string, n: nat, usePrivateSubnets: bool)
    requires n <= 64
    ensures forall i, a :: 0 <= i < n && a in Subnets(Zones(d, name, n, usePrivateSubnets)[i]) ==>
      ValidMask(a.cidrBlock) && Start(NetworkBlock) <= Start(a.cidrBlock) && End(a.cidrBlock) <= End(NetworkBlock)
  {
    var zones := Zones(d, name, n, usePrivateSubnets);
    forall i, a | 0 <= i < n && a in Subnets(zones[i])
      ensures ValidMask(a.cidrBlock) && Start(NetworkBlock) <= Start(a.cidrBlock) && End(a.cidrBlock) <= End(NetworkBlock)
    {
      if a == zones[i].subnet {
        OctetBlockRange(i);
      } else {
        OctetBlockRange(i + 64);
      }
    }
  }

  lemma ZonesApart(d: Dialect, name: string, n: nat, usePrivateSubnets: bool)
    requires n <= 64
    ensures SubnetsDisjoint(Zones(d, name, n, usePrivateSubnets))
  {
    var zones := Zones(d, name, n, usePrivateSubnets);
    forall i: nat, x: nat, j: nat, y: nat | i < |zones| && j < |zones| && x < |Subnets(zones[i])| && y < |Subnets(zones[j])|
      ensures SubnetsApart(zones, i, x, j, y)
    {
      assert zones[i] == Zone(d, name, i, usePrivateSubnets) && zones[j] == Zone(d, name, j, usePrivateSubnets);
      SubnetPairDisjoint(d, name, usePrivateSubnets, i, x, j, y);
    }
  }

  /** The x-th subnet of zone i and the y-th of zone j are different third octets. */
  lemma SubnetPairDisjoint(d: Dialect, name: string, usePrivateSubnets: bool, i: nat, x: nat, j: nat, y: nat)
    requires i < 64 && j < 64
    requires x < |Subnets(Zone(d, name, i, usePrivateSubnets))| && y < |Subnets(Zone(d, name, j, usePrivateSubnets))|
    ensures ValidMask(Subnets(Zone(d, name, i, usePrivateSubnets))[x].cidrBlock)
    ensures ValidMask(Subnets(Zone(d, name, j, usePrivateSubnets))[y].cidrBlock)
    ensures (i != j || x != y) ==> Disjoint(Subnets(Zone(d, name, i, usePrivateSubnets))[x].cidrBlock, Subnets(Zone(d, name, j, usePrivateSubnets))[y].cidrBlock)
  {
    SubnetAt(d, name, i, usePrivateSubnets, x);
    SubnetAt(d, name, j, usePrivateSubnets, y);
    var k, l := if x == 0 then i else i + 64, if y == 0 then j else j + 64;
    if k != l {
      OctetBlocksDisjoint(k, l);
    } else {
      OctetBlockRange(k);
    }
  }

  /**
   * Zone i's subnet is 10.10.i.0/24 and gets public IPs exactly when the
   * network has no private subnets; its NAT subnet, when there is one, is
   * 10.10.(i+64).0/24 and always gets public IPs.
   */
  lemma ZoneSubnets(d: Dialect, name: string, i: nat, usePrivateSubnets: bool)
    requires i < 64
    ensures var z := Zone(d, name, i, usePrivateSubnets);
      CidrString(z.subnet.cidrBlock) == "10.10." + NatToString(i) + ".0/24"
      && z.subnet.mapPublicIpOnLaunch == !usePrivateSubnets
      && (z.natPart.Some? <==> usePrivateSubnets)
      && (z.natPart.Some? ==> (CidrString(z.natPart.value.subnet.cidrBlock) == "10.10." + NatToString(i + 64) + ".0/24"
        && z.natPart.value.subnet.mapPublicIpOnLaunch))
  {
    OctetBlockText(i);
    OctetBlockText(i + 64);
  }

  /**
   * How each zone reaches the internet. Without private subnets the zone's
   * subnet uses the public route table. With them, it uses the NAT route
   * table, whose route leads to the NAT gateway; that gateway sits in the
   * NAT subnet, which uses the public route table, and (Python) it waits
   * for that subnet's association.
   */
  lemma ZoneRouting(d: Dialect, name: string, i: nat, usePrivateSubnets: bool)
    requires i < 64
    ensures var z := Zone(d, name, i, usePrivateSubnets);
      var public := SharedResources(name).publicRouteTable;
      z.association.subnet == z.subnet.name
      && public.target == ToInternetGateway(SharedResources(name).internetGateway)
      && (!usePrivateSubnets ==> z.association.routeTable == public.name)
      && (usePrivateSubnets ==>
        var np := z.natPart.value;
        z.association.routeTable == np.routeTable.name
        && np.routeTable.target == ToNatGateway(np.gateway.name)
        && np.gateway.subnet == np.subnet.name
        && np.gateway.allocation == np.eip
        && np.association.subnet == np.subnet.name
        && np.association.routeTable == public.name
        && (d == PythonSdk ==> np.gateway.dependsOn == [np.association.name]))
  {
  }

  /** The ids of the subnets the loop lists in `subnetIds`: each zone's own subnet, in zone order. */
  function SubnetIds(zones: seq<ZoneLayout>): (r: seq<Ref>)
    ensures |r| == |zones| && forall i :: 0 <= i < |zones| ==> r[i] == SubnetId(zones[i].subnet.name)
  {
    seq(|zones|, i requires 0 <= i < |zones| => SubnetId(zones[i].subnet.name))
  }

  /** The ids the loop lists in `publicSubnetIds`: each zone's public subnet, in zone order. */
  function PublicSubnetIds(zones: seq<ZoneLayout>): (r: seq<Ref>)
    ensures |r| == |zones| && forall i :: 0 <= i < |zones| ==> r[i] == SubnetId(PublicSubnetOf(zones[i]).name)
  {
    seq(|zones|, i requires 0 <= i < |zones| => SubnetId(PublicSubnetOf(zones[i]).name))
  }

  /**
   * `subnetIds` names one subnet per zone, `${name}-${i}`, and
   * `publicSubnetIds` one per zone, the NAT subnet `${name}-nat-${i}` when
   * the network has private subnets and the zone's own subnet otherwise.
   */
  lemma IdLists(d: Dialect, name: string, n: nat, usePrivateSubnets: bool)
    requires n <= 64
    ensures var zones := Zones(d, name, n, usePrivateSubnets);
      |SubnetIds(zones)| == n && |PublicSubnetIds(zones)| == n
      && (forall i :: 0 <= i < n ==> SubnetIds(zones)[i] == SubnetId(ZoneName(name, i)))
      && (forall i :: 0 <= i < n ==>
        PublicSubnetIds(zones)[i] == SubnetId(if usePrivateSubnets then NatName(name, i) else ZoneName(name, i)))
  {
  }

  /**
   * The `for` loop over zones: creates each zone's resources and appends the
   * zone's subnet id and public subnet id.
   */
  method BuildZones(d: Dialect, name: string, n: nat, usePrivateSubnets: bool)
    returns (zones: seq<ZoneLayout>, subnetIds: seq<Ref>, publicSubnetIds: seq<Ref>)
    requires n <= 64
    ensures zones == Zones(d, name, n, usePrivateSubnets)
    ensures subnetIds == SubnetIds(zones) && publicSubnetIds == PublicSubnetIds(zones)
  {
    zones, subnetIds, publicSubnetIds := [], [], [];
    for i := 0 to n
      invariant zones == Zones(d, name, i, usePrivateSubnets)
      invariant subnetIds == SubnetIds(zones) && publicSubnetIds == PublicSubnetIds(zones)
    {
      var zone, publicSubnetId := BuildZone(d, name, i, usePrivateSubnets);
      ZonesStep(d, name, i, usePrivateSubnets);
      publicSubnetIds := publicSubnetIds + [publicSubnetId];
      zones := zones + [zone];
      subnetIds := subnetIds + [SubnetId(zone.subnet.name)];
    }
  }

  /** One pass of the zone loop: zone i's resources and the id it lists as public. */
  method BuildZone(d: Dialect, name: string, i: nat, usePrivateSubnets: bool) returns (zone: ZoneLayout, publicSubnetId: Ref)
    requires i < 64
    ensures zone == Zone(d, name, i, usePrivateSubnets)
    ensures publicSubnetId == SubnetId(PublicSubnetOf(zone).name)
  {
    var subnetName := ZoneName(name, i);
    var subnet := Subnet(subnetName, i, ZoneBlock(i), !usePrivateSubnets);
    if usePrivateSubnets {
      var natName := NatName(name, i);
      var natSubnet := Subnet(natName, i, NatBlock(i), true);
      var natRoutes := Association(natName, natName, name);
      publicSubnetId := SubnetId(natSubnet.name);
      var gateway := NatGateway(natName, natName, natName, if d == PythonSdk then [natRoutes.name] else []);
      var natRouteTable := RouteTable(natName, ToNatGateway(natName), if d == PythonSdk then name else natName);
      zone := ZoneLayout(subnet, Some(NatPart(natSubnet, natRoutes, natName, gateway, natRouteTable)),
        Association(ZoneName(name, i), subnetName, natRouteTable.name));
    } else {
      publicSubnetId := SubnetId(subnet.name);
      zone := ZoneLayout(subnet, None, Association(ZoneName(name, i), subnetName, name));
    }
  }

  /** Zones 0 .. i are zones 0 .. i - 1 and zone i; so are their id lists. */
  lemma ZonesStep(d: Dialect, name: string, i: nat, usePrivateSubnets: bool)
    requires i < 64
    ensures Zones(d, name, i + 1, usePrivateSubnets) == Zones(d, name, i, usePrivateSubnets) + [Zone(d, name, i, usePrivateSubnets)]
    ensures var zones, zone := Zones(d, name, i, usePrivateSubnets), Zone(d, name, i, usePrivateSubnets);
      SubnetIds(zones + [zone]) == SubnetIds(zones) + [SubnetId(zone.subnet.name)]
      && PublicSubnetIds(zones + [zone]) == PublicSubnetIds(zones) + [SubnetId(PublicSubnetOf(zone).name)]
  {
    var zones, zone := Zones(d, name, i, usePrivateSubnets), Zone(d, name, i, usePrivateSubnets);
    assert Zones(d, name, i + 1, usePrivateSubnets) == zones + [zone];
    assert SubnetIds(zones + [zone]) == SubnetIds(zones) + [SubnetId(zone.subnet.name)];
    assert PublicSubnetIds(zones + [zone]) == PublicSubnetIds(zones) + [SubnetId(PublicSubnetOf(zone).name)];
  }

  /**
   * The fields a legacy network exposes, with what it created: nothing when
   * it attaches to an existing VPC, else the shared resources and the zones.
   */
  datatype NetworkState = NetworkState(vpcId: Ref, subnetIds: seq<Ref>, usePrivateSubnets: Option<bool>,
    securityGroupIds: seq<Ref>, publicSubnetIds: seq<Ref>, created: Option<Shared>, zones: seq<ZoneLayout>)

  /** A network attached to an existing VPC: the given ids, and no resources of its own. */
  function AttachedState(vpcId: Ref, subnetIds: seq<Ref>, usePrivateSubnets: Option<bool>, securityGroupIds: seq<Ref>, publicSubnetIds: seq<Ref>): NetworkState
  {
    NetworkState(vpcId, subnetIds, usePrivateSubnets, securityGroupIds, publicSubnetIds, None, [])
  }

  /** A network that built its own VPC with n zones. */
  function CreatedState(d: Dialect, name: string, n: nat, usePrivateSubnets: bool): NetworkState
    requires n <= 64
  {
    var zones := Zones(d, name, n, usePrivateSubnets);
    NetworkState(VpcId(name), SubnetIds(zones), Some(usePrivateSubnets), [DefaultSecurityGroupId(name)],
      PublicSubnetIds(zones), Some(SharedResources(name)), zones)
  }

  /**
   * A network built with n zones exposes its own VPC and that VPC's default
   * security group, one subnet id per zone in zone order (`${name}-${i}`), one
   * public subnet id per zone (the NAT subnet when private subnets are used),
   * and subnets that lie in 10.10.0.0/16 without overlapping.
   */
  lemma CreatedStateShape(d: Dialect, name: string, n: nat, usePrivateSubnets: bool)
    requires n <= 64
    ensures var s := CreatedState(d, name, n, usePrivateSubnets);
      s.vpcId == VpcId(name) && s.securityGroupIds == [DefaultSecurityGroupId(name)]
      && s.usePrivateSubnets == Some(usePrivateSubnets) && s.created == Some(SharedResources(name))
      && |s.zones| == n && |s.subnetIds| == n && |s.publicSubnetIds| == n
      && (forall i :: 0 <= i < n ==> s.subnetIds[i] == SubnetId(ZoneName(name, i)))
      && (forall i :: 0 <= i < n ==>
        s.publicSubnetIds[i] == SubnetId(if usePrivateSubnets then NatName(name, i) else ZoneName(name, i)))
      && SubnetsDisjoint(s.zones)
  {
    IdLists(d, name, n, usePrivateSubnets);
    ZonesDisjoint(d, name, n, usePrivateSubnets);
  }
}
