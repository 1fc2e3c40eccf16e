// The `Vpc` component of the awsx Node package (nodejs/awsx/ec2/vpc.ts):
// choosing the availability zones, the defaults of a new VPC, laying the
// subnets, NAT gateways and NAT routes a topology describes onto the VPC,
// the internet gateway, wrapping existing ids, and the per-provider cache of
// default VPCs. Ids of created resources are references to them by name.
module AwsxVpc {
  import opened Wrappers
  import opened Text
  import LegacyNetwork

  type Ref = LegacyNetwork.Ref

  /** The errors the component raises. */
  datatype VpcError =
    | MismatchedZones
    | UnmatchedZones
    | MissingPublicSubnet(publicSubnet: string)
    | MissingPrivateSubnet(privateSubnet: string)
    | MissingNatGateway(natGateway: string)
    | InternetGatewayExists
    | UnexpectedSubnetType(kind: string)

  /** The text of an error. */
  function Message(e: VpcError): string
  {
    MessageText(e, 1)
  }

  /**
   * The text of each error, reached once the fuel argument runs out: the
   * verifier unfolds it only where a proof asks for the words, which keeps
   * the long literals out of the proofs that only compare errors.
   */
  function MessageText(e: VpcError, fuel: nat): string
  {
    if fuel > 0 then MessageText(e, fuel - 1)
    else match e
      case MismatchedZones => "Availability zones for region had mismatched names and ids."
      case UnmatchedZones => "Availability zones did not match requested zones"
      case MissingPublicSubnet(n) => "Could not find public subnet named " + n
      case MissingPrivateSubnet(n) => "Could not find private subnet named " + n
      case MissingNatGateway(n) => "Could not find nat gateway named " + n
      case InternetGatewayExists => "Cannot add InternetGateway to Vpc that already has one."
      case UnexpectedSubnetType(t) => "Unexpected subnet type: " + t
  }

  // ---------------------------------------------------------------------
  // Availability zones

  /** One availability zone of the region: its name and its zone id. */
  datatype ZoneDescription = ZoneDescription(name: string, id: string)

  /** `requestedAvailabilityZones`: a count, "all", or a list of zone names. */
  datatype ZoneRequest = ZoneCount(count: int) | AllZones | ZoneNames(names: seq<string>)

  /**
   * `args.requestedAvailabilityZones ?? args.numberOfAvailabilityZones`,
   * with the parameter default of two zones when both are absent.
   */
  function RequestedZones(requested: Option<ZoneRequest>, number: Option<ZoneRequest>): (r: ZoneRequest)
    ensures requested.Some? ==> r == requested.value
    ensures requested.None? && number.Some? ==> r == number.value
    ensures requested.None? && number.None? ==> r == ZoneCount(2)
  {
    if requested.Some? then requested.value else number.GetOr(ZoneCount(2))
  }

  /** The region's zones, the i-th name paired with the i-th zone id. */
  function Describe(names: seq<string>, zoneIds: seq<string>): (r: seq<ZoneDescription>)
    requires |names| == |zoneIds|
    ensures |r| == |names| && forall i :: 0 <= i < |names| ==> r[i] == ZoneDescription(names[i], zoneIds[i])
  {
    seq(|names|, i requires 0 <= i < |names| => ZoneDescription(names[i], zoneIds[i]))
  }

  /**
   * Where `Array.prototype.slice(0, end)` stops on a list of the given
   * length: a negative end counts back from the length, and the result is
   * clamped to the list.
   */
  function SliceEnd(length: nat, end: int): (r: nat)
    ensures r <= length
    ensures 0 <= end <= length ==> r == end
    ensures end > length ==> r == length
    ensures end < 0 ==> r == if length + end < 0 then 0 else length + end
  {
    if end < 0 then (if length + end < 0 then 0 else length + end)
    else if end > length then length
    else end
  }

  /** `descriptions.filter(zone => requestedZones.includes(zone.name))`. */
  function FilterZones(zones: seq<ZoneDescription>, wanted: seq<string>): (r: seq<ZoneDescription>)
    ensures |r| <= |zones|
    ensures forall z :: z in r ==> z in zones && z.name in wanted
    ensures forall z :: z in zones && z.name in wanted ==> z in r
  {
    if |zones| == 0 then []
    else (if zones[0].name in wanted then [zones[0]] else []) + FilterZones(zones[1..], wanted)
  }

  /**
   * `getAvailabilityZones`: the region's names and zone ids must be as many;
   * a list of names keeps the region's zones with those names, in region
   * order, and rejects unless as many were found as were named; a count or
   * "all" takes a prefix of the region's zones.
   */
  function GetAvailabilityZones(names: seq<string>, zoneIds: seq<string>, request: ZoneRequest): (r: Result<seq<ZoneDescription>>)
    ensures |names| != |zoneIds| ==> r == Fail(Message(MismatchedZones))
    ensures r.Fail? ==> r.error in {Message(MismatchedZones), Message(UnmatchedZones)}
    ensures r.Fail? && |names| == |zoneIds| ==> request.ZoneNames?
    ensures r.Ok? && request.ZoneNames? ==>
      |r.value| == |request.names| && forall z :: z in r.value ==> z.name in request.names
    ensures r.Ok? && request.ZoneNames? ==> r.value == FilterZones(Describe(names, zoneIds), request.names)
    ensures r.Ok? && request.AllZones? ==> r.value == Describe(names, zoneIds)
    ensures r.Ok? && request.ZoneCount? && 0 <= request.count ==>
      |r.value| == (if request.count < |names| then request.count else |names|)
    ensures r.Ok? && !request.ZoneNames? ==> r.value <= Describe(names, zoneIds)
  {
    if |names| != |zoneIds| then Fail(Message(MismatchedZones))
    else
      var descriptions := Describe(names, zoneIds);
      match request
      case ZoneNames(wanted) =>
        var mapped := FilterZones(descriptions, wanted);
        if |mapped| == |wanted| then Ok(mapped) else Fail(Message(UnmatchedZones))
      case AllZones => Ok(descriptions)
      case ZoneCount(n) => Ok(descriptions[..SliceEnd(|descriptions|, n)])
  }

  /** No two entries of a list are equal. */
  predicate Distinct(s: seq<string>)
  {
    forall i, j :: 0 <= i < j < |s| ==> s[i] != s[j]
  }

  /** The names of the given zones that are wanted. */
  function WantedNames(zones: seq<ZoneDescription>, wanted: seq<string>): set<string>
  {
    set z | z in zones && z.name in wanted :: z.name
  }

  /** When the zone names are distinct, the filter keeps one zone per wanted name the region has. */
  lemma {:induction false} FilterCount(zones: seq<ZoneDescription>, wanted: seq<string>)
    requires forall i, j :: 0 <= i < j < |zones| ==> zones[i].name != zones[j].name
    ensures |FilterZones(zones, wanted)| == |WantedNames(zones, wanted)|
  {
    if |zones| > 0 {
      FilterCount(zones[1..], wanted);
      var rest := WantedNames(zones[1..], wanted);
      assert zones[0].name !in rest;
      assert zones == [zones[0]] + zones[1..];
      if zones[0].name in wanted {
        assert WantedNames(zones, wanted) == {zones[0].name} + rest;
      } else {
        assert WantedNames(zones, wanted) == rest;
      }
    }
  }

  /** A list of distinct entries has as many elements as entries. */
  lemma {:induction false} DistinctCard(s: seq<string>)
    requires Distinct(s)
    ensures |set x | x in s| == |s|
  {
    if |s| > 0 {
      DistinctCard(s[1..]);
      assert (set x | x in s) == {s[0]} + (set x | x in s[1..]);
      assert s[0] !in (set x | x in s[1..]);
    }
  }

  /** A proper subset is smaller than its superset. */
  lemma StrictSubsetSmaller(a: set<string>, b: set<string>)
    requires a <= b && a != b
    ensures |a| < |b|
  {
    assert b - a != {};
    var x :| x in b - a;
    assert a <= b - {x};
    SubsetSize(a, b - {x});
  }

  /** A subset is no larger than its superset. */
  lemma {:induction false} SubsetSize(a: set<string>, b: set<string>)
    requires a <= b
    ensures |a| <= |b|
  {
    if a != {} {
      var x :| x in a;
      SubsetSize(a - {x}, b - {x});
    }
  }

  /**
   * With distinct zone names and distinct requested names, a list request
   * succeeds exactly when the region has every zone named.
   */
  lemma NamedZonesFound(names: seq<string>, zoneIds: seq<string>, wanted: seq<string>)
    requires |names| == |zoneIds| && Distinct(names) && Distinct(wanted)
    ensures GetAvailabilityZones(names, zoneIds, ZoneNames(wanted)).Ok? <==> (forall n :: n in wanted ==> n in names)
  {
    FilterMatches(names, zoneIds, wanted);
  }

  /** The filter finds as many zones as were named exactly when every name is the region's. */
  lemma FilterMatches(names: seq<string>, zoneIds: seq<string>, wanted: seq<string>)
    requires |names| == |zoneIds| && Distinct(names) && Distinct(wanted)
    ensures |FilterZones(Describe(names, zoneIds), wanted)| == |wanted| <==> (forall n :: n in wanted ==> n in names)
  {
    var zones := Describe(names, zoneIds);
    FilterCount(zones, wanted);
    DistinctCard(wanted);
    WantedNamesAre(names, zoneIds, wanted);
    var found := WantedNames(zones, wanted);
    var all := set x | x in wanted;
    assert found <= all;
    if forall n :: n in wanted ==> n in names {
      assert found == all;
    } else {
      var n :| n in wanted && n !in names;
      assert n in all - found;
      StrictSubsetSmaller(found, all);
    }
  }

  /** The wanted names the region has are the wanted names that are zone names. */
  lemma WantedNamesAre(names: seq<string>, zoneIds: seq<string>, wanted: seq<string>)
    requires |names| == |zoneIds|
    ensures WantedNames(Describe(names, zoneIds), wanted) == set n | n in wanted && n in names
  {
    var zones := Describe(names, zoneIds);
    forall n | n in wanted && n in names
      ensures n in WantedNames(zones, wanted)
    {
      var i :| 0 <= i < |names| && names[i] == n;
      assert zones[i] in zones;
    }
  }

  /** Asking for a zone twice can never be satisfied: the filter finds each zone once. */
  lemma RepeatedNameRejected(names: seq<string>, zoneIds: seq<string>, wanted: seq<string>)
    requires |names| == |zoneIds| && Distinct(names)
    requires !Distinct(wanted)
    ensures GetAvailabilityZones(names, zoneIds, ZoneNames(wanted)).Fail?
  {
    var zones := Describe(names, zoneIds);
    FilterCount(zones, wanted);
    var i, j :| 0 <= i < j < |wanted| && wanted[i] == wanted[j];
    var all := set x | x in wanted;
    assert WantedNames(zones, wanted) <= all;
    SubsetSize(WantedNames(zones, wanted), all);
    SetOfRepeated(wanted, i, j);
  }

  /** A list with a repeated entry has fewer elements than entries. */
  lemma {:induction false} SetOfRepeated(s: seq<string>, i: nat, j: nat)
    requires i < j < |s| && s[i] == s[j]
    ensures |set x | x in s| < |s|
  {
    var t := s[..j] + s[j + 1..];
    assert s == s[..j] + [s[j]] + s[j + 1..];
    assert (set x | x in s) == (set x | x in t) by {
      assert s[j] == t[i];
    }
    SetSize(t);
  }

  /** A list has at most as many elements as entries. */
  lemma {:induction false} SetSize(s: seq<string>)
    ensures |set x | x in s| <= |s|
  {
    if |s| > 0 {
      SetSize(s[1..]);
      assert (set x | x in s) == {s[0]} + (set x | x in s[1..]);
    }
  }

  // ---------------------------------------------------------------------
  // Subnets, gateways and routes

  datatype Kind = PublicKind | PrivateKind | IsolatedKind

  function KindName(k: Kind): string
  {
    match k
    case PublicKind => "public"
    case PrivateKind => "private"
    case IsolatedKind => "isolated"
  }

  /** The `switch` on a subnet type: the three known spellings, nothing else. */
  function ParseKind(t: string): (r: Option<Kind>)
    ensures r.Some? <==> t in {"public", "private", "isolated"}
    ensures r.Some? ==> KindName(r.value) == t
  {
    if t == "public" then Some(PublicKind)
    else if t == "private" then Some(PrivateKind)
    else if t == "isolated" then Some(IsolatedKind)
    else None
  }

  /** A subnet of the VPC: its name, its id, and the zone fields it was created with. */
  datatype Subnet = Subnet(name: string, id: Ref, availabilityZone: Option<string>, availabilityZoneId: Option<string>)

  /** Where a NAT gateway comes from: placed in a subnet, or an existing gateway's id. */
  datatype NatPlacement = InSubnet(subnet: Subnet) | ExistingGateway(id: string)

  datatype NatGateway = NatGateway(name: string, placement: NatPlacement)

  /** An internet gateway, with the id of the existing gateway it wraps, if any. */
  datatype InternetGateway = InternetGateway(name: string, existingId: Option<string>)

  datatype Target = ToInternetGateway(gateway: string) | ToNatGateway(gateway: string)

  /** A route a subnet's `createRoute` adds: the subnet, the route's name, and where it leads. */
  datatype Route = Route(subnet: string, name: string, target: Target)

  /** JavaScript truthiness of an optional string: present and not empty. */
  predicate Truthy(s: Option<string>)
  {
    s.Some? && s.value != ""
  }

  /** One subnet of a topology: its type, its name and the zone fields of its arguments. */
  datatype SubnetDescription = SubnetDescription(kind: Kind, subnetName: string,
    availabilityZone: Option<string>, availabilityZoneId: Option<string>)

  /** A NAT gateway a topology asks for, and the public subnet it goes in. */
  datatype NatGatewayDescription = NatGatewayDescription(name: string, publicSubnet: string)

  /** A NAT route a topology asks for: the private subnet it leaves and the gateway it leads to. */
  datatype NatRouteDescription = NatRouteDescription(name: string, privateSubnet: string, natGateway: string)

  /** What `topology.create` returns. */
  datatype Layout = Layout(subnets: seq<SubnetDescription>, natGateways: seq<NatGatewayDescription>,
    natRoutes: seq<NatRouteDescription>)

  /**
   * The subnet `partition` creates for a description: the zone name as
   * given, and the zone id only when the zone name is not truthy, so that
   * at most one of the two is set.
   */
  function CreatedSubnet(desc: SubnetDescription): (r: Subnet)
    ensures r.name == desc.subnetName && r.id == LegacyNetwork.SubnetId(desc.subnetName)
    ensures r.availabilityZone == desc.availabilityZone
    ensures !(Truthy(r.availabilityZone) && r.availabilityZoneId.Some?)
    ensures !Truthy(desc.availabilityZone) ==> r.availabilityZoneId == desc.availabilityZoneId
  {
    var zoneId := if Truthy(desc.availabilityZone) then None else desc.availabilityZoneId;
    Subnet(desc.subnetName, LegacyNetwork.SubnetId(desc.subnetName), desc.availabilityZone, zoneId)
  }

  /** The subnets of one type that `partition` creates, in the topology's order. */
  function SubnetsOfKind(descs: seq<SubnetDescription>, kind: Kind): (r: seq<Subnet>)
    ensures |r| <= |descs|
  {
    if |descs| == 0 then []
    else
      var last := descs[|descs| - 1];
      assert descs == descs[..|descs| - 1] + [last];
      SubnetsOfKind(descs[..|descs| - 1], kind) + (if last.kind == kind then [CreatedSubnet(last)] else [])
  }

  /** One more description adds its subnet to its own type's list only. */
  lemma SubnetsOfKindStep(descs: seq<SubnetDescription>, desc: SubnetDescription, kind: Kind)
    ensures SubnetsOfKind(descs + [desc], kind) == SubnetsOfKind(descs, kind) + (if desc.kind == kind then [CreatedSubnet(desc)] else [])
  {
    assert (descs + [desc])[..|descs|] == descs;
  }

  /** The subnets of a type are those of the descriptions of that type, each created as described. */
  lemma {:induction false} SubnetsOfKindMembers(descs: seq<SubnetDescription>, kind: Kind)
    ensures forall s :: s in SubnetsOfKind(descs, kind) ==> exists d :: d in descs && d.kind == kind && s == CreatedSubnet(d)
    ensures forall d :: d in descs && d.kind == kind ==> CreatedSubnet(d) in SubnetsOfKind(descs, kind)
  {
    if |descs| > 0 {
      var prefix := descs[..|descs| - 1];
      SubnetsOfKindMembers(prefix, kind);
      assert descs == prefix + [descs[|descs| - 1]];
      SubnetsOfKindStep(prefix, descs[|descs| - 1], kind);
    }
  }

  /** `subnets.find(s => s.subnetName === name)`: the first subnet of that name. */
  function FindSubnet(subnets: seq<Subnet>, name: string): (r: Option<nat>)
    ensures r.None? <==> forall i :: 0 <= i < |subnets| ==> subnets[i].name != name
    ensures r.Some? ==> r.value < |subnets| && subnets[r.value].name == name
    ensures r.Some? ==> forall i :: 0 <= i < r.value ==> subnets[i].name != name
  {
    if |subnets| == 0 then None
    else if subnets[0].name == name then Some(0)
    else match FindSubnet(subnets[1..], name)
      case None => None
      case Some(k) => Some(k + 1)
  }

  /** `natGateways.find(g => g.natGatewayName === name)`: the first gateway of that name. */
  function FindGateway(gateways: seq<NatGateway>, name: string): (r: Option<nat>)
    ensures r.None? <==> forall i :: 0 <= i < |gateways| ==> gateways[i].name != name
    ensures r.Some? ==> r.value < |gateways| && gateways[r.value].name == name
    ensures r.Some? ==> forall i :: 0 <= i < r.value ==> gateways[i].name != name
  {
    if |gateways| == 0 then None
    else if gateways[0].name == name then Some(0)
    else match FindGateway(gateways[1..], name)
      case None => None
      case Some(k) => Some(k + 1)
  }

  /** Whether the public subnet a gateway description names exists. */
  predicate HasPublicSubnet(public: seq<Subnet>, desc: NatGatewayDescription)
  {
    FindSubnet(public, desc.publicSubnet).Some?
  }

  /**
   * The gateways of `partition`'s second loop: each description's gateway
   * goes in the first public subnet of the name it gives; the first
   * description whose subnet is missing names the error.
   */
  function NatGatewaysFor(public: seq<Subnet>, descs: seq<NatGatewayDescription>): (r: Result<seq<NatGateway>>)
    ensures r.Ok? ==> |r.value| == |descs|
  {
    if |descs| == 0 then Ok([])
    else
      var prefix := descs[..|descs| - 1];
      var last := descs[|descs| - 1];
      var made := NatGatewaysFor(public, prefix);
      if made.Fail? then made
      else
        var gateway := GatewayFor(public, last);
        if gateway.Fail? then Fail(gateway.error) else Ok(made.value + [gateway.value])
  }

  /** The gateway of one description, in the first public subnet of the name it gives, or the error. */
  function GatewayFor(public: seq<Subnet>, desc: NatGatewayDescription): (r: Result<NatGateway>)
    ensures r.Ok? <==> HasPublicSubnet(public, desc)
    ensures r.Ok? ==> r.value == NatGateway(desc.name, InSubnet(public[FindSubnet(public, desc.publicSubnet).value]))
    ensures r.Ok? ==> r.value.placement.subnet.name == desc.publicSubnet
    ensures r.Fail? ==> r.error == Message(MissingPublicSubnet(desc.publicSubnet))
  {
    match FindSubnet(public, desc.publicSubnet)
    case None => Fail(Message(MissingPublicSubnet(desc.publicSubnet)))
    case Some(k) => Ok(NatGateway(desc.name, InSubnet(public[k])))
  }

  /** Whether the private subnet and the gateway a route description names both exist. */
  predicate RouteResolves(private: seq<Subnet>, gateways: seq<NatGateway>, desc: NatRouteDescription)
  {
    FindSubnet(private, desc.privateSubnet).Some? && FindGateway(gateways, desc.natGateway).Some?
  }

  /** The error for a route description that does not resolve: the missing subnet before the missing gateway. */
  function RouteError(private: seq<Subnet>, desc: NatRouteDescription): string
  {
    if FindSubnet(private, desc.privateSubnet).None? then Message(MissingPrivateSubnet(desc.privateSubnet))
    else Message(MissingNatGateway(desc.natGateway))
  }

  /**
   * The routes of `partition`'s third loop: each description routes its
   * private subnet to its gateway, both found by name; the first
   * description that does not resolve names the error.
   */
  function NatRoutesFor(private: seq<Subnet>, gateways: seq<NatGateway>, descs: seq<NatRouteDescription>): (r: Result<seq<Route>>)
    ensures r.Ok? ==> |r.value| == |descs|
  {
    if |descs| == 0 then Ok([])
    else
      var prefix := descs[..|descs| - 1];
      var last := descs[|descs| - 1];
      var made := NatRoutesFor(private, gateways, prefix);
      if made.Fail? then made
      else
        var route := RouteFor(private, gateways, last);
        if route.Fail? then Fail(route.error) else Ok(made.value + [route.value])
  }

  /**
   * The route of one description: from the first private subnet of its
   * name to the first gateway of its name, or the error for whichever is
   * missing, the subnet checked first.
   */
  function RouteFor(private: seq<Subnet>, gateways: seq<NatGateway>, desc: NatRouteDescription): (r: Result<Route>)
    ensures r.Ok? <==> RouteResolves(private, gateways, desc)
    ensures r.Ok? ==> r.value == Route(desc.privateSubnet, desc.name, ToNatGateway(desc.natGateway))
    ensures r.Fail? ==> r.error == RouteError(private, desc)
  {
    match FindSubnet(private, desc.privateSubnet)
    case None => Fail(Message(MissingPrivateSubnet(desc.privateSubnet)))
    case Some(k) =>
      match FindGateway(gateways, desc.natGateway)
      case None => Fail(Message(MissingNatGateway(desc.natGateway)))
      case Some(g) => Ok(Route(private[k].name, desc.name, ToNatGateway(gateways[g].name)))
  }

  /** One more gateway description: the gateways so far plus its gateway, or its error. */
  lemma NatGatewaysStep(public: seq<Subnet>, descs: seq<NatGatewayDescription>, desc: NatGatewayDescription)
    requires NatGatewaysFor(public, descs).Ok?
    ensures var r := NatGatewaysFor(public, descs + [desc]);
      var gateway := GatewayFor(public, desc);
      if gateway.Ok? then r == Ok(NatGatewaysFor(public, descs).value + [gateway.value]) else r == Fail(gateway.error)
  {
    assert (descs + [desc])[..|descs|] == descs;
  }

  /** One more route description: the routes so far plus its route, or its error. */
  lemma NatRoutesStep(private: seq<Subnet>, gateways: seq<NatGateway>, descs: seq<NatRouteDescription>, desc: NatRouteDescription)
    requires NatRoutesFor(private, gateways, descs).Ok?
    ensures var r := NatRoutesFor(private, gateways, descs + [desc]);
      var route := RouteFor(private, gateways, desc);
      if route.Ok? then r == Ok(NatRoutesFor(private, gateways, descs).value + [route.value]) else r == Fail(route.error)
  {
    assert (descs + [desc])[..|descs|] == descs;
  }

  /** Once a prefix of the descriptions fails, the whole list fails with the same error. */
  lemma {:induction false} NatGatewaysPrefixFails(public: seq<Subnet>, descs: seq<NatGatewayDescription>, k: nat)
    requires k <= |descs| && NatGatewaysFor(public, descs[..k]).Fail?
    ensures NatGatewaysFor(public, descs) == NatGatewaysFor(public, descs[..k])
    decreases |descs| - k
  {
    if k < |descs| {
      assert descs[..k + 1][..k] == descs[..k];
      NatGatewaysPrefixFails(public, descs, k + 1);
    } else {
      assert descs[..k] == descs;
    }
  }

  /** Turn i of the gateway loop: its gateway extends the run, or its error is the whole run's. */
  lemma GatewayLoopStep(public: seq<Subnet>, descs: seq<NatGatewayDescription>, i: nat, made: seq<NatGateway>,
                        gateway: Result<NatGateway>)
    requires i < |descs| && NatGatewaysFor(public, descs[..i]) == Ok(made) && gateway == GatewayFor(public, descs[i])
    ensures gateway.Ok? ==> NatGatewaysFor(public, descs[..i + 1]) == Ok(made + [gateway.value])
    ensures gateway.Fail? ==> NatGatewaysFor(public, descs) == Fail(gateway.error)
  {
    var prefix, desc := descs[..i], descs[i];
    assert descs[..i + 1] == prefix + [desc];
    NatGatewaysStep(public, prefix, desc);
    if gateway.Fail? {
      assert NatGatewaysFor(public, descs[..i + 1]) == Fail(gateway.error);
      NatGatewaysPrefixFails(public, descs, i + 1);
    }
  }

  /** Turn i of the route loop: its route extends the run, or its error is the whole run's. */
  lemma RouteLoopStep(private: seq<Subnet>, gateways: seq<NatGateway>, descs: seq<NatRouteDescription>, i: nat,
                      made: seq<Route>, route: Result<Route>)
    requires i < |descs| && NatRoutesFor(private, gateways, descs[..i]) == Ok(made)
    requires route == RouteFor(private, gateways, descs[i])
    ensures route.Ok? ==> NatRoutesFor(private, gateways, descs[..i + 1]) == Ok(made + [route.value])
    ensures route.Fail? ==> NatRoutesFor(private, gateways, descs) == Fail(route.error)
  {
    var prefix, desc := descs[..i], descs[i];
    assert descs[..i + 1] == prefix + [desc];
    NatRoutesStep(private, gateways, prefix, desc);
    if route.Fail? {
      assert NatRoutesFor(private, gateways, descs[..i + 1]) == Fail(route.error);
      NatRoutesPrefixFails(private, gateways, descs, i + 1);
    }
  }

  lemma TakeAll<T>(s: seq<T>)
    ensures s[..|s|] == s
  {
  }

  /** Once a prefix of the descriptions fails, the whole list fails with the same error. */
  lemma {:induction false} NatRoutesPrefixFails(private: seq<Subnet>, gateways: seq<NatGateway>, descs: seq<NatRouteDescription>, k: nat)
    requires k <= |descs| && NatRoutesFor(private, gateways, descs[..k]).Fail?
    ensures NatRoutesFor(private, gateways, descs) == NatRoutesFor(private, gateways, descs[..k])
    decreases |descs| - k
  {
    if k < |descs| {
      assert descs[..k + 1][..k] == descs[..k];
      NatRoutesPrefixFails(private, gateways, descs, k + 1);
    } else {
      assert descs[..k] == descs;
    }
  }

  /**
   * The gateways are made exactly when every description's public subnet
   * exists, and then gateway i is description i's, in the first public
   * subnet of that name.
   */
  lemma {:induction false} NatGatewaysMade(public: seq<Subnet>, descs: seq<NatGatewayDescription>)
    ensures NatGatewaysFor(public, descs).Ok? <==> forall i :: 0 <= i < |descs| ==> HasPublicSubnet(public, descs[i])
    ensures NatGatewaysFor(public, descs).Ok? ==> forall i :: 0 <= i < |descs| ==>
      NatGatewaysFor(public, descs).value[i] == NatGateway(descs[i].name, InSubnet(public[FindSubnet(public, descs[i].publicSubnet).value]))
  {
    if |descs| > 0 {
      var prefix := descs[..|descs| - 1];
      NatGatewaysMade(public, prefix);
      assert descs == prefix + [descs[|descs| - 1]];
      if NatGatewaysFor(public, prefix).Ok? {
        NatGatewaysStep(public, prefix, descs[|descs| - 1]);
      }
    }
  }

  /** A failure names the public subnet of the first description whose subnet is missing. */
  lemma {:induction false} NatGatewaysFailure(public: seq<Subnet>, descs: seq<NatGatewayDescription>)
    requires NatGatewaysFor(public, descs).Fail?
    ensures exists i :: (0 <= i < |descs| && !HasPublicSubnet(public, descs[i])
      && (forall j :: 0 <= j < i ==> HasPublicSubnet(public, descs[j]))
      && NatGatewaysFor(public, descs).error == Message(MissingPublicSubnet(descs[i].publicSubnet)))
  {
    var n := |descs| - 1;
    var prefix := descs[..n];
    var r := NatGatewaysFor(public, descs);
    if NatGatewaysFor(public, prefix).Fail? {
      assert r == NatGatewaysFor(public, prefix);
      NatGatewaysFailure(public, prefix);
      var i :| 0 <= i < |prefix| && !HasPublicSubnet(public, prefix[i])
        && (forall j :: 0 <= j < i ==> HasPublicSubnet(public, prefix[j]))
        && NatGatewaysFor(public, prefix).error == Message(MissingPublicSubnet(prefix[i].publicSubnet));
      assert forall j :: 0 <= j <= i ==> prefix[j] == descs[j];
      assert !HasPublicSubnet(public, descs[i]) && r.error == Message(MissingPublicSubnet(descs[i].publicSubnet));
    } else {
      NatGatewaysMade(public, prefix);
      assert forall j :: 0 <= j < n ==> prefix[j] == descs[j];
      var gateway := GatewayFor(public, descs[n]);
      assert r == Fail(gateway.error);
      assert !HasPublicSubnet(public, descs[n]) && r.error == Message(MissingPublicSubnet(descs[n].publicSubnet));
    }
  }

  /**
   * The routes are made exactly when every description resolves, and then
   * route i leaves description i's private subnet for its gateway.
   */
  lemma {:induction false} NatRoutesMade(private: seq<Subnet>, gateways: seq<NatGateway>, descs: seq<NatRouteDescription>)
    ensures NatRoutesFor(private, gateways, descs).Ok? <==> forall i :: 0 <= i < |descs| ==> RouteResolves(private, gateways, descs[i])
    ensures NatRoutesFor(private, gateways, descs).Ok? ==> forall i :: 0 <= i < |descs| ==>
      NatRoutesFor(private, gateways, descs).value[i] == Route(descs[i].privateSubnet, descs[i].name, ToNatGateway(descs[i].natGateway))
  {
    if |descs| > 0 {
      var prefix := descs[..|descs| - 1];
      NatRoutesMade(private, gateways, prefix);
      assert descs == prefix + [descs[|descs| - 1]];
      if NatRoutesFor(private, gateways, prefix).Ok? {
        NatRoutesStep(private, gateways, prefix, descs[|descs| - 1]);
      }
    }
  }

  /** A failure names what the first unresolved description misses: its private subnet first, else its gateway. */
  lemma {:induction false} NatRoutesFailure(private: seq<Subnet>, gateways: seq<NatGateway>, descs: seq<NatRouteDescription>)
    requires NatRoutesFor(private, gateways, descs).Fail?
    ensures exists i :: (0 <= i < |descs| && !RouteResolves(private, gateways, descs[i])
      && (forall j :: 0 <= j < i ==> RouteResolves(private, gateways, descs[j]))
      && NatRoutesFor(private, gateways, descs).error == RouteError(private, descs[i]))
  {
    var n := |descs| - 1;
    var prefix := descs[..n];
    var r := NatRoutesFor(private, gateways, descs);
    if NatRoutesFor(private, gateways, prefix).Fail? {
      assert r == NatRoutesFor(private, gateways, prefix);
      NatRoutesFailure(private, gateways, prefix);
      var i :| 0 <= i < |prefix| && !RouteResolves(private, gateways, prefix[i])
        && (forall j :: 0 <= j < i ==> RouteResolves(private, gateways, prefix[j]))
        && NatRoutesFor(private, gateways, prefix).error == RouteError(private, prefix[i]);
      assert forall j :: 0 <= j <= i ==> prefix[j] == descs[j];
      assert !RouteResolves(private, gateways, descs[i]) && r.error == RouteError(private, descs[i]);
    } else {
      NatRoutesMade(private, gateways, prefix);
      assert forall j :: 0 <= j < n ==> prefix[j] == descs[j];
      var route := RouteFor(private, gateways, descs[n]);
      assert r == Fail(route.error);
      assert !RouteResolves(private, gateways, descs[n]) && r.error == RouteError(private, descs[n]);
    }
  }

  /** The "ig" route from each of the subnets to the internet gateway, in order. */
  function InternetRoutes(gateway: string, subnets: seq<Subnet>): (r: seq<Route>)
    ensures |r| == |subnets| && forall i :: 0 <= i < |subnets| ==> r[i] == Route(subnets[i].name, "ig", ToInternetGateway(gateway))
  {
    seq(|subnets|, i requires 0 <= i < |subnets| => Route(subnets[i].name, "ig", ToInternetGateway(gateway)))
  }

  // ---------------------------------------------------------------------
  // The VPC's state

  /** The settings a new VPC resource is created with. */
  datatype VpcSettings = VpcSettings(cidrBlock: string, enableDnsHostnames: bool, enableDnsSupport: bool,
    instanceTenancy: string, assignGeneratedIpv6CidrBlock: bool)

  /** One entry of `VpcArgs.subnets`, as far as the topology reads it. */
  datatype SubnetArgs = SubnetArgs(kind: Kind, name: Option<string>, cidrMask: Option<int>)

  /** `VpcArgs`; `None` is an omitted field. */
  datatype VpcArgs = VpcArgs(
    cidrBlock: Option<string>,
    requestedAvailabilityZones: Option<ZoneRequest>,
    numberOfAvailabilityZones: Option<ZoneRequest>,
    numberOfNatGateways: Option<int>,
    assignGeneratedIpv6CidrBlock: Option<bool>,
    enableDnsHostnames: Option<bool>,
    enableDnsSupport: Option<bool>,
    instanceTenancy: Option<string>,
    subnets: Option<seq<SubnetArgs>>)

  /** `VpcArgs` with every field omitted. */
  const NoVpcArgs := VpcArgs(None, None, None, None, None, None, None, None, None)

  /** `ExistingVpcIdArgs`: the ids of an existing VPC and of its parts. */
  datatype ExistingIdArgs = ExistingIdArgs(
    vpcId: string,
    publicSubnetIds: Option<seq<string>>,
    privateSubnetIds: Option<seq<string>>,
    isolatedSubnetIds: Option<seq<string>>,
    internetGatewayId: Option<string>,
    natGatewayIds: Option<seq<string>>)

  /** What the new-VPC path of `VpcData` settles before calling the topology. */
  datatype Config = Config(settings: VpcSettings, zones: seq<ZoneDescription>, natCount: int, subnets: seq<SubnetArgs>)

  /**
   * The defaults of a new VPC: the 10.0.0.0/16 block, one NAT gateway per
   * zone, no IPv6 block, DNS hostnames and support on, default tenancy, and
   * a public and a private subnet per zone; a field that is given is kept.
   */
  function Defaults(args: VpcArgs, zones: seq<ZoneDescription>): (r: Config)
    ensures r.zones == zones
    ensures r.settings.cidrBlock == args.cidrBlock.GetOr("10.0.0.0/16")
    ensures args.numberOfNatGateways.None? ==> r.natCount == |zones|
    ensures args.numberOfNatGateways.Some? ==> r.natCount == args.numberOfNatGateways.value
    ensures r.settings.assignGeneratedIpv6CidrBlock == args.assignGeneratedIpv6CidrBlock.GetOr(false)
    ensures r.settings.enableDnsHostnames == args.enableDnsHostnames.GetOr(true)
    ensures r.settings.enableDnsSupport == args.enableDnsSupport.GetOr(true)
    ensures r.settings.instanceTenancy == args.instanceTenancy.GetOr("default")
    ensures args.subnets.None? ==> r.subnets == [SubnetArgs(PublicKind, None, None), SubnetArgs(PrivateKind, None, None)]
    ensures args.subnets.Some? ==> r.subnets == args.subnets.value
  {
    Config(
      VpcSettings(args.cidrBlock.GetOr("10.0.0.0/16"), args.enableDnsHostnames.GetOr(true), args.enableDnsSupport.GetOr(true),
        args.instanceTenancy.GetOr("default"), args.assignGeneratedIpv6CidrBlock.GetOr(false)),
      zones,
      args.numberOfNatGateways.GetOr(|zones|),
      args.subnets.GetOr([SubnetArgs(PublicKind, None, None), SubnetArgs(PrivateKind, None, None)]))
  }

  /**
   * The topology (vpcTopology.ts): from the VPC name, its CIDR block, the
   * zones, the NAT gateway count, the IPv6 flag and the subnet arguments,
   * the subnets, NAT gateways and NAT routes to create, or the error it
   * throws.
   */
  type Topology = (string, string, seq<ZoneDescription>, int, bool, seq<SubnetArgs>) -> Result<Layout>

  /** Every field of a `VpcData` but the id lists, which `Valid` ties to the subnets. */
  datatype VpcState = VpcState(vpcId: Ref, settings: Option<VpcSettings>, public: seq<Subnet>, private: seq<Subnet>,
    isolated: seq<Subnet>, internetGateway: Option<InternetGateway>, natGateways: seq<NatGateway>, routes: seq<Route>)

  /** A VPC with nothing in it yet. */
  function EmptyState(vpcId: Ref, settings: Option<VpcSettings>): VpcState
  {
    VpcState(vpcId, settings, [], [], [], None, [], [])
  }

  /** The ids of a list of subnets, in order. */
  function Ids(subnets: seq<Subnet>): (r: seq<Ref>)
    ensures |r| == |subnets| && forall i :: 0 <= i < |subnets| ==> r[i] == subnets[i].id
  {
    seq(|subnets|, i requires 0 <= i < |subnets| => subnets[i].id)
  }

  lemma IdsAppend(a: seq<Subnet>, b: seq<Subnet>)
    ensures Ids(a + b) == Ids(a) + Ids(b)
  {
  }

  /** The subnets `getExistingSubnets` wraps: input i becomes `${vpcName}-${type}-${i}` with that id. */
  /** The first i + 1 wrapped subnets are the first i and the wrapped input i. */
  lemma ExistingSubnetsStep(vpcName: string, kind: Kind, inputs: seq<string>, i: nat)
    requires i < |inputs|
    ensures ExistingSubnets(vpcName, kind, inputs)[..i + 1] == ExistingSubnets(vpcName, kind, inputs)[..i]
      + [Subnet(vpcName + "-" + KindName(kind) + "-" + NatToString(i), LegacyNetwork.Given(inputs[i]), None, None)]
  {
    var made := ExistingSubnets(vpcName, kind, inputs);
    assert made[..i + 1] == made[..i] + [made[i]];
  }

  function ExistingSubnets(vpcName: string, kind: Kind, inputs: seq<string>): (r: seq<Subnet>)
    ensures |r| == |inputs|
    ensures forall i :: 0 <= i < |inputs| ==> r[i].name == vpcName + "-" + KindName(kind) + "-" + NatToString(i)
    ensures Ids(r) == LegacyNetwork.Givens(inputs)
  {
    seq(|inputs|, i requires 0 <= i < |inputs| =>
      Subnet(vpcName + "-" + KindName(kind) + "-" + NatToString(i), LegacyNetwork.Given(inputs[i]), None, None))
  }

  /** The existing NAT gateways: id i becomes `${name}-nat-${i}`. */
  function ExistingGateways(name: string, ids: seq<string>): (r: seq<NatGateway>)
    ensures |r| == |ids|
    ensures forall i :: 0 <= i < |ids| ==> r[i] == NatGateway(name + "-nat-" + NatToString(i), ExistingGateway(ids[i]))
  {
    seq(|ids|, i requires 0 <= i < |ids| => NatGateway(name + "-nat-" + NatToString(i), ExistingGateway(ids[i])))
  }

  /**
   * The VPC that existing ids describe: the given subnets of each type, an
   * internet gateway `${name}-ig` only when its id is truthy, the given NAT
   * gateways, and no routes.
   */
  function ExistingIdsState(name: string, args: ExistingIdArgs): (r: VpcState)
    ensures r.vpcId == LegacyNetwork.Given(args.vpcId) && r.settings.None? && r.routes == []
    ensures Ids(r.public) == LegacyNetwork.Givens(args.publicSubnetIds.GetOr([]))
    ensures Ids(r.private) == LegacyNetwork.Givens(args.privateSubnetIds.GetOr([]))
    ensures Ids(r.isolated) == LegacyNetwork.Givens(args.isolatedSubnetIds.GetOr([]))
    ensures r.internetGateway.Some? <==> Truthy(args.internetGatewayId)
    ensures r.internetGateway.Some? ==> r.internetGateway.value == InternetGateway(name + "-ig", args.internetGatewayId)
    ensures |r.natGateways| == |args.natGatewayIds.GetOr([])|
  {
    VpcState(LegacyNetwork.Given(args.vpcId), None,
      ExistingSubnets(name, PublicKind, args.publicSubnetIds.GetOr([])),
      ExistingSubnets(name, PrivateKind, args.privateSubnetIds.GetOr([])),
      ExistingSubnets(name, IsolatedKind, args.isolatedSubnetIds.GetOr([])),
      if Truthy(args.internetGatewayId) then Some(InternetGateway(name + "-ig", args.internetGatewayId)) else None,
      ExistingGateways(name, args.natGatewayIds.GetOr([])),
      [])
  }

  /**
   * What `partition` does to a VPC: the topology's subnets appended by
   * type, then its NAT gateways, then its NAT routes, which may use any
   * gateway the VPC has by then; the first unknown name is the error.
   */
  function Partitioned(s: VpcState, layout: Layout): (r: Result<VpcState>)
  {
    var public := s.public + SubnetsOfKind(layout.subnets, PublicKind);
    var private := s.private + SubnetsOfKind(layout.subnets, PrivateKind);
    var isolated := s.isolated + SubnetsOfKind(layout.subnets, IsolatedKind);
    var made := NatGatewaysFor(public, layout.natGateways);
    if made.Fail? then Fail(made.error)
    else
      var gateways := s.natGateways + made.value;
      var routes := NatRoutesFor(private, gateways, layout.natRoutes);
      if routes.Fail? then Fail(routes.error)
      else Ok(VpcState(s.vpcId, s.settings, public, private, isolated, s.internetGateway, gateways, s.routes + routes.value))
  }

  /**
   * What `addInternetGateway` does: a VPC that has a gateway refuses a
   * second; otherwise the gateway is added with an "ig" route from each of
   * the given subnets, the public subnets when none are given.
   */
  function WithInternetGateway(s: VpcState, name: string, subnets: Option<seq<Subnet>>): (r: Result<VpcState>)
    ensures r.Fail? <==> s.internetGateway.Some?
    ensures r.Fail? ==> r.error == Message(InternetGatewayExists)
    ensures r.Ok? ==> r.value.internetGateway == Some(InternetGateway(name, None))
    ensures r.Ok? ==> |r.value.routes| >= |s.routes| && r.value.routes[..|s.routes|] == s.routes
    ensures r.Ok? && subnets.None? ==> |r.value.routes| == |s.routes| + |s.public|
    ensures r.Ok? ==> r.value.(internetGateway := s.internetGateway, routes := s.routes) == s
  {
    if s.internetGateway.Some? then Fail(Message(InternetGatewayExists))
    else Ok(s.(internetGateway := Some(InternetGateway(name, None)), routes := s.routes + InternetRoutes(name, subnets.GetOr(s.public))))
  }

  /**
   * The new-VPC path of `VpcData`: the defaults, the topology, `partition`
   * on an empty VPC, and then an internet gateway named after the VPC that
   * routes every public subnet.
   */
  function CreatedState(name: string, args: VpcArgs, zones: seq<ZoneDescription>, topology: Topology): (r: Result<VpcState>)
  {
    var layout := LayoutFor(name, args, zones, topology);
    if layout.Fail? then Fail(layout.error)
    else
      var parted := Partitioned(EmptyState(LegacyNetwork.VpcId(name), Some(Defaults(args, zones).settings)), layout.value);
      if parted.Fail? then parted
      else WithInternetGateway(parted.value, name, Some(parted.value.public))
  }

  /** The layout the topology returns for a new VPC's defaults. */
  function LayoutFor(name: string, args: VpcArgs, zones: seq<ZoneDescription>, topology: Topology): Result<Layout>
  {
    var cfg := Defaults(args, zones);
    topology(name, cfg.settings.cidrBlock, zones, cfg.natCount, cfg.settings.assignGeneratedIpv6CidrBlock, cfg.subnets)
  }

  /**
   * A new VPC is made exactly when the topology succeeds, every NAT
   * gateway's public subnet exists, and every NAT route's private subnet
   * and gateway exist.
   */
  lemma CreatedStateSucceeds(name: string, args: VpcArgs, zones: seq<ZoneDescription>, topology: Topology, layout: Layout)
    requires LayoutFor(name, args, zones, topology) == Ok(layout)
    ensures var public := SubnetsOfKind(layout.subnets, PublicKind);
      var made := NatGatewaysFor(public, layout.natGateways);
      CreatedState(name, args, zones, topology).Ok? <==>
        ((forall i :: 0 <= i < |layout.natGateways| ==> HasPublicSubnet(public, layout.natGateways[i]))
         && (made.Ok? ==> forall i :: 0 <= i < |layout.natRoutes| ==>
              RouteResolves(SubnetsOfKind(layout.subnets, PrivateKind), made.value, layout.natRoutes[i])))
  {
    var public := SubnetsOfKind(layout.subnets, PublicKind);
    var private := SubnetsOfKind(layout.subnets, PrivateKind);
    assert [] + public == public && [] + private == private;
    NatGatewaysMade(public, layout.natGateways);
    var made := NatGatewaysFor(public, layout.natGateways);
    if made.Ok? {
      assert [] + made.value == made.value;
      NatRoutesMade(private, made.value, layout.natRoutes);
    }
  }

  /**
   * A new VPC holds exactly the topology's subnets, gateways and routes;
   * it always has an internet gateway, whether or not there are public
   * subnets, and its routes are the NAT routes followed by one "ig" route
   * per public subnet.
   */
  lemma CreatedStateContents(name: string, args: VpcArgs, zones: seq<ZoneDescription>, topology: Topology, layout: Layout)
    requires LayoutFor(name, args, zones, topology) == Ok(layout)
    requires CreatedState(name, args, zones, topology).Ok?
    ensures var r := CreatedState(name, args, zones, topology).value;
      var public := SubnetsOfKind(layout.subnets, PublicKind);
      && r.vpcId == LegacyNetwork.VpcId(name) && r.settings == Some(Defaults(args, zones).settings)
      && r.public == public && r.private == SubnetsOfKind(layout.subnets, PrivateKind)
      && r.isolated == SubnetsOfKind(layout.subnets, IsolatedKind)
      && r.internetGateway == Some(InternetGateway(name, None))
      && NatGatewaysFor(public, layout.natGateways) == Ok(r.natGateways)
      && NatRoutesFor(r.private, r.natGateways, layout.natRoutes).Ok?
      && r.routes == NatRoutesFor(r.private, r.natGateways, layout.natRoutes).value + InternetRoutes(name, public)
  {
    var public := SubnetsOfKind(layout.subnets, PublicKind);
    var private := SubnetsOfKind(layout.subnets, PrivateKind);
    assert [] + public == public && [] + private == private;
    assert [] + SubnetsOfKind(layout.subnets, IsolatedKind) == SubnetsOfKind(layout.subnets, IsolatedKind);
    var made := NatGatewaysFor(public, layout.natGateways);
    assert [] + made.value == made.value;
    var routes := NatRoutesFor(private, made.value, layout.natRoutes);
    assert [] + routes.value == routes.value;
  }

  /** The arguments `initializeDefaultVpcArgs` builds: the VPC's first two subnets (fewer if it has fewer) as public. */
  function DefaultVpcIdArgs(vpcId: string, subnetIds: seq<string>): (r: ExistingIdArgs)
    ensures r.publicSubnetIds.Some? && |r.publicSubnetIds.value| == (if |subnetIds| < 2 then |subnetIds| else 2)
    ensures r.publicSubnetIds.value <= subnetIds
    ensures r.vpcId == vpcId && r.privateSubnetIds.None? && r.isolatedSubnetIds.None?
    ensures r.internetGatewayId.None? && r.natGatewayIds.None?
  {
    ExistingIdArgs(vpcId, Some(subnetIds[..SliceEnd(|subnetIds|, 2)]), None, None, None, None)
  }

  /** The shapes of the `Vpc` constructor's arguments. */
  datatype VpcInput =
    | ExistingVpc(vpc: string)
    | DefaultVpc(defaultVpcId: string)
    | ExistingIds(idArgs: ExistingIdArgs)
    | NewVpc(args: VpcArgs)

  /** What the provider's data sources answer: the region's zones, and the subnet ids of the VPC asked about. */
  datatype Region = Region(zoneNames: seq<string>, zoneIds: seq<string>, vpcSubnetIds: seq<string>)

  /**
   * `Vpc.initialize`: an existing VPC resource, the default VPC (its first
   * two subnets), existing ids (only with a truthy VPC id: an empty one
   * falls through to a new VPC with every argument omitted), or a new VPC
   * in the requested zones.
   */
  function InitialState(name: string, input: VpcInput, region: Region, topology: Topology): (r: Result<VpcState>)
  {
    match input
    case ExistingVpc(id) => Ok(EmptyState(LegacyNetwork.Given(id), None))
    case DefaultVpc(id) => Ok(ExistingIdsState(name, DefaultVpcIdArgs(id, region.vpcSubnetIds)))
    case ExistingIds(a) =>
      if a.vpcId != "" then Ok(ExistingIdsState(name, a))
      else NewVpcState(name, NoVpcArgs, region, topology)
    case NewVpc(args) => NewVpcState(name, args, region, topology)
  }

  /** `initializeVpcArgs`: the zones the arguments ask for, then a new VPC over them. */
  function NewVpcState(name: string, args: VpcArgs, region: Region, topology: Topology): (r: Result<VpcState>)
  {
    var zones := GetAvailabilityZones(region.zoneNames, region.zoneIds,
      RequestedZones(args.requestedAvailabilityZones, args.numberOfAvailabilityZones));
    if zones.Fail? then Fail(zones.error)
    else CreatedState(name, args, zones.value, topology)
  }

  /** Existing ids with an empty VPC id build a new two-zone VPC instead. */
  lemma EmptyVpcIdCreates(name: string, a: ExistingIdArgs, region: Region, topology: Topology)
    requires a.vpcId == "" && |region.zoneNames| == |region.zoneIds|
    ensures InitialState(name, ExistingIds(a), region, topology)
      == CreatedState(name, NoVpcArgs, Describe(region.zoneNames, region.zoneIds)[..SliceEnd(|region.zoneNames|, 2)], topology)
  {
  }

  // ---------------------------------------------------------------------
  // VpcData

  /** The subnets, gateways and routes of a VPC, filled in place by the component. */
  class VpcData {
    var vpcId: Ref
    var settings: Option<VpcSettings>
    var publicSubnets: seq<Subnet>
    var privateSubnets: seq<Subnet>
    var isolatedSubnets: seq<Subnet>
    var publicSubnetIds: seq<Ref>
    var privateSubnetIds: seq<Ref>
    var isolatedSubnetIds: seq<Ref>
    var internetGateway: Option<InternetGateway>
    var natGateways: seq<NatGateway>
    var routes: seq<Route>

    /** Each id list holds the ids of the subnet list of the same type. */
    predicate Valid()
      reads this
    {
      publicSubnetIds == Ids(publicSubnets) && privateSubnetIds == Ids(privateSubnets) && isolatedSubnetIds == Ids(isolatedSubnets)
    }

    function State(): VpcState
      reads this
    {
      VpcState(vpcId, settings, publicSubnets, privateSubnets, isolatedSubnets, internetGateway, natGateways, routes)
    }

    function SubnetsOf(kind: Kind): seq<Subnet>
      reads this
    {
      match kind
      case PublicKind => publicSubnets
      case PrivateKind => privateSubnets
      case IsolatedKind => isolatedSubnets
    }

    /** `getSubnets`: the subnets of a known type; any other type throws. */
    function GetSubnets(t: string): (r: Result<seq<Subnet>>)
      reads this
      ensures r.Ok? <==> ParseKind(t).Some?
      ensures r.Ok? ==> r.value == SubnetsOf(ParseKind(t).value)
      ensures r.Fail? ==> r.error == Message(UnexpectedSubnetType(t))
    {
      if t == "public" then Ok(publicSubnets)
      else if t == "private" then Ok(privateSubnets)
      else if t == "isolated" then Ok(isolatedSubnets)
      else Fail(Message(UnexpectedSubnetType(t)))
    }

    /** `getSubnetIds`: the subnet ids of a known type; any other type throws. */
    function GetSubnetIds(t: string): (r: Result<seq<Ref>>)
      reads this
    {
      if t == "public" then Ok(publicSubnetIds)
      else if t == "private" then Ok(privateSubnetIds)
      else if t == "isolated" then Ok(isolatedSubnetIds)
      else Fail(Message(UnexpectedSubnetType(t)))
    }

    /** On a valid VPC the two lookups agree: the same types fail with the same error, and the ids are those of the subnets. */
    lemma SubnetIdsMatch(t: string)
      requires Valid()
      ensures GetSubnetIds(t).Ok? <==> GetSubnets(t).Ok?
      ensures GetSubnetIds(t).Fail? ==> GetSubnetIds(t).error == GetSubnets(t).error
      ensures GetSubnetIds(t).Ok? ==> GetSubnetIds(t).value == Ids(GetSubnets(t).value)
    {
    }

    /** A VPC with nothing in it yet, with the given id and settings. */
    constructor Empty(vpcId: Ref, settings: Option<VpcSettings>)
      ensures Valid() && State() == EmptyState(vpcId, settings)
    {
      this.vpcId := vpcId;
      this.settings := settings;
      publicSubnets, privateSubnets, isolatedSubnets := [], [], [];
      publicSubnetIds, privateSubnetIds, isolatedSubnetIds := [], [], [];
      internetGateway := None;
      natGateways, routes := [], [];
    }

    /** `addSubnet`: `push` onto the subnet list and the id list of the subnet's type. */
    method AddSubnet(kind: Kind, subnet: Subnet)
      modifies this
      requires Valid()
      ensures Valid()
      ensures publicSubnets == old(publicSubnets) + (if kind.PublicKind? then [subnet] else [])
      ensures privateSubnets == old(privateSubnets) + (if kind.PrivateKind? then [subnet] else [])
      ensures isolatedSubnets == old(isolatedSubnets) + (if kind.IsolatedKind? then [subnet] else [])
      ensures vpcId == old(vpcId) && settings == old(settings) && internetGateway == old(internetGateway)
      ensures natGateways == old(natGateways) && routes == old(routes)
    {
      if kind.PublicKind? {
        IdsAppend(publicSubnets, [subnet]);
        publicSubnets, publicSubnetIds := publicSubnets + [subnet], publicSubnetIds + [subnet.id];
      } else if kind.PrivateKind? {
        IdsAppend(privateSubnets, [subnet]);
        privateSubnets, privateSubnetIds := privateSubnets + [subnet], privateSubnetIds + [subnet.id];
      } else {
        IdsAppend(isolatedSubnets, [subnet]);
        isolatedSubnets, isolatedSubnetIds := isolatedSubnets + [subnet], isolatedSubnetIds + [subnet.id];
      }
    }

    /**
     * `getExistingSubnets`: input i becomes the subnet
     * `${vpcName}-${type}-${i}` and is appended, with its id, to the lists
     * of its type; the other lists are left alone.
     */
    method GetExistingSubnets(vpcName: string, kind: Kind, inputs: seq<string>)
      modifies this
      requires Valid()
      ensures Valid()
      ensures SubnetsOf(kind) == old(SubnetsOf(kind)) + ExistingSubnets(vpcName, kind, inputs)
      ensures forall other :: other != kind ==> SubnetsOf(other) == old(SubnetsOf(other))
      ensures vpcId == old(vpcId) && settings == old(settings) && internetGateway == old(internetGateway)
      ensures natGateways == old(natGateways) && routes == old(routes)
    {
      ghost var before := SubnetsOf(kind);
      ghost var made := ExistingSubnets(vpcName, kind, inputs);
      for i := 0 to |inputs|
        invariant Valid()
        invariant SubnetsOf(kind) == before + made[..i]
        invariant forall other :: other != kind ==> SubnetsOf(other) == old(SubnetsOf(other))
        invariant vpcId == old(vpcId) && settings == old(settings) && internetGateway == old(internetGateway)
        invariant natGateways == old(natGateways) && routes == old(routes)
      {
        var subnet := Subnet(vpcName + "-" + KindName(kind) + "-" + NatToString(i), LegacyNetwork.Given(inputs[i]), None, None);
        ExistingSubnetsStep(vpcName, kind, inputs, i);
        AddSubnet(kind, subnet);
      }
      assert made[..|inputs|] == made;
    }

    /** Everything but the gateways and the routes is as it was on entry. */
    twostate predicate SubnetsKept()
      reads this
    {
      vpcId == old(vpcId) && settings == old(settings)
      && publicSubnets == old(publicSubnets) && privateSubnets == old(privateSubnets) && isolatedSubnets == old(isolatedSubnets)
      && publicSubnetIds == old(publicSubnetIds) && privateSubnetIds == old(privateSubnetIds) && isolatedSubnetIds == old(isolatedSubnetIds)
    }

    /**
     * `addInternetGateway`: a VPC that already has a gateway throws and is
     * left as it was; otherwise the gateway is set and every subnet given
     * (the public subnets when none are given) gets an "ig" route to it.
     */
    method AddInternetGateway(name: string, subnets: Option<seq<Subnet>>) returns (r: Outcome)
      modifies this
      requires Valid()
      ensures Valid()
      ensures r.Pass? <==> WithInternetGateway(old(State()), name, subnets).Ok?
      ensures r.Reject? ==> r.error == WithInternetGateway(old(State()), name, subnets).error && State() == old(State())
      ensures r.Pass? ==> State() == WithInternetGateway(old(State()), name, subnets).value
    {
      if internetGateway.Some? {
        return Reject(Message(InternetGatewayExists));
      }
      internetGateway := Some(InternetGateway(name, None));
      var targets := if subnets.Some? then subnets.value else publicSubnets;
      ghost var added := InternetRoutes(name, targets);
      for k := 0 to |targets|
        invariant SubnetsKept() && natGateways == old(natGateways) && internetGateway == Some(InternetGateway(name, None))
        invariant routes == old(routes) + added[..k]
      {
        assert added[..k + 1] == added[..k] + [Route(targets[k].name, "ig", ToInternetGateway(name))];
        routes := routes + [Route(targets[k].name, "ig", ToInternetGateway(name))];
      }
      assert added[..|targets|] == added;
      return Pass;
    }

    /** `addNatGateway`: a gateway of that name in the given subnet, pushed last. */
    method AddNatGateway(name: string, subnet: Subnet)
      modifies this
      ensures SubnetsKept() && internetGateway == old(internetGateway) && routes == old(routes)
      ensures natGateways == old(natGateways) + [NatGateway(name, InSubnet(subnet))]
    {
      natGateways := natGateways + [NatGateway(name, InSubnet(subnet))];
    }

    /** The first loop of `partition`: each described subnet is created and added under its type. */
    method AddLayoutSubnets(descs: seq<SubnetDescription>)
      modifies this
      requires Valid()
      ensures Valid()
      ensures publicSubnets == old(publicSubnets) + SubnetsOfKind(descs, PublicKind)
      ensures privateSubnets == old(privateSubnets) + SubnetsOfKind(descs, PrivateKind)
      ensures isolatedSubnets == old(isolatedSubnets) + SubnetsOfKind(descs, IsolatedKind)
      ensures vpcId == old(vpcId) && settings == old(settings) && internetGateway == old(internetGateway)
      ensures natGateways == old(natGateways) && routes == old(routes)
    {
      ghost var public, private, isolated := publicSubnets, privateSubnets, isolatedSubnets;
      ghost var done: seq<SubnetDescription> := [];
      for i := 0 to |descs|
        invariant Valid()
        invariant done == descs[..i]
        invariant publicSubnets == public + SubnetsOfKind(done, PublicKind)
        invariant privateSubnets == private + SubnetsOfKind(done, PrivateKind)
        invariant isolatedSubnets == isolated + SubnetsOfKind(done, IsolatedKind)
        invariant vpcId == old(vpcId) && settings == old(settings) && internetGateway == old(internetGateway)
        invariant natGateways == old(natGateways) && routes == old(routes)
      {
        AddDescribedSubnet(descs[i], done, public, private, isolated);
        done := done + [descs[i]];
      }
      assert done == descs;
    }

    /** One iteration of the first loop of `partition`: the described subnet joins its type's list. */
    method AddDescribedSubnet(desc: SubnetDescription, ghost done: seq<SubnetDescription>,
                              ghost public: seq<Subnet>, ghost private: seq<Subnet>, ghost isolated: seq<Subnet>)
      modifies this
      requires Valid()
      requires publicSubnets == public + SubnetsOfKind(done, PublicKind)
      requires privateSubnets == private + SubnetsOfKind(done, PrivateKind)
      requires isolatedSubnets == isolated + SubnetsOfKind(done, IsolatedKind)
      ensures Valid()
      ensures publicSubnets == public + SubnetsOfKind(done + [desc], PublicKind)
      ensures privateSubnets == private + SubnetsOfKind(done + [desc], PrivateKind)
      ensures isolatedSubnets == isolated + SubnetsOfKind(done + [desc], IsolatedKind)
      ensures vpcId == old(vpcId) && settings == old(settings) && internetGateway == old(internetGateway)
      ensures natGateways == old(natGateways) && routes == old(routes)
    {
      SubnetsOfKindStep(done, desc, PublicKind);
      SubnetsOfKindStep(done, desc, PrivateKind);
      SubnetsOfKindStep(done, desc, IsolatedKind);
      AddSubnet(desc.kind, CreatedSubnet(desc));
    }

    /** One turn of the gateway loop: the description's gateway is added in its public subnet, or the loop throws. */
    method AddLayoutGateway(public: seq<Subnet>, desc: NatGatewayDescription) returns (r: Result<NatGateway>)
      modifies this
      ensures r == GatewayFor(public, desc)
      ensures SubnetsKept() && internetGateway == old(internetGateway) && routes == old(routes)
      ensures natGateways == old(natGateways) + (if r.Ok? then [r.value] else [])
    {
      var found := FindSubnet(public, desc.publicSubnet);
      if found.None? {
        return Fail(Message(MissingPublicSubnet(desc.publicSubnet)));
      }
      AddNatGateway(desc.name, public[found.value]);
      r := Ok(NatGateway(desc.name, InSubnet(public[found.value])));
    }

    /** The second loop of `partition`: each described gateway goes in its public subnet, or the loop throws. */
    method AddLayoutGateways(descs: seq<NatGatewayDescription>) returns (r: Outcome)
      modifies this
      ensures SubnetsKept() && internetGateway == old(internetGateway) && routes == old(routes)
      ensures r.Pass? <==> NatGatewaysFor(publicSubnets, descs).Ok?
      ensures r.Reject? ==> r.error == NatGatewaysFor(publicSubnets, descs).error
      ensures r.Pass? ==> natGateways == old(natGateways) + NatGatewaysFor(publicSubnets, descs).value
    {
      var public := publicSubnets;
      ghost var made: seq<NatGateway> := [];
      for i := 0 to |descs|
        invariant SubnetsKept() && internetGateway == old(internetGateway) && routes == old(routes)
        invariant NatGatewaysFor(public, descs[..i]) == Ok(made)
        invariant natGateways == old(natGateways) + made
      {
        var gateway := AddLayoutGateway(public, descs[i]);
        GatewayLoopStep(public, descs, i, made, gateway);
        if gateway.Fail? {
          return Reject(gateway.error);
        }
        made := made + [gateway.value];
      }
      TakeAll(descs);
      return Pass;
    }

    /** One turn of the route loop: the description's route is added, or the loop throws. */
    method AddLayoutRoute(private: seq<Subnet>, gateways: seq<NatGateway>, desc: NatRouteDescription) returns (r: Result<Route>)
      modifies this
      ensures r == RouteFor(private, gateways, desc)
      ensures SubnetsKept() && internetGateway == old(internetGateway) && natGateways == old(natGateways)
      ensures routes == old(routes) + (if r.Ok? then [r.value] else [])
    {
      var subnet := FindSubnet(private, desc.privateSubnet);
      if subnet.None? {
        return Fail(Message(MissingPrivateSubnet(desc.privateSubnet)));
      }
      var gateway := FindGateway(gateways, desc.natGateway);
      if gateway.None? {
        return Fail(Message(MissingNatGateway(desc.natGateway)));
      }
      var route := Route(private[subnet.value].name, desc.name, ToNatGateway(gateways[gateway.value].name));
      routes := routes + [route];
      r := Ok(route);
    }

    /** The third loop of `partition`: each described route joins its private subnet to its gateway, or the loop throws. */
    method AddLayoutRoutes(descs: seq<NatRouteDescription>) returns (r: Outcome)
      modifies this
      ensures SubnetsKept() && internetGateway == old(internetGateway) && natGateways == old(natGateways)
      ensures r.Pass? <==> NatRoutesFor(privateSubnets, natGateways, descs).Ok?
      ensures r.Reject? ==> r.error == NatRoutesFor(privateSubnets, natGateways, descs).error
      ensures r.Pass? ==> routes == old(routes) + NatRoutesFor(privateSubnets, natGateways, descs).value
    {
      var private, gateways := privateSubnets, natGateways;
      ghost var made: seq<Route> := [];
      for i := 0 to |descs|
        invariant SubnetsKept() && internetGateway == old(internetGateway) && natGateways == old(natGateways)
        invariant NatRoutesFor(private, gateways, descs[..i]) == Ok(made)
        invariant routes == old(routes) + made
      {
        var route := AddLayoutRoute(private, gateways, descs[i]);
        RouteLoopStep(private, gateways, descs, i, made, route);
        if route.Fail? {
          return Reject(route.error);
        }
        made := made + [route.value];
      }
      TakeAll(descs);
      return Pass;
    }

    /**
     * `partition`: the topology's subnets, then its NAT gateways, then its
     * NAT routes, as `Partitioned` describes; on an unknown name it throws.
     */
    method Partition(layout: Layout) returns (r: Outcome)
      modifies this
      requires Valid()
      ensures Valid()
      ensures r.Pass? <==> Partitioned(old(State()), layout).Ok?
      ensures r.Reject? ==> r.error == Partitioned(old(State()), layout).error
      ensures r.Pass? ==> State() == Partitioned(old(State()), layout).value
    {
      AddLayoutSubnets(layout.subnets);
      assert SubnetsOf(PublicKind) == old(SubnetsOf(PublicKind)) + SubnetsOfKind(layout.subnets, PublicKind);
      assert SubnetsOf(PrivateKind) == old(SubnetsOf(PrivateKind)) + SubnetsOfKind(layout.subnets, PrivateKind);
      assert SubnetsOf(IsolatedKind) == old(SubnetsOf(IsolatedKind)) + SubnetsOfKind(layout.subnets, IsolatedKind);
      r := AddLayoutGateways(layout.natGateways);
      if r.Reject? {
        return;
      }
      r := AddLayoutRoutes(layout.natRoutes);
    }
  
    /**
     * The existing-ids path of `VpcData`: the given subnets of each type,
     * the internet gateway `${name}-ig` when its id is truthy, and the
     * given NAT gateways `${name}-nat-${i}`, in order.
     */
    static method FromIds(name: string, args: ExistingIdArgs) returns (v: VpcData)
      ensures fresh(v) && v.Valid() && v.State() == ExistingIdsState(name, args)
    {
      v := new VpcData.Empty(LegacyNetwork.Given(args.vpcId), None);
      v.GetAllExistingSubnets(name, args);
      ghost var gateway := if Truthy(args.internetGatewayId) then Some(InternetGateway(name + "-ig", args.internetGatewayId)) else None;
      if Truthy(args.internetGatewayId) {
        v.internetGateway := Some(InternetGateway(name + "-ig", args.internetGatewayId));
      }
      v.AddExistingNatGateways(name, args.natGatewayIds.GetOr([]));
    }

    /** The three `getExistingSubnets` calls of the existing-ids path, on a VPC with no subnets yet. */
    method GetAllExistingSubnets(name: string, args: ExistingIdArgs)
      modifies this
      requires Valid() && publicSubnets == [] && privateSubnets == [] && isolatedSubnets == []
      ensures Valid()
      ensures publicSubnets == ExistingSubnets(name, PublicKind, args.publicSubnetIds.GetOr([]))
      ensures privateSubnets == ExistingSubnets(name, PrivateKind, args.privateSubnetIds.GetOr([]))
      ensures isolatedSubnets == ExistingSubnets(name, IsolatedKind, args.isolatedSubnetIds.GetOr([]))
      ensures vpcId == old(vpcId) && settings == old(settings) && internetGateway == old(internetGateway)
      ensures natGateways == old(natGateways) && routes == old(routes)
    {
      GetExistingSubnets(name, PublicKind, args.publicSubnetIds.GetOr([]));
      assert SubnetsOf(PrivateKind) == [] && SubnetsOf(IsolatedKind) == [];
      GetExistingSubnets(name, PrivateKind, args.privateSubnetIds.GetOr([]));
      assert SubnetsOf(PublicKind) == publicSubnets && SubnetsOf(IsolatedKind) == [];
      GetExistingSubnets(name, IsolatedKind, args.isolatedSubnetIds.GetOr([]));
      assert SubnetsOf(PublicKind) == publicSubnets && SubnetsOf(PrivateKind) == privateSubnets;
    }

    /** The loop over `natGatewayIds`: gateway i wraps id i as `${name}-nat-${i}`, pushed in order. */
    method AddExistingNatGateways(name: string, ids: seq<string>)
      modifies this
      ensures SubnetsKept() && internetGateway == old(internetGateway) && routes == old(routes)
      ensures natGateways == old(natGateways) + ExistingGateways(name, ids)
    {
      ghost var existing := ExistingGateways(name, ids);
      for i := 0 to |ids|
        invariant SubnetsKept() && internetGateway == old(internetGateway) && routes == old(routes)
        invariant natGateways == old(natGateways) + existing[..i]
      {
        assert existing[..i + 1] == existing[..i] + [NatGateway(name + "-nat-" + NatToString(i), ExistingGateway(ids[i]))];
        natGateways := natGateways + [NatGateway(name + "-nat-" + NatToString(i), ExistingGateway(ids[i]))];
      }
      assert existing[..|ids|] == existing;
    }

    /**
     * The new-VPC path of `VpcData`: the topology over the defaults,
     * `partition`, then `addInternetGateway` with the public subnets; it
     * builds `CreatedState`, and fails where that fails.
     */
    static method Create(name: string, args: VpcArgs, zones: seq<ZoneDescription>, topology: Topology) returns (r: Result<VpcData>)
      ensures r.Ok? <==> CreatedState(name, args, zones, topology).Ok?
      ensures r.Fail? ==> r.error == CreatedState(name, args, zones, topology).error
      ensures r.Ok? ==> fresh(r.value) && r.value.Valid() && r.value.State() == CreatedState(name, args, zones, topology).value
    {
      var layout := LayoutFor(name, args, zones, topology);
      if layout.Fail? {
        return Fail(layout.error);
      }
      var v := new VpcData.Empty(LegacyNetwork.VpcId(name), Some(Defaults(args, zones).settings));
      var parted := v.Partition(layout.value);
      if parted.Reject? {
        return Fail(parted.error);
      }
      var added := v.AddInternetGateway(name, Some(v.publicSubnets));
      assert added.Pass?;
      return Ok(v);
    }

    /**
     * `Vpc.initialize`: dispatches on the arguments' shape and builds the
     * data `InitialState` describes.
     */
    static method Initialize(name: string, input: VpcInput, region: Region, topology: Topology) returns (r: Result<VpcData>)
      ensures r.Ok? <==> InitialState(name, input, region, topology).Ok?
      ensures r.Fail? ==> r.error == InitialState(name, input, region, topology).error
      ensures r.Ok? ==> fresh(r.value) && r.value.Valid() && r.value.State() == InitialState(name, input, region, topology).value
    {
      if input.ExistingVpc? {
        var v := new VpcData.Empty(LegacyNetwork.Given(input.vpc), None);
        return Ok(v);
      } else if input.DefaultVpc? {
        var v := FromIds(name, DefaultVpcIdArgs(input.defaultVpcId, region.vpcSubnetIds));
        return Ok(v);
      } else if input.ExistingIds? && input.idArgs.vpcId != "" {
        var v := FromIds(name, input.idArgs);
        return Ok(v);
      }
      var args := if input.NewVpc? then input.args else NoVpcArgs;
      var zones := GetAvailabilityZones(region.zoneNames, region.zoneIds,
        RequestedZones(args.requestedAvailabilityZones, args.numberOfAvailabilityZones));
      if zones.Fail? {
        return Fail(zones.error);
      }
      r := Create(name, args, zones.value, topology);
    }
  }

  // ---------------------------------------------------------------------
  // Vpc and the default VPCs

  /** A provider, known by its name. */
  datatype Provider = Provider(name: string)

  /** The parent resource of an invocation, with the provider it holds for the "aws" package. */
  datatype ParentResource = ParentResource(awsProvider: Option<Provider>)

  datatype InvokeOptions = InvokeOptions(provider: Option<Provider>, parent: Option<ParentResource>)

  /** `Vpc.getProvider`: the explicit provider, else the parent's "aws" provider, else none. */
  function GetProvider(opts: InvokeOptions): (r: Option<Provider>)
    ensures opts.provider.Some? ==> r == opts.provider
    ensures opts.provider.None? && opts.parent.Some? ==> r == opts.parent.value.awsProvider
    ensures r.Some? ==> r == opts.provider || (opts.parent.Some? && r == opts.parent.value.awsProvider)
  {
    if opts.provider.Some? then opts.provider
    else if opts.parent.Some? then opts.parent.value.awsProvider
    else None
  }

  /** The name of the default VPC of a provider: "default-" and the provider's name, or "default-vpc". */
  function DefaultVpcName(provider: Option<Provider>): (r: string)
    ensures provider.None? ==> r == "default-vpc"
    ensures provider.Some? ==> r == "default-" + provider.value.name
  {
    "default-" + (if provider.Some? then provider.value.name else "vpc")
  }

  /** The aliases of a new default VPC: "default-vpc" for the very first, then "default-" and its id. */
  function DefaultAliases(first: bool, vpcId: string): (r: seq<string>)
    ensures first ==> r == ["default-vpc", "default-" + vpcId]
    ensures !first ==> r == ["default-" + vpcId]
  {
    (if first then ["default-vpc"] else []) + ["default-" + vpcId]
  }

  /** The `Vpc` component: its name, its aliases, and the data its initialisation produced. */
  class Vpc {
    const name: string
    const aliases: seq<string>
    const data: Result<VpcData>

    /** `new Vpc(name, args, { aliases })`. */
    constructor(name: string, input: VpcInput, aliases: seq<string>, region: Region, topology: Topology)
      ensures this.name == name && this.aliases == aliases
      ensures data.Ok? <==> InitialState(name, input, region, topology).Ok?
      ensures data.Fail? ==> data.error == InitialState(name, input, region, topology).error
      ensures data.Ok? ==> fresh(data.value) && data.value.Valid() && data.value.State() == InitialState(name, input, region, topology).value
    {
      var made := VpcData.Initialize(name, input, region, topology);
      this.name := name;
      this.aliases := aliases;
      data := made;
    }
  }

  /** The module-level `providerToDefaultVpc` map. */
  class DefaultVpcs {
    var providerToDefaultVpc: map<Option<Provider>, Vpc>

    constructor()
      ensures providerToDefaultVpc == map[]
    {
      providerToDefaultVpc := map[];
    }

    /**
     * `Vpc.getDefault`: the default VPC of the options' provider. The first
     * call for a provider wraps the provider's default VPC, named after the
     * provider, with its first two subnets as the public ones, and stores
     * it; only the very first default VPC gets the alias "default-vpc".
     * Later calls for the same provider return the stored object.
     */
    method GetDefault(opts: InvokeOptions, defaultVpcId: string, region: Region, topology: Topology) returns (v: Vpc)
      modifies this
      ensures GetProvider(opts) in old(providerToDefaultVpc) ==>
        v == old(providerToDefaultVpc)[GetProvider(opts)] && providerToDefaultVpc == old(providerToDefaultVpc)
      ensures GetProvider(opts) !in old(providerToDefaultVpc) ==>
        && fresh(v) && providerToDefaultVpc == old(providerToDefaultVpc)[GetProvider(opts) := v]
        && v.name == DefaultVpcName(GetProvider(opts))
        && v.aliases == DefaultAliases(|old(providerToDefaultVpc)| == 0, defaultVpcId)
        && v.data.Ok? && v.data.value.Valid()
        && v.data.value.State() == ExistingIdsState(v.name, DefaultVpcIdArgs(defaultVpcId, region.vpcSubnetIds))
    {
      var provider := GetProvider(opts);
      if provider in providerToDefaultVpc {
        return providerToDefaultVpc[provider];
      }
      var vpcName := DefaultVpcName(provider);
      var aliases := DefaultAliases(|providerToDefaultVpc| == 0, defaultVpcId);
      v := new Vpc(vpcName, DefaultVpc(defaultVpcId), aliases, region, topology);
      providerToDefaultVpc := providerToDefaultVpc[provider := v];
    }
  }
}
