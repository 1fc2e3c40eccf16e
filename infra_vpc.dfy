// The `Vpc` component of the Node aws-infra package (aws-infra/ec2/vpc.ts):
// the constructor's defaults and check, the subnet lists by type, the
// internet gateway and its routes, NAT gateway placement and the routing of
// private subnets to them, existing subnets, and the cached default VPC.
// The subnets a new VPC gets come from its topology (ec2/vpcTopology.ts,
// which is not part of this model) and enter as a parameter.
module InfraVpc {
  import opened Wrappers
  import opened Cidr
  import opened Text
  import LegacyNetwork

  /** An id: a given one, or that of a resource the component creates. */
  type Ref = LegacyNetwork.Ref

  /** The errors the component throws. */
  datatype VpcError =
    | TooManyNatGateways(natCount: int, azCount: int)
    | UnexpectedSubnetType(kind: string)
    | UndefinedRead(property: string)

  /** The text of an error. */
  function Message(e: VpcError): string
  {
    MessageText(e, 1)
  }

  /**
   * The text of each error, reached once the fuel argument runs out: the
   * verifier unfolds it only where a proof asks for the words, which keeps
   * the long literals out of the proofs that only compare errors.
   */
  function MessageText(e: VpcError, fuel: nat): string
  {
    if fuel > 0 then MessageText(e, fuel - 1)
    else match e
      case TooManyNatGateways(g, z) =>
        "[numberOfNatGateways] cannot be greater than [numberOfAvailabilityZones]: " + IntToString(g) + " > " + IntToString(z)
      case UnexpectedSubnetType(t) => "Unexpected subnet type: " + t
      case UndefinedRead(p) => "TypeError: Cannot read properties of undefined (reading '" + p + "')"
  }

  /** A subnet of the VPC: its resource name and its id. */
  datatype Subnet = Subnet(name: string, id: Ref)

  /** A NAT gateway, the public subnet it sits in, and the elastic IP it uses. */
  datatype NatGateway = NatGateway(name: string, subnet: string, allocation: string)

  /** Where a route leads. */
  datatype Target = ToInternetGateway(internetGateway: string) | ToNatGateway(natGateway: string)

  /** A 0.0.0.0/0 route created on a subnet. */
  datatype Route = Route(subnet: string, name: string, target: Target)

  /** The three kinds of subnet. */
  datatype Kind = PublicKind | PrivateKind | IsolatedKind

  function KindName(k: Kind): string
  {
    match k
    case PublicKind => "public"
    case PrivateKind => "private"
    case IsolatedKind => "isolated"
  }

  /** The `switch` on a subnet type: the three known spellings, nothing else. */
  function ParseKind(t: string): (r: Option<Kind>)
    ensures r.Some? <==> t in {"public", "private", "isolated"}
    ensures r.Some? ==> KindName(r.value) == t
  {
    if t == "public" then Some(PublicKind)
    else if t == "private" then Some(PrivateKind)
    else if t == "isolated" then Some(IsolatedKind)
    else None
  }

  /** `nat-${i}`: the names of NAT gateway i and its elastic IP, and of a private subnet's route. */
  function NatName(i: nat): string
  {
    "nat-" + NatToString(i)
  }

  /** A requested subnet layout entry (`VpcSubnetArgs`). */
  datatype SubnetArgs = SubnetArgs(kind: string, name: Option<string>, cidrMask: Option<int>)

  /** The arguments of a new VPC (`VpcArgs`). */
  datatype VpcArgs = VpcArgs(
    subnets: Option<seq<SubnetArgs>>,
    numberOfAvailabilityZones: Option<int>,
    numberOfNatGateways: Option<int>,
    cidrBlock: Option<string>,
    enableDnsHostnames: Option<bool>,
    enableDnsSupport: Option<bool>,
    instanceTenancy: Option<string>)

  /** The constructor's argument: an existing VPC resource (known by its id), or the arguments of a new one. */
  datatype ConstructorArgs = ExistingVpc(vpcId: Ref) | NewVpc(args: VpcArgs)

  /** The settings of a VPC resource the component creates. */
  datatype VpcSettings = VpcSettings(name: string, cidrBlock: string, enableDnsHostnames: bool, enableDnsSupport: bool,
    instanceTenancy: string)

  /** The defaults a new VPC takes. */
  datatype Config = Config(cidrBlock: string, azCount: int, natCount: int, subnets: seq<SubnetArgs>, settings: VpcSettings)

  /** The subnets the topology creates, by kind. */
  datatype TopologySubnets = TopologySubnets(public: seq<Subnet>, private: seq<Subnet>, isolated: seq<Subnet>)

  /** The subnet layout used when none is given: one public and one private subnet per zone. */
  const DefaultSubnets: seq<SubnetArgs> := [SubnetArgs("public", None, None), SubnetArgs("private", None, None)]

  /**
   * The constructor's defaults: 10.0.0.0/16, two zones, one NAT gateway per
   * zone, DNS hostnames and support on, default tenancy, and one public and
   * one private subnet per zone. More NAT gateways than zones is refused.
   */
  function Configure(name: string, args: VpcArgs): (r: Result<Config>)
    ensures r.Ok? <==> args.numberOfNatGateways.GetOr(args.numberOfAvailabilityZones.GetOr(2)) <= args.numberOfAvailabilityZones.GetOr(2)
    ensures r.Fail? ==> r.error == Message(TooManyNatGateways(args.numberOfNatGateways.value, args.numberOfAvailabilityZones.GetOr(2)))
    ensures r.Ok? ==> r.value.azCount == (if args.numberOfAvailabilityZones.None? then 2 else args.numberOfAvailabilityZones.value)
    ensures r.Ok? ==> r.value.natCount == (if args.numberOfNatGateways.None? then r.value.azCount else args.numberOfNatGateways.value)
    ensures r.Ok? ==> (r.value.cidrBlock == (if args.cidrBlock.None? then "10.0.0.0/16" else args.cidrBlock.value)
      && r.value.settings.cidrBlock == r.value.cidrBlock && r.value.settings.name == name)
    ensures r.Ok? ==> r.value.subnets == (if args.subnets.None? then DefaultSubnets else args.subnets.value)
    ensures r.Ok? ==> (r.value.settings.enableDnsHostnames == (args.enableDnsHostnames != Some(false))
      && r.value.settings.enableDnsSupport == (args.enableDnsSupport != Some(false))
      && r.value.settings.instanceTenancy == args.instanceTenancy.GetOr("default"))
  {
    var cidrBlock := args.cidrBlock.GetOr("10.0.0.0/16");
    var az := args.numberOfAvailabilityZones.GetOr(2);
    var natCount := args.numberOfNatGateways.GetOr(az);
    if natCount > az then Fail(Message(TooManyNatGateways(natCount, az)))
    else
      var settings := VpcSettings(name, cidrBlock, args.enableDnsHostnames.GetOr(true), args.enableDnsSupport.GetOr(true),
        args.instanceTenancy.GetOr("default"));
      Ok(Config(cidrBlock, az, natCount, args.subnets.GetOr(DefaultSubnets), settings))
  }

  /** The internet gateway's routes: one "ig" route from every public subnet, in order. */
  function InternetRoutes(gateway: string, public: seq<Subnet>): (r: seq<Route>)
    ensures |r| == |public|
    ensures forall k :: 0 <= k < |public| ==> r[k] == Route(public[k].name, "ig", ToInternetGateway(gateway))
  {
    seq(|public|, k requires 0 <= k < |public| => Route(public[k].name, "ig", ToInternetGateway(gateway)))
  }

  /**
   * The NAT gateways: gateway i sits in public subnet `i % az`, which needs
   * a public subnet at that position; gateway i and its elastic IP are both
   * named `nat-${i}`.
   */
  function NatPlan(public: seq<Subnet>, az: int, natCount: int): (r: Result<seq<NatGateway>>)
    requires az >= 1 && natCount <= az
    ensures r.Ok? <==> natCount <= |public|
    ensures r.Fail? ==> r.error == Message(UndefinedRead("id"))
    ensures r.Ok? ==> |r.value| == (if natCount < 0 then 0 else natCount)
  {
    if |public| < natCount then Fail(Message(UndefinedRead("id")))
    else
      var count := if natCount < 0 then 0 else natCount;
      Ok(seq(count, i requires 0 <= i < count => NatGateway(NatName(i), public[i % az].name, NatName(i))))
  }

  /** With no more gateways than zones, gateway i sits in public subnet i: one gateway per zone, from the first zone on. */
  lemma NatPlanPlacement(public: seq<Subnet>, az: int, natCount: int)
    requires 1 <= az && 0 <= natCount <= az && natCount <= |public|
    ensures NatPlan(public, az, natCount).Ok?
    ensures forall i :: 0 <= i < natCount ==> NatPlan(public, az, natCount).value[i] == NatGateway(NatName(i), public[i].name, NatName(i))
  {
    forall i | 0 <= i < natCount
      ensures i % az == i
    {
      DivModUnique(i, az, 0, i);
    }
  }

  /** How many of the positions before p lie in a zone without a NAT gateway of its own (zone index `p % az` at least natCount). */
  function Spill(az: int, natCount: int, p: nat): nat
    requires az >= 1
  {
    if p == 0 then 0 else Spill(az, natCount, p - 1) + (if (p - 1) % az >= natCount then 1 else 0)
  }

  /** The corrected round-robin counter: taken modulo the gateway count, so it always names a gateway. */
  function RoundRobin(counter: nat, natCount: int): (k: nat)
    requires natCount != 0
    ensures k < natCount || k < -natCount
  {
    counter % (if natCount < 0 then -natCount else natCount)
  }

  /**
   * The gateway the private subnet at position p routes to: the one of its
   * own zone when there is one, else the next one in round-robin order. As
   * written (`wrap` false) the round-robin counter is never wrapped; the
   * corrected version (`wrap` true) takes it modulo the gateway count.
   */
  function TargetIndex(az: int, natCount: int, p: nat, wrap: bool): nat
    requires az >= 1 && natCount != 0
  {
    if p % az < natCount then p % az
    else if wrap then RoundRobin(Spill(az, natCount, p), natCount)
    else Spill(az, natCount, p)
  }

  /**
   * The routes of the first p private subnet positions, in loop order: each
   * position needs a private subnet (else `createRoute` is read from
   * undefined) and a gateway at its target index (else `id` is).
   */
  function PrivateRoutes(private: seq<Subnet>, gateways: seq<NatGateway>, az: int, natCount: int, wrap: bool, p: nat): (r: Result<seq<Route>>)
    requires az >= 1 && natCount != 0
    ensures r.Ok? ==> |r.value| == p && p <= |private|
    decreases p, 3
  {
    RoutesAfter(private, gateways, az, natCount, wrap, p, 1)
  }

  /** PrivateRoutes behind s extra layers, so that the verifier unfolds it only through PrivateRoutesIs. */
  function RoutesAfter(private: seq<Subnet>, gateways: seq<NatGateway>, az: int, natCount: int, wrap: bool, p: nat, s: nat): (r: Result<seq<Route>>)
    requires az >= 1 && natCount != 0
    ensures r.Ok? ==> |r.value| == p && p <= |private|
    decreases p, s + 1
  {
    if s == 0 then RoutesAt(private, gateways, az, natCount, wrap, p) else RoutesAfter(private, gateways, az, natCount, wrap, p, s - 1)
  }

  /** One position of the routing loop on top of the run before it. */
  function RoutesAt(private: seq<Subnet>, gateways: seq<NatGateway>, az: int, natCount: int, wrap: bool, p: nat): (r: Result<seq<Route>>)
    requires az >= 1 && natCount != 0
    ensures r.Ok? ==> |r.value| == p && p <= |private|
    decreases p, 0
  {
    if p == 0 then Ok([])
    else
      var prev := PrivateRoutes(private, gateways, az, natCount, wrap, p - 1);
      if prev.Fail? then prev
      else if p - 1 >= |private| then Fail(Message(UndefinedRead("createRoute")))
      else
        var k := TargetIndex(az, natCount, p - 1, wrap);
        if k >= |gateways| then Fail(Message(UndefinedRead("id")))
        else Ok(prev.value + [Route(private[p - 1].name, NatName((p - 1) % az), ToNatGateway(gateways[k].name))])
  }

  lemma PrivateRoutesIs(private: seq<Subnet>, gateways: seq<NatGateway>, az: int, natCount: int, wrap: bool, p: nat)
    requires az >= 1 && natCount != 0
    ensures PrivateRoutes(private, gateways, az, natCount, wrap, p) == RoutesAt(private, gateways, az, natCount, wrap, p)
  {
    assert PrivateRoutes(private, gateways, az, natCount, wrap, p) == RoutesAfter(private, gateways, az, natCount, wrap, p, 1);
    assert RoutesAfter(private, gateways, az, natCount, wrap, p, 1) == RoutesAfter(private, gateways, az, natCount, wrap, p, 0);
  }

  /** Once a position fails, the loop has thrown: later positions keep that failure. */
  lemma {:induction false} PrivateRoutesFailed(private: seq<Subnet>, gateways: seq<NatGateway>, az: int, natCount: int, wrap: bool, p: nat, q: nat)
    requires az >= 1 && natCount != 0 && p <= q
    requires PrivateRoutes(private, gateways, az, natCount, wrap, p).Fail?
    ensures PrivateRoutes(private, gateways, az, natCount, wrap, q) == PrivateRoutes(private, gateways, az, natCount, wrap, p)
    decreases q - p
  {
    if p < q {
      PrivateRoutesFailed(private, gateways, az, natCount, wrap, p, q - 1);
      PrivateRoutesIs(private, gateways, az, natCount, wrap, q);
    }
  }

  /** A successful run of p positions is a prefix of every successful longer run. */
  lemma {:induction false} PrivateRoutesPrefix(private: seq<Subnet>, gateways: seq<NatGateway>, az: int, natCount: int, wrap: bool, p: nat, q: nat)
    requires az >= 1 && natCount != 0 && p <= q
    requires PrivateRoutes(private, gateways, az, natCount, wrap, q).Ok?
    ensures PrivateRoutes(private, gateways, az, natCount, wrap, p).Ok?
    ensures PrivateRoutes(private, gateways, az, natCount, wrap, p).value == PrivateRoutes(private, gateways, az, natCount, wrap, q).value[..p]
    decreases q - p
  {
    if p < q {
      PrivateRoutesIs(private, gateways, az, natCount, wrap, q);
      PrivateRoutesPrefix(private, gateways, az, natCount, wrap, p, q - 1);
      var prev := PrivateRoutes(private, gateways, az, natCount, wrap, q - 1).value;
      assert PrivateRoutes(private, gateways, az, natCount, wrap, q).value[..q - 1] == prev;
      assert PrivateRoutes(private, gateways, az, natCount, wrap, q).value[..p] == prev[..p];
    }
  }

  /** The first multiple of az at or after n, reached from i in steps of az: where the chunk loop stops. */
  function ChunkEnd(n: nat, az: int, i: nat): (e: nat)
    requires az >= 1
    ensures e >= i && e >= n
    decreases n - i
  {
    if i >= n then i else ChunkEnd(n, az, i + az)
  }

  lemma {:induction false} ChunkEndOfMultiple(az: int, a: nat, b: nat)
    requires az >= 1 && a <= b
    ensures ChunkEnd(b * az, az, a * az) == b * az
    decreases b - a
  {
    if a < b {
      MulLe(a + 1, b, az);
      assert a * az + az == (a + 1) * az;
      ChunkEndOfMultiple(az, a + 1, b);
    }
  }

  /** Position j of a chunk that starts at a multiple of az lies in zone j; the next chunk starts at a multiple of az again. */
  lemma ChunkZone(i: nat, j: int, az: int)
    requires az >= 1 && i % az == 0 && 0 <= j < az
    ensures (i + j) % az == j && (i + az) % az == 0
  {
    var q := i / az;
    DivModUnique(i + j, az, q, j);
    Distrib(q + 1, q, az);
    DivModUnique(i + az, az, q + 1, 0);
  }

  /**
   * With the corrected round-robin, one gateway per NAT slot and private
   * subnets created a zone at a time, every private subnet gets exactly one
   * route: a subnet in a zone with its own gateway routes to that gateway,
   * and every other one routes to one of the gateways.
   */
  lemma {:induction false} RoutesCorrected(private: seq<Subnet>, gateways: seq<NatGateway>, az: int, natCount: int, chunks: nat, p: nat)
    requires 1 <= natCount <= az && |gateways| == natCount && |private| == chunks * az && p <= |private|
    ensures PrivateRoutes(private, gateways, az, natCount, true, p).Ok?
    ensures forall k :: 0 <= k < p ==> PrivateRoutes(private, gateways, az, natCount, true, p).value[k].subnet == private[k].name
    ensures forall k :: 0 <= k < p ==> exists g :: (0 <= g < natCount
      && PrivateRoutes(private, gateways, az, natCount, true, p).value[k].target == ToNatGateway(gateways[g].name)
      && (k % az < natCount ==> g == k % az))
  {
    PrivateRoutesIs(private, gateways, az, natCount, true, p);
    if p > 0 {
      RoutesCorrected(private, gateways, az, natCount, chunks, p - 1);
      var prev := PrivateRoutes(private, gateways, az, natCount, true, p - 1).value;
      var r := PrivateRoutes(private, gateways, az, natCount, true, p).value;
      var g := TargetIndex(az, natCount, p - 1, true);
      assert r == prev + [Route(private[p - 1].name, NatName((p - 1) % az), ToNatGateway(gateways[g].name))];
      forall k | 0 <= k < p
        ensures r[k].subnet == private[k].name
        ensures exists g :: 0 <= g < natCount && r[k].target == ToNatGateway(gateways[g].name) && (k % az < natCount ==> g == k % az)
      {
        if k < p - 1 {
          assert r[k] == prev[k];
        }
      }
    }
  }

  /** With the corrected round-robin the chunk loop covers exactly the private subnets and never throws. */
  lemma CorrectedLoopSucceeds(private: seq<Subnet>, gateways: seq<NatGateway>, az: int, natCount: int, chunks: nat)
    requires 1 <= natCount <= az && |gateways| == natCount && |private| == chunks * az
    ensures ChunkEnd(|private|, az, 0) == |private|
    ensures PrivateRoutes(private, gateways, az, natCount, true, |private|).Ok?
  {
    ChunkEndOfMultiple(az, 0, chunks);
    RoutesCorrected(private, gateways, az, natCount, chunks, |private|);
  }

  /**
   * As written, three zones with one NAT gateway and one private subnet per
   * zone already throw: zone 1 takes gateway 0 and moves the counter on, so
   * zone 2 reads gateway 1, which does not exist. The corrected loop routes
   * zone 2 to gateway 0.
   */
  lemma UnwrappedCounterFails(a: Subnet, b: Subnet, c: Subnet, g: NatGateway)
    ensures PrivateRoutes([a, b, c], [g], 3, 1, false, 3) == Fail(Message(UndefinedRead("id")))
    ensures PrivateRoutes([a, b, c], [g], 3, 1, true, 3)
      == Ok([Route(a.name, NatName(0), ToNatGateway(g.name)), Route(b.name, NatName(1), ToNatGateway(g.name)),
        Route(c.name, NatName(2), ToNatGateway(g.name))])
  {
    DivModUnique(0, 3, 0, 0);
    DivModUnique(1, 3, 0, 1);
    DivModUnique(2, 3, 0, 2);
    assert Spill(3, 1, 2) == 1;
    var r0 := Route(a.name, NatName(0), ToNatGateway(g.name));
    var r1 := Route(b.name, NatName(1), ToNatGateway(g.name));
    var r2 := Route(c.name, NatName(2), ToNatGateway(g.name));
    assert [] + [r0] == [r0] && [r0] + [r1] == [r0, r1] && [r0, r1] + [r2] == [r0, r1, r2];
    PrivateRoutesIs([a, b, c], [g], 3, 1, false, 0);
    PrivateRoutesIs([a, b, c], [g], 3, 1, true, 0);
    PrivateRoutesStep([a, b, c], [g], 3, 1, false, 0, []);
    PrivateRoutesStep([a, b, c], [g], 3, 1, false, 1, [r0]);
    assert TargetIndex(3, 1, 2, false) == 1;
    PrivateRoutesStep([a, b, c], [g], 3, 1, true, 0, []);
    PrivateRoutesStep([a, b, c], [g], 3, 1, true, 1, [r0]);
    assert TargetIndex(3, 1, 2, true) == 0;
    PrivateRoutesStep([a, b, c], [g], 3, 1, true, 2, [r0, r1]);
  }

  /** Position p of the corrected routing loop, in zone j, with the round-robin counter at its expected value and g the gateway the loop picks. */
  lemma RouteStep(private: seq<Subnet>, gateways: seq<NatGateway>, az: int, natCount: int, p: nat, j: int, counter: nat, g: int, done: seq<Route>)
    requires az >= 1 && natCount != 0 && 0 <= j < az && p % az == j
    requires counter == Spill(az, natCount, p)
    requires g == (if j < natCount then j else RoundRobin(counter, natCount))
    requires PrivateRoutes(private, gateways, az, natCount, true, p) == Ok(done)
    ensures Spill(az, natCount, p + 1) == counter + (if j < natCount then 0 else 1)
    ensures p >= |private| ==> PrivateRoutes(private, gateways, az, natCount, true, p + 1) == Fail(Message(UndefinedRead("createRoute")))
    ensures (p < |private| && g >= |gateways|) ==> PrivateRoutes(private, gateways, az, natCount, true, p + 1) == Fail(Message(UndefinedRead("id")))
    ensures (p < |private| && g < |gateways|) ==>
      PrivateRoutes(private, gateways, az, natCount, true, p + 1) == Ok(done + [Route(private[p].name, NatName(j), ToNatGateway(gateways[g].name))])
  {
    assert g == TargetIndex(az, natCount, p, true);
    PrivateRoutesIs(private, gateways, az, natCount, true, p + 1);
  }

  /** One more position of the routing loop, unfolded: the route for position p is appended, or the read of a missing gateway throws. */
  lemma PrivateRoutesStep(private: seq<Subnet>, gateways: seq<NatGateway>, az: int, natCount: int, wrap: bool, p: nat, prev: seq<Route>)
    requires az >= 1 && natCount != 0 && p < |private|
    requires PrivateRoutes(private, gateways, az, natCount, wrap, p) == Ok(prev)
    ensures TargetIndex(az, natCount, p, wrap) >= |gateways| ==>
      PrivateRoutes(private, gateways, az, natCount, wrap, p + 1) == Fail(Message(UndefinedRead("id")))
    ensures TargetIndex(az, natCount, p, wrap) < |gateways| ==>
      PrivateRoutes(private, gateways, az, natCount, wrap, p + 1)
      == Ok(prev + [Route(private[p].name, NatName(p % az), ToNatGateway(gateways[TargetIndex(az, natCount, p, wrap)].name))])
  {
    PrivateRoutesIs(private, gateways, az, natCount, wrap, p + 1);
  }

  /** The subnets `createSubnets` makes from existing ids: `${vpcName}-${type}-${i}`, in input order. */
  function ExistingSubnets(vpcName: string, kind: Kind, inputs: seq<Ref>): (r: seq<Subnet>)
    ensures |r| == |inputs|
    ensures forall i :: 0 <= i < |inputs| ==> r[i] == Subnet(vpcName + "-" + KindName(kind) + "-" + NatToString(i), inputs[i])
  {
    seq(|inputs|, i requires 0 <= i < |inputs| => Subnet(vpcName + "-" + KindName(kind) + "-" + NatToString(i), inputs[i]))
  }

  /** The ids of a list of subnets, in order. */
  function Ids(subnets: seq<Subnet>): (r: seq<Ref>)
    ensures |r| == |subnets| && forall i :: 0 <= i < |subnets| ==> r[i] == subnets[i].id
  {
    seq(|subnets|, i requires 0 <= i < |subnets| => subnets[i].id)
  }

  lemma IdsAppend(a: seq<Subnet>, b: seq<Subnet>)
    ensures Ids(a + b) == Ids(a) + Ids(b)
  {
  }

  /** Every field of a Vpc but the id lists, which Valid ties to the subnets. */
  datatype VpcState = VpcState(vpcId: Ref, settings: Option<VpcSettings>, public: seq<Subnet>, private: seq<Subnet>,
    isolated: seq<Subnet>, internetGateway: Option<string>, natGateways: seq<NatGateway>, routes: seq<Route>)

  /**
   * The topology (ec2/vpcTopology.ts): from the VPC name, its CIDR block, the
   * zone count and the requested layout, the subnets it creates, or the
   * error it throws.
   */
  type Topology = (string, string, int, seq<SubnetArgs>) -> Result<TopologySubnets>

  /**
   * The routing loop advances by the zone count; with fewer than one zone
   * and a negative NAT gateway count it never ends, so that case is
   * excluded.
   */
  predicate RoutingTerminates(args: ConstructorArgs)
  {
    args.NewVpc? ==>
      var az := args.args.numberOfAvailabilityZones.GetOr(2);
      az >= 1 || args.args.numberOfNatGateways.GetOr(az) >= 0
  }

  /**
   * What the constructor builds: an existing VPC as it is; a new one with
   * the defaults, the topology's subnets, an internet gateway when there
   * are public subnets, and NAT gateways with the routes of the private
   * subnets when there are private and public subnets and gateways to make.
   */
  function Construct(name: string, args: ConstructorArgs, topology: Topology): (r: Result<VpcState>)
    requires RoutingTerminates(args)
    ensures args.ExistingVpc? ==> r.Ok? && r.value.vpcId == args.vpcId && r.value.settings.None?
    ensures (args.NewVpc? && Configure(name, args.args).Fail?) ==> r == Fail(Configure(name, args.args).error)
    ensures (args.NewVpc? && r.Ok?) ==> (r.value.vpcId == LegacyNetwork.VpcId(name) && r.value.settings.Some?
      && (r.value.internetGateway.Some? <==> |r.value.public| > 0)
      && |r.value.routes| >= |r.value.public| && r.value.routes[..|r.value.public|] == InternetRoutes(name, r.value.public))
  {
    match args
    case ExistingVpc(id) => Ok(VpcState(id, None, [], [], [], None, [], []))
    case NewVpc(a) =>
      var c := Configure(name, a);
      if c.Fail? then Fail(c.error)
      else
        var cfg := c.value;
        var made := topology(name, cfg.cidrBlock, cfg.azCount, cfg.subnets);
        if made.Fail? then Fail(made.error)
        else
          Assemble(name, cfg, made.value)
  }

  /** A new VPC once its subnets exist: the internet gateway and its routes, then the NAT gateways and the private routes. */
  function Assemble(name: string, cfg: Config, t: TopologySubnets): (r: Result<VpcState>)
    requires cfg.natCount <= cfg.azCount && (cfg.azCount >= 1 || cfg.natCount >= 0)
    ensures r.Ok? ==> (r.value.vpcId == LegacyNetwork.VpcId(name) && r.value.settings == Some(cfg.settings)
      && r.value.public == t.public && r.value.private == t.private && r.value.isolated == t.isolated
      && (r.value.internetGateway.Some? <==> |t.public| > 0)
      && |r.value.routes| >= |t.public| && r.value.routes[..|t.public|] == InternetRoutes(name, t.public))
  {
    var igRoutes := InternetRoutes(name, t.public);
    var base := VpcState(LegacyNetwork.VpcId(name), Some(cfg.settings), t.public, t.private, t.isolated,
      if |t.public| == 0 then None else Some(name), [], igRoutes);
    if |t.private| == 0 || cfg.natCount == 0 || |t.public| == 0 then Ok(base)
    else
      var plan := NatPlan(t.public, cfg.azCount, cfg.natCount);
      if plan.Fail? then Fail(plan.error)
      else
        var run := PrivateRoutes(t.private, plan.value, cfg.azCount, cfg.natCount, true, ChunkEnd(|t.private|, cfg.azCount, 0));
        if run.Fail? then Fail(run.error)
        else
          assert (igRoutes + run.value)[..|t.public|] == igRoutes;
          Ok(base.(natGateways := plan.value, routes := igRoutes + run.value))
  }

  /**
   * With at least one NAT gateway, a public subnet in every zone and whole
   * rows of private subnets, a new VPC is built: NAT gateway i sits in the
   * public subnet of zone i, every public subnet routes to the internet
   * gateway, and every private subnet gets one route, to its own zone's
   * gateway when that zone has one and to some gateway otherwise.
   */
  lemma ZonalNatGateways(name: string, cfg: Config, t: TopologySubnets, chunks: nat)
    requires 1 <= cfg.natCount <= cfg.azCount && |t.public| >= cfg.azCount
    requires |t.private| == chunks * cfg.azCount && chunks >= 1
    ensures Assemble(name, cfg, t).Ok?
    ensures |Assemble(name, cfg, t).value.natGateways| == cfg.natCount
    ensures forall i :: 0 <= i < cfg.natCount ==>
      Assemble(name, cfg, t).value.natGateways[i] == NatGateway(NatName(i), t.public[i].name, NatName(i))
    ensures |Assemble(name, cfg, t).value.routes| == |t.public| + |t.private|
    ensures forall k :: 0 <= k < |t.private| ==> Assemble(name, cfg, t).value.routes[|t.public| + k].subnet == t.private[k].name
    ensures forall k :: 0 <= k < |t.private| ==> exists g :: (0 <= g < cfg.natCount
      && Assemble(name, cfg, t).value.routes[|t.public| + k].target == ToNatGateway(Assemble(name, cfg, t).value.natGateways[g].name)
      && (k % cfg.azCount < cfg.natCount ==> g == k % cfg.azCount))
  {
    var az, natCount := cfg.azCount, cfg.natCount;
    MulLe(1, chunks, az);
    NatPlanPlacement(t.public, az, natCount);
    var gws := NatPlan(t.public, az, natCount).value;
    CorrectedLoopSucceeds(t.private, gws, az, natCount, chunks);
    RoutesCorrected(t.private, gws, az, natCount, chunks, |t.private|);
    var run := PrivateRoutes(t.private, gws, az, natCount, true, |t.private|).value;
    var r := Assemble(name, cfg, t).value;
    assert r.natGateways == gws;
    assert r.routes == InternetRoutes(name, t.public) + run;
    forall k | 0 <= k < |t.private|
      ensures r.routes[|t.public| + k] == run[k]
    {
    }
  }

  /** The state `fromExistingIds` builds: the given VPC with the subnets of the given ids, and nothing created. */
  function ExistingState(name: string, vpcId: Ref, public: seq<Ref>, private: seq<Ref>, isolated: seq<Ref>): (s: VpcState)
    ensures s.settings.None? && s.internetGateway.None? && s.natGateways == [] && s.routes == []
    ensures Ids(s.public) == public && Ids(s.private) == private && Ids(s.isolated) == isolated
  {
    VpcState(vpcId, None, ExistingSubnets(name, PublicKind, public), ExistingSubnets(name, PrivateKind, private),
      ExistingSubnets(name, IsolatedKind, isolated), None, [], [])
  }

  class Vpc {
    var vpcId: Ref
    var settings: Option<VpcSettings>
    var publicSubnets: seq<Subnet>
    var privateSubnets: seq<Subnet>
    var isolatedSubnets: seq<Subnet>
    var publicSubnetIds: seq<Ref>
    var privateSubnetIds: seq<Ref>
    var isolatedSubnetIds: seq<Ref>
    var internetGateway: Option<string>
    var natGateways: seq<NatGateway>
    var routes: seq<Route>

    /** Each id list holds the ids of the subnet list of the same kind. */
    predicate Valid()
      reads this
    {
      publicSubnetIds == Ids(publicSubnets) && privateSubnetIds == Ids(privateSubnets) && isolatedSubnetIds == Ids(isolatedSubnets)
    }

    function State(): VpcState
      reads this
    {
      VpcState(vpcId, settings, publicSubnets, privateSubnets, isolatedSubnets, internetGateway, natGateways, routes)
    }

    function SubnetsOf(kind: Kind): seq<Subnet>
      reads this
    {
      match kind
      case PublicKind => publicSubnets
      case PrivateKind => privateSubnets
      case IsolatedKind => isolatedSubnets
    }

    /** `getSubnets`: the subnets of a known type; any other type throws. */
    function GetSubnets(t: string): (r: Result<seq<Subnet>>)
      reads this
      ensures r.Ok? <==> ParseKind(t).Some?
      ensures r.Ok? ==> r.value == SubnetsOf(ParseKind(t).value)
      ensures r.Fail? ==> r.error == Message(UnexpectedSubnetType(t))
    {
      if t == "public" then Ok(publicSubnets)
      else if t == "private" then Ok(privateSubnets)
      else if t == "isolated" then Ok(isolatedSubnets)
      else Fail(Message(UnexpectedSubnetType(t)))
    }

    /** `getSubnetIds`: the subnet ids of a known type; any other type throws. */
    function GetSubnetIds(t: string): (r: Result<seq<Ref>>)
      reads this
    {
      if t == "public" then Ok(publicSubnetIds)
      else if t == "private" then Ok(privateSubnetIds)
      else if t == "isolated" then Ok(isolatedSubnetIds)
      else Fail(Message(UnexpectedSubnetType(t)))
    }

    /** On a valid VPC the two lookups agree: the same types fail with the same error, and the ids are those of the subnets. */
    lemma SubnetIdsMatch(t: string)
      requires Valid()
      ensures GetSubnetIds(t).Ok? <==> GetSubnets(t).Ok?
      ensures GetSubnetIds(t).Fail? ==> GetSubnetIds(t).error == GetSubnets(t).error
      ensures GetSubnetIds(t).Ok? ==> GetSubnetIds(t).value == Ids(GetSubnets(t).value)
    {
    }

    /** A VPC that wraps an existing VPC resource: no subnets yet, and nothing created. */
    constructor Existing(vpcId: Ref)
      ensures this.vpcId == vpcId && settings.None? && Valid()
      ensures publicSubnets == [] && privateSubnets == [] && isolatedSubnets == []
      ensures internetGateway.None? && natGateways == [] && routes == []
    {
      this.vpcId := vpcId;
      settings := None;
      publicSubnets, privateSubnets, isolatedSubnets := [], [], [];
      publicSubnetIds, privateSubnetIds, isolatedSubnetIds := [], [], [];
      internetGateway := None;
      natGateways, routes := [], [];
    }

    /** A new VPC resource with the subnets its topology created. */
    constructor Created(settings: VpcSettings, made: TopologySubnets)
      ensures vpcId == LegacyNetwork.VpcId(settings.name) && this.settings == Some(settings) && Valid()
      ensures publicSubnets == made.public && privateSubnets == made.private && isolatedSubnets == made.isolated
      ensures internetGateway.None? && natGateways == [] && routes == []
    {
      vpcId := LegacyNetwork.VpcId(settings.name);
      this.settings := Some(settings);
      publicSubnets, privateSubnets, isolatedSubnets := made.public, made.private, made.isolated;
      publicSubnetIds, privateSubnetIds, isolatedSubnetIds := Ids(made.public), Ids(made.private), Ids(made.isolated);
      internetGateway := None;
      natGateways, routes := [], [];
    }

    /**
     * `createSubnets`: subnet i of the inputs becomes `${vpcName}-${type}-${i}`
     * and is appended, with its id, to the lists of its type; the other
     * lists are left alone.
     */
    method CreateSubnets(vpcName: string, kind: Kind, inputs: seq<Ref>)
      modifies this
      requires Valid()
      ensures Valid()
      ensures SubnetsOf(kind) == old(SubnetsOf(kind)) + ExistingSubnets(vpcName, kind, inputs)
      ensures forall other :: other != kind ==> SubnetsOf(other) == old(SubnetsOf(other))
      ensures vpcId == old(vpcId) && settings == old(settings) && internetGateway == old(internetGateway)
      ensures natGateways == old(natGateways) && routes == old(routes)
    {
      ghost var before := SubnetsOf(kind);
      for i := 0 to |inputs|
        invariant Valid()
        invariant SubnetsOf(kind) == before + ExistingSubnets(vpcName, kind, inputs)[..i]
        invariant forall other :: other != kind ==> SubnetsOf(other) == old(SubnetsOf(other))
        invariant vpcId == old(vpcId) && settings == old(settings) && internetGateway == old(internetGateway)
        invariant natGateways == old(natGateways) && routes == old(routes)
      {
        var subnet := Subnet(vpcName + "-" + KindName(kind) + "-" + NatToString(i), inputs[i]);
        assert ExistingSubnets(vpcName, kind, inputs)[..i + 1] == ExistingSubnets(vpcName, kind, inputs)[..i] + [subnet];
        AppendSubnet(kind, subnet);
      }
      assert ExistingSubnets(vpcName, kind, inputs)[..|inputs|] == ExistingSubnets(vpcName, kind, inputs);
    }

    /** `subnets.push(subnet)` and `subnetIds.push(subnet.id)` on the lists of one type. */
    method AppendSubnet(kind: Kind, subnet: Subnet)
      modifies this
      requires Valid()
      ensures Valid()
      ensures SubnetsOf(kind) == old(SubnetsOf(kind)) + [subnet]
      ensures forall other :: other != kind ==> SubnetsOf(other) == old(SubnetsOf(other))
      ensures vpcId == old(vpcId) && settings == old(settings) && internetGateway == old(internetGateway)
      ensures natGateways == old(natGateways) && routes == old(routes)
    {
      match kind
      case PublicKind =>
        IdsAppend(publicSubnets, [subnet]);
        publicSubnets, publicSubnetIds := publicSubnets + [subnet], publicSubnetIds + [subnet.id];
      case PrivateKind =>
        IdsAppend(privateSubnets, [subnet]);
        privateSubnets, privateSubnetIds := privateSubnets + [subnet], privateSubnetIds + [subnet.id];
      case IsolatedKind =>
        IdsAppend(isolatedSubnets, [subnet]);
        isolatedSubnets, isolatedSubnetIds := isolatedSubnets + [subnet], isolatedSubnetIds + [subnet.id];
    }

    /** Everything but the gateways and the routes is as it was on entry. */
    twostate predicate SubnetsKept()
      reads this
    {
      vpcId == old(vpcId) && settings == old(settings) && internetGateway == old(internetGateway)
      && publicSubnets == old(publicSubnets) && privateSubnets == old(privateSubnets) && isolatedSubnets == old(isolatedSubnets)
      && publicSubnetIds == old(publicSubnetIds) && privateSubnetIds == old(privateSubnetIds) && isolatedSubnetIds == old(isolatedSubnetIds)
    }

    /**
     * `createInternetGateway`: without public subnets, no gateway and no
     * routes; otherwise a gateway named after the VPC and an "ig" route to it
     * from every public subnet.
     */
    method CreateInternetGateway(name: string) returns (gateway: Option<string>)
      modifies this
      ensures SubnetsKept() && natGateways == old(natGateways)
      ensures |publicSubnets| == 0 ==> gateway.None? && routes == old(routes)
      ensures |publicSubnets| > 0 ==> gateway == Some(name) && routes == old(routes) + InternetRoutes(name, publicSubnets)
    {
      if |publicSubnets| == 0 {
        return None;
      }
      var public := publicSubnets;
      for k := 0 to |public|
        invariant SubnetsKept() && natGateways == old(natGateways)
        invariant routes == old(routes) + InternetRoutes(name, public)[..k]
      {
        assert InternetRoutes(name, public)[..k + 1] == InternetRoutes(name, public)[..k] + [Route(public[k].name, "ig", ToInternetGateway(name))];
        routes := routes + [Route(public[k].name, "ig", ToInternetGateway(name))];
      }
      assert InternetRoutes(name, public)[..|public|] == InternetRoutes(name, public);
      return Some(name);
    }

    /**
     * The loop of `createNatGateways` that makes the gateways: gateway i in
     * public subnet `i % az`, pushed in order.
     */
    method PlaceNatGateways(az: int, natCount: int) returns (r: Outcome)
      modifies this
      requires 1 <= az && natCount <= az
      ensures SubnetsKept() && routes == old(routes)
      ensures r.Pass? <==> NatPlan(publicSubnets, az, natCount).Ok?
      ensures r.Reject? ==> r.error == NatPlan(publicSubnets, az, natCount).error
      ensures r.Pass? ==> natGateways == old(natGateways) + NatPlan(publicSubnets, az, natCount).value
    {
      var public := publicSubnets;
      ghost var base := natGateways;
      ghost var plan := NatPlan(public, az, natCount);
      if natCount >= 0 && natCount <= |public| {
        NatPlanPlacement(public, az, natCount);
      }
      var i := 0;
      while i < natCount
        invariant 0 <= i && (natCount >= 0 ==> i <= natCount) && (natCount < 0 ==> i == 0)
        invariant i <= |public|
        invariant SubnetsKept() && routes == old(routes)
        invariant |natGateways| == |base| + i && natGateways[..|base|] == base
        invariant forall k :: 0 <= k < i ==> natGateways[|base| + k] == NatGateway(NatName(k), public[k].name, NatName(k))
      {
        var availabilityZone := i % az;
        DivModUnique(i, az, 0, i);
        if availabilityZone >= |public| {
          return Reject(Message(UndefinedRead("id")));
        }
        var publicSubnet := public[availabilityZone];
        natGateways := natGateways + [NatGateway(NatName(i), publicSubnet.name, NatName(i))];
        i := i + 1;
      }
      assert plan.Ok?;
      assert natGateways == base + plan.value;
      return Pass;
    }

    /**
     * The loop of `createNatGateways` that routes the private subnets, chunk
     * by chunk of az subnets, with the round-robin counter taken modulo the
     * gateway count.
     */
    method RoutePrivateSubnets(az: int, natCount: int) returns (r: Outcome)
      modifies this
      requires az >= 1 && natCount != 0
      ensures SubnetsKept() && natGateways == old(natGateways)
      ensures var run := PrivateRoutes(privateSubnets, natGateways, az, natCount, true, ChunkEnd(|privateSubnets|, az, 0));
        (r.Pass? <==> run.Ok?) && (run.Fail? ==> r == Reject(run.error)) && (run.Ok? ==> routes == old(routes) + run.value)
    {
      var private, gateways := privateSubnets, natGateways;
      var n := |private|;
      ghost var end := ChunkEnd(n, az, 0);
      ghost var done: seq<Route> := [];
      PrivateRoutesIs(private, gateways, az, natCount, true, 0);
      var roundRobinIndex := 0;
      var i := 0;
      while i < n
        invariant i % az == 0 && ChunkEnd(n, az, i) == end
        invariant SubnetsKept() && natGateways == old(natGateways)
        invariant roundRobinIndex == Spill(az, natCount, i)
        invariant PrivateRoutes(private, gateways, az, natCount, true, i) == Ok(done)
        invariant routes == old(routes) + done
        decreases n - i
      {
        assert i + az <= end;
        var chunk;
        chunk, roundRobinIndex, done := RouteChunk(private, gateways, az, natCount, i, roundRobinIndex, old(routes), done);
        if chunk.Reject? {
          PrivateRoutesFailed(private, gateways, az, natCount, true, i + az, end);
          return chunk;
        }
        ChunkZone(i, 0, az);
        i := i + az;
      }
      return Pass;
    }

    /**
     * One chunk of the routing loop: the az private subnets from position i
     * on, one per zone, each routed to its zone's gateway or to the next one
     * in round-robin order.
     */
    method RouteChunk(private: seq<Subnet>, gateways: seq<NatGateway>, az: int, natCount: int, i: nat,
                      roundRobinIndex: nat, ghost base: seq<Route>, ghost done: seq<Route>)
      returns (r: Outcome, next: nat, ghost done': seq<Route>)
      modifies this
      requires az >= 1 && natCount != 0 && i % az == 0
      requires roundRobinIndex == Spill(az, natCount, i)
      requires PrivateRoutes(private, gateways, az, natCount, true, i) == Ok(done)
      requires routes == base + done
      ensures SubnetsKept() && natGateways == old(natGateways)
      ensures r.Pass? ==> (next == Spill(az, natCount, i + az) && PrivateRoutes(private, gateways, az, natCount, true, i + az) == Ok(done')
        && routes == base + done')
      ensures r.Reject? ==> PrivateRoutes(private, gateways, az, natCount, true, i + az) == Fail(r.error)
    {
      next, done' := roundRobinIndex, done;
      for j := 0 to az
        invariant SubnetsKept() && natGateways == old(natGateways)
        invariant next == Spill(az, natCount, i + j)
        invariant PrivateRoutes(private, gateways, az, natCount, true, i + j) == Ok(done')
        invariant routes == base + done'
      {
        ChunkZone(i, j, az);
        var g;
        if j < natCount {
          g := j;
        } else {
          g := RoundRobin(next, natCount);
        }
        RouteStep(private, gateways, az, natCount, i + j, j, next, g, done');
        if j >= natCount {
          next := next + 1;
        }
        if i + j >= |private| {
          PrivateRoutesFailed(private, gateways, az, natCount, true, i + j + 1, i + az);
          return Reject(Message(UndefinedRead("createRoute"))), next, done';
        }
        if g >= |gateways| {
          assert PrivateRoutes(private, gateways, az, natCount, true, i + j + 1).Fail?;
          PrivateRoutesFailed(private, gateways, az, natCount, true, i + j + 1, i + az);
          return Reject(Message(UndefinedRead("id"))), next, done';
        }
        var route := Route(private[i + j].name, NatName(j), ToNatGateway(gateways[g].name));
        routes := routes + [route];
        done' := done' + [route];
      }
      return Pass, next, done';
    }

    /**
     * `createNatGateways`: nothing without private subnets, public subnets
     * or gateways to create; otherwise the gateways, then the routes of the
     * private subnets to them.
     */
    method CreateNatGateways(az: int, natCount: int) returns (r: Outcome)
      modifies this
      requires natCount <= az && (az >= 1 || natCount == 0 || |privateSubnets| == 0 || |publicSubnets| == 0)
      ensures SubnetsKept()
      ensures (|privateSubnets| == 0 || natCount == 0 || |publicSubnets| == 0) ==>
        r.Pass? && natGateways == old(natGateways) && routes == old(routes)
      ensures (|privateSubnets| > 0 && natCount != 0 && |publicSubnets| > 0) ==>
        var plan := NatPlan(publicSubnets, az, natCount);
        (plan.Fail? ==> r == Reject(plan.error))
        && (plan.Ok? ==>
          var run := PrivateRoutes(privateSubnets, old(natGateways) + plan.value, az, natCount, true, ChunkEnd(|privateSubnets|, az, 0));
          (r.Pass? <==> run.Ok?) && (run.Fail? ==> r == Reject(run.error))
          && (run.Ok? ==> natGateways == old(natGateways) + plan.value && routes == old(routes) + run.value))
    {
      if |privateSubnets| == 0 || natCount == 0 || |publicSubnets| == 0 {
        return Pass;
      }
      r := PlaceNatGateways(az, natCount);
      if r.Reject? {
        return;
      }
      r := RoutePrivateSubnets(az, natCount);
    }

    /**
     * The constructor: wraps an existing VPC, or creates a VPC with its
     * subnets, internet gateway, NAT gateways and routes; whatever it throws
     * is the failure.
     */
    static method New(name: string, args: ConstructorArgs, topology: Topology) returns (r: Result<Vpc>)
      requires RoutingTerminates(args)
      ensures r.Ok? <==> Construct(name, args, topology).Ok?
      ensures r.Fail? ==> r.error == Construct(name, args, topology).error
      ensures r.Ok? ==> fresh(r.value) && r.value.Valid() && r.value.State() == Construct(name, args, topology).value
    {
      if args.ExistingVpc? {
        var v := new Vpc.Existing(args.vpcId);
        return Ok(v);
      }
      var a := args.args;
      var c := Configure(name, a);
      if c.Fail? {
        return Fail(c.error);
      }
      var cfg := c.value;
      var made := topology(name, cfg.cidrBlock, cfg.azCount, cfg.subnets);
      if made.Fail? {
        return Fail(made.error);
      }
      assert Construct(name, args, topology) == Assemble(name, cfg, made.value);
      var v := new Vpc.Created(cfg.settings, made.value);
      var outcome := v.Build(name, cfg);
      if outcome.Reject? {
        return Fail(outcome.error);
      }
      return Ok(v);
    }

    /** The rest of the constructor on a VPC just created with its subnets: the internet gateway, then the NAT gateways. */
    method Build(name: string, cfg: Config) returns (r: Outcome)
      modifies this
      requires cfg.natCount <= cfg.azCount && (cfg.azCount >= 1 || cfg.natCount >= 0)
      requires vpcId == LegacyNetwork.VpcId(name) && settings == Some(cfg.settings) && Valid()
      requires internetGateway.None? && natGateways == [] && routes == []
      ensures Valid()
      ensures var built := Assemble(name, cfg, TopologySubnets(old(publicSubnets), old(privateSubnets), old(isolatedSubnets)));
        (r.Pass? <==> built.Ok?) && (r.Reject? ==> r.error == built.error) && (r.Pass? ==> State() == built.value)
    {
      var gateway := CreateInternetGateway(name);
      internetGateway := gateway;
      assert routes == InternetRoutes(name, publicSubnets);
      r := CreateNatGateways(cfg.azCount, cfg.natCount);
      if |privateSubnets| > 0 && cfg.natCount != 0 && |publicSubnets| > 0 {
        var plan := NatPlan(publicSubnets, cfg.azCount, cfg.natCount);
        if plan.Ok? {
          assert [] + plan.value == plan.value;
        }
      }
    }

    /** `fromExistingIds`: the given VPC, then its public, private and isolated subnets from their ids (none when absent). */
    static method FromExistingIds(name: string, vpcId: Ref, publicIds: Option<seq<Ref>>, privateIds: Option<seq<Ref>>,
                                  isolatedIds: Option<seq<Ref>>) returns (v: Vpc)
      ensures fresh(v) && v.Valid()
      ensures v.State() == ExistingState(name, vpcId, publicIds.GetOr([]), privateIds.GetOr([]), isolatedIds.GetOr([]))
    {
      v := new Vpc.Existing(vpcId);
      v.CreateSubnets(name, PublicKind, publicIds.GetOr([]));
      v.CreateSubnets(name, PrivateKind, privateIds.GetOr([]));
      v.CreateSubnets(name, IsolatedKind, isolatedIds.GetOr([]));
    }
  }

  /** The module-level cache of the default VPC. */
  class VpcClass {
    var defaultVpc: Option<Vpc>

    constructor ()
      ensures defaultVpc.None?
    {
      defaultVpc := None;
    }

    /**
     * `Vpc.getDefault`: the first call wraps the account's default VPC with
     * its first two subnets as the public ones and stores it; every later
     * call returns that same object.
     */
    method GetDefault(vpcId: string, subnetIds: seq<string>) returns (v: Vpc)
      modifies this
      ensures old(defaultVpc).Some? ==> v == old(defaultVpc).value && defaultVpc == old(defaultVpc)
      ensures old(defaultVpc).None? ==> (defaultVpc == Some(v) && fresh(v)
        && v.State() == ExistingState("default-vpc", LegacyNetwork.Given(vpcId),
          [LegacyNetwork.Nth(subnetIds, 0), LegacyNetwork.Nth(subnetIds, 1)], [], []))
    {
      if defaultVpc.Some? {
        return defaultVpc.value;
      }
      v := Vpc.FromExistingIds("default-vpc", LegacyNetwork.Given(vpcId),
        Some([LegacyNetwork.Nth(subnetIds, 0), LegacyNetwork.Nth(subnetIds, 1)]), None, None);
      defaultVpc := Some(v);
    }
  }
}
