// The VPC component of awsx/ec2/vpc.ts: the argument defaults and checks
// of `initialize`, the NAT gateway strategy rules, the ordering of a zone's
// subnets, overlap detection, and the per-zone loop that lays out subnets,
// NAT gateways, elastic IPs and routes. Subnet, gateway and route resources
// are descriptors; a subnet's id is its resource name.
module VpcComponent {
  import opened Wrappers
  import opened Cidr
  import opened Text
  import opened SubnetTypes

  /** The errors the component throws. */
  datatype VpcError =
    | ZoneArgsConflict
    | TooFewZones(desired: int)
    | UnknownEipStrategy(strategy: string)
    | EipsWithoutGateways(strategy: string)
    | TooManyEips(strategy: string)
    | EipsPerZoneMismatch(azCount: nat, strategy: string)
    | UnknownNatStrategy(strategy: string)
    | GatewaysNeedSubnets
    | UnknownGatewayDecision(strategy: string)
    | OverlapReport(lines: string)
    | UndefinedRead(property: string)

  /** The text of an error. */
  function Message(e: VpcError): string
  {
    MessageText(e, 1)
  }

  /**
   * The text of each error, reached once the fuel argument runs out: the
   * verifier unfolds it only where a proof asks for the words.
   */
  function MessageText(e: VpcError, fuel: nat): string
  {
    if fuel > 0 then MessageText(e, fuel - 1)
    else match e
      case ZoneArgsConflict => "Only one of [availabilityZoneNames] and [numberOfAvailabilityZones] can be specified"
      case TooFewZones(d) =>
        "The configured region for this provider does not have at least " + IntToString(d)
        + " Availability Zones. Either specify an explicit list of zones in availabilityZoneNames or choose a region with at least "
        + IntToString(d) + " AZs."
      case UnknownEipStrategy(k) => "Unknown NatGatewayStrategy '" + k + "'"
      case EipsWithoutGateways(k) => "Elastic IP allocation IDs cannot be specified when NAT Gateway strategy is '" + k + "'."
      case TooManyEips(k) => "Exactly one Elastic IP may be specified when NAT Gateway strategy is '" + k + "'."
      case EipsPerZoneMismatch(n, k) =>
        "The number of Elastic IPs, if specified, must match the number of availability zones for the VPC ("
        + NatToString(n) + ") when NAT Gateway strategy is '" + k + "'"
      case UnknownNatStrategy(k) => "Unknown NAT Gateway strategy '" + k + "'"
      case GatewaysNeedSubnets =>
        "If NAT Gateway strategy is 'OnePerAz' or 'Single', both private and public subnets must be declared. The private subnet creates the need for a NAT Gateway, and the public subnet is required to host the NAT Gateway resource."
      case UnknownGatewayDecision(k) => "Unknown NatGatewayStrategy \"" + k + "\""
      case OverlapReport(lines) =>
        "The following subnets overlap with at least one other subnet. Make the CIDR for the VPC larger, reduce the size of the subnets per AZ, or use less Availability Zones:\n\n"
        + lines
      case UndefinedRead(p) => "TypeError: Cannot read properties of undefined (reading '" + p + "')"
  }

  // ---------------------------------------------------------------------
  // NAT gateway strategy

  datatype NatStrategy = NoGateways | SingleGateway | GatewayPerZone

  /** The strategy a `natGateways.strategy` string names, compared lower-cased; None when unknown. */
  function ParseStrategy(name: string): Option<NatStrategy>
  {
    var l := ToLower(name);
    if l == "none" then Some(NoGateways)
    else if l == "single" then Some(SingleGateway)
    else if l == "oneperaz" then Some(GatewayPerZone)
    else None
  }

  /** The spelling of each strategy in the component's schema. */
  function StrategyName(k: NatStrategy): string
  {
    match k
    case NoGateways => "None"
    case SingleGateway => "Single"
    case GatewayPerZone => "OnePerAz"
  }

  /** Every schema spelling parses back to its strategy. */
  lemma ParseStrategyName(k: NatStrategy)
    ensures ParseStrategy(StrategyName(k)) == Some(k)
  {
    match k
    case NoGateways => ToLowerIs("None", "none");
    case SingleGateway => ToLowerIs("Single", "single");
    case GatewayPerZone => ToLowerIs("OnePerAz", "oneperaz");
  }

  /** How many elastic IP allocation ids each strategy accepts. */
  predicate EipCountFits(k: NatStrategy, count: nat, azCount: nat)
  {
    match k
    case NoGateways => count == 0
    case SingleGateway => count <= 1
    case GatewayPerZone => count == 0 || count == azCount
  }

  /**
   * `validateEips`. The `None` case tests `eips?.length ?? 0 !== 0`, which
   * parses as `eips?.length ?? (0 !== 0)` and is truthy exactly for a
   * non-empty list.
   */
  function ValidateEips(strategyName: string, eips: Option<seq<string>>, azCount: nat): (r: Outcome)
    ensures r.Pass? <==> (ParseStrategy(strategyName).Some?
      && EipCountFits(ParseStrategy(strategyName).value, |eips.GetOr([])|, azCount))
  {
    match ParseStrategy(strategyName)
    case None => Reject(Message(UnknownEipStrategy(strategyName)))
    case Some(NoGateways) =>
      if eips.Some? && |eips.value| != 0 then
        Reject(Message(EipsWithoutGateways(strategyName)))
      else Pass
    case Some(SingleGateway) =>
      if eips.Some? && |eips.value| > 1 then
        Reject(Message(TooManyEips(strategyName)))
      else Pass
    case Some(GatewayPerZone) =>
      if eips.Some? && |eips.value| > 0 && |eips.value| != azCount then
        Reject(Message(EipsPerZoneMismatch(azCount, strategyName)))
      else Pass
  }

  /** Some subnet of the list has type t (`subnets.some(...)`). */
  function AnyOfType(subnets: seq<SubnetSpec>, t: SubnetType): (r: bool)
    ensures r <==> exists i :: 0 <= i < |subnets| && subnets[i].subnetType == t
  {
    if |subnets| == 0 then false
    else subnets[0].subnetType == t || AnyOfType(subnets[1..], t)
  }

  /**
   * `validateNatGatewayStrategy`: a strategy that creates gateways needs a
   * private subnet to serve and a public subnet to host them.
   */
  function ValidateNatGatewayStrategy(strategyName: string, subnets: seq<SubnetSpec>): (r: Outcome)
    ensures r.Pass? <==> (ParseStrategy(strategyName) == Some(NoGateways)
      || (ParseStrategy(strategyName).Some?
        && (exists i :: 0 <= i < |subnets| && subnets[i].subnetType == Public)
        && (exists i :: 0 <= i < |subnets| && subnets[i].subnetType == Private)))
  {
    match ParseStrategy(strategyName)
    case None => Reject(Message(UnknownNatStrategy(strategyName)))
    case Some(NoGateways) => Pass
    case Some(_) =>
      if AnyOfType(subnets, Public) && AnyOfType(subnets, Private) then Pass
      else Reject(Message(GatewaysNeedSubnets))
  }

  /** Gateways the strategy wants in place once zones 0 .. n - 1 are laid out. */
  function Wanted(k: NatStrategy, n: nat): nat
  {
    match k
    case NoGateways => 0
    case SingleGateway => if n == 0 then 0 else 1
    case GatewayPerZone => n
  }

  /** The decision of `shouldCreateNatGateway` for a known strategy. */
  function NatWanted(k: NatStrategy, numGateways: nat, azIndex: nat): (r: bool)
    ensures r <==> numGateways < Wanted(k, azIndex + 1)
  {
    match k
    case NoGateways => false
    case SingleGateway => numGateways < 1
    case GatewayPerZone => numGateways < azIndex + 1
  }

  /** `shouldCreateNatGateway`: unknown strategies throw. */
  function ShouldCreateNatGateway(strategyName: string, numGateways: nat, azIndex: nat): (r: Result<bool>)
    ensures r.Fail? <==> ParseStrategy(strategyName).None?
    ensures r.Ok? ==> (r.value <==> numGateways < Wanted(ParseStrategy(strategyName).value, azIndex + 1))
  {
    match ParseStrategy(strategyName)
    case None => Fail(Message(UnknownGatewayDecision(strategyName)))
    case Some(k) => Ok(NatWanted(k, numGateways, azIndex))
  }

  // ---------------------------------------------------------------------
  // Ordering a zone's subnets

  /** Position of a subnet type in a zone: public, then private, then isolated. */
  function Rank(t: SubnetType): nat
  {
    match t
    case Public => 0
    case Private => 1
    case Isolated => 2
  }

  /** `compareSubnetSpecs`: the sign of the difference of the two ranks. */
  function CompareSubnetSpecs(a: SubnetSpec, b: SubnetSpec): (r: int)
    ensures -1 <= r <= 1
    ensures r < 0 <==> Rank(a.subnetType) < Rank(b.subnetType)
    ensures r == 0 <==> a.subnetType == b.subnetType
    ensures r > 0 <==> Rank(a.subnetType) > Rank(b.subnetType)
  {
    if a.subnetType == b.subnetType then 0
    else if a.subnetType == Public then -1
    else if a.subnetType == Private && b.subnetType == Public then 1
    else if a.subnetType == Private && b.subnetType == Isolated then -1
    else 1
  }

  /** The comparator is antisymmetric and transitive, as `Array.prototype.sort` requires. */
  lemma CompareIsOrder(a: SubnetSpec, b: SubnetSpec, c: SubnetSpec)
    ensures CompareSubnetSpecs(a, b) == -CompareSubnetSpecs(b, a)
    ensures CompareSubnetSpecs(a, b) <= 0 && CompareSubnetSpecs(b, c) <= 0 ==> CompareSubnetSpecs(a, c) <= 0
  {
  }

  /** The subnets of type t, in order. */
  function OfType(s: seq<SubnetSpec>, t: SubnetType): (r: seq<SubnetSpec>)
    ensures |r| <= |s|
    ensures forall k :: 0 <= k < |r| ==> r[k].subnetType == t
  {
    if |s| == 0 then [] else (if s[0].subnetType == t then [s[0]] else []) + OfType(s[1..], t)
  }

  /** The subnets placed in zone az (`filter((x) => x.azName === az)`). */
  function InZone(s: seq<SubnetSpec>, az: string): (r: seq<SubnetSpec>)
    ensures |r| <= |s|
    ensures forall k :: 0 <= k < |r| ==> r[k].azName == az
  {
    if |s| == 0 then [] else (if s[0].azName == az then [s[0]] else []) + InZone(s[1..], az)
  }

  /**
   * The stable sort by `compareSubnetSpecs`: the public subnets, then the
   * private ones, then the isolated ones, each group in input order.
   */
  function ZoneOrder(s: seq<SubnetSpec>): seq<SubnetSpec>
  {
    OfType(s, Public) + OfType(s, Private) + OfType(s, Isolated)
  }

  lemma {:induction false} OfTypeAppend(a: seq<SubnetSpec>, b: seq<SubnetSpec>, t: SubnetType)
    ensures OfType(a + b, t) == OfType(a, t) + OfType(b, t)
    decreases |a|
  {
    if |a| > 0 {
      var head := if a[0].subnetType == t then [a[0]] else [];
      assert (a + b)[0] == a[0];
      assert (a + b)[1..] == a[1..] + b;
      OfTypeAppend(a[1..], b, t);
      calc {
        OfType(a + b, t);
        head + OfType(a[1..] + b, t);
        head + (OfType(a[1..], t) + OfType(b, t));
        (head + OfType(a[1..], t)) + OfType(b, t);
      }
    } else {
      assert a + b == b;
    }
  }

  /** Filtering a list of type-t subnets by type u keeps it whole or empties it. */
  lemma {:induction false} OfTypeOfType(s: seq<SubnetSpec>, t: SubnetType, u: SubnetType)
    ensures OfType(OfType(s, t), u) == if t == u then OfType(s, t) else []
    decreases |s|
  {
    if |s| > 0 {
      var head := if s[0].subnetType == t then [s[0]] else [];
      OfTypeAppend(head, OfType(s[1..], t), u);
      OfTypeOfType(s[1..], t, u);
      if s[0].subnetType == t {
        assert OfType(head, u) == if t == u then head else [] by {
          assert head[1..] == [];
        }
      }
    }
  }

  /** The three type groups together hold every subnet once. */
  lemma OfTypePartition(s: seq<SubnetSpec>)
    ensures multiset(OfType(s, Public)) + multiset(OfType(s, Private)) + multiset(OfType(s, Isolated)) == multiset(s)
  {
    forall x
      ensures (multiset(OfType(s, Public)) + multiset(OfType(s, Private)) + multiset(OfType(s, Isolated)))[x] == multiset(s)[x]
    {
      OfTypeCount(s, Public, x);
      OfTypeCount(s, Private, x);
      OfTypeCount(s, Isolated, x);
    }
  }

  /** The filter keeps every copy of a subnet of its type and no other subnet. */
  lemma {:induction false} OfTypeCount(s: seq<SubnetSpec>, t: SubnetType, x: SubnetSpec)
    ensures multiset(OfType(s, t))[x] == if x.subnetType == t then multiset(s)[x] else 0
    decreases |s|
  {
    if |s| > 0 {
      OfTypeCount(s[1..], t, x);
      assert s == [s[0]] + s[1..];
      if s[0].subnetType == t {
        OfTypeKeeps(s);
      } else {
        OfTypeSkips(s, t);
      }
    }
  }

  lemma OfTypeKeeps(s: seq<SubnetSpec>)
    requires |s| > 0
    ensures OfType(s, s[0].subnetType) == [s[0]] + OfType(s[1..], s[0].subnetType)
  {
  }

  lemma OfTypeSkips(s: seq<SubnetSpec>, t: SubnetType)
    requires |s| > 0 && s[0].subnetType != t
    ensures OfType(s, t) == OfType(s[1..], t)
  {
  }

  /** The zone order is sorted by the comparator. */
  lemma ZoneOrderSorted(s: seq<SubnetSpec>)
    ensures forall i, j :: 0 <= i < j < |ZoneOrder(s)| ==> CompareSubnetSpecs(ZoneOrder(s)[i], ZoneOrder(s)[j]) <= 0
  {
    var z := ZoneOrder(s);
    var p, q := |OfType(s, Public)|, |OfType(s, Private)|;
    forall i | 0 <= i < |z|
      ensures Rank(z[i].subnetType) == if i < p then 0 else if i < p + q then 1 else 2
    {
      if i < p {
        assert z[i] == OfType(s, Public)[i];
      } else if i < p + q {
        assert z[i] == OfType(s, Private)[i - p];
      } else {
        assert z[i] == OfType(s, Isolated)[i - p - q];
      }
    }
  }

  /** The zone order is a permutation of the zone's subnets. */
  lemma ZoneOrderPermutes(s: seq<SubnetSpec>)
    ensures multiset(ZoneOrder(s)) == multiset(s)
  {
    OfTypePartition(s);
  }

  /** The zone order keeps the input order within each type: the sort is stable. */
  lemma ZoneOrderStable(s: seq<SubnetSpec>, t: SubnetType)
    ensures OfType(ZoneOrder(s), t) == OfType(s, t)
  {
    OfTypeAppend(OfType(s, Public) + OfType(s, Private), OfType(s, Isolated), t);
    OfTypeAppend(OfType(s, Public), OfType(s, Private), t);
    OfTypeOfType(s, Public, t);
    OfTypeOfType(s, Private, t);
    OfTypeOfType(s, Isolated, t);
  }

  /** A list with a subnet of type t keeps one when filtered by t. */
  lemma {:induction false} OfTypeNonEmpty(s: seq<SubnetSpec>, t: SubnetType)
    requires AnyOfType(s, t)
    ensures |OfType(s, t)| > 0
    decreases |s|
  {
    if s[0].subnetType != t {
      OfTypeNonEmpty(s[1..], t);
    }
  }

  /** A zone that has a public subnet starts with one. */
  lemma ZoneOrderStartsPublic(s: seq<SubnetSpec>)
    requires AnyOfType(s, Public)
    ensures |ZoneOrder(s)| > 0 && ZoneOrder(s)[0].subnetType == Public
  {
    OfTypeNonEmpty(s, Public);
    assert ZoneOrder(s)[0] == OfType(s, Public)[0];
  }

  // ---------------------------------------------------------------------
  // Overlapping subnets

  /**
   * `Address4.isInSubnet`: block a is inside block b when a's prefix is at
   * least as long and a's address masked to b's prefix is b's start.
   */
  predicate InSubnet(a: CidrBlock, b: CidrBlock)
    requires ValidMask(a) && ValidMask(b)
  {
    a.mask >= b.mask && Align(a.addr, b.mask) == Align(b.addr, b.mask)
  }

  /** The `overlaps` test of `getOverlappingSubnets`. */
  predicate Overlaps(a: CidrBlock, b: CidrBlock)
    requires ValidMask(a) && ValidMask(b)
  {
    InSubnet(a, b) || InSubnet(b, a)
  }

  /** A block inside another lies within its address range. */
  lemma InSubnetRange(a: CidrBlock, b: CidrBlock)
    requires ValidMask(a) && ValidMask(b) && InSubnet(a, b)
    ensures Start(b) <= Start(a) && End(a) <= End(b)
  {
    AlignInside(Start(a), a.mask, b.mask, a.addr);
    assert Align(Start(a), b.mask) == Start(b);
    AlignIs(Start(b), Start(a), b.mask);
    BlockContains(Start(a), a.mask, b.mask);
  }

  /** Two blocks that share an address, the longer prefix inside the shorter. */
  lemma SharedInside(a: CidrBlock, b: CidrBlock)
    requires ValidMask(a) && ValidMask(b) && a.mask >= b.mask
    requires Start(a) <= End(b) && Start(b) <= End(a)
    ensures InSubnet(a, b)
  {
    var x := if Start(a) < Start(b) then Start(b) else Start(a);
    AlignIs(Start(b), x, b.mask);
    AlignInside(Start(a), a.mask, b.mask, x);
    AlignInside(Start(a), a.mask, b.mask, a.addr);
  }

  /** Two CIDR blocks overlap in this sense exactly when their address ranges meet. */
  lemma OverlapsIffRangesMeet(a: CidrBlock, b: CidrBlock)
    requires ValidMask(a) && ValidMask(b)
    ensures Overlaps(a, b) <==> (Start(a) <= End(b) && Start(b) <= End(a))
  {
    if InSubnet(a, b) {
      InSubnetRange(a, b);
    } else if InSubnet(b, a) {
      InSubnetRange(b, a);
    } else if Start(a) <= End(b) && Start(b) <= End(a) {
      if a.mask >= b.mask {
        SharedInside(a, b);
      } else {
        SharedInside(b, a);
      }
    }
  }

  predicate AllValid(specs: seq<SubnetSpec>)
  {
    forall k :: 0 <= k < |specs| ==> ValidMask(specs[k].cidrBlock)
  }

  /** The subnet at position i overlaps a subnet at another position. */
  predicate OverlapsAnother(specs: seq<SubnetSpec>, i: nat)
    requires AllValid(specs) && i < |specs|
  {
    exists j :: 0 <= j < |specs| && j != i && Overlaps(specs[i].cidrBlock, specs[j].cidrBlock)
  }

  /** The first n subnets that overlap another, in input order. */
  function OverlappingPrefix(specs: seq<SubnetSpec>, n: nat): (r: seq<SubnetSpec>)
    requires AllValid(specs) && n <= |specs|
    ensures |r| <= n
    ensures forall x :: x in r <==> exists k :: 0 <= k < n && OverlapsAnother(specs, k) && specs[k] == x
  {
    if n == 0 then []
    else OverlappingPrefix(specs, n - 1) + (if OverlapsAnother(specs, n - 1) then [specs[n - 1]] else [])
  }

  /** `getOverlappingSubnets`: every subnet that contains, or lies in, a subnet at another position. */
  function GetOverlappingSubnets(specs: seq<SubnetSpec>): (r: seq<SubnetSpec>)
    requires AllValid(specs)
    ensures forall x :: x in r <==> exists k :: 0 <= k < |specs| && OverlapsAnother(specs, k) && specs[k] == x
    ensures |r| > 0 <==> exists k :: 0 <= k < |specs| && OverlapsAnother(specs, k)
  {
    var r := OverlappingPrefix(specs, |specs|);
    assert (exists k :: 0 <= k < |specs| && OverlapsAnother(specs, k)) <==> |r| > 0 by {
      if |r| > 0 {
        assert r[0] in r;
      }
      if exists k :: 0 <= k < |specs| && OverlapsAnother(specs, k) {
        var k :| 0 <= k < |specs| && OverlapsAnother(specs, k);
        assert specs[k] in r;
      }
    }
    r
  }

  /** The k-th line of the overlap report: `${k + 1}. ${name}: ${cidr}`. */
  function OverlapLine(k: nat, s: SubnetSpec): string
  {
    NatToString(k + 1) + ". " + s.subnetName + ": " + CidrString(s.cidrBlock) + "\n"
  }

  /** The numbered report lines of a list of subnets. */
  function OverlapLines(subnets: seq<SubnetSpec>): string
  {
    if |subnets| == 0 then ""
    else OverlapLines(subnets[..|subnets| - 1]) + OverlapLine(|subnets| - 1, subnets[|subnets| - 1])
  }

  /**
   * `validateSubnets`: throws exactly when some subnet overlaps another, with
   * the header and one numbered line per overlapping subnet.
   */
  method ValidateSubnets(specs: seq<SubnetSpec>) returns (r: Outcome)
    requires AllValid(specs)
    ensures r.Reject? <==> exists k :: 0 <= k < |specs| && OverlapsAnother(specs, k)
    ensures r.Reject? ==> r.error == Message(OverlapReport(OverlapLines(GetOverlappingSubnets(specs))))
  {
    var overlappingSubnets := GetOverlappingSubnets(specs);
    if |overlappingSubnets| > 0 {
      var msg := "";
      var i := 0;
      while i < |overlappingSubnets|
        invariant 0 <= i <= |overlappingSubnets|
        invariant msg == OverlapLines(overlappingSubnets[..i])
      {
        assert overlappingSubnets[..i + 1][..i] == overlappingSubnets[..i];
        msg := msg + OverlapLine(i, overlappingSubnets[i]);
        i := i + 1;
      }
      assert overlappingSubnets[..i] == overlappingSubnets;
      return Reject(Message(OverlapReport(msg)));
    }
    return Pass;
  }

  // ---------------------------------------------------------------------
  // Arguments of `initialize`

  /** The arguments of the component that `initialize` reads; subnet specs go to the distributor. */
  datatype VpcArgs = VpcArgs(
    availabilityZoneNames: Option<seq<string>>,
    numberOfAvailabilityZones: Option<int>,
    natStrategy: Option<string>,
    elasticIpAllocationIds: Option<seq<string>>,
    cidrBlock: Option<CidrBlock>)

  /** What `initialize` settles before laying out subnets. */
  datatype VpcConfig = VpcConfig(azNames: seq<string>, strategyName: string, allocationIds: seq<string>, cidrBlock: CidrBlock)

  /** 10.0.0.0/16. */
  const DefaultCidr: CidrBlock := CidrBlock(167772160, 16)

  /**
   * `getDefaultAzs`: the first `azCount ?? 3` zones of the region. A
   * negative count reaches `slice(0, n)` and drops zones from the end.
   */
  function GetDefaultAzs(regionZones: seq<string>, azCount: Option<int>): (r: Result<seq<string>>)
    ensures var d := azCount.GetOr(3); r.Fail? <==> (d >= 0 && |regionZones| < d)
    ensures var d := azCount.GetOr(3); r.Ok? && d >= 0 ==>
      |r.value| == d && forall k :: 0 <= k < d ==> r.value[k] == regionZones[k]
    ensures r.Ok? ==> |r.value| <= |regionZones| && forall k :: 0 <= k < |r.value| ==> r.value[k] == regionZones[k]
  {
    var desiredCount := azCount.GetOr(3);
    if |regionZones| < desiredCount then
      Fail(Message(TooFewZones(desiredCount)))
    else if desiredCount >= 0 then Ok(regionZones[..desiredCount])
    else if |regionZones| + desiredCount <= 0 then Ok([])
    else Ok(regionZones[..|regionZones| + desiredCount])
  }

  /** Zone names were given and a non-zero zone count too (`0` is falsy and passes). */
  predicate BothZoneArgs(args: VpcArgs)
  {
    args.availabilityZoneNames.Some? && args.numberOfAvailabilityZones.Some? && args.numberOfAvailabilityZones.value != 0
  }

  /**
   * The head of `initialize`: the zones, the strategy (default "OnePerAz"),
   * the allocation ids (default none) once `validateEips` accepts them, and
   * the block (default 10.0.0.0/16).
   */
  function Configure(args: VpcArgs, regionZones: seq<string>): (r: Result<VpcConfig>)
    ensures BothZoneArgs(args) ==> r.Fail?
    ensures r.Ok? ==> (r.value.strategyName == args.natStrategy.GetOr("OnePerAz")
      && r.value.allocationIds == args.elasticIpAllocationIds.GetOr([])
      && r.value.cidrBlock == args.cidrBlock.GetOr(DefaultCidr))
    ensures r.Ok? ==> ValidateEips(r.value.strategyName, Some(r.value.allocationIds), |r.value.azNames|) == Pass
    ensures r.Ok? && args.availabilityZoneNames.Some? ==> r.value.azNames == args.availabilityZoneNames.value
    ensures r.Ok? && args.availabilityZoneNames.None? ==>
      GetDefaultAzs(regionZones, args.numberOfAvailabilityZones) == Ok(r.value.azNames)
  {
    if BothZoneArgs(args) then
      Fail(Message(ZoneArgsConflict))
    else
      var azs := if args.availabilityZoneNames.Some? then Ok(args.availabilityZoneNames.value)
        else GetDefaultAzs(regionZones, args.numberOfAvailabilityZones);
      if azs.Fail? then Fail(azs.error)
      else
        var strategyName := args.natStrategy.GetOr("OnePerAz");
        var allocationIds := args.elasticIpAllocationIds.GetOr([]);
        match ValidateEips(strategyName, Some(allocationIds), |azs.value|)
        case Reject(e) => Fail(e)
        case Pass => Ok(VpcConfig(azs.value, strategyName, allocationIds, args.cidrBlock.GetOr(DefaultCidr)))
  }

  // ---------------------------------------------------------------------
  // The per-zone loop of `initialize`

  /** How a NAT gateway gets its address: a new elastic IP, or the allocation id at the zone's index. */
  datatype Allocation = NewEip(eipName: string) | GivenId(id: Option<string>)

  datatype NatGateway = NatGateway(name: string, subnetName: string, allocation: Allocation)

  /** Where a route table's default route (0.0.0.0/0) leads. */
  datatype RouteTarget = ToInternetGateway | ToNatGateway(index: nat)

  /** A default route in the route table named after a subnet. */
  datatype Route = Route(routeTable: string, target: RouteTarget)

  /**
   * The lists `initialize` fills. Each subnet also gets a route table and
   * an association named after it, so those lists follow `subnets`.
   */
  datatype VpcResources = VpcResources(
    subnets: seq<SubnetSpec>,
    publicSubnetIds: seq<string>,
    privateSubnetIds: seq<string>,
    isolatedSubnetIds: seq<string>,
    natGateways: seq<NatGateway>,
    eips: seq<string>,
    routes: seq<Route>)

  const NoResources: VpcResources := VpcResources([], [], [], [], [], [], [])

  /** `${name}-${i + 1}`: the name of zone i's NAT gateway and elastic IP. */
  function ZoneResourceName(name: string, i: nat): string
  {
    name + "-" + NatToString(i + 1)
  }

  /** The gateway a public subnet of zone i hosts: a new elastic IP (named like it) or the given id. */
  function AddNatGateway(res: VpcResources, spec: SubnetSpec, i: nat, name: string, allocationIds: seq<string>): Result<VpcResources>
  {
    var gw := ZoneResourceName(name, i);
    if |allocationIds| == 0 then
      var eips := res.eips + [gw];
      if i < |eips| then
        Ok(res.(eips := eips, natGateways := res.natGateways + [NatGateway(gw, spec.subnetName, NewEip(eips[i]))]))
      else Fail(Message(UndefinedRead("allocationId")))
    else
      var id := if i < |allocationIds| then Some(allocationIds[i]) else None;
      Ok(res.(natGateways := res.natGateways + [NatGateway(gw, spec.subnetName, GivenId(id))]))
  }

  /** The body of the `forEach` for one subnet of zone i. */
  function Step(res: VpcResources, spec: SubnetSpec, i: nat, name: string, k: NatStrategy, allocationIds: seq<string>): Result<VpcResources>
  {
    StepAfter(res, spec, i, name, k, allocationIds, 2)
  }

  /** Step, reached once the fuel argument runs out, so that proofs about whole zones do not unfold it. */
  function StepAfter(res: VpcResources, spec: SubnetSpec, i: nat, name: string, k: NatStrategy, allocationIds: seq<string>, fuel: nat): Result<VpcResources>
  {
    if fuel > 0 then StepAfter(res, spec, i, name, k, allocationIds, fuel - 1) else StepBody(res, spec, i, name, k, allocationIds)
  }

  lemma StepIs(res: VpcResources, spec: SubnetSpec, i: nat, name: string, k: NatStrategy, allocationIds: seq<string>)
    ensures Step(res, spec, i, name, k, allocationIds) == StepBody(res, spec, i, name, k, allocationIds)
  {
    assert StepAfter(res, spec, i, name, k, allocationIds, 1) == StepAfter(res, spec, i, name, k, allocationIds, 0);
  }

  function StepBody(res: VpcResources, spec: SubnetSpec, i: nat, name: string, k: NatStrategy, allocationIds: seq<string>): Result<VpcResources>
  {
    var res1 := res.(subnets := res.subnets + [spec]);
    var res2 := match spec.subnetType
      case Public => res1.(publicSubnetIds := res1.publicSubnetIds + [spec.subnetName])
      case Private => res1.(privateSubnetIds := res1.privateSubnetIds + [spec.subnetName])
      case Isolated => res1.(isolatedSubnetIds := res1.isolatedSubnetIds + [spec.subnetName]);
    var res3 := if spec.subnetType == Public && NatWanted(k, |res2.natGateways|, i)
      then AddNatGateway(res2, spec, i, name, allocationIds) else Ok(res2);
    if res3.Fail? then res3
    else if spec.subnetType == Public then
      Ok(res3.value.(routes := res3.value.routes + [Route(spec.subnetName, ToInternetGateway)]))
    else if spec.subnetType == Private && k != NoGateways then
      var g := if k == SingleGateway then 0 else i;
      if g < |res3.value.natGateways| then
        Ok(res3.value.(routes := res3.value.routes + [Route(spec.subnetName, ToNatGateway(g))]))
      else Fail(Message(UndefinedRead("id")))
    else res3
  }

  /** The steps for the subnets of one zone, in order, stopping at the first error. */
  function ZoneSteps(res: VpcResources, zone: seq<SubnetSpec>, i: nat, name: string, k: NatStrategy, allocationIds: seq<string>): Result<VpcResources>
    decreases |zone|
  {
    if |zone| == 0 then Ok(res)
    else
      var before := ZoneSteps(res, zone[..|zone| - 1], i, name, k, allocationIds);
      if before.Fail? then before else Step(before.value, zone[|zone| - 1], i, name, k, allocationIds)
  }

  /** Zone i's subnets in creation order. */
  function ZoneList(specs: seq<SubnetSpec>, azNames: seq<string>, i: nat): seq<SubnetSpec>
    requires i < |azNames|
  {
    ZoneListAfter(specs, azNames, i, 2)
  }

  /** ZoneList, reached once the fuel argument runs out, so that proofs about layouts do not unfold the filters. */
  function ZoneListAfter(specs: seq<SubnetSpec>, azNames: seq<string>, i: nat, fuel: nat): seq<SubnetSpec>
    requires i < |azNames|
  {
    if fuel > 0 then ZoneListAfter(specs, azNames, i, fuel - 1) else ZoneOrder(InZone(specs, azNames[i]))
  }

  lemma ZoneListIs(specs: seq<SubnetSpec>, azNames: seq<string>, i: nat)
    requires i < |azNames|
    ensures ZoneList(specs, azNames, i) == ZoneOrder(InZone(specs, azNames[i]))
  {
    assert ZoneListAfter(specs, azNames, i, 1) == ZoneListAfter(specs, azNames, i, 0);
  }

  /** The resources after laying out zones 0 .. n - 1. */
  function Layout(name: string, azNames: seq<string>, k: NatStrategy, allocationIds: seq<string>, specs: seq<SubnetSpec>, n: nat): Result<VpcResources>
    requires n <= |azNames|
  {
    if n == 0 then Ok(NoResources)
    else
      var before := Layout(name, azNames, k, allocationIds, specs, n - 1);
      if before.Fail? then before else ZoneSteps(before.value, ZoneList(specs, azNames, n - 1), n - 1, name, k, allocationIds)
  }

  /** Once a zone's steps fail, the later subnets of the zone change nothing. */
  lemma {:induction false} ZoneStepsFailStays(res: VpcResources, zone: seq<SubnetSpec>, j: nat, i: nat, name: string, k: NatStrategy, allocationIds: seq<string>)
    requires j <= |zone|
    requires ZoneSteps(res, zone[..j], i, name, k, allocationIds).Fail?
    ensures ZoneSteps(res, zone, i, name, k, allocationIds) == ZoneSteps(res, zone[..j], i, name, k, allocationIds)
    decreases |zone| - j
  {
    if j < |zone| {
      var longer := zone[..j + 1];
      assert longer[..|longer| - 1] == zone[..j];
      ZoneStepsFailStays(res, zone, j + 1, i, name, k, allocationIds);
    } else {
      assert zone[..j] == zone;
    }
  }

  /** Once a zone fails, the later zones change nothing. */
  lemma {:induction false} LayoutFailStays(name: string, azNames: seq<string>, k: NatStrategy, allocationIds: seq<string>, specs: seq<SubnetSpec>, n: nat, m: nat)
    requires n <= m <= |azNames|
    requires Layout(name, azNames, k, allocationIds, specs, n).Fail?
    ensures Layout(name, azNames, k, allocationIds, specs, m) == Layout(name, azNames, k, allocationIds, specs, n)
    decreases m - n
  {
    if n < m {
      LayoutFailStays(name, azNames, k, allocationIds, specs, n + 1, m);
    }
  }

  // ---------------------------------------------------------------------
  // What a successful layout holds

  /** The resource names of a list of subnets, in order. */
  function Names(s: seq<SubnetSpec>): (r: seq<string>)
    ensures |r| == |s| && forall j :: 0 <= j < |s| ==> r[j] == s[j].subnetName
  {
    seq(|s|, j requires 0 <= j < |s| => s[j].subnetName)
  }

  /** The id list of subnets of type t. */
  function IdList(res: VpcResources, t: SubnetType): seq<string>
  {
    match t
    case Public => res.publicSubnetIds
    case Private => res.privateSubnetIds
    case Isolated => res.isolatedSubnetIds
  }

  /** Each id list names exactly the created subnets of its type, in creation order. */
  ghost predicate IdsFollow(res: VpcResources)
  {
    forall t :: IdList(res, t) == Names(OfType(res.subnets, t))
  }

  /** The subnets of zones 0 .. n - 1, each zone's in creation order. */
  function ZoneLists(specs: seq<SubnetSpec>, azNames: seq<string>, n: nat): seq<SubnetSpec>
    requires n <= |azNames|
  {
    if n == 0 then [] else ZoneLists(specs, azNames, n - 1) + ZoneList(specs, azNames, n - 1)
  }

  lemma OfTypeSnoc(s: seq<SubnetSpec>, spec: SubnetSpec, t: SubnetType)
    ensures OfType(s + [spec], t) == OfType(s, t) + (if spec.subnetType == t then [spec] else [])
  {
    OfTypeAppend(s, [spec], t);
    assert [spec][1..] == [];
  }

  /** A step that succeeds appends its subnet, and its name to the id list of its type. */
  lemma StepShape(res: VpcResources, spec: SubnetSpec, i: nat, name: string, k: NatStrategy, allocationIds: seq<string>)
    requires Step(res, spec, i, name, k, allocationIds).Ok?
    ensures Step(res, spec, i, name, k, allocationIds).value.subnets == res.subnets + [spec]
    ensures forall t :: (IdList(Step(res, spec, i, name, k, allocationIds).value, t)
      == IdList(res, t) + if spec.subnetType == t then [spec.subnetName] else [])
  {
    StepIs(res, spec, i, name, k, allocationIds);
  }

  /** A step that succeeds keeps the id lists in line with the subnets. */
  lemma StepFollows(res: VpcResources, spec: SubnetSpec, i: nat, name: string, k: NatStrategy, allocationIds: seq<string>)
    requires IdsFollow(res)
    requires Step(res, spec, i, name, k, allocationIds).Ok?
    ensures Step(res, spec, i, name, k, allocationIds).value.subnets == res.subnets + [spec]
    ensures IdsFollow(Step(res, spec, i, name, k, allocationIds).value)
  {
    StepShape(res, spec, i, name, k, allocationIds);
    var r := Step(res, spec, i, name, k, allocationIds).value;
    forall t
      ensures IdList(r, t) == Names(OfType(r.subnets, t))
    {
      OfTypeSnoc(res.subnets, spec, t);
      assert IdList(res, t) == Names(OfType(res.subnets, t));
    }
  }

  /** A zone laid out without error appends its subnets and keeps the id lists in line. */
  lemma {:induction false} ZoneStepsFollow(res: VpcResources, zone: seq<SubnetSpec>, i: nat, name: string, k: NatStrategy, allocationIds: seq<string>)
    requires IdsFollow(res)
    requires ZoneSteps(res, zone, i, name, k, allocationIds).Ok?
    ensures ZoneSteps(res, zone, i, name, k, allocationIds).value.subnets == res.subnets + zone
    ensures IdsFollow(ZoneSteps(res, zone, i, name, k, allocationIds).value)
    decreases |zone|
  {
    if |zone| > 0 {
      var init := zone[..|zone| - 1];
      var before := ZoneSteps(res, init, i, name, k, allocationIds);
      ZoneStepsFollow(res, init, i, name, k, allocationIds);
      StepFollows(before.value, zone[|zone| - 1], i, name, k, allocationIds);
      assert init + [zone[|zone| - 1]] == zone;
    }
  }

  /**
   * A layout without error created the subnets of every zone in turn, each
   * zone's sorted with public ones first, and each id list names the
   * subnets of its type in the order they were created.
   */
  lemma {:induction false} LayoutFollows(name: string, azNames: seq<string>, k: NatStrategy, allocationIds: seq<string>, specs: seq<SubnetSpec>, n: nat)
    requires n <= |azNames|
    requires Layout(name, azNames, k, allocationIds, specs, n).Ok?
    ensures Layout(name, azNames, k, allocationIds, specs, n).value.subnets == ZoneLists(specs, azNames, n)
    ensures IdsFollow(Layout(name, azNames, k, allocationIds, specs, n).value)
  {
    if n > 0 {
      LayoutFollows(name, azNames, k, allocationIds, specs, n - 1);
      var before := Layout(name, azNames, k, allocationIds, specs, n - 1);
      ZoneStepsFollow(before.value, ZoneList(specs, azNames, n - 1), n - 1, name, k, allocationIds);
    }
  }

  /** Zone i is where the strategy places a new gateway: every zone for one per zone, the first for a single one. */
  predicate HostsGateway(k: NatStrategy, i: nat)
  {
    k == GatewayPerZone || (k == SingleGateway && i == 0)
  }

  /** The allocation gateway g is planned to use: a new elastic IP named like it, or the g-th given id. */
  function PlannedAllocation(name: string, allocationIds: seq<string>, g: nat): Allocation
  {
    if |allocationIds| == 0 then NewEip(ZoneResourceName(name, g))
    else GivenId(if g < |allocationIds| then Some(allocationIds[g]) else None)
  }

  /** The elastic IPs of the first n gateways. */
  function EipNames(name: string, n: nat): (r: seq<string>)
    ensures |r| == n && forall g :: 0 <= g < n ==> r[g] == ZoneResourceName(name, g)
  {
    seq(n, g requires 0 <= g < n => ZoneResourceName(name, g))
  }

  /** There are count gateways, gateway g named `${name}-${g + 1}` with its planned allocation. */
  ghost predicate GatewaysPlanned(res: VpcResources, name: string, allocationIds: seq<string>, count: nat)
  {
    |res.natGateways| == count
    && (forall g :: 0 <= g < count ==>
      res.natGateways[g].name == ZoneResourceName(name, g) && res.natGateways[g].allocation == PlannedAllocation(name, allocationIds, g))
    && res.eips == (if |allocationIds| == 0 then EipNames(name, count) else [])
  }

  /**
   * One subnet of zone i, with count gateways so far (those of the earlier
   * zones, or already this zone's too): a public subnet leaves the zone's
   * gateway in place, and any other subnet finds it there.
   */
  lemma StepPlanned(res: VpcResources, spec: SubnetSpec, i: nat, name: string, k: NatStrategy, allocationIds: seq<string>, count: nat)
    requires |allocationIds| > 0 ==> Wanted(k, i + 1) <= |allocationIds|
    requires count == Wanted(k, i) || count == Wanted(k, i + 1)
    requires GatewaysPlanned(res, name, allocationIds, count)
    requires spec.subnetType != Public ==> count == Wanted(k, i + 1)
    ensures Step(res, spec, i, name, k, allocationIds).Ok?
    ensures GatewaysPlanned(Step(res, spec, i, name, k, allocationIds).value, name, allocationIds,
      if spec.subnetType == Public then Wanted(k, i + 1) else count)
  {
    StepIs(res, spec, i, name, k, allocationIds);
    assert |res.natGateways| == count;
    var r := Step(res, spec, i, name, k, allocationIds);
    if spec.subnetType == Public && count < Wanted(k, i + 1) {
      assert count == i;
      assert r.Ok?;
      assert r.value.natGateways == res.natGateways + [NatGateway(ZoneResourceName(name, i), spec.subnetName, PlannedAllocation(name, allocationIds, i))];
      assert r.value.eips == if |allocationIds| == 0 then res.eips + [ZoneResourceName(name, i)] else res.eips;
      PlannedGrown(res, r.value, name, allocationIds, count, spec.subnetName);
    } else {
      assert r.Ok?;
      assert r.value.natGateways == res.natGateways && r.value.eips == res.eips;
      PlannedKept(res, r.value, name, allocationIds, count);
    }
  }

  lemma PlannedKept(res: VpcResources, r: VpcResources, name: string, allocationIds: seq<string>, count: nat)
    requires GatewaysPlanned(res, name, allocationIds, count)
    requires r.natGateways == res.natGateways && r.eips == res.eips
    ensures GatewaysPlanned(r, name, allocationIds, count)
  {
  }

  lemma PlannedGrown(res: VpcResources, r: VpcResources, name: string, allocationIds: seq<string>, count: nat, subnetName: string)
    requires GatewaysPlanned(res, name, allocationIds, count)
    requires r.natGateways == res.natGateways + [NatGateway(ZoneResourceName(name, count), subnetName, PlannedAllocation(name, allocationIds, count))]
    requires r.eips == if |allocationIds| == 0 then res.eips + [ZoneResourceName(name, count)] else res.eips
    ensures GatewaysPlanned(r, name, allocationIds, count + 1)
  {
    if |allocationIds| == 0 {
      assert res.eips + [ZoneResourceName(name, count)] == EipNames(name, count + 1);
    }
  }

  /**
   * A zone whose sorted list starts with a public subnet whenever the zone
   * hosts a gateway: its first j subnets lay out without error and leave
   * the zone's gateway in place from the first subnet on.
   */
  lemma {:induction false} ZoneStepsPlanned(res: VpcResources, zone: seq<SubnetSpec>, i: nat, name: string, k: NatStrategy, allocationIds: seq<string>, j: nat)
    requires j <= |zone|
    requires |allocationIds| > 0 ==> Wanted(k, i + 1) <= |allocationIds|
    requires GatewaysPlanned(res, name, allocationIds, Wanted(k, i))
    requires HostsGateway(k, i) ==> |zone| > 0 && zone[0].subnetType == Public
    ensures ZoneSteps(res, zone[..j], i, name, k, allocationIds).Ok?
    ensures GatewaysPlanned(ZoneSteps(res, zone[..j], i, name, k, allocationIds).value, name, allocationIds,
      if j == 0 then Wanted(k, i) else Wanted(k, i + 1))
    decreases j
  {
    if j > 0 {
      ZoneStepsPlanned(res, zone, i, name, k, allocationIds, j - 1);
      var prefix := zone[..j];
      assert prefix[..j - 1] == zone[..j - 1] && prefix[j - 1] == zone[j - 1];
      var before := ZoneSteps(res, zone[..j - 1], i, name, k, allocationIds);
      var count := if j == 1 then Wanted(k, i) else Wanted(k, i + 1);
      assert j == 1 && zone[0].subnetType != Public ==> !HostsGateway(k, i);
      StepPlanned(before.value, zone[j - 1], i, name, k, allocationIds, count);
      assert ZoneSteps(res, prefix, i, name, k, allocationIds) == Step(before.value, zone[j - 1], i, name, k, allocationIds);
    }
  }

  /**
   * When every zone that hosts a gateway has a public subnet and the given
   * allocation ids fit the strategy, the layout never reads a missing
   * gateway or elastic IP: it succeeds, with one gateway per hosting zone,
   * gateway g named `${name}-${g + 1}` and using the g-th allocation id
   * (which exists) or its own new elastic IP.
   */
  lemma {:induction false} LayoutSucceeds(name: string, azNames: seq<string>, k: NatStrategy, allocationIds: seq<string>, specs: seq<SubnetSpec>, n: nat)
    requires n <= |azNames|
    requires EipCountFits(k, |allocationIds|, |azNames|)
    requires forall i :: 0 <= i < n && HostsGateway(k, i) ==> AnyOfType(InZone(specs, azNames[i]), Public)
    ensures Layout(name, azNames, k, allocationIds, specs, n).Ok?
    ensures GatewaysPlanned(Layout(name, azNames, k, allocationIds, specs, n).value, name, allocationIds, Wanted(k, n))
    ensures |allocationIds| > 0 ==> Wanted(k, n) <= |allocationIds|
  {
    WantedFits(k, |allocationIds|, |azNames|, n);
    if n > 0 {
      LayoutSucceeds(name, azNames, k, allocationIds, specs, n - 1);
      LayoutStepPlanned(name, azNames, k, allocationIds, specs, n);
    }
  }

  /** Zone n - 1 laid out after the earlier zones keeps the gateways planned. */
  lemma LayoutStepPlanned(name: string, azNames: seq<string>, k: NatStrategy, allocationIds: seq<string>, specs: seq<SubnetSpec>, n: nat)
    requires 0 < n <= |azNames|
    requires |allocationIds| > 0 ==> Wanted(k, n) <= |allocationIds|
    requires HostsGateway(k, n - 1) ==> AnyOfType(InZone(specs, azNames[n - 1]), Public)
    requires Layout(name, azNames, k, allocationIds, specs, n - 1).Ok?
    requires GatewaysPlanned(Layout(name, azNames, k, allocationIds, specs, n - 1).value, name, allocationIds, Wanted(k, n - 1))
    ensures Layout(name, azNames, k, allocationIds, specs, n).Ok?
    ensures GatewaysPlanned(Layout(name, azNames, k, allocationIds, specs, n).value, name, allocationIds, Wanted(k, n))
  {
    var before := Layout(name, azNames, k, allocationIds, specs, n - 1);
    var zone := ZoneList(specs, azNames, n - 1);
    assert Layout(name, azNames, k, allocationIds, specs, n) == ZoneSteps(before.value, zone, n - 1, name, k, allocationIds);
    ZoneListIs(specs, azNames, n - 1);
    if HostsGateway(k, n - 1) {
      ZoneOrderStartsPublic(InZone(specs, azNames[n - 1]));
    } else {
      assert Wanted(k, n - 1) == Wanted(k, n);
    }
    ZoneStepsPlanned(before.value, zone, n - 1, name, k, allocationIds, |zone|);
    assert zone[..|zone|] == zone;
  }

  /** Allocation ids that fit the strategy cover every gateway wanted for the first n zones. */
  lemma WantedFits(k: NatStrategy, count: nat, azCount: nat, n: nat)
    requires n <= azCount && EipCountFits(k, count, azCount)
    ensures count > 0 ==> Wanted(k, n) <= count
  {
  }

  /**
   * The `forEach` over one zone's sorted subnets: each subnet is pushed with
   * its id, a public subnet may host the zone's NAT gateway (with a new
   * elastic IP when no allocation ids were given), and public and private
   * subnets get their default route.
   */
  method LayOutZone(start: VpcResources, zone: seq<SubnetSpec>, i: nat, name: string, k: NatStrategy, allocationIds: seq<string>)
    returns (r: Result<VpcResources>)
    ensures r == ZoneSteps(start, zone, i, name, k, allocationIds)
  {
    var res := start;
    var j := 0;
    while j < |zone|
      invariant 0 <= j <= |zone|
      invariant ZoneSteps(start, zone[..j], i, name, k, allocationIds) == Ok(res)
    {
      var prefix := zone[..j + 1];
      assert prefix[..j] == zone[..j] && prefix[j] == zone[j];
      var next := LayOutSubnet(res, zone[j], i, name, k, allocationIds);
      assert ZoneSteps(start, prefix, i, name, k, allocationIds) == next;
      if next.Fail? {
        ZoneStepsFailStays(start, zone, j + 1, i, name, k, allocationIds);
        return next;
      }
      res := next.value;
      j := j + 1;
    }
    assert zone[..j] == zone;
    return Ok(res);
  }

  /**
   * One subnet of that `forEach`: pushed with its id, a public subnet may
   * host the zone's NAT gateway (with a new elastic IP when no allocation
   * ids were given), and public and private subnets get their default route.
   */
  method LayOutSubnet(before: VpcResources, spec: SubnetSpec, i: nat, name: string, k: NatStrategy, allocationIds: seq<string>)
    returns (r: Result<VpcResources>)
    ensures r == Step(before, spec, i, name, k, allocationIds)
  {
    StepIs(before, spec, i, name, k, allocationIds);
    var res := before.(subnets := before.subnets + [spec]);
    match spec.subnetType {
      case Public => res := res.(publicSubnetIds := res.publicSubnetIds + [spec.subnetName]);
      case Private => res := res.(privateSubnetIds := res.privateSubnetIds + [spec.subnetName]);
      case Isolated => res := res.(isolatedSubnetIds := res.isolatedSubnetIds + [spec.subnetName]);
    }
    if spec.subnetType == Public && NatWanted(k, |res.natGateways|, i) {
      var createEip := |allocationIds| == 0;
      var allocation;
      if createEip {
        res := res.(eips := res.eips + [ZoneResourceName(name, i)]);
        if i >= |res.eips| {
          return Fail(Message(UndefinedRead("allocationId")));
        }
        allocation := NewEip(res.eips[i]);
      } else {
        allocation := GivenId(if i < |allocationIds| then Some(allocationIds[i]) else None);
      }
      res := res.(natGateways := res.natGateways + [NatGateway(ZoneResourceName(name, i), spec.subnetName, allocation)]);
    }
    if spec.subnetType == Public {
      res := res.(routes := res.routes + [Route(spec.subnetName, ToInternetGateway)]);
    } else if spec.subnetType == Private && k != NoGateways {
      var g := if k == SingleGateway then 0 else i;
      if g >= |res.natGateways| {
        return Fail(Message(UndefinedRead("id")));
      }
      res := res.(routes := res.routes + [Route(spec.subnetName, ToNatGateway(g))]);
    }
    return Ok(res);
  }

  /** The `for` loop over zones of `initialize`. */
  method LayOutZones(name: string, azNames: seq<string>, k: NatStrategy, allocationIds: seq<string>, specs: seq<SubnetSpec>)
    returns (r: Result<VpcResources>)
    ensures r == Layout(name, azNames, k, allocationIds, specs, |azNames|)
  {
    var res := NoResources;
    var i := 0;
    while i < |azNames|
      invariant 0 <= i <= |azNames|
      invariant Layout(name, azNames, k, allocationIds, specs, i) == Ok(res)
    {
      var zone := ZoneOrder(InZone(specs, azNames[i]));
      ZoneListIs(specs, azNames, i);
      var done := LayOutZone(res, zone, i, name, k, allocationIds);
      if done.Fail? {
        LayoutFailStays(name, azNames, k, allocationIds, specs, i + 1, |azNames|);
        return done;
      }
      res := done.value;
      i := i + 1;
    }
    return Ok(res);
  }

  /**
   * `initialize` of the VPC component, from the arguments to the resource
   * lists. The region's zones and the subnet distributor (which turns the
   * settled configuration into subnet descriptors) are parameters. It fails
   * with the first error of the configuration, the overlap check, the
   * strategy check or the per-zone loop, and it succeeds whenever those
   * checks pass and every zone that hosts a gateway has a public subnet.
   */
  method Initialize(name: string, args: VpcArgs, regionZones: seq<string>, getSubnetSpecs: VpcConfig -> seq<SubnetSpec>)
    returns (r: Result<VpcResources>)
    requires forall cfg :: AllValid(getSubnetSpecs(cfg))
    ensures Configure(args, regionZones).Fail? ==> r == Fail(Configure(args, regionZones).error)
    ensures r.Ok? <==> (Configure(args, regionZones).Ok?
      && var cfg := Configure(args, regionZones).value;
      var specs := getSubnetSpecs(cfg);
      (forall i :: 0 <= i < |specs| ==> !OverlapsAnother(specs, i))
      && ValidateNatGatewayStrategy(cfg.strategyName, specs) == Pass
      && Layout(name, cfg.azNames, ParseStrategy(cfg.strategyName).value, cfg.allocationIds, specs, |cfg.azNames|).Ok?)
    ensures r.Ok? ==> (var cfg := Configure(args, regionZones).value;
      r == Layout(name, cfg.azNames, ParseStrategy(cfg.strategyName).value, cfg.allocationIds, getSubnetSpecs(cfg), |cfg.azNames|))
    ensures (Configure(args, regionZones).Ok?
      && var cfg := Configure(args, regionZones).value;
      var specs := getSubnetSpecs(cfg);
      (forall i :: 0 <= i < |specs| ==> !OverlapsAnother(specs, i))
      && ValidateNatGatewayStrategy(cfg.strategyName, specs) == Pass
      && forall i :: 0 <= i < |cfg.azNames| && HostsGateway(ParseStrategy(cfg.strategyName).value, i) ==>
        AnyOfType(InZone(specs, cfg.azNames[i]), Public)) ==> r.Ok?
  {
    var configured := Configure(args, regionZones);
    if configured.Fail? {
      return Fail(configured.error);
    }
    var cfg := configured.value;
    var subnetSpecs := getSubnetSpecs(cfg);
    var overlaps := ValidateSubnets(subnetSpecs);
    if overlaps.Reject? {
      return Fail(overlaps.error);
    }
    var strategyCheck := ValidateNatGatewayStrategy(cfg.strategyName, subnetSpecs);
    if strategyCheck.Reject? {
      return Fail(strategyCheck.error);
    }
    var k := ParseStrategy(cfg.strategyName).value;
    if forall i :: 0 <= i < |cfg.azNames| && HostsGateway(k, i) ==> AnyOfType(InZone(subnetSpecs, cfg.azNames[i]), Public) {
      LayoutSucceeds(name, cfg.azNames, k, cfg.allocationIds, subnetSpecs, |cfg.azNames|);
    }
    r := LayOutZones(name, cfg.azNames, k, cfg.allocationIds, subnetSpecs);
  }
}
