// The security-group rules of the awsx EC2 package
// (nodejs/awsx/ec2/securityGroupRule.ts): the ready-made locations and port
// ranges, the argument record a location and a port range make, and the
// egress and ingress rules that register themselves with their group.
module SecurityGroupRules {
  import opened Wrappers

  /** Where a rule lets traffic come from or go to. */
  datatype Location = Location(
    cidrBlocks: Option<seq<string>>, ipv6CidrBlocks: Option<seq<string>>, sourceSecurityGroupId: Option<string>)

  /** A protocol and a port range; the end port may be left out. */
  datatype Ports = Ports(protocol: string, fromPort: int, toPort: Option<int>)

  /** `AnyIPv4Location`: the whole IPv4 space. */
  const AnyIPv4Location: Location := Location(Some(["0.0.0.0/0"]), None, None)

  /** `AnyIPv6Location`: the whole IPv6 space. */
  const AnyIPv6Location: Location := Location(None, Some(["::/0"]), None)

  const MaxPort: int := 65535

  /** `TcpPorts`, `UdpPorts`, `IcmpPorts`: one protocol, the range as given. */
  function TcpPorts(fromPort: int, toPort: Option<int>): Ports { Ports("tcp", fromPort, toPort) }
  function UdpPorts(fromPort: int, toPort: Option<int>): Ports { Ports("udp", fromPort, toPort) }
  function IcmpPorts(fromPort: int, toPort: Option<int>): Ports { Ports("icmp", fromPort, toPort) }

  /** `AllTcpPorts`, `AllUdpPorts`: every port of the protocol. */
  const AllTcpPorts: Ports := TcpPorts(0, Some(MaxPort))
  const AllUdpPorts: Ports := UdpPorts(0, Some(MaxPort))

  /** `AllTraffic`: protocol "-1", which AWS reads as every protocol, with ports 0 to 0. */
  const AllTraffic: Ports := Ports("-1", 0, Some(0))

  /** The arguments of an `aws.ec2.SecurityGroupRule` apart from its type and group. */
  datatype RuleArgs = RuleArgs(
    cidrBlocks: Option<seq<string>>, ipv6CidrBlocks: Option<seq<string>>, sourceSecurityGroupId: Option<string>,
    prefixListIds: Option<seq<string>>, self: Option<bool>,
    protocol: string, fromPort: int, toPort: int, description: Option<string>)

  /** The ports a rule's range lets through. */
  predicate Admits(args: RuleArgs, port: int)
  {
    args.fromPort <= port <= args.toPort
  }

  /**
   * `createArgs`: the location's fields and the port fields, with the end
   * port defaulting to the start port, and the description.
   */
  function CreateArgs(location: Location, ports: Ports, description: Option<string>): (r: RuleArgs)
    ensures Location(r.cidrBlocks, r.ipv6CidrBlocks, r.sourceSecurityGroupId) == location
    ensures r.protocol == ports.protocol && r.fromPort == ports.fromPort
    ensures ports.toPort.Some? ==> r.toPort == ports.toPort.value
    ensures ports.toPort.None? ==> r.toPort == ports.fromPort
    ensures r.prefixListIds.None? && r.self.None? && r.description == description
  {
    RuleArgs(location.cidrBlocks, location.ipv6CidrBlocks, location.sourceSecurityGroupId, None, None,
             ports.protocol, ports.fromPort, ports.toPort.GetOr(ports.fromPort), description)
  }

  /** `egressArgs` and `ingressArgs` both are `createArgs`. */
  function EgressArgs(destination: Location, ports: Ports, description: Option<string>): RuleArgs
  {
    CreateArgs(destination, ports, description)
  }

  function IngressArgs(source: Location, ports: Ports, description: Option<string>): RuleArgs
  {
    CreateArgs(source, ports, description)
  }

  /** A port range without an end port admits its start port and nothing else. */
  lemma SinglePortRange(location: Location, protocol: string, port: int, description: Option<string>, other: int)
    ensures Admits(CreateArgs(location, Ports(protocol, port, None), description), other) <==> other == port
  {
  }

  /** The all-TCP and all-UDP ranges admit exactly the ports 0 to 65535. */
  lemma AllPortsRange(location: Location, description: Option<string>, port: int)
    ensures Admits(CreateArgs(location, AllTcpPorts, description), port) <==> 0 <= port <= 65535
    ensures Admits(CreateArgs(location, AllUdpPorts, description), port) <==> 0 <= port <= 65535
    ensures CreateArgs(location, AllTcpPorts, description).protocol == "tcp"
    ensures CreateArgs(location, AllUdpPorts, description).protocol == "udp"
  {
  }

  /** All traffic is protocol "-1" on ports 0 to 0, to or from any IPv4 address when so located. */
  lemma AllTrafficAnywhere(description: Option<string>)
    ensures var r := CreateArgs(AnyIPv4Location, AllTraffic, description);
      r.protocol == "-1" && r.fromPort == 0 && r.toPort == 0 && r.cidrBlocks == Some(["0.0.0.0/0"])
    ensures CreateArgs(AnyIPv6Location, AllTraffic, description).ipv6CidrBlocks == Some(["::/0"])
    ensures CreateArgs(AnyIPv6Location, AllTraffic, description).cidrBlocks.None?
  {
  }

  /** What a rule constructor accepts: the simple location-and-ports form, or the rule arguments. */
  datatype RuleInput =
    | SimpleArgs(location: Location, ports: Ports, description: Option<string>)
    | DirectArgs(args: RuleArgs)

  /** `isSimpleSecurityGroupRuleArgs`: the input has both a location and ports. */
  predicate IsSimpleSecurityGroupRuleArgs(input: RuleInput)
  {
    input.SimpleArgs?
  }

  /** The arguments a rule is made with: simple inputs go through `createArgs`, others are taken as they are. */
  function ResolvedArgs(input: RuleInput): (r: RuleArgs)
    ensures IsSimpleSecurityGroupRuleArgs(input) ==> r == CreateArgs(input.location, input.ports, input.description)
    ensures !IsSimpleSecurityGroupRuleArgs(input) ==> r == input.args
  {
    if IsSimpleSecurityGroupRuleArgs(input) then CreateArgs(input.location, input.ports, input.description)
    else input.args
  }

  /** The `aws.ec2.SecurityGroupRule` a rule creates. */
  datatype RuleResource = RuleResource(name: string, args: RuleArgs, ruleType: string, securityGroupId: string)

  /** The part of an awsx `SecurityGroup` its rules update: the rules registered with it. */
  class SecurityGroup {
    const id: string
    var egressRules: seq<SecurityGroupRule>
    var ingressRules: seq<SecurityGroupRule>

    constructor(id: string)
      ensures this.id == id && egressRules == [] && ingressRules == []
    {
      this.id := id;
      egressRules := [];
      ingressRules := [];
    }
  }

  /** An egress or ingress rule of a security group. */
  class SecurityGroupRule {
    const componentType: string
    const securityGroup: SecurityGroup
    const securityGroupRule: RuleResource

    /**
     * `EgressSecurityGroupRule`: an egress rule on the group's id, appended
     * to the group's egress rules; its ingress rules stay as they were.
     */
    constructor Egress(name: string, securityGroup: SecurityGroup, input: RuleInput)
      modifies securityGroup
      ensures this.componentType == "awsx:x:ec2:EgressSecurityGroupRule" && this.securityGroup == securityGroup
      ensures securityGroupRule == RuleResource(name, ResolvedArgs(input), "egress", securityGroup.id)
      ensures securityGroup.egressRules == old(securityGroup.egressRules) + [this]
      ensures securityGroup.ingressRules == old(securityGroup.ingressRules)
    {
      componentType := "awsx:x:ec2:EgressSecurityGroupRule";
      this.securityGroup := securityGroup;
      securityGroupRule := RuleResource(name, ResolvedArgs(input), "egress", securityGroup.id);
      new;
      securityGroup.egressRules := securityGroup.egressRules + [this];
    }

    /**
     * `IngressSecurityGroupRule`: an ingress rule on the group's id, appended
     * to the group's ingress rules; its egress rules stay as they were.
     */
    constructor Ingress(name: string, securityGroup: SecurityGroup, input: RuleInput)
      modifies securityGroup
      ensures this.componentType == "awsx:x:ec2:IngressSecurityGroupRule" && this.securityGroup == securityGroup
      ensures securityGroupRule == RuleResource(name, ResolvedArgs(input), "ingress", securityGroup.id)
      ensures securityGroup.ingressRules == old(securityGroup.ingressRules) + [this]
      ensures securityGroup.egressRules == old(securityGroup.egressRules)
    {
      componentType := "awsx:x:ec2:IngressSecurityGroupRule";
      this.securityGroup := securityGroup;
      securityGroupRule := RuleResource(name, ResolvedArgs(input), "ingress", securityGroup.id);
      new;
      securityGroup.ingressRules := securityGroup.ingressRules + [this];
    }
  }

  /** The simple form of a rule gives the rule the same arguments as `egressArgs`/`ingressArgs` would. */
  lemma SimpleMatchesDirect(location: Location, ports: Ports, description: Option<string>)
    ensures ResolvedArgs(SimpleArgs(location, ports, description)) == ResolvedArgs(DirectArgs(EgressArgs(location, ports, description)))
    ensures ResolvedArgs(SimpleArgs(location, ports, description)) == ResolvedArgs(DirectArgs(IngressArgs(location, ports, description)))
  {
  }

  /** `SecurityGroupRule.egress`: an egress rule made from a destination and ports. */
  method Egress(name: string, securityGroup: SecurityGroup, destination: Location, ports: Ports, description: Option<string>)
    returns (rule: SecurityGroupRule)
    modifies securityGroup
    ensures securityGroup.egressRules == old(securityGroup.egressRules) + [rule]
    ensures securityGroup.ingressRules == old(securityGroup.ingressRules)
    ensures rule.securityGroupRule == RuleResource(name, EgressArgs(destination, ports, description), "egress", securityGroup.id)
  {
    rule := new SecurityGroupRule.Egress(name, securityGroup, DirectArgs(EgressArgs(destination, ports, description)));
  }

  /** `SecurityGroupRule.ingress`: an ingress rule made from a source and ports. */
  method Ingress(name: string, securityGroup: SecurityGroup, source: Location, ports: Ports, description: Option<string>)
    returns (rule: SecurityGroupRule)
    modifies securityGroup
    ensures securityGroup.ingressRules == old(securityGroup.ingressRules) + [rule]
    ensures securityGroup.egressRules == old(securityGroup.egressRules)
    ensures rule.securityGroupRule == RuleResource(name, IngressArgs(source, ports, description), "ingress", securityGroup.id)
  {
    rule := new SecurityGroupRule.Ingress(name, securityGroup, DirectArgs(IngressArgs(source, ports, description)));
  }
}
