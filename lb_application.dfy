// The legacy application load balancer (awsx-legacy/lb/application.ts):
// port/protocol inference, the listener's argument check and default-action
// precedence, and the external security-group rules a listener opens.
module AppLoadBalancer {
  import opened Wrappers
  import opened Text

  // ---------------------------------------------------------------------
  // Port and protocol
  // ---------------------------------------------------------------------

  const PortOrProtocolMissing: string := "At least one of [port] or [protocol] must be provided."

  /** The error for a protocol no port can be inferred for (`JSON.stringify` quotes the string). */
  function PortError(protocol: string): string
  {
    "Could not automatically determine port for protocol \"" + protocol + "\". Please provide an explicit port."
  }

  /** The error for a port no protocol can be inferred for. */
  function ProtocolError(port: int): string
  {
    "Could not automatically determine protocol for port " + IntToString(port) + ". Please specify either \"HTTP\" or \"HTTPS\""
  }

  /** The port a protocol implies. */
  function InferPort(protocol: string): (r: Result<int>)
    ensures r.Ok? <==> protocol == "HTTP" || protocol == "HTTPS"
    ensures r.Ok? ==> r.value == (if protocol == "HTTP" then 80 else 443)
    ensures r.Fail? ==> r.error == PortError(protocol)
  {
    if protocol == "HTTP" then Ok(80)
    else if protocol == "HTTPS" then Ok(443)
    else Fail(PortError(protocol))
  }

  /** The well-known HTTP ports. */
  predicate HttpPort(port: int)
  {
    port == 80 || port == 8000 || port == 8008 || port == 8080
  }

  /** The well-known HTTPS ports. */
  predicate HttpsPort(port: int)
  {
    port == 443 || port == 8443
  }

  /** The protocol a port implies. */
  function InferProtocol(port: int): (r: Result<string>)
    ensures r == Ok("HTTP") <==> HttpPort(port)
    ensures r == Ok("HTTPS") <==> HttpsPort(port)
    ensures r.Fail? <==> !HttpPort(port) && !HttpsPort(port)
    ensures r.Fail? ==> r.error == ProtocolError(port)
  {
    if HttpPort(port) then Ok("HTTP")
    else if HttpsPort(port) then Ok("HTTPS")
    else Fail(ProtocolError(port))
  }

  /** Inferring the protocol back from an inferred port gives the protocol started from. */
  lemma InferRoundTrip(protocol: string)
    requires InferPort(protocol).Ok?
    ensures InferProtocol(InferPort(protocol).value) == Ok(protocol)
  {
  }

  /** A port and protocol, both known. */
  datatype PortInfo = PortInfo(port: int, protocol: string)

  /** `computePortInfo`: each missing half is inferred from the other. */
  function ComputePortInfo(port: Option<int>, protocol: Option<string>): (r: Result<PortInfo>)
    ensures port.None? && protocol.None? ==> r == Fail(PortOrProtocolMissing)
    ensures port.Some? && protocol.Some? ==> r == Ok(PortInfo(port.value, protocol.value))
    ensures port.Some? && r.Ok? ==> r.value.port == port.value
    ensures protocol.Some? && r.Ok? ==> r.value.protocol == protocol.value
    ensures port.None? && protocol.Some? ==> (r.Ok? <==> InferPort(protocol.value).Ok?)
    ensures port.Some? && protocol.None? ==> (r.Ok? <==> InferProtocol(port.value).Ok?)
  {
    if port.None? && protocol.None? then Fail(PortOrProtocolMissing)
    else if port.None? then
      match InferPort(protocol.value)
      case Fail(e) => Fail(e)
      case Ok(p) => Ok(PortInfo(p, protocol.value))
    else if protocol.None? then
      match InferProtocol(port.value)
      case Fail(e) => Fail(e)
      case Ok(p) => Ok(PortInfo(port.value, p))
    else Ok(PortInfo(port.value, protocol.value))
  }

  /** The inferred pair is consistent: each half infers the other's well-known value. */
  lemma {:induction false} InferredInfoConsistent(protocol: string)
    requires ComputePortInfo(None, Some(protocol)).Ok?
    ensures var info := ComputePortInfo(None, Some(protocol)).value;
      ComputePortInfo(Some(info.port), None) == Ok(info)
  {
    InferRoundTrip(protocol);
  }

  // ---------------------------------------------------------------------
  // Target groups and listeners
  // ---------------------------------------------------------------------

  /** A listener's default action; target groups are named by their resource name. */
  datatype Action = Forward(targetGroup: string) | OtherAction(code: nat)

  /** `defaultAction`: a target group (it forwards to itself), or a plain action. */
  datatype DefaultAction = TargetGroupDefault(targetGroup: string) | PlainAction(action: Action)

  /** Arguments of a new target group: `existing` stands for its own `targetGroup` field. */
  datatype TargetGroupArgs = TargetGroupArgs(existing: bool, port: Option<int>, protocol: Option<string>)

  /** `targetGroup` on a listener: an existing group, or arguments for a new one. */
  datatype TargetGroupArg = GivenTargetGroup(name: string) | NewTargetGroupArgs(args: TargetGroupArgs)

  /** A listener given in place of the port/protocol pair (`args.listener`). */
  datatype ExistingListener = ExistingListener(port: Option<int>, protocol: Option<string>)

  datatype ListenerArgs = ListenerArgs(
    defaultAction: Option<DefaultAction>,
    defaultActions: Option<seq<Action>>,
    targetGroup: Option<TargetGroupArg>,
    port: Option<int>,
    protocol: Option<string>,
    listener: Option<ExistingListener>,
    external: Option<bool>)

  /** A target group: its resource name and the port and protocol it was given. */
  datatype TargetGroup = TargetGroup(name: string, port: Option<int>, protocol: Option<string>)

  datatype RuleDirection = Ingress | Egress

  /** A rule opening the listener's TCP port to any IPv4 address on one load-balancer security group. */
  datatype SecurityGroupRule = SecurityGroupRule(name: string, securityGroup: string, direction: RuleDirection,
                                                 port: int, description: string)

  datatype Listener = Listener(
    name: string,
    port: int,
    protocol: string,
    defaultActions: seq<Action>,
    defaultTargetGroup: Option<string>,
    rules: seq<SecurityGroupRule>)

  /** `ApplicationTargetGroup`: an existing group behind it means no port or protocol. */
  function NewTargetGroup(name: string, args: TargetGroupArgs): (r: Result<TargetGroup>)
    ensures args.existing ==> r == Ok(TargetGroup(name, None, None))
    ensures !args.existing ==> (r.Ok? <==> ComputePortInfo(args.port, args.protocol).Ok?)
    ensures r.Ok? ==> r.value.name == name
    ensures r.Ok? && !args.existing ==>
      r.value.port == Some(ComputePortInfo(args.port, args.protocol).value.port)
      && r.value.protocol == Some(ComputePortInfo(args.port, args.protocol).value.protocol)
  {
    if args.existing then Ok(TargetGroup(name, None, None))
    else
      match ComputePortInfo(args.port, args.protocol)
      case Fail(e) => Fail(e)
      case Ok(info) => Ok(TargetGroup(name, Some(info.port), Some(info.protocol)))
  }

  const OnlyOneDefault: string := "Only provide one of [defaultAction], [defaultActions] or [targetGroup]."

  /** How many of the three mutually exclusive arguments are given. */
  function ArgCount(args: ListenerArgs): (r: nat)
    ensures r <= 3
    ensures r == 0 <==> args.defaultAction.None? && args.defaultActions.None? && args.targetGroup.None?
  {
    (if args.defaultAction.Some? then 1 else 0) + (if args.defaultActions.Some? then 1 else 0)
      + (if args.targetGroup.Some? then 1 else 0)
  }

  /** The default actions, the target group the listener defers to, and a target group it created. */
  datatype Defaults = Defaults(actions: seq<Action>, defaultTargetGroup: Option<string>, created: Option<TargetGroup>)

  /**
   * `getDefaultActions`: `defaultActions`, else `defaultAction`, else the
   * given target group, else a new one on the listener's port and protocol.
   */
  function DefaultActions(name: string, args: ListenerArgs, info: PortInfo): (r: Result<Defaults>)
    ensures args.defaultActions.Some? ==> r == Ok(Defaults(args.defaultActions.value, None, None))
    ensures r.Ok? && r.value.defaultTargetGroup.Some? ==> r.value.actions == [Forward(r.value.defaultTargetGroup.value)]
    ensures r.Ok? && r.value.created.Some? ==> r.value.defaultTargetGroup == Some(name) && r.value.created.value.name == name
    ensures args.defaultActions.None? && args.defaultAction.None? && args.targetGroup.None? ==>
      r == Ok(Defaults([Forward(name)], Some(name), Some(TargetGroup(name, Some(info.port), Some(info.protocol)))))
  {
    if args.defaultActions.Some? then Ok(Defaults(args.defaultActions.value, None, None))
    else if args.defaultAction.Some? then
      match args.defaultAction.value
      case TargetGroupDefault(group) => Ok(Defaults([Forward(group)], Some(group), None))
      case PlainAction(action) => Ok(Defaults([action], None, None))
    else if args.targetGroup.Some? && args.targetGroup.value.GivenTargetGroup? then
      var group := args.targetGroup.value.name;
      Ok(Defaults([Forward(group)], Some(group), None))
    else
      var groupArgs :=
        if args.targetGroup.Some? then args.targetGroup.value.args
        else TargetGroupArgs(false, Some(info.port), Some(info.protocol));
      match NewTargetGroup(name, groupArgs)
      case Fail(e) => Fail(e)
      case Ok(group) => Ok(Defaults([Forward(name)], Some(name), Some(group)))
  }

  /** The listener's name for the rule on security group `i`. */
  function RuleName(name: string, i: nat, direction: RuleDirection): string
  {
    name + "-external-" + NatToString(i) + (if direction.Ingress? then "-ingress" else "-egress")
  }

  /** The rules are opened unless a listener was given or the listener is not external. */
  predicate OpensRules(args: ListenerArgs)
  {
    args.listener.None? && args.external != Some(false)
  }

  /** The rules loop of the listener constructor: an ingress and an egress rule per security group. */
  method ExternalRules(name: string, securityGroups: seq<string>, port: int) returns (rules: seq<SecurityGroupRule>)
    ensures |rules| == 2 * |securityGroups|
    ensures forall i :: 0 <= i < |securityGroups| ==>
      rules[2 * i] == SecurityGroupRule(RuleName(name, i, Ingress), securityGroups[i], Ingress, port,
                                        "Externally available at port " + IntToString(port))
      && rules[2 * i + 1] == SecurityGroupRule(RuleName(name, i, Egress), securityGroups[i], Egress, port,
                                               "Externally available at port " + IntToString(port))
    ensures rules == RulePairs(name, securityGroups, port, "Externally available at port " + IntToString(port), |securityGroups|)
  {
    var description := "Externally available at port " + IntToString(port);
    rules := [];
    for i := 0 to |securityGroups|
      invariant rules == RulePairs(name, securityGroups, port, description, i)
    {
      rules := rules + [SecurityGroupRule(RuleName(name, i, Ingress), securityGroups[i], Ingress, port, description),
                        SecurityGroupRule(RuleName(name, i, Egress), securityGroups[i], Egress, port, description)];
    }
    RulePairsAt(name, securityGroups, port, description, |securityGroups|);
  }

  /** The ingress and egress rules of the first n security groups, group by group. */
  function RulePairs(name: string, securityGroups: seq<string>, port: int, description: string, n: nat): seq<SecurityGroupRule>
    requires n <= |securityGroups|
  {
    if n == 0 then []
    else
      var ingress := SecurityGroupRule(RuleName(name, n - 1, Ingress), securityGroups[n - 1], Ingress, port, description);
      var egress := SecurityGroupRule(RuleName(name, n - 1, Egress), securityGroups[n - 1], Egress, port, description);
      RulePairs(name, securityGroups, port, description, n - 1) + [ingress, egress]
  }

  lemma {:induction false} RulePairsAt(name: string, securityGroups: seq<string>, port: int, description: string, n: nat)
    requires n <= |securityGroups|
    ensures var rules := RulePairs(name, securityGroups, port, description, n);
      |rules| == 2 * n
      && forall i :: 0 <= i < n ==>
        rules[2 * i] == SecurityGroupRule(RuleName(name, i, Ingress), securityGroups[i], Ingress, port, description)
        && rules[2 * i + 1] == SecurityGroupRule(RuleName(name, i, Egress), securityGroups[i], Egress, port, description)
  {
    if n > 0 {
      RulePairsAt(name, securityGroups, port, description, n - 1);
      var before := RulePairs(name, securityGroups, port, description, n - 1);
      var rules := RulePairs(name, securityGroups, port, description, n);
      forall i | 0 <= i < n - 1
        ensures rules[2 * i] == before[2 * i] && rules[2 * i + 1] == before[2 * i + 1]
      {
      }
    }
  }

  /** `args.port || args.listener?.port`: a zero port counts as missing. */
  function ListenerPort(args: ListenerArgs): Option<int>
  {
    if args.port.Some? && args.port.value != 0 then args.port
    else if args.listener.Some? then args.listener.value.port
    else None
  }

  /** `args.protocol || args.listener?.protocol`: an empty protocol counts as missing. */
  function ListenerProtocol(args: ListenerArgs): Option<string>
  {
    if args.protocol.Some? && args.protocol.value != "" then args.protocol
    else if args.listener.Some? then args.listener.value.protocol
    else None
  }

  /**
   * The `ApplicationListener` constructor up to its rules: the argument
   * check, the port and protocol, then the default actions.
   */
  function ListenerSetup(name: string, args: ListenerArgs): (r: Result<(PortInfo, Defaults)>)
    ensures ArgCount(args) >= 2 ==> r == Fail(OnlyOneDefault)
    ensures r.Ok? ==> ArgCount(args) <= 1 && Ok(r.value.0) == ComputePortInfo(ListenerPort(args), ListenerProtocol(args))
    ensures r.Ok? ==> Ok(r.value.1) == DefaultActions(name, args, r.value.0)
  {
    if ArgCount(args) >= 2 then Fail(OnlyOneDefault)
    else
      match ComputePortInfo(ListenerPort(args), ListenerProtocol(args))
      case Fail(e) => Fail(e)
      case Ok(info) =>
        match DefaultActions(name, args, info)
        case Fail(e) => Fail(e)
        case Ok(defaults) => Ok((info, defaults))
  }

  /** A listener with no default arguments forwards to a group it creates on its own port and protocol. */
  lemma ListenerCreatesItsGroup(name: string, args: ListenerArgs)
    requires ArgCount(args) == 0 && ListenerSetup(name, args).Ok?
    ensures var (info, defaults) := ListenerSetup(name, args).value;
      defaults.created == Some(TargetGroup(name, Some(info.port), Some(info.protocol)))
      && defaults.actions == [Forward(name)]
  {
  }

  /**
   * An application load balancer: the security groups it was given or a
   * default one, and the listeners and target groups registered with it.
   */
  class ApplicationLoadBalancer {
    const name: string
    const securityGroups: seq<string>
    var listeners: seq<Listener>
    var targetGroups: seq<TargetGroup>

    /** A missing `securityGroups` gets one default group named after the balancer; an empty list is kept. */
    constructor(name: string, securityGroups: Option<seq<string>>)
      ensures this.name == name && listeners == [] && targetGroups == []
      ensures this.securityGroups == (if securityGroups.Some? then securityGroups.value else [name])
    {
      this.name := name;
      this.securityGroups := if securityGroups.Some? then securityGroups.value else [name];
      listeners := [];
      targetGroups := [];
    }

    /** `createTargetGroup`: the new group is appended to `targetGroups`. */
    method CreateTargetGroup(groupName: string, args: TargetGroupArgs) returns (r: Result<TargetGroup>)
      modifies this
      ensures r == NewTargetGroup(groupName, args)
      ensures r.Ok? ==> targetGroups == old(targetGroups) + [r.value]
      ensures r.Fail? ==> targetGroups == old(targetGroups)
      ensures listeners == old(listeners)
    {
      r := NewTargetGroup(groupName, args);
      if r.Ok? {
        targetGroups := targetGroups + [r.value];
      }
    }

    /**
     * `createListener`: a created default target group is registered
     * first, then the listener, whose rules open its port on every security
     * group when it is external and not wrapping an existing listener.
     */
    method CreateListener(listenerName: string, args: ListenerArgs) returns (r: Result<Listener>)
      modifies this
      ensures r.Ok? <==> ListenerSetup(listenerName, args).Ok?
      ensures r.Fail? ==> r.error == ListenerSetup(listenerName, args).error
      ensures r.Ok? ==> (
        var (info, defaults) := ListenerSetup(listenerName, args).value;
        r.value.port == info.port && r.value.protocol == info.protocol
        && r.value.defaultActions == defaults.actions && r.value.defaultTargetGroup == defaults.defaultTargetGroup
        && listeners == old(listeners) + [r.value]
        && targetGroups == old(targetGroups) + (if defaults.created.Some? then [defaults.created.value] else [])
        && (OpensRules(args) ==>
          r.value.rules == RulePairs(listenerName, securityGroups, info.port, "Externally available at port " + IntToString(info.port), |securityGroups|))
        && (!OpensRules(args) ==> r.value.rules == []))
      ensures r.Fail? ==> listeners == old(listeners) && targetGroups == old(targetGroups)
    {
      var setup := ListenerSetup(listenerName, args);
      if setup.Fail? {
        return Fail(setup.error);
      }
      var (info, defaults) := setup.value;
      if defaults.created.Some? {
        targetGroups := targetGroups + [defaults.created.value];
      }
      var rules: seq<SecurityGroupRule> := [];
      if OpensRules(args) {
        rules := ExternalRules(listenerName, securityGroups, info.port);
      }
      var listener := Listener(listenerName, info.port, info.protocol, defaults.actions, defaults.defaultTargetGroup, rules);
      listeners := listeners + [listener];
      r := Ok(listener);
    }
  }
}
