// The network load balancer (nodejs/awsx/lb/network.ts): the listener's
// argument check, default-action precedence, TCP defaults, the registration
// of listeners and target groups, and the API Gateway target a listener
// offers.
module NetLoadBalancer {
  import opened Wrappers
  import opened Text
  import AL = AppLoadBalancer
  import ApiGateway

  /** Arguments of a new target group. */
  datatype TargetGroupArgs = TargetGroupArgs(name: Option<string>, port: Option<int>, protocol: Option<string>)

  /** `targetGroup` on a listener: an existing group, or arguments for a new one. */
  datatype TargetGroupArg = GivenTargetGroup(resourceName: string) | NewTargetGroupArgs(args: TargetGroupArgs)

  datatype ListenerArgs = ListenerArgs(
    name: Option<string>,
    defaultAction: Option<AL.DefaultAction>,
    defaultActions: Option<seq<AL.Action>>,
    targetGroup: Option<TargetGroupArg>,
    port: Option<int>,
    protocol: Option<string>)

  /** A target group: resource name, AWS name, port and protocol. */
  datatype TargetGroup = TargetGroup(resourceName: string, name: Option<string>, port: Option<int>, protocol: string)

  datatype Listener = Listener(
    resourceName: string,
    port: Option<int>,
    protocol: string,
    defaultActions: seq<AL.Action>,
    defaultTargetGroup: Option<string>)

  /** The protocol when none is given. */
  const DefaultProtocol: string := "TCP"

  /** `NetworkTargetGroup`: the protocol defaults to TCP. */
  function NewTargetGroup(resourceName: string, args: TargetGroupArgs): (r: TargetGroup)
    ensures r.resourceName == resourceName && r.name == args.name && r.port == args.port
    ensures args.protocol.None? ==> r.protocol == DefaultProtocol
    ensures args.protocol.Some? ==> r.protocol == args.protocol.value
  {
    TargetGroup(resourceName, args.name, args.port, args.protocol.GetOr(DefaultProtocol))
  }

  function ArgCount(args: ListenerArgs): (r: nat)
    ensures r <= 3
    ensures r == 0 <==> args.defaultAction.None? && args.defaultActions.None? && args.targetGroup.None?
  {
    (if args.defaultAction.Some? then 1 else 0) + (if args.defaultActions.Some? then 1 else 0)
      + (if args.targetGroup.Some? then 1 else 0)
  }

  /** The default actions, the group the listener defers to, and a group it created. */
  datatype Defaults = Defaults(actions: seq<AL.Action>, defaultTargetGroup: Option<string>, created: Option<TargetGroup>)

  /** `name || fallback`: an empty name counts as missing. */
  function NameOr(name: Option<string>, fallback: Option<string>): Option<string>
  {
    if name.Some? && name.value != "" then name else fallback
  }

  /**
   * `getDefaultActions`: `defaultActions`, else `defaultAction`, else the
   * given target group, else a new one (named from its own arguments or
   * the listener's name, on the listener's port).
   */
  function DefaultActions(resourceName: string, args: ListenerArgs): (r: Defaults)
    ensures args.defaultActions.Some? ==> r == Defaults(args.defaultActions.value, None, None)
    ensures r.defaultTargetGroup.Some? ==> r.actions == [AL.Forward(r.defaultTargetGroup.value)]
    ensures r.created.Some? ==> r.defaultTargetGroup == Some(resourceName) && r.created.value.resourceName == resourceName
    ensures (args.defaultActions.None? && args.defaultAction.None? && args.targetGroup.Some?
      && args.targetGroup.value.NewTargetGroupArgs?) ==>
      r.created.Some? && r.created.value.name == NameOr(args.targetGroup.value.args.name, args.name)
    ensures args.defaultActions.None? && args.defaultAction.None? && args.targetGroup.None? ==>
      r.created == Some(TargetGroup(resourceName, args.name, args.port, DefaultProtocol))
  {
    if args.defaultActions.Some? then Defaults(args.defaultActions.value, None, None)
    else if args.defaultAction.Some? then
      match args.defaultAction.value
      case TargetGroupDefault(group) => Defaults([AL.Forward(group)], Some(group), None)
      case PlainAction(action) => Defaults([action], None, None)
    else if args.targetGroup.Some? && args.targetGroup.value.GivenTargetGroup? then
      var group := args.targetGroup.value.resourceName;
      Defaults([AL.Forward(group)], Some(group), None)
    else
      var groupArgs :=
        if args.targetGroup.Some? then
          var given := args.targetGroup.value.args;
          given.(name := NameOr(given.name, args.name))
        else TargetGroupArgs(args.name, args.port, None);
      Defaults([AL.Forward(resourceName)], Some(resourceName), Some(NewTargetGroup(resourceName, groupArgs)))
  }

  /** The `NetworkListener` constructor: the argument check, then defaults and the TCP protocol. */
  function NewListener(resourceName: string, args: ListenerArgs): (r: Result<(Listener, Defaults)>)
    ensures ArgCount(args) >= 2 <==> r.Fail?
    ensures r.Fail? ==> r.error == AL.OnlyOneDefault
    ensures r.Ok? ==> (r.value.1 == DefaultActions(resourceName, args)
      && r.value.0 == Listener(resourceName, args.port, args.protocol.GetOr(DefaultProtocol),
                               r.value.1.actions, r.value.1.defaultTargetGroup))
  {
    if ArgCount(args) >= 2 then Fail(AL.OnlyOneDefault)
    else
      var defaults := DefaultActions(resourceName, args);
      Ok((Listener(resourceName, args.port, args.protocol.GetOr(DefaultProtocol), defaults.actions,
                   defaults.defaultTargetGroup), defaults))
  }

  /** A listener's public endpoint. */
  datatype Endpoint = Endpoint(hostname: string, port: int)

  /** `target()`: API Gateway reaches the listener through a VPC link. */
  function Target(endpoint: Endpoint, vpcLinkId: string): (r: ApiGateway.IntegrationTarget)
    ensures r.uri == "http://" + endpoint.hostname + ":" + IntToString(endpoint.port) + "/"
    ensures r.targetType == Some("http_proxy") && r.connectionType == Some("VPC_LINK")
    ensures r.connectionId == Some(vpcLinkId) && r.passthroughBehavior.None?
  {
    ApiGateway.IntegrationTarget(Some("http_proxy"), "http://" + endpoint.hostname + ":" + IntToString(endpoint.port) + "/",
      Some("VPC_LINK"), Some(vpcLinkId), None)
  }

  /**
   * An integration route to a listener forwards `p/` to the listener's URI
   * unchanged and `p/{proxy+}` to that URI followed by "{proxy}".
   */
  lemma TargetUrisThroughRoute(endpoint: Endpoint, vpcLinkId: string)
    ensures var target := Target(endpoint, vpcLinkId);
      ApiGateway.ProxyOperation(target, false).integration.uri == target.uri
      && ApiGateway.ProxyOperation(target, true).integration.uri == target.uri + "{proxy}"
  {
    var target := Target(endpoint, vpcLinkId);
    assert EndsWith(target.uri, "/");
  }

  /** A network load balancer and the listeners and target groups registered with it. */
  class NetworkLoadBalancer {
    const name: string
    var listeners: seq<Listener>
    var targetGroups: seq<TargetGroup>

    constructor(name: string)
      ensures this.name == name && listeners == [] && targetGroups == []
    {
      this.name := name;
      listeners := [];
      targetGroups := [];
    }

    /** `createTargetGroup`: the group is appended to `targetGroups`. */
    method CreateTargetGroup(resourceName: string, args: TargetGroupArgs) returns (group: TargetGroup)
      modifies this
      ensures group == NewTargetGroup(resourceName, args)
      ensures targetGroups == old(targetGroups) + [group] && listeners == old(listeners)
    {
      group := NewTargetGroup(resourceName, args);
      targetGroups := targetGroups + [group];
    }

    /** `createListener`: a created default group is registered, then the listener. */
    method CreateListener(resourceName: string, args: ListenerArgs) returns (r: Result<Listener>)
      modifies this
      ensures r.Ok? <==> ArgCount(args) <= 1
      ensures r.Fail? ==> r.error == AL.OnlyOneDefault && listeners == old(listeners) && targetGroups == old(targetGroups)
      ensures r.Ok? ==> (
        var defaults := DefaultActions(resourceName, args);
        r.value == NewListener(resourceName, args).value.0
        && listeners == old(listeners) + [r.value]
        && targetGroups == old(targetGroups) + (if defaults.created.Some? then [defaults.created.value] else []))
    {
      if ArgCount(args) >= 2 {
        return Fail(AL.OnlyOneDefault);
      }
      var defaults := DefaultActions(resourceName, args);
      if defaults.created.Some? {
        targetGroups := targetGroups + [defaults.created.value];
      }
      var listener := Listener(resourceName, args.port, args.protocol.GetOr(DefaultProtocol), defaults.actions,
                               defaults.defaultTargetGroup);
      listeners := listeners + [listener];
      r := Ok(listener);
    }
  }
}
