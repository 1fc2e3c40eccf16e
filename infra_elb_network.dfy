// The experimental network load balancer of aws-infra
// (nodejs/aws-infra/experimental/elasticloadbalancingv2/network.ts): how a
// listener finds its target group, the checks it makes, and how listeners
// and target groups register with each other and with the load balancer.
module InfraElbNetwork {
  import opened Wrappers

  /** Listeners and target groups of this load balancer always speak TCP. */
  const Tcp: string := "TCP"

  const NoTargetGroupOrPort: string :=
    "One of [targetGroup] or [args.targetGroupArgs] or [args.port] must be provided when creating a NetworkListener."
  const ForeignTargetGroup: string := "Listener's [loadBalancer] was not the same as its [targetGroup]'s load balancer."

  /** Arguments of a new target group: the port it connects to. */
  datatype TargetGroupArgs = TargetGroupArgs(port: int)

  /** The listener's own arguments. `defaultAction` stands for a caller-supplied action. */
  datatype ListenerArgs = ListenerArgs(targetGroupArgs: Option<TargetGroupArgs>, port: Option<int>, defaultAction: Option<nat>)

  /** Where a listener's target group comes from. */
  datatype TargetGroupSource = GroupGiven | FromGroupArgs(args: TargetGroupArgs) | FromPort(port: int)

  /**
   * `getTargetGroup` after the constructor's check: the given group, else a
   * new one from `targetGroupArgs`, else a new one on the listener's port.
   */
  function TargetGroupSourceFor(groupGiven: bool, args: ListenerArgs): (r: Result<TargetGroupSource>)
    ensures r.Fail? <==> !groupGiven && args.targetGroupArgs.None? && args.port.None?
    ensures r.Fail? ==> r.error == NoTargetGroupOrPort
    ensures groupGiven ==> r == Ok(GroupGiven)
    ensures !groupGiven && args.targetGroupArgs.Some? ==> r == Ok(FromGroupArgs(args.targetGroupArgs.value))
    ensures !groupGiven && args.targetGroupArgs.None? && args.port.Some? ==> r == Ok(FromPort(args.port.value))
  {
    if !groupGiven && args.targetGroupArgs.None? && args.port.None? then Fail(NoTargetGroupOrPort)
    else if groupGiven then Ok(GroupGiven)
    else if args.targetGroupArgs.Some? then Ok(FromGroupArgs(args.targetGroupArgs.value))
    else Ok(FromPort(args.port.value))
  }

  /** The listener's port: its own, else its target group's. */
  function ListenerPort(args: ListenerArgs, groupPort: int): (r: int)
    ensures args.port.Some? ==> r == args.port.value
    ensures args.port.None? ==> r == groupPort
  {
    args.port.GetOr(groupPort)
  }

  /** A listener built without `targetGroupArgs` listens on the port its new target group connects to. */
  lemma PortOnlyListenerMatchesGroup(args: ListenerArgs)
    requires args.targetGroupArgs.None? && TargetGroupSourceFor(false, args).Ok?
    ensures var source := TargetGroupSourceFor(false, args).value;
      source.FromPort? && ListenerPort(args, source.port) == source.port
  {
  }

  /** The load balancer and what is registered with it. */
  class NetworkLoadBalancer {
    var listeners: seq<NetworkListener>
    var targetGroups: seq<NetworkTargetGroup>

    constructor()
      ensures listeners == [] && targetGroups == []
    {
      listeners := [];
      targetGroups := [];
    }

    /** `createTargetGroup`: a new TCP group registered with this balancer. */
    method CreateTargetGroup(name: string, args: TargetGroupArgs) returns (group: NetworkTargetGroup)
      modifies this
      ensures fresh(group) && group.loadBalancer == this && group.port == args.port && group.protocol == Tcp
      ensures targetGroups == old(targetGroups) + [group] && listeners == old(listeners)
    {
      group := new NetworkTargetGroup(name, this, args);
    }

    /** `createListener` on the balancer: no group is given, so one is created from the arguments. */
    method CreateBalancerListener(name: string, args: ListenerArgs) returns (r: Result<NetworkListener>)
      modifies this
      ensures r.Fail? <==> args.targetGroupArgs.None? && args.port.None?
      ensures r.Fail? ==> r.error == NoTargetGroupOrPort && listeners == old(listeners) && targetGroups == old(targetGroups)
      ensures r.Ok? ==> (
        fresh(r.value) && fresh(r.value.targetGroup) && r.value.loadBalancer == this
        && listeners == old(listeners) + [r.value]
        && targetGroups == old(targetGroups) + [r.value.targetGroup])
    {
      r := CreateListener(name, this, null, args);
    }
  }

  /** A target group: the balancer it belongs to, its port, and the listeners forwarding to it. */
  class NetworkTargetGroup {
    const name: string
    const loadBalancer: NetworkLoadBalancer
    const port: int
    const protocol: string
    var listeners: seq<NetworkListener>

    /** `NetworkTargetGroup`: TCP always; the group appends itself to its balancer's list. */
    constructor(name: string, loadBalancer: NetworkLoadBalancer, args: TargetGroupArgs)
      modifies loadBalancer
      ensures this.name == name && this.loadBalancer == loadBalancer && port == args.port && protocol == Tcp
      ensures listeners == []
      ensures loadBalancer.targetGroups == old(loadBalancer.targetGroups) + [this]
      ensures loadBalancer.listeners == old(loadBalancer.listeners)
    {
      this.name := name;
      this.loadBalancer := loadBalancer;
      port := args.port;
      protocol := Tcp;
      listeners := [];
      new;
      loadBalancer.targetGroups := loadBalancer.targetGroups + [this];
    }

    /** `createListener` on a target group: the group is this group's, so the balancer check always passes. */
    method CreateListenerForGroup(name: string, args: ListenerArgs) returns (listener: NetworkListener)
      modifies this, loadBalancer
      ensures fresh(listener) && listener.targetGroup == this && listener.loadBalancer == loadBalancer
      ensures listener.port == ListenerPort(args, port)
      ensures listeners == old(listeners) + [listener]
      ensures loadBalancer.listeners == old(loadBalancer.listeners) + [listener]
      ensures loadBalancer.targetGroups == old(loadBalancer.targetGroups)
    {
      var r := CreateListener(name, loadBalancer, this, args);
      listener := r.value;
    }
  }

  /** A listener's default action: the caller's, or a forward to its target group. */
  datatype DefaultAction = ForwardTo(targetGroup: NetworkTargetGroup) | GivenAction(code: nat)

  /** A listener: its balancer, its target group, its port and default action. */
  class NetworkListener {
    const name: string
    const loadBalancer: NetworkLoadBalancer
    const targetGroup: NetworkTargetGroup
    const port: int
    const protocol: string
    const defaultAction: DefaultAction

    constructor(name: string, loadBalancer: NetworkLoadBalancer, targetGroup: NetworkTargetGroup, args: ListenerArgs)
      ensures this.name == name && this.loadBalancer == loadBalancer && this.targetGroup == targetGroup
      ensures port == ListenerPort(args, targetGroup.port) && protocol == Tcp
      ensures defaultAction == if args.defaultAction.Some? then GivenAction(args.defaultAction.value) else ForwardTo(targetGroup)
    {
      this.name := name;
      this.loadBalancer := loadBalancer;
      this.targetGroup := targetGroup;
      port := ListenerPort(args, targetGroup.port);
      protocol := Tcp;
      defaultAction := if args.defaultAction.Some? then GivenAction(args.defaultAction.value) else ForwardTo(targetGroup);
    }
  }

  /**
   * The `NetworkListener` constructor: find or create the target group,
   * insist it belongs to the same balancer, then register the listener
   * with both.
   */
  method CreateListener(name: string, loadBalancer: NetworkLoadBalancer, group: NetworkTargetGroup?, args: ListenerArgs)
    returns (r: Result<NetworkListener>)
    modifies loadBalancer, group
    ensures r.Fail? <==> TargetGroupSourceFor(group != null, args).Fail? || (group != null && group.loadBalancer != loadBalancer)
    ensures r.Fail? && group == null ==> r.error == NoTargetGroupOrPort && unchanged(loadBalancer)
    ensures r.Fail? && group != null ==> r.error == ForeignTargetGroup && unchanged(loadBalancer, group)
    ensures r.Ok? ==> (
      var listener := r.value;
      fresh(listener) && listener.loadBalancer == loadBalancer && listener.protocol == Tcp
      && loadBalancer.listeners == old(loadBalancer.listeners) + [listener]
      && listener.port == ListenerPort(args, listener.targetGroup.port))
    ensures r.Ok? && group != null ==>
      r.value.targetGroup == group && group.listeners == old(group.listeners) + [r.value]
      && loadBalancer.targetGroups == old(loadBalancer.targetGroups)
    ensures r.Ok? && group == null ==> (
      fresh(r.value.targetGroup) && r.value.targetGroup.listeners == [r.value]
      && loadBalancer.targetGroups == old(loadBalancer.targetGroups) + [r.value.targetGroup]
      && r.value.targetGroup.port == (if args.targetGroupArgs.Some? then args.targetGroupArgs.value.port else args.port.value))
  {
    var source := TargetGroupSourceFor(group != null, args);
    if source.Fail? {
      return Fail(source.error);
    }
    var targetGroup: NetworkTargetGroup;
    if group != null {
      targetGroup := group;
    } else if source.value.FromGroupArgs? {
      targetGroup := new NetworkTargetGroup(name, loadBalancer, source.value.args);
    } else {
      targetGroup := new NetworkTargetGroup(name, loadBalancer, TargetGroupArgs(source.value.port));
    }
    if targetGroup.loadBalancer != loadBalancer {
      return Fail(ForeignTargetGroup);
    }
    var listener := new NetworkListener(name, loadBalancer, targetGroup, args);
    loadBalancer.listeners := loadBalancer.listeners + [listener];
    targetGroup.listeners := targetGroup.listeners + [listener];
    r := Ok(listener);
  }
}
