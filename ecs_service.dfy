// The ECS service of nodejs/awsx/ecs/service.ts: which load balancers a
// service is attached to (the caller's, then one per container from its
// port-mapping providers or its listener), and the service's defaults.
// Providers are identified by name; what a provider answers is a function
// parameter.
module EcsService {
  import opened Wrappers
  import opened EcsTypes
  import C = InfraContainerDefinition

  /** A load balancer of an `aws.ecs.Service`. */
  datatype ServiceLoadBalancer = ServiceLoadBalancer(
    containerName: string, containerPort: int, elbName: Option<string>, targetGroupArn: Option<string>)

  /** What a container load-balancer provider answers; it does not know the container's name. */
  datatype ContainerLoadBalancer = ContainerLoadBalancer(containerPort: int, elbName: Option<string>, targetGroupArn: Option<string>)

  /** An entry of `args.loadBalancers`: a load balancer, or a provider of one. */
  datatype LoadBalancerArg = Given(loadBalancer: ServiceLoadBalancer) | FromProvider(provider: string)

  /** An entry of a container's `portMappings`: a plain mapping, or a container load-balancer provider. */
  datatype PortMappingArg = Mapping(mapping: PortMapping) | MappingProvider(provider: string)

  /** A container's name and its `portMappings`, if any. */
  type ContainerMappings = (string, Option<seq<PortMappingArg>>)

  /** No two entries share a name, as for the keys of a record. */
  predicate UniqueNames<T>(entries: seq<(string, T)>)
  {
    forall i, j :: 0 <= i < j < |entries| ==> entries[i].0 != entries[j].0
  }

  /** A load balancer argument as the service uses it: a provider is asked for its load balancer. */
  function Resolve(arg: LoadBalancerArg, serve: string -> ServiceLoadBalancer): ServiceLoadBalancer
  {
    if arg.Given? then arg.loadBalancer else serve(arg.provider)
  }

  /** The caller's load balancers, in order. */
  function ExplicitLoadBalancers(args: seq<LoadBalancerArg>, serve: string -> ServiceLoadBalancer): (r: seq<ServiceLoadBalancer>)
    ensures |r| == |args|
    ensures forall i :: 0 <= i < |args| ==> r[i] == Resolve(args[i], serve)
  {
    if |args| == 0 then []
    else ExplicitLoadBalancers(args[..|args| - 1], serve) + [Resolve(args[|args| - 1], serve)]
  }

  /** `{ ...lb, containerName }`: the provider's answer, labelled with the container. */
  function Named(containerName: string, lb: ContainerLoadBalancer): ServiceLoadBalancer
  {
    ServiceLoadBalancer(containerName, lb.containerPort, lb.elbName, lb.targetGroupArn)
  }

  /** The names of a record, in order. */
  function Names(record: C.EnvRecord): (r: seq<string>)
    ensures |r| == |record|
    ensures forall i :: 0 <= i < |record| ==> r[i] == record[i].name
  {
    seq(|record|, i requires 0 <= i < |record| => record[i].name)
  }

  lemma {:induction false} LookupFindsNames(record: C.EnvRecord, name: string)
    ensures C.Lookup(record, name).Some? <==> name in Names(record)
  {
    if |record| > 0 {
      LookupFindsNames(record[1..], name);
      assert Names(record) == [record[0].name] + Names(record[1..]);
    }
  }

  /** The names of an entry followed by a record. */
  lemma NamesCons(head: KeyValuePair, tail: C.EnvRecord)
    ensures Names([head] + tail) == [head.name] + Names(tail)
  {
    var r := [head] + tail;
    assert forall i :: 1 <= i < |r| ==> r[i] == tail[i - 1];
  }

  /** Setting a name keeps the record's names, adding the new one last. */
  lemma {:induction false} AssignNames(record: C.EnvRecord, name: string, value: string)
    ensures Names(C.Assign(record, name, value)) ==
      (if C.Lookup(record, name).Some? then Names(record) else Names(record) + [name])
  {
    if |record| > 0 {
      var tail := record[1..];
      var head := record[0].name;
      assert Names(record) == [head] + Names(tail) by {
        assert record == [record[0]] + tail;
        NamesCons(record[0], tail);
      }
      if head != name {
        var rest := C.Assign(tail, name, value);
        assert Names(C.Assign(record, name, value)) == [head] + Names(rest) by {
          assert C.Assign(record, name, value) == [record[0]] + rest;
          NamesCons(record[0], rest);
        }
        assert C.Lookup(record, name) == C.Lookup(tail, name);
        AssignNames(tail, name, value);
        if C.Lookup(tail, name).None? {
          assert [head] + (Names(tail) + [name]) == ([head] + Names(tail)) + [name];
        }
      } else {
        assert Names(C.Assign(record, name, value)) == [name] + Names(tail) by {
          assert C.Assign(record, name, value) == [KeyValuePair(name, value)] + tail;
          NamesCons(KeyValuePair(name, value), tail);
        }
      }
    }
  }

  predicate Distinct(names: seq<string>)
  {
    forall i, j :: 0 <= i < j < |names| ==> names[i] != names[j]
  }

  /** Setting a name in a record without repeated names leaves none repeated. */
  lemma AssignKeepsDistinct(record: C.EnvRecord, name: string, value: string)
    requires Distinct(Names(record))
    ensures Distinct(Names(C.Assign(record, name, value)))
  {
    AssignNames(record, name, value);
    LookupFindsNames(record, name);
  }

  /** The last provider among a container's port mappings, if any. */
  function LastProvider(mappings: seq<PortMappingArg>): (r: Option<string>)
    ensures r.Some? <==> exists i :: 0 <= i < |mappings| && mappings[i].MappingProvider?
  {
    if |mappings| == 0 then None
    else if mappings[|mappings| - 1].MappingProvider? then Some(mappings[|mappings| - 1].provider)
    else
      var before := LastProvider(mappings[..|mappings| - 1]);
      assert forall i :: 0 <= i < |mappings| - 1 ==> mappings[..|mappings| - 1][i] == mappings[i];
      before
  }

  /** `containerLoadBalancerProviders.set(containerName, obj)` for each provider of one container. */
  function AddProviders(providers: C.EnvRecord, name: string, mappings: seq<PortMappingArg>): C.EnvRecord
  {
    if |mappings| == 0 then providers
    else
      var before := AddProviders(providers, name, mappings[..|mappings| - 1]);
      var last := mappings[|mappings| - 1];
      if last.MappingProvider? then C.Assign(before, name, last.provider) else before
  }

  /** The container's last provider wins; other containers are untouched. */
  lemma {:induction false} AddProvidersLookup(providers: C.EnvRecord, name: string, mappings: seq<PortMappingArg>, other: string)
    ensures C.Lookup(AddProviders(providers, name, mappings), other) ==
      (if other == name && LastProvider(mappings).Some? then LastProvider(mappings) else C.Lookup(providers, other))
    ensures Distinct(Names(providers)) ==> Distinct(Names(AddProviders(providers, name, mappings)))
  {
    if |mappings| > 0 {
      var prefix := mappings[..|mappings| - 1];
      AddProvidersLookup(providers, name, prefix, other);
      var last := mappings[|mappings| - 1];
      if last.MappingProvider? && Distinct(Names(providers)) {
        AssignKeepsDistinct(AddProviders(providers, name, prefix), name, last.provider);
      }
    }
  }

  /** The provider map after the walk over the containers' port mappings. */
  function ContainerProviders(containers: seq<ContainerMappings>): C.EnvRecord
  {
    if |containers| == 0 then []
    else
      var last := containers[|containers| - 1];
      AddProviders(ContainerProviders(containers[..|containers| - 1]), last.0, last.1.GetOr([]))
  }

  /**
   * Each container maps to its last port-mapping provider (a later one
   * overwrites an earlier), a name that is no container maps to nothing,
   * and no container appears twice.
   */
  lemma {:induction false} ContainerProvidersLookup(containers: seq<ContainerMappings>, name: string)
    requires UniqueNames(containers)
    ensures (forall i :: 0 <= i < |containers| ==> containers[i].0 != name) ==> C.Lookup(ContainerProviders(containers), name).None?
    ensures forall i :: 0 <= i < |containers| && containers[i].0 == name ==>
      C.Lookup(ContainerProviders(containers), name) == LastProvider(containers[i].1.GetOr([]))
    ensures Distinct(Names(ContainerProviders(containers)))
  {
    if |containers| > 0 {
      var prefix := containers[..|containers| - 1];
      var last := containers[|containers| - 1];
      ContainerProvidersLookup(prefix, name);
      AddProvidersLookup(ContainerProviders(prefix), last.0, last.1.GetOr([]), name);
      assert forall i :: 0 <= i < |prefix| ==> prefix[i] == containers[i];
    }
  }

  /** The listener registered for a container, if any. */
  function ListenerFor(listeners: seq<(string, string)>, name: string): (r: Option<string>)
    ensures r.None? <==> forall i :: 0 <= i < |listeners| ==> listeners[i].0 != name
    ensures r.Some? ==> exists i :: 0 <= i < |listeners| && listeners[i] == (name, r.value)
  {
    if |listeners| == 0 then None
    else if listeners[0].0 == name then Some(listeners[0].1)
    else
      var rest := ListenerFor(listeners[1..], name);
      assert forall i :: 1 <= i < |listeners| ==> listeners[i] == listeners[1..][i - 1];
      rest
  }

  /** The provider map after the service's listeners fill in the containers that have no provider. */
  function WithListeners(providers: C.EnvRecord, listeners: seq<(string, string)>): C.EnvRecord
  {
    if |listeners| == 0 then providers
    else
      var before := WithListeners(providers, listeners[..|listeners| - 1]);
      var last := listeners[|listeners| - 1];
      if C.Lookup(before, last.0).None? then C.Assign(before, last.0, last.1) else before
  }

  /** A listener never replaces a provider; it only fills in a container that has none. */
  lemma {:induction false} WithListenersLookup(providers: C.EnvRecord, listeners: seq<(string, string)>, name: string)
    requires UniqueNames(listeners)
    ensures C.Lookup(WithListeners(providers, listeners), name) ==
      (if C.Lookup(providers, name).Some? then C.Lookup(providers, name) else ListenerFor(listeners, name))
    ensures Distinct(Names(providers)) ==> Distinct(Names(WithListeners(providers, listeners)))
  {
    if |listeners| > 0 {
      var prefix := listeners[..|listeners| - 1];
      var last := listeners[|listeners| - 1];
      WithListenersLookup(providers, prefix, name);
      WithListenersLookup(providers, prefix, last.0);
      var before := WithListeners(providers, prefix);
      if C.Lookup(before, last.0).None? && Distinct(Names(providers)) {
        AssignKeepsDistinct(before, last.0, last.1);
      }
      ListenerForPrefix(listeners, name);
    }
  }

  /** The listener of a name is found in the prefix unless the name is the last one's. */
  lemma ListenerForPrefix(listeners: seq<(string, string)>, name: string)
    requires |listeners| > 0 && UniqueNames(listeners)
    ensures ListenerFor(listeners, name) ==
      (if listeners[|listeners| - 1].0 == name then Some(listeners[|listeners| - 1].1)
       else ListenerFor(listeners[..|listeners| - 1], name))
  {
    var prefix := listeners[..|listeners| - 1];
    var n := |listeners| - 1;
    if listeners[n].0 == name {
      assert forall i :: 0 <= i < |prefix| ==> prefix[i].0 != name;
      var found := ListenerFor(listeners, name);
      var i :| 0 <= i < |listeners| && listeners[i] == (name, found.value);
      assert i == n;
    } else {
      assert forall i :: 0 <= i < |prefix| ==> prefix[i] == listeners[i];
      var found := ListenerFor(listeners, name);
      if found.Some? {
        var i :| 0 <= i < |listeners| && listeners[i] == (name, found.value);
        var other := ListenerFor(prefix, name);
        var k :| 0 <= k < |prefix| && prefix[k] == (name, other.value);
        assert i == k;
      }
    }
  }

  /** One load balancer per provider-map entry, asking the provider and labelling it with the container. */
  function ProviderLoadBalancers(providers: C.EnvRecord, provide: string -> ContainerLoadBalancer): (r: seq<ServiceLoadBalancer>)
    ensures |r| == |providers|
    ensures forall i :: 0 <= i < |providers| ==> r[i] == Named(providers[i].name, provide(providers[i].value))
  {
    if |providers| == 0 then []
    else
      var last := providers[|providers| - 1];
      ProviderLoadBalancers(providers[..|providers| - 1], provide) + [Named(last.name, provide(last.value))]
  }

  /** `getLoadBalancers`, as a value: the caller's load balancers, then one per container with a provider. */
  function LoadBalancers(args: seq<LoadBalancerArg>, containers: seq<ContainerMappings>, listeners: seq<(string, string)>,
                         serve: string -> ServiceLoadBalancer, provide: string -> ContainerLoadBalancer): seq<ServiceLoadBalancer>
  {
    ExplicitLoadBalancers(args, serve) + ProviderLoadBalancers(WithListeners(ContainerProviders(containers), listeners), provide)
  }

  /**
   * The caller's load balancers come first, in order; after them no
   * container has two load balancers, and a container's load balancer
   * comes from its last port-mapping provider, else from its listener.
   */
  lemma LoadBalancersShape(args: seq<LoadBalancerArg>, containers: seq<ContainerMappings>, listeners: seq<(string, string)>,
                           serve: string -> ServiceLoadBalancer, provide: string -> ContainerLoadBalancer, name: string)
    requires UniqueNames(containers) && UniqueNames(listeners)
    ensures LoadBalancers(args, containers, listeners, serve, provide)[..|args|] == ExplicitLoadBalancers(args, serve)
    ensures var rest := LoadBalancers(args, containers, listeners, serve, provide)[|args|..];
      forall i, j :: 0 <= i < j < |rest| ==> rest[i].containerName != rest[j].containerName
    ensures forall i :: 0 <= i < |containers| && containers[i].0 == name && LastProvider(containers[i].1.GetOr([])).Some? ==>
      C.Lookup(WithListeners(ContainerProviders(containers), listeners), name) == LastProvider(containers[i].1.GetOr([]))
    ensures (forall i :: 0 <= i < |containers| ==> containers[i].0 != name || LastProvider(containers[i].1.GetOr([])).None?) ==>
      C.Lookup(WithListeners(ContainerProviders(containers), listeners), name) == ListenerFor(listeners, name)
  {
    var explicit := ExplicitLoadBalancers(args, serve);
    var providers := WithListeners(ContainerProviders(containers), listeners);
    var rest := ProviderLoadBalancers(providers, provide);
    assert (explicit + rest)[..|args|] == explicit;
    assert (explicit + rest)[|args|..] == rest;
    ContainerProvidersLookup(containers, name);
    WithListenersLookup(ContainerProviders(containers), listeners, name);
    assert Distinct(Names(providers));
  }

  /** The walk over the containers' port mappings that fills the provider map. */
  method CollectContainerProviders(containers: seq<ContainerMappings>) returns (providers: C.EnvRecord)
    ensures providers == ContainerProviders(containers)
  {
    providers := [];
    var c := 0;
    while c < |containers|
      invariant 0 <= c <= |containers|
      invariant providers == ContainerProviders(containers[..c])
    {
      assert containers[..c + 1][..c] == containers[..c];
      var name := containers[c].0;
      if containers[c].1.Some? {
        var mappings := containers[c].1.value;
        var m := 0;
        while m < |mappings|
          invariant 0 <= m <= |mappings|
          invariant providers == AddProviders(ContainerProviders(containers[..c]), name, mappings[..m])
        {
          assert mappings[..m + 1][..m] == mappings[..m];
          if mappings[m].MappingProvider? {
            providers := C.Assign(providers, name, mappings[m].provider);
          }
          m := m + 1;
        }
        assert mappings[..m] == mappings;
      }
      c := c + 1;
    }
    assert containers[..c] == containers;
  }

  /** The loop over the caller's load balancers, resolving each in order. */
  method ResolveExplicit(args: seq<LoadBalancerArg>, serve: string -> ServiceLoadBalancer)
    returns (result: seq<ServiceLoadBalancer>)
    ensures result == ExplicitLoadBalancers(args, serve)
  {
    result := [];
    var i := 0;
    while i < |args|
      invariant 0 <= i <= |args|
      invariant result == ExplicitLoadBalancers(args[..i], serve)
    {
      assert args[..i + 1][..i] == args[..i];
      result := result + [Resolve(args[i], serve)];
      i := i + 1;
    }
    assert args[..i] == args;
  }

  /** The loop over the listeners, giving each container without a provider its listener. */
  method AddListenerProviders(start: C.EnvRecord, listeners: seq<(string, string)>) returns (providers: C.EnvRecord)
    ensures providers == WithListeners(start, listeners)
  {
    providers := start;
    var l := 0;
    while l < |listeners|
      invariant 0 <= l <= |listeners|
      invariant providers == WithListeners(start, listeners[..l])
    {
      assert listeners[..l + 1][..l] == listeners[..l];
      if C.Lookup(providers, listeners[l].0).None? {
        providers := C.Assign(providers, listeners[l].0, listeners[l].1);
      }
      l := l + 1;
    }
    assert listeners[..l] == listeners;
  }

  /** The loop over the provider map, one load balancer per entry. */
  method MakeProviderLoadBalancers(providers: C.EnvRecord, provide: string -> ContainerLoadBalancer)
    returns (result: seq<ServiceLoadBalancer>)
    ensures result == ProviderLoadBalancers(providers, provide)
  {
    result := [];
    var p := 0;
    while p < |providers|
      invariant 0 <= p <= |providers|
      invariant result == ProviderLoadBalancers(providers[..p], provide)
    {
      assert providers[..p + 1][..p] == providers[..p];
      result := result + [Named(providers[p].name, provide(providers[p].value))];
      p := p + 1;
    }
    assert providers[..p] == providers;
  }

  /** `getLoadBalancers`: the caller's load balancers, the provider map filled from containers then listeners, then one entry per provider. */
  method GetLoadBalancers(args: seq<LoadBalancerArg>, containers: seq<ContainerMappings>, listeners: seq<(string, string)>,
                          serve: string -> ServiceLoadBalancer, provide: string -> ContainerLoadBalancer)
    returns (result: seq<ServiceLoadBalancer>)
    ensures result == LoadBalancers(args, containers, listeners, serve, provide)
  {
    var explicit := ResolveExplicit(args, serve);
    var fromContainers := CollectContainerProviders(containers);
    var providers := AddListenerProviders(fromContainers, listeners);
    var fromProviders := MakeProviderLoadBalancers(providers, provide);
    result := explicit + fromProviders;
  }

  /** The cluster a service runs in: its ARN and the stacks of its auto-scaling groups. */
  datatype Cluster = Cluster(arn: string, autoScalingGroupStacks: seq<string>)

  /** The caller's service arguments that `initialize` reads. */
  datatype ServiceArgs = ServiceArgs(
    cluster: Option<Cluster>, taskDefinitionArn: string, containers: seq<ContainerMappings>,
    listeners: seq<(string, string)>, loadBalancers: seq<LoadBalancerArg>,
    desiredCount: Option<int>, launchType: Option<string>, waitForSteadyState: Option<bool>)

  /** The `aws.ecs.Service` created, with the resources it depends on. */
  datatype ServiceResource = ServiceResource(
    loadBalancers: seq<ServiceLoadBalancer>, cluster: string, taskDefinition: string,
    desiredCount: int, launchType: string, waitForSteadyState: bool, dependsOn: seq<string>)

  const DirectConstruction: string :=
    "Do not construct a Service directly. Use [EC2Service.create] or [FargateService.create] instead."

  /** The `ecs.Service` component; `initialize` fills it in. */
  class Service {
    var cluster: Option<Cluster>
    var listeners: seq<(string, string)>
    var service: Option<ServiceResource>

    constructor()
      ensures cluster.None? && listeners == [] && service.None?
    {
      cluster := None;
      listeners := [];
      service := None;
    }

    /**
     * `initialize`: the caller's cluster or the default one, the task
     * definition's listeners, and the service with its load balancers,
     * depending on the cluster's auto-scaling groups; desired count 1,
     * launch type EC2 and waiting for a steady state unless the caller says
     * otherwise.
     */
    method Initialize(args: ServiceArgs, defaultCluster: Cluster,
                      serve: string -> ServiceLoadBalancer, provide: string -> ContainerLoadBalancer)
      modifies this
      ensures cluster == Some(args.cluster.GetOr(defaultCluster)) && listeners == args.listeners
      ensures service.Some?
      ensures service.value.loadBalancers == LoadBalancers(args.loadBalancers, args.containers, args.listeners, serve, provide)
      ensures service.value.cluster == cluster.value.arn && service.value.taskDefinition == args.taskDefinitionArn
      ensures service.value.desiredCount == args.desiredCount.GetOr(1)
      ensures service.value.launchType == args.launchType.GetOr("EC2")
      ensures service.value.waitForSteadyState == args.waitForSteadyState.GetOr(true)
      ensures service.value.dependsOn == cluster.value.autoScalingGroupStacks
    {
      var theCluster := args.cluster.GetOr(defaultCluster);
      cluster := Some(theCluster);
      listeners := args.listeners;
      var loadBalancers := GetLoadBalancers(args.loadBalancers, args.containers, listeners, serve, provide);
      service := Some(ServiceResource(loadBalancers, theCluster.arn, args.taskDefinitionArn,
                                      args.desiredCount.GetOr(1), args.launchType.GetOr("EC2"),
                                      args.waitForSteadyState.GetOr(true), theCluster.autoScalingGroupStacks));
    }
  }

  /** The constructor refuses unless called with a numeric version (`None` stands for any other value). */
  method NewService(version: Option<int>) returns (r: Result<Service>)
    ensures r.Fail? <==> version.None?
    ensures r.Fail? ==> r.error == DirectConstruction
    ensures r.Ok? ==> fresh(r.value) && r.value.service.None?
  {
    if version.None? {
      return Fail(DirectConstruction);
    }
    var s := new Service();
    r := Ok(s);
  }
}
