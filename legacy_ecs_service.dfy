// The ECS service of the legacy SDK (sdk/nodejs/legacy/ecs/service.ts):
// unlike awsx's, it keeps every (container, provider) pair it meets, and a
// listener adds its pair only when that exact pair is not there yet.
module LegacyEcsService {
  import opened Wrappers
  import S = EcsService

  /** The (container, provider) pairs of one container, in the order of its port mappings. */
  function PairsOf(name: string, mappings: seq<S.PortMappingArg>): (r: seq<(string, string)>)
    ensures forall pair :: pair in r <==> pair.0 == name && S.MappingProvider(pair.1) in mappings
  {
    if |mappings| == 0 then []
    else
      var before := PairsOf(name, mappings[..|mappings| - 1]);
      var last := mappings[|mappings| - 1];
      assert mappings == mappings[..|mappings| - 1] + [last];
      before + (if last.MappingProvider? then [(name, last.provider)] else [])
  }

  /** The pairs collected from all containers, container by container. */
  function ContainerPairs(containers: seq<S.ContainerMappings>): (r: seq<(string, string)>)
  {
    if |containers| == 0 then []
    else
      var last := containers[|containers| - 1];
      ContainerPairs(containers[..|containers| - 1]) + PairsOf(last.0, last.1.GetOr([]))
  }

  /** Every provider of every container is kept as its own pair, and nothing else is. */
  lemma {:induction false} ContainerPairsMember(containers: seq<S.ContainerMappings>, pair: (string, string))
    ensures pair in ContainerPairs(containers) <==>
      exists i :: 0 <= i < |containers| && containers[i].0 == pair.0 && S.MappingProvider(pair.1) in containers[i].1.GetOr([])
  {
    if |containers| > 0 {
      var prefix := containers[..|containers| - 1];
      ContainerPairsMember(prefix, pair);
      assert forall i :: 0 <= i < |prefix| ==> prefix[i] == containers[i];
    }
  }

  /** The pairs after the service's listeners: a listener's pair is added unless already present. */
  function WithListenerPairs(pairs: seq<(string, string)>, listeners: seq<(string, string)>): seq<(string, string)>
  {
    if |listeners| == 0 then pairs
    else
      var before := WithListenerPairs(pairs, listeners[..|listeners| - 1]);
      var last := listeners[|listeners| - 1];
      if last in before then before else before + [last]
  }

  /**
   * The listeners keep the pairs found so far in front, add exactly the
   * listener pairs, and never add a pair twice.
   */
  lemma {:induction false} WithListenerPairsShape(pairs: seq<(string, string)>, listeners: seq<(string, string)>)
    ensures |WithListenerPairs(pairs, listeners)| >= |pairs|
    ensures WithListenerPairs(pairs, listeners)[..|pairs|] == pairs
    ensures forall pair :: pair in WithListenerPairs(pairs, listeners) <==> pair in pairs || pair in listeners
    ensures forall i, j :: |pairs| <= i < j < |WithListenerPairs(pairs, listeners)| ==>
      WithListenerPairs(pairs, listeners)[i] != WithListenerPairs(pairs, listeners)[j]
    ensures forall i :: |pairs| <= i < |WithListenerPairs(pairs, listeners)| ==>
      WithListenerPairs(pairs, listeners)[i] !in pairs
  {
    if |listeners| > 0 {
      var prefix := listeners[..|listeners| - 1];
      var last := listeners[|listeners| - 1];
      WithListenerPairsShape(pairs, prefix);
      var before := WithListenerPairs(pairs, prefix);
      assert listeners == prefix + [last];
      if last !in before {
        assert (before + [last])[..|pairs|] == before[..|pairs|];
      }
    }
  }

  /** One load balancer per pair, asking the provider and labelling it with the container. */
  function PairLoadBalancers(pairs: seq<(string, string)>, provide: string -> S.ContainerLoadBalancer)
    : (r: seq<S.ServiceLoadBalancer>)
    ensures |r| == |pairs|
    ensures forall i :: 0 <= i < |pairs| ==> r[i] == S.Named(pairs[i].0, provide(pairs[i].1))
  {
    if |pairs| == 0 then []
    else
      var last := pairs[|pairs| - 1];
      PairLoadBalancers(pairs[..|pairs| - 1], provide) + [S.Named(last.0, provide(last.1))]
  }

  /** `getLoadBalancers`, as a value: the caller's load balancers, then one per collected pair. */
  function LoadBalancers(args: seq<S.LoadBalancerArg>, containers: seq<S.ContainerMappings>, listeners: seq<(string, string)>,
                         serve: string -> S.ServiceLoadBalancer, provide: string -> S.ContainerLoadBalancer)
    : seq<S.ServiceLoadBalancer>
  {
    S.ExplicitLoadBalancers(args, serve) + PairLoadBalancers(WithListenerPairs(ContainerPairs(containers), listeners), provide)
  }

  /** `getLoadBalancers`: the caller's load balancers, the pairs from containers then listeners, then one entry per pair. */
  method GetLoadBalancers(args: seq<S.LoadBalancerArg>, containers: seq<S.ContainerMappings>, listeners: seq<(string, string)>,
                          serve: string -> S.ServiceLoadBalancer, provide: string -> S.ContainerLoadBalancer)
    returns (result: seq<S.ServiceLoadBalancer>)
    ensures result == LoadBalancers(args, containers, listeners, serve, provide)
  {
    var explicit := S.ResolveExplicit(args, serve);
    var fromContainers := CollectContainerPairs(containers);
    var pairs := AddListenerPairs(fromContainers, listeners);
    var fromPairs := MakePairLoadBalancers(pairs, provide);
    result := explicit + fromPairs;
  }

  /** The loop over the listeners, pushing each pair not already present. */
  method AddListenerPairs(start: seq<(string, string)>, listeners: seq<(string, string)>) returns (pairs: seq<(string, string)>)
    ensures pairs == WithListenerPairs(start, listeners)
  {
    pairs := start;
    var l := 0;
    while l < |listeners|
      invariant 0 <= l <= |listeners|
      invariant pairs == WithListenerPairs(start, listeners[..l])
    {
      assert listeners[..l + 1][..l] == listeners[..l];
      if listeners[l] !in pairs {
        pairs := pairs + [listeners[l]];
      }
      l := l + 1;
    }
    assert listeners[..l] == listeners;
  }

  /** The loop over the pairs, one load balancer per pair. */
  method MakePairLoadBalancers(pairs: seq<(string, string)>, provide: string -> S.ContainerLoadBalancer)
    returns (result: seq<S.ServiceLoadBalancer>)
    ensures result == PairLoadBalancers(pairs, provide)
  {
    result := [];
    var p := 0;
    while p < |pairs|
      invariant 0 <= p <= |pairs|
      invariant result == PairLoadBalancers(pairs[..p], provide)
    {
      assert pairs[..p + 1][..p] == pairs[..p];
      result := result + [S.Named(pairs[p].0, provide(pairs[p].1))];
      p := p + 1;
    }
    assert pairs[..p] == pairs;
  }

  /** The walk over the containers' port mappings that pushes each (container, provider) pair. */
  method CollectContainerPairs(containers: seq<S.ContainerMappings>) returns (pairs: seq<(string, string)>)
    ensures pairs == ContainerPairs(containers)
  {
    pairs := [];
    var c := 0;
    while c < |containers|
      invariant 0 <= c <= |containers|
      invariant pairs == ContainerPairs(containers[..c])
    {
      assert containers[..c + 1][..c] == containers[..c];
      var name := containers[c].0;
      if containers[c].1.Some? {
        var mappings := containers[c].1.value;
        var m := 0;
        while m < |mappings|
          invariant 0 <= m <= |mappings|
          invariant pairs == ContainerPairs(containers[..c]) + PairsOf(name, mappings[..m])
        {
          assert mappings[..m + 1][..m] == mappings[..m];
          if mappings[m].MappingProvider? {
            pairs := pairs + [(name, mappings[m].provider)];
          }
          m := m + 1;
        }
        assert mappings[..m] == mappings;
      }
      c := c + 1;
    }
    assert containers[..c] == containers;
  }

  /** The caller's service arguments the constructor reads; there is no launch-type default here. */
  datatype ServiceArgs = ServiceArgs(
    cluster: Option<S.Cluster>, taskDefinitionArn: string, containers: seq<S.ContainerMappings>,
    listeners: seq<(string, string)>, loadBalancers: seq<S.LoadBalancerArg>,
    desiredCount: Option<int>, waitForSteadyState: Option<bool>)

  /** The `aws.ecs.Service` created; the launch type is the caller's, if any. */
  datatype ServiceResource = ServiceResource(
    loadBalancers: seq<S.ServiceLoadBalancer>, cluster: string, taskDefinition: string,
    desiredCount: int, waitForSteadyState: bool, dependsOn: seq<string>)

  /** The legacy `Service` component. */
  class Service {
    const cluster: S.Cluster
    const listeners: seq<(string, string)>
    const service: ServiceResource

    /**
     * The constructor: the caller's cluster or `Cluster.getDefault()`, the
     * task definition's listeners, and the service with desired count 1 and
     * waiting for a steady state unless the caller says otherwise.
     */
    constructor(args: ServiceArgs, defaultCluster: S.Cluster,
                serve: string -> S.ServiceLoadBalancer, provide: string -> S.ContainerLoadBalancer)
      ensures cluster == args.cluster.GetOr(defaultCluster) && listeners == args.listeners
      ensures service.loadBalancers == LoadBalancers(args.loadBalancers, args.containers, args.listeners, serve, provide)
      ensures service.cluster == cluster.arn && service.taskDefinition == args.taskDefinitionArn
      ensures service.desiredCount == args.desiredCount.GetOr(1)
      ensures service.waitForSteadyState == args.waitForSteadyState.GetOr(true)
      ensures service.dependsOn == cluster.autoScalingGroupStacks
    {
      var theCluster := args.cluster.GetOr(defaultCluster);
      var loadBalancers := GetLoadBalancers(args.loadBalancers, args.containers, args.listeners, serve, provide);
      cluster := theCluster;
      listeners := args.listeners;
      service := ServiceResource(loadBalancers, theCluster.arn, args.taskDefinitionArn,
                                 args.desiredCount.GetOr(1), args.waitForSteadyState.GetOr(true),
                                 theCluster.autoScalingGroupStacks);
    }
  }
}
