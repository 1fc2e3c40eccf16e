// Container definitions of awsx's ECS layer (nodejs/awsx/ecs/container.ts):
// the image and environment a provider supplies, the port mappings taken
// from explicit mappings or from a load-balancer listener (with the
// listeners recorded for the task), host-port defaulting, and the awslogs
// configuration.
module EcsContainer {
  import opened Wrappers
  import opened EcsTypes

  /** Which kind of load-balancer listener. */
  datatype ListenerType = Application | Network

  /** A listener: its kind, resource name, and the port mapping its `containerPortMapping` yields. */
  datatype Listener = Listener(kind: ListenerType, resourceName: string, portMapping: PortMapping)

  /** An entry of `portMappings`: a plain mapping, a mapping provider, or a listener (which is a provider). */
  datatype PortMappingEntry =
    | PlainMapping(mapping: PortMapping)
    | MappingProvider(provided: PortMapping)
    | ListenerEntry(listener: Listener)

  /** `applicationListener`/`networkListener`: an existing listener, or arguments for a new one. */
  datatype ListenerArg = GivenListener(listener: Listener) | ListenerArgs(portMapping: PortMapping)

  /** `image`: a name, or an object that is a provider when it has both `image` and `environment` functions. */
  datatype Image = ImageName(name: string) | ImageObject(image: Option<string>, environment: Option<seq<KeyValuePair>>)

  /** The parts of a container the definition is computed from. */
  datatype Container = Container(
    image: Image,
    environment: Option<seq<KeyValuePair>>,
    portMappings: Option<seq<PortMappingEntry>>,
    applicationListener: Option<ListenerArg>,
    networkListener: Option<ListenerArg>,
    logConfiguration: Option<LogConfiguration>)

  /** A computed container definition. */
  datatype ContainerDefinition = ContainerDefinition(
    name: string,
    image: Image,
    environment: Option<seq<KeyValuePair>>,
    portMappings: Option<seq<PortMapping>>,
    logConfiguration: Option<LogConfiguration>)

  function BothListeners(name: string): string
  {
    "Container '" + name + "' supplied [applicationListener] and [networkListener]"
  }

  function MappingsAndListener(name: string): string
  {
    "Container '" + name + "' supplied [portMappings] and load balancer info"
  }

  /** `isContainerImageProvider`: both functions present. */
  predicate IsImageProvider(image: Image)
  {
    image.ImageObject? && image.image.Some? && image.environment.Some?
  }

  /** `combineArrays` on optional lists: a missing list counts as empty, two missing give none. */
  function CombineArrays(a: Option<seq<KeyValuePair>>, b: Option<seq<KeyValuePair>>): (r: Option<seq<KeyValuePair>>)
    ensures r.None? <==> a.None? && b.None?
    ensures r.Some? ==> r.value == a.GetOr([]) + b.GetOr([])
  {
    if a.None? && b.None? then None else Some(a.GetOr([]) + b.GetOr([]))
  }

  /** The image and environment of the definition: a provider's, else the container's own. */
  function ImageAndEnvironment(container: Container): (r: (Image, Option<seq<KeyValuePair>>))
    ensures IsImageProvider(container.image) ==>
      r.0 == ImageName(container.image.image.value)
      && r.1 == Some(container.environment.GetOr([]) + container.image.environment.value)
    ensures !IsImageProvider(container.image) ==> r == (container.image, container.environment)
  {
    if IsImageProvider(container.image) then
      (ImageName(container.image.image.value), CombineArrays(container.environment, container.image.environment))
    else (container.image, container.environment)
  }

  /** One mapping as `convertMappings` copies it: a missing host port becomes the container port. */
  function WithHostPort(mapping: PortMapping): PortMapping
  {
    if mapping.hostPort.None? then mapping.(hostPort := Some(mapping.containerPort)) else mapping
  }

  /** Every mapping converted, in order. */
  function Converted(mappings: seq<PortMapping>): (r: seq<PortMapping>)
    ensures |r| == |mappings|
    ensures forall i :: 0 <= i < |mappings| ==>
      r[i].containerPort == mappings[i].containerPort && r[i].hostPort.Some?
      && (mappings[i].hostPort.Some? ==> r[i].hostPort == mappings[i].hostPort)
      && (mappings[i].hostPort.None? ==> r[i].hostPort == Some(mappings[i].containerPort))
  {
    seq(|mappings|, i requires 0 <= i < |mappings| => WithHostPort(mappings[i]))
  }

  /** Converting twice changes nothing more. */
  lemma ConvertedIdempotent(mappings: seq<PortMapping>)
    ensures Converted(Converted(mappings)) == Converted(mappings)
  {
  }

  /** `convertMappings`: copy each mapping, filling in the host port. */
  method ConvertMappings(mappings: seq<PortMapping>) returns (result: seq<PortMapping>)
    ensures result == Converted(mappings)
  {
    result := [];
    var i := 0;
    while i < |mappings|
      invariant 0 <= i <= |mappings|
      invariant result == Converted(mappings[..i])
    {
      var copy := mappings[i];
      if copy.hostPort.None? {
        copy := copy.(hostPort := Some(copy.containerPort));
      }
      result := result + [copy];
      i := i + 1;
    }
    assert mappings[..|mappings|] == mappings;
  }

  /** The mapping an entry contributes: itself, or what the provider yields. */
  function EntryMapping(entry: PortMappingEntry): PortMapping
  {
    match entry
    case PlainMapping(mapping) => mapping
    case MappingProvider(provided) => provided
    case ListenerEntry(listener) => listener.portMapping
  }

  function EntryMappings(entries: seq<PortMappingEntry>): (r: seq<PortMapping>)
    ensures |r| == |entries|
    ensures forall i :: 0 <= i < |entries| ==> r[i] == EntryMapping(entries[i])
  {
    seq(|entries|, i requires 0 <= i < |entries| => EntryMapping(entries[i]))
  }

  /** The listener a container's listener argument stands for: the given one, or a new one named after the task. */
  function ResolvedListener(kind: ListenerType, name: string, arg: ListenerArg): (r: Listener)
    ensures arg.GivenListener? ==> r == arg.listener
    ensures arg.ListenerArgs? ==> r.kind == kind && r.resourceName == name && r.portMapping == arg.portMapping
  {
    match arg
    case GivenListener(listener) => listener
    case ListenerArgs(portMapping) => Listener(kind, name, portMapping)
  }

  /** The listener built for a container that gives listener information instead of mappings. */
  function ContainerListener(name: string, container: Container): Listener
    requires container.applicationListener.Some? || container.networkListener.Some?
  {
    if container.applicationListener.Some? then ResolvedListener(Application, name, container.applicationListener.value)
    else ResolvedListener(Network, name, container.networkListener.value)
  }

  /**
   * The value `getPortMappings` returns: the two exclusivity errors, no
   * mappings without any port information, else the converted mappings of
   * the entries or of the listener.
   */
  function PortMappings(name: string, container: Container): (r: Result<Option<seq<PortMapping>>>)
    ensures r.Fail? <==>
      (container.applicationListener.Some? && container.networkListener.Some?)
      || (container.portMappings.Some? && (container.applicationListener.Some? || container.networkListener.Some?))
    ensures container.applicationListener.Some? && container.networkListener.Some? ==> r == Fail(BothListeners(name))
    ensures r.Ok? && container.portMappings.Some? ==> r == Ok(Some(Converted(EntryMappings(container.portMappings.value))))
    ensures r.Ok? && container.portMappings.None? && (container.applicationListener.Some? || container.networkListener.Some?) ==>
      r == Ok(Some(Converted([ContainerListener(name, container).portMapping])))
  {
    var hasListener := container.applicationListener.Some? || container.networkListener.Some?;
    if container.applicationListener.Some? && container.networkListener.Some? then Fail(BothListeners(name))
    else if container.portMappings.None? && !hasListener then Ok(None)
    else if container.portMappings.Some? && hasListener then Fail(MappingsAndListener(name))
    else if container.portMappings.Some? then Ok(Some(Converted(EntryMappings(container.portMappings.value))))
    else Ok(Some(Converted([ContainerListener(name, container).portMapping])))
  }

  /** No port information gives no mappings; any accepted port information gives a list. */
  lemma PortMappingsNone(name: string, container: Container)
    ensures PortMappings(name, container) == Ok(None) <==>
      container.portMappings.None? && container.applicationListener.None? && container.networkListener.None?
  {
  }

  /** `m[key] = value` when there is a value. */
  function Put(m: map<string, Listener>, key: string, value: Option<Listener>): (r: map<string, Listener>)
    ensures value.None? ==> r == m
    ensures value.Some? ==> r == m[key := value.value]
  {
    if value.Some? then m[key := value.value] else m
  }

  /** The last listener of the given kind among the entries. */
  function LastListener(entries: seq<PortMappingEntry>, kind: ListenerType): Option<Listener>
  {
    if |entries| == 0 then None
    else
      var last := entries[|entries| - 1];
      if last.ListenerEntry? && last.listener.kind == kind then Some(last.listener)
      else LastListener(entries[..|entries| - 1], kind)
  }

  /** The records after one entry: a listener entry is stored under its kind. */
  function RecordEntry(records: (map<string, Listener>, map<string, Listener>), key: string, entry: PortMappingEntry)
    : (map<string, Listener>, map<string, Listener>)
  {
    if entry.ListenerEntry? && entry.listener.kind == Application then (records.0[key := entry.listener], records.1)
    else if entry.ListenerEntry? then (records.0, records.1[key := entry.listener])
    else records
  }

  /** The records after the entries one after another. */
  function RecordEntries(records: (map<string, Listener>, map<string, Listener>), key: string, entries: seq<PortMappingEntry>)
    : (map<string, Listener>, map<string, Listener>)
  {
    if |entries| == 0 then records
    else RecordEntry(RecordEntries(records, key, entries[..|entries| - 1]), key, entries[|entries| - 1])
  }

  /**
   * Recording the entries one by one leaves, for each kind, the last
   * listener of that kind under the key: later listeners overwrite earlier
   * ones, and without any listener the records are unchanged.
   */
  lemma {:induction false} RecordEntriesKeepsLast(records: (map<string, Listener>, map<string, Listener>), key: string,
                                                  entries: seq<PortMappingEntry>)
    ensures RecordEntries(records, key, entries) ==
      (Put(records.0, key, LastListener(entries, Application)), Put(records.1, key, LastListener(entries, Network)))
    decreases |entries|
  {
    if |entries| > 0 {
      var init := entries[..|entries| - 1];
      RecordEntriesKeepsLast(records, key, init);
      var last := entries[|entries| - 1];
      if last.ListenerEntry? && last.listener.kind == Application {
        assert Put(records.0, key, LastListener(init, Application))[key := last.listener]
            == records.0[key := last.listener];
      } else if last.ListenerEntry? {
        assert Put(records.1, key, LastListener(init, Network))[key := last.listener]
            == records.1[key := last.listener];
      }
    }
  }

  /**
   * The listener records after `getPortMappings`: untouched on an error or
   * without port information, the entries' listeners recorded in order,
   * or the container's own listener under its kind.
   */
  function RecordsAfter(records: (map<string, Listener>, map<string, Listener>), name: string, container: Container)
    : (map<string, Listener>, map<string, Listener>)
  {
    if PortMappings(name, container).Fail? || PortMappings(name, container) == Ok(None) then records
    else if container.portMappings.Some? then RecordEntries(records, name, container.portMappings.value)
    else if container.applicationListener.Some? then (records.0[name := ContainerListener(name, container)], records.1)
    else (records.0, records.1[name := ContainerListener(name, container)])
  }

  /** What `computeContainerDefinition` yields for one container. */
  function ContainerDefinitionFor(name: string, containerName: string, container: Container, logGroupId: Option<string>,
                                  region: string): (r: Result<ContainerDefinition>)
    ensures r.Fail? <==> PortMappings(name, container).Fail?
    ensures r.Ok? ==> r.value.name == containerName && r.value.portMappings == PortMappings(name, container).value
    ensures r.Ok? ==> (r.value.image, r.value.environment) == ImageAndEnvironment(container)
    ensures r.Ok? && logGroupId.Some? ==> r.value.logConfiguration == Some(AwsLogs(logGroupId.value, region, containerName))
    ensures r.Ok? && logGroupId.None? ==> r.value.logConfiguration == container.logConfiguration
  {
    var portMappings := PortMappings(name, container);
    if portMappings.Fail? then Fail(portMappings.error)
    else Ok(ContainerDefinition(containerName, ImageAndEnvironment(container).0, ImageAndEnvironment(container).1,
                                portMappings.value,
                                if logGroupId.Some? then Some(AwsLogs(logGroupId.value, region, containerName))
                                else container.logConfiguration))
  }

  /** The task's records of listeners by task name, which `getPortMappings` writes into. */
  class ListenerRecords {
    var applicationListeners: map<string, Listener>
    var networkListeners: map<string, Listener>

    constructor()
      ensures applicationListeners == map[] && networkListeners == map[]
    {
      applicationListeners := map[];
      networkListeners := map[];
    }

    function Records(): (map<string, Listener>, map<string, Listener>)
      reads this
    {
      (applicationListeners, networkListeners)
    }

    /** `getPortMappings`: check the port information, collect the mappings, record the listeners. */
    method GetPortMappings(name: string, container: Container) returns (r: Result<Option<seq<PortMapping>>>)
      modifies this
      ensures r == PortMappings(name, container)
      ensures Records() == RecordsAfter(old(Records()), name, container)
    {
      var hasListener := container.applicationListener.Some? || container.networkListener.Some?;
      if container.applicationListener.Some? && container.networkListener.Some? {
        return Fail(BothListeners(name));
      }
      if container.portMappings.None? && !hasListener {
        return Ok(None);
      }
      if container.portMappings.Some? && hasListener {
        return Fail(MappingsAndListener(name));
      }
      var result: seq<PortMapping> := [];
      if container.portMappings.Some? {
        var entries := container.portMappings.value;
        var i := 0;
        while i < |entries|
          invariant 0 <= i <= |entries|
          invariant result == EntryMappings(entries[..i])
          invariant Records() == RecordEntries(old(Records()), name, entries[..i])
        {
          assert entries[..i + 1][..i] == entries[..i];
          var entry := entries[i];
          result := result + [EntryMapping(entry)];
          if entry.ListenerEntry? && entry.listener.kind == Application {
            applicationListeners := applicationListeners[name := entry.listener];
          } else if entry.ListenerEntry? {
            networkListeners := networkListeners[name := entry.listener];
          }
          i := i + 1;
        }
        assert entries[..|entries|] == entries;
      } else if container.applicationListener.Some? {
        var listener := ResolvedListener(Application, name, container.applicationListener.value);
        applicationListeners := applicationListeners[name := listener];
        result := [listener.portMapping];
      } else {
        var listener := ResolvedListener(Network, name, container.networkListener.value);
        networkListeners := networkListeners[name := listener];
        result := [listener.portMapping];
      }
      var converted := ConvertMappings(result);
      r := Ok(Some(converted));
    }

    /**
     * `computeContainerDefinition`: the provider's image and environment,
     * the port mappings, the container's name, and the awslogs
     * configuration whenever the task has a log group (replacing any the
     * container gave).
     */
    method ComputeContainerDefinition(name: string, containerName: string, container: Container,
                                      logGroupId: Option<string>, region: string)
      returns (r: Result<ContainerDefinition>)
      modifies this
      ensures r == ContainerDefinitionFor(name, containerName, container, logGroupId, region)
      ensures Records() == RecordsAfter(old(Records()), name, container)
    {
      var imageAndEnvironment := ImageAndEnvironment(container);
      var portMappings := GetPortMappings(name, container);
      if portMappings.Fail? {
        return Fail(portMappings.error);
      }
      var logConfiguration := container.logConfiguration;
      if logGroupId.Some? {
        logConfiguration := Some(AwsLogs(logGroupId.value, region, containerName));
      }
      r := Ok(ContainerDefinition(containerName, imageAndEnvironment.0, imageAndEnvironment.1, portMappings.value,
                                  logConfiguration));
    }
  }

  /** A container giving a listener records exactly that listener, under the task name, in its kind's record. */
  lemma ListenerContainerRecorded(records: (map<string, Listener>, map<string, Listener>), name: string, container: Container)
    requires PortMappings(name, container).Ok? && container.portMappings.None?
    requires container.applicationListener.Some? || container.networkListener.Some?
    ensures var after := RecordsAfter(records, name, container);
      if container.applicationListener.Some? then
        after.0 == records.0[name := ContainerListener(name, container)] && after.1 == records.1
      else after.1 == records.1[name := ContainerListener(name, container)] && after.0 == records.0
  {
  }

  /** Port mappings given with a listener entry record the last listener of each kind and return one mapping per entry. */
  lemma MappingEntriesRecorded(records: (map<string, Listener>, map<string, Listener>), name: string, container: Container)
    requires PortMappings(name, container).Ok? && container.portMappings.Some?
    ensures RecordsAfter(records, name, container) ==
      (Put(records.0, name, LastListener(container.portMappings.value, Application)),
       Put(records.1, name, LastListener(container.portMappings.value, Network)))
    ensures |PortMappings(name, container).value.value| == |container.portMappings.value|
  {
    RecordEntriesKeepsLast(records, name, container.portMappings.value);
  }
}
