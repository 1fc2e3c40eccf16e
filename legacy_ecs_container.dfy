// Container definitions of the legacy ECS layer
// (sdk/nodejs/legacy/ecs/container.ts): the same port-mapping rules as
// awsx's, except that only the last mapping entry (or the listener made
// for the container) is recorded, under the container's name and by its
// own kind, that a listener cannot be created without a VPC, and that a
// container's own log configuration is kept.
module LegacyEcsContainer {
  import opened Wrappers
  import opened EcsTypes
  import opened EcsContainer

  function MappingsAndAListener(name: string): string
  {
    "Container '" + name + "' supplied [portMappings] and a listener"
  }

  function VpcRequired(name: string): string
  {
    "[vpc] must be supplied to task definition in order to create a listener for container " + name
  }

  /** `createListener` needs a VPC exactly when it has to build a new listener. */
  predicate NeedsVpc(container: Container)
  {
    (container.applicationListener.Some? && container.applicationListener.value.ListenerArgs?)
    || (container.applicationListener.None? && container.networkListener.Some? && container.networkListener.value.ListenerArgs?)
  }

  /**
   * The value `getPortMappings` returns here: the exclusivity errors, no
   * mappings without port information, the VPC error for a listener that
   * must be created without one, else the converted mappings.
   */
  function LegacyPortMappings(name: string, container: Container, hasVpc: bool): (r: Result<Option<seq<PortMapping>>>)
    ensures r.Fail? <==>
      (container.applicationListener.Some? && container.networkListener.Some?)
      || (container.portMappings.Some? && (container.applicationListener.Some? || container.networkListener.Some?))
      || (container.portMappings.None? && NeedsVpc(container) && !hasVpc)
    ensures r.Ok? && container.portMappings.Some? ==> r == Ok(Some(Converted(EntryMappings(container.portMappings.value))))
    ensures r.Ok? && container.portMappings.None? && (container.applicationListener.Some? || container.networkListener.Some?) ==>
      r == Ok(Some(Converted([ContainerListener(name, container).portMapping])))
  {
    var hasListener := container.applicationListener.Some? || container.networkListener.Some?;
    if container.applicationListener.Some? && container.networkListener.Some? then Fail(BothListeners(name))
    else if container.portMappings.None? && !hasListener then Ok(None)
    else if container.portMappings.Some? && hasListener then Fail(MappingsAndAListener(name))
    else if container.portMappings.Some? then Ok(Some(Converted(EntryMappings(container.portMappings.value))))
    else if NeedsVpc(container) && !hasVpc then Fail(VpcRequired(name))
    else Ok(Some(Converted([ContainerListener(name, container).portMapping])))
  }

  /** No port information gives no mappings; any accepted port information gives a list. */
  lemma LegacyPortMappingsNone(name: string, container: Container, hasVpc: bool)
    ensures LegacyPortMappings(name, container, hasVpc) == Ok(None) <==>
      container.portMappings.None? && container.applicationListener.None? && container.networkListener.None?
  {
  }

  /** Whenever the legacy layer accepts a container, it yields the same mappings as awsx. */
  lemma AgreesWithAwsxOnSuccess(name: string, container: Container, hasVpc: bool)
    requires LegacyPortMappings(name, container, hasVpc).Ok?
    ensures LegacyPortMappings(name, container, hasVpc) == PortMappings(name, container)
  {
  }

  /** `possibleListener`: the last port-mapping entry if it is a listener, else the container's listener. */
  function PossibleListener(name: string, container: Container): (r: Option<Listener>)
    ensures container.portMappings.Some? && |container.portMappings.value| > 0 ==> (
      var last := container.portMappings.value[|container.portMappings.value| - 1];
      r == if last.ListenerEntry? then Some(last.listener) else None)
    ensures container.portMappings.None? && (container.applicationListener.Some? || container.networkListener.Some?) ==>
      r == Some(ContainerListener(name, container))
  {
    if container.portMappings.Some? then
      var entries := container.portMappings.value;
      if |entries| > 0 && entries[|entries| - 1].ListenerEntry? then Some(entries[|entries| - 1].listener) else None
    else if container.applicationListener.Some? || container.networkListener.Some? then Some(ContainerListener(name, container))
    else None
  }

  /** The records after `getPortMappings`: the possible listener, if any, stored by its own kind under the container's name. */
  function LegacyRecordsAfter(records: (map<string, Listener>, map<string, Listener>), name: string, containerName: string,
                              container: Container, hasVpc: bool): (map<string, Listener>, map<string, Listener>)
  {
    var listener := PossibleListener(name, container);
    if LegacyPortMappings(name, container, hasVpc).Fail? || listener.None? then records
    else if listener.value.kind == Application then (records.0[containerName := listener.value], records.1)
    else (records.0, records.1[containerName := listener.value])
  }

  /** `getPortMappings` with its `possibleListener` variable. */
  method LegacyGetPortMappings(listeners: ListenerRecords, name: string, containerName: string, container: Container,
                               hasVpc: bool) returns (r: Result<Option<seq<PortMapping>>>)
    modifies listeners
    ensures r == LegacyPortMappings(name, container, hasVpc)
    ensures listeners.Records() == LegacyRecordsAfter(old(listeners.Records()), name, containerName, container, hasVpc)
  {
    var hasListener := container.applicationListener.Some? || container.networkListener.Some?;
    if container.applicationListener.Some? && container.networkListener.Some? {
      return Fail(BothListeners(name));
    }
    if container.portMappings.None? && !hasListener {
      return Ok(None);
    }
    if container.portMappings.Some? && hasListener {
      return Fail(MappingsAndAListener(name));
    }
    var result: seq<PortMapping> := [];
    var possibleListener: Option<PortMappingEntry> := None;
    if container.portMappings.Some? {
      var entries := container.portMappings.value;
      var i := 0;
      while i < |entries|
        invariant 0 <= i <= |entries|
        invariant result == EntryMappings(entries[..i])
        invariant possibleListener == if i == 0 then None else Some(entries[i - 1])
      {
        assert entries[..i + 1][..i] == entries[..i];
        result := result + [EntryMapping(entries[i])];
        possibleListener := Some(entries[i]);
        i := i + 1;
      }
      assert entries[..|entries|] == entries;
    } else {
      if NeedsVpc(container) && !hasVpc {
        return Fail(VpcRequired(name));
      }
      var listener := ContainerListener(name, container);
      possibleListener := Some(ListenerEntry(listener));
      result := [listener.portMapping];
    }
    if possibleListener.Some? && possibleListener.value.ListenerEntry? {
      var listener := possibleListener.value.listener;
      if listener.kind == Application {
        listeners.applicationListeners := listeners.applicationListeners[containerName := listener];
      } else {
        listeners.networkListeners := listeners.networkListeners[containerName := listener];
      }
    }
    var converted := ConvertMappings(result);
    r := Ok(Some(converted));
  }

  /**
   * `computeContainerDefinition`: as in awsx, except that the awslogs
   * configuration is added only when the container has none of its own.
   */
  method LegacyComputeContainerDefinition(listeners: ListenerRecords, name: string, containerName: string,
                                          container: Container, hasVpc: bool, logGroupId: Option<string>, region: string)
    returns (r: Result<ContainerDefinition>)
    modifies listeners
    ensures r.Fail? <==> LegacyPortMappings(name, container, hasVpc).Fail?
    ensures r.Fail? ==> r.error == LegacyPortMappings(name, container, hasVpc).error
    ensures r.Ok? ==> r.value == ContainerDefinition(containerName,
      ImageAndEnvironment(container).0, ImageAndEnvironment(container).1, LegacyPortMappings(name, container, hasVpc).value,
      if container.logConfiguration.None? && logGroupId.Some? then Some(AwsLogs(logGroupId.value, region, containerName))
      else container.logConfiguration)
    ensures listeners.Records() == LegacyRecordsAfter(old(listeners.Records()), name, containerName, container, hasVpc)
  {
    var imageAndEnvironment := ImageAndEnvironment(container);
    var portMappings := LegacyGetPortMappings(listeners, name, containerName, container, hasVpc);
    if portMappings.Fail? {
      return Fail(portMappings.error);
    }
    var logConfiguration := container.logConfiguration;
    if logConfiguration.None? && logGroupId.Some? {
      logConfiguration := Some(AwsLogs(logGroupId.value, region, containerName));
    }
    r := Ok(ContainerDefinition(containerName, imageAndEnvironment.0, imageAndEnvironment.1, portMappings.value,
                                logConfiguration));
  }

  /**
   * Where awsx records every listener entry, the legacy layer looks at the
   * last entry only: a listener followed by a plain mapping is recorded by
   * awsx and not here.
   */
  lemma OnlyLastEntryRecorded(records: (map<string, Listener>, map<string, Listener>), name: string,
                              listener: Listener, mapping: PortMapping, hasVpc: bool)
    requires listener.kind == Application
    ensures var container := Container(ImageName("app"), None, Some([ListenerEntry(listener), PlainMapping(mapping)]),
                                       None, None, None);
      RecordsAfter(records, name, container).0 == records.0[name := listener]
      && LegacyRecordsAfter(records, name, name, container, hasVpc) == records
  {
    var container := Container(ImageName("app"), None, Some([ListenerEntry(listener), PlainMapping(mapping)]),
                               None, None, None);
    var entries := container.portMappings.value;
    RecordEntriesKeepsLast(records, name, entries);
    assert entries[..1] == [ListenerEntry(listener)];
    assert LastListener(entries, Application) == Some(listener);
  }

  /** A given network listener passed as `applicationListener` is recorded as a network listener here. */
  lemma RecordedByOwnKind(records: (map<string, Listener>, map<string, Listener>), name: string, listener: Listener,
                          hasVpc: bool)
    requires listener.kind == Network
    ensures var container := Container(ImageName("app"), None, None, Some(GivenListener(listener)), None, None);
      LegacyRecordsAfter(records, name, name, container, hasVpc) == (records.0, records.1[name := listener])
      && RecordsAfter(records, name, container) == (records.0[name := listener], records.1)
  {
  }
}
