// The Fargate task definition and service of the awsx ECS package
// (nodejs/awsx/ecs/fargateService.ts): the table of supported Fargate
// sizes, the sums of what the containers request, the cheapest size that
// covers them, and the argument checks and defaults of the constructors.
//
// Sizes are integers: CPU in CPU units (1 vCPU = 1024 units), memory in
// MiB (1 GB = 1024 MiB), and cost as the hourly price times 1024 * 10^6,
// so that 0.04048 * vcpu + 0.004445 * gb becomes 40480 * cpu + 4445 * memory.
module AwsxFargateService {
  import opened Wrappers
  import opened Text

  /** The errors the module raises. */
  datatype FargateError =
    | InvalidLow(low: int)
    | InvalidHigh(high: int)
    | InvalidVcpu(cpu: int)
    | NoContainers
    | TaskDefinitionGiven
    | TaskDefinitionArgsGiven
    | NoTaskDefinition

  /** The text of an error. */
  function Message(e: FargateError): string
  {
    match e
      case InvalidLow(low) => "Invalid low: " + IntToString(low)
      case InvalidHigh(high) => "Invalid high: " + IntToString(high)
      case InvalidVcpu(cpu) => "Invalid vcpu: " + Over1024Text(cpu)
      case NoContainers => "Either [container] or [containers] must be provided"
      case TaskDefinitionGiven => "[args.taskDefinition] should not be provided."
      case TaskDefinitionArgsGiven => "[args.taskDefinitionArgs] should not be provided."
      case NoTaskDefinition => "Either [taskDefinition] or [taskDefinitionArgs] must be provided"
  }

  /** `s` with '0's put in front until it has `width` characters. */
  function PadZeros(s: string, width: nat): (r: string)
    ensures |r| == if |s| < width then width else |s|
    decreases width - |s|
  {
    if |s| < width then PadZeros("0" + s, width) else s
  }

  /** `s` without its trailing '0's. */
  function TrimZeros(s: string): (r: string)
    ensures |r| <= |s|
  {
    if |s| > 0 && s[|s| - 1] == '0' then TrimZeros(s[..|s| - 1]) else s
  }

  /**
   * JavaScript's text of n / 1024, a vCPU count given in CPU units: the
   * quotient is exact in binary floating point, so its decimal expansion
   * has at most ten digits after the point.
   */
  function Over1024Text(n: int): string
    decreases if n < 0 then 1 else 0
  {
    if n < 0 then "-" + Over1024Text(-n)
    else if n % 1024 == 0 then IntToString(n / 1024)
    else IntToString(n / 1024) + "." + TrimZeros(PadZeros(IntToString(n % 1024 * 9765625), 10))
  }

  // ---------------------------------------------------------------------
  // The table of Fargate sizes

  /** A supported Fargate size and its scaled hourly cost. */
  datatype FargateConfig = FargateConfig(cpu: int, memory: int, cost: int)

  /** `0.04048 * vcpu + 0.004445 * memGB`, scaled by 1024 * 10^6. */
  function Cost(cpu: int, memory: int): int
  {
    40480 * cpu + 4445 * memory
  }

  /** What `makeMemoryConfigs(low, high)` yields: every whole GB from low to high, in MiB. */
  function MemoryRange(low: int, high: int): (r: seq<int>)
    ensures |r| == if low <= high then high - low + 1 else 0
    ensures forall k :: 0 <= k < |r| ==> r[k] == (low + k) * 1024
  {
    seq(if low <= high then high - low + 1 else 0, k => (low + k) * 1024)
  }

  /** What `makeFargateConfigs(vcpu, memory)` yields: one size per memory value, in order. */
  function FargateConfigs(cpu: int, memories: seq<int>): (r: seq<FargateConfig>)
    ensures |r| == |memories|
    ensures forall k :: 0 <= k < |r| ==> r[k] == FargateConfig(cpu, memories[k], Cost(cpu, memories[k]))
  {
    seq(|memories|, k requires 0 <= k < |memories| => FargateConfig(cpu, memories[k], Cost(cpu, memories[k])))
  }

  /** `makeMemoryConfigs`: rejects a low bound under 1 GB and a high bound over 30 GB. */
  method MakeMemoryConfigs(low: int, high: int) returns (r: Result<seq<int>>)
    ensures low < 1 ==> r == Fail(Message(InvalidLow(low)))
    ensures 1 <= low && high > 30 ==> r == Fail(Message(InvalidHigh(high)))
    ensures 1 <= low && high <= 30 ==> r == Ok(MemoryRange(low, high))
  {
    if low < 1 {
      return Fail(Message(InvalidLow(low)));
    }
    if high > 30 {
      return Fail(Message(InvalidHigh(high)));
    }
    var memories: seq<int> := [];
    var i := low;
    while i <= high
      invariant low <= i <= if low <= high then high + 1 else low
      invariant |memories| == i - low
      invariant forall k :: 0 <= k < |memories| ==> memories[k] == (low + k) * 1024
    {
      memories := memories + [i * 1024];
      i := i + 1;
    }
    assert memories == MemoryRange(low, high);
    return Ok(memories);
  }

  /** `makeFargateConfigs`: rejects a vCPU count outside [.25, 4]. */
  method MakeFargateConfigs(cpu: int, memories: seq<int>) returns (r: Result<seq<FargateConfig>>)
    ensures cpu < 256 || cpu > 4096 ==> r == Fail(Message(InvalidVcpu(cpu)))
    ensures 256 <= cpu <= 4096 ==> r == Ok(FargateConfigs(cpu, memories))
  {
    if cpu < 256 || cpu > 4096 {
      return Fail(Message(InvalidVcpu(cpu)));
    }
    var configs: seq<FargateConfig> := [];
    for i := 0 to |memories|
      invariant |configs| == i
      invariant forall k :: 0 <= k < i ==> configs[k] == FargateConfig(cpu, memories[k], Cost(cpu, memories[k]))
    {
      configs := configs + [FargateConfig(cpu, memories[i], Cost(cpu, memories[i]))];
    }
    assert configs == FargateConfigs(cpu, memories);
    return Ok(configs);
  }

  /** `getAllFargateConfigs`: .25 vCPU with 0.5, 1 or 2 GB, .5 with 1-4 GB, 1 with 2-8, 2 with 4-16, 4 with 8-30. */
  function AllFargateConfigs(): (r: seq<FargateConfig>)
  {
    FargateConfigs(256, [512, 1024, 2048])
    + FargateConfigs(512, MemoryRange(1, 4))
    + FargateConfigs(1024, MemoryRange(2, 8))
    + FargateConfigs(2048, MemoryRange(4, 16))
    + FargateConfigs(4096, MemoryRange(8, 30))
  }

  /** The generator run to the end: none of its fixed arguments is rejected. */
  method GetAllFargateConfigs() returns (configs: seq<FargateConfig>)
    ensures configs == AllFargateConfigs()
  {
    var quarter := MakeFargateConfigs(256, [512, 1024, 2048]);
    var memories := MakeMemoryConfigs(1, 4);
    var half := MakeFargateConfigs(512, memories.value);
    memories := MakeMemoryConfigs(2, 8);
    var one := MakeFargateConfigs(1024, memories.value);
    memories := MakeMemoryConfigs(4, 16);
    var two := MakeFargateConfigs(2048, memories.value);
    memories := MakeMemoryConfigs(8, 30);
    var four := MakeFargateConfigs(4096, memories.value);
    configs := quarter.value + half.value + one.value + two.value + four.value;
  }

  /** The CPU and memory pairs AWS supports for Fargate tasks. */
  predicate Supported(cpu: int, memory: int)
  {
    || (cpu == 256 && (memory == 512 || memory == 1024 || memory == 2048))
    || (cpu == 512 && memory % 1024 == 0 && 1024 <= memory <= 4096)
    || (cpu == 1024 && memory % 1024 == 0 && 2048 <= memory <= 8192)
    || (cpu == 2048 && memory % 1024 == 0 && 4096 <= memory <= 16384)
    || (cpu == 4096 && memory % 1024 == 0 && 8192 <= memory <= 30720)
  }

  /** A whole number of GB lies in a memory range exactly when it is between its bounds. */
  lemma MemoryRangeMember(low: int, high: int, m: int)
    ensures m in MemoryRange(low, high) <==> m % 1024 == 0 && low * 1024 <= m <= high * 1024
  {
    if m % 1024 == 0 && low * 1024 <= m <= high * 1024 {
      var k := m / 1024 - low;
      assert MemoryRange(low, high)[k] == m;
    }
  }

  /** The sizes of one vCPU count are the memory values given to it. */
  lemma FargateConfigsMember(cpu: int, memories: seq<int>, c: FargateConfig)
    ensures c in FargateConfigs(cpu, memories) <==> c.cpu == cpu && c.memory in memories && c.cost == Cost(cpu, c.memory)
  {
    if c.cpu == cpu && c.memory in memories && c.cost == Cost(cpu, c.memory) {
      var k :| 0 <= k < |memories| && memories[k] == c.memory;
      assert FargateConfigs(cpu, memories)[k] == c;
    }
  }

  /** The table holds exactly the supported sizes, each priced by `Cost`, fifty of them. */
  lemma AllConfigsSupported(c: FargateConfig)
    ensures c in AllFargateConfigs() <==> Supported(c.cpu, c.memory) && c.cost == Cost(c.cpu, c.memory)
    ensures |AllFargateConfigs()| == 50
  {
    FargateConfigsMember(256, [512, 1024, 2048], c);
    FargateConfigsMember(512, MemoryRange(1, 4), c);
    FargateConfigsMember(1024, MemoryRange(2, 8), c);
    FargateConfigsMember(2048, MemoryRange(4, 16), c);
    FargateConfigsMember(4096, MemoryRange(8, 30), c);
    MemoryRangeMember(1, 4, c.memory);
    MemoryRangeMember(2, 8, c.memory);
    MemoryRangeMember(4, 16, c.memory);
    MemoryRangeMember(8, 30, c.memory);
  }

  // ---------------------------------------------------------------------
  // What the containers request

  /** The sizing fields of a container definition; 0 counts as not given. */
  datatype Container = Container(memoryReservation: Option<int>, memory: Option<int>, cpu: Option<int>)

  /** JavaScript truthiness of an optional number. */
  predicate Truthy(n: Option<int>)
  {
    n.Some? && n.value != 0
  }

  /** The memory a container asks for: its reservation, else its hard limit, else nothing. */
  function MemoryOf(c: Container): int
  {
    if Truthy(c.memoryReservation) then c.memoryReservation.value
    else if Truthy(c.memory) then c.memory.value
    else 0
  }

  /** The CPU units a container asks for. */
  function CpuOf(c: Container): int
  {
    if Truthy(c.cpu) then c.cpu.value else 0
  }

  /** The memory all containers ask for, in MiB. */
  function TotalMemory(containers: seq<(string, Container)>): int
  {
    if |containers| == 0 then 0
    else TotalMemory(containers[..|containers| - 1]) + MemoryOf(containers[|containers| - 1].1)
  }

  /** The CPU units all containers ask for. */
  function TotalCpu(containers: seq<(string, Container)>): int
  {
    if |containers| == 0 then 0
    else TotalCpu(containers[..|containers| - 1]) + CpuOf(containers[|containers| - 1].1)
  }

  /** The totals add up over two groups of containers. */
  lemma {:induction false} TotalsAppend(a: seq<(string, Container)>, b: seq<(string, Container)>)
    ensures TotalMemory(a + b) == TotalMemory(a) + TotalMemory(b)
    ensures TotalCpu(a + b) == TotalCpu(a) + TotalCpu(b)
    decreases |b|
  {
    if |b| > 0 {
      TotalsAppend(a, b[..|b| - 1]);
      assert (a + b)[..|a + b| - 1] == a + b[..|b| - 1];
    } else {
      assert a + b == a;
    }
  }

  /** `getRequestedVCPUandMemory`: the loop summing what each container asks for. */
  method GetRequestedCpuAndMemory(containers: seq<(string, Container)>) returns (cpu: int, memory: int)
    ensures cpu == TotalCpu(containers) && memory == TotalMemory(containers)
  {
    cpu, memory := 0, 0;
    for i := 0 to |containers|
      invariant cpu == TotalCpu(containers[..i]) && memory == TotalMemory(containers[..i])
    {
      var c := containers[i].1;
      if Truthy(c.memoryReservation) {
        memory := memory + c.memoryReservation.value;
      } else if Truthy(c.memory) {
        memory := memory + c.memory.value;
      }
      if Truthy(c.cpu) {
        cpu := cpu + c.cpu.value;
      }
      assert containers[..i + 1][..i] == containers[..i];
    }
    assert containers[..|containers|] == containers;
  }

  // ---------------------------------------------------------------------
  // Choosing a size

  function Min(a: int, b: int): int
  {
    if a <= b then a else b
  }

  /** A size covers a request once the request is capped at 4 vCPU and 30 GB. */
  predicate Fits(c: FargateConfig, cpu: int, memory: int)
  {
    c.cpu >= Min(cpu, 4096) && c.memory >= Min(memory, 30720)
  }

  /** `configs.filter(...)`: the sizes that cover the request, in table order. */
  function FittingConfigs(configs: seq<FargateConfig>, cpu: int, memory: int): (r: seq<FargateConfig>)
    ensures forall c :: c in r <==> c in configs && Fits(c, cpu, memory)
  {
    if |configs| == 0 then []
    else (if Fits(configs[0], cpu, memory) then [configs[0]] else []) + FittingConfigs(configs[1..], cpu, memory)
  }

  /** The first position of a lowest cost: where a stable sort by cost puts its first element from. */
  function CheapestIndex(s: seq<FargateConfig>): (r: nat)
    requires |s| > 0
    ensures r < |s|
    ensures forall j :: 0 <= j < |s| ==> s[r].cost <= s[j].cost
    ensures forall j :: 0 <= j < r ==> s[j].cost > s[r].cost
  {
    if |s| == 1 then 0
    else
      var k := CheapestIndex(s[1..]);
      if s[0].cost <= s[1 + k].cost then 0 else 1 + k
  }

  /** The largest size covers every request, so the filter is never empty. */
  lemma LargestFits(cpu: int, memory: int)
    ensures FargateConfig(4096, 30720, Cost(4096, 30720)) in FittingConfigs(AllFargateConfigs(), cpu, memory)
  {
    AllConfigsSupported(FargateConfig(4096, 30720, Cost(4096, 30720)));
  }

  /**
   * The size chosen for a request: a supported size that covers it, and
   * none that covers it costs less. The "Could not find fargate config"
   * error cannot be raised.
   */
  function ChosenConfig(cpu: int, memory: int): (r: FargateConfig)
    ensures r in AllFargateConfigs() && Fits(r, cpu, memory)
    ensures Supported(r.cpu, r.memory)
    ensures forall c :: c in AllFargateConfigs() && Fits(c, cpu, memory) ==> r.cost <= c.cost
  {
    var fitting := FittingConfigs(AllFargateConfigs(), cpu, memory);
    LargestFits(cpu, memory);
    var r := fitting[CheapestIndex(fitting)];
    AllConfigsSupported(r);
    r
  }

  /** Asking for no more CPU and memory never yields a dearer size. */
  lemma ChosenMonotone(cpu: int, memory: int, cpu': int, memory': int)
    requires cpu <= cpu' && memory <= memory'
    ensures ChosenConfig(cpu, memory).cost <= ChosenConfig(cpu', memory').cost
  {
  }

  /** What `computeFargateMemoryAndCPU` returns: the memory in MiB and the CPU units, as decimal text. */
  datatype FargateSize = FargateSize(memory: string, cpu: string)

  /** The size for a set of containers. */
  function FargateSizeFor(containers: seq<(string, Container)>): (r: FargateSize)
    ensures exists c :: (c in AllFargateConfigs() && Fits(c, TotalCpu(containers), TotalMemory(containers))
      && r == FargateSize(IntToString(c.memory), IntToString(c.cpu)))
  {
    var c := ChosenConfig(TotalCpu(containers), TotalMemory(containers));
    FargateSize(IntToString(c.memory), IntToString(c.cpu))
  }

  /**
   * `computeFargateMemoryAndCPU`: sums the requests, caps them, filters the
   * table and takes the cheapest size that covers them.
   */
  method ComputeFargateMemoryAndCpu(containers: seq<(string, Container)>) returns (size: FargateSize)
    ensures size == FargateSizeFor(containers)
  {
    var cpu, memory := GetRequestedCpuAndMemory(containers);
    var requestedCpu := Min(cpu, 4096);
    var requestedMemory := Min(memory, 30720);
    var configs := GetAllFargateConfigs();
    var valid := FittingConfigs(configs, requestedCpu, requestedMemory);
    assert FittingConfigs(configs, requestedCpu, requestedMemory) == FittingConfigs(configs, cpu, memory) by {
      FittingCapped(configs, cpu, memory);
    }
    LargestFits(cpu, memory);
    var config := valid[CheapestIndex(valid)];
    return FargateSize(IntToString(config.memory), IntToString(config.cpu));
  }

  /** Capping a request before filtering changes nothing. */
  lemma {:induction false} FittingCapped(configs: seq<FargateConfig>, cpu: int, memory: int)
    ensures FittingConfigs(configs, Min(cpu, 4096), Min(memory, 30720)) == FittingConfigs(configs, cpu, memory)
  {
    if |configs| > 0 {
      FittingCapped(configs[1..], cpu, memory);
    }
  }

  // ---------------------------------------------------------------------
  // The task definition and the service

  /** The arguments of a `FargateTaskDefinition` that the model reads. */
  datatype TaskDefinitionArgs = TaskDefinitionArgs(
    container: Option<Container>,
    containers: Option<seq<(string, Container)>>,
    memory: Option<string>,
    cpu: Option<string>)

  /** The arguments the task definition hands to its base class. */
  datatype TaskDefinition = TaskDefinition(
    containers: seq<(string, Container)>,
    requiresCompatibilities: seq<string>,
    networkMode: string,
    memory: string,
    cpu: string)

  /** `args.containers || { container: args.container }`. */
  function ContainersOf(args: TaskDefinitionArgs): (r: Option<seq<(string, Container)>>)
    ensures r.None? <==> args.container.None? && args.containers.None?
  {
    if args.containers.Some? then args.containers
    else if args.container.Some? then Some([("container", args.container.value)])
    else None
  }

  /**
   * The `FargateTaskDefinition` constructor: a container or a map of
   * containers is required; the task is Fargate-only on awsvpc, and the
   * caller's memory and CPU win over the computed ones.
   */
  function TaskDefinitionFor(args: TaskDefinitionArgs): (r: Result<TaskDefinition>)
    ensures r.Fail? <==> args.container.None? && args.containers.None?
    ensures r.Fail? ==> r.error == Message(NoContainers)
    ensures r.Ok? ==> r.value.requiresCompatibilities == ["FARGATE"] && r.value.networkMode == "awsvpc"
    ensures r.Ok? && args.containers.Some? ==> r.value.containers == args.containers.value
    ensures r.Ok? && args.containers.None? ==> r.value.containers == [("container", args.container.value)]
    ensures r.Ok? ==> var computed := FargateSizeFor(r.value.containers);
      && r.value.memory == args.memory.GetOr(computed.memory)
      && r.value.cpu == args.cpu.GetOr(computed.cpu)
  {
    var containers := ContainersOf(args);
    if containers.None? then Fail(Message(NoContainers))
    else
      var computed := FargateSizeFor(containers.value);
      Ok(TaskDefinition(containers.value, ["FARGATE"], "awsvpc",
        args.memory.GetOr(computed.memory), args.cpu.GetOr(computed.cpu)))
  }

  /** The constructor run: the size is computed before the caller's values are applied. */
  method NewFargateTaskDefinition(args: TaskDefinitionArgs) returns (r: Result<TaskDefinition>)
    ensures r == TaskDefinitionFor(args)
  {
    if args.container.None? && args.containers.None? {
      return Fail(Message(NoContainers));
    }
    var containers := if args.containers.Some? then args.containers.value else [("container", args.container.value)];
    var computed := ComputeFargateMemoryAndCpu(containers);
    return Ok(TaskDefinition(containers, ["FARGATE"], "awsvpc",
      args.memory.GetOr(computed.memory), args.cpu.GetOr(computed.cpu)));
  }

  /** The subnet ids of a cluster's VPC. */
  datatype Vpc = Vpc(publicSubnetIds: seq<string>, privateSubnetIds: seq<string>)

  /** A cluster: its VPC and its security group ids. */
  datatype Cluster = Cluster(vpc: Vpc, securityGroups: seq<string>)

  /** The arguments of a `FargateService` that the model reads. */
  datatype ServiceArgs = ServiceArgs(
    cluster: Option<Cluster>,
    taskDefinition: Option<TaskDefinition>,
    taskDefinitionArgs: Option<TaskDefinitionArgs>,
    assignPublicIp: Option<bool>,
    subnets: Option<seq<string>>,
    securityGroups: Option<seq<string>>)

  /** What the service hands to its base class. */
  datatype Service = Service(
    taskDefinition: TaskDefinition,
    launchType: string,
    subnets: seq<string>,
    assignPublicIp: bool,
    securityGroups: seq<string>)

  /** `getSubnets`: explicit subnets win; otherwise the public subnets when a public IP is assigned, else the private ones. */
  function GetSubnets(vpc: Vpc, subnets: Option<seq<string>>, assignPublicIp: bool): (r: seq<string>)
    ensures subnets.Some? ==> r == subnets.value
    ensures subnets.None? && assignPublicIp ==> r == vpc.publicSubnetIds
    ensures subnets.None? && !assignPublicIp ==> r == vpc.privateSubnetIds
  {
    if subnets.Some? then subnets.value
    else if assignPublicIp then vpc.publicSubnetIds else vpc.privateSubnetIds
  }

  /**
   * The `FargateService` constructor: a task definition or its arguments is
   * required; the cluster defaults to the default cluster, a public IP is
   * assigned unless told otherwise, and the launch type is FARGATE.
   */
  function ServiceFor(args: ServiceArgs, defaultCluster: Cluster): (r: Result<Service>)
    ensures args.taskDefinition.None? && args.taskDefinitionArgs.None? ==> r == Fail(Message(NoTaskDefinition))
    ensures args.taskDefinition.Some? ==> r.Ok? && r.value.taskDefinition == args.taskDefinition.value
    ensures args.taskDefinition.None? && args.taskDefinitionArgs.Some? ==>
      (r.Ok? <==> TaskDefinitionFor(args.taskDefinitionArgs.value).Ok?)
    ensures r.Ok? ==> var cluster := args.cluster.GetOr(defaultCluster);
      && r.value.launchType == "FARGATE"
      && r.value.assignPublicIp == args.assignPublicIp.GetOr(true)
      && r.value.subnets == GetSubnets(cluster.vpc, args.subnets, args.assignPublicIp.GetOr(true))
      && r.value.securityGroups == args.securityGroups.GetOr(cluster.securityGroups)
  {
    if args.taskDefinition.None? && args.taskDefinitionArgs.None? then Fail(Message(NoTaskDefinition))
    else
      var cluster := args.cluster.GetOr(defaultCluster);
      var taskDefinition :=
        if args.taskDefinition.Some? then Ok(args.taskDefinition.value)
        else TaskDefinitionFor(args.taskDefinitionArgs.value);
      if taskDefinition.Fail? then Fail(taskDefinition.error)
      else
        var assignPublicIp := args.assignPublicIp.GetOr(true);
        Ok(Service(taskDefinition.value, "FARGATE", GetSubnets(cluster.vpc, args.subnets, assignPublicIp),
          assignPublicIp, args.securityGroups.GetOr(cluster.securityGroups)))
  }

  /** The service constructor run: the task definition is made only when none is given. */
  method NewFargateService(args: ServiceArgs, defaultCluster: Cluster) returns (r: Result<Service>)
    ensures r == ServiceFor(args, defaultCluster)
  {
    if args.taskDefinition.None? && args.taskDefinitionArgs.None? {
      return Fail(Message(NoTaskDefinition));
    }
    var cluster := args.cluster.GetOr(defaultCluster);
    var taskDefinition: TaskDefinition;
    if args.taskDefinition.Some? {
      taskDefinition := args.taskDefinition.value;
    } else {
      var made := NewFargateTaskDefinition(args.taskDefinitionArgs.value);
      if made.Fail? {
        return Fail(made.error);
      }
      taskDefinition := made.value;
    }
    var assignPublicIp := args.assignPublicIp.GetOr(true);
    var subnets := GetSubnets(cluster.vpc, args.subnets, assignPublicIp);
    return Ok(Service(taskDefinition, "FARGATE", subnets, assignPublicIp, args.securityGroups.GetOr(cluster.securityGroups)));
  }

  /**
   * `createService` on a task definition: the caller may not pass a task
   * definition or its arguments; the service then runs this one.
   */
  method CreateService(taskDefinition: TaskDefinition, args: ServiceArgs, defaultCluster: Cluster) returns (r: Result<Service>)
    ensures args.taskDefinition.Some? ==> r == Fail(Message(TaskDefinitionGiven))
    ensures args.taskDefinition.None? && args.taskDefinitionArgs.Some? ==> r == Fail(Message(TaskDefinitionArgsGiven))
    ensures args.taskDefinition.None? && args.taskDefinitionArgs.None? ==>
      r == ServiceFor(args.(taskDefinition := Some(taskDefinition)), defaultCluster)
    ensures r.Ok? ==> r.value.taskDefinition == taskDefinition
  {
    if args.taskDefinition.Some? {
      return Fail(Message(TaskDefinitionGiven));
    }
    if args.taskDefinitionArgs.Some? {
      return Fail(Message(TaskDefinitionArgsGiven));
    }
    r := NewFargateService(args.(taskDefinition := Some(taskDefinition)), defaultCluster);
  }
}
