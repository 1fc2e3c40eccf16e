// The Fargate task definition and service of the experimental aws-infra
// ECS package (nodejs/aws-infra/experimental/fargateService.ts). Unlike
// the awsx version it does not search a table: memory is rounded up to
// whole GB (or 0.5 GB), CPU to a power of two of at least 256 units, and
// CPU is then raised to what the memory needs.
//
// The rounding never raises memory to what the CPU needs, so a large CPU
// request with a small memory request gives a pair Fargate does not offer
// (`AsWrittenUnsupported`); `CorrectedSize` raises the memory as well, and
// the task definition uses it.
module InfraFargateService {
  import opened Wrappers
  import opened Text
  import opened Cidr
  import SubnetDistributorLegacy
  import Awsx = AwsxFargateService

  /** The errors the module raises. */
  datatype InfraFargateError =
    | NoContainers
    | TaskDefinitionGiven
    | TaskDefinitionArgsGiven
    | NoTaskDefinition

  /** The text of an error. */
  function Message(e: InfraFargateError): string
  {
    match e
    case NoContainers => "Either [container] or [containers] must be provided"
    case TaskDefinitionGiven => "[args.taskDefinition] should not be provided."
    case TaskDefinitionArgsGiven => "[args.taskDefinitionArgs] should not be provided."
    case NoTaskDefinition => "Either [taskDefinition] or [taskDefinitionArgs] must be provided"
  }

  /** A task size: memory in MiB with its text, and CPU units. */
  datatype TaskSize = TaskSize(memory: int, memoryText: string, cpu: int)

  function Max(a: int, b: int): int
  {
    if a >= b then a else b
  }

  /** `Math.ceil(m / 1024)`: the whole GB that hold m MiB. */
  function WholeGb(m: int): (r: int)
    requires m > 0
    ensures r * 1024 >= m && (r - 1) * 1024 < m && r >= 1
  {
    (m + 1023) / 1024
  }

  /** The memory text of a size: "0.5GB", or the whole GB. */
  function GbText(memory: int): string
  {
    if memory == 512 then "0.5GB" else IntToString(memory / 1024) + "GB"
  }

  /** `Math.pow(2, Math.ceil(Math.log2(Math.max(minTaskCPU, 256))))`. */
  function BaseCpu(minCpu: int): (r: int)
    ensures r >= 256 && r >= minCpu
  {
    Pow2(SubnetDistributorLegacy.Log2Ceil(Max(minCpu, 256)))
  }

  /** The CPU the if-chain requires for a memory size. */
  function CpuFloor(memory: int): int
  {
    if memory > 16384 then 4096
    else if memory > 8192 then 2048
    else if memory > 4096 then 1024
    else if memory > 2048 then 512
    else 0
  }

  /** The size the source computes for the summed requests. */
  function SizeAsWritten(minMemory: int, minCpu: int): (r: TaskSize)
    ensures r.memory >= minMemory && r.memory >= 512
    ensures r.cpu >= minCpu && r.cpu >= 256 && r.cpu >= CpuFloor(r.memory)
  {
    var memory := if minMemory <= 512 then 512 else WholeGb(minMemory) * 1024;
    var text := if minMemory <= 512 then "0.5GB" else IntToString(WholeGb(minMemory)) + "GB";
    TaskSize(memory, text, Max(BaseCpu(minCpu), CpuFloor(memory)))
  }

  /**
   * `computeFargateMemoryAndCPU`: the loop summing the containers'
   * requests, the memory rounding, the power of two, and the if-chain that
   * raises CPU for large memory.
   */
  method ComputeFargateMemoryAndCpu(containers: seq<(string, Awsx.Container)>) returns (size: TaskSize)
    ensures size == SizeAsWritten(Awsx.TotalMemory(containers), Awsx.TotalCpu(containers))
  {
    var minTaskCpu, minTaskMemory := Awsx.GetRequestedCpuAndMemory(containers);
    var taskMemory: int;
    var taskMemoryText: string;
    if minTaskMemory <= 512 {
      taskMemory := 512;
      taskMemoryText := "0.5GB";
    } else {
      var wholeGb := WholeGb(minTaskMemory);
      taskMemory := wholeGb * 1024;
      taskMemoryText := IntToString(wholeGb) + "GB";
    }
    var taskCpu := BaseCpu(minTaskCpu);
    if taskMemory > 16384 {
      taskCpu := Max(taskCpu, 4096);
    } else if taskMemory > 8192 {
      taskCpu := Max(taskCpu, 2048);
    } else if taskMemory > 4096 {
      taskCpu := Max(taskCpu, 1024);
    } else if taskMemory > 2048 {
      taskCpu := Max(taskCpu, 512);
    }
    return TaskSize(taskMemory, taskMemoryText, taskCpu);
  }

  /** A power of two. */
  ghost predicate IsPow2(n: int)
  {
    exists k: nat :: Pow2(k) == n
  }

  /** Powers of two between 256 and 4096 are the five Fargate CPU sizes. */
  lemma CpuSizes(k: nat)
    requires 256 <= Pow2(k) <= 4096
    ensures Pow2(k) in {256, 512, 1024, 2048, 4096}
  {
    assert Pow2(8) == 256 by {
      assert Pow2(4) == 16;
      Pow2Add(4, 4);
    }
    if k < 8 {
      Pow2Monotone(k, 7);
    } else if k > 12 {
      Pow2Monotone(13, k);
    } else {
      assert Pow2(9) == 512 && Pow2(10) == 1024 && Pow2(11) == 2048 && Pow2(12) == 4096;
    }
  }

  /**
   * The size covers the request with the least whole-GB memory (or 0.5 GB)
   * and the least power of two of CPU the memory allows; its text matches
   * its memory.
   */
  lemma SizeAsWrittenLeast(minMemory: int, minCpu: int)
    ensures var r := SizeAsWritten(minMemory, minCpu);
      && (r.memory == 512 || (r.memory % 1024 == 0 && r.memory - 1024 < minMemory))
      && r.memoryText == GbText(r.memory)
      && IsPow2(r.cpu)
      && (r.cpu == BaseCpu(minCpu) || r.cpu == CpuFloor(r.memory))
  {
    var r := SizeAsWritten(minMemory, minCpu);
    var k := SubnetDistributorLegacy.Log2Ceil(Max(minCpu, 256));
    assert Pow2(k) == BaseCpu(minCpu);
    if r.cpu == CpuFloor(r.memory) && r.cpu != BaseCpu(minCpu) {
      assert Pow2(8) == 256 by {
        assert Pow2(4) == 16;
        Pow2Add(4, 4);
      }
      assert Pow2(9) == 512 && Pow2(10) == 1024 && Pow2(11) == 2048 && Pow2(12) == 4096;
    }
    if minMemory > 512 {
      assert (WholeGb(minMemory) * 1024) / 1024 == WholeGb(minMemory);
    }
  }

  /** The smallest memory Fargate offers with a CPU size. */
  function MinMemoryFor(cpu: int): int
  {
    if cpu <= 256 then 512
    else if cpu <= 512 then 1024
    else if cpu <= 1024 then 2048
    else if cpu <= 2048 then 4096
    else 8192
  }

  /** The powers of two from 2^8 to 2^12. */
  lemma Pow2Table()
    ensures Pow2(8) == 256 && Pow2(9) == 512 && Pow2(10) == 1024 && Pow2(11) == 2048 && Pow2(12) == 4096
  {
    assert Pow2(4) == 16;
    Pow2Add(4, 4);
  }

  /** Up to four vCPU requested, the CPU chosen is one of the five Fargate sizes. */
  lemma CpuInSizes(minMemory: int, minCpu: int)
    requires minCpu <= 4096
    ensures SizeAsWritten(minMemory, minCpu).cpu in {256, 512, 1024, 2048, 4096}
  {
    var k := SubnetDistributorLegacy.Log2Ceil(Max(minCpu, 256));
    Pow2Table();
    if k > 12 {
      Pow2Monotone(12, k - 1);
    }
    CpuSizes(k);
  }

  /**
   * A CPU size with memory of whole GB (or 0.5 GB) between the least the
   * CPU needs and 30 GB, and no more than the CPU can serve, is offered.
   */
  lemma SupportedWhen(cpu: int, memory: int)
    requires cpu in {256, 512, 1024, 2048, 4096}
    requires memory == 512 || memory % 1024 == 0
    requires MinMemoryFor(cpu) <= memory <= 30720 && CpuFloor(memory) <= cpu
    ensures Awsx.Supported(cpu, memory)
  {
  }

  /**
   * Between two and four vCPU requested with at most 0.5 GB: the source
   * picks 0.5 GB with 4096 CPU units, a pair Fargate does not offer (four
   * vCPU need 8 to 30 GB).
   */
  lemma AsWrittenUnsupported(minMemory: int, minCpu: int)
    requires minMemory <= 512 && 2048 < minCpu <= 4096
    ensures SizeAsWritten(minMemory, minCpu).memory == 512 && SizeAsWritten(minMemory, minCpu).cpu == 4096
    ensures !Awsx.Supported(SizeAsWritten(minMemory, minCpu).cpu, SizeAsWritten(minMemory, minCpu).memory)
  {
    var k := SubnetDistributorLegacy.Log2Ceil(minCpu);
    Pow2Table();
    if k <= 11 {
      Pow2Monotone(k, 11);
    } else if k >= 13 {
      Pow2Monotone(12, k - 1);
    }
  }

  /** The size with memory also raised to what the CPU needs. */
  function CorrectedSize(minMemory: int, minCpu: int): (r: TaskSize)
    ensures r.memory >= minMemory && r.cpu >= minCpu
  {
    var s := SizeAsWritten(minMemory, minCpu);
    var memory := Max(s.memory, MinMemoryFor(s.cpu));
    TaskSize(memory, GbText(memory), s.cpu)
  }

  /**
   * Within Fargate's limits (4 vCPU, 30 GB) the corrected size is always a
   * pair Fargate offers, and it differs from the source's only where the
   * source's is not.
   */
  lemma CorrectedSupported(minMemory: int, minCpu: int)
    requires minCpu <= 4096 && minMemory <= 30720
    ensures Awsx.Supported(CorrectedSize(minMemory, minCpu).cpu, CorrectedSize(minMemory, minCpu).memory)
    ensures var s := SizeAsWritten(minMemory, minCpu);
      Awsx.Supported(s.cpu, s.memory) ==> CorrectedSize(minMemory, minCpu) == s
  {
    var s := SizeAsWritten(minMemory, minCpu);
    SizeAsWrittenLeast(minMemory, minCpu);
    CpuInSizes(minMemory, minCpu);
    if minMemory > 512 {
      assert WholeGb(minMemory) <= 30;
    }
    var memory := Max(s.memory, MinMemoryFor(s.cpu));
    SupportedWhen(s.cpu, memory);
  }

  /** The task definition with the corrected size: as `TaskDefinitionFor` in the awsx model, sized by `CorrectedSize`. */
  function TaskDefinitionFor(args: Awsx.TaskDefinitionArgs): (r: Result<Awsx.TaskDefinition>)
    ensures r.Fail? <==> args.container.None? && args.containers.None?
    ensures r.Fail? ==> r.error == Message(NoContainers)
    ensures r.Ok? ==> r.value.requiresCompatibilities == ["FARGATE"] && r.value.networkMode == "awsvpc"
    ensures r.Ok? ==> Some(r.value.containers) == Awsx.ContainersOf(args)
    ensures r.Ok? ==> var size := CorrectedSize(Awsx.TotalMemory(r.value.containers), Awsx.TotalCpu(r.value.containers));
      && r.value.memory == args.memory.GetOr(size.memoryText)
      && r.value.cpu == args.cpu.GetOr(IntToString(size.cpu))
  {
    var containers := Awsx.ContainersOf(args);
    if containers.None? then Fail(Message(NoContainers))
    else
      var size := CorrectedSize(Awsx.TotalMemory(containers.value), Awsx.TotalCpu(containers.value));
      Ok(Awsx.TaskDefinition(containers.value, ["FARGATE"], "awsvpc",
        args.memory.GetOr(size.memoryText), args.cpu.GetOr(IntToString(size.cpu))))
  }

  /** The `FargateTaskDefinition` constructor run: the source's size, then the memory correction. */
  method NewFargateTaskDefinition(args: Awsx.TaskDefinitionArgs) returns (r: Result<Awsx.TaskDefinition>)
    ensures r == TaskDefinitionFor(args)
  {
    if args.container.None? && args.containers.None? {
      return Fail(Message(NoContainers));
    }
    var containers := if args.containers.Some? then args.containers.value else [("container", args.container.value)];
    var size := ComputeFargateMemoryAndCpu(containers);
    var memory := Max(size.memory, MinMemoryFor(size.cpu));
    return Ok(Awsx.TaskDefinition(containers, ["FARGATE"], "awsvpc",
      args.memory.GetOr(GbText(memory)), args.cpu.GetOr(IntToString(size.cpu))));
  }

  /** The cluster's network: whether it uses private subnets, and its subnet ids. */
  datatype Network = Network(usePrivateSubnets: bool, subnetIds: seq<string>)

  /** A cluster: its network and its security group ids. */
  datatype Cluster = Cluster(network: Network, securityGroups: seq<string>)

  /** The arguments of a `FargateService` that the model reads; the cluster is required. */
  datatype ServiceArgs = ServiceArgs(
    cluster: Cluster,
    taskDefinition: Option<Awsx.TaskDefinition>,
    taskDefinitionArgs: Option<Awsx.TaskDefinitionArgs>)

  /** What the service hands to its base class. */
  datatype Service = Service(
    taskDefinition: Awsx.TaskDefinition,
    launchType: string,
    assignPublicIp: bool,
    securityGroups: seq<string>,
    subnets: seq<string>)

  /**
   * The `FargateService` constructor: a task definition or its arguments is
   * required; the service runs on the cluster's subnets with a public IP
   * exactly when the network does not use private subnets.
   */
  function ServiceFor(args: ServiceArgs): (r: Result<Service>)
    ensures args.taskDefinition.None? && args.taskDefinitionArgs.None? ==> r == Fail(Message(NoTaskDefinition))
    ensures args.taskDefinition.Some? ==> r.Ok? && r.value.taskDefinition == args.taskDefinition.value
    ensures args.taskDefinition.None? && args.taskDefinitionArgs.Some? ==>
      (r.Ok? <==> TaskDefinitionFor(args.taskDefinitionArgs.value).Ok?)
    ensures r.Ok? ==>
      && r.value.launchType == "FARGATE"
      && r.value.assignPublicIp == !args.cluster.network.usePrivateSubnets
      && r.value.subnets == args.cluster.network.subnetIds
      && r.value.securityGroups == args.cluster.securityGroups
  {
    if args.taskDefinition.None? && args.taskDefinitionArgs.None? then Fail(Message(NoTaskDefinition))
    else
      var taskDefinition :=
        if args.taskDefinition.Some? then Ok(args.taskDefinition.value)
        else TaskDefinitionFor(args.taskDefinitionArgs.value);
      if taskDefinition.Fail? then Fail(taskDefinition.error)
      else
        var cluster := args.cluster;
        Ok(Service(taskDefinition.value, "FARGATE", !cluster.network.usePrivateSubnets,
          cluster.securityGroups, cluster.network.subnetIds))
  }

  /** The service constructor run: the task definition is made only when none is given. */
  method NewFargateService(args: ServiceArgs) returns (r: Result<Service>)
    ensures r == ServiceFor(args)
  {
    if args.taskDefinition.None? && args.taskDefinitionArgs.None? {
      return Fail(Message(NoTaskDefinition));
    }
    var taskDefinition: Awsx.TaskDefinition;
    if args.taskDefinition.Some? {
      taskDefinition := args.taskDefinition.value;
    } else {
      var made := NewFargateTaskDefinition(args.taskDefinitionArgs.value);
      if made.Fail? {
        return Fail(made.error);
      }
      taskDefinition := made.value;
    }
    var cluster := args.cluster;
    return Ok(Service(taskDefinition, "FARGATE", !cluster.network.usePrivateSubnets,
      cluster.securityGroups, cluster.network.subnetIds));
  }

  /** `createService`: the caller may not pass a task definition or its arguments. */
  method CreateService(taskDefinition: Awsx.TaskDefinition, args: ServiceArgs) returns (r: Result<Service>)
    ensures args.taskDefinition.Some? ==> r == Fail(Message(TaskDefinitionGiven))
    ensures args.taskDefinition.None? && args.taskDefinitionArgs.Some? ==> r == Fail(Message(TaskDefinitionArgsGiven))
    ensures args.taskDefinition.None? && args.taskDefinitionArgs.None? ==>
      r == ServiceFor(args.(taskDefinition := Some(taskDefinition)))
    ensures r.Ok? ==> r.value.taskDefinition == taskDefinition
  {
    if args.taskDefinition.Some? {
      return Fail(Message(TaskDefinitionGiven));
    }
    if args.taskDefinitionArgs.Some? {
      return Fail(Message(TaskDefinitionArgsGiven));
    }
    r := NewFargateService(args.(taskDefinition := Some(taskDefinition)));
  }
}
