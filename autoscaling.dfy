// Auto-scaling groups of awsx (nodejs/awsx/autoscaling/autoscaling.ts): the
// user-data text with its caller-supplied extra lines, the launch
// configuration's defaults and argument check, and the CloudFormation
// template the group's stack is built from.
module AwsxAutoScaling {
  import opened Wrappers
  import opened Text
  import C = InfraCluster
  import UDT = UserDataText

  /** A caller-supplied line of user data; indentation is automatic unless turned off. */
  datatype UserDataLine = UserDataLine(contents: string, automaticallyIndent: Option<bool>)

  /** The indentation put in front of an automatically indented line. */
  const Indent: string := "            "

  /**
   * One line as `collapseLines` renders it: indented by twelve spaces and
   * ended with a newline unless `automaticallyIndent` is false, verbatim
   * otherwise.
   */
  function CollapseLine(line: UserDataLine): (r: string)
    ensures line.automaticallyIndent == Some(false) ==> r == line.contents
    ensures line.automaticallyIndent != Some(false) ==>
      StartsWith(r, Indent + line.contents) && EndsWith(r, "\n")
      && |r| <= |Indent| + |line.contents| + 1
  {
    if line.automaticallyIndent == Some(false) then line.contents
    else
      var indented := Indent + line.contents;
      if indented[|indented| - 1] != '\n' then indented + "\n" else indented
  }

  /** The rendered lines one after another. */
  function Collapsed(lines: seq<UserDataLine>): string
  {
    if |lines| == 0 then "" else Collapsed(lines[..|lines| - 1]) + CollapseLine(lines[|lines| - 1])
  }

  /** Rendering one more line appends that line's rendering. */
  lemma CollapsedSnoc(lines: seq<UserDataLine>, line: UserDataLine)
    ensures Collapsed(lines + [line]) == Collapsed(lines) + CollapseLine(line)
  {
    var all := lines + [line];
    assert all[..|all| - 1] == lines;
  }

  /** Rendering distributes over concatenation of line lists. */
  lemma {:induction false} CollapsedAppend(a: seq<UserDataLine>, b: seq<UserDataLine>)
    ensures Collapsed(a + b) == Collapsed(a) + Collapsed(b)
    decreases |b|
  {
    if |b| == 0 {
      assert a + b == a;
    } else {
      var b', last := b[..|b| - 1], b[|b| - 1];
      assert a + b == (a + b') + [last];
      assert b == b' + [last];
      CollapsedSnoc(a + b', last);
      CollapsedSnoc(b', last);
      CollapsedAppend(a, b');
      ConcatAssoc(Collapsed(a), Collapsed(b'), CollapseLine(last));
    }
  }

  /** A single line list renders as that line. */
  lemma CollapsedSingle(line: UserDataLine)
    ensures Collapsed([line]) == CollapseLine(line)
  {
    assert [line][..0] == [];
  }

  /** `collapseLines`: concatenate the rendered lines in order. */
  method CollapseLines(lines: seq<UserDataLine>) returns (result: string)
    ensures result == Collapsed(lines)
  {
    result := "";
    var i := 0;
    while i < |lines|
      invariant 0 <= i <= |lines|
      invariant result == Collapsed(lines[..i])
    {
      assert lines[..i + 1][..i] == lines[..i];
      result := result + CollapseLine(lines[i]);
      i := i + 1;
    }
    assert lines[..|lines|] == lines;
  }

  /**
   * A member of a user-data object: missing (or falsy), a function
   * returning lines, or some other truthy value.
   */
  datatype Member = Absent | LinesFunction(lines: seq<UserDataLine>) | OtherValue

  /** `userData`: plain text, or an object that may supply extra lines. */
  datatype UserDataArg = TextUserData(text: string) | ObjectUserData(extraBootcmdLines: Member, extraRuncmdLines: Member)

  /** `isAutoScalingUserData` here: an object with either member truthy. */
  predicate IsAutoScalingUserData(arg: UserDataArg)
  {
    arg.ObjectUserData? && (arg.extraBootcmdLines != Absent || arg.extraRuncmdLines != Absent)
  }

  /** The error JavaScript raises when a truthy non-function member is called. */
  const NotAFunction: string := "TypeError: extra user-data lines member is not a function"

  /** `getAdditionalBootcmdLines`/`getAdditionalRuncmdLines`: a missing member gives no lines. */
  function AdditionalLines(member: Member): (r: Result<seq<UserDataLine>>)
    ensures member.Absent? ==> r == Ok([])
    ensures member.LinesFunction? ==> r == Ok(member.lines)
    ensures member.OtherValue? ==> r == Fail(NotAFunction)
  {
    match member
    case Absent => Ok([])
    case LinesFunction(lines) => Ok(lines)
    case OtherValue => Fail(NotAFunction)
  }

  /** The user data a launch configuration receives: the caller's value, or a generated cloud-config. */
  datatype UserData = Verbatim(arg: UserDataArg) | Generated(config: UDT.CloudConfig)

  /**
   * `getInstanceUserData` (shared in this form by the launch configuration
   * module, with its own notion of a user-data object): a given value that
   * is not a user-data object passes through unchanged; otherwise the text
   * is generated from the object's extra lines.
   */
  function InstanceUserData(userData: Option<UserDataArg>, isObject: UserDataArg -> bool, stackName: string)
    : (r: Result<UserData>)
    ensures userData.Some? && !isObject(userData.value) ==> r == Ok(Verbatim(userData.value))
    ensures userData.None? ==> r == Ok(Generated(UDT.CloudConfig("", "", stackName)))
    ensures userData.Some? && isObject(userData.value) && userData.value.ObjectUserData? ==> (
      var boot := AdditionalLines(userData.value.extraBootcmdLines);
      var run := AdditionalLines(userData.value.extraRuncmdLines);
      (r.Ok? <==> boot.Ok? && run.Ok?)
      && (r.Ok? ==> r.value == Generated(UDT.CloudConfig(Collapsed(boot.value), Collapsed(run.value), stackName))))
  {
    if userData.Some? && !isObject(userData.value) then Ok(Verbatim(userData.value))
    else
      var boot := if userData.Some? && userData.value.ObjectUserData? then AdditionalLines(userData.value.extraBootcmdLines) else Ok([]);
      var run := if userData.Some? && userData.value.ObjectUserData? then AdditionalLines(userData.value.extraRuncmdLines) else Ok([]);
      if boot.Fail? then Fail(boot.error)
      else if run.Fail? then Fail(run.error)
      else Ok(Generated(UDT.CloudConfig(Collapsed(boot.value), Collapsed(run.value), stackName)))
  }

  /** Plain text user data always passes through unchanged. */
  lemma TextUserDataPassesThrough(text: string, stackName: string)
    ensures InstanceUserData(Some(TextUserData(text)), IsAutoScalingUserData, stackName) == Ok(Verbatim(TextUserData(text)))
  {
  }

  /** A launch configuration's disk. */
  datatype BlockDevice = BlockDevice(deviceName: Option<string>, volumeSize: int, volumeType: string, deleteOnTermination: bool)

  const DefaultRootBlockDevice: BlockDevice := BlockDevice(None, 8, "gp2", true)
  const DefaultEbsBlockDevices: seq<BlockDevice> :=
    [BlockDevice(Some("/dev/xvdb"), 5, "gp2", true), BlockDevice(Some("/dev/xvdcz"), 50, "gp2", true)]

  /** The launch-configuration arguments the component reads. */
  datatype LaunchConfigurationArgs = LaunchConfigurationArgs(
    stackName: Option<string>,
    instanceProfile: Option<string>,
    imageId: Option<string>,
    instanceType: Option<string>,
    enableMonitoring: Option<bool>,
    placementTenancy: Option<string>,
    rootBlockDevice: Option<BlockDevice>,
    ebsBlockDevices: Option<seq<BlockDevice>>,
    securityGroups: Option<seq<string>>,
    userData: Option<UserDataArg>)

  /** No arguments at all, as when a group builds its own launch configuration without any. */
  const NoLaunchConfigurationArgs: LaunchConfigurationArgs :=
    LaunchConfigurationArgs(None, None, None, None, None, None, None, None, None, None)

  /** What the model keeps of a created launch configuration. */
  datatype LaunchConfiguration = LaunchConfiguration(
    stackName: string,
    instanceProfile: string,
    imageId: string,
    instanceType: string,
    enableMonitoring: bool,
    placementTenancy: string,
    rootBlockDevice: BlockDevice,
    ebsBlockDevices: seq<BlockDevice>,
    securityGroups: seq<string>,
    userData: UserData)

  /**
   * The environment a launch configuration draws on: the bucket-derived
   * stack name, the created instance profile, and the AMI lookup.
   */
  datatype Environment = Environment(bucketStackName: string, createdProfile: string, amiLookup: string)

  const SecurityGroupsNotArray: string := "args.securityGroups must be an array."

  /**
   * The launch configuration once the security groups are known: stack name
   * `stackName || bucket`, the caller's profile or a created one, the AMI
   * lookup, and the `ifUndefined` defaults.
   */
  function LaunchConfigurationWith(args: LaunchConfigurationArgs, env: Environment, securityGroups: seq<string>)
    : (r: Result<LaunchConfiguration>)
    ensures r.Ok? <==> InstanceUserData(args.userData, IsAutoScalingUserData, C.StringOr(args.stackName, env.bucketStackName)).Ok?
    ensures r.Ok? ==> (
      r.value.stackName == C.StringOr(args.stackName, env.bucketStackName)
      && r.value.instanceProfile == args.instanceProfile.GetOr(env.createdProfile)
      && r.value.imageId == env.amiLookup
      && r.value.instanceType == args.instanceType.GetOr("t2.micro")
      && r.value.enableMonitoring == args.enableMonitoring.GetOr(true)
      && r.value.placementTenancy == args.placementTenancy.GetOr("default")
      && r.value.rootBlockDevice == args.rootBlockDevice.GetOr(DefaultRootBlockDevice)
      && r.value.ebsBlockDevices == args.ebsBlockDevices.GetOr(DefaultEbsBlockDevices)
      && r.value.securityGroups == securityGroups
      && r.value.userData == InstanceUserData(args.userData, IsAutoScalingUserData, r.value.stackName).value)
  {
    var stackName := C.StringOr(args.stackName, env.bucketStackName);
    var userData := InstanceUserData(args.userData, IsAutoScalingUserData, stackName);
    if userData.Fail? then Fail(userData.error)
    else Ok(LaunchConfiguration(
      stackName,
      args.instanceProfile.GetOr(env.createdProfile),
      env.amiLookup,
      args.instanceType.GetOr("t2.micro"),
      args.enableMonitoring.GetOr(true),
      args.placementTenancy.GetOr("default"),
      args.rootBlockDevice.GetOr(DefaultRootBlockDevice),
      args.ebsBlockDevices.GetOr(DefaultEbsBlockDevices),
      securityGroups,
      userData.value))
  }

  /**
   * The `AutoScalingLaunchConfiguration` constructor as written: it throws
   * unless `securityGroups` is an array, so leaving out the optional
   * `securityGroups` is refused.
   */
  function NewLaunchConfigurationAsWritten(args: LaunchConfigurationArgs, env: Environment): (r: Result<LaunchConfiguration>)
    ensures args.securityGroups.None? ==> r == Fail(SecurityGroupsNotArray)
    ensures args.securityGroups.Some? ==> r == LaunchConfigurationWith(args, env, args.securityGroups.value)
  {
    if args.securityGroups.None? then Fail(SecurityGroupsNotArray)
    else LaunchConfigurationWith(args, env, args.securityGroups.value)
  }

  /**
   * The check as intended: the argument is optional and a missing list
   * means no groups (the constructor's own `|| []` fallback).
   */
  function NewLaunchConfiguration(args: LaunchConfigurationArgs, env: Environment): (r: Result<LaunchConfiguration>)
    ensures r == LaunchConfigurationWith(args, env, args.securityGroups.GetOr([]))
    ensures args.securityGroups.Some? ==> r == NewLaunchConfigurationAsWritten(args, env)
  {
    LaunchConfigurationWith(args, env, args.securityGroups.GetOr([]))
  }

  /**
   * As written, a launch configuration built without arguments, which is
   * what `AutoScalingGroup` does when given neither a launch configuration
   * nor its arguments, always throws; the intended check accepts it.
   */
  lemma DefaultLaunchConfigurationRefused(env: Environment)
    ensures NewLaunchConfigurationAsWritten(NoLaunchConfigurationArgs, env) == Fail(SecurityGroupsNotArray)
    ensures NewLaunchConfiguration(NoLaunchConfigurationArgs, env).Ok?
    ensures NewLaunchConfiguration(NoLaunchConfigurationArgs, env).value.securityGroups == []
  {
  }

  /** The parameters a caller may set on the group's template. */
  datatype TemplateParameters = TemplateParameters(
    minSize: Option<int>,
    maxSize: Option<int>,
    defaultCooldown: Option<int>,
    healthCheckGracePeriod: Option<int>,
    healthCheckType: Option<string>,
    suspendedProcesses: Option<seq<string>>)

  const NoTemplateParameters: TemplateParameters := TemplateParameters(None, None, None, None, None, None)

  /** The prefix of each suspended process in the template. */
  const SuspendPrefix: string := "                    -   "

  /** The suspended-process lines, joined by newlines. */
  function SuspendText(processes: seq<string>): string
  {
    if |processes| == 0 then ""
    else if |processes| == 1 then SuspendPrefix + processes[0]
    else SuspendText(processes[..|processes| - 1]) + "\n" + SuspendPrefix + processes[|processes| - 1]
  }

  /** The template's suspended-process block is the prefixed processes joined by "\n". */
  lemma {:induction false} SuspendTextIsJoin(processes: seq<string>)
    ensures SuspendText(processes) == Join(Prefixed(processes), "\n")
    decreases |processes|
  {
    if |processes| > 1 {
      var init := processes[..|processes| - 1];
      SuspendTextIsJoin(init);
      assert Prefixed(processes) == Prefixed(init) + [SuspendPrefix + processes[|processes| - 1]];
      JoinSnoc(Prefixed(init), SuspendPrefix + processes[|processes| - 1], "\n");
    }
  }

  function Prefixed(processes: seq<string>): (r: seq<string>)
    ensures |r| == |processes|
    ensures forall i :: 0 <= i < |processes| ==> r[i] == SuspendPrefix + processes[i]
  {
    seq(|processes|, i requires 0 <= i < |processes| => SuspendPrefix + processes[i])
  }

  /** Joining one more part appends the separator and the part. */
  lemma {:induction false} JoinSnoc(parts: seq<string>, last: string, sep: string)
    requires |parts| >= 1
    ensures Join(parts + [last], sep) == Join(parts, sep) + sep + last
    decreases |parts|
  {
    if |parts| > 1 {
      assert (parts + [last])[1..] == parts[1..] + [last];
      JoinSnoc(parts[1..], last, sep);
    }
  }

  /** The loop building the suspended-process block. */
  method SuspendProcessesString(processes: seq<string>) returns (result: string)
    ensures result == SuspendText(processes)
  {
    result := "";
    var i := 0;
    while i < |processes|
      invariant 0 <= i <= |processes|
      invariant result == SuspendText(processes[..i])
    {
      assert processes[..i + 1][..i] == processes[..i];
      if i > 0 {
        result := result + "\n";
      }
      result := result + SuspendPrefix + processes[i];
      i := i + 1;
    }
    assert processes[..|processes|] == processes;
  }

  /** The template settings, with the suspended-process block as rendered. */
  datatype GroupTemplate = GroupTemplate(settings: C.AutoScalingTemplate, suspendText: string)

  /**
   * `getCloudFormationTemplate`: every parameter defaults when undefined
   * (sizes 2 and 100, cooldown 300, grace period 120, EC2 health checks,
   * scheduled actions suspended) and the desired capacity, signal count and
   * minimum in service are the minimum size.
   */
  function CloudFormationTemplate(instanceName: string, launchConfigurationId: string, subnetIds: seq<string>,
                                  params: TemplateParameters): (r: GroupTemplate)
    ensures r.settings.minSize == params.minSize.GetOr(2) && r.settings.maxSize == params.maxSize.GetOr(100)
    ensures r.settings.cooldown == params.defaultCooldown.GetOr(300)
    ensures r.settings.healthCheckGracePeriod == params.healthCheckGracePeriod.GetOr(120)
    ensures r.settings.healthCheckType == params.healthCheckType.GetOr("EC2")
    ensures r.settings.suspendProcesses == params.suspendedProcesses.GetOr(["ScheduledActions"])
    ensures r.settings.desiredCapacity == r.settings.minSize && r.settings.signalCount == r.settings.minSize
    ensures r.settings.minInstancesInService == r.settings.minSize && r.settings.maxBatchSize == 1
    ensures r.suspendText == Join(Prefixed(r.settings.suspendProcesses), "\n")
  {
    var minSize := params.minSize.GetOr(2);
    var processes := params.suspendedProcesses.GetOr(["ScheduledActions"]);
    SuspendTextIsJoin(processes);
    GroupTemplate(
      C.AutoScalingTemplate(instanceName, launchConfigurationId, subnetIds, params.defaultCooldown.GetOr(300), minSize,
        params.healthCheckGracePeriod.GetOr(120), params.healthCheckType.GetOr("EC2"), minSize, params.maxSize.GetOr(100),
        minSize, minSize, 1, processes),
      SuspendText(processes))
  }

  /**
   * With only the sizes set, this template agrees with the fixed one of
   * aws-infra's cluster.
   */
  lemma MatchesClusterTemplate(instanceName: string, launchConfigurationId: string, subnetIds: seq<string>,
                               minSize: Option<int>, maxSize: Option<int>)
    ensures CloudFormationTemplate(instanceName, launchConfigurationId, subnetIds,
              NoTemplateParameters.(minSize := minSize, maxSize := maxSize)).settings
            == C.CloudFormationTemplate(instanceName, launchConfigurationId, subnetIds, C.TemplateParameters(minSize, maxSize))
  {
  }

  datatype AutoScalingGroupArgs = AutoScalingGroupArgs(
    vpcPrivateSubnetIds: Option<seq<string>>,
    subnetIds: Option<seq<string>>,
    launchConfiguration: Option<string>,
    launchConfigurationArgs: Option<LaunchConfigurationArgs>,
    templateParameters: Option<TemplateParameters>)

  datatype AutoScalingGroup = AutoScalingGroup(launchConfiguration: string, template: GroupTemplate)

  /**
   * The `AutoScalingGroup` constructor: the VPC defaults to the default VPC,
   * the subnets to its private subnets, the launch configuration to a new
   * one (built with the intended security-group check), and the template
   * parameters to none. `launchConfigurationId` names what a created launch
   * configuration gets as id.
   */
  function NewAutoScalingGroup(name: string, args: AutoScalingGroupArgs, defaultVpcPrivateSubnetIds: seq<string>,
                               env: Environment, launchConfigurationId: string): (r: Result<AutoScalingGroup>)
    ensures args.launchConfiguration.Some? ==> r.Ok? && r.value.launchConfiguration == args.launchConfiguration.value
    ensures args.launchConfiguration.None? ==> (
      r.Ok? <==> NewLaunchConfiguration(args.launchConfigurationArgs.GetOr(NoLaunchConfigurationArgs), env).Ok?)
    ensures r.Ok? ==> r.value.template == CloudFormationTemplate(name, r.value.launchConfiguration,
      args.subnetIds.GetOr(args.vpcPrivateSubnetIds.GetOr(defaultVpcPrivateSubnetIds)),
      args.templateParameters.GetOr(NoTemplateParameters))
  {
    var subnets := args.subnetIds.GetOr(args.vpcPrivateSubnetIds.GetOr(defaultVpcPrivateSubnetIds));
    var params := args.templateParameters.GetOr(NoTemplateParameters);
    if args.launchConfiguration.Some? then
      Ok(AutoScalingGroup(args.launchConfiguration.value,
        CloudFormationTemplate(name, args.launchConfiguration.value, subnets, params)))
    else
      var created := NewLaunchConfiguration(args.launchConfigurationArgs.GetOr(NoLaunchConfigurationArgs), env);
      if created.Fail? then Fail(created.error)
      else Ok(AutoScalingGroup(launchConfigurationId, CloudFormationTemplate(name, launchConfigurationId, subnets, params)))
  }
}
