// The stand-alone launch configuration of awsx
// (nodejs/awsx/autoscaling/launchConfiguration.ts): the same generated
// cloud-config as the auto-scaling module, but with its own test for a
// user-data object, no security-group check, and a caller-supplied image.
module AwsxLaunchConfiguration {
  import opened Wrappers
  import C = InfraCluster
  import UDT = UserDataText
  import AS = AwsxAutoScaling

  /** `isAutoScalingUserData` here: an object with either member a function. */
  predicate IsLaunchUserData(arg: AS.UserDataArg)
  {
    arg.ObjectUserData? && (arg.extraBootcmdLines.LinesFunction? || arg.extraRuncmdLines.LinesFunction?)
  }

  /**
   * The `AutoScalingLaunchConfiguration` constructor: stack name
   * `stackName ? stackName : bucket`, the caller's profile or a created one,
   * the caller's image or the AMI lookup, the `ifUndefined` defaults, and
   * the security groups or none.
   */
  function NewLaunchConfiguration(args: AS.LaunchConfigurationArgs, env: AS.Environment): (r: Result<AS.LaunchConfiguration>)
    ensures r.Ok? <==> AS.InstanceUserData(args.userData, IsLaunchUserData, C.StringOr(args.stackName, env.bucketStackName)).Ok?
    ensures r.Ok? ==> (
      r.value.stackName == C.StringOr(args.stackName, env.bucketStackName)
      && r.value.instanceProfile == args.instanceProfile.GetOr(env.createdProfile)
      && r.value.imageId == args.imageId.GetOr(env.amiLookup)
      && r.value.instanceType == args.instanceType.GetOr("t2.micro")
      && r.value.enableMonitoring == args.enableMonitoring.GetOr(true)
      && r.value.placementTenancy == args.placementTenancy.GetOr("default")
      && r.value.rootBlockDevice == args.rootBlockDevice.GetOr(AS.DefaultRootBlockDevice)
      && r.value.ebsBlockDevices == args.ebsBlockDevices.GetOr(AS.DefaultEbsBlockDevices)
      && r.value.securityGroups == args.securityGroups.GetOr([])
      && r.value.userData == AS.InstanceUserData(args.userData, IsLaunchUserData, r.value.stackName).value)
  {
    var stackName := C.StringOr(args.stackName, env.bucketStackName);
    var userData := AS.InstanceUserData(args.userData, IsLaunchUserData, stackName);
    if userData.Fail? then Fail(userData.error)
    else Ok(AS.LaunchConfiguration(
      stackName,
      args.instanceProfile.GetOr(env.createdProfile),
      args.imageId.GetOr(env.amiLookup),
      args.instanceType.GetOr("t2.micro"),
      args.enableMonitoring.GetOr(true),
      args.placementTenancy.GetOr("default"),
      args.rootBlockDevice.GetOr(AS.DefaultRootBlockDevice),
      args.ebsBlockDevices.GetOr(AS.DefaultEbsBlockDevices),
      args.securityGroups.GetOr([]),
      userData.value))
  }

  /**
   * Generating user data fails exactly when the value is a user-data object
   * (one member is a function) whose other member is truthy but not a
   * function, which JavaScript refuses to call.
   */
  lemma UserDataFailsOnlyOnNonFunction(userData: Option<AS.UserDataArg>, stackName: string)
    ensures AS.InstanceUserData(userData, IsLaunchUserData, stackName).Fail? <==>
      (userData.Some? && IsLaunchUserData(userData.value)
       && (userData.value.extraBootcmdLines.OtherValue? || userData.value.extraRuncmdLines.OtherValue?))
  {
  }

  /** Without arguments the configuration always succeeds, with no groups and generated user data. */
  lemma DefaultLaunchConfigurationBuilt(env: AS.Environment)
    ensures var r := NewLaunchConfiguration(AS.NoLaunchConfigurationArgs, env);
      r.Ok? && r.value.securityGroups == [] && r.value.imageId == env.amiLookup
      && r.value.userData == AS.Generated(UDT.CloudConfig("", "", env.bucketStackName))
  {
  }

  /**
   * Every user-data object of this module is one of the auto-scaling
   * module's; an object whose members are truthy but not functions is one
   * only there.
   */
  lemma UserDataTestIsNarrower(arg: AS.UserDataArg)
    ensures IsLaunchUserData(arg) ==> AS.IsAutoScalingUserData(arg)
    ensures arg == AS.ObjectUserData(AS.OtherValue, AS.Absent) ==> AS.IsAutoScalingUserData(arg) && !IsLaunchUserData(arg)
  {
  }

  /**
   * Where the two constructors' inputs agree (security groups given, no
   * image of the caller's, no non-function members) they build the same
   * launch configuration.
   */
  lemma AgreesWithAutoScaling(args: AS.LaunchConfigurationArgs, env: AS.Environment)
    requires args.securityGroups.Some? && args.imageId.None?
    requires args.userData.Some? && args.userData.value.ObjectUserData? ==>
      !args.userData.value.extraBootcmdLines.OtherValue? && !args.userData.value.extraRuncmdLines.OtherValue?
    ensures NewLaunchConfiguration(args, env) == AS.NewLaunchConfigurationAsWritten(args, env)
  {
  }
}
