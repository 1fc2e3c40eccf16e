// Container definitions of aws-infra's experimental layer
// (nodejs/aws-infra/experimental/containerDefinition.ts): the port mapping
// of a load-balanced container, the service-discovery environment of an
// exposed port, the choice of image source, the build signature behind a
// built image's name, and the caches that create each ECR repository and
// build each image at most once.
module InfraContainerDefinition {
  import opened Wrappers
  import opened Text
  import opened EcsTypes
  import C = InfraCluster

  /** The load-balancer port of a container: the port, and the target port if it differs. */
  datatype LoadBalancerPort = LoadBalancerPort(port: int, targetPort: Option<int>, protocol: Option<string>)

  /** `getPortMappings`: none without a port, else one mapping on `targetPort || port` for both sides. */
  function PortMappingsFor(loadBalancerPort: Option<LoadBalancerPort>): (r: seq<PortMapping>)
    ensures loadBalancerPort.None? ==> r == []
    ensures loadBalancerPort.Some? ==> (
      var port := C.TargetPort(loadBalancerPort.value.port, loadBalancerPort.value.targetPort);
      r == [PortMapping(port, Some(port))])
  {
    if loadBalancerPort.None? then []
    else
      var port := C.TargetPort(loadBalancerPort.value.port, loadBalancerPort.value.targetPort);
      [PortMapping(port, Some(port))]
  }

  /** `makeServiceEnvName`: upper-case, with every "-" turned into "_". */
  function ServiceEnvName(service: string): (r: string)
    ensures |r| == |service|
    ensures forall i :: 0 <= i < |service| ==> r[i] == if service[i] == '-' then '_' else UpperChar(service[i])
  {
    var upper := ToUpper(service);
    seq(|upper|, i requires 0 <= i < |upper| => if upper[i] == '-' then '_' else upper[i])
  }

  /** A service environment name has no "-" and no lower-case letter, and naming it again changes nothing. */
  lemma ServiceEnvNameNormal(service: string)
    ensures forall i :: 0 <= i < |service| ==> ServiceEnvName(service)[i] != '-' && !('a' <= ServiceEnvName(service)[i] <= 'z')
    ensures ServiceEnvName(ServiceEnvName(service)) == ServiceEnvName(service)
  {
    var once := ServiceEnvName(service);
    assert forall i :: 0 <= i < |service| ==> UpperChar(once[i]) == once[i];
  }

  /** An environment record: names with values, in the order the names were first set. */
  type EnvRecord = seq<KeyValuePair>

  /** `env[name]`, if set. */
  function Lookup(env: EnvRecord, name: string): Option<string>
  {
    if |env| == 0 then None
    else if env[0].name == name then Some(env[0].value)
    else Lookup(env[1..], name)
  }

  /** `env[name] = value`: an existing entry keeps its place, a new one goes last. */
  function Assign(env: EnvRecord, name: string, value: string): (r: EnvRecord)
    ensures Lookup(r, name) == Some(value)
    ensures forall other :: other != name ==> Lookup(r, other) == Lookup(env, other)
    ensures Lookup(env, name).None? ==> r == env + [KeyValuePair(name, value)]
    ensures Lookup(env, name).Some? ==> |r| == |env|
  {
    if |env| == 0 then [KeyValuePair(name, value)]
    else if env[0].name == name then [KeyValuePair(name, value)] + env[1..]
    else
      var rest := Assign(env[1..], name, value);
      assert forall other :: Lookup([env[0]] + rest, other) == if env[0].name == other then Some(env[0].value) else Lookup(rest, other);
      [env[0]] + rest
  }

  /** An exposed port of a container of the service: the container, the balancer's DNS name, port and protocol. */
  datatype ExposedPort = ExposedPort(containerName: string, hostname: string, port: int, protocol: Option<string>)

  /** What service discovery appends to the service's environment name, one suffix per variable. */
  function DiscoverySuffixes(port: string): (r: seq<string>)
    ensures |r| == 7
  {
    var tcp := "_PORT_" + port + "_TCP";
    ["_SERVICE_HOST", "_SERVICE_PORT", "_PORT", tcp, tcp + "_PROTO", tcp + "_PORT", tcp + "_ADDR"]
  }

  /** The seven names service discovery sets. */
  function DiscoveryNames(service: string, port: string): (r: seq<string>)
    ensures |r| == 7
    ensures forall i :: 0 <= i < 7 ==> r[i] == service + DiscoverySuffixes(port)[i]
  {
    var suffixes := DiscoverySuffixes(port);
    seq(7, i requires 0 <= i < 7 => service + suffixes[i])
  }

  /** Strings that differ after a common prefix differ. */
  lemma PrefixedDiffer(prefix: string, a: string, b: string)
    requires a != b
    ensures prefix + a != prefix + b
  {
    assert (prefix + a)[|prefix|..] == a && (prefix + b)[|prefix|..] == b;
  }

  /** The suffixes are pairwise different. */
  lemma DiscoverySuffixesDistinct(port: string)
    ensures forall i, j :: 0 <= i < j < 7 ==> DiscoverySuffixes(port)[i] != DiscoverySuffixes(port)[j]
  {
    var tcp := "_PORT_" + port + "_TCP";
    var suffixes := DiscoverySuffixes(port);
    assert suffixes[0][9] == 'H' && suffixes[1][9] == 'P';
    assert suffixes[0][1] == 'S' && suffixes[1][1] == 'S';
    assert tcp[1] == 'P';
    assert forall j :: 2 <= j < 7 ==> suffixes[j][1] == 'P';
    assert |suffixes[2]| < |suffixes[3]| < |suffixes[5]| < |suffixes[4]| && |suffixes[5]| == |suffixes[6]|;
    assert suffixes[5][|tcp| + 1] == 'P' && suffixes[6][|tcp| + 1] == 'A';
  }

  /** The seven names are pairwise different, so no assignment overwrites another. */
  lemma DiscoveryNamesDistinct(service: string, port: string)
    ensures forall i, j :: 0 <= i < j < 7 ==> DiscoveryNames(service, port)[i] != DiscoveryNames(service, port)[j]
  {
    DiscoverySuffixesDistinct(port);
    forall i, j | 0 <= i < j < 7
      ensures DiscoveryNames(service, port)[i] != DiscoveryNames(service, port)[j]
    {
      PrefixedDiffer(service, DiscoverySuffixes(port)[i], DiscoverySuffixes(port)[j]);
    }
  }

  /** The values service discovery sets, in the order of `DiscoveryNames`. */
  function DiscoveryValues(exposed: ExposedPort): (r: seq<string>)
    ensures |r| == 7
  {
    var protocol := if exposed.protocol.Some? && exposed.protocol.value != "" then exposed.protocol.value else "tcp";
    var port := IntToString(exposed.port);
    var fullHost := protocol + "://" + exposed.hostname + ":" + port;
    [exposed.hostname, port, fullHost, fullHost, protocol, port, exposed.hostname]
  }

  lemma TakeAll(names: seq<string>)
    ensures names[..|names|] == names
  {
  }

  /** Setting the `k`-th of distinct names keeps the earlier ones and every name not yet set. */
  lemma AssignNext(env: EnvRecord, r: EnvRecord, names: seq<string>, values: seq<string>, k: nat)
    requires |names| == |values| && k < |names|
    requires forall i, j :: 0 <= i < j < |names| ==> names[i] != names[j]
    requires forall i :: 0 <= i < k ==> Lookup(r, names[i]) == Some(values[i])
    requires forall name :: name !in names[..k] ==> Lookup(r, name) == Lookup(env, name)
    ensures var r' := Assign(r, names[k], values[k]);
      (forall i :: 0 <= i < k + 1 ==> Lookup(r', names[i]) == Some(values[i]))
      && (forall name :: name !in names[..k + 1] ==> Lookup(r', name) == Lookup(env, name))
  {
    assert names[..k + 1] == names[..k] + [names[k]];
  }

  /** The environment after the seven service-discovery assignments, in the order `computeImage` makes them. */
  function DiscoveryEnv(env: EnvRecord, exposed: ExposedPort): EnvRecord
  {
    var names := DiscoveryNames(ServiceEnvName(exposed.containerName), IntToString(exposed.port));
    var values := DiscoveryValues(exposed);
    var e1 := Assign(env, names[0], values[0]);
    var e2 := Assign(e1, names[1], values[1]);
    var e3 := Assign(e2, names[2], values[2]);
    var e4 := Assign(e3, names[3], values[3]);
    var e5 := Assign(e4, names[4], values[4]);
    var e6 := Assign(e5, names[5], values[5]);
    Assign(e6, names[6], values[6])
  }

  /**
   * The service-discovery part of `computeImage`: the Kubernetes and Docker
   * links variables for an exposed port are set, and every other variable
   * keeps its value.
   */
  method AddServiceDiscovery(env: EnvRecord, exposed: ExposedPort) returns (r: EnvRecord)
    ensures r == DiscoveryEnv(env, exposed)
    ensures var names := DiscoveryNames(ServiceEnvName(exposed.containerName), IntToString(exposed.port));
      forall i :: 0 <= i < 7 ==> Lookup(r, names[i]) == Some(DiscoveryValues(exposed)[i])
    ensures forall name :: name !in DiscoveryNames(ServiceEnvName(exposed.containerName), IntToString(exposed.port)) ==>
      Lookup(r, name) == Lookup(env, name)
  {
    var names := DiscoveryNames(ServiceEnvName(exposed.containerName), IntToString(exposed.port));
    var values := DiscoveryValues(exposed);
    DiscoveryNamesDistinct(ServiceEnvName(exposed.containerName), IntToString(exposed.port));
    r := env;
    assert names[..0] == [];
    assert |names| == 7;
    AssignNext(env, r, names, values, 0);
    r := Assign(r, names[0], values[0]);
    AssignNext(env, r, names, values, 1);
    r := Assign(r, names[1], values[1]);
    AssignNext(env, r, names, values, 2);
    r := Assign(r, names[2], values[2]);
    AssignNext(env, r, names, values, 3);
    r := Assign(r, names[3], values[3]);
    AssignNext(env, r, names, values, 4);
    r := Assign(r, names[4], values[4]);
    AssignNext(env, r, names, values, 5);
    r := Assign(r, names[5], values[5]);
    AssignNext(env, r, names, values, 6);
    r := Assign(r, names[6], values[6]);
    TakeAll(names);
  }

  /** `build`: a context directory, or detailed instructions with ordered build arguments. */
  datatype Build =
    | BuildPath(path: string)
    | BuildSpec(context: Option<string>, dockerfile: Option<string>, args: Option<seq<KeyValuePair>>)

  /** One build argument's part of the signature. */
  function ArgText(arg: KeyValuePair): string
  {
    ";arg[" + arg.name + "]=" + arg.value
  }

  /** The build arguments' part of the signature, argument by argument. */
  function ArgsSignature(args: seq<KeyValuePair>): string
  {
    if |args| == 0 then "" else ArgsSignature(args[..|args| - 1]) + ArgText(args[|args| - 1])
  }

  /** Signing more arguments appends their signature. */
  lemma {:induction false} ArgsSignatureAppend(a: seq<KeyValuePair>, b: seq<KeyValuePair>)
    ensures ArgsSignature(a + b) == ArgsSignature(a) + ArgsSignature(b)
    decreases |b|
  {
    if |b| == 0 {
      assert a + b == a;
    } else {
      var b' := b[..|b| - 1];
      assert (a + b)[..|a + b| - 1] == a + b';
      ArgsSignatureAppend(a, b');
      ConcatAssoc(ArgsSignature(a), ArgsSignature(b'), ArgText(b[|b| - 1]));
    }
  }

  /** `context || "."` */
  function ContextText(context: Option<string>): string
  {
    if context.Some? && context.value != "" then context.value else "."
  }

  /** `;dockerfile=...` when a Dockerfile is named. */
  function DockerfileText(dockerfile: Option<string>): string
  {
    if dockerfile.Some? && dockerfile.value != "" then ";dockerfile=" + dockerfile.value else ""
  }

  /** The signature hashed into a built image's name. */
  function BuildSignature(build: Build): string
  {
    match build
    case BuildPath(path) => path
    case BuildSpec(context, dockerfile, args) =>
      ContextText(context) + DockerfileText(dockerfile) + (if args.Some? then ArgsSignature(args.value) else "")
  }

  /** A build given only by its context signs as that context, and one with nothing at all as ".". */
  lemma BuildSignatureOfContext(context: string)
    ensures BuildSignature(BuildSpec(Some(context), None, None)) == if context == "" then "." else context
    ensures BuildSignature(BuildSpec(None, None, Some([]))) == "."
  {
  }

  /** The signature starts with the context (or "."), and each further argument adds its `;arg[k]=v`. */
  lemma BuildSignatureStartsWithContext(context: Option<string>, dockerfile: Option<string>, args: seq<KeyValuePair>,
                                        arg: KeyValuePair)
    ensures StartsWith(BuildSignature(BuildSpec(context, dockerfile, Some(args))), ContextText(context))
    ensures BuildSignature(BuildSpec(context, dockerfile, Some(args + [arg])))
      == BuildSignature(BuildSpec(context, dockerfile, Some(args))) + ArgText(arg)
  {
    var head := ContextText(context) + DockerfileText(dockerfile);
    ArgsSignatureAppend(args, [arg]);
    assert [arg][..0] == [];
    ConcatAssoc(head, ArgsSignature(args), ArgText(arg));
    ConcatAssoc(ContextText(context), DockerfileText(dockerfile), ArgsSignature(args));
    var whole := BuildSignature(BuildSpec(context, dockerfile, Some(args)));
    assert whole == ContextText(context) + (DockerfileText(dockerfile) + ArgsSignature(args));
    assert whole[..|ContextText(context)|] == ContextText(context);
  }

  /** The signing loop of `getBuildImageName`. */
  method ComputeBuildSignature(build: Build) returns (signature: string)
    ensures signature == BuildSignature(build)
  {
    if build.BuildPath? {
      return build.path;
    }
    signature := ContextText(build.context);
    if build.dockerfile.Some? && build.dockerfile.value != "" {
      signature := signature + ";dockerfile=" + build.dockerfile.value;
    }
    var head := signature;
    if build.args.Some? {
      var args := build.args.value;
      var i := 0;
      while i < |args|
        invariant 0 <= i <= |args|
        invariant signature == head + ArgsSignature(args[..i])
      {
        assert args[..i + 1][..i] == args[..i];
        ConcatAssoc(head, ArgsSignature(args[..i]), ArgText(args[i]));
        signature := signature + ArgText(args[i]);
        i := i + 1;
      }
      assert args[..|args|] == args;
    } else {
      assert signature == head + "";
    }
  }

  /** `getBuildImageName`: the hashed signature, then "-container-" and the service name. */
  function BuildImageName(name: string, build: Build, hash: string -> string): (r: string)
    ensures StartsWith(r, hash(BuildSignature(build))) && EndsWith(r, "-container-" + name)
  {
    var hashed := hash(BuildSignature(build));
    ConcatAssoc(hashed, "-container-", name);
    hashed + "-container-" + name
  }

  /** An ECR repository: resource name and lifecycle policy (keep at most this many untagged images). */
  datatype Repository = Repository(resourceName: string, untaggedImagesKept: nat)

  function NewRepository(imageName: string): (r: Repository)
    ensures r.resourceName == ToLower(imageName) && r.untaggedImagesKept == 1
  {
    Repository(ToLower(imageName), 1)
  }

  predicate NoDuplicates(names: seq<string>)
  {
    forall i, j :: 0 <= i < j < |names| ==> names[i] != names[j]
  }

  /** The image the container runs and its environment. */
  datatype ImageOptions = ImageOptions(image: string, environment: EnvRecord)

  /** The image name a function-backed container runs. */
  const FunctionRunnerImage: string := "lukehoban/nodejsrunner"

  const NoImageSource: string := "Invalid container definition: `image`, `build`, or `function` must be provided"

  /** The container as the definition is computed from it; `code` is the serialized `function`. */
  datatype ContainerSpec = ContainerSpec(
    image: Option<string>,
    build: Option<Build>,
    code: Option<string>,
    environment: Option<EnvRecord>,
    loadBalancerPort: Option<LoadBalancerPort>,
    logConfiguration: Option<LogConfiguration>)

  /** `if (container.build)`: a build path must be non-empty to count. */
  predicate HasBuild(container: ContainerSpec)
  {
    container.build.Some? && !(container.build.value.BuildPath? && container.build.value.path == "")
  }

  /** Which source `computeImage` takes the image from. */
  datatype ImageSource = FromBuild(build: Build) | FromImage(image: string) | FromFunction(code: string)

  /** Build first, then the image name, then the function; none of them is an error. */
  function ImageSourceOf(container: ContainerSpec): (r: Result<ImageSource>)
    ensures r.Fail? <==> !HasBuild(container) && (container.image.None? || container.image.value == "")
                         && (container.code.None? || container.code.value == "")
    ensures r.Fail? ==> r.error == NoImageSource
    ensures HasBuild(container) ==> r == Ok(FromBuild(container.build.value))
    ensures !HasBuild(container) && container.image.Some? && container.image.value != "" ==>
      r == Ok(FromImage(container.image.value))
  {
    if HasBuild(container) then Ok(FromBuild(container.build.value))
    else if container.image.Some? && container.image.value != "" then Ok(FromImage(container.image.value))
    else if container.code.Some? && container.code.value != "" then Ok(FromFunction(container.code.value))
    else Fail(NoImageSource)
  }

  /**
   * The environment `computeImage` gives: the container's own, with the
   * service-discovery variables of an exposed port, and `PULUMI_SRC` for a
   * function.
   */
  function ComputedEnvironment(container: ContainerSpec, exposed: Option<ExposedPort>): EnvRecord
    requires ImageSourceOf(container).Ok?
  {
    var env := container.environment.GetOr([]);
    var withDiscovery := if exposed.Some? then DiscoveryEnv(env, exposed.value) else env;
    if ImageSourceOf(container).value.FromFunction? then Assign(withDiscovery, "PULUMI_SRC", ImageSourceOf(container).value.code)
    else withDiscovery
  }

  /**
   * The environment part of `computeImage`: the container's own entries,
   * the service-discovery variables of an exposed port, then `PULUMI_SRC`
   * for a function.
   */
  method ContainerEnvironment(container: ContainerSpec, exposed: Option<ExposedPort>) returns (env: EnvRecord)
    requires ImageSourceOf(container).Ok?
    ensures env == ComputedEnvironment(container, exposed)
    ensures ImageSourceOf(container).value.FromFunction? ==> Lookup(env, "PULUMI_SRC") == Some(container.code.value)
    ensures exposed.None? && !ImageSourceOf(container).value.FromFunction? ==> env == container.environment.GetOr([])
    ensures exposed.Some? ==>
      var names := DiscoveryNames(ServiceEnvName(exposed.value.containerName), IntToString(exposed.value.port));
      forall i :: 0 <= i < 7 && names[i] != "PULUMI_SRC" ==>
        Lookup(env, names[i]) == Some(DiscoveryValues(exposed.value)[i])
  {
    env := container.environment.GetOr([]);
    if exposed.Some? {
      env := AddServiceDiscovery(env, exposed.value);
    }
    var source := ImageSourceOf(container).value;
    if source.FromFunction? {
      env := Assign(env, "PULUMI_SRC", source.code);
    }
  }

  /** A computed container definition. */
  datatype ContainerDefinition = ContainerDefinition(
    name: string,
    image: string,
    portMappings: seq<PortMapping>,
    environment: seq<KeyValuePair>,
    logConfiguration: LogConfiguration)

  /**
   * The module-level caches: ECR repositories and built images by image
   * name, with the order in which each was created or built.
   */
  class ImageCaches {
    var repositories: map<string, Repository>
    var builtImages: map<string, string>
    var createdRepositories: seq<string>
    var builds: seq<string>

    /** Everything cached was created (or built) exactly once. */
    predicate Valid()
      reads this
    {
      NoDuplicates(createdRepositories) && (set n | n in createdRepositories) == repositories.Keys
      && NoDuplicates(builds) && (set n | n in builds) == builtImages.Keys
    }

    constructor()
      ensures Valid() && repositories == map[] && builtImages == map[] && createdRepositories == [] && builds == []
    {
      repositories := map[];
      builtImages := map[];
      createdRepositories := [];
      builds := [];
    }

    /** `getOrCreateRepository`: the cached repository, or a new one that is then cached. */
    method GetOrCreateRepository(imageName: string) returns (repository: Repository)
      requires Valid()
      modifies this
      ensures Valid()
      ensures imageName in old(repositories) ==> (repository == old(repositories)[imageName]
        && repositories == old(repositories) && createdRepositories == old(createdRepositories))
      ensures imageName !in old(repositories) ==> (repository == NewRepository(imageName)
        && repositories == old(repositories)[imageName := repository]
        && createdRepositories == old(createdRepositories) + [imageName])
      ensures builtImages == old(builtImages) && builds == old(builds)
    {
      if imageName in repositories {
        return repositories[imageName];
      }
      repository := NewRepository(imageName);
      repositories := repositories[imageName := repository];
      createdRepositories := createdRepositories + [imageName];
    }

    /** The build-image cache of `computeImageFromBuildWorker`; `buildAndPush` stands for the Docker build. */
    method BuiltImage(imageName: string, buildAndPush: string -> string) returns (uniqueImageName: string)
      requires Valid()
      modifies this
      ensures Valid()
      ensures imageName in old(builtImages) ==> (uniqueImageName == old(builtImages)[imageName]
        && builtImages == old(builtImages) && builds == old(builds))
      ensures imageName !in old(builtImages) ==> (uniqueImageName == buildAndPush(imageName)
        && builtImages == old(builtImages)[imageName := uniqueImageName] && builds == old(builds) + [imageName])
      ensures repositories == old(repositories) && createdRepositories == old(createdRepositories)
    {
      if imageName in builtImages {
        return builtImages[imageName];
      }
      uniqueImageName := buildAndPush(imageName);
      builtImages := builtImages[imageName := uniqueImageName];
      builds := builds + [imageName];
    }

    /** The build branch of `computeImage`: the repository, then the cached or freshly pushed image. */
    method BuildAndCache(imageName: string, buildAndPush: string -> string) returns (image: string)
      requires Valid()
      modifies this
      ensures Valid()
      ensures image == if imageName in old(builtImages) then old(builtImages)[imageName] else buildAndPush(imageName)
      ensures imageName in builtImages && imageName in repositories
      ensures repositories == old(repositories)[imageName :=
        if imageName in old(repositories) then old(repositories)[imageName] else NewRepository(imageName)]
      ensures createdRepositories == old(createdRepositories) + (if imageName in old(repositories) then [] else [imageName])
      ensures builtImages == old(builtImages)[imageName := image]
      ensures builds == old(builds) + (if imageName in old(builtImages) then [] else [imageName])
    {
      var repository := GetOrCreateRepository(imageName);
      image := BuiltImage(imageName, buildAndPush);
    }

    /**
     * The image `computeImage` gives with the caches as they are: a build's
     * cached image, or the one the build would push; the image name; or the
     * function runner.
     */
    function ImageFor(name: string, container: ContainerSpec, hash: string -> string, buildAndPush: string -> string): string
      reads this
      requires ImageSourceOf(container).Ok?
    {
      var source := ImageSourceOf(container).value;
      if source.FromBuild? then
        var imageName := BuildImageName(name, source.build, hash);
        if imageName in builtImages then builtImages[imageName] else buildAndPush(imageName)
      else if source.FromImage? then source.image
      else FunctionRunnerImage
    }

    /**
     * The caches after `computeImage`: a build caches its repository and its
     * image under its image name, creating each only when it was missing;
     * any other source leaves them as they were.
     */
    twostate predicate CachedAfter(name: string, container: ContainerSpec, hash: string -> string, image: string)
      reads this
      requires ImageSourceOf(container).Ok?
    {
      var source := ImageSourceOf(container).value;
      if source.FromBuild? then
        var imageName := BuildImageName(name, source.build, hash);
        && repositories == old(repositories)[imageName :=
          if imageName in old(repositories) then old(repositories)[imageName] else NewRepository(imageName)]
        && createdRepositories == old(createdRepositories) + (if imageName in old(repositories) then [] else [imageName])
        && builtImages == old(builtImages)[imageName := image]
        && builds == old(builds) + (if imageName in old(builtImages) then [] else [imageName])
      else
        && repositories == old(repositories) && createdRepositories == old(createdRepositories)
        && builtImages == old(builtImages) && builds == old(builds)
    }

    /**
     * `computeImage`: the container's environment plus service discovery,
     * then the image from the first source present (a build also sets up
     * the repository and the build caches, a function adds `PULUMI_SRC`).
     */
    method ComputeImage(name: string, container: ContainerSpec, exposed: Option<ExposedPort>,
                        hash: string -> string, buildAndPush: string -> string) returns (r: Result<ImageOptions>)
      requires Valid()
      modifies this
      ensures Valid()
      ensures r.Fail? <==> ImageSourceOf(container).Fail?
      ensures r.Fail? ==> r.error == NoImageSource && unchanged(this)
      ensures r.Ok? && ImageSourceOf(container).value.FromImage? ==> r.value.image == container.image.value
      ensures r.Ok? && ImageSourceOf(container).value.FromFunction? ==>
        r.value.image == FunctionRunnerImage && Lookup(r.value.environment, "PULUMI_SRC") == Some(container.code.value)
      ensures r.Ok? && ImageSourceOf(container).value.FromBuild? ==>
        var imageName := BuildImageName(name, container.build.value, hash);
        imageName in builtImages && r.value.image == builtImages[imageName] && imageName in repositories
      ensures r.Ok? && exposed.None? && !ImageSourceOf(container).value.FromFunction? ==>
        r.value.environment == container.environment.GetOr([])
      ensures r.Ok? && exposed.Some? ==>
        var names := DiscoveryNames(ServiceEnvName(exposed.value.containerName), IntToString(exposed.value.port));
        forall i :: 0 <= i < 7 && names[i] != "PULUMI_SRC" ==>
          Lookup(r.value.environment, names[i]) == Some(DiscoveryValues(exposed.value)[i])
      ensures r.Ok? ==> r.value == ImageOptions(old(ImageFor(name, container, hash, buildAndPush)), ComputedEnvironment(container, exposed))
      ensures r.Ok? ==> CachedAfter(name, container, hash, r.value.image)
    {
      var source := ImageSourceOf(container);
      if source.Fail? {
        return Fail(source.error);
      }
      var env := ContainerEnvironment(container, exposed);
      match source.value
      case FromBuild(build) =>
        assert HasBuild(container) && build == container.build.value;
        var imageName := BuildImageName(name, build, hash);
        var uniqueImageName := BuildAndCache(imageName, buildAndPush);
        assert uniqueImageName == builtImages[imageName];
        r := Ok(ImageOptions(uniqueImageName, env));
      case FromImage(image) =>
        r := Ok(ImageOptions(image, env));
      case FromFunction(code) =>
        r := Ok(ImageOptions(FunctionRunnerImage, env));
    }

    /**
     * `computeContainerDefinition`: the image and environment, the port
     * mapping of the load-balancer port, and the container's own log
     * configuration or else awslogs into the task's log group.
     */
    method ComputeContainerDefinition(name: string, containerName: string, container: ContainerSpec,
                                      exposed: Option<ExposedPort>, logGroupId: string, region: string,
                                      hash: string -> string, buildAndPush: string -> string)
      returns (r: Result<ContainerDefinition>)
      requires Valid()
      modifies this
      ensures Valid()
      ensures r.Fail? <==> ImageSourceOf(container).Fail?
      ensures r.Ok? ==> r.value.name == containerName && r.value.portMappings == PortMappingsFor(container.loadBalancerPort)
      ensures r.Ok? ==> (r.value.logConfiguration ==
        if container.logConfiguration.Some? then container.logConfiguration.value else AwsLogs(logGroupId, region, containerName))
      ensures r.Ok? ==> r.value.image == old(ImageFor(name, container, hash, buildAndPush))
      ensures r.Ok? ==> r.value.environment == ComputedEnvironment(container, exposed)
    ensures r.Ok? ==> CachedAfter(name, container, hash, r.value.image)
    ensures r.Fail? ==> unchanged(this)
    {
      var options := ComputeImage(name, container, exposed, hash, buildAndPush);
      if options.Fail? {
        return Fail(options.error);
      }
      var logConfiguration :=
        if container.logConfiguration.Some? then container.logConfiguration.value else AwsLogs(logGroupId, region, containerName);
      r := Ok(ContainerDefinition(containerName, options.value.image, PortMappingsFor(container.loadBalancerPort),
                                  options.value.environment, logConfiguration));
    }
  }

  /** Asking twice for the same image name builds it once and yields the same image both times. */
  method BuildTwiceBuildsOnce(caches: ImageCaches, imageName: string, buildAndPush: string -> string)
    returns (first: string, second: string)
    requires caches.Valid() && imageName !in caches.builtImages
    modifies caches
    ensures first == second == buildAndPush(imageName)
    ensures caches.builds == old(caches.builds) + [imageName]
  {
    first := caches.BuiltImage(imageName, buildAndPush);
    second := caches.BuiltImage(imageName, buildAndPush);
  }
}
