// The awsx API Gateway component (nodejs/awsx/apigateway/api.ts): how the
// Swagger 2.0 document of a REST API is assembled from its routes, the
// HTTP-method tokens, default gateway responses, authorizer naming and
// conflict detection, the API-key security definition, the static-route
// bucket name, and the lookup of the Lambda behind a route.
module ApiGateway {
  import opened Wrappers
  import opened Text
  import LA = LambdaAuthorizer

  // ---------------------------------------------------------------------
  // HTTP methods and names
  // ---------------------------------------------------------------------

  /** The seven verbs API Gateway takes by their lower-case names. */
  const StandardVerbs: seq<string> := ["get", "put", "post", "delete", "options", "head", "patch"]

  /** API Gateway's token for "any method". */
  const AnyMethod: string := "x-amazon-apigateway-any-method"

  /** `swaggerMethod`: the Swagger token for a route method, compared case-insensitively. */
  function SwaggerMethod(verb: string): (r: Result<string>)
    ensures r.Ok? <==> ToLower(verb) in StandardVerbs || ToLower(verb) == "any"
    ensures ToLower(verb) in StandardVerbs ==> r == Ok(ToLower(verb))
    ensures ToLower(verb) == "any" ==> r == Ok(AnyMethod)
    ensures r.Fail? ==> r.error == "Method not supported: " + verb
  {
    var lower := ToLower(verb);
    if lower in StandardVerbs then Ok(lower)
    else if lower == "any" then Ok(AnyMethod)
    else Fail("Method not supported: " + verb)
  }

  lemma LowerCharIdempotent(c: char)
    ensures LowerChar(LowerChar(c)) == LowerChar(c)
  {
  }

  lemma ToLowerIdempotent(s: string)
    ensures ToLower(ToLower(s)) == ToLower(s)
  {
    forall i | 0 <= i < |s|
      ensures LowerChar(ToLower(s)[i]) == ToLower(s)[i]
    {
      LowerCharIdempotent(s[i]);
    }
    ToLowerIs(ToLower(s), ToLower(s));
  }

  /** The mapping ignores case: a method and its lower-case spelling give the same token. */
  lemma SwaggerMethodIgnoresCase(verb: string)
    ensures SwaggerMethod(verb).Ok? ==> SwaggerMethod(ToLower(verb)) == SwaggerMethod(verb)
  {
    ToLowerIdempotent(verb);
  }

  /** Two accepted methods share a token exactly when they agree up to case. */
  lemma SwaggerMethodInjective(m1: string, m2: string)
    requires SwaggerMethod(m1).Ok? && SwaggerMethod(m2).Ok?
    ensures SwaggerMethod(m1) == SwaggerMethod(m2) <==> ToLower(m1) == ToLower(m2)
  {
    assert AnyMethod !in StandardVerbs;
  }

  /** A character S3 accepts in the bucket names the component derives. */
  predicate BucketChar(c: char)
  {
    'a' <= c <= 'z' || '0' <= c <= '9' || c == '-'
  }

  predicate AllBucketChars(s: string)
  {
    forall i :: 0 <= i < |s| ==> BucketChar(s[i])
  }

  /**
   * `safeS3BucketName`: the name lower-cased with every character outside
   * [a-z0-9-] removed.
   */
  function SafeS3BucketName(name: string): (r: string)
    ensures AllBucketChars(r)
    ensures |r| <= |name|
  {
    if |name| == 0 then ""
    else
      var c := LowerChar(name[|name| - 1]);
      SafeS3BucketName(name[..|name| - 1]) + (if BucketChar(c) then [c] else [])
  }

  /** Removing characters distributes over concatenation. */
  lemma {:induction false} SafeS3BucketNameAppend(a: string, b: string)
    ensures SafeS3BucketName(a + b) == SafeS3BucketName(a) + SafeS3BucketName(b)
    decreases |b|
  {
    if |b| == 0 {
      assert a + b == a;
    } else {
      assert (a + b)[..|a + b| - 1] == a + b[..|b| - 1];
      SafeS3BucketNameAppend(a, b[..|b| - 1]);
    }
  }

  /** A name already made of bucket characters is kept as it is. */
  lemma {:induction false} SafeS3BucketNameKeeps(name: string)
    requires AllBucketChars(name)
    ensures SafeS3BucketName(name) == name
    decreases |name|
  {
    if |name| > 0 {
      SafeS3BucketNameKeeps(name[..|name| - 1]);
      assert name == name[..|name| - 1] + [name[|name| - 1]];
    }
  }

  /** Making a bucket name safe twice changes nothing more. */
  lemma SafeS3BucketNameIdempotent(name: string)
    ensures SafeS3BucketName(SafeS3BucketName(name)) == SafeS3BucketName(name)
  {
    SafeS3BucketNameKeeps(SafeS3BucketName(name));
  }

  /** `path.endsWith("/") ? path : path + "/"`. */
  function WithTrailingSlash(path: string): (r: string)
    ensures EndsWith(r, "/")
    ensures EndsWith(path, "/") ==> r == path
    ensures !EndsWith(path, "/") ==> r == path + "/"
  {
    if EndsWith(path, "/") then path
    else
      var r := path + "/";
      assert r[|r| - 1..] == "/";
      r
  }

  /** Adding the trailing slash is idempotent and keeps the path as a prefix. */
  lemma TrailingSlashIdempotent(path: string)
    ensures WithTrailingSlash(WithTrailingSlash(path)) == WithTrailingSlash(path)
    ensures StartsWith(WithTrailingSlash(path), path)
  {
    assert WithTrailingSlash(path)[..|path|] == path;
  }

  /** Route paths not starting with "/" get one in front. */
  function WithLeadingSlash(path: string): (r: string)
    ensures StartsWith(r, "/")
    ensures StartsWith(path, "/") ==> r == path
    ensures !StartsWith(path, "/") ==> r == "/" + path
  {
    if StartsWith(path, "/") then path
    else
      var r := "/" + path;
      assert r[..1] == "/";
      r
  }

  lemma LeadingSlashIdempotent(path: string)
    ensures WithLeadingSlash(WithLeadingSlash(path)) == WithLeadingSlash(path)
  {
  }

  // ---------------------------------------------------------------------
  // Gateway responses
  // ---------------------------------------------------------------------

  /** A gateway response: its status code and its JSON body template. */
  datatype GatewayResponse = GatewayResponse(statusCode: int, jsonTemplate: string)

  const MissingAuthenticationToken: string := "MISSING_AUTHENTICATION_TOKEN"
  const AccessDenied: string := "ACCESS_DENIED"

  /** The 404 the API answers for paths the caller may not see. */
  const NotFound: GatewayResponse := GatewayResponse(404, "{\"message\": \"404 Not found\" }")

  /**
   * `generateGatewayResponses`: the caller's responses, with the 404
   * default filled in for MISSING_AUTHENTICATION_TOKEN and ACCESS_DENIED
   * where those are absent.
   */
  function GatewayResponses(responses: Option<map<string, GatewayResponse>>): (r: map<string, GatewayResponse>)
    ensures r.Keys == responses.GetOr(map[]).Keys + {MissingAuthenticationToken, AccessDenied}
    ensures forall k :: k in responses.GetOr(map[]) ==> r[k] == responses.GetOr(map[])[k]
    ensures MissingAuthenticationToken !in responses.GetOr(map[]) ==> r[MissingAuthenticationToken] == NotFound
    ensures AccessDenied !in responses.GetOr(map[]) ==> r[AccessDenied] == NotFound
  {
    var given := responses.GetOr(map[]);
    var withToken := if MissingAuthenticationToken in given then given else given[MissingAuthenticationToken := NotFound];
    if AccessDenied in withToken then withToken else withToken[AccessDenied := NotFound]
  }

  /** Filling in the defaults a second time changes nothing. */
  lemma GatewayResponsesIdempotent(responses: Option<map<string, GatewayResponse>>)
    ensures GatewayResponses(Some(GatewayResponses(responses))) == GatewayResponses(responses)
  {
  }

  // ---------------------------------------------------------------------
  // The Swagger document
  // ---------------------------------------------------------------------

  /** A parameter an operation declares. */
  datatype Parameter = Parameter(name: string, location: string, required: bool, paramType: Option<string>)

  /** A parameter a route requires (`reqvalidation.Parameter`). */
  datatype RequiredParameter = RequiredParameter(name: string, location: string)

  /** One entry of an operation's `security` list: `{ [name]: scopes }`. */
  datatype Requirement = Requirement(name: string, scopes: seq<string>)

  /** What stands behind an HTTP integration route (`IntegrationTarget`). */
  datatype IntegrationTarget = IntegrationTarget(
    targetType: Option<string>, uri: string, connectionType: Option<string>,
    connectionId: Option<string>, passthroughBehavior: Option<string>)

  /** The `x-amazon-apigateway-integration` part of an operation. */
  datatype Integration =
    | LambdaIntegration(lambdaFunction: LambdaFunction)
    | S3Integration(objectKey: string, pathParameter: Option<string>)
    | ProxyIntegration(uri: string, integrationType: string, connectionType: Option<string>,
                       connectionId: Option<string>, passthroughBehavior: string, proxyParameter: bool)
    | RawData(data: nat)

  /** The Lambda the API creates for an event-handler route: its name and the code it runs. */
  datatype LambdaFunction = LambdaFunction(name: string, code: nat)

  /** A Swagger operation. */
  datatype Operation = Operation(
    integration: Integration,
    parameters: Option<seq<Parameter>>,
    security: Option<seq<Requirement>>,
    requestValidator: Option<string>)

  /** How an authorizer's Lambda is reached: given outright, or created under the authorizer's name. */
  datatype Invocation = GivenLambda(uri: string, credentials: string) | CreatedLambda(functionName: string, roleName: string)

  /** The `x-amazon-apigateway-authorizer` part of a security definition. */
  datatype SwaggerAuthorizer =
    | SwaggerLambdaAuthorizer(authorizerType: LA.AuthorizerType, invocation: Invocation, identitySource: string,
                              identityValidationExpression: Option<string>, resultTtlInSeconds: Option<int>)
    | SwaggerCognitoAuthorizer(identitySource: string, providerArns: seq<string>)

  /** A security definition: the API-key one, or one per authorizer. */
  datatype SecurityDefinition =
    | ApiKeyDefinition
    | AuthorizerDefinition(parameterName: Option<string>, location: string, authType: string, authorizer: SwaggerAuthorizer)

  /** A Cognito user-pool authorizer (`CognitoAuthorizer`). */
  datatype CognitoAuthorizer = CognitoAuthorizer(
    authorizerName: Option<string>, parameterName: string, identitySource: Option<seq<string>>,
    providerArns: seq<string>, methodsToAuthorize: Option<seq<string>>)

  /**
   * An authorizer object a route names. `id` stands for the object's
   * identity: the source compares authorizers with `!==`.
   */
  datatype ApiAuthorizer =
    | LambdaAuthorizer(id: nat, lambda: LA.Authorizer)
    | CognitoUserPoolAuthorizer(id: nat, cognito: CognitoAuthorizer)
  {
    function GivenName(): Option<string>
    {
      if LambdaAuthorizer? then lambda.authorizerName else cognito.authorizerName
    }
  }

  /** The per-route options every route kind but raw data shares (`BaseRoute`). */
  datatype RouteOptions = RouteOptions(
    requiredParameters: Option<seq<RequiredParameter>>,
    requestValidator: Option<string>,
    apiKeyRequired: bool,
    authorizers: Option<seq<ApiAuthorizer>>)

  /** What `fs.statSync` reports for a static route's local path. */
  datatype LocalEntry =
    | LocalFile
    | LocalDirectory(indexRelativePath: Option<string>)
    | LocalOther

  /** The four route shapes, told apart by the field each one carries. */
  datatype RouteKind =
    | EventHandlerRoute(code: nat)
    | StaticRoute(localPath: string, entry: LocalEntry)
    | IntegrationRoute(target: IntegrationTarget)
    | RawDataRoute(data: nat)
    | UnknownRoute

  datatype Route = Route(path: Option<string>, verb: Option<string>, kind: RouteKind, options: RouteOptions)

  /** The bucket static routes are stored in. */
  datatype Bucket = GivenBucket | CreatedBucket(name: string)

  /** The fixed inputs of one document: the API name, the hash the source names resources with, a given bucket. */
  datatype Context = Context(name: string, hash: string -> string, bucketGiven: bool)

  /**
   * Everything `createSwaggerSpec` changes while it adds routes: the paths
   * of the document, its security definitions, the authorizers seen so far,
   * the names written back into authorizer objects, the Lambdas per path
   * and method, and the static-route bucket.
   */
  datatype SpecState = SpecState(
    paths: map<string, map<string, Operation>>,
    securityDefinitions: Option<map<string, SecurityDefinition>>,
    apiAuthorizers: map<string, ApiAuthorizer>,
    assignedNames: map<nat, string>,
    lambdas: map<string, map<string, LambdaFunction>>,
    bucket: Option<Bucket>)

  const EmptyState: SpecState := SpecState(map[], None, map[], map[], map[], None)

  /** `addSwaggerOperation`: the operation at a path and method, the path's other methods kept. */
  function WithOperation(paths: map<string, map<string, Operation>>, path: string, verb: string, op: Operation)
    : (r: map<string, map<string, Operation>>)
    ensures r.Keys == paths.Keys + {path}
    ensures verb in r[path] && r[path][verb] == op
  {
    paths[path := (if path in paths then paths[path] else map[])[verb := op]]
  }

  /** Adding an operation touches nothing but its own path and method. */
  lemma WithOperationKeeps(paths: map<string, map<string, Operation>>, path: string, verb: string, op: Operation,
                           p: string, m: string)
    requires p in paths && m in paths[p] && (p, m) != (path, verb)
    ensures p in WithOperation(paths, path, verb, op) && m in WithOperation(paths, path, verb, op)[p]
    ensures WithOperation(paths, path, verb, op)[p][m] == paths[p][m]
  {
  }

  // ---------------------------------------------------------------------
  // The API-key security definition
  // ---------------------------------------------------------------------

  const ApiKeyName: string := "api_key"
  const ApiKeyConflict: string := "Defined a non-apikey security definition with the name api_key"

  /**
   * `addAPIkeyToSecurityDefinitions`: an "api_key" entry that is not the
   * API-key definition is an error; otherwise the entry is (re)set.
   */
  function WithApiKey(defs: Option<map<string, SecurityDefinition>>): (r: Result<map<string, SecurityDefinition>>)
    ensures r.Ok? <==> !(ApiKeyName in defs.GetOr(map[]) && defs.GetOr(map[])[ApiKeyName] != ApiKeyDefinition)
    ensures r.Fail? ==> r.error == ApiKeyConflict
    ensures r.Ok? ==> r.value.Keys == defs.GetOr(map[]).Keys + {ApiKeyName} && r.value[ApiKeyName] == ApiKeyDefinition
    ensures r.Ok? ==> forall k :: k in defs.GetOr(map[]) && k != ApiKeyName ==> r.value[k] == defs.GetOr(map[])[k]
  {
    var given := defs.GetOr(map[]);
    if ApiKeyName in given && given[ApiKeyName] != ApiKeyDefinition then Fail(ApiKeyConflict)
    else Ok(given[ApiKeyName := ApiKeyDefinition])
  }

  /** Requiring the API key twice is the same as once. */
  lemma WithApiKeyIdempotent(defs: Option<map<string, SecurityDefinition>>)
    requires WithApiKey(defs).Ok?
    ensures WithApiKey(Some(WithApiKey(defs).value)) == WithApiKey(defs)
  {
    var once := WithApiKey(defs).value;
    assert once[ApiKeyName := ApiKeyDefinition] == once;
  }

  // ---------------------------------------------------------------------
  // Authorizers
  // ---------------------------------------------------------------------

  const AuthorizerConflict: string := "Two different authorizers using the same name: "

  /**
   * The name `addAuthorizersToSwagger` gives an authorizer: the name
   * written back into the object on an earlier route, else its own
   * non-empty name, else `${title}-authorizer-${n}` with n the number of
   * security definitions so far.
   */
  function AuthorizerName(title: string, st: SpecState, auth: ApiAuthorizer): (r: string)
    ensures auth.id !in st.assignedNames && (auth.GivenName().None? || auth.GivenName().value == "") ==>
      r == title + "-authorizer-" + NatToString(|st.securityDefinitions.GetOr(map[]).Keys|)
  {
    if auth.id in st.assignedNames then st.assignedNames[auth.id]
    else if auth.GivenName().Some? && auth.GivenName().value != "" then auth.GivenName().value
    else title + "-authorizer-" + NatToString(|st.securityDefinitions.GetOr(map[]).Keys|)
  }

  /** The security definition written for a new authorizer name. */
  function DefinitionFor(auth: ApiAuthorizer, name: string): (r: SecurityDefinition)
    ensures r.AuthorizerDefinition?
    ensures auth.CognitoUserPoolAuthorizer? ==> r.location == "header" && r.authType == "cognito_user_pools"
  {
    match auth
    case LambdaAuthorizer(_, a) =>
      var invocation := match a.handler
        case HandlerInfo(uri, credentials) => GivenLambda(uri, credentials)
        case HandlerFunction(_) => CreatedLambda(name, name + "-authorizer-role");
      AuthorizerDefinition(a.parameterName,
        if a.parameterLocation.Header? then "header" else "query",
        a.authType,
        SwaggerLambdaAuthorizer(a.authorizerType, invocation, LA.IdentitySource(a.identitySource),
          a.identityValidationExpression, a.authorizerResultTtlInSeconds))
    case CognitoUserPoolAuthorizer(_, c) =>
      AuthorizerDefinition(Some(c.parameterName), "header", "cognito_user_pools",
        SwaggerCognitoAuthorizer(LA.IdentitySource(c.identitySource), c.providerArns))
  }

  /** The scopes a route's security entry lists: Cognito methods to authorize, else none. */
  function Scopes(auth: ApiAuthorizer): seq<string>
  {
    if auth.CognitoUserPoolAuthorizer? && auth.cognito.methodsToAuthorize.Some? then auth.cognito.methodsToAuthorize.value
    else []
  }

  /** One iteration of the loop in `addAuthorizersToSwagger`. */
  function WithAuthorizer(title: string, st: SpecState, auth: ApiAuthorizer): (r: Result<(SpecState, Requirement)>)
    ensures r.Ok? ==> r.value.1 == Requirement(AuthorizerName(title, st, auth), Scopes(auth))
  {
    var name := AuthorizerName(title, st, auth);
    if name in st.apiAuthorizers && st.apiAuthorizers[name].id != auth.id then
      Fail(AuthorizerConflict + name)
    else
      var defs := st.securityDefinitions.GetOr(map[]);
      var st' := st.(
        assignedNames := st.assignedNames[auth.id := name],
        apiAuthorizers := if name in st.apiAuthorizers then st.apiAuthorizers else st.apiAuthorizers[name := auth],
        securityDefinitions := Some(if name in defs then defs else defs[name := DefinitionFor(auth, name)]));
      Ok((st', Requirement(name, Scopes(auth))))
  }

  /** The loop of `addAuthorizersToSwagger` over a list of authorizers, in order. */
  function AuthorizersLoop(title: string, st: SpecState, auths: seq<ApiAuthorizer>): (r: Result<(SpecState, seq<Requirement>)>)
    ensures r.Ok? ==> |r.value.1| == |auths|
  {
    if |auths| == 0 then Ok((st, []))
    else
      match AuthorizersLoop(title, st, auths[..|auths| - 1])
      case Fail(e) => Fail(e)
      case Ok(prefix) =>
        match WithAuthorizer(title, prefix.0, auths[|auths| - 1])
        case Fail(e) => Fail(e)
        case Ok(step) => Ok((step.0, prefix.1 + [step.1]))
  }

  /** `addAuthorizersToSwagger`: the security definitions exist afterwards, even for an empty list. */
  function WithAuthorizers(title: string, st: SpecState, auths: seq<ApiAuthorizer>): Result<(SpecState, seq<Requirement>)>
  {
    AuthorizersLoop(title, st.(securityDefinitions := Some(st.securityDefinitions.GetOr(map[]))), auths)
  }

  /** A definition, once written under a name, is never replaced by a later authorizer. */
  lemma {:induction false} AuthorizersKeepDefinitions(title: string, st: SpecState, auths: seq<ApiAuthorizer>, k: string)
    requires AuthorizersLoop(title, st, auths).Ok?
    requires k in st.securityDefinitions.GetOr(map[])
    ensures AuthorizersLoop(title, st, auths).value.0.securityDefinitions.Some?
    ensures k in AuthorizersLoop(title, st, auths).value.0.securityDefinitions.value
    ensures AuthorizersLoop(title, st, auths).value.0.securityDefinitions.value[k] == st.securityDefinitions.GetOr(map[])[k]
    decreases |auths|
  {
    if |auths| > 0 {
      AuthorizersKeepDefinitions(title, st, auths[..|auths| - 1], k);
    }
  }

  /** One successful step registers its authorizer and keeps every earlier registration. */
  lemma WithAuthorizerRegisters(title: string, st: SpecState, auth: ApiAuthorizer)
    requires WithAuthorizer(title, st, auth).Ok? && st.securityDefinitions.Some?
    ensures var (st', record) := WithAuthorizer(title, st, auth).value;
      st'.securityDefinitions.Some?
      && record.name in st'.apiAuthorizers && st'.apiAuthorizers[record.name].id == auth.id
      && record.name in st'.securityDefinitions.value
      && st'.assignedNames == st.assignedNames[auth.id := record.name]
      && (forall k :: k in st.apiAuthorizers ==> k in st'.apiAuthorizers && st'.apiAuthorizers[k] == st.apiAuthorizers[k])
      && st.securityDefinitions.value.Keys <= st'.securityDefinitions.value.Keys
      && (auth.id in st.assignedNames ==> st.assignedNames[auth.id] == record.name)
  {
  }

  /** Each authorizer of a successful loop is registered under its name, with a definition. */
  lemma {:induction false} AuthorizersRegistered(title: string, st: SpecState, auths: seq<ApiAuthorizer>)
    requires AuthorizersLoop(title, st, auths).Ok?
    requires st.securityDefinitions.Some?
    ensures var (st', records) := AuthorizersLoop(title, st, auths).value;
      st'.securityDefinitions.Some? &&
      forall i :: 0 <= i < |auths| ==>
        records[i].name in st'.apiAuthorizers && st'.apiAuthorizers[records[i].name].id == auths[i].id
        && records[i].name in st'.securityDefinitions.value
        && auths[i].id in st'.assignedNames && st'.assignedNames[auths[i].id] == records[i].name
    decreases |auths|
  {
    if |auths| > 0 {
      var init := auths[..|auths| - 1];
      AuthorizersRegistered(title, st, init);
      var (mid, records) := AuthorizersLoop(title, st, init).value;
      var last := auths[|auths| - 1];
      WithAuthorizerRegisters(title, mid, last);
      var (st', record) := WithAuthorizer(title, mid, last).value;
      assert AuthorizersLoop(title, st, auths).value == (st', records + [record]);
      assert auths == init + [last];
      RegisteredStep(mid, st', records, record, init, last);
    }
  }

  /** Authorizer i is registered in `st` under the name of requirement i. */
  ghost predicate AllRegistered(st: SpecState, records: seq<Requirement>, auths: seq<ApiAuthorizer>)
  {
    st.securityDefinitions.Some? && |records| == |auths|
    && forall i :: 0 <= i < |auths| ==>
      records[i].name in st.apiAuthorizers && st.apiAuthorizers[records[i].name].id == auths[i].id
      && records[i].name in st.securityDefinitions.value
      && auths[i].id in st.assignedNames && st.assignedNames[auths[i].id] == records[i].name
  }

  /** A step that registers one more authorizer and keeps the earlier registrations extends `AllRegistered`. */
  lemma RegisteredStep(mid: SpecState, st': SpecState, records: seq<Requirement>, record: Requirement, init: seq<ApiAuthorizer>, last: ApiAuthorizer)
    requires AllRegistered(mid, records, init)
    requires st'.securityDefinitions.Some?
    requires record.name in st'.apiAuthorizers && st'.apiAuthorizers[record.name].id == last.id
    requires record.name in st'.securityDefinitions.value
    requires st'.assignedNames == mid.assignedNames[last.id := record.name]
    requires forall k :: k in mid.apiAuthorizers ==> k in st'.apiAuthorizers && st'.apiAuthorizers[k] == mid.apiAuthorizers[k]
    requires mid.securityDefinitions.value.Keys <= st'.securityDefinitions.value.Keys
    requires last.id in mid.assignedNames ==> mid.assignedNames[last.id] == record.name
    ensures AllRegistered(st', records + [record], init + [last])
  {
    var rs, auths := records + [record], init + [last];
    forall i | 0 <= i < |auths|
      ensures rs[i].name in st'.apiAuthorizers && st'.apiAuthorizers[rs[i].name].id == auths[i].id
      ensures rs[i].name in st'.securityDefinitions.value
      ensures auths[i].id in st'.assignedNames && st'.assignedNames[auths[i].id] == rs[i].name
    {
      if i < |init| {
        assert rs[i] == records[i] && auths[i] == init[i];
      }
    }
  }

  /** Once a prefix of the authorizers fails, the whole loop fails with the same error. */
  lemma {:induction false} AuthorizersPrefixFails(title: string, st: SpecState, auths: seq<ApiAuthorizer>, n: nat)
    requires n <= |auths| && AuthorizersLoop(title, st, auths[..n]).Fail?
    ensures AuthorizersLoop(title, st, auths) == AuthorizersLoop(title, st, auths[..n])
    decreases |auths|
  {
    if n < |auths| {
      var init := auths[..|auths| - 1];
      assert init[..n] == auths[..n];
      AuthorizersPrefixFails(title, st, init, n);
    } else {
      assert auths[..n] == auths;
    }
  }

  /** The loop over a single authorizer is one step. */
  lemma AuthorizersLoopOne(title: string, st: SpecState, a: ApiAuthorizer)
    ensures AuthorizersLoop(title, st, [a]) ==
      match WithAuthorizer(title, st, a)
      case Fail(e) => Fail(e)
      case Ok(step) => Ok((step.0, [step.1]))
  {
    assert [a][..0] == [];
    assert AuthorizersLoop(title, st, []) == Ok((st, []));
    match WithAuthorizer(title, st, a)
    case Fail(e) =>
    case Ok(step) =>
      assert [] + [step.1] == [step.1];
  }

  /** Authorizers change the security definitions and the authorizer records, nothing else. */
  lemma {:induction false} AuthorizersKeepRest(title: string, st: SpecState, auths: seq<ApiAuthorizer>)
    requires AuthorizersLoop(title, st, auths).Ok?
    ensures AuthorizersLoop(title, st, auths).value.0.paths == st.paths
    ensures AuthorizersLoop(title, st, auths).value.0.lambdas == st.lambdas
    ensures AuthorizersLoop(title, st, auths).value.0.bucket == st.bucket
    decreases |auths|
  {
    if |auths| > 0 {
      AuthorizersKeepRest(title, st, auths[..|auths| - 1]);
    }
  }

  /** Two different authorizers given the same name on one route are rejected. */
  lemma SameNameRejected(title: string, st: SpecState, a: ApiAuthorizer, b: ApiAuthorizer, name: string)
    requires a.id != b.id && a.id !in st.assignedNames && b.id !in st.assignedNames
    requires a.GivenName() == Some(name) && b.GivenName() == Some(name) && name != ""
    requires name !in st.apiAuthorizers
    ensures AuthorizersLoop(title, st, [a, b]) == Fail(AuthorizerConflict + name)
  {
    AuthorizersLoopOne(title, st, a);
    assert AuthorizerName(title, st, a) == name;
    var st1 := WithAuthorizer(title, st, a).value.0;
    assert st1.apiAuthorizers[name].id == a.id;
    assert AuthorizerName(title, st1, b) == name;
    assert WithAuthorizer(title, st1, b) == Fail(AuthorizerConflict + name);
    assert [a, b][..1] == [a];
  }

  /** The same authorizer object on a second route keeps its name and changes nothing. */
  lemma SameAuthorizerReused(title: string, st: SpecState, a: ApiAuthorizer)
    requires WithAuthorizers(title, st, [a]).Ok?
    ensures var (st1, records1) := WithAuthorizers(title, st, [a]).value;
      WithAuthorizers(title, st1, [a]) == Ok((st1, records1))
  {
    var st0 := st.(securityDefinitions := Some(st.securityDefinitions.GetOr(map[])));
    AuthorizersLoopOne(title, st0, a);
    AuthorizersRegistered(title, st0, [a]);
    var (st1, records1) := WithAuthorizers(title, st, [a]).value;
    var name := records1[0].name;
    assert st1.securityDefinitions.Some?;
    assert st1.(securityDefinitions := Some(st1.securityDefinitions.GetOr(map[]))) == st1;
    AuthorizersLoopOne(title, st1, a);
    assert AuthorizerName(title, st1, a) == name;
    assert st1.assignedNames[a.id := name] == st1.assignedNames;
    assert WithAuthorizer(title, st1, a) == Ok((st1, records1[0]));
  }

  // ---------------------------------------------------------------------
  // Operation options
  // ---------------------------------------------------------------------

  /** The parameter `addRequiredParametersToSwaggerOperation` declares for a required one. */
  function RequiredParameterOf(p: RequiredParameter): Parameter
  {
    Parameter(p.name, p.location, true, None)
  }

  function RequiredParametersOf(params: seq<RequiredParameter>): (r: seq<Parameter>)
    ensures |r| == |params|
    ensures forall i :: 0 <= i < |params| ==> r[i] == RequiredParameterOf(params[i])
  {
    seq(|params|, i requires 0 <= i < |params| => RequiredParameterOf(params[i]))
  }

  /**
   * `addRequiredParametersToSwaggerOperation`: every required parameter is
   * appended; the list is created only when there is at least one.
   */
  function WithRequiredParameters(op: Operation, params: seq<RequiredParameter>): (r: Operation)
    ensures r.integration == op.integration && r.security == op.security && r.requestValidator == op.requestValidator
    ensures |params| == 0 ==> r == op
    ensures |params| > 0 ==> (r.parameters.Some?
      && |r.parameters.value| == |op.parameters.GetOr([])| + |params|
      && r.parameters.value[..|op.parameters.GetOr([])|] == op.parameters.GetOr([])
      && forall i :: 0 <= i < |params| ==>
           r.parameters.value[|op.parameters.GetOr([])| + i] == Parameter(params[i].name, params[i].location, true, None))
  {
    if |params| == 0 then op
    else op.(parameters := Some(op.parameters.GetOr([]) + RequiredParametersOf(params)))
  }

  /** `addAuthorizersToSwaggerOperation`: the security list exists afterwards and ends with the records. */
  function WithSecurity(op: Operation, records: seq<Requirement>): (r: Operation)
    ensures r.security.Some? && |r.security.value| == |op.security.GetOr([])| + |records|
    ensures r.security.value[|op.security.GetOr([])|..] == records
    ensures r.integration == op.integration && r.parameters == op.parameters
  {
    var r := op.(security := Some(op.security.GetOr([]) + records));
    assert r.security.value[|op.security.GetOr([])|..] == records;
    r
  }

  /** The security entry of a route that needs the API key. */
  const ApiKeyRequirement: Requirement := Requirement(ApiKeyName, [])

  /**
   * `addBasePathOptionsToSwagger`: authorizers, required parameters, the
   * request validator and the API key, in that order.
   */
  function WithBasePathOptions(title: string, st: SpecState, op: Operation, options: RouteOptions)
    : (r: Result<(SpecState, Operation)>)
  {
    var authorized :=
      if options.authorizers.Some? then
        match WithAuthorizers(title, st, options.authorizers.value)
        case Fail(e) => Fail(e)
        case Ok(added) => Ok((added.0, WithSecurity(op, added.1)))
      else Ok((st, op));
    match authorized
    case Fail(e) => Fail(e)
    case Ok(step) =>
      var op1 := if options.requiredParameters.Some? then WithRequiredParameters(step.1, options.requiredParameters.value) else step.1;
      var op2 := if options.requestValidator.Some? && options.requestValidator.value != "" then op1.(requestValidator := options.requestValidator) else op1;
      if options.apiKeyRequired then
        match WithApiKey(step.0.securityDefinitions)
        case Fail(e) => Fail(e)
        case Ok(defs) => Ok((step.0.(securityDefinitions := Some(defs)), WithSecurity(op2, [ApiKeyRequirement])))
      else Ok((step.0, op2))
  }

  /** A route that needs the API key ends up with the API-key definition and an "api_key" entry. */
  lemma ApiKeyRouteSecured(title: string, st: SpecState, op: Operation, options: RouteOptions)
    requires options.apiKeyRequired && WithBasePathOptions(title, st, op, options).Ok?
    ensures var (st', op') := WithBasePathOptions(title, st, op, options).value;
      st'.securityDefinitions.Some? && ApiKeyName in st'.securityDefinitions.value
      && st'.securityDefinitions.value[ApiKeyName] == ApiKeyDefinition
      && op'.security.Some? && |op'.security.value| > 0
      && op'.security.value[|op'.security.value| - 1] == ApiKeyRequirement
  {
  }

  /** Options never change the integration an operation points at. */
  lemma BasePathOptionsKeepIntegration(title: string, st: SpecState, op: Operation, options: RouteOptions)
    requires WithBasePathOptions(title, st, op, options).Ok?
    ensures WithBasePathOptions(title, st, op, options).value.1.integration == op.integration
    ensures WithBasePathOptions(title, st, op, options).value.0.paths == st.paths
    ensures WithBasePathOptions(title, st, op, options).value.0.lambdas == st.lambdas
    ensures WithBasePathOptions(title, st, op, options).value.0.bucket == st.bucket
  {
    if options.authorizers.Some? {
      var st0 := st.(securityDefinitions := Some(st.securityDefinitions.GetOr(map[])));
      AuthorizersKeepRest(title, st0, options.authorizers.value);
    }
  }

  // ---------------------------------------------------------------------
  // Routes
  // ---------------------------------------------------------------------

  /** `checkRoute`'s error for a missing property. */
  function MissingProperty(property: string): string
  {
    "Route missing required [" + property + "] property"
  }

  /** The path parameter of the greedy `{proxy+}` routes. */
  const ProxyParameter: Parameter := Parameter("proxy", "path", true, Some("string"))

  /** `addEventHandlerRouteToSwaggerSpec` (the route's path already normalised). */
  function EventHandlerRouteAdded(ctx: Context, st: SpecState, path: string, verb: Option<string>, code: nat,
                                  options: RouteOptions): (r: Result<SpecState>)
  {
    if verb.None? then Fail(MissingProperty("method"))
    else
      match SwaggerMethod(verb.value)
      case Fail(e) => Fail(e)
      case Ok(token) =>
        var lambda := LambdaFunction(ctx.name + ctx.hash(token + ":" + path), code);
        match WithBasePathOptions(ctx.name, st, Operation(LambdaIntegration(lambda), None, None, None), options)
        case Fail(e) => Fail(e)
        case Ok(step) =>
          var methods := if path in step.0.lambdas then step.0.lambdas[path] else map[];
          Ok(step.0.(paths := WithOperation(step.0.paths, path, token, step.1),
                     lambdas := step.0.lambdas[path := methods[verb.value := lambda]]))
  }

  /** The bucket static routes use: the given one, else one created under the safe API name. */
  function WithBucket(ctx: Context, st: SpecState): (r: SpecState)
    ensures r.bucket.Some?
    ensures st.bucket.None? && !ctx.bucketGiven ==> r.bucket == Some(CreatedBucket(SafeS3BucketName(ctx.name)))
  {
    if st.bucket.Some? then st
    else st.(bucket := Some(if ctx.bucketGiven then GivenBucket else CreatedBucket(SafeS3BucketName(ctx.name))))
  }

  /** An operation reading one S3 object, with an optional greedy path parameter. */
  function S3Operation(objectKey: string, pathParameter: Option<string>): Operation
  {
    Operation(S3Integration(objectKey, pathParameter),
      if pathParameter.Some? then Some([Parameter(pathParameter.value, "path", true, Some("string"))]) else None,
      None, None)
  }

  /**
   * `addStaticRouteToSwaggerSpec`: a file is served at its path; a
   * directory at `dir/{proxy+}`, plus its index file at `dir/` when the
   * walk met one.
   */
  function StaticRouteAdded(ctx: Context, st: SpecState, path: string, entry: LocalEntry, options: RouteOptions)
    : (r: Result<SpecState>)
  {
    var st0 := WithBucket(ctx, st);
    match entry
    case LocalOther => Ok(st0)
    case LocalFile => StaticFileAdded(ctx, st0, path, options)
    case LocalDirectory(index) => StaticDirectoryAdded(ctx, st0, path, index, options)
  }

  /** A local file: a "get" operation reading the object `name + hash("get:" + path)`. */
  function StaticFileAdded(ctx: Context, st0: SpecState, path: string, options: RouteOptions): (r: Result<SpecState>)
  {
    var key := ctx.name + ctx.hash("get:" + path);
    match WithBasePathOptions(ctx.name, st0, S3Operation(key, None), options)
    case Fail(e) => Fail(e)
    case Ok(step) => Ok(step.0.(paths := WithOperation(step.0.paths, path, "get", step.1)))
  }

  /**
   * A local directory: the index document at the directory's own path when
   * there is one, then the greedy `{proxy+}` operation under it.
   */
  function StaticDirectoryAdded(ctx: Context, st0: SpecState, path: string, index: Option<string>, options: RouteOptions)
    : (r: Result<SpecState>)
  {
    var directory := WithTrailingSlash(path);
    var key := ctx.name + ctx.hash("get:" + directory);
    var indexed :=
      if index.Some? then
        match WithBasePathOptions(ctx.name, st0, S3Operation(key + "/" + index.value, None), options)
        case Fail(e) => Fail(e)
        case Ok(step) => Ok(step.0.(paths := step.0.paths[directory := map["get" := step.1]]))
      else Ok(st0);
    match indexed
    case Fail(e) => Fail(e)
    case Ok(st1) =>
      match WithBasePathOptions(ctx.name, st1, S3Operation(key, Some("proxy")), options)
      case Fail(e) => Fail(e)
      case Ok(step) => Ok(step.0.(paths := WithOperation(step.0.paths, directory + "{proxy+}", AnyMethod, step.1)))
  }

  /** The URI an integration route forwards to: a trailing "/" always, then "{proxy}" for the greedy path. */
  function ProxyUri(uri: string, useProxyPathParameter: bool): (r: string)
    ensures useProxyPathParameter ==> r == WithTrailingSlash(uri) + "{proxy}"
    ensures !useProxyPathParameter ==> r == WithTrailingSlash(uri) && EndsWith(r, "/")
  {
    WithTrailingSlash(uri) + (if useProxyPathParameter then "{proxy}" else "")
  }

  /** `createSwaggerOperationForProxy`. */
  function ProxyOperation(target: IntegrationTarget, useProxyPathParameter: bool): Operation
  {
    Operation(
      ProxyIntegration(ProxyUri(target.uri, useProxyPathParameter), target.targetType.GetOr("http_proxy"),
        target.connectionType, target.connectionId, target.passthroughBehavior.GetOr("when_no_match"),
        useProxyPathParameter),
      if useProxyPathParameter then Some([ProxyParameter]) else None,
      None, None)
  }

  /** `addIntegrationRouteToSwaggerSpec`: the route's root `p/` and its greedy `p/{proxy+}`. */
  function IntegrationRouteAdded(ctx: Context, st: SpecState, path: string, target: IntegrationTarget,
                                 options: RouteOptions): (r: Result<SpecState>)
  {
    var root := WithTrailingSlash(path);
    match WithBasePathOptions(ctx.name, st, ProxyOperation(target, false), options)
    case Fail(e) => Fail(e)
    case Ok(first) =>
      var st1 := first.0.(paths := WithOperation(first.0.paths, root, AnyMethod, first.1));
      match WithBasePathOptions(ctx.name, st1, ProxyOperation(target, true), options)
      case Fail(e) => Fail(e)
      case Ok(second) => Ok(second.0.(paths := WithOperation(second.0.paths, root + "{proxy+}", AnyMethod, second.1)))
  }

  /** The document answers a method at a path through an integration. */
  predicate Serves(paths: map<string, map<string, Operation>>, path: string, verb: string, integration: Integration)
  {
    path in paths && verb in paths[path] && paths[path][verb].integration == integration
  }

  /** An integration route answers any method at `p/` and `p/{proxy+}`, forwarding to the normalised URIs. */
  lemma IntegrationRoutePaths(ctx: Context, st: SpecState, path: string, target: IntegrationTarget, options: RouteOptions)
    requires IntegrationRouteAdded(ctx, st, path, target, options).Ok?
    ensures Serves(IntegrationRouteAdded(ctx, st, path, target, options).value.paths, WithTrailingSlash(path), AnyMethod,
                   ProxyOperation(target, false).integration)
    ensures Serves(IntegrationRouteAdded(ctx, st, path, target, options).value.paths, WithTrailingSlash(path) + "{proxy+}",
                   AnyMethod, ProxyOperation(target, true).integration)
  {
    var root := WithTrailingSlash(path);
    var first := WithBasePathOptions(ctx.name, st, ProxyOperation(target, false), options).value;
    BasePathOptionsKeepIntegration(ctx.name, st, ProxyOperation(target, false), options);
    var st1 := first.0.(paths := WithOperation(first.0.paths, root, AnyMethod, first.1));
    BasePathOptionsKeepIntegration(ctx.name, st1, ProxyOperation(target, true), options);
    var second := WithBasePathOptions(ctx.name, st1, ProxyOperation(target, true), options).value;
    assert root != root + "{proxy+}" by {
      assert |root + "{proxy+}"| != |root|;
    }
    WithOperationKeeps(second.0.paths, root + "{proxy+}", AnyMethod, second.1, root, AnyMethod);
  }

  /** The greedy route's URI is the root URI followed by "{proxy}". */
  lemma ProxyUrisAgree(target: IntegrationTarget)
    ensures ProxyOperation(target, true).integration.uri == ProxyOperation(target, false).integration.uri + "{proxy}"
    ensures EndsWith(ProxyOperation(target, false).integration.uri, "/")
  {
  }

  /** `addRawDataRouteToSwaggerSpec`: the data is the operation itself. */
  function RawDataRouteAdded(st: SpecState, path: string, verb: Option<string>, data: nat): (r: Result<SpecState>)
  {
    if verb.None? then Fail(MissingProperty("method"))
    else
      match SwaggerMethod(verb.value)
      case Fail(e) => Fail(e)
      case Ok(token) => Ok(st.(paths := WithOperation(st.paths, path, token, Operation(RawData(data), None, None, None))))
  }

  /** One route at a path, dispatched on its shape. */
  function RouteAtPath(ctx: Context, st: SpecState, path: string, route: Route): (r: Result<SpecState>)
  {
    match route.kind
    case EventHandlerRoute(code) => EventHandlerRouteAdded(ctx, st, path, route.verb, code, route.options)
    case StaticRoute(_, entry) => StaticRouteAdded(ctx, st, path, entry, route.options)
    case IntegrationRoute(target) => IntegrationRouteAdded(ctx, st, path, target, route.options)
    case RawDataRoute(data) => RawDataRouteAdded(st, path, route.verb, data)
    case UnknownRoute => Fail("Non-exhaustive match for route")
  }

  /** One iteration of the `routes` loop of `createSwaggerSpec`: path check, leading "/", dispatch. */
  function RouteAdded(ctx: Context, st: SpecState, route: Route): (r: Result<SpecState>)
    ensures route.path.None? ==> r == Fail(MissingProperty("path"))
  {
    if route.path.None? then Fail(MissingProperty("path"))
    else RouteAtPath(ctx, st, WithLeadingSlash(route.path.value), route)
  }

  /** The `routes` loop. */
  function RoutesAdded(ctx: Context, st: SpecState, routes: seq<Route>): Result<SpecState>
  {
    if |routes| == 0 then Ok(st)
    else
      match RoutesAdded(ctx, st, routes[..|routes| - 1])
      case Fail(e) => Fail(e)
      case Ok(st1) => RouteAdded(ctx, st1, routes[|routes| - 1])
  }

  /** The two shapes `additionalRoutes` may take. */
  datatype AdditionalKind = AdditionalIntegration(target: IntegrationTarget) | AdditionalRawData(data: nat)

  /** An entry of `additionalRoutes`; its path is used as given, without a leading "/" added. */
  datatype AdditionalRoute = AdditionalRoute(path: string, verb: Option<string>, kind: AdditionalKind, options: RouteOptions)

  /** One additional route. */
  function AdditionalRouteAdded(ctx: Context, st: SpecState, route: AdditionalRoute): Result<SpecState>
  {
    match route.kind
    case AdditionalIntegration(target) => IntegrationRouteAdded(ctx, st, route.path, target, route.options)
    case AdditionalRawData(data) => RawDataRouteAdded(st, route.path, route.verb, data)
  }

  /** The loop over `additionalRoutes`, which runs after every route. */
  function AdditionalRoutesAdded(ctx: Context, st: SpecState, routes: seq<AdditionalRoute>): Result<SpecState>
  {
    if |routes| == 0 then Ok(st)
    else
      match AdditionalRoutesAdded(ctx, st, routes[..|routes| - 1])
      case Fail(e) => Fail(e)
      case Ok(st1) => AdditionalRouteAdded(ctx, st1, routes[|routes| - 1])
  }

  /** Once a prefix of the routes fails, the whole loop fails with the same error. */
  lemma {:induction false} RoutesPrefixFails(ctx: Context, st: SpecState, routes: seq<Route>, n: nat)
    requires n <= |routes| && RoutesAdded(ctx, st, routes[..n]).Fail?
    ensures RoutesAdded(ctx, st, routes) == RoutesAdded(ctx, st, routes[..n])
    decreases |routes|
  {
    if n < |routes| {
      var init := routes[..|routes| - 1];
      assert init[..n] == routes[..n];
      RoutesPrefixFails(ctx, st, init, n);
    } else {
      assert routes[..n] == routes;
    }
  }

  /** The same for the additional routes. */
  lemma {:induction false} AdditionalRoutesPrefixFails(ctx: Context, st: SpecState, routes: seq<AdditionalRoute>, n: nat)
    requires n <= |routes| && AdditionalRoutesAdded(ctx, st, routes[..n]).Fail?
    ensures AdditionalRoutesAdded(ctx, st, routes) == AdditionalRoutesAdded(ctx, st, routes[..n])
    decreases |routes|
  {
    if n < |routes| {
      var init := routes[..|routes| - 1];
      assert init[..n] == routes[..n];
      AdditionalRoutesPrefixFails(ctx, st, init, n);
    } else {
      assert routes[..n] == routes;
    }
  }

  /** `addRequiredParametersToSwaggerOperation`, one parameter at a time. */
  method AddRequiredParametersToOperation(op: Operation, params: seq<RequiredParameter>) returns (r: Operation)
    ensures r == WithRequiredParameters(op, params)
  {
    r := op;
    for i := 0 to |params|
      invariant r.integration == op.integration && r.security == op.security && r.requestValidator == op.requestValidator
      invariant i == 0 ==> r == op
      invariant i > 0 ==> r.parameters == Some(op.parameters.GetOr([]) + RequiredParametersOf(params[..i]))
    {
      var param := Parameter(params[i].name, params[i].location, true, None);
      ghost var before := op.parameters.GetOr([]) + RequiredParametersOf(params[..i]);
      assert r.parameters.GetOr([]) == before by {
        if i == 0 {
          assert RequiredParametersOf(params[..0]) == [];
        }
      }
      assert RequiredParametersOf(params[..i + 1]) == RequiredParametersOf(params[..i]) + [param];
      assert before + [param] == op.parameters.GetOr([]) + RequiredParametersOf(params[..i + 1]);
      r := r.(parameters := Some(r.parameters.GetOr([]) + [param]));
    }
    assert params[..|params|] == params;
  }

  /** `addAuthorizersToSwaggerOperation`: the records pushed in order. */
  method AddAuthorizersToOperation(op: Operation, records: seq<Requirement>) returns (r: Operation)
    ensures r == WithSecurity(op, records)
  {
    r := op.(security := Some(op.security.GetOr([])));
    assert op.security.GetOr([]) + records[..0] == op.security.GetOr([]);
    for i := 0 to |records|
      invariant r == op.(security := Some(op.security.GetOr([]) + records[..i]))
    {
      assert records[..i + 1] == records[..i] + [records[i]];
      assert op.security.GetOr([]) + records[..i] + [records[i]] == op.security.GetOr([]) + records[..i + 1];
      r := r.(security := Some(r.security.value + [records[i]]));
    }
    assert records[..|records|] == records;
  }

  // ---------------------------------------------------------------------
  // The builder `createSwaggerSpec` runs
  // ---------------------------------------------------------------------

  /**
   * The state `createSwaggerSpec` and its helpers update in place: the
   * document's paths and security definitions, the `apiAuthorizers` record,
   * the names written into authorizer objects, the `swaggerLambdas` map and
   * the static-route bucket.
   */
  class SwaggerBuilder {
    const ctx: Context
    var paths: map<string, map<string, Operation>>
    var securityDefinitions: Option<map<string, SecurityDefinition>>
    var apiAuthorizers: map<string, ApiAuthorizer>
    var assignedNames: map<nat, string>
    var lambdas: map<string, map<string, LambdaFunction>>
    var bucket: Option<Bucket>

    function State(): SpecState
      reads this
    {
      SpecState(paths, securityDefinitions, apiAuthorizers, assignedNames, lambdas, bucket)
    }

    constructor(ctx: Context)
      ensures this.ctx == ctx && State() == EmptyState
    {
      this.ctx := ctx;
      paths := map[];
      securityDefinitions := None;
      apiAuthorizers := map[];
      assignedNames := map[];
      lambdas := map[];
      bucket := None;
    }

    method SetState(st: SpecState)
      modifies this
      ensures State() == st
    {
      paths := st.paths;
      securityDefinitions := st.securityDefinitions;
      apiAuthorizers := st.apiAuthorizers;
      assignedNames := st.assignedNames;
      lambdas := st.lambdas;
      bucket := st.bucket;
    }

    /** `addSwaggerOperation`. */
    method AddSwaggerOperation(path: string, verb: string, op: Operation)
      modifies this
      ensures State() == old(State()).(paths := WithOperation(old(paths), path, verb, op))
    {
      var methods := if path in paths then paths[path] else map[];
      paths := paths[path := methods[verb := op]];
    }

    /** `addAPIkeyToSecurityDefinitions`. */
    method AddApiKeyToSecurityDefinitions() returns (r: Outcome)
      modifies this
      ensures r.Pass? <==> WithApiKey(old(securityDefinitions)).Ok?
      ensures r.Reject? ==> r.error == ApiKeyConflict && State() == old(State())
      ensures r.Pass? ==> State() == old(State()).(securityDefinitions := Some(WithApiKey(old(securityDefinitions)).value))
    {
      var defs := if securityDefinitions.Some? then securityDefinitions.value else map[];
      if ApiKeyName in defs && defs[ApiKeyName] != ApiKeyDefinition {
        return Reject(ApiKeyConflict);
      }
      securityDefinitions := Some(defs[ApiKeyName := ApiKeyDefinition]);
      r := Pass;
    }

    /** `addAuthorizersToSwagger`: one pass over the authorizers, stopping at the first conflict. */
    method AddAuthorizersToSwagger(auths: seq<ApiAuthorizer>) returns (r: Result<seq<Requirement>>)
      modifies this
      ensures r.Ok? <==> WithAuthorizers(ctx.name, old(State()), auths).Ok?
      ensures r.Ok? ==> (State(), r.value) == WithAuthorizers(ctx.name, old(State()), auths).value
      ensures r.Fail? ==> r.error == WithAuthorizers(ctx.name, old(State()), auths).error
    {
      securityDefinitions := Some(if securityDefinitions.Some? then securityDefinitions.value else map[]);
      ghost var start := State();
      var records: seq<Requirement> := [];
      for i := 0 to |auths|
        invariant AuthorizersLoop(ctx.name, start, auths[..i]) == Ok((State(), records))
        invariant securityDefinitions.Some?
      {
        var auth := auths[i];
        assert auths[..i + 1][..i] == auths[..i];
        ghost var before := State();
        var name := AuthorizerName(ctx.name, State(), auth);
        assignedNames := assignedNames[auth.id := name];
        if name !in apiAuthorizers {
          apiAuthorizers := apiAuthorizers[name := auth];
        } else if apiAuthorizers[name].id != auth.id {
          assert WithAuthorizer(ctx.name, before, auth) == Fail(AuthorizerConflict + name);
          AuthorizersPrefixFails(ctx.name, start, auths, i + 1);
          return Fail(AuthorizerConflict + name);
        }
        if name !in securityDefinitions.value {
          securityDefinitions := Some(securityDefinitions.value[name := DefinitionFor(auth, name)]);
        }
        assert WithAuthorizer(ctx.name, before, auth) == Ok((State(), Requirement(name, Scopes(auth))));
        records := records + [Requirement(name, Scopes(auth))];
      }
      assert auths[..|auths|] == auths;
      r := Ok(records);
    }
    /** `addBasePathOptionsToSwagger`. */
    method AddBasePathOptions(op: Operation, options: RouteOptions) returns (r: Result<Operation>)
      modifies this
      ensures r.Ok? <==> WithBasePathOptions(ctx.name, old(State()), op, options).Ok?
      ensures r.Ok? ==> (State(), r.value) == WithBasePathOptions(ctx.name, old(State()), op, options).value
      ensures r.Fail? ==> r.error == WithBasePathOptions(ctx.name, old(State()), op, options).error
    {
      var current := op;
      if options.authorizers.Some? {
        var records := AddAuthorizersToSwagger(options.authorizers.value);
        if records.Fail? {
          return Fail(records.error);
        }
        current := AddAuthorizersToOperation(current, records.value);
      }
      if options.requiredParameters.Some? {
        current := AddRequiredParametersToOperation(current, options.requiredParameters.value);
      }
      if options.requestValidator.Some? && options.requestValidator.value != "" {
        current := current.(requestValidator := options.requestValidator);
      }
      if options.apiKeyRequired {
        var added := AddApiKeyToSecurityDefinitions();
        if added.Reject? {
          return Fail(added.error);
        }
        current := current.(security := Some(current.security.GetOr([]) + [ApiKeyRequirement]));
      }
      r := Ok(current);
    }

    /** `addEventHandlerRouteToSwaggerSpec`. */
    method AddEventHandlerRoute(path: string, verb: Option<string>, code: nat, options: RouteOptions) returns (r: Outcome)
      modifies this
      ensures r.Pass? <==> EventHandlerRouteAdded(ctx, old(State()), path, verb, code, options).Ok?
      ensures r.Pass? ==> State() == EventHandlerRouteAdded(ctx, old(State()), path, verb, code, options).value
      ensures r.Reject? ==> r.error == EventHandlerRouteAdded(ctx, old(State()), path, verb, code, options).error
    {
      if verb.None? {
        return Reject(MissingProperty("method"));
      }
      var token := SwaggerMethod(verb.value);
      if token.Fail? {
        return Reject(token.error);
      }
      var lambda := LambdaFunction(ctx.name + ctx.hash(token.value + ":" + path), code);
      var op := AddBasePathOptions(Operation(LambdaIntegration(lambda), None, None, None), options);
      if op.Fail? {
        return Reject(op.error);
      }
      AddSwaggerOperation(path, token.value, op.value);
      var methods := if path in lambdas then lambdas[path] else map[];
      lambdas := lambdas[path := methods[verb.value := lambda]];
      r := Pass;
    }

    /** `addStaticRouteToSwaggerSpec`, the bucket chosen first as the `routes` loop does. */
    method AddStaticRoute(path: string, entry: LocalEntry, options: RouteOptions) returns (r: Outcome)
      modifies this
      ensures r.Pass? <==> StaticRouteAdded(ctx, old(State()), path, entry, options).Ok?
      ensures r.Pass? ==> State() == StaticRouteAdded(ctx, old(State()), path, entry, options).value
      ensures r.Reject? ==> r.error == StaticRouteAdded(ctx, old(State()), path, entry, options).error
    {
      if bucket.None? {
        bucket := Some(if ctx.bucketGiven then GivenBucket else CreatedBucket(SafeS3BucketName(ctx.name)));
      }
      assert State() == WithBucket(ctx, old(State()));
      match entry {
        case LocalOther =>
          r := Pass;
        case LocalFile =>
          r := AddStaticFile(path, options);
        case LocalDirectory(index) =>
          r := AddStaticDirectory(path, index, options);
      }
    }

    /** The local-file case of `addStaticRouteToSwaggerSpec`. */
    method AddStaticFile(path: string, options: RouteOptions) returns (r: Outcome)
      modifies this
      ensures r.Pass? <==> StaticFileAdded(ctx, old(State()), path, options).Ok?
      ensures r.Pass? ==> State() == StaticFileAdded(ctx, old(State()), path, options).value
      ensures r.Reject? ==> r.error == StaticFileAdded(ctx, old(State()), path, options).error
    {
      var key := ctx.name + ctx.hash("get:" + path);
      var op := AddBasePathOptions(S3Operation(key, None), options);
      if op.Fail? {
        return Reject(op.error);
      }
      AddSwaggerOperation(path, "get", op.value);
      r := Pass;
    }

    /** The local-directory case of `addStaticRouteToSwaggerSpec`. */
    method AddStaticDirectory(path: string, index: Option<string>, options: RouteOptions) returns (r: Outcome)
      modifies this
      ensures r.Pass? <==> StaticDirectoryAdded(ctx, old(State()), path, index, options).Ok?
      ensures r.Pass? ==> State() == StaticDirectoryAdded(ctx, old(State()), path, index, options).value
      ensures r.Reject? ==> r.error == StaticDirectoryAdded(ctx, old(State()), path, index, options).error
    {
      var directory := WithTrailingSlash(path);
      var key := ctx.name + ctx.hash("get:" + directory);
      if index.Some? {
        var indexOp := AddBasePathOptions(S3Operation(key + "/" + index.value, None), options);
        if indexOp.Fail? {
          return Reject(indexOp.error);
        }
        paths := paths[directory := map["get" := indexOp.value]];
      }
      var op := AddBasePathOptions(S3Operation(key, Some("proxy")), options);
      if op.Fail? {
        return Reject(op.error);
      }
      AddSwaggerOperation(directory + "{proxy+}", AnyMethod, op.value);
      r := Pass;
    }

    /** `addIntegrationRouteToSwaggerSpec`. */
    method AddIntegrationRoute(path: string, target: IntegrationTarget, options: RouteOptions) returns (r: Outcome)
      modifies this
      ensures r.Pass? <==> IntegrationRouteAdded(ctx, old(State()), path, target, options).Ok?
      ensures r.Pass? ==> State() == IntegrationRouteAdded(ctx, old(State()), path, target, options).value
      ensures r.Reject? ==> r.error == IntegrationRouteAdded(ctx, old(State()), path, target, options).error
    {
      var root := WithTrailingSlash(path);
      var first := AddBasePathOptions(ProxyOperation(target, false), options);
      if first.Fail? {
        return Reject(first.error);
      }
      AddSwaggerOperation(root, AnyMethod, first.value);
      var second := AddBasePathOptions(ProxyOperation(target, true), options);
      if second.Fail? {
        return Reject(second.error);
      }
      AddSwaggerOperation(root + "{proxy+}", AnyMethod, second.value);
      r := Pass;
    }

    /** `addRawDataRouteToSwaggerSpec`. */
    method AddRawDataRoute(path: string, verb: Option<string>, data: nat) returns (r: Outcome)
      modifies this
      ensures r.Pass? <==> RawDataRouteAdded(old(State()), path, verb, data).Ok?
      ensures r.Pass? ==> State() == RawDataRouteAdded(old(State()), path, verb, data).value
      ensures r.Reject? ==> r.error == RawDataRouteAdded(old(State()), path, verb, data).error
    {
      if verb.None? {
        return Reject(MissingProperty("method"));
      }
      var token := SwaggerMethod(verb.value);
      if token.Fail? {
        return Reject(token.error);
      }
      AddSwaggerOperation(path, token.value, Operation(RawData(data), None, None, None));
      r := Pass;
    }

    /** One iteration of the `routes` loop. */
    method AddRoute(route: Route) returns (r: Outcome)
      modifies this
      ensures r.Pass? <==> RouteAdded(ctx, old(State()), route).Ok?
      ensures r.Pass? ==> State() == RouteAdded(ctx, old(State()), route).value
      ensures r.Reject? ==> r.error == RouteAdded(ctx, old(State()), route).error
    {
      if route.path.None? {
        return Reject(MissingProperty("path"));
      }
      var path := WithLeadingSlash(route.path.value);
      match route.kind {
        case EventHandlerRoute(code) =>
          r := AddEventHandlerRoute(path, route.verb, code, route.options);
        case StaticRoute(_, entry) =>
          r := AddStaticRoute(path, entry, route.options);
        case IntegrationRoute(target) =>
          r := AddIntegrationRoute(path, target, route.options);
        case RawDataRoute(data) =>
          r := AddRawDataRoute(path, route.verb, data);
        case UnknownRoute =>
          r := Reject("Non-exhaustive match for route");
      }
    }

    /** One additional route. */
    method AddAdditionalRoute(route: AdditionalRoute) returns (r: Outcome)
      modifies this
      ensures r.Pass? <==> AdditionalRouteAdded(ctx, old(State()), route).Ok?
      ensures r.Pass? ==> State() == AdditionalRouteAdded(ctx, old(State()), route).value
      ensures r.Reject? ==> r.error == AdditionalRouteAdded(ctx, old(State()), route).error
    {
      match route.kind {
        case AdditionalIntegration(target) =>
          r := AddIntegrationRoute(route.path, target, route.options);
        case AdditionalRawData(data) =>
          r := AddRawDataRoute(route.path, route.verb, data);
      }
    }

    /** The `routes` loop of `createSwaggerSpec`, stopping at the first error. */
    method AddRoutes(routes: seq<Route>) returns (r: Outcome)
      modifies this
      ensures r.Pass? <==> RoutesAdded(ctx, old(State()), routes).Ok?
      ensures r.Pass? ==> State() == RoutesAdded(ctx, old(State()), routes).value
      ensures r.Reject? ==> r.error == RoutesAdded(ctx, old(State()), routes).error
    {
      ghost var start := State();
      for i := 0 to |routes|
        invariant RoutesAdded(ctx, start, routes[..i]) == Ok(State())
      {
        assert routes[..i + 1][..i] == routes[..i];
        var added := AddRoute(routes[i]);
        if added.Reject? {
          RoutesPrefixFails(ctx, start, routes, i + 1);
          return added;
        }
      }
      assert routes[..|routes|] == routes;
      r := Pass;
    }

    /** The loop over `additionalRoutes`. */
    method AddAdditionalRoutes(routes: seq<AdditionalRoute>) returns (r: Outcome)
      modifies this
      ensures r.Pass? <==> AdditionalRoutesAdded(ctx, old(State()), routes).Ok?
      ensures r.Pass? ==> State() == AdditionalRoutesAdded(ctx, old(State()), routes).value
      ensures r.Reject? ==> r.error == AdditionalRoutesAdded(ctx, old(State()), routes).error
    {
      ghost var start := State();
      for i := 0 to |routes|
        invariant AdditionalRoutesAdded(ctx, start, routes[..i]) == Ok(State())
      {
        assert routes[..i + 1][..i] == routes[..i];
        var added := AddAdditionalRoute(routes[i]);
        if added.Reject? {
          AdditionalRoutesPrefixFails(ctx, start, routes, i + 1);
          return added;
        }
      }
      assert routes[..|routes|] == routes;
      r := Pass;
    }
  }

  // ---------------------------------------------------------------------
  // The document and the API
  // ---------------------------------------------------------------------

  /** One of the request validators a document declares. */
  datatype Validator = Validator(name: string, validateRequestBody: bool, validateRequestParameters: bool)

  /** The validator table declared whenever an API-wide validator is chosen. */
  const RequestValidators: seq<Validator> :=
    [Validator("ALL", true, true), Validator("BODY_ONLY", true, false), Validator("PARAMS_ONLY", false, true)]

  /** The generated Swagger 2.0 document. */
  datatype SwaggerDocument = SwaggerDocument(
    swagger: string,
    title: string,
    version: string,
    paths: map<string, map<string, Operation>>,
    binaryMediaTypes: seq<string>,
    gatewayResponses: map<string, GatewayResponse>,
    apiKeySource: string,
    requestValidators: seq<Validator>,
    requestValidator: Option<string>,
    securityDefinitions: Option<map<string, SecurityDefinition>>)

  /** The arguments of `createSwaggerSpec` that shape the document. */
  datatype SpecArgs = SpecArgs(
    routes: seq<Route>,
    additionalRoutes: seq<AdditionalRoute>,
    gatewayResponses: Option<map<string, GatewayResponse>>,
    requestValidator: Option<string>,
    apiKeySource: Option<string>)

  /** What `createSwaggerSpec` hands back: the document, the Lambdas per route and method, the bucket. */
  datatype SwaggerResult = SwaggerResult(
    document: SwaggerDocument, lambdas: map<string, map<string, LambdaFunction>>, bucket: Option<Bucket>)

  /** The document before any route is added. */
  function InitialDocument(name: string, args: SpecArgs): (r: SwaggerDocument)
    ensures r.swagger == "2.0" && r.title == name && r.version == "1.0" && r.paths == map[]
    ensures r.binaryMediaTypes == ["*/*"]
    ensures MissingAuthenticationToken in r.gatewayResponses && AccessDenied in r.gatewayResponses
    ensures args.apiKeySource.None? || args.apiKeySource == Some("") ==> r.apiKeySource == "HEADER"
    ensures args.apiKeySource.Some? && args.apiKeySource.value != "" ==> r.apiKeySource == args.apiKeySource.value
    ensures (r.requestValidator.Some? <==> args.requestValidator.Some? && args.requestValidator.value != "")
    ensures r.requestValidator.Some? ==> r.requestValidator == args.requestValidator && r.requestValidators == RequestValidators
    ensures r.requestValidator.None? ==> r.requestValidators == []
    ensures r.securityDefinitions.None?
  {
    var validated := args.requestValidator.Some? && args.requestValidator.value != "";
    SwaggerDocument("2.0", name, "1.0", map[], ["*/*"], GatewayResponses(args.gatewayResponses),
      if args.apiKeySource.Some? && args.apiKeySource.value != "" then args.apiKeySource.value else "HEADER",
      if validated then RequestValidators else [],
      if validated then args.requestValidator else None,
      None)
  }

  /** `createSwaggerSpec`: the routes, then the additional routes, into one document. */
  function SwaggerSpec(ctx: Context, args: SpecArgs): Result<SwaggerResult>
  {
    match RoutesAdded(ctx, EmptyState, args.routes)
    case Fail(e) => Fail(e)
    case Ok(st1) =>
      match AdditionalRoutesAdded(ctx, st1, args.additionalRoutes)
      case Fail(e) => Fail(e)
      case Ok(st2) =>
        Ok(SwaggerResult(
          InitialDocument(ctx.name, args).(paths := st2.paths, securityDefinitions := st2.securityDefinitions),
          st2.lambdas, st2.bucket))
  }

  /** An API with no routes at all gets the bare document. */
  lemma EmptySpec(ctx: Context, args: SpecArgs)
    requires args.routes == [] && args.additionalRoutes == []
    ensures SwaggerSpec(ctx, args) == Ok(SwaggerResult(InitialDocument(ctx.name, args), map[], None))
  {
  }

  /** `createSwaggerSpec` run on a fresh builder. */
  method CreateSwaggerSpec(ctx: Context, args: SpecArgs) returns (r: Result<SwaggerResult>)
    ensures r == SwaggerSpec(ctx, args)
  {
    var builder := new SwaggerBuilder(ctx);
    var added := builder.AddRoutes(args.routes);
    if added.Reject? {
      return Fail(added.error);
    }
    var more := builder.AddAdditionalRoutes(args.additionalRoutes);
    if more.Reject? {
      return Fail(more.error);
    }
    var document := InitialDocument(ctx.name, args).(paths := builder.paths, securityDefinitions := builder.securityDefinitions);
    r := Ok(SwaggerResult(document, builder.lambdas, builder.bucket));
  }

  /** A Swagger text the caller supplies, with the title its `info` block declares, if any. */
  datatype GivenSwagger = GivenSwagger(text: string, title: Option<string>)

  /** The arguments of the `API` constructor the model keeps. */
  datatype ApiArgs = ApiArgs(
    swaggerString: Option<GivenSwagger>,
    routes: Option<seq<Route>>,
    additionalRoutes: Option<seq<AdditionalRoute>>,
    gatewayResponses: Option<map<string, GatewayResponse>>,
    requestValidator: Option<string>,
    apiKeySource: Option<string>,
    bucketGiven: bool,
    stageName: Option<string>,
    restApiName: Option<string>,
    binaryMediaTypes: Option<seq<string>>)

  /** The REST API's body: the caller's text, or the generated document. */
  datatype ApiBody = GivenBody(text: string) | GeneratedBody(document: SwaggerDocument)

  /** The parts of a constructed `API` the model keeps. */
  datatype Api = Api(
    restApiName: string,
    binaryMediaTypes: seq<string>,
    body: ApiBody,
    stageName: string,
    lambdas: map<string, map<string, LambdaFunction>>,
    bucket: Option<Bucket>)
  {
    /** The URL the stage is served at. */
    function Url(invokeUrl: string): (r: string)
      ensures StartsWith(r, invokeUrl) && EndsWith(r, stageName + "/")
    {
      invokeUrl + stageName + "/"
    }
  }

  const NoRoutesError: string := "API must specify either [swaggerString] or as least one of the [route] options."

  /** The stage name: the given one unless empty, else "stage". */
  function StageName(given: Option<string>): (r: string)
    ensures given.Some? && given.value != "" ==> r == given.value
    ensures given.None? || given == Some("") ==> r == "stage"
    ensures r != ""
  {
    if given.Some? && given.value != "" then given.value else "stage"
  }

  /**
   * The `API` constructor: a given Swagger text wins, then the routes; with
   * neither it fails. The REST API is named after the title unless a name
   * is given.
   */
  function NewApi(name: string, hash: string -> string, args: ApiArgs): (r: Result<Api>)
    ensures args.swaggerString.None? && args.routes.None? && args.additionalRoutes.None? ==> r == Fail(NoRoutesError)
    ensures args.swaggerString.Some? ==> (r.Ok? && r.value.body == GivenBody(args.swaggerString.value.text)
      && r.value.restApiName == args.restApiName.GetOr(args.swaggerString.value.title.GetOr(name))
      && r.value.lambdas == map[] && r.value.bucket.None?)
    ensures args.swaggerString.None? && (args.routes.Some? || args.additionalRoutes.Some?) ==>
      (r.Ok? <==> SwaggerSpec(Context(name, hash, args.bucketGiven), SpecArgsOf(args)).Ok?)
    ensures r.Ok? && args.swaggerString.None? ==> (r.value.restApiName == args.restApiName.GetOr(name)
      && r.value.body.GeneratedBody? && r.value.body.document.title == name)
    ensures r.Ok? ==> (r.value.stageName == StageName(args.stageName)
      && r.value.binaryMediaTypes == args.binaryMediaTypes.GetOr(["*/*"]))
  {
    var stageName := StageName(args.stageName);
    var media := args.binaryMediaTypes.GetOr(["*/*"]);
    if args.swaggerString.Some? then
      var title := args.swaggerString.value.title.GetOr(name);
      Ok(Api(args.restApiName.GetOr(title), media, GivenBody(args.swaggerString.value.text), stageName, map[], None))
    else if args.routes.Some? || args.additionalRoutes.Some? then
      match SwaggerSpec(Context(name, hash, args.bucketGiven), SpecArgsOf(args))
      case Fail(e) => Fail(e)
      case Ok(result) =>
        Ok(Api(args.restApiName.GetOr(name), media, GeneratedBody(result.document), stageName, result.lambdas, result.bucket))
    else Fail(NoRoutesError)
  }

  /** The arguments the constructor forwards to `createSwaggerSpec`. */
  function SpecArgsOf(args: ApiArgs): SpecArgs
  {
    SpecArgs(args.routes.GetOr([]), args.additionalRoutes.GetOr([]), args.gatewayResponses, args.requestValidator, args.apiKeySource)
  }

  /** How the error messages print an absent route. */
  function RouteText(route: Option<string>): string
  {
    if route.Some? then route.value else "undefined"
  }

  const NoFunctionsError: string := "This Api has no routes to any Functions."
  const RouteRequiredError: string := "[route] must be provided as this Api defines multiple routes with Functions."

  function NoMethodsError(route: Option<string>): string
  {
    "Route '" + RouteText(route) + "' has no methods defined for it"
  }

  function MultipleMethodsError(route: Option<string>): string
  {
    "Route '" + RouteText(route) + "' has multiple methods defined for it.  Please provide [method]."
  }

  function MissingMethodError(route: Option<string>, verb: string): string
  {
    "Route '" + RouteText(route) + "' does not have method '" + verb + "' defined for it"
  }

  /** A method was passed (the source tests it for truthiness). */
  predicate MethodGiven(verb: Option<string>)
  {
    verb.Some? && verb.value != ""
  }

  /** A map with one key has no other key. */
  lemma SingleKey<K, V>(m: map<K, V>, a: K, b: K)
    requires |m| == 1 && a in m && b in m
    ensures a == b
  {
    if a != b {
      assert {a, b} <= m.Keys;
      assert |{a, b}| == 2;
      SubsetSize({a, b}, m.Keys);
    }
  }

  lemma {:induction false} SubsetSize<K>(a: set<K>, b: set<K>)
    requires a <= b
    ensures |a| <= |b|
  {
    if a != {} {
      var x :| x in a;
      SubsetSize(a - {x}, b - {x});
    }
  }

  /**
   * `f` is what `getFunction(route, method)` means: the Lambda registered
   * at the named route (or the only route) for the given method (or the
   * route's only method).
   */
  ghost predicate Resolves(lambdas: map<string, map<string, LambdaFunction>>, route: Option<string>, verb: Option<string>,
                           f: LambdaFunction)
  {
    exists p, m :: p in lambdas && m in lambdas[p] && lambdas[p][m] == f
      && (if route.Some? then p == route.value else |lambdas| == 1)
      && (if MethodGiven(verb) then m == verb.value else |lambdas[p]| == 1)
  }

  /** `getFunction` has at most one answer. */
  lemma ResolvesUnique(lambdas: map<string, map<string, LambdaFunction>>, route: Option<string>, verb: Option<string>,
                       f: LambdaFunction, g: LambdaFunction)
    requires Resolves(lambdas, route, verb, f) && Resolves(lambdas, route, verb, g)
    ensures f == g
  {
    var p1, m1 :| p1 in lambdas && m1 in lambdas[p1] && lambdas[p1][m1] == f
      && (if route.Some? then p1 == route.value else |lambdas| == 1)
      && (if MethodGiven(verb) then m1 == verb.value else |lambdas[p1]| == 1);
    var p2, m2 :| p2 in lambdas && m2 in lambdas[p2] && lambdas[p2][m2] == g
      && (if route.Some? then p2 == route.value else |lambdas| == 1)
      && (if MethodGiven(verb) then m2 == verb.value else |lambdas[p2]| == 1);
    if route.None? {
      SingleKey(lambdas, p1, p2);
    }
    if !MethodGiven(verb) {
      SingleKey(lambdas[p1], m1, m2);
    }
  }

  /** A route's methods pick out one Lambda: the named method, or the only one. */
  predicate Selectable(methods: map<string, LambdaFunction>, verb: Option<string>)
  {
    if MethodGiven(verb) then verb.value in methods else |methods| == 1
  }

  /** Any answer comes from the route `p` the request names, so `p`'s methods must pick one. */
  lemma ResolutionSelects(lambdas: map<string, map<string, LambdaFunction>>, route: Option<string>, verb: Option<string>,
                          p: string)
    requires p in lambdas && (if route.Some? then p == route.value else |lambdas| == 1)
    ensures forall f :: Resolves(lambdas, route, verb, f) ==> Selectable(lambdas[p], verb)
  {
    forall f | Resolves(lambdas, route, verb, f)
      ensures Selectable(lambdas[p], verb)
    {
      var q, n :| q in lambdas && n in lambdas[q] && lambdas[q][n] == f
        && (if route.Some? then q == route.value else |lambdas| == 1)
        && (if MethodGiven(verb) then n == verb.value else |lambdas[q]| == 1);
      if route.None? {
        SingleKey(lambdas, p, q);
      }
    }
  }

  /** A method the named route selects is the answer. */
  lemma ResolvesAt(lambdas: map<string, map<string, LambdaFunction>>, route: Option<string>, verb: Option<string>,
                   p: string, m: string)
    requires p in lambdas && (if route.Some? then p == route.value else |lambdas| == 1)
    requires m in lambdas[p] && Selectable(lambdas[p], verb) && (MethodGiven(verb) ==> m == verb.value)
    ensures Resolves(lambdas, route, verb, lambdas[p][m])
  {
  }

  /** `getMethods`: the named route's methods, or those of the only route. */
  method GetMethods(api: Api, route: Option<string>) returns (r: Result<Option<map<string, LambdaFunction>>>)
    ensures route.None? && |api.lambdas| == 0 ==> r == Fail(NoFunctionsError)
    ensures route.None? && |api.lambdas| > 1 ==> r == Fail(RouteRequiredError)
    ensures route.None? && |api.lambdas| == 1 ==>
      r.Ok? && r.value.Some? && exists p :: p in api.lambdas && api.lambdas[p] == r.value.value
    ensures route.Some? ==> r == Ok(if route.value in api.lambdas then Some(api.lambdas[route.value]) else None)
  {
    if route.None? {
      if |api.lambdas| == 0 {
        return Fail(NoFunctionsError);
      }
      if |api.lambdas| == 1 {
        var p :| p in api.lambdas;
        return Ok(Some(api.lambdas[p]));
      }
      return Fail(RouteRequiredError);
    }
    r := Ok(if route.value in api.lambdas then Some(api.lambdas[route.value]) else None);
  }

  /** `getFunction`: the one Lambda a route and method resolve to, with the source's errors otherwise. */
  method GetFunction(api: Api, route: Option<string>, verb: Option<string>) returns (r: Result<LambdaFunction>)
    ensures r.Ok? ==> Resolves(api.lambdas, route, verb, r.value)
    ensures (exists f :: Resolves(api.lambdas, route, verb, f)) ==> r.Ok?
    ensures route.None? && |api.lambdas| == 0 ==> r == Fail(NoFunctionsError)
    ensures route.None? && |api.lambdas| > 1 ==> r == Fail(RouteRequiredError)
    ensures route.Some? && (route.value !in api.lambdas || |api.lambdas[route.value]| == 0) ==>
      r == Fail(NoMethodsError(route))
    ensures route.Some? && route.value in api.lambdas && |api.lambdas[route.value]| > 1 && !MethodGiven(verb) ==>
      r == Fail(MultipleMethodsError(route))
    ensures (route.Some? && route.value in api.lambdas && |api.lambdas[route.value]| > 0 && MethodGiven(verb)
      && verb.value !in api.lambdas[route.value]) ==> r == Fail(MissingMethodError(route, verb.value))
  {
    var found := GetMethods(api, route);
    if found.Fail? {
      return Fail(found.error);
    }
    if found.value.None? {
      return Fail(NoMethodsError(route));
    }
    var methods := found.value.value;
    ghost var p :| p in api.lambdas && api.lambdas[p] == methods && (route.Some? ==> p == route.value);
    if |methods| == 0 {
      ResolutionSelects(api.lambdas, route, verb, p);
      return Fail(NoMethodsError(route));
    }
    if !MethodGiven(verb) {
      if |methods| == 1 {
        var m :| m in methods;
        ResolvesAt(api.lambdas, route, verb, p, m);
        return Ok(methods[m]);
      }
      ResolutionSelects(api.lambdas, route, verb, p);
      return Fail(MultipleMethodsError(route));
    }
    if verb.value !in methods {
      ResolutionSelects(api.lambdas, route, verb, p);
      return Fail(MissingMethodError(route, verb.value));
    }
    ResolvesAt(api.lambdas, route, verb, p, verb.value);
    r := Ok(methods[verb.value]);
  }

  /** An event-handler route's Lambda is what `getFunction` returns for its path and method. */
  lemma EventHandlerRouteResolves(ctx: Context, st: SpecState, path: string, verb: Option<string>, code: nat,
                                  options: RouteOptions)
    requires EventHandlerRouteAdded(ctx, st, path, verb, code, options).Ok? && MethodGiven(verb)
    ensures SwaggerMethod(verb.value).Ok?
    ensures Resolves(EventHandlerRouteAdded(ctx, st, path, verb, code, options).value.lambdas, Some(path), verb,
                     LambdaFunction(ctx.name + ctx.hash(SwaggerMethod(verb.value).value + ":" + path), code))
  {
    var lambdas := EventHandlerRouteAdded(ctx, st, path, verb, code, options).value.lambdas;
    assert path in lambdas && verb.value in lambdas[path];
  }
}
