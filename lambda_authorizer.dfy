// Lambda authorizers of the awsx API Gateway component
// (nodejs/awsx/apigateway/lambdaauthorizer.ts): the token and request
// authorizer builders, the identity-source strings handed to API Gateway
// and the policy document an authorizer function answers with.
module LambdaAuthorizer {
  import opened Wrappers
  import opened Text

  const HeaderPrefix: string := "method.request.header."
  const QueryPrefix: string := "method.request.querystring."
  const EmptyParametersError: string :=
    "[args.queryParameters] and [args.headers] were both empty. At least one query parameter or header must be specified"

  /** Where API Gateway looks for the parameter the authorizer checks. */
  datatype Location = Header | Query

  /** Token authorizers see one header; request authorizers see the whole request. */
  datatype AuthorizerType = Token | Request

  /**
   * The Lambda behind an authorizer: an existing function given by its
   * invocation URI and credentials, or inline code (an opaque reference)
   * from which the API creates a function.
   */
  datatype Handler = HandlerInfo(uri: string, credentials: string) | HandlerFunction(code: nat)

  /**
   * A `LambdaAuthorizer` record; `parameterName` is `None` where the source
   * stores `undefined` in that field.
   */
  datatype Authorizer = Authorizer(
    authorizerName: Option<string>,
    parameterName: Option<string>,
    parameterLocation: Location,
    authType: string,
    authorizerType: AuthorizerType,
    handler: Handler,
    identitySource: Option<seq<string>>,
    identityValidationExpression: Option<string>,
    authorizerResultTtlInSeconds: Option<int>)

  /** `getIdentitySource`: the sources joined with ", ", or "" when absent. */
  function IdentitySource(sources: Option<seq<string>>): (r: string)
    ensures sources.None? ==> r == ""
    ensures sources.Some? && |sources.value| == 1 ==> r == sources.value[0]
  {
    if sources.Some? then Join(sources.value, ", ") else ""
  }

  /** Total length of a list of strings. */
  function TotalLength(parts: seq<string>): nat
  {
    if |parts| == 0 then 0 else TotalLength(parts[..|parts| - 1]) + |parts[|parts| - 1]|
  }

  lemma {:induction false} TotalLengthFirst(parts: seq<string>)
    requires |parts| > 0
    ensures TotalLength(parts) == |parts[0]| + TotalLength(parts[1..])
    decreases |parts|
  {
    if |parts| > 1 {
      var init := parts[..|parts| - 1];
      TotalLengthFirst(init);
      assert init[1..] == parts[1..][..|parts[1..]| - 1];
    }
  }

  /** The joined identity source holds every part and one ", " between neighbours. */
  lemma {:induction false} IdentitySourceLength(sources: seq<string>)
    requires |sources| > 0
    ensures |IdentitySource(Some(sources))| == TotalLength(sources) + 2 * (|sources| - 1)
    decreases |sources|
  {
    TotalLengthFirst(sources);
    if |sources| > 1 {
      IdentitySourceLength(sources[1..]);
    }
  }

  /** The arguments of `getTokenLambdaAuthorizer`. */
  datatype TokenAuthorizerArgs = TokenAuthorizerArgs(
    authorizerName: Option<string>,
    header: Option<string>,
    handler: Handler,
    identityValidationExpression: Option<string>,
    authorizerResultTtlInSeconds: Option<int>)

  /** `args.header || "Authorization"`: an empty header counts as absent. */
  function TokenHeader(header: Option<string>): (r: string)
    ensures r != ""
    ensures header.Some? && header.value != "" ==> r == header.value
  {
    if header.Some? && header.value != "" then header.value else "Authorization"
  }

  /** `getTokenLambdaAuthorizer`. */
  function TokenAuthorizer(args: TokenAuthorizerArgs): (r: Authorizer)
    ensures r.parameterName == Some(TokenHeader(args.header))
    ensures r.parameterLocation == Header && r.authType == "oauth2" && r.authorizerType == Token
    ensures r.identitySource == Some([HeaderPrefix + TokenHeader(args.header)])
    ensures r.authorizerName == args.authorizerName && r.handler == args.handler
  {
    var name := TokenHeader(args.header);
    Authorizer(args.authorizerName, Some(name), Header, "oauth2", Token, args.handler,
      Some([HeaderPrefix + name]), args.identityValidationExpression, args.authorizerResultTtlInSeconds)
  }

  /** The arguments of `getRequestLambdaAuthorizer`. */
  datatype RequestAuthorizerArgs = RequestAuthorizerArgs(
    authorizerName: Option<string>,
    queryParameters: Option<seq<string>>,
    headers: Option<seq<string>>,
    handler: Handler,
    authorizerResultTtlInSeconds: Option<int>)

  /** `getLength`: an absent list has length 0. */
  function Length(params: Option<seq<string>>): (r: nat)
    ensures params.None? ==> r == 0
    ensures params.Some? ==> r == |params.value|
  {
    if params.Some? then |params.value| else 0
  }

  /** `getLocation`: headers win over query parameters; with neither it throws. */
  function GetLocation(numHeaders: nat, numQueryParameters: nat): (r: Result<Location>)
    ensures r.Ok? <==> numHeaders > 0 || numQueryParameters > 0
    ensures r.Ok? ==> (r.value == Header <==> numHeaders > 0)
    ensures r.Fail? ==> r.error == "Could not determine parameter location"
  {
    if numHeaders > 0 then Ok(Header)
    else if numQueryParameters > 0 then Ok(Query)
    else Fail("Could not determine parameter location")
  }

  /**
   * `getParameterName` as written: with exactly one parameter in total it
   * reads `queryParameters[0]` whenever the query list is present, even
   * when that list is empty and the one parameter is a header; the read
   * then yields `undefined` (here `None`).
   */
  function ParameterNameAsWritten(args: RequestAuthorizerArgs): (r: Option<string>)
  {
    if Length(args.queryParameters) + Length(args.headers) == 1 then
      if args.queryParameters.Some? then
        (if |args.queryParameters.value| > 0 then Some(args.queryParameters.value[0]) else None)
      else if args.headers.Some? then Some(args.headers.value[0])
      else Some("Unused")
    else Some("Unused")
  }

  /** The single parameter when there is exactly one, whichever list holds it; else "Unused". */
  function ParameterName(args: RequestAuthorizerArgs): (r: string)
    ensures Length(args.queryParameters) == 1 && Length(args.headers) == 0 ==> r == args.queryParameters.value[0]
    ensures Length(args.queryParameters) == 0 && Length(args.headers) == 1 ==> r == args.headers.value[0]
    ensures Length(args.queryParameters) + Length(args.headers) != 1 ==> r == "Unused"
  {
    if Length(args.queryParameters) + Length(args.headers) == 1 then
      if Length(args.queryParameters) == 1 then args.queryParameters.value[0]
      else args.headers.value[0]
    else "Unused"
  }

  /** The two agree except when the query list is present but empty. */
  lemma ParameterNameAgrees(args: RequestAuthorizerArgs)
    requires args.queryParameters != Some([])
    ensures ParameterNameAsWritten(args) == Some(ParameterName(args))
  {
  }

  /** An empty query list next to a single header loses the header's name. */
  lemma ParameterNameAsWrittenLosesHeader(h: string)
    ensures ParameterNameAsWritten(RequestAuthorizerArgs(None, Some([]), Some([h]), HandlerFunction(0), None)).None?
    ensures ParameterName(RequestAuthorizerArgs(None, Some([]), Some([h]), HandlerFunction(0), None)) == h
  {
  }

  /** Every name with a prefix, in order. */
  function Prefixed(prefix: string, names: seq<string>): (r: seq<string>)
    ensures |r| == |names|
    ensures forall i :: 0 <= i < |names| ==> r[i] == prefix + names[i]
  {
    seq(|names|, i requires 0 <= i < |names| => prefix + names[i])
  }

  /** The identity sources of a request authorizer: headers first, then query strings. */
  function IdentitySources(headers: Option<seq<string>>, queryParameters: Option<seq<string>>): seq<string>
  {
    Prefixed(HeaderPrefix, if headers.Some? then headers.value else [])
      + Prefixed(QueryPrefix, if queryParameters.Some? then queryParameters.value else [])
  }

  /** `parametersToIdentitySources`: two loops pushing onto one list. */
  method ParametersToIdentitySources(args: RequestAuthorizerArgs) returns (r: seq<string>)
    ensures r == IdentitySources(args.headers, args.queryParameters)
  {
    r := [];
    if args.headers.Some? {
      var headers := args.headers.value;
      for i := 0 to |headers|
        invariant r == Prefixed(HeaderPrefix, headers[..i])
      {
        r := r + [HeaderPrefix + headers[i]];
      }
      assert headers[..|headers|] == headers;
    }
    var front := r;
    if args.queryParameters.Some? {
      var queries := args.queryParameters.value;
      for i := 0 to |queries|
        invariant r == front + Prefixed(QueryPrefix, queries[..i])
      {
        r := r + [QueryPrefix + queries[i]];
      }
      assert queries[..|queries|] == queries;
    }
  }

  /** The names listed under a prefix, with the prefix taken off, in order. */
  function Unprefixed(prefix: string, sources: seq<string>): seq<string>
  {
    if |sources| == 0 then []
    else
      var last := sources[|sources| - 1];
      Unprefixed(prefix, sources[..|sources| - 1])
        + (if StartsWith(last, prefix) then [last[|prefix|..]] else [])
  }

  lemma UnprefixedAppend(prefix: string, a: seq<string>, b: seq<string>)
    ensures Unprefixed(prefix, a + b) == Unprefixed(prefix, a) + Unprefixed(prefix, b)
    decreases |b|
  {
    if |b| > 0 {
      assert (a + b)[..|a + b| - 1] == a + b[..|b| - 1];
      UnprefixedAppend(prefix, a, b[..|b| - 1]);
    } else {
      assert a + b == a;
    }
  }

  /** The header and query-string prefixes differ at their 16th character. */
  lemma PrefixesDiffer(x: string)
    ensures !StartsWith(HeaderPrefix + x, QueryPrefix)
    ensures !StartsWith(QueryPrefix + x, HeaderPrefix)
  {
    assert (HeaderPrefix + x)[15] == 'h';
    assert QueryPrefix[15] == 'q';
  }

  /** Stripping a prefix undoes adding it; names under the other prefix are not picked up. */
  lemma {:induction false} UnprefixedInverts(prefix: string, other: string, names: seq<string>)
    requires prefix == HeaderPrefix || prefix == QueryPrefix
    requires other == HeaderPrefix || other == QueryPrefix
    ensures Unprefixed(prefix, Prefixed(prefix, names)) == names
    ensures other != prefix ==> Unprefixed(other, Prefixed(prefix, names)) == []
    decreases |names|
  {
    if |names| > 0 {
      var init := names[..|names| - 1];
      var last := names[|names| - 1];
      UnprefixedInverts(prefix, other, init);
      assert Prefixed(prefix, names)[..|names| - 1] == Prefixed(prefix, init);
      assert StartsWith(prefix + last, prefix) by {
        assert (prefix + last)[..|prefix|] == prefix;
      }
      assert (prefix + last)[|prefix|..] == last;
      assert names == init + [last];
      if other != prefix {
        PrefixesDiffer(last);
      }
    }
  }

  /** The identity sources give the header and query-string names back, each list intact. */
  lemma IdentitySourcesRoundTrip(headers: seq<string>, queryParameters: seq<string>)
    ensures Unprefixed(HeaderPrefix, IdentitySources(Some(headers), Some(queryParameters))) == headers
    ensures Unprefixed(QueryPrefix, IdentitySources(Some(headers), Some(queryParameters))) == queryParameters
  {
    var hs := Prefixed(HeaderPrefix, headers);
    var qs := Prefixed(QueryPrefix, queryParameters);
    UnprefixedAppend(HeaderPrefix, hs, qs);
    UnprefixedAppend(QueryPrefix, hs, qs);
    UnprefixedInverts(HeaderPrefix, QueryPrefix, headers);
    UnprefixedInverts(QueryPrefix, HeaderPrefix, queryParameters);
    assert headers + [] == headers;
  }

  /**
   * `getRequestLambdaAuthorizer`, with the parameter name the documentation
   * promises: the one parameter when there is exactly one.
   */
  function RequestAuthorizer(args: RequestAuthorizerArgs): (r: Result<Authorizer>)
    ensures r.Ok? <==> Length(args.queryParameters) + Length(args.headers) > 0
    ensures r.Fail? ==> r.error == EmptyParametersError
    ensures r.Ok? ==> (r.value.parameterLocation == Header <==> Length(args.headers) > 0)
    ensures r.Ok? ==> r.value.parameterName == Some(ParameterName(args))
    ensures r.Ok? && Length(args.queryParameters) + Length(args.headers) == 1 ==>
      r.value.parameterName.value in args.queryParameters.GetOr([]) + args.headers.GetOr([])
    ensures r.Ok? ==> r.value.authType == "custom" && r.value.authorizerType == Request
    ensures r.Ok? ==> r.value.identitySource == Some(IdentitySources(args.headers, args.queryParameters))
  {
    var numQueryParams := Length(args.queryParameters);
    var numHeaders := Length(args.headers);
    if numQueryParams == 0 && numHeaders == 0 then
      Fail(EmptyParametersError)
    else
      Ok(Authorizer(args.authorizerName, Some(ParameterName(args)),
        GetLocation(numHeaders, numQueryParams).value, "custom", Request, args.handler,
        Some(IdentitySources(args.headers, args.queryParameters)), None, args.authorizerResultTtlInSeconds))
  }

  /** `getRequestLambdaAuthorizer` as written: the parameter name comes from `ParameterNameAsWritten`. */
  function RequestAuthorizerAsWritten(args: RequestAuthorizerArgs): (r: Result<Authorizer>)
    ensures r.Ok? <==> RequestAuthorizer(args).Ok?
    ensures r.Ok? ==> r.value.parameterName == ParameterNameAsWritten(args)
  {
    match RequestAuthorizer(args)
    case Ok(a) => Ok(a.(parameterName := ParameterNameAsWritten(args)))
    case Fail(e) => Fail(e)
  }

  /** With one header and an empty query list the as-written authorizer has no parameter name. */
  lemma RequestAuthorizerAsWrittenLosesHeader(h: string, handler: Handler)
    ensures var args := RequestAuthorizerArgs(None, Some([]), Some([h]), handler, None);
      RequestAuthorizerAsWritten(args).Ok? && RequestAuthorizerAsWritten(args).value.parameterName.None?
      && RequestAuthorizer(args).value.parameterName == Some(h)
  {
    ParameterNameAsWrittenLosesHeader(h);
  }

  /** A token authorizer on header h has the identity source of a request authorizer on h alone. */
  lemma TokenIsSingleHeaderRequest(args: TokenAuthorizerArgs, handler: Handler)
    ensures var h := TokenHeader(args.header);
      var request := RequestAuthorizer(RequestAuthorizerArgs(args.authorizerName, None, Some([h]), handler, None));
      request.Ok? && request.value.identitySource == TokenAuthorizer(args).identitySource
        && request.value.parameterName == TokenAuthorizer(args).parameterName
        && request.value.parameterLocation == Header
  {
    var h := TokenHeader(args.header);
    assert IdentitySources(Some([h]), None) == [HeaderPrefix + h] by {
      assert Prefixed(QueryPrefix, []) == [];
    }
  }

  /** The effect an authorizer function grants. */
  datatype Effect = Allow | Deny

  datatype Statement = Statement(action: string, effect: Effect, resource: string)

  datatype PolicyDocument = PolicyDocument(version: string, statements: seq<Statement>)

  /** The `AuthorizerResponse` an authorizer function returns. */
  datatype AuthorizerResponse = AuthorizerResponse(
    principalId: string,
    policyDocument: PolicyDocument,
    context: Option<map<string, string>>,
    usageIdentifierKey: Option<string>)

  /** `authorizerResponse`: one statement about invoking the resource. */
  function MakeAuthorizerResponse(principalId: string, effect: Effect, resource: string,
                                  context: Option<map<string, string>>, apiKey: Option<string>): (r: AuthorizerResponse)
    ensures r.principalId == principalId && r.policyDocument.version == "2012-10-17"
    ensures |r.policyDocument.statements| == 1
    ensures r.context == context && r.usageIdentifierKey == apiKey
  {
    AuthorizerResponse(principalId,
      PolicyDocument("2012-10-17", [Statement("execute-api:Invoke", effect, resource)]),
      context, apiKey)
  }

  /**
   * IAM evaluation of a policy for invoking one resource: some statement
   * allows it and no statement denies it.
   */
  predicate Grants(policy: PolicyDocument, resource: string)
  {
    (exists i :: 0 <= i < |policy.statements| && policy.statements[i] == Statement("execute-api:Invoke", Allow, resource))
    && !(exists i :: 0 <= i < |policy.statements| && policy.statements[i] == Statement("execute-api:Invoke", Deny, resource))
  }

  /** The response grants exactly the named resource, and only when the effect is Allow. */
  lemma AuthorizerResponseGrants(principalId: string, effect: Effect, resource: string, other: string,
                                 context: Option<map<string, string>>, apiKey: Option<string>)
    requires other != resource
    ensures Grants(MakeAuthorizerResponse(principalId, effect, resource, context, apiKey).policyDocument, resource)
      <==> effect == Allow
    ensures !Grants(MakeAuthorizerResponse(principalId, effect, resource, context, apiKey).policyDocument, other)
  {
    var statements := MakeAuthorizerResponse(principalId, effect, resource, context, apiKey).policyDocument.statements;
    assert statements[0] == Statement("execute-api:Invoke", effect, resource);
  }
}
