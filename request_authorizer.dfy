/**
 * The REQUEST authorizer `handler` of `index.js`: early-return checks on the event,
 * then a signing-key lookup and a verification, answering through a Node-style callback.
 *
 * The JSON Web Token library, the URL constructor and the JWKS client are the
 * `Services` parameter. `Handler` is the one answer each request is meant to get;
 * `HandlerAsWritten` also follows the promise chain past its `.catch` handlers.
 */
module RequestAuthorizer {
  import opened Js
  import opened Bearer
  import opened Policy

  const NotRequest: string := "This authorizer is not configured as a 'REQUEST' authorizer."
  const NoHeader: string := "No header 'Authorization' is provided."
  const NoAuthority: string := "No stage variable 'AUTHORITY' is provided."

  /** The parts of a REQUEST authorizer event the handler reads; `None` for an absent object. */
  datatype Event = Event(
    eventType: Value,
    headers: Option<map<string, string>>,
    stageVariables: Option<map<string, string>>,
    methodArn: string)

  /** The header of a decoded (not verified) token. */
  datatype DecodedToken = DecodedToken(kid: Value)

  /** A key from the JWKS client: one of its two properties holds the PEM text. */
  datatype SigningKey = SigningKey(publicKey: Value, rsaPublicKey: Value)

  /** The foreign calls the handler makes. */
  datatype Services = Services(
    // `jwt.decode(token, {complete: true})`: `None` for `null`
    decode: string -> Option<DecodedToken>,
    // `new URL('/.well-known/jwks.json', authority)`: `None` when the constructor throws
    jwksUri: string -> Option<string>,
    // `getSigningKey(kid)` on a client for that URI: `None` when the promise rejects
    signingKey: (string, Value) -> Option<SigningKey>,
    // `jwt.verify(token, key, {audience, issuer})`
    verify: (string, Value, seq<Value>, string) -> Verdict)

  /** What the handler grants: the principal and a policy for the invoked method only. */
  datatype RequestResponse = RequestResponse(principalId: Value, policyDocument: PolicyDocument)

  /** What becomes of one invocation. */
  datatype Outcome =
    | Fail(message: string)                // `callback(message)`
    | Succeed(response: RequestResponse)   // `callback(null, response)`
    | Crash                                // a TypeError thrown by the handler itself

  /** The policy of a successful REQUEST authorization: exactly the invoked method's ARN. */
  function MethodPolicy(methodArn: string): (doc: PolicyDocument)
    ensures doc.statements == [Statement("execute-api:Invoke", "Allow", methodArn)]
    ensures doc.version == "2012-10-17"
  {
    PolicyDocument([Statement(InvokeAction, "Allow", methodArn)], PolicyVersion)
  }

  /** `headers['authorization'] || headers['Authorization']`. */
  function AuthorizationHeader(headers: map<string, string>): (token: Value)
    ensures Truthy(token) <==> Truthy(Get(headers, "authorization")) || Truthy(Get(headers, "Authorization"))
    ensures Truthy(Get(headers, "authorization")) ==> token == Str(headers["authorization"])
    ensures !Truthy(Get(headers, "authorization")) ==> token == Get(headers, "Authorization")
  {
    Or(Get(headers, "authorization"), Get(headers, "Authorization"))
  }

  /** The value the verifier is given: `key.publicKey || key.rsaPublicKey`. */
  function KeyText(key: SigningKey): (text: Value)
    ensures Truthy(key.publicKey) ==> text == key.publicKey
    ensures !Truthy(key.publicKey) ==> text == key.rsaPublicKey
    ensures Truthy(text) <==> Truthy(key.publicKey) || Truthy(key.rsaPublicKey)
  {
    Or(key.publicKey, key.rsaPublicKey)
  }

  /** The steps after the stage-variable check, each failure answered once with `Unauthorized`. */
  function VerifyWith(svc: Services, uri: string, encoded: string, decoded: DecodedToken,
                      vars: map<string, string>, authority: string, methodArn: string): (r: Outcome)
    ensures r.Succeed? || r == Fail(UnauthorizedMessage)
    ensures r.Succeed? ==> r.response.policyDocument == MethodPolicy(methodArn)
  {
    match svc.signingKey(uri, decoded.kid)
    case None => Fail(UnauthorizedMessage)
    case Some(key) =>
      match svc.verify(encoded, KeyText(key), [Get(vars, "PLATFORM_ID"), Get(vars, "CLIENT_ID")], authority)
      case Rejected => Fail(UnauthorizedMessage)
      case Verified(claims) => Succeed(RequestResponse(claims.sub, MethodPolicy(methodArn)))
  }

  /** `handler(event, context, callback)`: the single outcome each request is meant to get. */
  function Handler(event: Event, svc: Services): (r: Outcome)
    ensures r.Succeed? ==> r.response.policyDocument == MethodPolicy(event.methodArn)
    ensures r.Fail? ==> r.message in {NotRequest, NoHeader, UnauthorizedMessage, NoAuthority}
    ensures r.Crash? ==> event.eventType == Str("REQUEST")
  {
    if !Truthy(event.eventType) || event.eventType != Str("REQUEST") then Fail(NotRequest)
    else if event.headers.None? then Crash
    else
      var authToken := AuthorizationHeader(event.headers.value);
      if !Truthy(authToken) then Fail(NoHeader)
      else
        match MatchBearerSpace(authToken.s)
        case None => Fail(UnauthorizedMessage)
        case Some(encoded) =>
          match svc.decode(encoded)
          case None => Fail(UnauthorizedMessage)
          case Some(decoded) =>
            if event.stageVariables.None? then Crash
            else
              var vars := event.stageVariables.value;
              var authority := Get(vars, "AUTHORITY");
              if !Truthy(authority) then Fail(NoAuthority)
              else
                match svc.jwksUri(authority.s)
                case None => Crash
                case Some(uri) => VerifyWith(svc, uri, encoded, decoded, vars, authority.s, event.methodArn)
  }

  /** Any event type but `'REQUEST'` fails with the REQUEST misconfiguration message, whatever else the event holds. */
  lemma MisconfigurationComesFirst(event: Event, svc: Services)
    ensures Handler(event, svc) == Fail(NotRequest) <==> event.eventType != Str("REQUEST")
  {
  }

  /**
   * The lower-case header wins when it is non-empty, the capitalised one is consulted
   * otherwise, and with neither the handler fails without consulting any service.
   */
  lemma HeaderLookup(event: Event, svc1: Services, svc2: Services)
    requires event.eventType == Str("REQUEST") && event.headers.Some?
    ensures Handler(event, svc1) == Fail(NoHeader) <==>
      !Truthy(Get(event.headers.value, "authorization")) && !Truthy(Get(event.headers.value, "Authorization"))
    ensures Handler(event, svc1) == Fail(NoHeader) ==> Handler(event, svc2) == Fail(NoHeader)
  {
  }

  /** A header that is not `Bearer `, one space, and one line of text is refused before anything is decoded. */
  lemma MalformedHeaderIsUnauthorized(event: Event, svc1: Services, svc2: Services)
    requires event.eventType == Str("REQUEST") && event.headers.Some?
    requires Truthy(AuthorizationHeader(event.headers.value))
    requires forall jwt :: AuthorizationHeader(event.headers.value).s != "Bearer " + jwt || !SingleLine(jwt)
    ensures Handler(event, svc1) == Handler(event, svc2) == Fail(UnauthorizedMessage)
  {
    var token := AuthorizationHeader(event.headers.value).s;
    if MatchBearerSpace(token).Some? {
      MatchBearerSpaceExactly(token, MatchBearerSpace(token).value);
    }
  }

  /**
   * A well-formed header whose token cannot be decoded is `Unauthorized`, and the
   * AUTHORITY stage variable is only looked at once the token has decoded: a missing or
   * empty one is then its own failure, and no key is fetched.
   */
  lemma DecodeBeforeAuthority(event: Event, svc: Services, jwt: string)
    requires event.eventType == Str("REQUEST") && event.headers.Some?
    requires AuthorizationHeader(event.headers.value) == Str("Bearer " + jwt) && SingleLine(jwt)
    ensures svc.decode(jwt).None? ==> Handler(event, svc) == Fail(UnauthorizedMessage)
    ensures svc.decode(jwt).Some? && event.stageVariables.Some? ==>
      (Handler(event, svc) == Fail(NoAuthority) <==> !Truthy(Get(event.stageVariables.value, "AUTHORITY")))
  {
    MatchBearerSpaceExactly("Bearer " + jwt, jwt);
  }

  /**
   * Once the type, the header, its format, the decoding, the AUTHORITY stage variable
   * and the key-set URI have all passed, the outcome is decided by the key lookup and
   * the verification alone.
   */
  lemma HandlerReachesVerify(event: Event, svc: Services, encoded: string)
    requires event.eventType == Str("REQUEST") && event.headers.Some? && event.stageVariables.Some?
    requires AuthorizationHeader(event.headers.value).Str?
    requires MatchBearerSpace(AuthorizationHeader(event.headers.value).s) == Some(encoded)
    requires svc.decode(encoded).Some?
    requires Get(event.stageVariables.value, "AUTHORITY").Str?
    requires Truthy(Get(event.stageVariables.value, "AUTHORITY"))
    requires svc.jwksUri(Get(event.stageVariables.value, "AUTHORITY").s).Some?
    ensures
      var authority := Get(event.stageVariables.value, "AUTHORITY").s;
      Handler(event, svc)
        == VerifyWith(svc, svc.jwksUri(authority).value, encoded, svc.decode(encoded).value,
                      event.stageVariables.value, authority, event.methodArn)
  {
  }

  /**
   * Success grants `verified.sub` the invoked method's ARN exactly (no widening to
   * the stage), and only when every step before it passed: the token decoded, the
   * key-set URI was built, the signing key was found and the verifier accepted the
   * token against that key, both audiences and the authority as issuer.
   */
  lemma SuccessGrantsMethodOnly(event: Event, svc: Services)
    requires Handler(event, svc).Succeed?
    ensures event.eventType == Str("REQUEST") && event.headers.Some? && event.stageVariables.Some?
    ensures Truthy(AuthorizationHeader(event.headers.value))
    ensures MatchBearerSpace(AuthorizationHeader(event.headers.value).s).Some?
    ensures Truthy(Get(event.stageVariables.value, "AUTHORITY"))
    ensures
      var encoded := MatchBearerSpace(AuthorizationHeader(event.headers.value).s).value;
      var vars := event.stageVariables.value;
      var authority := Get(vars, "AUTHORITY").s;
      && svc.decode(encoded).Some?
      && svc.jwksUri(authority).Some?
      && svc.signingKey(svc.jwksUri(authority).value, svc.decode(encoded).value.kid).Some?
      && var key := svc.signingKey(svc.jwksUri(authority).value, svc.decode(encoded).value.kid).value;
         var verdict := svc.verify(encoded, KeyText(key), [Get(vars, "PLATFORM_ID"), Get(vars, "CLIENT_ID")], authority);
         && verdict.Verified?
         && Handler(event, svc).response.principalId == verdict.claims.sub
    ensures Handler(event, svc).response.policyDocument.statements
         == [Statement("execute-api:Invoke", "Allow", event.methodArn)]
  {
  }

  // ---------------------------------------------------------------------------
  // The promise chain as written

  /** What the promise chain does after the handler returns. */
  datatype Effect =
    | Answer(outcome: Outcome)  // the callback is invoked with this outcome
    | StrayRejection            // a later `.then` throws on an `undefined` value; nothing catches it

  /**
   * The chain of the source after the URL is built. A rejected key lookup runs the first
   * `.catch`, whose log line reads the undeclared `kid` and throws, so its callback is
   * skipped; the second `.catch` answers `Unauthorized`. After that `.catch` (whether it
   * caught the key failure or a verification failure) the final `.then` still runs with
   * `verified` undefined and throws reading `sub`.
   */
  function ChainAsWritten(svc: Services, uri: string, encoded: string, decoded: DecodedToken,
                          vars: map<string, string>, authority: string, methodArn: string): (effects: seq<Effect>)
    ensures |effects| >= 1 && effects[0].Answer?
    ensures effects[0].outcome.Fail? <==> |effects| == 2 && effects[1] == StrayRejection
  {
    match svc.signingKey(uri, decoded.kid)
    case None => [Answer(Fail(UnauthorizedMessage)), StrayRejection]
    case Some(key) =>
      match svc.verify(encoded, KeyText(key), [Get(vars, "PLATFORM_ID"), Get(vars, "CLIENT_ID")], authority)
      case Rejected => [Answer(Fail(UnauthorizedMessage)), StrayRejection]
      case Verified(claims) => [Answer(Succeed(RequestResponse(claims.sub, MethodPolicy(methodArn))))]
  }

  /** Everything one invocation of the handler, as written, brings about, in order. */
  function HandlerAsWritten(event: Event, svc: Services): (effects: seq<Effect>)
    ensures |effects| >= 1 && effects[0].Answer?
    ensures |effects| <= 2
    ensures |effects| == 2 ==> effects[0] == Answer(Fail(UnauthorizedMessage)) && effects[1] == StrayRejection
  {
    if !Truthy(event.eventType) || event.eventType != Str("REQUEST") then [Answer(Fail(NotRequest))]
    else if event.headers.None? then [Answer(Crash)]
    else
      var authToken := AuthorizationHeader(event.headers.value);
      if !Truthy(authToken) then [Answer(Fail(NoHeader))]
      else
        match MatchBearerSpace(authToken.s)
        case None => [Answer(Fail(UnauthorizedMessage))]
        case Some(encoded) =>
          match svc.decode(encoded)
          case None => [Answer(Fail(UnauthorizedMessage))]
          case Some(decoded) =>
            if event.stageVariables.None? then [Answer(Crash)]
            else
              var vars := event.stageVariables.value;
              var authority := Get(vars, "AUTHORITY");
              if !Truthy(authority) then [Answer(Fail(NoAuthority))]
              else
                match svc.jwksUri(authority.s)
                case None => [Answer(Crash)]
                case Some(uri) => ChainAsWritten(svc, uri, encoded, decoded, vars, authority.s, event.methodArn)
  }

  /**
   * The discrepancy: when the signing key cannot be fetched or the token fails
   * verification, the chain as written answers `Unauthorized` and then rejects
   * a promise nobody handles.
   */
  lemma AsWrittenRejectsAfterAnswering(svc: Services, uri: string, encoded: string, decoded: DecodedToken,
                                       vars: map<string, string>, authority: string, methodArn: string)
    requires VerifyWith(svc, uri, encoded, decoded, vars, authority, methodArn).Fail?
    ensures ChainAsWritten(svc, uri, encoded, decoded, vars, authority, methodArn)
         == [Answer(Fail(UnauthorizedMessage)), StrayRejection]
  {
  }

  /** A concrete request that shows it: a well-formed token whose key lookup fails. */
  lemma KeyLookupFailureShowsStrayRejection()
    ensures
      var svc := Services(
        _ => Some(DecodedToken(Str("k1"))),
        _ => Some("https://issuer.example/.well-known/jwks.json"),
        (_, _) => None,
        (_, _, _, _) => Rejected);
      var event := Event(
        Str("REQUEST"),
        Some(map["Authorization" := "Bearer abc"]),
        Some(map["AUTHORITY" := "https://issuer.example"]),
        "arn:aws:execute-api:region:account-id:api-id/stage-name/GET/pets");
      && Handler(event, svc) == Fail(UnauthorizedMessage)
      && HandlerAsWritten(event, svc) == [Answer(Fail(UnauthorizedMessage)), StrayRejection]
  {
    var headers := map["Authorization" := "Bearer abc"];
    assert AuthorizationHeader(headers) == Str("Bearer abc");
    assert "Bearer abc" == "Bearer " + "abc";
    assert SingleLine("abc");
    MatchBearerSpaceExactly("Bearer abc", "abc");
    assert Get(map["AUTHORITY" := "https://issuer.example"], "AUTHORITY") == Str("https://issuer.example");
  }

  /**
   * The intended behaviour: every invocation is answered exactly once, and that answer
   * is the first thing the chain as written does; anything after it is a stray rejection.
   */
  lemma IntendedIsFirstAnswer(event: Event, svc: Services)
    ensures |HandlerAsWritten(event, svc)| >= 1
    ensures HandlerAsWritten(event, svc)[0] == Answer(Handler(event, svc))
    ensures forall k :: 1 <= k < |HandlerAsWritten(event, svc)| ==> HandlerAsWritten(event, svc)[k] == StrayRejection
  {
  }

  /** A key lookup failure and a verification failure are both answered `Unauthorized`, like a bad token. */
  lemma KeyOrVerifyFailureIsUnauthorized(svc: Services, uri: string, encoded: string, decoded: DecodedToken,
                                         vars: map<string, string>, authority: string, methodArn: string)
    ensures
      var outcome := VerifyWith(svc, uri, encoded, decoded, vars, authority, methodArn);
      outcome.Succeed? || outcome == Fail(UnauthorizedMessage)
    ensures
      VerifyWith(svc, uri, encoded, decoded, vars, authority, methodArn).Succeed? <==>
      && svc.signingKey(uri, decoded.kid).Some?
      && svc.verify(encoded, KeyText(svc.signingKey(uri, decoded.kid).value),
                    [Get(vars, "PLATFORM_ID"), Get(vars, "CLIENT_ID")], authority).Verified?
  {
  }
}
