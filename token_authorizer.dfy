/**
 * The TOKEN authorizer of `src/index.js`: a fixed ladder of checks in front of an
 * external JWT verifier, and a policy granting the caller's whole API stage.
 *
 * The verifier (`client.verify`) is a parameter: a function from the extracted
 * `jwt` (a string, or `undefined` when the token is not a Bearer token) to its verdict.
 */
module TokenAuthorizer {
  import opened Js
  import opened JsString
  import opened Bearer
  import opened Policy

  /**
   * `createPolicyDocument`: keep the first two `/`-pieces of the ARN (API and stage)
   * and allow `execute-api:Invoke` on everything under that stage.
   */
  function CreatePolicyDocument(arn: string): (doc: PolicyDocument)
    ensures doc == StageWidePolicy(arn)
    ensures |doc.statements| == 1
    ensures doc.statements[0].action == "execute-api:Invoke"
    ensures doc.statements[0].effect == "Allow"
    ensures doc.version == "2012-10-17"
  {
    var pieces := Split(arn, '/');
    SplitPiecesAreParts(arn);
    PolicyDocument(
      [Statement(InvokeAction, "Allow", Template(At(pieces, 0)) + "/" + Template(At(pieces, 1)) + "/*")],
      PolicyVersion)
  }

  /** The first two pieces of `arn.split('/')` are the ARN's API and stage parts. */
  lemma SplitPiecesAreParts(arn: string)
    ensures At(Split(arn, '/'), 0) == Str(ApiPart(arn))
    ensures At(Split(arn, '/'), 1) == StagePart(arn)
  {
    SplitHead(arn, '/');
    var i := IndexOf(arn, '/');
    if i < |arn| {
      SplitTail(arn, '/');
      SplitHead(arn[i + 1..], '/');
      assert Split(arn, '/')[1] == Split(arn, '/')[1..][0];
    } else {
      SplitFree(arn, '/');
    }
  }

  /** The `jwt` group of `/^Bearer +(?<jwt>.*)$/u`, `undefined` when the token does not match. */
  function Jwt(token: string): (jwt: Value)
    ensures jwt != Null
  {
    match MatchBearerSpaces(token)
    case Some(j) => Str(j)
    case None => Undefined
  }

  /** `authorize(event)`, with `verify` standing for `client.verify`. */
  function Authorize(event: TokenEvent, verify: Value -> Verdict): (r: Outcome)
    ensures r.Resolve? ==> r.response.principalId == r.response.usageIdentifierKey
    ensures r.Resolve? ==> r.response.policyDocument == StageWidePolicy(event.methodArn)
    ensures r.Reject? ==>
      r.thrown in {ThrownString(NotToken), ThrownString(UnauthorizedMessage), ThrownError(UnauthorizedMessage)}
  {
    if event.eventType != Str("TOKEN") then Reject(ThrownString(NotToken))
    else if !Truthy(event.authorizationToken) then Reject(ThrownString(UnauthorizedMessage))
    else
      match verify(Jwt(event.authorizationToken.s))
      case Verified(claims) =>
        Resolve(Response(
          Context(claims.scope),
          CreatePolicyDocument(event.methodArn),
          claims.sub,
          claims.sub))
      case Rejected => Reject(ThrownError(UnauthorizedMessage))
  }

  /** Any event type other than exactly `"TOKEN"` is a misconfiguration, whatever the token and the verifier. */
  lemma MisconfigurationComesFirst(event: TokenEvent, verify: Value -> Verdict)
    ensures Authorize(event, verify) == Reject(ThrownString(NotToken)) <==> event.eventType != Str("TOKEN")
    ensures Decide(Authorize(event, verify)) == Misconfigured <==> event.eventType != Str("TOKEN")
  {
  }

  /**
   * A TOKEN event without a token (missing, null or empty) is rejected with the string
   * `"Unauthorized"`, and the verifier has no say: any two verifiers give the same outcome.
   */
  lemma MissingTokenSkipsVerifier(event: TokenEvent, verify1: Value -> Verdict, verify2: Value -> Verdict)
    requires event.eventType == Str("TOKEN")
    requires !Truthy(event.authorizationToken)
    ensures Authorize(event, verify1) == Authorize(event, verify2) == Reject(ThrownString(UnauthorizedMessage))
  {
  }

  /**
   * Once the type and the token pass, the outcome depends only on what the verifier says
   * about the extracted `jwt`: a rejection becomes `new Error("Unauthorized")`, and
   * success a response whose principal and usage key are both `sub`, whose context is
   * `{scope}`, and whose policy covers the whole stage of the requested ARN.
   */
  lemma VerdictDecides(event: TokenEvent, verify: Value -> Verdict)
    requires event.eventType == Str("TOKEN") && Truthy(event.authorizationToken)
    ensures verify(Jwt(event.authorizationToken.s)).Rejected? ==>
      Authorize(event, verify) == Reject(ThrownError(UnauthorizedMessage))
    ensures verify(Jwt(event.authorizationToken.s)).Verified? ==>
      var claims := verify(Jwt(event.authorizationToken.s)).claims;
      Authorize(event, verify)
        == Resolve(Response(Context(claims.scope), StageWidePolicy(event.methodArn), claims.sub, claims.sub))
  {
  }

  /** The outcome is allowed exactly when the type and the token pass and the verifier accepts the `jwt`. */
  lemma AllowedExactlyWhenVerified(event: TokenEvent, verify: Value -> Verdict)
    ensures Decide(Authorize(event, verify)).Allow? <==>
      && event.eventType == Str("TOKEN")
      && Truthy(event.authorizationToken)
      && verify(Jwt(event.authorizationToken.s)).Verified?
  {
  }

  /**
   * The extracted `jwt` is what follows `Bearer` and its run of spaces, when the rest is
   * one line; otherwise the verifier is asked about `undefined`.
   */
  lemma JwtOfBearerToken(n: nat, rest: string)
    requires n >= 1
    ensures Jwt("Bearer" + Spaces(n) + rest) == if SingleLine(rest) then Str(DropSpaces(rest)) else Undefined
  {
    MatchBearerSpacesOn(n, rest);
  }

  /** A token that does not start with `Bearer ` yields `undefined`. */
  lemma JwtOfNonBearerToken(token: string)
    requires |token| < 7 || token[..7] != "Bearer "
    ensures Jwt(token) == Undefined
  {
  }

  /** The API (up to the first `/`) and the stage of the ARNs the tests convert. */
  const TestedApi: string := "arn:aws:execute-api:region:account-id:api-id"
  const TestedStage: string := "stage-name"

  /**
   * The tested conversions: a method and resource path, a nested resource path, and a
   * route key all become every endpoint of `stage-name`.
   */
  lemma TestedConversions()
    ensures CreatePolicyDocument(TestedApi + "/" + TestedStage + "/HTTP-VERB/resource-path")
              .statements[0].resource == TestedApi + "/" + TestedStage + "/*"
    ensures CreatePolicyDocument(TestedApi + "/" + TestedStage + "/HTTP-VERB/resource/path")
              .statements[0].resource == TestedApi + "/" + TestedStage + "/*"
    ensures CreatePolicyDocument(TestedApi + "/" + TestedStage + "/route-key")
              .statements[0].resource == TestedApi + "/" + TestedStage + "/*"
  {
    assert '/' !in TestedApi;
    assert '/' !in TestedStage;
    StageWideResourceOf(TestedApi, TestedStage, "/HTTP-VERB/resource-path");
    StageWideResourceOf(TestedApi, TestedStage, "/HTTP-VERB/resource/path");
    StageWideResourceOf(TestedApi, TestedStage, "/route-key");
  }
}
