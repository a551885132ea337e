/**
 * The TOKEN authorizer of `authorizer.js`: the same ladder as `src/index.js`, with
 * `split('/', 2)` in its policy builder, `null` (not `undefined`) for a token that is
 * not a Bearer token, and the plain string `'Unauthorized'` for a failed verification.
 *
 * The verifier (`verifyAsync` with the JWKS key lookup) is a parameter: a function from
 * the extracted `jwt` to its verdict.
 */
module JwksAuthorizer {
  import opened Js
  import opened JsString
  import opened Bearer
  import opened Policy
  import TokenAuthorizer

  /** `createPolicyDocument`: `arn.split('/', 2)` keeps only the API and the stage. */
  function CreatePolicyDocument(arn: string): (doc: PolicyDocument)
    ensures doc == StageWidePolicy(arn)
    ensures doc == TokenAuthorizer.CreatePolicyDocument(arn)
  {
    var pieces := SplitLimit(arn, '/', 2);
    TokenAuthorizer.SplitPiecesAreParts(arn);
    assert At(pieces, 0) == At(Split(arn, '/'), 0);
    assert At(pieces, 1) == At(Split(arn, '/'), 1);
    PolicyDocument(
      [Statement(InvokeAction, "Allow", Template(At(pieces, 0)) + "/" + Template(At(pieces, 1)) + "/*")],
      PolicyVersion)
  }

  /** The `jwt` group of `/^Bearer +(?<jwt>.*)$/u`, defaulting to `null` when the token does not match. */
  function Jwt(token: string): (jwt: Value)
    ensures jwt != Undefined
  {
    match MatchBearerSpaces(token)
    case Some(j) => Str(j)
    case None => Null
  }

  /** The default-exported authorizer, with `verify` standing for `verifyAsync(jwt, getPublicKey, ...)`. */
  function Authorize(event: TokenEvent, verify: Value -> Verdict): (r: Outcome)
    ensures r.Resolve? ==> r.response.principalId == r.response.usageIdentifierKey
    ensures r.Resolve? ==> r.response.policyDocument == StageWidePolicy(event.methodArn)
    ensures r.Reject? ==> r.thrown in {ThrownString(NotToken), ThrownString(UnauthorizedMessage)}
  {
    if event.eventType != Str("TOKEN") then Reject(ThrownString(NotToken))
    else if !Truthy(event.authorizationToken) then Reject(ThrownString(UnauthorizedMessage))
    else
      match verify(Jwt(event.authorizationToken.s))
      case Verified(claims) =>
        Resolve(Response(
          Context(claims.scope),
          CreatePolicyDocument(event.methodArn),
          claims.sub,
          claims.sub))
      case Rejected => Reject(ThrownString(UnauthorizedMessage))
  }

  /** Any event type other than exactly `'TOKEN'` is a misconfiguration, whatever the token and the verifier. */
  lemma MisconfigurationComesFirst(event: TokenEvent, verify: Value -> Verdict)
    ensures Authorize(event, verify) == Reject(ThrownString(NotToken)) <==> event.eventType != Str("TOKEN")
  {
  }

  /** A falsy token is rejected with `'Unauthorized'` whatever the verifier would say. */
  lemma MissingTokenSkipsVerifier(event: TokenEvent, verify1: Value -> Verdict, verify2: Value -> Verdict)
    requires event.eventType == Str("TOKEN")
    requires !Truthy(event.authorizationToken)
    ensures Authorize(event, verify1) == Authorize(event, verify2) == Reject(ThrownString(UnauthorizedMessage))
  {
  }

  /**
   * A token that is not a Bearer token reaches the verifier as `null`; a verifier
   * rejection becomes the plain string `'Unauthorized'`, the same value a missing
   * token gives; success yields `sub` as principal and usage key and `{scope}` as context.
   */
  lemma VerdictDecides(event: TokenEvent, verify: Value -> Verdict)
    requires event.eventType == Str("TOKEN") && Truthy(event.authorizationToken)
    ensures MatchBearerSpaces(event.authorizationToken.s).None? ==> Jwt(event.authorizationToken.s) == Null
    ensures verify(Jwt(event.authorizationToken.s)).Rejected? ==>
      Authorize(event, verify) == Reject(ThrownString(UnauthorizedMessage))
    ensures verify(Jwt(event.authorizationToken.s)).Verified? ==>
      var claims := verify(Jwt(event.authorizationToken.s)).claims;
      Authorize(event, verify)
        == Resolve(Response(Context(claims.scope), StageWidePolicy(event.methodArn), claims.sub, claims.sub))
  {
  }

  /**
   * The two TOKEN authorizers decide alike: given verifiers that agree on every string
   * and treat this one's `null` as the other's `undefined`, they misconfigure, refuse and
   * allow (with the same response) on the same events. Only the thrown form of a failed
   * verification differs: a string here, an `Error` in `src/index.js`.
   */
  lemma AgreesWithTokenAuthorizer(event: TokenEvent, verify: Value -> Verdict, verifySrc: Value -> Verdict)
    requires forall s :: verify(Str(s)) == verifySrc(Str(s))
    requires verify(Null) == verifySrc(Undefined)
    ensures Decide(Authorize(event, verify)) == Decide(TokenAuthorizer.Authorize(event, verifySrc))
    ensures TokenAuthorizer.Authorize(event, verifySrc) == Reject(ThrownError(UnauthorizedMessage)) <==>
      && event.eventType == Str("TOKEN")
      && Truthy(event.authorizationToken)
      && Authorize(event, verify) == Reject(ThrownString(UnauthorizedMessage))
  {
    if event.eventType == Str("TOKEN") && Truthy(event.authorizationToken) {
      var token := event.authorizationToken.s;
      match MatchBearerSpaces(token)
      case Some(j) =>
        assert verify(Jwt(token)) == verifySrc(TokenAuthorizer.Jwt(token));
      case None =>
        assert verify(Jwt(token)) == verifySrc(TokenAuthorizer.Jwt(token));
    }
  }

  /**
   * What the code produces for the ARNs of its test file: every endpoint of the stage,
   * `.../stage-name/` and one star (that file still expects a second `/` and star).
   */
  lemma TestedConversions()
    ensures CreatePolicyDocument(TokenAuthorizer.TestedApi + "/" + TokenAuthorizer.TestedStage + "/HTTP-VERB/resource-path")
              .statements[0].resource == TokenAuthorizer.TestedApi + "/" + TokenAuthorizer.TestedStage + "/*"
    ensures CreatePolicyDocument(TokenAuthorizer.TestedApi + "/" + TokenAuthorizer.TestedStage + "/HTTP-VERB/resource/path")
              .statements[0].resource == TokenAuthorizer.TestedApi + "/" + TokenAuthorizer.TestedStage + "/*"
    ensures CreatePolicyDocument(TokenAuthorizer.TestedApi + "/" + TokenAuthorizer.TestedStage + "/route-key")
              .statements[0].resource == TokenAuthorizer.TestedApi + "/" + TokenAuthorizer.TestedStage + "/*"
  {
    TokenAuthorizer.TestedConversions();
  }
}
