/**
 * The API Gateway authorizer vocabulary shared by the authorizers: policy documents,
 * responses, verified claims, and the stage-wide resource a TOKEN authorizer grants.
 */
module Policy {
  import opened Js
  import opened JsString

  const InvokeAction: string := "execute-api:Invoke"
  const PolicyVersion: string := "2012-10-17"

  /** A statement asserting a permission on a resource. */
  datatype Statement = Statement(action: string, effect: string, resource: string)

  /** A document indicating permissions to invoke resources. */
  datatype PolicyDocument = PolicyDocument(statements: seq<Statement>, version: string)

  /** The additional data a TOKEN authorizer returns with its policy. */
  datatype Context = Context(scope: Value)

  /** What a TOKEN authorizer resolves with. */
  datatype Response = Response(
    context: Context,
    policyDocument: PolicyDocument,
    principalId: Value,
    usageIdentifierKey: Value)

  /** The claims the token verifier hands back: `sub` and `scope`, each possibly absent. */
  datatype Claims = Claims(sub: Value, scope: Value)

  /** What the external token verifier concludes about a token. */
  datatype Verdict = Verified(claims: Claims) | Rejected

  /** The authorization event a TOKEN authorizer receives. */
  datatype TokenEvent = TokenEvent(authorizationToken: Value, methodArn: string, eventType: Value)

  /** How API Gateway reads an authorizer's outcome. */
  datatype Decision<+R> = Misconfigured | Unauthorized | Allow(response: R)

  /** What a TOKEN authorizer throws when it is attached as another authorizer type. */
  const NotToken: string := "This authorizer is not configured as a 'TOKEN' authorizer."
  /** What an authorizer answers for a token it does not accept. */
  const UnauthorizedMessage: string := "Unauthorized"

  /** The promise a TOKEN authorizer returns: resolved with a response, or rejected with what it throws. */
  datatype Outcome = Resolve(response: Response) | Reject(thrown: Thrown)

  /**
   * How API Gateway reads a TOKEN authorizer's outcome: the misconfiguration message
   * is its own verdict, any other rejection refuses, and a response is applied.
   */
  function Decide(outcome: Outcome): (d: Decision<Response>)
    ensures d == Misconfigured <==> outcome == Reject(ThrownString(NotToken))
    ensures d == Unauthorized <==> outcome.Reject? && outcome.thrown != ThrownString(NotToken)
    ensures d.Allow? <==> outcome.Resolve?
    ensures d.Allow? ==> d.response == outcome.response
  {
    match outcome
    case Resolve(response) => Allow(response)
    case Reject(thrown) => if thrown == ThrownString(NotToken) then Misconfigured else Unauthorized
  }

  /** The API part of an `execute-api` ARN: everything before its first `/`. */
  function ApiPart(arn: string): string
  {
    arn[..IndexOf(arn, '/')]
  }

  /**
   * The stage part: the text between the first and the second `/` (or the end);
   * `undefined` when the ARN has no `/` at all.
   */
  function StagePart(arn: string): Value
  {
    var i := IndexOf(arn, '/');
    if i == |arn| then Undefined
    else
      var rest := arn[i + 1..];
      Str(rest[..IndexOf(rest, '/')])
  }

  /** Every resource in the ARN's API and stage. */
  function StageWideResource(arn: string): string
  {
    ApiPart(arn) + "/" + Template(StagePart(arn)) + "/*"
  }

  /** The one-statement policy allowing invocation of everything in the ARN's stage. */
  function StageWidePolicy(arn: string): PolicyDocument
  {
    PolicyDocument([Statement(InvokeAction, "Allow", StageWideResource(arn))], PolicyVersion)
  }

  /**
   * For an ARN `api/stage` or `api/stage/anything`, the stage-wide resource is
   * `api/stage/` followed by a star: whatever follows the stage is discarded.
   */
  lemma StageWideResourceOf(api: string, stage: string, suffix: string)
    requires '/' !in api && '/' !in stage
    requires suffix == [] || suffix[0] == '/'
    ensures StageWideResource(api + "/" + stage + suffix) == api + "/" + stage + "/*"
  {
    var arn := api + "/" + stage + suffix;
    IndexOfAfterFree(api, '/', stage + suffix);
    assert arn == api + ['/'] + (stage + suffix);
    var rest := arn[|api| + 1..];
    assert rest == stage + suffix;
    if suffix == [] {
      assert IndexOf(stage, '/') == |stage|;
    } else {
      IndexOfAfterFree(stage, '/', suffix[1..]);
      assert rest == stage + ['/'] + suffix[1..];
    }
    assert arn[..|api|] == api;
  }

  /** Two ARNs that agree up to the end of the stage get the same policy. */
  lemma StageWidePolicyIgnoresSuffix(api: string, stage: string, suffix1: string, suffix2: string)
    requires '/' !in api && '/' !in stage
    requires suffix1 == [] || suffix1[0] == '/'
    requires suffix2 == [] || suffix2[0] == '/'
    ensures StageWidePolicy(api + "/" + stage + suffix1) == StageWidePolicy(api + "/" + stage + suffix2)
  {
    StageWideResourceOf(api, stage, suffix1);
    StageWideResourceOf(api, stage, suffix2);
  }

  /** An ARN without any `/` names no stage, and JavaScript spells the missing stage out. */
  lemma StageWideResourceWithoutSlash(arn: string)
    requires '/' !in arn
    ensures StageWideResource(arn) == arn + "/undefined/*"
  {
    assert IndexOf(arn, '/') == |arn|;
  }
}
