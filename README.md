# Platform Authorizer, modelled in Dafny

This project models the deterministic core of the Cimpress Platform Authorizer. It is an
API Gateway Lambda authorizer that turns a bearer token into an allow decision for the
caller's API stage. The project also models the companion reporter that turns authorizer
log events into CloudWatch `UseCount` metrics.

Four source files are modelled, one Dafny module each:

- `src/index.js` (`TokenAuthorizer`, token_authorizer.dfy) is the current TOKEN authorizer.
  Its `createPolicyDocument` keeps the API and stage of an `execute-api` ARN and allows
  `execute-api:Invoke` on every endpoint of that stage. Its `authorize` is a ladder: the
  event type must be exactly `"TOKEN"`; a missing token throws `"Unauthorized"`; the token
  goes through `^Bearer +(?<jwt>.*)$`; the external verifier decides; and a verifier failure
  becomes `new Error("Unauthorized")`.
- `authorizer.js` (`JwksAuthorizer`, jwks_authorizer.dfy) is the older TOKEN authorizer.
  It has the same ladder with three differences: `split('/', 2)`, `null` as the default
  `jwt`, and a plain string thrown on verifier failure.
- `index.js` (`RequestAuthorizer`, request_authorizer.dfy) is the REQUEST authorizer
  `handler`. It checks the event type, looks up the `authorization` or `Authorization`
  header, applies `^Bearer (.*)$`, decodes the token and reads the `AUTHORITY` stage
  variable. It then fetches the signing key and verifies the token, and grants the exact
  method ARN.
- `reporter.js` (`Reporter`, reporter.dfy) maps each event's `sourceArn` to two metric
  datums: one with dimension `Account`, one with `Account` and `API`. All datums go into
  one `putMetricData` request.

Shared modules:

- `Js` (js.dfy) holds the JavaScript values the handlers see: `undefined`, `null`,
  strings, truthiness, `||`, template interpolation and thrown values.
- `JsString` (js_string.dfy) models `indexOf`, `split` and `join` for one-character
  separators, with their round-trip lemmas.
- `Bearer` (bearer.dfy) models the two anchored Bearer regular expressions.
- `Policy` (policy.dfy) holds the policy and response shapes. It also defines the
  stage-wide resource from first principles: the text before the first `/`, then the
  text up to the second `/`.

External libraries become parameters: the JWT verifier, the decoder, the URL constructor
and the JWKS key lookup. Each is a pure function from its inputs to a verdict. "The
verifier is not consulted" is stated as: any two verifiers give the same outcome.

Points where the model records what the code does rather than what one might expect:

- No signing-key cache is implemented. Caching is only the `cache: true` flag of the
  `jwks-rsa` client (authorizer.js:19, index.js:43), which the model does not represent.
- `index.js` passes `decodedToken.header.kid`, which may be undefined, to the key lookup
  without refusing it first (index.js:48). The model leaves that answer to the lookup;
  a failed lookup yields `Unauthorized`.
- An ARN without `/` is modelled as JavaScript evaluates it. The missing stage
  interpolates as the text `undefined`, giving `<arn>/undefined/*`; no precondition is
  added.
- `authorizer.test.js` still expects `.../stage-name/*/*`. The code gives
  `.../stage-name/*`, and the model follows the code.

## Model

| member | source | states |
|---|---|---|
| `JsString.Split` | src/index.js:33-36 | `arn.split('/')` always has at least one piece |
| `JsString.SplitLimit` | authorizer.js:118-121 | `split(sep, 2)` is the prefix of the full split of length min(2, pieces) |
| `JsString.JoinSplit` | src/index.js:33-36 | joining the pieces with the separator gives back the original string |
| `JsString.SplitJoin` | reporter.js:52-53 | separator-free pieces joined and split again give the same pieces |
| `JsString.SplitSeparatorFree` | reporter.js:52-53 | no piece contains the separator |
| `JsString.SplitCount` | reporter.js:52-53 | the number of pieces is the number of separators plus one |
| `JsString.SplitHead` | src/index.js:33-36 | the first piece is the text before the first separator |
| `JsString.SplitTail` | src/index.js:33-36 | after the first separator, the remaining pieces are the split of the remaining text |
| `JsString.SplitFree` | src/index.js:33-36 | text without the separator splits into itself alone |
| `JsString.IndexOfAfterFree` | src/index.js:33-36 | the first separator of `a/b`, with `a` separator-free, is at `|a|` |
| `JsString.SplitCons` | src/index.js:33-36 | `a/b` with `a` separator-free splits into `a` followed by the pieces of `b` |
| `Bearer.DropSpaces` | src/index.js:118 | the greedy ` +` takes the whole leading space run: the rest is the input minus that run and never starts with a space |
| `Bearer.MatchBearerSpaces` | src/index.js:118 | a capture is one line, has no leading space, and is a suffix of the token after `Bearer ` |
| `Bearer.MatchBearerSpace` | index.js:18-24 | a capture `jwt` means the header is exactly `Bearer ` + `jwt` and `jwt` is one line |
| `Bearer.MatchBearerSpacesSound` | src/index.js:118 | a match captures single-line text with no leading space, and the token is `Bearer`, one or more spaces, then that text |
| `Bearer.MatchBearerSpacesOn` | src/index.js:118 | every token `Bearer` + n>=1 spaces + text matches exactly when the text has no line terminator, capturing the text without its leading spaces |
| `Bearer.MatchBearerSpaceExactly` | index.js:18-24 | `^Bearer (.*)$` captures `jwt` if and only if the header is `Bearer ` + `jwt` and `jwt` has no line terminator |
| `Bearer.MatchBearerSpaceThenSpaces` | authorizer.js:90 | every header the one-space pattern accepts, the TOKEN pattern accepts too, with leading spaces dropped |
| `Policy.StageWideResourceOf` | src/index.js:32-43 | for `api/stage` or `api/stage/...` the resource is `api/stage/*`: everything after the stage is discarded |
| `Policy.StageWidePolicyIgnoresSuffix` | src/index.js:32-47 | two ARNs equal up to the end of the stage get identical policy documents |
| `Policy.StageWideResourceWithoutSlash` | src/index.js:33-43 | an ARN with no `/` gives `<arn>/undefined/*` |
| `Policy.Decide` | src/index.js:101-144 | API Gateway's reading of a TOKEN outcome: misconfigured if and only if the misconfiguration string was thrown, unauthorized for any other rejection, allowed with the response if and only if it resolved |
| `TokenAuthorizer.CreatePolicyDocument` | src/index.js:30-49 | exactly one statement: `Allow`, `execute-api:Invoke`, on the stage-wide resource; version `2012-10-17` |
| `TokenAuthorizer.SplitPiecesAreParts` | src/index.js:33-36 | destructuring `[api, stage]` from the split yields the text before the first `/` and the stage part (or `undefined`) |
| `TokenAuthorizer.Jwt` | src/index.js:118 | the extracted `jwt` is a string or `undefined`, never `null` |
| `TokenAuthorizer.Authorize` | src/index.js:101-144 | a resolved response has principal = usage key and the stage-wide policy; a rejection throws only the misconfiguration string, the string `Unauthorized` or `Error("Unauthorized")` |
| `TokenAuthorizer.MisconfigurationComesFirst` | src/index.js:104-108 | misconfigured if and only if the type is not exactly `"TOKEN"`, whatever the token and the verifier |
| `TokenAuthorizer.MissingTokenSkipsVerifier` | src/index.js:111-115 | a missing, null or empty token throws `"Unauthorized"`, and every verifier gives the same outcome |
| `TokenAuthorizer.VerdictDecides` | src/index.js:120-141 | verifier rejection gives `Error("Unauthorized")`; success gives `{context:{scope}, stage-wide policy, principalId: sub, usageIdentifierKey: sub}` |
| `TokenAuthorizer.AllowedExactlyWhenVerified` | src/index.js:101-143 | allowed if and only if the type is `TOKEN`, the token is truthy, and the verifier accepts the extracted `jwt` |
| `TokenAuthorizer.JwtOfBearerToken` | src/index.js:118 | for `Bearer` + n>=1 spaces + rest, `jwt` is the rest without leading spaces if it is one line, otherwise `undefined` |
| `TokenAuthorizer.JwtOfNonBearerToken` | src/index.js:118 | a token not starting with `Bearer ` gives `undefined` |
| `TokenAuthorizer.TestedConversions` | src/index.test.js:10-50 | the tested method, nested-path and route-key ARNs all become `...api-id/stage-name/*` |
| `JwksAuthorizer.CreatePolicyDocument` | authorizer.js:116-133 | with `split('/', 2)`, the document is the same stage-wide one-statement policy as in `src/index.js` |
| `JwksAuthorizer.Jwt` | authorizer.js:90 | an unmatched token yields `null`, never `undefined` |
| `JwksAuthorizer.Authorize` | authorizer.js:78-107 | a resolved response has principal = usage key and the stage-wide policy; rejections are only the misconfiguration string or the string `Unauthorized` |
| `JwksAuthorizer.MisconfigurationComesFirst` | authorizer.js:80-82 | misconfiguration is thrown if and only if the type is not `'TOKEN'` |
| `JwksAuthorizer.MissingTokenSkipsVerifier` | authorizer.js:85-87 | a falsy token throws `'Unauthorized'` whatever the verifier says |
| `JwksAuthorizer.VerdictDecides` | authorizer.js:89-106 | a non-Bearer token reaches the verifier as `null`; a rejection is rethrown as the string `'Unauthorized'`; success builds the response from `sub` and `scope` |
| `JwksAuthorizer.AgreesWithTokenAuthorizer` | authorizer.js:78-107 | with verifiers that agree on strings and on `null`/`undefined`, both TOKEN authorizers give the same decision and response; only the thrown form of a verifier failure differs |
| `JwksAuthorizer.TestedConversions` | authorizer.test.js:10-27 | for the tested ARNs the code yields `.../stage-name/*` (the test file's `/*/*` is stale) |
| `RequestAuthorizer.MethodPolicy` | index.js:64-73 | one `Allow` statement for `execute-api:Invoke` on exactly the method ARN, version `2012-10-17` |
| `RequestAuthorizer.AuthorizationHeader` | index.js:13 | `authorization` wins when non-empty, otherwise `Authorization`; truthy if and only if either is non-empty |
| `RequestAuthorizer.KeyText` | index.js:53 | `key.publicKey` when truthy, otherwise `key.rsaPublicKey`; truthy if and only if either key text is |
| `RequestAuthorizer.VerifyWith` | index.js:48-73 | the key and verification steps answer `Unauthorized` or succeed, and success grants exactly the method ARN |
| `RequestAuthorizer.Handler` | index.js:8-75 | success grants exactly `event.methodArn`; failures are only the four messages; a crash only happens past the type check |
| `RequestAuthorizer.MisconfigurationComesFirst` | index.js:9-11 | fails with the REQUEST-misconfiguration message if and only if the type is not `'REQUEST'` |
| `RequestAuthorizer.HeaderLookup` | index.js:13-16 | "No header 'Authorization' is provided." if and only if both headers are absent or empty, independent of every service |
| `RequestAuthorizer.MalformedHeaderIsUnauthorized` | index.js:18-22 | a header not of the form `Bearer ` + one line is `Unauthorized` before any decoding |
| `RequestAuthorizer.DecodeBeforeAuthority` | index.js:25-40 | an undecodable token is `Unauthorized`; the missing-AUTHORITY error is raised only after a successful decode |
| `RequestAuthorizer.HandlerReachesVerify` | index.js:8-74 | once type, header, format, decoding, AUTHORITY and the key-set URI pass, the handler's outcome is that of the key lookup and verification alone |
| `RequestAuthorizer.SuccessGrantsMethodOnly` | index.js:62-73 | success implies the type, header, format and AUTHORITY checks passed, the token decoded, the key-set URI was built, the key was found and the verifier accepted; `principalId` is the verified `sub` and the one statement's resource is exactly `event.methodArn` |
| `RequestAuthorizer.ChainAsWritten` | index.js:48-74 | the chain as written always answers first; it leaves a second, stray effect exactly when that answer is a failure |
| `RequestAuthorizer.HandlerAsWritten` | index.js:8-74 | the handler as written answers first and has at most one more effect, which only follows an `Unauthorized` answer and is a stray rejection |
| `RequestAuthorizer.AsWrittenRejectsAfterAnswering` | index.js:48-74 | as written, a key or verification failure answers `Unauthorized`, then leaves an unhandled rejection |
| `RequestAuthorizer.KeyLookupFailureShowsStrayRejection` | index.js:48-62 | a concrete well-formed request whose key lookup fails shows that stray rejection |
| `RequestAuthorizer.IntendedIsFirstAnswer` | index.js:48-74 | the intended single answer is the first effect of the chain as written; anything after it is a stray rejection |
| `RequestAuthorizer.KeyOrVerifyFailureIsUnauthorized` | index.js:48-61 | key or verification failure is `Unauthorized`; success happens if and only if the key is found and the verifier accepts |
| `Reporter.Spread` | reporter.js:76 | object spread: the keys of both, the right operand winning |
| `Reporter.Identify` | reporter.js:52-53 | an event is read if and only if its ARN has at least six `:`-fields; the account has no `:`, the API id no `:` or `/` |
| `Reporter.EventDimensions` | reporter.js:54-74 | two dimension-only records: by account, then the same dimensions with the API appended |
| `Reporter.IdentifyAll` | reporter.js:52-53 | when every event is read, there is one id pair per event |
| `Reporter.PairsOf` | reporter.js:54-74 | each event gives two records whose only key is `Dimensions`: `[Account]`, then `[Account, API]` with that event's ids |
| `Reporter.ReduceConcat` | reporter.js:75 | the fold only appends: the accumulator and the first array are a prefix of the result |
| `Reporter.WithInvariants` | reporter.js:76 | each datum has its dimension record's keys plus `MetricName` and `Value`, keeps every key of the record, and otherwise carries `UseCount` and 1 |
| `Reporter.Report` | reporter.js:44-82 | the request has namespace `Platform Authorizer` and twice as many datums as events; otherwise a TypeError from a short ARN |
| `Reporter.MetricData` | reporter.js:49-76 | the metric data exists if and only if every ARN is well formed, and then holds two datums per event |
| `Reporter.IdentifyReads` | reporter.js:51-53 | an event is read if and only if its ARN has at least six `:`-fields; account = field 4, API id = field 5 up to its first `/` |
| `Reporter.IdentifyAllReads` | reporter.js:49-53 | all events are read if and only if every ARN is well formed, in order |
| `Reporter.ReduceConcatIsFlatten` | reporter.js:75 | the `reduce`/`concat` fold is the accumulator followed by the flattening |
| `Reporter.FlattenPairs` | reporter.js:54-75 | flattening pairs doubles the length; pair k sits at positions 2k and 2k+1 |
| `Reporter.SpreadKeepsInvariants` | reporter.js:17-20 | the dimensions never override `MetricName: 'UseCount'` or `Value: 1` |
| `Reporter.MetricDataShape` | reporter.js:49-76 | data exists if and only if every ARN is well formed; length is 2n; datum 2k is `[Account]`, 2k+1 is `[Account, API]` for event k |
| `Reporter.PairDatums` | reporter.js:54-76 | event k's datums sit at 2k (account) and 2k+1 (account and API) of the data built from the ids |
| `Reporter.EveryDatumCountsOneUse` | reporter.js:17-20 | every datum has `MetricName` `UseCount` and `Value` 1 |
| `Reporter.ReportSendsMetricData` | reporter.js:78-81 | the request is `{Namespace: 'Platform Authorizer', MetricData}` exactly when every ARN is well formed, else a TypeError |
| `Reporter.AuthorizerArnJoin` | reporter.js:51 | the documented ARN layout is its six fields joined by `:` |
| `Reporter.AuthorizerArnFields` | reporter.js:51-52 | an ARN in that layout splits back into its six fields |
| `Reporter.ReadsAuthorizerArn` | reporter.js:51-54 | `arn:aws:execute-api:<region>:<account>:<api>/authorizers/<id>` is read as `<account>` and `<api>` |

## Left out

- JWT decoding and signature/claim checks are parameters of the model: `aws-jwt-verify`,
  `jsonwebtoken` and the JWKS client (`jwks-rsa`). Only their verdicts are modelled.
- The `jwks-rsa` client's own key cache (`cache: true`, authorizer.js:19, index.js:43) is
  library behaviour and is not modelled; a key lookup is a pure function of URI and `kid`.
- Reading `process.env` and constructing module-level clients are configuration and
  are not modelled. This includes splitting `ISSUERS` on commas and building the JWKS
  URI in `authorizer.js`.
- The reporter's input decoding is not modelled: base64, gunzip, `JSON.parse` of the
  payload and of each log event, and reading `requestParameters.sourceArn`. The model
  starts from the sequence of `sourceArn` strings.
- The `putMetricData` call itself (network I/O) is not modelled; the model stops at the
  request it is given.
- `console.log` diagnostics are side effects only and are not modelled.
- Promise timing is not modelled. Each invocation's result is one value; in `index.js`
  the order of effects after the handler returns is a sequence.
- `TokenAuthorizer.Authorize`: the `methodArn` is taken to be a string. An absent ARN
  would make `createPolicyDocument` throw inside the `try`.
- `JwksAuthorizer.Authorize`: the same `methodArn` assumption applies.
- `TokenAuthorizer.Jwt`: tokens are taken to be strings. A truthy non-string token would
  make `token.match` throw.
- `Bearer.MatchBearerSpace`: characters are Unicode scalar values, so lone UTF-16
  surrogates cannot be expressed.
- `RequestAuthorizer.Handler`: the handler's second argument (`context`) is unused and is
  not modelled.
- `RequestAuthorizer.KeyLookupFailureShowsStrayRejection`: the model does not record that
  line 51's callback is skipped in favour of line 60's. Both answer `Unauthorized`.
- `webpack.config.js` is build configuration and is not modelled.

## Findings

| source | as written | input that shows it | evidently intended | confidence | as-written member | corrected member |
|---|---|---|---|---|---|---|
| index.js:48-74 | After a failure the `.catch` handlers call back `Unauthorized` but return normally. The last `.then` still runs and reads `sub` of `undefined`, a rejection nothing handles. The key-lookup `.catch` also reads the undeclared `kid` and throws before its own callback. | A well-formed `REQUEST` event (`Authorization: Bearer abc`, `AUTHORITY` set) whose signing-key lookup fails | Exactly one answer per request, `Unauthorized`, and nothing after it | high (not executed) | `RequestAuthorizer.KeyLookupFailureShowsStrayRejection` | `RequestAuthorizer.IntendedIsFirstAnswer` |
