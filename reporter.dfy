/**
 * The metrics reporter of `reporter.js`, from the already-parsed `sourceArn` of each
 * log event to the `putMetricData` request: two `UseCount` datums per event, one by
 * account and one by account and API.
 */
module Reporter {
  import opened Js
  import opened JsString

  const MetricNamespace: string := "Platform Authorizer"

  /** One CloudWatch dimension. */
  datatype Dimension = Dimension(name: string, value: string)

  /** A property value of a metric datum object. */
  datatype Field = Text(s: string) | Number(n: int) | Dimensions(ds: seq<Dimension>)

  /** A JavaScript object literal, property name to value. */
  type Record = map<string, Field>

  /** The request handed to `putMetricData`. */
  datatype PutMetricDataRequest = PutMetricDataRequest(namespace: string, metricData: seq<Record>)

  /** The promise the reporter returns before the CloudWatch call: the request, or what was thrown. */
  datatype Outcome = Put(request: PutMetricDataRequest) | Reject(thrown: Thrown)

  /** The account and the API named by one log event. */
  datatype EventIds = EventIds(accountId: string, apiId: string)

  /** `METRIC_INVARIANTS`. */
  const MetricInvariants: Record := map["MetricName" := Text("UseCount"), "Value" := Number(1)]

  /** `{ ...a, ...b }`: the properties of both, those of `b` winning. */
  function Spread(a: Record, b: Record): (r: Record)
    ensures r.Keys == a.Keys + b.Keys
    ensures forall k :: k in b ==> r[k] == b[k]
    ensures forall k :: k in a && k !in b ==> r[k] == a[k]
  {
    a + b
  }

  /**
   * `sourceArn.split(':')`, then `[ , , , , accountId, authorizerInfo ]` and
   * `[accountId, ...authorizerInfo.split('/')]` read as `[accountId, apiId]`. With fewer
   * than six fields `authorizerInfo` is `undefined` and `.split` throws a TypeError.
   */
  function Identify(sourceArn: string): (ids: Option<EventIds>)
    ensures ids.Some? <==> |Split(sourceArn, ':')| >= 6
    ensures ids.Some? ==> ':' !in ids.value.accountId && ':' !in ids.value.apiId && '/' !in ids.value.apiId
  {
    var fields := Split(sourceArn, ':');
    SplitSeparatorFree(sourceArn, ':');
    match At(fields, 5)
    case Str(authorizerInfo) =>
      SplitSeparatorFree(authorizerInfo, '/');
      SplitHead(authorizerInfo, '/');
      Some(EventIds(fields[4], Split(authorizerInfo, '/')[0]))
    case _ => None
  }

  /** The `.map` over all events of the step above; the first event that throws ends it. */
  function IdentifyAll(sourceArns: seq<string>): (ids: Option<seq<EventIds>>)
    ensures ids.Some? ==> |ids.value| == |sourceArns|
  {
    if sourceArns == [] then Some([])
    else
      match Identify(sourceArns[0])
      case None => None
      case Some(first) =>
        match IdentifyAll(sourceArns[1..])
        case None => None
        case Some(rest) => Some([first] + rest)
  }

  /** The two dimension sets of one event: by account, then by account and API. */
  function EventDimensions(ids: EventIds): (pair: seq<Record>)
    ensures |pair| == 2
    ensures pair[0].Keys == pair[1].Keys == {"Dimensions"}
    ensures pair[0]["Dimensions"] == Dimensions([Dimension("Account", ids.accountId)])
    ensures pair[1]["Dimensions"] == Dimensions(pair[0]["Dimensions"].ds + [Dimension("API", ids.apiId)])
  {
    assert [Dimension("Account", ids.accountId)] + [Dimension("API", ids.apiId)]
        == [Dimension("Account", ids.accountId), Dimension("API", ids.apiId)];
    [ map["Dimensions" := Dimensions([Dimension("Account", ids.accountId)])],
      map["Dimensions" := Dimensions([Dimension("Account", ids.accountId), Dimension("API", ids.apiId)])] ]
  }

  /** The `.map` producing one pair per event. */
  function PairsOf(ids: seq<EventIds>): (pairs: seq<seq<Record>>)
    ensures |pairs| == |ids|
    ensures forall k :: 0 <= k < |ids| ==> |pairs[k]| == 2
    ensures forall k :: 0 <= k < |ids| ==> pairs[k][0].Keys == pairs[k][1].Keys == {"Dimensions"}
    ensures forall k :: 0 <= k < |ids| ==>
      && pairs[k][0]["Dimensions"] == Dimensions([Dimension("Account", ids[k].accountId)])
      && pairs[k][1]["Dimensions"] == Dimensions([Dimension("Account", ids[k].accountId), Dimension("API", ids[k].apiId)])
  {
    seq(|ids|, k requires 0 <= k < |ids| => EventDimensions(ids[k]))
  }

  /** `.reduce((a, b) => a.concat(b), acc)`: a left fold of concatenation. */
  function ReduceConcat(acc: seq<Record>, xss: seq<seq<Record>>): (r: seq<Record>)
    ensures acc <= r
    ensures |xss| > 0 ==> acc + xss[0] <= r
    decreases |xss|
  {
    if xss == [] then acc else ReduceConcat(acc + xss[0], xss[1..])
  }

  /** Concatenation of a list of lists, right to left: the reference for the fold. */
  function Flatten(xss: seq<seq<Record>>): seq<Record>
  {
    if xss == [] then [] else xss[0] + Flatten(xss[1..])
  }

  /** `.map(ds => ({ ...METRIC_INVARIANTS, ...ds }))`. */
  function WithInvariants(ds: seq<Record>): (r: seq<Record>)
    ensures |r| == |ds|
    ensures forall k :: 0 <= k < |ds| ==> r[k].Keys == ds[k].Keys + {"MetricName", "Value"}
    ensures forall k, key :: 0 <= k < |ds| && key in ds[k] ==> r[k][key] == ds[k][key]
    ensures forall k :: 0 <= k < |ds| && "MetricName" !in ds[k] ==> r[k]["MetricName"] == Text("UseCount")
    ensures forall k :: 0 <= k < |ds| && "Value" !in ds[k] ==> r[k]["Value"] == Number(1)
  {
    seq(|ds|, k requires 0 <= k < |ds| => Spread(MetricInvariants, ds[k]))
  }

  /** The `MetricData` array, or `None` when some event's ARN has fewer than six `:`-fields. */
  function MetricData(sourceArns: seq<string>): (data: Option<seq<Record>>)
    ensures data.Some? <==> forall k :: 0 <= k < |sourceArns| ==> WellFormed(sourceArns[k])
    ensures data.Some? ==> |data.value| == 2 * |sourceArns|
  {
    IdentifyAllReads(sourceArns);
    match IdentifyAll(sourceArns)
    case None => None
    case Some(ids) =>
      ReduceConcatIsFlatten([], PairsOf(ids));
      FlattenPairs(PairsOf(ids));
      Some(WithInvariants(ReduceConcat([], PairsOf(ids))))
  }

  /** The default-exported reporter, up to the `putMetricData` call. */
  function Report(sourceArns: seq<string>): (r: Outcome)
    ensures r.Put? ==> r.request.namespace == "Platform Authorizer"
    ensures r.Put? ==> |r.request.metricData| == 2 * |sourceArns|
    ensures r.Reject? ==> r.thrown == TypeError && exists k :: 0 <= k < |sourceArns| && !WellFormed(sourceArns[k])
  {
    MetricDataShape(sourceArns);
    match MetricData(sourceArns)
    case None => Reject(TypeError)
    case Some(data) => Put(PutMetricDataRequest(MetricNamespace, data))
  }

  // ---------------------------------------------------------------------------
  // Reference definitions

  /** An ARN the reporter can read: at least six `:`-fields. */
  predicate WellFormed(sourceArn: string) {
    |Split(sourceArn, ':')| >= 6
  }

  /** The fifth `:`-field of the ARN. */
  function AccountOf(sourceArn: string): string
    requires WellFormed(sourceArn)
  {
    Split(sourceArn, ':')[4]
  }

  /** The sixth `:`-field up to its first `/`. */
  function ApiIdOf(sourceArn: string): string
    requires WellFormed(sourceArn)
  {
    var info := Split(sourceArn, ':')[5];
    info[..IndexOf(info, '/')]
  }

  /** The datum counting one use of the authorizer in an account. */
  function AccountDatum(accountId: string): Record
  {
    map["MetricName" := Text("UseCount"), "Value" := Number(1),
        "Dimensions" := Dimensions([Dimension("Account", accountId)])]
  }

  /** The datum counting one use of the authorizer by one API of an account. */
  function ApiDatum(accountId: string, apiId: string): Record
  {
    map["MetricName" := Text("UseCount"), "Value" := Number(1),
        "Dimensions" := Dimensions([Dimension("Account", accountId), Dimension("API", apiId)])]
  }

  // ---------------------------------------------------------------------------
  // Lemmas

  /** One event is read exactly when its ARN is well formed, into its account and API id. */
  lemma IdentifyReads(sourceArn: string)
    ensures Identify(sourceArn).Some? <==> WellFormed(sourceArn)
    ensures WellFormed(sourceArn) ==>
      Identify(sourceArn) == Some(EventIds(AccountOf(sourceArn), ApiIdOf(sourceArn)))
  {
    if WellFormed(sourceArn) {
      SplitHead(Split(sourceArn, ':')[5], '/');
    }
  }

  /** All events are read exactly when every ARN is well formed; then in order, one per event. */
  lemma {:induction false} IdentifyAllReads(sourceArns: seq<string>)
    ensures IdentifyAll(sourceArns).Some? <==> forall k :: 0 <= k < |sourceArns| ==> WellFormed(sourceArns[k])
    ensures IdentifyAll(sourceArns).Some? ==>
      forall k :: 0 <= k < |sourceArns| ==>
        IdentifyAll(sourceArns).value[k] == EventIds(AccountOf(sourceArns[k]), ApiIdOf(sourceArns[k]))
  {
    if sourceArns != [] {
      IdentifyReads(sourceArns[0]);
      IdentifyAllReads(sourceArns[1..]);
      assert forall k :: 1 <= k < |sourceArns| ==> sourceArns[k] == sourceArns[1..][k - 1];
    }
  }

  /** The left fold of concatenation is the accumulator followed by the flattening. */
  lemma {:induction false} ReduceConcatIsFlatten(acc: seq<Record>, xss: seq<seq<Record>>)
    ensures ReduceConcat(acc, xss) == acc + Flatten(xss)
    decreases |xss|
  {
    if xss != [] {
      ReduceConcatIsFlatten(acc + xss[0], xss[1..]);
      assert acc + xss[0] + Flatten(xss[1..]) == acc + (xss[0] + Flatten(xss[1..]));
    }
  }

  /** Flattening pairs: twice as many elements, pair `k` at positions `2k` and `2k+1`. */
  lemma {:induction false} FlattenPairs(xss: seq<seq<Record>>)
    requires forall k :: 0 <= k < |xss| ==> |xss[k]| == 2
    ensures |Flatten(xss)| == 2 * |xss|
    ensures forall k :: 0 <= k < |xss| ==> Flatten(xss)[2 * k] == xss[k][0] && Flatten(xss)[2 * k + 1] == xss[k][1]
  {
    if xss != [] {
      FlattenPairs(xss[1..]);
      var rest := Flatten(xss[1..]);
      forall k | 0 <= k < |xss|
        ensures Flatten(xss)[2 * k] == xss[k][0] && Flatten(xss)[2 * k + 1] == xss[k][1]
      {
        if k > 0 {
          assert xss[k] == xss[1..][k - 1];
          assert Flatten(xss)[2 * k] == rest[2 * (k - 1)];
          assert Flatten(xss)[2 * k + 1] == rest[2 * (k - 1) + 1];
        }
      }
    }
  }

  /** The object spread adds only `Dimensions`: it never overrides `MetricName` or `Value`. */
  lemma SpreadKeepsInvariants(dims: seq<Dimension>)
    ensures Spread(MetricInvariants, map["Dimensions" := Dimensions(dims)])
         == map["MetricName" := Text("UseCount"), "Value" := Number(1), "Dimensions" := Dimensions(dims)]
  {
    var r := Spread(MetricInvariants, map["Dimensions" := Dimensions(dims)]);
    assert r.Keys == {"MetricName", "Value", "Dimensions"};
  }

  /** A dimension set with the invariants added is the datum counting one use under those dimensions. */
  lemma DatumWithDimensions(ds: seq<Record>, k: nat, dims: seq<Dimension>)
    requires k < |ds|
    requires ds[k].Keys == {"Dimensions"} && ds[k]["Dimensions"] == Dimensions(dims)
    ensures WithInvariants(ds)[k]
         == map["MetricName" := Text("UseCount"), "Value" := Number(1), "Dimensions" := Dimensions(dims)]
  {
    var datum := WithInvariants(ds)[k];
    assert datum.Keys == {"Dimensions", "MetricName", "Value"};
    assert datum["Dimensions"] == Dimensions(dims);
  }

  /**
   * The metric data: present exactly when every ARN is well formed; then two datums per
   * event in event order, the account datum and then the account-and-API datum.
   */
  lemma MetricDataShape(sourceArns: seq<string>)
    ensures MetricData(sourceArns).Some? <==> forall k :: 0 <= k < |sourceArns| ==> WellFormed(sourceArns[k])
    ensures MetricData(sourceArns).Some? ==>
      var data := MetricData(sourceArns).value;
      && |data| == 2 * |sourceArns|
      && forall k :: 0 <= k < |sourceArns| ==>
           && data[2 * k] == AccountDatum(AccountOf(sourceArns[k]))
           && data[2 * k + 1] == ApiDatum(AccountOf(sourceArns[k]), ApiIdOf(sourceArns[k]))
  {
    IdentifyAllReads(sourceArns);
    match IdentifyAll(sourceArns)
    case None =>
    case Some(ids) =>
      var data := MetricData(sourceArns).value;
      assert data == WithInvariants(ReduceConcat([], PairsOf(ids)));
      forall k | 0 <= k < |sourceArns|
        ensures data[2 * k] == AccountDatum(AccountOf(sourceArns[k]))
        ensures data[2 * k + 1] == ApiDatum(AccountOf(sourceArns[k]), ApiIdOf(sourceArns[k]))
      {
        PairDatums(ids, k);
      }
  }

  /** The datums of event `k`: its account datum at `2k`, its account-and-API datum at `2k+1`. */
  lemma PairDatums(ids: seq<EventIds>, k: nat)
    requires k < |ids|
    ensures
      var data := WithInvariants(ReduceConcat([], PairsOf(ids)));
      && |data| == 2 * |ids|
      && data[2 * k] == AccountDatum(ids[k].accountId)
      && data[2 * k + 1] == ApiDatum(ids[k].accountId, ids[k].apiId)
  {
    FoldedPairAt(PairsOf(ids), k);
    var flat := ReduceConcat([], PairsOf(ids));
    DatumWithDimensions(flat, 2 * k, [Dimension("Account", ids[k].accountId)]);
    DatumWithDimensions(flat, 2 * k + 1, [Dimension("Account", ids[k].accountId), Dimension("API", ids[k].apiId)]);
  }

  /** After the `reduce`, pair `k` sits at positions `2k` and `2k+1`. */
  lemma FoldedPairAt(pairs: seq<seq<Record>>, k: nat)
    requires forall j :: 0 <= j < |pairs| ==> |pairs[j]| == 2
    requires k < |pairs|
    ensures |ReduceConcat([], pairs)| == 2 * |pairs|
    ensures ReduceConcat([], pairs)[2 * k] == pairs[k][0] && ReduceConcat([], pairs)[2 * k + 1] == pairs[k][1]
  {
    ReduceConcatIsFlatten([], pairs);
    FlattenPairs(pairs);
    assert ReduceConcat([], pairs) == Flatten(pairs);
  }

  /** Every datum counts one use: `MetricName` is `UseCount` and `Value` is 1. */
  lemma EveryDatumCountsOneUse(sourceArns: seq<string>)
    requires MetricData(sourceArns).Some?
    ensures forall i :: 0 <= i < |MetricData(sourceArns).value| ==>
      var d := MetricData(sourceArns).value[i];
      "MetricName" in d && d["MetricName"] == Text("UseCount") && "Value" in d && d["Value"] == Number(1)
  {
    var data := MetricData(sourceArns).value;
    MetricDataShape(sourceArns);
    forall i | 0 <= i < |data|
      ensures "MetricName" in data[i] && data[i]["MetricName"] == Text("UseCount")
      ensures "Value" in data[i] && data[i]["Value"] == Number(1)
    {
      var k := i / 2;
      if i % 2 == 0 {
        assert i == 2 * k;
      } else {
        assert i == 2 * k + 1;
      }
    }
  }

  /**
   * The reporter sends one request to the `Platform Authorizer` namespace with exactly the
   * computed metric data, and throws a TypeError instead when an ARN is too short.
   */
  lemma ReportSendsMetricData(sourceArns: seq<string>)
    ensures Report(sourceArns).Put? <==> forall k :: 0 <= k < |sourceArns| ==> WellFormed(sourceArns[k])
    ensures Report(sourceArns).Put? ==>
      Report(sourceArns).request == PutMetricDataRequest("Platform Authorizer", MetricData(sourceArns).value)
    ensures Report(sourceArns).Reject? ==> Report(sourceArns).thrown == TypeError
  {
    MetricDataShape(sourceArns);
  }

  /** `arn:aws:execute-api:<region>:<account>:<api>/authorizers/<id>`, the ARN layout the reporter expects. */
  function AuthorizerArn(region: string, account: string, api: string, authorizer: string): string
  {
    "arn:aws:execute-api:" + region + ":" + account + ":" + api + "/authorizers/" + authorizer
  }

  /** That layout is its six fields joined with `:`. */
  lemma AuthorizerArnJoin(region: string, account: string, info: string)
    ensures Join(["arn", "aws", "execute-api", region, account, info], ':')
         == "arn:aws:execute-api:" + region + ":" + account + ":" + info
  {
    var fields := ["arn", "aws", "execute-api", region, account, info];
    var tail := region + [':'] + account + [':'] + info;
    assert fields[5..] == [info];
    assert Join(fields[4..], ':') == account + [':'] + info;
    assert Join(fields[3..], ':') == tail;
    assert Join(fields[2..], ':') == "execute-api" + [':'] + tail;
    assert Join(fields[1..], ':') == "aws" + [':'] + ("execute-api" + [':'] + tail);
    assert "arn" + [':'] + ("aws" + [':'] + ("execute-api" + [':'] + tail))
        == "arn:aws:execute-api:" + region + ":" + account + ":" + info;
  }

  /** When no part holds a `:`, the ARN splits back into its six fields. */
  lemma AuthorizerArnFields(region: string, account: string, api: string, authorizer: string)
    requires ':' !in region && ':' !in account && ':' !in api && ':' !in authorizer
    ensures Split(AuthorizerArn(region, account, api, authorizer), ':')
         == ["arn", "aws", "execute-api", region, account, api + "/authorizers/" + authorizer]
  {
    var info := api + "/authorizers/" + authorizer;
    var fields := ["arn", "aws", "execute-api", region, account, info];
    assert ':' !in info by {
      assert ':' !in "/authorizers/";
      assert forall c :: c in info ==> c in api || c in "/authorizers/" || c in authorizer;
    }
    assert SeparatorFree(fields, ':');
    AuthorizerArnJoin(region, account, info);
    assert AuthorizerArn(region, account, api, authorizer) == "arn:aws:execute-api:" + region + ":" + account + ":" + info;
    SplitJoin(fields, ':');
  }

  /** Such an ARN is read as its account and, from `<api>/authorizers/<id>`, its API id. */
  lemma ReadsAuthorizerArn(region: string, account: string, api: string, authorizer: string)
    requires ':' !in region && ':' !in account && ':' !in api && ':' !in authorizer
    requires '/' !in api
    ensures WellFormed(AuthorizerArn(region, account, api, authorizer))
    ensures AccountOf(AuthorizerArn(region, account, api, authorizer)) == account
    ensures ApiIdOf(AuthorizerArn(region, account, api, authorizer)) == api
  {
    AuthorizerArnFields(region, account, api, authorizer);
    var info := api + "/authorizers/" + authorizer;
    IndexOfAfterFree(api, '/', "authorizers/" + authorizer);
    assert info == api + ['/'] + ("authorizers/" + authorizer);
    assert info[..|api|] == api;
  }
}
