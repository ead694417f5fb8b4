/**
 * The create handler of the ACM-registering custom resource: request a DNS-validated
 * certificate for a domain, wait for ACM to produce the validation record, publish it
 * as an UPSERT into the domain's hosted zone, and check whether the certificate has
 * been issued.
 */
module AcmRegister {
  import opened Wrappers
  import opened Aws

  /** The part of the custom-resource event the handler reads: its `ResourceProperties`, if any. */
  datatype Event = Event(resourceProperties: Option<map<string, string>>)

  /** The exceptions `poll_create` can raise. */
  datatype Error =
    | MissingResourceProperties          // event["ResourceProperties"] is absent
    | MissingHostedZoneName              // ResourceProperties has no "HostedZoneName"
    | NoValidationOptions                // DomainValidationOptions is an empty list
    | HostedZoneNotFound(zone: string)   // the zone lookup did not return the zone first

  /**
   * How one invocation ends: `Finished(validated)` is the value `poll_create` returns,
   * `Failed` is a raised exception, and `Stalled` means the supplied describe responses
   * ran out while the challenge was still not ready (the source would go on polling).
   */
  datatype Outcome = Finished(validated: bool) | Failed(error: Error) | Stalled

  /** The responses the AWS services give to one invocation, in the order they are asked for. */
  datatype AwsScript = AwsScript(
    certificateArn: string,               // `CertificateArn` of the request_certificate response
    describes: seq<DescribeResponse>,     // successive describe_certificate responses
    hostedZones: seq<HostedZone>,         // `HostedZones` of the list_hosted_zones_by_name response
    issued: seq<CertificateSummary>)      // `CertificateSummaryList` of list_certificates(ISSUED)

  /** What one invocation does: how it ends, and every AWS call it makes, in order. */
  datatype Run = Run(outcome: Outcome, calls: seq<Call>)

  /** Python's `d.get(key, default)` on a string dictionary whose default is optional. */
  function Get(d: map<string, string>, key: string, default: Option<string>): Option<string> {
    if key in d then Some(d[key]) else default
  }

  /** Python truthiness of the optional record name: None and "" are both false. */
  predicate HasLabel(recordName: Option<string>) {
    recordName.Some? && recordName.value != ""
  }

  /** The domain to certify: `record.zone`, or the zone alone when there is no record name. */
  function Fqdn(hostedZone: string, recordName: Option<string>): (fqdn: string)
    ensures |fqdn| == if HasLabel(recordName) then |recordName.value| + 1 + |hostedZone| else |hostedZone|
  {
    if HasLabel(recordName) then recordName.value + "." + hostedZone else hostedZone
  }

  /**
   * The FQDN ends with the zone; it is the zone itself exactly when there is no record
   * name, and otherwise it is the record name, a dot, then the zone.
   */
  lemma FqdnForm(hostedZone: string, recordName: Option<string>)
    ensures var fqdn := Fqdn(hostedZone, recordName);
      && |fqdn| >= |hostedZone| && fqdn[|fqdn| - |hostedZone|..] == hostedZone
      && (fqdn == hostedZone <==> !HasLabel(recordName))
      && (HasLabel(recordName) ==>
            |fqdn| == |recordName.value| + 1 + |hostedZone| &&
            fqdn[..|recordName.value|] == recordName.value && fqdn[|recordName.value|] == '.')
  {
    var fqdn := Fqdn(hostedZone, recordName);
    if HasLabel(recordName) {
      assert |fqdn| != |hostedZone|;
    }
  }

  /** The record-name label of a domain inside `hostedZone`, if it has one: the inverse of Fqdn. */
  function RecordLabel(fqdn: string, hostedZone: string): (prefix: Option<string>)
    ensures prefix.Some? ==> prefix.value != "" && fqdn == prefix.value + "." + hostedZone
  {
    var n := |fqdn| - |hostedZone| - 1;
    if 0 < n && fqdn[n + 1..] == hostedZone && fqdn[n] == '.' then Some(fqdn[..n]) else None
  }

  /**
   * The region of the AWS clients: the `Region` property, else the `TargetRegion`
   * property, else the environment's default region (`AWS_DEFAULT_REGION`).
   */
  function TargetRegion(event: Event, envRegion: Option<string>): (region: Option<string>)
    ensures event.resourceProperties.None? ==> region == envRegion
    ensures event.resourceProperties.Some? ==>
      var props := event.resourceProperties.value;
      && ("Region" in props ==> region == Some(props["Region"]))
      && ("Region" !in props && "TargetRegion" in props ==> region == Some(props["TargetRegion"]))
      && ("Region" !in props && "TargetRegion" !in props ==> region == envRegion)
  {
    match event.resourceProperties
    case None => envRegion
    case Some(props) => Get(props, "Region", Get(props, "TargetRegion", envRegion))
  }

  /**
   * The zone check: only the first zone of the lookup is inspected; it is accepted when
   * its name is the zone name with a trailing dot, and then its Id is used.
   */
  function SelectHostedZone(zones: seq<HostedZone>, hostedZone: string): (r: Result<string, Error>)
    ensures r.Failure? <==> |zones| == 0 || zones[0].name != hostedZone + "."
    ensures r.Failure? ==> r.error == HostedZoneNotFound(hostedZone)
    ensures r.Success? ==> |zones| > 0 && r.value == zones[0].id
  {
    if |zones| > 0 && zones[0].name == hostedZone + "." then Success(zones[0].id)
    else Failure(HostedZoneNotFound(hostedZone))
  }

  /** The change batch that publishes the challenge: one UPSERT of its name, type and value, TTL 300. */
  function UpsertBatch(rec: ResourceRecord): (batch: ChangeBatch)
    ensures |batch.changes| == 1
    ensures var change := batch.changes[0];
      && change.action == "UPSERT"
      && change.resourceRecordSet.ttl == 300
      && |change.resourceRecordSet.resourceRecords| == 1
      && ChallengeOf(change.resourceRecordSet) == rec
  {
    ChangeBatch([Change("UPSERT", ResourceRecordSet(rec.name, rec.recordType, 300, [RecordValue(rec.value)]))])
  }

  /** The challenge a one-value record set publishes. */
  function ChallengeOf(rs: ResourceRecordSet): ResourceRecord
    requires |rs.resourceRecords| == 1
  {
    ResourceRecord(rs.name, rs.recordType, rs.resourceRecords[0].value)
  }

  /** True when some listed (issued) certificate has the given ARN: `_await_validation`'s `any`. */
  function AwaitValidation(summaries: seq<CertificateSummary>, arn: string): (issued: bool)
    ensures issued <==> exists i :: 0 <= i < |summaries| && summaries[i].certificateArn == arn
  {
    if summaries == [] then false
    else if summaries[0].certificateArn == arn then true
    else
      var rest := AwaitValidation(summaries[1..], arn);
      assert forall i :: 0 < i < |summaries| ==> summaries[i] == summaries[1..][i - 1];
      rest
  }

  /** A describe response whose first validation option has no ResourceRecord yet. */
  predicate Pending(response: DescribeResponse) {
    |response.validationOptions| > 0 && response.validationOptions[0].resourceRecord.None?
  }

  /**
   * What the validation-record wait loop reaches after `fetches` describe calls: the
   * record of the last fetched first option, an empty option list, or (`NotReady`) the
   * end of the supplied responses.
   */
  datatype WaitResult = Ready(fetches: nat, record: ResourceRecord) | NoOptions(fetches: nat) | NotReady

  /** The wait loop over the describe responses from index `i` on. */
  function WaitFrom(describes: seq<DescribeResponse>, i: nat): (w: WaitResult)
    requires i <= |describes|
    ensures w.Ready? ==>
      && i < w.fetches <= |describes|
      && (forall j :: i <= j < w.fetches - 1 ==> Pending(describes[j]))
      && |describes[w.fetches - 1].validationOptions| > 0
      && describes[w.fetches - 1].validationOptions[0].resourceRecord == Some(w.record)
    ensures w.NoOptions? ==>
      && i < w.fetches <= |describes|
      && (forall j :: i <= j < w.fetches - 1 ==> Pending(describes[j]))
      && |describes[w.fetches - 1].validationOptions| == 0
    ensures w.NotReady? ==> forall j :: i <= j < |describes| ==> Pending(describes[j])
    decreases |describes| - i
  {
    if i == |describes| then NotReady
    else if |describes[i].validationOptions| == 0 then NoOptions(i + 1)
    else match describes[i].validationOptions[0].resourceRecord
      case Some(rec) => Ready(i + 1, rec)
      case None => WaitFrom(describes, i + 1)
  }

  /** The describe calls of the wait loop: `n` describe_certificate calls for the certificate. */
  function Describes(region: Option<string>, arn: string, n: nat): (calls: seq<Call>)
    ensures |calls| == n
    ensures forall k :: 0 <= k < n ==> calls[k] == DescribeCertificate(region, arn)
  {
    if n == 0 then [] else Describes(region, arn, n - 1) + [DescribeCertificate(region, arn)]
  }

  /** The optional `RecordName` property. */
  function RecordNameOf(props: map<string, string>): Option<string> {
    Get(props, "RecordName", None)
  }

  /** The number of describe calls the wait loop makes. */
  function Fetches(w: WaitResult, supplied: nat): nat {
    match w
    case Ready(n, _) => n
    case NoOptions(n) => n
    case NotReady => supplied
  }

  /** The specification of one invocation of `poll_create`: its outcome and its calls. */
  function Invocation(event: Event, envRegion: Option<string>, script: AwsScript): (run: Run)
    ensures |run.calls| <= |script.describes| + 4
    ensures run.calls == [] <==> run.outcome in {Failed(MissingResourceProperties), Failed(MissingHostedZoneName)}
  {
    match event.resourceProperties
    case None => Run(Failed(MissingResourceProperties), [])
    case Some(props) =>
      if "HostedZoneName" !in props then Run(Failed(MissingHostedZoneName), [])
      else
        var region := TargetRegion(event, envRegion);
        var hostedZone := props["HostedZoneName"];
        var requested := [RequestCertificate(region, Fqdn(hostedZone, RecordNameOf(props)), "DNS", "ENABLED")];
        AfterRequest(region, hostedZone, script, requested)
  }

  /** The invocation from the first describe call on, once the certificate has been requested. */
  function AfterRequest(region: Option<string>, hostedZone: string, script: AwsScript, requested: seq<Call>): Run {
    var w := WaitFrom(script.describes, 0);
    var waited := requested + Describes(region, script.certificateArn, Fetches(w, |script.describes|));
    match w
    case NotReady => Run(Stalled, waited)
    case NoOptions(_) => Run(Failed(NoValidationOptions), waited)
    case Ready(_, rec) => AfterWait(region, hostedZone, script, rec, waited)
  }

  /** The invocation from the zone lookup on, once the validation record is known. */
  function AfterWait(region: Option<string>, hostedZone: string, script: AwsScript, rec: ResourceRecord, waited: seq<Call>): Run {
    var looked := waited + [ListHostedZonesByName(region, hostedZone)];
    match SelectHostedZone(script.hostedZones, hostedZone)
    case Failure(e) => Run(Failed(e), looked)
    case Success(zoneId) =>
      Run(Finished(AwaitValidation(script.issued, script.certificateArn)),
          looked + [ChangeResourceRecordSets(region, zoneId, UpsertBatch(rec)),
                    ListCertificates(region, ["ISSUED"])])
  }

  /**
   * The wait loop of `poll_create`: describe the certificate, then describe it again
   * until the first validation option carries a ResourceRecord. The loop runs over the
   * supplied describe responses and stops with `NotReady` when they run out.
   */
  method AwaitValidationRecord(region: Option<string>, certArn: string, describes: seq<DescribeResponse>)
    returns (wait: WaitResult, calls: seq<Call>)
    ensures wait == WaitFrom(describes, 0)
    ensures calls == Describes(region, certArn, Fetches(wait, |describes|))
  {
    if |describes| == 0 {
      return NotReady, [];
    }
    calls := [DescribeCertificate(region, certArn)];
    assert Describes(region, certArn, 1) == calls;
    var fetched := 1;
    var details := describes[0];
    if |details.validationOptions| == 0 {
      return NoOptions(fetched), calls;
    }
    var validationOptions := details.validationOptions[0];
    while validationOptions.resourceRecord.None?
      invariant 1 <= fetched <= |describes|
      invariant calls == Describes(region, certArn, fetched)
      invariant |describes[fetched - 1].validationOptions| > 0
      invariant validationOptions == describes[fetched - 1].validationOptions[0]
      invariant WaitFrom(describes, 0) == WaitFrom(describes, fetched - 1)
      decreases |describes| - fetched
    {
      if fetched == |describes| {
        return NotReady, calls;
      }
      calls := calls + [DescribeCertificate(region, certArn)];
      details := describes[fetched];
      fetched := fetched + 1;
      if |details.validationOptions| == 0 {
        return NoOptions(fetched), calls;
      }
      validationOptions := details.validationOptions[0];
    }
    wait := Ready(fetched, validationOptions.resourceRecord.value);
  }

  /** The custom-resource helper's state that `poll_create` updates: its output `Data`. */
  class CfnResource {
    var data: map<string, string>

    constructor ()
      ensures data == map[]
    {
      data := map[];
    }
  }

  /**
   * `poll_create`: one invocation of the create handler. It returns how the invocation
   * ends and the AWS calls it made; on a validated certificate it sets Data["Arn"].
   */
  method PollCreate(helper: CfnResource, event: Event, envRegion: Option<string>, script: AwsScript)
    returns (outcome: Outcome, calls: seq<Call>)
    modifies helper
    ensures Run(outcome, calls) == Invocation(event, envRegion, script)
    ensures outcome == Finished(true) ==> helper.data == old(helper.data)["Arn" := script.certificateArn]
    ensures outcome != Finished(true) ==> helper.data == old(helper.data)
  {
    calls := [];
    var acmRegion := TargetRegion(event, envRegion);
    if event.resourceProperties.None? {
      return Failed(MissingResourceProperties), calls;
    }
    var props := event.resourceProperties.value;
    if "HostedZoneName" !in props {
      return Failed(MissingHostedZoneName), calls;
    }
    var hostedZone := props["HostedZoneName"];
    var fqdn := Fqdn(hostedZone, RecordNameOf(props));
    calls := [RequestCertificate(acmRegion, fqdn, "DNS", "ENABLED")];
    var certArn := script.certificateArn;
    assert Invocation(event, envRegion, script) == AfterRequest(acmRegion, hostedZone, script, calls);

    var wait, describeCalls := AwaitValidationRecord(acmRegion, certArn, script.describes);
    calls := calls + describeCalls;
    if wait.NotReady? {
      return Stalled, calls;
    } else if wait.NoOptions? {
      return Failed(NoValidationOptions), calls;
    }
    var validationRecord := wait.record;
    assert Invocation(event, envRegion, script)
      == AfterWait(acmRegion, hostedZone, script, validationRecord, calls);

    var r53Region := TargetRegion(event, envRegion);
    calls := calls + [ListHostedZonesByName(r53Region, hostedZone)];
    var zone := SelectHostedZone(script.hostedZones, hostedZone);
    if zone.Failure? {
      return Failed(zone.error), calls;
    }
    calls := calls + [ChangeResourceRecordSets(r53Region, zone.value, UpsertBatch(validationRecord))];

    calls := calls + [ListCertificates(acmRegion, ["ISSUED"])];
    var validated := AwaitValidation(script.issued, certArn);
    if validated {
      helper.data := helper.data["Arn" := certArn];
    }
    outcome := Finished(validated);
  }
}
