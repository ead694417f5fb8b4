/**
 * Properties of one invocation of the create handler, stated over its specification
 * `Invocation` (which `PollCreate` is proved to follow), and of the pure pieces it uses.
 */
module AcmRegisterProperties {
  import opened Wrappers
  import opened Aws
  import opened AcmRegister

  /** The event carries what `poll_create` reads before it requests a certificate. */
  predicate Requests(event: Event) {
    event.resourceProperties.Some? && "HostedZoneName" in event.resourceProperties.value
  }

  function HostedZoneOf(event: Event): string
    requires Requests(event)
  {
    event.resourceProperties.value["HostedZoneName"]
  }

  /** The position of a call in the handler's sequence of steps. */
  function Phase(c: Call): nat {
    match c
    case RequestCertificate(_, _, _, _) => 0
    case DescribeCertificate(_, _) => 1
    case ListHostedZonesByName(_, _) => 2
    case ChangeResourceRecordSets(_, _, _) => 3
    case ListCertificates(_, _) => 4
  }

  /** The `request_certificate` call of an invocation that requests a certificate. */
  function RequestCall(event: Event, envRegion: Option<string>): Call
    requires Requests(event)
  {
    var props := event.resourceProperties.value;
    RequestCertificate(TargetRegion(event, envRegion), Fqdn(props["HostedZoneName"], RecordNameOf(props)), "DNS", "ENABLED")
  }

  /** An invocation that requests a certificate goes on as AfterRequest after that one call. */
  lemma InvocationAfterRequest(event: Event, envRegion: Option<string>, script: AwsScript)
    requires Requests(event)
    ensures Invocation(event, envRegion, script)
      == AfterRequest(TargetRegion(event, envRegion), HostedZoneOf(event), script, [RequestCall(event, envRegion)])
  {
  }

  /**
   * The calls after the request, by position: `n` describe calls, then nothing, the
   * zone lookup, or the lookup, the upsert and the issuance check.
   */
  lemma AfterRequestShape(region: Option<string>, hostedZone: string, script: AwsScript, request: Call)
    returns (n: nat)
    ensures var run := AfterRequest(region, hostedZone, script, [request]);
      var w := WaitFrom(script.describes, 0);
      var zone := SelectHostedZone(script.hostedZones, hostedZone);
      && n <= |script.describes|
      && (w.Ready? ==> n == w.fetches)
      && (|run.calls| == n + 1 || |run.calls| == n + 2 || |run.calls| == n + 4)
      && run.calls[0] == request
      && (forall k :: 1 <= k <= n ==> run.calls[k] == DescribeCertificate(region, script.certificateArn))
      && (|run.calls| == n + 1 <==> !w.Ready?)
      && (|run.calls| == n + 4 <==> w.Ready? && zone.Success?)
      && (|run.calls| == n + 4 <==> run.outcome.Finished?)
      && (|run.calls| > n + 1 ==> run.calls[n + 1] == ListHostedZonesByName(region, hostedZone))
      && (|run.calls| == n + 4 ==>
            && run.calls[n + 2] == ChangeResourceRecordSets(region, zone.value, UpsertBatch(w.record))
            && run.calls[n + 3] == ListCertificates(region, ["ISSUED"]))
  {
    var w := WaitFrom(script.describes, 0);
    n := Fetches(w, |script.describes|);
    var describes := Describes(region, script.certificateArn, n);
    var waited := [request] + describes;
    assert |waited| == n + 1 && waited[0] == request;
    assert forall k :: 1 <= k <= n ==> waited[k] == describes[k - 1];
    if w.Ready? {
      var lookup := waited + [ListHostedZonesByName(region, hostedZone)];
      assert forall k :: 0 <= k <= n ==> lookup[k] == waited[k];
      match SelectHostedZone(script.hostedZones, hostedZone)
      case Failure(_) =>
      case Success(zoneId) =>
        var write := [ChangeResourceRecordSets(region, zoneId, UpsertBatch(w.record)), ListCertificates(region, ["ISSUED"])];
        assert forall k :: 0 <= k <= n + 1 ==> (lookup + write)[k] == lookup[k];
    }
  }

  /** The position of the `k`-th call of an invocation that requests a certificate. */
  function PhaseOfIndex(k: nat, n: nat): nat {
    if k == 0 then 0 else if k <= n then 1 else k - n + 1
  }

  /**
   * `request_certificate` is the first call of an invocation and is made exactly once,
   * for the FQDN with DNS validation and transparency logging; it is made exactly when
   * the event carries the hosted zone name.
   */
  lemma RequestFirstAndOnce(event: Event, envRegion: Option<string>, script: AwsScript)
    ensures var run := Invocation(event, envRegion, script);
      && (run.calls != [] <==> Requests(event))
      && (Requests(event) ==>
            var props := event.resourceProperties.value;
            run.calls[0] == RequestCertificate(TargetRegion(event, envRegion),
                                               Fqdn(props["HostedZoneName"], RecordNameOf(props)), "DNS", "ENABLED"))
      && (forall i :: 0 < i < |run.calls| ==> !run.calls[i].RequestCertificate?)
  {
    if Requests(event) {
      InvocationAfterRequest(event, envRegion, script);
      var n := AfterRequestShape(TargetRegion(event, envRegion), HostedZoneOf(event), script, RequestCall(event, envRegion));
    }
  }

  /**
   * The calls follow the handler's order: request, describes, zone lookup, upsert,
   * issuance check; every step but the describe is made at most once, and every
   * describe is of the requested certificate.
   */
  lemma CallsInOrder(event: Event, envRegion: Option<string>, script: AwsScript)
    ensures var calls := Invocation(event, envRegion, script).calls;
      && (forall i, j :: 0 <= i < j < |calls| ==>
            Phase(calls[i]) < Phase(calls[j]) || (calls[i].DescribeCertificate? && calls[j].DescribeCertificate?))
      && (forall i :: 0 <= i < |calls| && calls[i].DescribeCertificate? ==>
            calls[i].certificateArn == script.certificateArn)
  {
    if Requests(event) {
      InvocationAfterRequest(event, envRegion, script);
      var n := AfterRequestShape(TargetRegion(event, envRegion), HostedZoneOf(event), script, RequestCall(event, envRegion));
      var calls := Invocation(event, envRegion, script).calls;
      assert forall k :: 0 <= k < |calls| ==> Phase(calls[k]) == PhaseOfIndex(k, n);
    }
  }

  /**
   * When the zone check rejects the lookup, the invocation fails with the zone's name
   * after the lookup, and neither writes the record nor checks issuance; no invocation
   * that fails with one of the handler's own errors does either.
   */
  lemma RejectedZoneMeansNoWrite(event: Event, envRegion: Option<string>, script: AwsScript)
    requires Requests(event)
    ensures var run := Invocation(event, envRegion, script);
      && (run.outcome == Failed(HostedZoneNotFound(HostedZoneOf(event))) <==>
            WaitFrom(script.describes, 0).Ready? && SelectHostedZone(script.hostedZones, HostedZoneOf(event)).Failure?)
      && (run.outcome.Failed? ==>
            forall i :: 0 <= i < |run.calls| ==>
              !run.calls[i].ChangeResourceRecordSets? && !run.calls[i].ListCertificates?)
  {
    InvocationAfterRequest(event, envRegion, script);
    var n := AfterRequestShape(TargetRegion(event, envRegion), HostedZoneOf(event), script, RequestCall(event, envRegion));
  }

  /**
   * The record is written only into the zone the check accepted, as the single UPSERT
   * of the challenge that the last fetched describe response carried in its first
   * validation option; every earlier response was still pending.
   */
  lemma WriteUsesAcceptedZoneAndLastRecord(event: Event, envRegion: Option<string>, script: AwsScript)
    ensures var calls := Invocation(event, envRegion, script).calls;
      forall i :: 0 <= i < |calls| && calls[i].ChangeResourceRecordSets? ==>
        && Requests(event)
        && SelectHostedZone(script.hostedZones, HostedZoneOf(event)) == Success(calls[i].hostedZoneId)
        && 3 <= i <= |script.describes| + 2
        && (forall j :: 0 <= j < i - 3 ==> Pending(script.describes[j]))
        && |script.describes[i - 3].validationOptions| > 0
        && script.describes[i - 3].validationOptions[0].resourceRecord.Some?
        && calls[i].changeBatch == UpsertBatch(script.describes[i - 3].validationOptions[0].resourceRecord.value)
  {
    if Requests(event) {
      InvocationAfterRequest(event, envRegion, script);
      var n := AfterRequestShape(TargetRegion(event, envRegion), HostedZoneOf(event), script, RequestCall(event, envRegion));
    }
  }

  /**
   * An invocation ends with the issuance check exactly when it got past the zone
   * check, and it reports the certificate validated exactly when the listed issued
   * certificates include the requested ARN.
   */
  lemma ValidatedExactlyWhenIssued(event: Event, envRegion: Option<string>, script: AwsScript)
    ensures var run := Invocation(event, envRegion, script);
      && (run.outcome.Finished? <==>
            Requests(event) && WaitFrom(script.describes, 0).Ready?
            && SelectHostedZone(script.hostedZones, HostedZoneOf(event)).Success?)
      && (run.outcome.Finished? ==>
            && run.calls[|run.calls| - 1] == ListCertificates(TargetRegion(event, envRegion), ["ISSUED"])
            && (run.outcome.validated <==>
                  exists k :: 0 <= k < |script.issued| && script.issued[k].certificateArn == script.certificateArn))
  {
    if Requests(event) {
      InvocationAfterRequest(event, envRegion, script);
      var n := AfterRequestShape(TargetRegion(event, envRegion), HostedZoneOf(event), script, RequestCall(event, envRegion));
    }
  }

  /** The describe responses are the wait loop's only input: the outcome is Stalled exactly when every one was pending. */
  lemma StalledExactlyWhenNeverReady(event: Event, envRegion: Option<string>, script: AwsScript)
    requires Requests(event)
    ensures Invocation(event, envRegion, script).outcome == Stalled
            <==> forall j :: 0 <= j < |script.describes| ==> Pending(script.describes[j])
  {
    InvocationAfterRequest(event, envRegion, script);
  }

  /** The FQDN keeps its record-name label recoverable: RecordLabel inverts Fqdn. */
  lemma FqdnRoundTrip(hostedZone: string, recordName: Option<string>)
    ensures RecordLabel(Fqdn(hostedZone, recordName), hostedZone) == if HasLabel(recordName) then recordName else None
  {
    var fqdn := Fqdn(hostedZone, recordName);
    FqdnForm(hostedZone, recordName);
    if HasLabel(recordName) {
      var n := |recordName.value|;
      assert fqdn[n + 1..] == hostedZone;
    }
  }

  /** Every domain with a label inside the zone is the FQDN of that label. */
  lemma RecordLabelRoundTrip(fqdn: string, hostedZone: string)
    requires RecordLabel(fqdn, hostedZone).Some?
    ensures Fqdn(hostedZone, RecordLabel(fqdn, hostedZone)) == fqdn
  {
  }

  /** Only the first zone of the lookup is inspected: what follows it never matters. */
  lemma OnlyFirstZoneInspected(first: HostedZone, rest: seq<HostedZone>, others: seq<HostedZone>, hostedZone: string)
    ensures SelectHostedZone([first] + rest, hostedZone) == SelectHostedZone([first] + others, hostedZone)
  {
    assert ([first] + rest)[0] == first && ([first] + others)[0] == first;
  }

  /** A lookup that returns no zone, or a zone of another domain first, is rejected. */
  lemma WrongZoneRejected(id: string)
    ensures SelectHostedZone([], "example.org") == Failure(HostedZoneNotFound("example.org"))
    ensures SelectHostedZone([HostedZone("example.com.", id)], "example.org") == Failure(HostedZoneNotFound("example.org"))
    ensures SelectHostedZone([HostedZone("example.org.", id), HostedZone("example.com.", "Z2")], "example.org") == Success(id)
  {
    assert "example.com." != "example.org" + "." by {
      assert "example.com."[9] != ("example.org" + ".")[9];
    }
  }

  /** After the upsert, the zone holds exactly the challenge under its name and type, with TTL 300; nothing else changes. */
  lemma PublishedChallenge(zone: ZoneRecords, rec: ResourceRecord)
    ensures var z := ApplyUpserts(zone, UpsertBatch(rec).changes);
      && z.Keys == zone.Keys + {(rec.name, rec.recordType)}
      && z[(rec.name, rec.recordType)].ttl == 300
      && |z[(rec.name, rec.recordType)].resourceRecords| == 1
      && ChallengeOf(z[(rec.name, rec.recordType)]) == rec
      && (forall k :: k in zone && k != (rec.name, rec.recordType) ==> z[k] == zone[k])
  {
    var changes := UpsertBatch(rec).changes;
    assert changes[1..] == [];
  }

  /** Publishing the challenge twice leaves the zone as publishing it once: the UPSERT is idempotent. */
  lemma PublishIdempotent(zone: ZoneRecords, rec: ResourceRecord)
    ensures var changes := UpsertBatch(rec).changes;
      ApplyUpserts(ApplyUpserts(zone, changes), changes) == ApplyUpserts(zone, changes)
  {
    var changes := UpsertBatch(rec).changes;
    assert changes[1..] == [];
  }

  /** The scenario of a certificate for app.example.com that is issued on the first check. */
  lemma IssuedOnFirstCheck()
    ensures var challenge := ResourceRecord("_abc.example.com", "CNAME", "_xyz.acm-validations.aws");
      var run := Invocation(
        Event(Some(map["HostedZoneName" := "example.com", "RecordName" := "app"])),
        Some("us-east-1"),
        AwsScript("arn:cert:1",
                  [DescribeResponse([ValidationOption(None)]), DescribeResponse([ValidationOption(Some(challenge))])],
                  [HostedZone("example.com.", "Z1")],
                  [CertificateSummary("arn:cert:0"), CertificateSummary("arn:cert:1")]));
      && run.outcome == Finished(true)
      && run.calls == [RequestCertificate(Some("us-east-1"), "app.example.com", "DNS", "ENABLED"),
                       DescribeCertificate(Some("us-east-1"), "arn:cert:1"),
                       DescribeCertificate(Some("us-east-1"), "arn:cert:1"),
                       ListHostedZonesByName(Some("us-east-1"), "example.com"),
                       ChangeResourceRecordSets(Some("us-east-1"), "Z1", UpsertBatch(challenge)),
                       ListCertificates(Some("us-east-1"), ["ISSUED"])]
  {
    var challenge := ResourceRecord("_abc.example.com", "CNAME", "_xyz.acm-validations.aws");
    var props := map["HostedZoneName" := "example.com", "RecordName" := "app"];
    var event := Event(Some(props));
    var describes := [DescribeResponse([ValidationOption(None)]), DescribeResponse([ValidationOption(Some(challenge))])];
    var issued := [CertificateSummary("arn:cert:0"), CertificateSummary("arn:cert:1")];
    var script := AwsScript("arn:cert:1", describes, [HostedZone("example.com.", "Z1")], issued);
    assert "Region" !in props && "TargetRegion" !in props by {
      assert "Region"[0] != "HostedZoneName"[0] && "Region"[0] != "RecordName"[1];
      assert "TargetRegion"[0] != "HostedZoneName"[0] && "TargetRegion"[0] != "RecordName"[0];
    }
    assert TargetRegion(event, Some("us-east-1")) == Some("us-east-1");
    assert Fqdn("example.com", RecordNameOf(props)) == "app.example.com";
    assert WaitFrom(describes, 0) == Ready(2, challenge) by {
      assert WaitFrom(describes, 0) == WaitFrom(describes, 1);
    }
    assert Describes(Some("us-east-1"), "arn:cert:1", 2)
      == [DescribeCertificate(Some("us-east-1"), "arn:cert:1"), DescribeCertificate(Some("us-east-1"), "arn:cert:1")];
    assert SelectHostedZone(script.hostedZones, "example.com") == Success("Z1");
    assert AwaitValidation(issued, "arn:cert:1") by {
      assert issued[1].certificateArn == "arn:cert:1";
    }
  }

  /** A client of PollCreate: the scenario above sets the helper's Data["Arn"] to the certificate's ARN. */
  method IssuedOnFirstCheckSetsArn() {
    var helper := new CfnResource();
    var challenge := ResourceRecord("_abc.example.com", "CNAME", "_xyz.acm-validations.aws");
    var script := AwsScript("arn:cert:1",
                            [DescribeResponse([ValidationOption(None)]), DescribeResponse([ValidationOption(Some(challenge))])],
                            [HostedZone("example.com.", "Z1")],
                            [CertificateSummary("arn:cert:0"), CertificateSummary("arn:cert:1")]);
    IssuedOnFirstCheck();
    var outcome, calls := PollCreate(helper, Event(Some(map["HostedZoneName" := "example.com", "RecordName" := "app"])),
                                     Some("us-east-1"), script);
    assert outcome == Finished(true);
    assert helper.data == map["Arn" := "arn:cert:1"];
  }
}
