# ACM certificate registration handler, modelled in Dafny

This project models the create handler of a CloudFormation custom resource that
provisions a DNS-validated ACM certificate (`acm_register/app.py`). One invocation of
`poll_create`:

1. resolves the AWS region (`Region`, else `TargetRegion`, else `AWS_DEFAULT_REGION`);
2. builds the FQDN (`record.zone`, or `zone` when there is no record name) and calls
   `request_certificate` with DNS validation and certificate-transparency logging;
3. calls `describe_certificate` until the first `DomainValidationOptions` entry carries
   a `ResourceRecord` (the DNS challenge);
4. looks the hosted zone up by name and accepts it only when the first zone returned is
   named `zone + "."`, otherwise raises;
5. UPSERTs the challenge (name, type, value, TTL 300) into that zone;
6. lists the ISSUED certificates; when the requested ARN is among them it sets
   `Data["Arn"]` and returns True, otherwise it returns False (the custom-resource helper
   library calls it again later).

The AWS services are not modelled: their responses are an input (`AwsScript`) and every
call the handler makes is recorded, with its client's region and its arguments, in a
trace (`seq<Call>`). `PollCreate` is a module-level method that takes the helper, a
`CfnResource` object whose `data` map is the helper's `Data`, as a parameter and updates
it in place; it is proved to follow the function `Invocation`, and the properties of the
handler are lemmas about `Invocation`.

Files: `wrappers.dfy` (Option, Result), `aws.dfy` (request/response shapes, the call
trace, the effect of an UPSERT on a zone), `acm_register.dfy` (the handler),
`properties.dfy` (lemmas about one invocation, and a scenario).

Behaviour of `app.py` the model keeps:
- the file keeps no checkpoint or attempt counter across invocations (`WaitAttempt` at
  line 10 is never used); re-invocation is left to the helper library's
  `@helper.poll_create` (line 19), which runs `poll_create` again from the top, so each
  invocation requests a new certificate (`RequestFirstAndOnce` holds per invocation);
- the record is published again on every invocation that gets past the zone check;
- region resolution tests the `Region` and `TargetRegion` keys for presence, so a
  `Region` of `""` wins (line 96), and with no region anywhere it returns None;
- the wait for the challenge has no bound (lines 40-43).

## Model

| member | source | states |
|---|---|---|
| AcmRegister.Fqdn | acm_register/app.py:25-27 | the domain's length is the zone's, or the record name's plus one plus the zone's when the record name is truthy; its full contract is given by `FqdnForm` and `FqdnRoundTrip` |
| AcmRegister.FqdnForm | acm_register/app.py:22-27 | the FQDN ends with the zone; it equals the zone exactly when `RecordName` is absent or empty; otherwise it is the record name, a dot, then the zone |
| AcmRegister.RecordLabel | acm_register/app.py:25-27 | a recovered label is non-empty and rebuilds the domain as label + "." + zone |
| AcmRegisterProperties.FqdnRoundTrip | acm_register/app.py:25-27 | reading the label back from the FQDN gives the record name when it is truthy and None otherwise |
| AcmRegisterProperties.RecordLabelRoundTrip | acm_register/app.py:25-27 | every domain with a label inside the zone is the FQDN of that label |
| AcmRegister.TargetRegion | acm_register/app.py:90-98 | `Region` if present, else `TargetRegion` if present, else the environment default; the environment default when the event has no ResourceProperties |
| AcmRegister.SelectHostedZone | acm_register/app.py:50-57 | fails with the zone's name exactly when the list is empty or the first zone's name is not the zone name plus "."; on success yields the first zone's Id |
| AcmRegisterProperties.OnlyFirstZoneInspected | acm_register/app.py:52-57 | zones after the first never change the zone check's result |
| AcmRegisterProperties.WrongZoneRejected | acm_register/app.py:52-57 | an empty lookup and a first zone `example.com.` for `example.org` are rejected; a matching first zone is accepted whatever follows |
| AcmRegister.UpsertBatch | acm_register/app.py:59-76 | exactly one change, action UPSERT, TTL 300, a single value, and the record set publishes exactly the challenge's name, type and value |
| Aws.Upsert | acm_register/app.py:59-76 | an UPSERT creates or replaces the record set under its name and type and leaves every other record set of the zone as it was |
| AcmRegisterProperties.PublishedChallenge | acm_register/app.py:59-76 | after the change batch the zone holds the challenge under its name and type with TTL 300, and nothing else changed |
| AcmRegisterProperties.PublishIdempotent | acm_register/app.py:59-76 | applying the change batch twice leaves the zone as applying it once |
| AcmRegister.AwaitValidation | acm_register/app.py:106-114 | true exactly when some entry of the ISSUED certificate list has the requested ARN |
| AcmRegister.WaitFrom | acm_register/app.py:38-45 | the wait ends Ready only at the first response whose first option carries a ResourceRecord, with that record, every earlier response pending; it ends on an empty option list with the same prefix condition; NotReady only when every response was pending |
| AcmRegister.AwaitValidationRecord | acm_register/app.py:38-45 | the describe loop reaches exactly the wait result of the responses, after the matching number of describe calls for the certificate |
| AcmRegisterProperties.StalledExactlyWhenNeverReady | acm_register/app.py:38-45 | an invocation that requests a certificate is left waiting exactly when every supplied describe response was pending |
| AcmRegister.Invocation | acm_register/app.py:19-83 | the outcome-and-trace model of one `poll_create` invocation that `PollCreate` follows: its trace has at most four calls more than there are supplied describe responses (the at-most-once bound per step is `CallsInOrder`), and no call at all exactly when ResourceProperties or HostedZoneName is missing; its other promises are the `AcmRegisterProperties` lemmas |
| AcmRegister.PollCreate | acm_register/app.py:19-83 | the invocation's outcome and calls are those of `Invocation`; Data gains `Arn` = the certificate ARN exactly when the outcome is validated, and is unchanged otherwise |
| AcmRegisterProperties.RequestFirstAndOnce | acm_register/app.py:21-34 | the trace is non-empty exactly when the event has ResourceProperties with HostedZoneName; its first call is request_certificate for the FQDN with DNS validation and transparency logging ENABLED; no later call is a request |
| AcmRegisterProperties.CallsInOrder | acm_register/app.py:30-77 | calls go request, describes, zone lookup, upsert, issuance check, each step but describe at most once, and every describe is of the requested ARN |
| AcmRegisterProperties.RejectedZoneMeansNoWrite | acm_register/app.py:50-59 | the invocation fails with zone-not-found exactly when the challenge arrived and the zone check rejected; no invocation that fails with one of the handler's own errors upserts or checks issuance |
| AcmRegisterProperties.WriteUsesAcceptedZoneAndLastRecord | acm_register/app.py:38-76 | every upsert targets the Id the zone check accepted and carries exactly the challenge of the last fetched describe response, all earlier responses having been pending |
| AcmRegisterProperties.ValidatedExactlyWhenIssued | acm_register/app.py:77-83 | the invocation returns a value exactly when it passed the zone check; its last call is then list_certificates(ISSUED), and it returns True exactly when the ARN is listed |
| AcmRegisterProperties.IssuedOnFirstCheck | acm_register/app.py:19-83 | for app.example.com with one pending describe, zone `example.com.` and the ARN listed as issued, the invocation returns True after exactly the six expected calls |

## Left out

- The AWS calls themselves (`request_certificate`, `describe_certificate`, `list_hosted_zones_by_name`, `change_resource_record_sets`, `list_certificates`): foreign network calls; their responses are inputs, fixed in advance and independent of the arguments, and the calls are recorded in the trace.
- Failing AWS calls: every AWS call is assumed to return a response; a call that raises (for example a throttling ClientError from `list_certificates`, or `InvalidChangeBatch` from `change_resource_record_sets`) ends `poll_create` after that call, with Data untouched, and is not modelled.
- `_client` and `boto3.client` construction: a client is represented only by the region recorded with each call; the missing imports of `os` and `boto3` are not reproduced, the intended behaviour is modelled. When `_target_region` gives None the model records every call with region None and goes on, whereas `boto3.client(region_name=None)` (line 103) falls back to boto3's own configuration or raises `NoRegionError`.
- The custom-resource helper library (`CfnResource`, the `@helper.poll_create` decorator, `handler`, re-invocation every two minutes, the callback to CloudFormation, turning a raised exception into a FAILED response): library code that is not part of this model; the handler's own exceptions (KeyError, IndexError, RuntimeError) are modelled as `Failed` outcomes and `Data` as a field the method updates.
- The checkpoint, attempt counter and TIMED_OUT handling: not implemented in this file (`WaitAttempt` at line 10 is never used).
- `time.sleep(10)` and all logging: timing and I/O with no logical content.
- AcmRegister.WaitFrom: the source loop has no bound; the model runs over the supplied describe responses and ends `Stalled` when they run out, where the source would go on polling.
- AcmRegister.AwaitValidationRecord: the describe loop is written as its own method called from `PollCreate`; in the source it is inline in `poll_create`.
- Malformed AWS responses and the KeyErrors they would raise: a missing `CertificateArn` (line 36), `Certificate` or `DomainValidationOptions` (lines 39, 42), `Name`, `Type` or `Value` of the record (lines 66-70), `HostedZones` or `Id` (lines 53, 57), or `CertificateSummaryList` and its entries' `CertificateArn` (line 109); also non-string property values. The response types always carry these fields; an empty `DomainValidationOptions` list is modelled (`NoValidationOptions`).
- The `Options` argument of `request_certificate` is recorded only as the transparency-logging preference `"ENABLED"`.
