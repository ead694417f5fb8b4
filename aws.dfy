/**
 * The AWS requests and responses that the handler touches, as plain data.
 * The service calls themselves are not modelled: their responses are inputs and
 * the calls the handler makes are recorded as a trace of `Call` values.
 */
module Aws {
  import opened Wrappers

  /** The `ResourceRecord` of a certificate's domain validation option: the DNS challenge. */
  datatype ResourceRecord = ResourceRecord(name: string, recordType: string, value: string)

  /** One entry of `DomainValidationOptions`; `resourceRecord` is None until ACM has computed the challenge. */
  datatype ValidationOption = ValidationOption(resourceRecord: Option<ResourceRecord>)

  /** A `describe_certificate` response, reduced to `Certificate.DomainValidationOptions`. */
  datatype DescribeResponse = DescribeResponse(validationOptions: seq<ValidationOption>)

  /** An entry of the `HostedZones` list that `list_hosted_zones_by_name` returns. */
  datatype HostedZone = HostedZone(name: string, id: string)

  /** An entry of the `CertificateSummaryList` that `list_certificates` returns. */
  datatype CertificateSummary = CertificateSummary(certificateArn: string)

  /** An entry of a record set's `ResourceRecords`. */
  datatype RecordValue = RecordValue(value: string)

  datatype ResourceRecordSet = ResourceRecordSet(name: string, recordType: string, ttl: int, resourceRecords: seq<RecordValue>)

  datatype Change = Change(action: string, resourceRecordSet: ResourceRecordSet)

  datatype ChangeBatch = ChangeBatch(changes: seq<Change>)

  /** One call into ACM or Route 53, with the region of the client that made it and its arguments. */
  datatype Call =
    | RequestCertificate(region: Option<string>, domainName: string, validationMethod: string, transparencyLogging: string)
    | DescribeCertificate(region: Option<string>, certificateArn: string)
    | ListHostedZonesByName(region: Option<string>, dnsName: string)
    | ChangeResourceRecordSets(region: Option<string>, hostedZoneId: string, changeBatch: ChangeBatch)
    | ListCertificates(region: Option<string>, certificateStatuses: seq<string>)

  /** A hosted zone's record sets, keyed by name and type as Route 53 keys them. */
  type ZoneRecords = map<(string, string), ResourceRecordSet>

  function KeyOf(rs: ResourceRecordSet): (string, string) {
    (rs.name, rs.recordType)
  }

  /** The effect of one UPSERT: create the record set with its name and type, or replace the one there. */
  function Upsert(zone: ZoneRecords, rs: ResourceRecordSet): (z: ZoneRecords)
    ensures z.Keys == zone.Keys + {KeyOf(rs)}
    ensures z[KeyOf(rs)] == rs
    ensures forall k :: k in zone && k != KeyOf(rs) ==> z[k] == zone[k]
  {
    zone[KeyOf(rs) := rs]
  }

  /** The effect of a change batch made of UPSERTs on a zone, change after change. */
  function ApplyUpserts(zone: ZoneRecords, changes: seq<Change>): ZoneRecords
    requires forall i :: 0 <= i < |changes| ==> changes[i].action == "UPSERT"
    decreases |changes|
  {
    if changes == [] then zone else ApplyUpserts(Upsert(zone, changes[0].resourceRecordSet), changes[1..])
  }
}
