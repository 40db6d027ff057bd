/**
 * The shapes of the AWS SDK values the provisioning function reads.
 * Only the fields that the function looks at are kept.
 */
module Sdk {
  import opened Wrappers

  /** ACM.ResourceRecord: the DNS challenge record of one validation option. */
  datatype ResourceRecord = ResourceRecord(name: string, recordType: string, value: string)

  /** ACM.DomainValidation: one domain of the certificate; its record may not be populated yet. */
  datatype DomainValidation = DomainValidation(domainName: string, resourceRecord: Option<ResourceRecord>)

  /** ACM.CertificateDetail: `DomainValidationOptions` and `InUseBy` may each be absent. */
  datatype CertificateDetail = CertificateDetail(
    domainValidationOptions: Option<seq<DomainValidation>>,
    inUseBy: Option<seq<string>>)

  /**
   * Route53.HostedZone: its id (for example "/hostedzone/Z123") and its name.
   * Only the id is read; the name is kept to show which zone the lookup returned.
   */
  datatype HostedZone = HostedZone(id: string, name: string)

  /**
   * A thrown error: its `name`, its `code` and the `code` of its `originalError`
   * (the last two are absent on errors that do not carry them).
   */
  datatype Error = Error(name: string, code: Option<string>, originalCode: Option<string>)

  /** What `new Error(message)` thrown by the function itself looks like. */
  const ThrownByFunction: Error := Error("Error", None, None)
}
