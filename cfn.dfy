/**
 * The report sent back to CloudFormation: how its fields are filled, and
 * when the delivery counts as failed
 * (src/create-dns-validated-certificate/cfn.ts).
 */
module Cfn {
  import opened Wrappers
  import opened Sdk

  datatype RequestType = Create | Update | Delete

  function RequestTypeName(t: RequestType): string {
    match t
    case Create => "Create"
    case Update => "Update"
    case Delete => "Delete"
  }

  /**
   * The custom-resource event, reduced to the fields the function reads.
   * `physicalResourceId` is absent on Create events; `resourcePropertiesName`
   * is `event.ResourceProperties.Name`.
   */
  datatype Event = Event(
    requestType: RequestType,
    stackId: string,
    requestId: string,
    logicalResourceId: string,
    physicalResourceId: Option<string>,
    resourcePropertiesName: Option<string>)

  /** The response object serialised into the PUT body; `reason` None means no `Reason` key. */
  datatype Response = Response(
    status: string,
    physicalResourceId: Option<string>,
    stackId: string,
    requestId: string,
    logicalResourceId: string,
    data: Option<map<string, string>>,
    reason: Option<string>)

  /** The response object `sendResponse` builds before sending it. */
  function BuildResponse(
    event: Event, status: string, physicalResourceId: Option<string>,
    data: Option<map<string, string>>, reason: Option<string>): (r: Response)
    // `physicalResourceId ?? event.ResourceProperties.Name`
    ensures physicalResourceId.Some? ==> r.physicalResourceId == physicalResourceId
    ensures physicalResourceId.None? ==> r.physicalResourceId == event.resourcePropertiesName
    ensures r.status == status && r.data == data
    ensures r.stackId == event.stackId && r.requestId == event.requestId
    ensures r.logicalResourceId == event.logicalResourceId
    // `if (reason) response.Reason = reason`: an empty reason is falsy
    ensures r.reason.Some? <==> reason.Some? && reason.value != ""
    ensures r.reason.Some? ==> r.reason == reason
  {
    var response := Response(
      status,
      if physicalResourceId.Some? then physicalResourceId else event.resourcePropertiesName,
      event.stackId, event.requestId, event.logicalResourceId, data, None);
    if reason.Some? && reason.value != "" then response.(reason := reason) else response
  }

  /** How the HTTPS request ended: a request error, or a response with an optional status code. */
  datatype HttpResult = RequestError(error: Error) | Responded(statusCode: Option<int>)

  /** `Server returned error ...`: the rejection for an error status code. */
  const ServerError: Error := ThrownByFunction

  /** Whether the promise of `sendResponse` rejects, and with what (None: it resolves). */
  function Delivery(http: HttpResult): (r: Option<Error>)
    ensures r.None? <==> http.Responded? && (http.statusCode.None? || http.statusCode.value < 400)
    ensures http.RequestError? ==> r == Some(http.error)
  {
    match http
    case RequestError(e) => Some(e)
    case Responded(code) =>
      // `response.statusCode && response.statusCode >= 400`: a status of 0 is falsy
      if code.Some? && code.value != 0 && code.value >= 400 then Some(ServerError) else None
  }

  /** 2xx and 3xx codes resolve, every 4xx and 5xx code rejects. */
  lemma StatusClassification(code: int)
    ensures Delivery(Responded(Some(code))).None? <==> code < 400
  {
  }

  /** The reason of every failure report: `${event.RequestType} failed`. */
  function FailureReason(t: RequestType): string {
    RequestTypeName(t) + " failed"
  }

  /** A failure reason is never empty, so a FAILED report always carries its `Reason`. */
  lemma FailureReasonPresent(event: Event, physicalResourceId: Option<string>)
    ensures BuildResponse(event, "FAILED", physicalResourceId, None, Some(FailureReason(event.requestType))).reason
            == Some(FailureReason(event.requestType))
  {
  }

  /** The FAILED report, with whatever resource id is known. */
  function FailedReport(event: Event, physicalResourceId: Option<string>): Response {
    BuildResponse(event, "FAILED", physicalResourceId, None, Some(FailureReason(event.requestType)))
  }

  /** The SUCCESS report: the certificate ARN as resource id and as `Data.CertificateArn`. */
  function SuccessReport(event: Event, certificateArn: string): Response {
    BuildResponse(event, "SUCCESS", Some(certificateArn), Some(map["CertificateArn" := certificateArn]), None)
  }

  /** A SUCCESS report names the certificate twice and carries no reason. */
  lemma SuccessReportShape(event: Event, certificateArn: string)
    ensures var r := SuccessReport(event, certificateArn);
            r.status == "SUCCESS" && r.physicalResourceId == Some(certificateArn) &&
            r.data == Some(map["CertificateArn" := certificateArn]) && r.reason == None
  {
  }
}
