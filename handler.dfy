/**
 * The custom-resource handler: dispatch on the request type, the create /
 * update path and the delete path, each reporting its outcome once
 * (src/create-dns-validated-certificate/index.ts).
 *
 * Every remote call is an oracle: the answer to the n-th `describeCertificate`
 * is `describes[n]`, and so on. `backoff` only records its attempt number.
 */
module Handler {
  import opened Wrappers
  import opened Sdk
  import Acm
  import Cfn
  import Route53

  /** CreateDnsValidatedCertificateResourceProperties */
  datatype Props = Props(
    assumeRoleArn: string,
    domainName: string,
    subjectAlternativeNames: seq<string>,
    zoneNames: Option<map<string, string>>,
    describeCertificateMaxAttempts: int)

  /** The answer to one `describeCertificate` call: a response, possibly without `Certificate`, or an error. */
  type Describe = Result<Option<CertificateDetail>, Error>

  /** Temporary credentials returned by `assumeRole`. */
  datatype Credentials = Credentials(accessKeyId: string, secretAccessKey: string, sessionToken: string)

  /** One `updateDnsValidationRecords` call handed to the concurrency limiter, with its `maxAttempts`. */
  datatype ZoneUpdate = ZoneUpdate(zoneName: string, records: seq<ResourceRecord>, action: string, maxAttempts: int)

  /**
   * The answers of the remote services on the create path:
   * `requestCertificate` (its `CertificateArn`), the describes, `assumeRole`,
   * the `certificateValidated` waiter (None: it returned) and the HTTP result
   * of each `sendResponse`.
   */
  datatype CreateOracle = CreateOracle(
    requestCertificate: Result<Option<string>, Error>,
    describes: seq<Describe>,
    assumeRole: Result<Credentials, Error>,
    certificateValidated: Option<Error>,
    sends: seq<Cfn.HttpResult>)

  /** The answers on the delete path: the describes, `deleteCertificate`, and the HTTP result of the report. */
  datatype DeleteOracle = DeleteOracle(
    describes: seq<Describe>,
    deleteCertificate: Option<Error>,
    send: Cfn.HttpResult)

  /** The `requestCertificate` call: the domain, its alternative names and the validation method. */
  datatype CertificateRequest = CertificateRequest(domainName: string, subjectAlternativeNames: seq<string>, validationMethod: string)

  /** Certificates are always requested with DNS validation. */
  const ValidationMethod: string := "DNS"

  /**
   * What one invocation did: the reports sent, in order; the certificate
   * request made (None: not called); the ARN every `describeCertificate` call
   * names (None: no describe); the number of describes; the attempt numbers
   * passed to `backoff`; the role ARN passed to `assumeRole` (None: not
   * called); the zone updates dispatched; the ARN the `certificateValidated`
   * waiter is asked about (None: not called); the ARN passed to
   * `deleteCertificate` (None: not called); and the error the handler's
   * promise rejects with (None: it resolves).
   */
  datatype Run = Run(
    reports: seq<Cfn.Response>,
    requested: Option<CertificateRequest>,
    describedArn: Option<string>,
    describeCalls: nat,
    backoffs: seq<nat>,
    assumedRole: Option<string>,
    dispatched: seq<ZoneUpdate>,
    validatedArn: Option<string>,
    deleted: Option<string>,
    outcome: Option<Error>)

  // ---------------------------------------------------------------------
  // Classifying describe answers
  // ---------------------------------------------------------------------

  /** The error a describe answer makes the function throw, if any. */
  function DescribeError(d: Describe): Option<Error> {
    match d
    case Failure(e) => Some(e)
    case Success(certificate) => if certificate.None? then Some(ThrownByFunction) else None
  }

  /** The validation options of a describe answer that carries a certificate. */
  function OptionsOf(d: Describe): seq<DomainValidation> {
    if d.Success? && d.value.Some? then Acm.GetValidationOptions(d.value.value) else []
  }

  /** A certificate came back, but its validation options are not ready. */
  predicate NotReady(d: Describe) {
    DescribeError(d).None? && OptionsOf(d) == []
  }

  /** `Certificate.InUseBy || []` */
  function InUseByOf(d: Describe): seq<string> {
    if d.Success? && d.value.Some? then d.value.value.inUseBy.GetOr([]) else []
  }

  /** A certificate came back and something still uses it. */
  predicate InUse(d: Describe) {
    DescribeError(d).None? && InUseByOf(d) != []
  }

  // ---------------------------------------------------------------------
  // createCertificate
  // ---------------------------------------------------------------------

  /**
   * The describe loop of the create path (index.ts:79-106): `options` is the
   * last result of `getValidationOptions`, `failure` what the loop threw.
   */
  method PollValidationOptions(describes: seq<Describe>, maxAttempts: int)
    returns (options: seq<DomainValidation>, calls: nat, backoffs: seq<nat>, failure: Option<Error>)
    requires Rounds(maxAttempts) <= |describes|
    ensures calls <= Rounds(maxAttempts)
    ensures forall i :: 0 <= i < calls - 1 ==> NotReady(describes[i])
    ensures failure.Some? <==> calls > 0 && DescribeError(describes[calls - 1]).Some?
    ensures failure.Some? ==> failure == DescribeError(describes[calls - 1]) && options == []
    ensures failure.None? ==> options == (if calls == 0 then [] else OptionsOf(describes[calls - 1]))
    ensures failure.None? && options == [] ==> calls == Rounds(maxAttempts)
    ensures backoffs == Range(if calls > 0 && !NotReady(describes[calls - 1]) then calls - 1 else calls)
    ensures DescribeLoop(describes, maxAttempts, calls, backoffs)
  {
    options, calls, backoffs, failure := [], 0, [], None;
    var attempt := 0;
    while attempt < maxAttempts && options == []
      invariant 0 <= attempt <= Rounds(maxAttempts)
      invariant calls == attempt
      invariant forall i :: 0 <= i < attempt - 1 ==> NotReady(describes[i])
      invariant options == (if attempt == 0 then [] else OptionsOf(describes[attempt - 1]))
      invariant attempt > 0 ==> DescribeError(describes[attempt - 1]).None?
      invariant backoffs == Range(if attempt > 0 && !NotReady(describes[attempt - 1]) then attempt - 1 else attempt)
    {
      var answer := describes[attempt];
      calls := calls + 1;
      if DescribeError(answer).Some? {
        failure := DescribeError(answer);
        options := [];
        return;
      }
      options := Acm.GetValidationOptions(answer.value.value);
      if options == [] {
        backoffs := backoffs + [attempt];
      }
      attempt := attempt + 1;
    }
  }

  /** The zone updates the create path hands to the limiter, one UPSERT per zone. */
  function Upserts(groups: Acm.ZoneGroups): seq<ZoneUpdate>
    requires forall z :: z in groups.zones ==> z in groups.records
  {
    seq(|groups.zones|, i requires 0 <= i < |groups.zones| =>
      ZoneUpdate(groups.zones[i], groups.records[groups.zones[i]], "UPSERT", Route53.DefaultMaxAttempts))
  }

  /** Reference definition: the zone updates the create path owes for a ready set of options. */
  function ExpectedUpserts(options: seq<DomainValidation>, zoneNames: Option<map<string, string>>): seq<ZoneUpdate>
    requires Acm.AllHaveRecords(options)
  {
    var zones := Acm.ZonesInOrder(options, zoneNames);
    seq(|zones|, i requires 0 <= i < |zones| =>
      ZoneUpdate(zones[i], Acm.RecordsForZone(options, zoneNames, zones[i]), "UPSERT", Route53.DefaultMaxAttempts))
  }

  /** The ARN `requestCertificate` produced, if it is usable (`!CertificateArn` rejects an empty one). */
  function ArnOf(request: Result<Option<string>, Error>): Option<string> {
    if request.Success? && request.value.Some? && request.value.value != "" then request.value else None
  }

  /** The options of the describe that ended the create path's loop. */
  function ReadyOptions(o: CreateOracle, calls: nat): seq<DomainValidation> {
    if 0 < calls <= |o.describes| then OptionsOf(o.describes[calls - 1]) else []
  }

  /**
   * The describe loop of the create path made `n` calls: at most the cap,
   * every call but the last not ready, stopping early only at a ready answer
   * or an error, and backing off after each answer that was not ready.
   */
  ghost predicate DescribeLoop(describes: seq<Describe>, maxAttempts: int, n: nat, backoffs: seq<nat>) {
    && n <= Rounds(maxAttempts) && n <= |describes|
    && (forall i :: 0 <= i < n - 1 ==> NotReady(describes[i]))
    && (n < Rounds(maxAttempts) ==> n > 0 && !NotReady(describes[n - 1]))
    && backoffs == Range(if n > 0 && !NotReady(describes[n - 1]) then n - 1 else n)
  }

  /**
   * What the create / update path does, for given answers of the remote
   * services. The loop determines `describeCalls`; the rest follows the
   * first step that fails.
   */
  ghost predicate CreateSpec(event: Cfn.Event, props: Props, o: CreateOracle, run: Run) {
    var arn := ArnOf(o.requestCertificate);
    var n := run.describeCalls;
    var ready := arn.Some? && ReadyOptions(o, n) != [];
    var options := ReadyOptions(o, n);
    // the certificate is requested from the properties; every describe names the ARN it returned
    && run.requested == Some(CertificateRequest(props.domainName, props.subjectAlternativeNames, ValidationMethod))
    && run.describedArn == (if n > 0 then arn else None)
    && run.deleted == None
    && 1 <= |run.reports| <= 2 && |run.reports| <= |o.sends|
    && run.outcome == Cfn.Delivery(o.sends[|run.reports| - 1])
    // no usable ARN: one FAILED report without a resource id, nothing else happens
    && (arn.None? ==>
          n == 0 && run.backoffs == [] && run.assumedRole == None && run.dispatched == [] &&
          run.reports == [Cfn.FailedReport(event, None)])
    // the describe loop: at most the cap, stopping at the first ready answer or error
    && (arn.Some? ==> DescribeLoop(o.describes, props.describeCertificateMaxAttempts, n, run.backoffs))
    // a describe error, or options still empty after the cap: FAILED with the ARN, no credentials, no updates
    && (arn.Some? && !ready ==>
          run.assumedRole == None && run.dispatched == [] && run.reports == [Cfn.FailedReport(event, arn)])
    // ready: the configured role is assumed; with its credentials, every zone gets its UPSERT
    // and the `certificateValidated` waiter is asked about the ARN
    && (ready ==> run.assumedRole == Some(props.assumeRoleArn))
    && run.validatedArn == (if ready && o.assumeRole.Success? then arn else None)
    && (ready && o.assumeRole.Failure? ==> run.dispatched == [] && run.reports == [Cfn.FailedReport(event, arn)])
    && (ready && o.assumeRole.Success? ==>
          Acm.AllHaveRecords(options) && run.dispatched == ExpectedUpserts(options, props.zoneNames))
    && (ready && o.assumeRole.Success? && o.certificateValidated.Some? ==>
          run.reports == [Cfn.FailedReport(event, arn)])
    // validated: SUCCESS; if that report is rejected, the catch sends FAILED too
    && (ready && o.assumeRole.Success? && o.certificateValidated.None? ==>
          run.reports[0] == Cfn.SuccessReport(event, arn.value) &&
          (|run.reports| == 2 <==> Cfn.Delivery(o.sends[0]).Some?) &&
          (|run.reports| == 2 ==> run.reports[1] == Cfn.FailedReport(event, arn)))
  }

  /**
   * When the first describe already carries ready options, the loop stops
   * after one call without backing off; with credentials and a validated
   * certificate whose SUCCESS report is delivered, that report is the only one
   * and every zone of those options gets its UPSERT.
   */
  lemma ReadyAtFirstDescribe(event: Cfn.Event, props: Props, o: CreateOracle, run: Run)
    requires CreateSpec(event, props, o, run)
    requires ArnOf(o.requestCertificate).Some? && 1 <= props.describeCertificateMaxAttempts
    requires 1 <= |o.describes| && DescribeError(o.describes[0]).None? && OptionsOf(o.describes[0]) != []
    ensures run.describeCalls == 1 && run.backoffs == [] && run.assumedRole == Some(props.assumeRoleArn)
    ensures run.describedArn == ArnOf(o.requestCertificate)
    ensures o.assumeRole.Success? ==> run.validatedArn == ArnOf(o.requestCertificate)
    ensures o.assumeRole.Success? && o.certificateValidated.None? && Cfn.Delivery(o.sends[0]).None? ==>
              && Acm.AllHaveRecords(OptionsOf(o.describes[0]))
              && run.dispatched == ExpectedUpserts(OptionsOf(o.describes[0]), props.zoneNames)
              && run.reports == [Cfn.SuccessReport(event, ArnOf(o.requestCertificate).value)]
              && run.outcome == None
  {
    assert !NotReady(o.describes[0]);
  }

  /** The grouping's result, read as zone updates, is the reference list of upserts. */
  lemma UpsertsMatch(options: seq<DomainValidation>, zoneNames: Option<map<string, string>>, groups: Acm.ZoneGroups)
    requires Acm.AllHaveRecords(options)
    requires groups.zones == Acm.ZonesInOrder(options, zoneNames)
    requires forall z :: z in groups.records <==> z in groups.zones
    requires forall z :: z in groups.records ==> groups.records[z] == Acm.RecordsForZone(options, zoneNames, z)
    ensures Upserts(groups) == ExpectedUpserts(options, zoneNames)
  {
  }

  /**
   * Grouping the ready options by hosted zone and handing one UPSERT per
   * zone to the limiter (index.ts:119-125); the grouping throws when an
   * option lacks its record.
   */
  method DispatchUpserts(options: seq<DomainValidation>, zoneNames: Option<map<string, string>>)
    returns (dispatched: Result<seq<ZoneUpdate>, Error>)
    ensures dispatched.Failure? <==> !Acm.AllHaveRecords(options)
    ensures dispatched.Success? ==> Acm.AllHaveRecords(options) && dispatched.value == ExpectedUpserts(options, zoneNames)
  {
    var groups := Acm.GroupValidationRecordsByHostedZone(options, zoneNames);
    if groups.Failure? {
      return Failure(groups.error);
    }
    UpsertsMatch(options, zoneNames, groups.value);
    return Success(Upserts(groups.value));
  }

  /** The certificate request the create path makes. */
  function RequestOf(props: Props): Option<CertificateRequest> {
    Some(CertificateRequest(props.domainName, props.subjectAlternativeNames, ValidationMethod))
  }

  /** Without a usable ARN the `catch` reports FAILED without a resource id. */
  lemma NoArnRun(event: Cfn.Event, props: Props, o: CreateOracle)
    requires ArnOf(o.requestCertificate).None? && 1 <= |o.sends|
    ensures CreateSpec(event, props, o,
      Run([Cfn.FailedReport(event, None)], RequestOf(props), None, 0, [], None, [], None, None, Cfn.Delivery(o.sends[0])))
  {
  }

  /**
   * A step after the request threw: the `catch` reports FAILED with the ARN.
   * The role is assumed only for ready options; updates are dispatched only
   * with credentials, and then the waiter is what threw.
   */
  lemma FailedRun(event: Cfn.Event, props: Props, o: CreateOracle, calls: nat, backoffs: seq<nat>,
                  role: Option<string>, dispatched: seq<ZoneUpdate>, validated: Option<string>)
    requires ArnOf(o.requestCertificate).Some? && 1 <= |o.sends|
    requires DescribeLoop(o.describes, props.describeCertificateMaxAttempts, calls, backoffs)
    requires ReadyOptions(o, calls) == [] ==> role == None && dispatched == []
    requires ReadyOptions(o, calls) != [] ==> role == Some(props.assumeRoleArn)
    requires ReadyOptions(o, calls) != [] && o.assumeRole.Failure? ==> dispatched == []
    requires ReadyOptions(o, calls) != [] && o.assumeRole.Success? ==>
      && o.certificateValidated.Some? && Acm.AllHaveRecords(ReadyOptions(o, calls))
      && dispatched == ExpectedUpserts(ReadyOptions(o, calls), props.zoneNames)
    requires validated == (if ReadyOptions(o, calls) != [] && o.assumeRole.Success? then ArnOf(o.requestCertificate) else None)
    ensures var arn := ArnOf(o.requestCertificate);
      CreateSpec(event, props, o,
        Run([Cfn.FailedReport(event, arn)], RequestOf(props), if calls > 0 then arn else None, calls, backoffs,
            role, dispatched, validated, None, Cfn.Delivery(o.sends[0])))
  {
  }

  /** The certificate validated: SUCCESS, followed by FAILED when that report is rejected. */
  lemma ValidatedRun(event: Cfn.Event, props: Props, o: CreateOracle, calls: nat, backoffs: seq<nat>,
                     dispatched: seq<ZoneUpdate>)
    requires ArnOf(o.requestCertificate).Some? && 2 <= |o.sends|
    requires DescribeLoop(o.describes, props.describeCertificateMaxAttempts, calls, backoffs)
    requires ReadyOptions(o, calls) != [] && o.assumeRole.Success? && o.certificateValidated.None?
    requires Acm.AllHaveRecords(ReadyOptions(o, calls))
    requires dispatched == ExpectedUpserts(ReadyOptions(o, calls), props.zoneNames)
    ensures var arn := ArnOf(o.requestCertificate);
      var success := Cfn.SuccessReport(event, arn.value);
      var reports := if Cfn.Delivery(o.sends[0]).Some? then [success, Cfn.FailedReport(event, arn)] else [success];
      CreateSpec(event, props, o,
        Run(reports, RequestOf(props), if calls > 0 then arn else None, calls, backoffs,
            Some(props.assumeRoleArn), dispatched, arn, None, Cfn.Delivery(o.sends[|reports| - 1])))
  {
  }

  /**
   * `createCertificate`, shared by Create and Update. Each early exit is the
   * source's `catch` block: one FAILED report with the ARN known so far.
   */
  method CreateCertificate(event: Cfn.Event, props: Props, o: CreateOracle) returns (run: Run)
    requires Rounds(props.describeCertificateMaxAttempts) <= |o.describes|
    requires 2 <= |o.sends|
    ensures CreateSpec(event, props, o, run)
  {
    if o.requestCertificate.Failure? || o.requestCertificate.value.None? || o.requestCertificate.value.value == "" {
      NoArnRun(event, props, o);
      return Run([Cfn.FailedReport(event, None)], RequestOf(props), None, 0, [], None, [], None, None, Cfn.Delivery(o.sends[0]));
    }
    run := CreateWithArn(event, props, o);
  }

  /** The rest of the `try` block of `createCertificate`, once `requestCertificate` returned an ARN. */
  method CreateWithArn(event: Cfn.Event, props: Props, o: CreateOracle) returns (run: Run)
    requires ArnOf(o.requestCertificate).Some?
    requires Rounds(props.describeCertificateMaxAttempts) <= |o.describes|
    requires 2 <= |o.sends|
    ensures CreateSpec(event, props, o, run)
  {
    var request, arn := RequestOf(props), ArnOf(o.requestCertificate);
    var failed := Cfn.FailedReport(event, arn);

    var options, calls, backoffs, failure := PollValidationOptions(o.describes, props.describeCertificateMaxAttempts);
    var described := if calls > 0 then arn else None;
    assert options == ReadyOptions(o, calls);
    if failure.Some? || options == [] {
      FailedRun(event, props, o, calls, backoffs, None, [], None);
      return Run([failed], request, described, calls, backoffs, None, [], None, None, Cfn.Delivery(o.sends[0]));
    }

    var role := Some(props.assumeRoleArn);
    if o.assumeRole.Failure? {
      FailedRun(event, props, o, calls, backoffs, role, [], None);
      return Run([failed], request, described, calls, backoffs, role, [], None, None, Cfn.Delivery(o.sends[0]));
    }

    // the options the loop returns all carry their record, so the grouping does not throw
    assert Acm.AllHaveRecords(options);
    var upserts := DispatchUpserts(options, props.zoneNames);
    var dispatched := upserts.value;

    // the `certificateValidated` waiter is asked about the certificate just requested
    var validated := arn;

    if o.certificateValidated.Some? {
      FailedRun(event, props, o, calls, backoffs, role, dispatched, validated);
      return Run([failed], request, described, calls, backoffs, role, dispatched, validated, None, Cfn.Delivery(o.sends[0]));
    }

    ValidatedRun(event, props, o, calls, backoffs, dispatched);
    var success := Cfn.SuccessReport(event, arn.value);
    if Cfn.Delivery(o.sends[0]).Some? {
      // the SUCCESS report was rejected inside the `try`: the `catch` reports FAILED as well
      return Run([success, failed], request, described, calls, backoffs, role, dispatched, validated, None, Cfn.Delivery(o.sends[1]));
    }
    return Run([success], request, described, calls, backoffs, role, dispatched, validated, None, Cfn.Delivery(o.sends[0]));
  }

  // ---------------------------------------------------------------------
  // deleteCertificate
  // ---------------------------------------------------------------------

  /**
   * The describe loop of the delete path (index.ts:162-193): `inUseBy` is
   * the last `InUseBy` seen, `failure` what the loop threw.
   */
  method PollInUseBy(describes: seq<Describe>, maxAttempts: int)
    returns (inUseBy: seq<string>, calls: nat, backoffs: seq<nat>, failure: Option<Error>)
    requires Rounds(maxAttempts) <= |describes|
    ensures calls <= Rounds(maxAttempts)
    ensures forall i :: 0 <= i < calls - 1 ==> InUse(describes[i])
    ensures failure.Some? <==> calls > 0 && DescribeError(describes[calls - 1]).Some?
    ensures failure.Some? ==> failure == DescribeError(describes[calls - 1])
    ensures failure.None? ==> inUseBy == (if calls == 0 then [] else InUseByOf(describes[calls - 1]))
    ensures calls < Rounds(maxAttempts) ==> calls > 0 && !InUse(describes[calls - 1])
    ensures backoffs == Range(if calls > 0 && !InUse(describes[calls - 1]) then calls - 1 else calls)
  {
    inUseBy, calls, backoffs, failure := [], 0, [], None;
    var attempt := 0;
    while attempt < maxAttempts
      invariant 0 <= attempt <= Rounds(maxAttempts)
      invariant calls == attempt
      invariant forall i :: 0 <= i < attempt ==> InUse(describes[i])
      invariant inUseBy == (if attempt == 0 then [] else InUseByOf(describes[attempt - 1]))
      invariant backoffs == Range(attempt)
    {
      var answer := describes[attempt];
      calls := calls + 1;
      if DescribeError(answer).Some? {
        failure := DescribeError(answer);
        return;
      }
      inUseBy := answer.value.value.inUseBy.GetOr([]);
      if inUseBy != [] {
        backoffs := backoffs + [attempt];
      } else {
        break;
      }
      attempt := attempt + 1;
    }
  }

  /** The name that makes the delete path treat an error as an already deleted certificate. */
  const NotFound: string := "ResourceNotFoundException"

  /**
   * What the delete path does, for given answers of the remote services:
   * exactly one report, SUCCESS unless something other than a not-found
   * error was thrown.
   */
  ghost predicate DeleteSpec(event: Cfn.Event, props: Props, o: DeleteOracle, run: Run)
    requires event.physicalResourceId.Some?
  {
    var n := run.describeCalls;
    var last := if n > 0 && n <= |o.describes| then Some(o.describes[n - 1]) else None;
    var thrown :=
      if last.Some? && DescribeError(last.value).Some? then DescribeError(last.value)
      else if last.Some? && InUse(last.value) then Some(ThrownByFunction)
      else o.deleteCertificate;
    && n <= Rounds(props.describeCertificateMaxAttempts) && n <= |o.describes|
    && (forall i :: 0 <= i < n - 1 ==> InUse(o.describes[i]))
    && (n < Rounds(props.describeCertificateMaxAttempts) ==> last.Some? && !InUse(last.value))
    && run.backoffs == Range(if last.Some? && !InUse(last.value) then n - 1 else n)
    // every describe, and the delete, names the resource id of the event
    && run.describedArn == (if n > 0 then event.physicalResourceId else None)
    // delete only once the last describe showed an empty InUseBy (or there was none)
    && run.deleted ==
         (if last.None? || (DescribeError(last.value).None? && !InUse(last.value)) then event.physicalResourceId else None)
    && run.requested == None && run.assumedRole == None && run.dispatched == [] && run.validatedArn == None
    && run.reports == [
         if thrown.None? || thrown.value.name == NotFound
         then Cfn.SuccessReport(event, event.physicalResourceId.value)
         else Cfn.FailedReport(event, event.physicalResourceId)]
    && run.outcome == Cfn.Delivery(o.send)
  }

  /** `deleteCertificate`. A delete event always carries the resource id. */
  method DeleteCertificate(event: Cfn.Event, props: Props, o: DeleteOracle) returns (run: Run)
    requires event.physicalResourceId.Some?
    requires Rounds(props.describeCertificateMaxAttempts) <= |o.describes|
    ensures DeleteSpec(event, props, o, run)
  {
    var inUseBy, calls, backoffs, failure := PollInUseBy(o.describes, props.describeCertificateMaxAttempts);
    var thrown: Option<Error> := None;
    var deleted: Option<string> := None;
    if failure.Some? {
      thrown := failure;
    } else if inUseBy != [] {
      thrown := Some(ThrownByFunction);
    } else {
      deleted := event.physicalResourceId;
      thrown := o.deleteCertificate;
    }

    var report;
    if thrown.Some? && thrown.value.name != NotFound {
      report := Cfn.FailedReport(event, event.physicalResourceId);
    } else {
      report := Cfn.SuccessReport(event, event.physicalResourceId.value);
    }
    var described := if calls > 0 then event.physicalResourceId else None;
    run := Run([report], None, described, calls, backoffs, None, [], None, deleted, Cfn.Delivery(o.send));
  }

  // ---------------------------------------------------------------------
  // handler
  // ---------------------------------------------------------------------

  /** `handler`: Create and Update take the create path, Delete the delete path. */
  method Handle(event: Cfn.Event, props: Props, create: CreateOracle, delete: DeleteOracle) returns (run: Run)
    requires event.requestType == Cfn.Delete ==> event.physicalResourceId.Some?
    requires event.requestType != Cfn.Delete ==>
      Rounds(props.describeCertificateMaxAttempts) <= |create.describes| && 2 <= |create.sends|
    requires event.requestType == Cfn.Delete ==> Rounds(props.describeCertificateMaxAttempts) <= |delete.describes|
    ensures event.requestType != Cfn.Delete ==> CreateSpec(event, props, create, run)
    ensures event.requestType == Cfn.Delete ==> DeleteSpec(event, props, delete, run)
  {
    if event.requestType == Cfn.Delete {
      run := DeleteCertificate(event, props, delete);
    } else {
      run := CreateCertificate(event, props, create);
    }
  }
}
