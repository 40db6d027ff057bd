/**
 * End-to-end runs of the handler on fixed answers from the remote services.
 * Each outcome follows from the contracts of `Handler.Handle` alone.
 */
module Scenarios {
  import opened Wrappers
  import opened Sdk
  import Acm
  import Cfn
  import opened Handler

  const Arn: string := "arn:aws:acm:eu-west-1:111111111111:certificate/1"
  const Challenge: ResourceRecord := ResourceRecord("_acme.example.com", "CNAME", "xyz")

  function TestEvent(t: Cfn.RequestType): Cfn.Event {
    Cfn.Event(t, "stack", "request", "Certificate", if t == Cfn.Create then None else Some(Arn), None)
  }

  const Role: string := "arn:aws:iam::222222222222:role/dns"

  function TestProps(domainName: string, zoneNames: Option<map<string, string>>): Props {
    Props(Role, domainName, [], zoneNames, 10)
  }

  function Certificate(options: seq<DomainValidation>, inUseBy: seq<string>): Describe {
    Success(Some(CertificateDetail(Some(options), Some(inUseBy))))
  }

  /** Ten identical describe answers: the default attempt budget. */
  function Repeat(d: Describe): seq<Describe> {
    seq(10, _ => d)
  }

  const Delivered: Cfn.HttpResult := Cfn.Responded(Some(200))

  const NoDelete: DeleteOracle := DeleteOracle([], None, Delivered)

  function Issued(describes: seq<Describe>): CreateOracle {
    CreateOracle(Success(Some(Arn)), describes, Success(Credentials("AKIA", "secret", "token")), None, [Delivered, Delivered])
  }

  const ExampleOption: DomainValidation := DomainValidation("example.com", Some(Challenge))
  const WildcardOption: DomainValidation := DomainValidation("*.example.com", Some(Challenge))
  const Overrides: Option<map<string, string>> := Some(map["example.com" := "dns-zone.net"])

  /** A single option that carries its record is ready as it is. */
  lemma SingleOptionReady(option: DomainValidation)
    requires option.resourceRecord.Some?
    ensures OptionsOf(Certificate([option], [])) == [option]
    ensures DescribeError(Certificate([option], [])).None?
  {
    Acm.DistinctOptionsUnchanged(CertificateDetail(Some([option]), Some([])));
  }

  /** The challenge of `example.com` goes to zone `example.com`. */
  lemma SingleZoneUpserts()
    ensures Acm.AllHaveRecords([ExampleOption])
    ensures ExpectedUpserts([ExampleOption], None) == [ZoneUpdate("example.com", [Challenge], "UPSERT", 10)]
  {
    Acm.StripWithoutStar("example.com");
    assert Acm.ZonesInOrder([ExampleOption], None) == ["example.com"];
    assert Acm.RecordsForZone([ExampleOption], None, "example.com") == [Challenge];
  }

  /** The wildcard option's single record goes to the override zone. */
  lemma WildcardOverrideUpserts()
    ensures Acm.AllHaveRecords([WildcardOption])
    ensures ExpectedUpserts([WildcardOption], Overrides) == [ZoneUpdate("dns-zone.net", [Challenge], "UPSERT", 10)]
  {
    var option, overrides := WildcardOption, Overrides;
    assert "*.example.com" == Acm.Wildcard + "example.com";
    Acm.WildcardZoneName("example.com", overrides);
    assert Acm.ZoneOf(option, overrides) == "dns-zone.net";
    assert Acm.ZonesInOrder([option], overrides) == ["dns-zone.net"];
    assert Acm.RecordsForZone([option], overrides, "dns-zone.net") == [Challenge];
  }

  /**
   * `example.com` without alternatives; the first describe already carries
   * the challenge record: one UPSERT into zone `example.com`, then SUCCESS.
   */
  method SingleZoneCreate() returns (run: Run)
    ensures run.requested == Some(CertificateRequest("example.com", [], "DNS"))
    ensures run.describedArn == Some(Arn) && run.describeCalls == 1 && run.backoffs == []
    ensures run.assumedRole == Some(Role) && run.validatedArn == Some(Arn)
    ensures run.dispatched == [ZoneUpdate("example.com", [Challenge], "UPSERT", 10)]
    ensures run.reports == [Cfn.SuccessReport(TestEvent(Cfn.Create), Arn)] && run.outcome == None
  {
    var answer := Certificate([ExampleOption], []);
    var oracle := Issued(Repeat(answer));
    var event, props := TestEvent(Cfn.Create), TestProps("example.com", None);
    run := Handle(event, props, oracle, NoDelete);
    SingleOptionReady(ExampleOption);
    SingleZoneUpserts();
    ReadyAtFirstDescribe(event, props, oracle, run);
  }

  /** `*.example.com` with the override `example.com -> dns-zone.net`: the record goes to `dns-zone.net`. */
  method WildcardOverrideCreate() returns (run: Run)
    ensures run.dispatched == [ZoneUpdate("dns-zone.net", [Challenge], "UPSERT", 10)]
    ensures run.reports == [Cfn.SuccessReport(TestEvent(Cfn.Update), Arn)]
  {
    var answer := Certificate([WildcardOption], []);
    var oracle := Issued(Repeat(answer));
    var event, props := TestEvent(Cfn.Update), TestProps("*.example.com", Overrides);
    run := Handle(event, props, oracle, NoDelete);
    SingleOptionReady(WildcardOption);
    WildcardOverrideUpserts();
    ReadyAtFirstDescribe(event, props, oracle, run);
  }

  /**
   * The validation options never appear within the budget: every attempt is
   * used, FAILED is reported, no credentials are requested, no zone is touched.
   */
  method OptionsTimeoutCreate() returns (run: Run)
    ensures run.describeCalls == 10 && run.backoffs == Range(10)
    ensures run.assumedRole == None && run.dispatched == [] && run.validatedArn == None
    ensures run.reports == [Cfn.FailedReport(TestEvent(Cfn.Create), Some(Arn))]
    ensures run.reports[0].reason == Some("Create failed")
  {
    var pending := DomainValidation("example.com", None);
    var oracle := Issued(Repeat(Certificate([pending], [])));
    assert [pending][0].resourceRecord.None?;
    run := Handle(TestEvent(Cfn.Create), TestProps("example.com", None), oracle, NoDelete);
    Cfn.FailureReasonPresent(TestEvent(Cfn.Create), Some(Arn));
    assert Cfn.FailureReason(Cfn.Create) == "Create failed";
  }

  /** No ARN from `requestCertificate`: FAILED without a resource id, and nothing is described. */
  method MissingArnCreate() returns (run: Run)
    ensures run.describeCalls == 0 && run.dispatched == []
    ensures run.reports == [Cfn.FailedReport(TestEvent(Cfn.Create), None)]
    ensures run.reports[0].physicalResourceId == None
  {
    var oracle := CreateOracle(Success(None), Repeat(Certificate([], [])), Success(Credentials("", "", "")), None, [Delivered, Delivered]);
    run := Handle(TestEvent(Cfn.Create), TestProps("example.com", None), oracle, NoDelete);
  }

  /** The certificate is already gone: the delete still reports SUCCESS. */
  method IdempotentDelete() returns (run: Run)
    ensures run.describeCalls == 1 && run.deleted == None
    ensures run.reports == [Cfn.SuccessReport(TestEvent(Cfn.Delete), Arn)]
  {
    var gone: Describe := Failure(Error(NotFound, Some(NotFound), None));
    var oracle := DeleteOracle(Repeat(gone), None, Delivered);
    assert oracle.describes[0] == gone && !InUse(gone);
    run := Handle(TestEvent(Cfn.Delete), TestProps("example.com", None), Issued([]), oracle);
  }

  /** Nothing uses the certificate: it is deleted under the event's resource id, and SUCCESS is reported. */
  method UnusedDelete() returns (run: Run)
    ensures run.describedArn == Some(Arn) && run.describeCalls == 1 && run.backoffs == []
    ensures run.deleted == Some(Arn)
    ensures run.reports == [Cfn.SuccessReport(TestEvent(Cfn.Delete), Arn)]
  {
    var unused := Certificate([], []);
    var oracle := DeleteOracle(Repeat(unused), None, Delivered);
    assert oracle.describes[0] == unused && DescribeError(unused).None? && !InUse(unused);
    run := Handle(TestEvent(Cfn.Delete), TestProps("example.com", None), Issued([]), oracle);
  }

  /** Still in use after every attempt: FAILED, and the certificate is not deleted. */
  method StillInUseDelete() returns (run: Run)
    ensures run.describeCalls == 10 && run.deleted == None
    ensures run.reports == [Cfn.FailedReport(TestEvent(Cfn.Delete), Some(Arn))]
  {
    var busy := Certificate([], ["arn:aws:elasticloadbalancing:listener/1"]);
    var oracle := DeleteOracle(Repeat(busy), None, Delivered);
    run := Handle(TestEvent(Cfn.Delete), TestProps("example.com", None), Issued([]), oracle);
  }
}
