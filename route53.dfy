/**
 * Publishing one hosted zone's challenge records: zone lookup, the change
 * batch, and the propagation wait that absorbs throttling
 * (src/create-dns-validated-certificate/route53.ts).
 */
module Route53 {
  import opened Wrappers
  import opened Sdk

  const HostedZonePrefix: string := "/hostedzone/"

  /** Every challenge record is written with this TTL, in seconds. */
  const RecordTtl: int := 60

  /** The default of `maxAttempts`, the cap on propagation waits. */
  const DefaultMaxAttempts: int := 10

  predicate HasHostedZonePrefix(id: string) {
    |HostedZonePrefix| <= |id| && id[..|HostedZonePrefix|] == HostedZonePrefix
  }

  /** `id.replace(/^\/hostedzone\//, '')`: only a leading prefix is removed. */
  function HostedZoneId(id: string): (r: string)
    ensures HasHostedZonePrefix(id) ==> HostedZonePrefix + r == id
    ensures !HasHostedZonePrefix(id) ==> r == id
  {
    if HasHostedZonePrefix(id) then id[|HostedZonePrefix|..] else id
  }

  /** Putting the prefix in front of a bare id and stripping it gives the bare id back. */
  lemma HostedZoneIdRoundTrip(bare: string)
    ensures HostedZoneId(HostedZonePrefix + bare) == bare
  {
    var id := HostedZonePrefix + bare;
    assert id[..|HostedZonePrefix|] == HostedZonePrefix;
  }

  /** Route53.ResourceRecordSet, with `ResourceRecords` reduced to their values. */
  datatype ResourceRecordSet = ResourceRecordSet(name: string, recordType: string, ttl: int, resourceRecords: seq<string>)

  /** Route53.Change: an action (UPSERT, DELETE) on one record set. */
  datatype Change = Change(action: string, resourceRecordSet: ResourceRecordSet)

  /** A `changeResourceRecordSets` request: the zone id and the batch. */
  datatype ChangeRequest = ChangeRequest(hostedZoneId: string, changes: seq<Change>)

  function ToChange(record: ResourceRecord, action: string): Change {
    Change(action, ResourceRecordSet(record.name, record.recordType, RecordTtl, [record.value]))
  }

  /** `dnsRecords.map(...)`: one single-value change per record, in order. */
  function Changes(records: seq<ResourceRecord>, action: string): (r: seq<Change>)
    ensures |r| == |records|
    ensures forall i :: 0 <= i < |r| ==>
      && r[i].action == action
      && r[i].resourceRecordSet.name == records[i].name
      && r[i].resourceRecordSet.recordType == records[i].recordType
      && r[i].resourceRecordSet.ttl == 60
      && r[i].resourceRecordSet.resourceRecords == [records[i].value]
  {
    seq(|records|, i requires 0 <= i < |records| => ToChange(records[i], action))
  }

  /** The challenge record a change writes. */
  function RecordOf(c: Change): ResourceRecord {
    var values := c.resourceRecordSet.resourceRecords;
    ResourceRecord(c.resourceRecordSet.name, c.resourceRecordSet.recordType, if values == [] then "" else values[0])
  }

  function RecordsOf(changes: seq<Change>): seq<ResourceRecord> {
    seq(|changes|, i requires 0 <= i < |changes| => RecordOf(changes[i]))
  }

  /** The batch loses nothing: reading the records back out of it gives the input records. */
  lemma ChangesRoundTrip(records: seq<ResourceRecord>, action: string)
    ensures RecordsOf(Changes(records, action)) == records
  {
    var changes := Changes(records, action);
    assert forall i :: 0 <= i < |records| ==> RecordOf(changes[i]) == records[i];
  }

  /** `isRoute53RequestThrottled` */
  function IsRoute53RequestThrottled(err: Error): (r: bool)
    ensures r <==>
      err.code == Some("Throttling") ||
      (err.code == Some("ResourceNotReady") && err.originalCode == Some("Throttling"))
  {
    if err.code == Some("ResourceNotReady") && err.originalCode == Some("Throttling") then true
    else err.code == Some("Throttling")
  }

  /** A plain `Error`, which has no `code`, is not throttling, so the waiter loop would rethrow it. */
  lemma OwnErrorsAreNotThrottling()
    ensures !IsRoute53RequestThrottled(ThrownByFunction)
  {
  }

  /** A waiter attempt that threw a throttling error. */
  predicate Throttled(attempt: Option<Error>) {
    attempt.Some? && IsRoute53RequestThrottled(attempt.value)
  }

  /**
   * The answers of Route 53 to one invocation: the zone lookup, the change
   * submission (its change id) and, per attempt, whether the
   * `resourceRecordSetsChanged` waiter returned (None) or threw.
   */
  datatype Route53Oracle = Route53Oracle(
    listHostedZones: Result<Option<seq<HostedZone>>, Error>,
    changeResourceRecordSets: Result<string, Error>,
    waits: seq<Option<Error>>)

  /** The lookup returned at least one hosted zone. */
  predicate ZoneFound(o: Route53Oracle) {
    o.listHostedZones.Success? && o.listHostedZones.value.Some? && o.listHostedZones.value.value != []
  }

  /** The change batch was submitted and accepted, so the propagation loop runs. */
  predicate ChangeAccepted(o: Route53Oracle) {
    ZoneFound(o) && o.changeResourceRecordSets.Success?
  }

  /**
   * `updateDnsValidationRecords`. Returns the DNS name given to
   * `listHostedZonesByName`, the change request that was sent (if any), the
   * change id every waiter call names (None: no waiter call), the number of
   * waiter calls, the attempt numbers passed to `backoff`, and the error the
   * promise rejects with (None: it resolves).
   */
  method UpdateDnsValidationRecords(
    zoneName: string, dnsRecords: seq<ResourceRecord>, action: string, maxAttempts: int, oracle: Route53Oracle)
    returns (lookedUp: string, submitted: Option<ChangeRequest>, waitedOn: Option<string>,
             waits: nat, backoffs: seq<nat>, outcome: Option<Error>)
    requires Rounds(maxAttempts) <= |oracle.waits|
    // the zone is looked up by the name it was given
    ensures lookedUp == zoneName
    // no hosted zone: fail before anything is submitted
    ensures oracle.listHostedZones.Failure? ==> submitted == None && outcome == Some(oracle.listHostedZones.error)
    ensures oracle.listHostedZones.Success? && !ZoneFound(oracle) ==> submitted == None && outcome == Some(ThrownByFunction)
    // the batch goes to the first zone, one change per record
    ensures ZoneFound(oracle) ==>
      submitted == Some(ChangeRequest(HostedZoneId(oracle.listHostedZones.value.value[0].id), Changes(dnsRecords, action)))
    ensures ZoneFound(oracle) && oracle.changeResourceRecordSets.Failure? ==>
      outcome == Some(oracle.changeResourceRecordSets.error)
    // the propagation loop, each wait on the id of the accepted change
    ensures !ChangeAccepted(oracle) ==> waits == 0 && backoffs == []
    ensures waitedOn == if waits > 0 then Some(oracle.changeResourceRecordSets.value) else None
    ensures waits <= Rounds(maxAttempts)
    ensures forall i :: 0 <= i < waits - 1 ==> Throttled(oracle.waits[i])
    ensures ChangeAccepted(oracle) && waits < Rounds(maxAttempts) ==>
      waits > 0 && !Throttled(oracle.waits[waits - 1])
    ensures ChangeAccepted(oracle) ==>
      outcome == if waits > 0 && !Throttled(oracle.waits[waits - 1]) then oracle.waits[waits - 1] else None
    ensures backoffs == Range(if waits > 0 && !Throttled(oracle.waits[waits - 1]) then waits - 1 else waits)
  {
    lookedUp, waitedOn, waits, backoffs := zoneName, None, 0, [];
    match oracle.listHostedZones
    case Failure(e) =>
      return lookedUp, None, waitedOn, waits, backoffs, Some(e);
    case Success(hostedZones) =>
      if hostedZones.None? || hostedZones.value == [] {
        return lookedUp, None, waitedOn, waits, backoffs, Some(ThrownByFunction);
      }
      var hostedZoneId := HostedZoneId(hostedZones.value[0].id);
      submitted := Some(ChangeRequest(hostedZoneId, Changes(dnsRecords, action)));
      if oracle.changeResourceRecordSets.Failure? {
        return lookedUp, submitted, waitedOn, waits, backoffs, Some(oracle.changeResourceRecordSets.error);
      }
      var changeId := oracle.changeResourceRecordSets.value;
      outcome := None;
      var attempt := 0;
      while attempt < maxAttempts
        invariant 0 <= attempt <= Rounds(maxAttempts)
        invariant waits == attempt
        invariant waitedOn == if attempt > 0 then Some(changeId) else None
        invariant forall i :: 0 <= i < attempt ==> Throttled(oracle.waits[i])
        invariant backoffs == Range(attempt)
      {
        var result := oracle.waits[attempt];
        waits, waitedOn := waits + 1, Some(changeId);
        if result.None? {
          break;
        }
        if !IsRoute53RequestThrottled(result.value) {
          outcome := result;
          return;
        }
        backoffs := backoffs + [attempt];
        attempt := attempt + 1;
      }
  }

  /** With a cap of 0 the function returns normally without waiting. */
  method ZeroAttemptsExample(zoneName: string, records: seq<ResourceRecord>)
    returns (waits: nat, outcome: Option<Error>)
    ensures waits == 0 && outcome == None
  {
    var oracle := Route53Oracle(Success(Some([HostedZone("/hostedzone/Z1", zoneName)])), Success("C1"), []);
    var lookedUp, submitted, waitedOn, backoffs;
    lookedUp, submitted, waitedOn, waits, backoffs, outcome := UpdateDnsValidationRecords(zoneName, records, "UPSERT", 0, oracle);
  }

  /** Exhausting the cap with throttling only is not told apart from success. */
  method ExhaustedThrottlingExample(zoneName: string, records: seq<ResourceRecord>)
    returns (waits: nat, backoffs: seq<nat>, outcome: Option<Error>)
    ensures waits == 2 && backoffs == [0, 1] && outcome == None
  {
    var throttling := Some(Error("Throttling", Some("Throttling"), None));
    var oracle := Route53Oracle(Success(Some([HostedZone("/hostedzone/Z1", zoneName)])), Success("C1"), [throttling, throttling]);
    var lookedUp, submitted, waitedOn;
    lookedUp, submitted, waitedOn, waits, backoffs, outcome := UpdateDnsValidationRecords(zoneName, records, "UPSERT", 2, oracle);
  }

  /**
   * The first zone of the lookup is taken as given: a lookup for `a.com`
   * that lists `b.com` first sends the batch to `b.com`'s zone, and the
   * waiter is asked about the id of that change.
   */
  method FirstZoneTakenAsGiven(records: seq<ResourceRecord>)
    returns (lookedUp: string, submitted: Option<ChangeRequest>, waitedOn: Option<string>)
    ensures lookedUp == "a.com"
    ensures submitted == Some(ChangeRequest("ZB", Changes(records, "UPSERT")))
    ensures waitedOn == Some("C1")
  {
    var zones := [HostedZone("/hostedzone/ZB", "b.com"), HostedZone("/hostedzone/ZA", "a.com")];
    var oracle := Route53Oracle(Success(Some(zones)), Success("C1"), [None]);
    assert HostedZoneId(zones[0].id) == "ZB" by { HostedZoneIdRoundTrip("ZB"); assert zones[0].id == HostedZonePrefix + "ZB"; }
    var waits, backoffs, outcome;
    lookedUp, submitted, waitedOn, waits, backoffs, outcome := UpdateDnsValidationRecords("a.com", records, "UPSERT", 1, oracle);
  }
}
