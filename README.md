# Cross-account DNS-validated certificate: a Dafny model of the provisioning function

This project models the CloudFormation custom-resource function that provisions an ACM certificate and validates it through DNS records. The records are written into a Route 53 hosted zone of another account, through an assumed role. It also proves properties of that model.

Every AWS call, HTTPS request and sleep is an input to the model, called an oracle:

- `requestCertificate` is a `Result` carrying the returned `CertificateArn`, which may be absent.
- The n-th `describeCertificate` answer is element n of a sequence.
- `assumeRole`, the `certificateValidated` waiter and `deleteCertificate` each succeed or throw.
- Each `resourceRecordSetsChanged` waiter attempt succeeds or throws an error.
- Each `sendResponse` ends in an HTTP result: a request error, or a response with an optional status code.
- `backoff(attempt)` only records its attempt number.

Each polling loop is a `while` method whose `ensures` state the loop's properties directly:

- the attempt bound;
- where the loop stops;
- which attempts back off;
- what is thrown.

The model has two requirements on the oracles:

- a loop's oracle sequence holds at least `maxAttempts` answers;
- the create path has at least two `sendResponse` results, because a rejected SUCCESS report is followed by a FAILED one.

Each run records the arguments the handler passes to the remote services:

- the certificate request (domain, alternative names, validation method `DNS`);
- the ARN every describe names;
- the role ARN given to `assumeRole`;
- the ARN the `certificateValidated` waiter is asked about;
- the ARN given to `deleteCertificate`.

Modules:

- `Wrappers`: `Option`, `Result`, and `Range(n)`, the attempt numbers `0..n-1`.
- `Sdk`: the AWS SDK shapes the function reads, and `Error` (`name`, `code`, `originalError.code`).
- `Acm` (acm.ts):
  - `getValidationOptions`, including an exact model of the JS `Map` deduplication;
  - `getHostedZoneName`, including `String.replace` with a string pattern;
  - `groupValidationRecordsByHostedZone`, a loop over an accumulating map, specified by the reference functions `ZonesInOrder` and `RecordsForZone`.
- `Route53` (route53.ts): the zone id, the change batch, `isRoute53RequestThrottled`, and the propagation loop.
- `Cfn` (cfn.ts): the response record, and the rule that decides whether delivery rejects.
- `Handler` (index.ts):
  - the dispatch on request type;
  - the create/update path, specified by `CreateSpec`;
  - the delete path, specified by `DeleteSpec`.
- `Scenarios`: end-to-end runs on fixed oracles. Each outcome follows from `Handler.Handle`'s contract alone.

## Model

| member | source | states |
|---|---|---|
| `Acm.GetValidationOptions` | src/create-dns-validated-certificate/acm.ts:3-20 | The result is empty iff `DomainValidationOptions` is absent or empty, or some option lacks a `ResourceRecord`, so a partial set is never returned. Every returned option carries its record. |
| `Acm.GetValidationOptionsDeduplicated` | src/create-dns-validated-certificate/acm.ts:3-20 | A non-empty result has the input's set of record names, no name twice, and no more elements than the input. Each kept option is the last input option with its name, and the options are in first-occurrence order. |
| `Acm.DistinctOptionsUnchanged` | src/create-dns-validated-certificate/acm.ts:3-20 | Ready options whose record names are already distinct come back unchanged. |
| `Acm.DedupUnchanged` | src/create-dns-validated-certificate/acm.ts:12-16 | Passing options through the Map leaves a list without repeated record names as it is. |
| `Acm.DedupLength` | src/create-dns-validated-certificate/acm.ts:12-16 | The Map built from the options has at most one entry per option, and at least one if there is any option. |
| `Acm.DedupKeys` | src/create-dns-validated-certificate/acm.ts:12-16 | Every record name of the input appears in the output, and no other name does. |
| `Acm.DedupDistinct` | src/create-dns-validated-certificate/acm.ts:12-16 | No two output options share a record name. |
| `Acm.DedupLastWins` | src/create-dns-validated-certificate/acm.ts:12-16 | The option kept for each record name is the last input option with that name, as with `Map.prototype.set`. |
| `Acm.DedupFirstOccurrenceOrder` | src/create-dns-validated-certificate/acm.ts:12-16 | Output options are ordered by the first occurrence of their record name in the input. |
| `Acm.IndexOfFrom` | src/create-dns-validated-certificate/acm.ts:53 | The search finds the first occurrence of the pattern at or after the start position, or reports that there is none. |
| `Acm.StripLeadingWildcard` | src/create-dns-validated-certificate/acm.ts:53 | A leading `*.` is removed and the rest of the name is kept. |
| `Acm.StripWithoutWildcard` | src/create-dns-validated-certificate/acm.ts:53 | A name that contains no `*.` is returned unchanged. |
| `Acm.StripWithoutStar` | src/create-dns-validated-certificate/acm.ts:53 | A name without any `*` is returned unchanged. |
| `Acm.StripRemovesFirstOnly` | src/create-dns-validated-certificate/acm.ts:53 | Only the first `*.` is removed, wherever it occurs, so the name gets two characters shorter. |
| `Acm.GetHostedZoneName` | src/create-dns-validated-certificate/acm.ts:49-60 | With `z` the domain without its first `*.`: the zone is `zoneNames[z]` when the map is given and holds a non-empty value for `z`, and `z` otherwise. |
| `Acm.PlainZoneName` | src/create-dns-validated-certificate/acm.ts:53-59 | For a domain without `*`, the zone is the domain's own non-empty override if there is one, and the domain otherwise. |
| `Acm.WildcardZoneName` | src/create-dns-validated-certificate/acm.ts:53-59 | For `*.t`, the zone is the non-empty override of `t` if there is one, and `t` otherwise. |
| `Acm.EmptyOverrideIgnored` | src/create-dns-validated-certificate/acm.ts:55-59 | An empty override value is falsy, so it is ignored and the stripped name is used. |
| `Acm.OverrideExample` | src/create-dns-validated-certificate/acm.ts:49-60 | `*.example.com` with the override `example.com -> override-zone.com` goes to `override-zone.com`. |
| `Acm.NoOverrideExample` | src/create-dns-validated-certificate/acm.ts:49-60 | `*.api.example.com` with no overrides goes to `api.example.com`. |
| `Acm.GroupValidationRecordsByHostedZone` | src/create-dns-validated-certificate/acm.ts:22-47 | Throws iff some option lacks a record. Otherwise the keys are exactly the options' zones, in insertion order. Each key's list equals `RecordsForZone`: the records of the options whose `getHostedZoneName` is that zone, in input order. |
| `Acm.GroupInsert` | src/create-dns-validated-certificate/acm.ts:39-43 | Pushing the next option's record under its zone, creating the key when it is missing, turns the grouping of a prefix into the grouping of one more option. |
| `Acm.RecordsOutsideZones` | src/create-dns-validated-certificate/acm.ts:39-41 | A zone that no option maps to receives no records. |
| `Acm.ZonesDistinctAndComplete` | src/create-dns-validated-certificate/acm.ts:39-41 | The zone keys have no duplicates. Every option's zone is a key, and every key is some option's zone. |
| `Acm.RecordsForPrefix` | src/create-dns-validated-certificate/acm.ts:28-46 | The records gathered from a prefix of the options are a prefix of the records gathered from all of them, since lists only grow at the end. |
| `Acm.RecordPlacement` | src/create-dns-validated-certificate/acm.ts:39-41 | Option i's record sits in its own zone's list, right after the records of the earlier options of that zone. |
| `Acm.CountAcrossSnoc` | src/create-dns-validated-certificate/acm.ts:41 | Adding one option adds one record to the total, counted over distinct zones that include its zone. |
| `Acm.TotalRecordCount` | src/create-dns-validated-certificate/acm.ts:28-46 | The lists across all zones hold exactly one record per option. |
| `Route53.HostedZoneId` | src/create-dns-validated-certificate/route53.ts:24 | A leading `/hostedzone/` is removed. An id without that prefix is unchanged. |
| `Route53.HostedZoneIdRoundTrip` | src/create-dns-validated-certificate/route53.ts:24 | Stripping `/hostedzone/` + `x` gives back `x`. |
| `Route53.Changes` | src/create-dns-validated-certificate/route53.ts:29-45 | There is one change per record, in order. Each has the given action, the record's name and type, TTL 60, and a single value equal to the record's value. |
| `Route53.ChangesRoundTrip` | src/create-dns-validated-certificate/route53.ts:29-45 | Reading the records back out of the change batch gives the input records. |
| `Route53.IsRoute53RequestThrottled` | src/create-dns-validated-certificate/route53.ts:82-90 | True iff `code` is `Throttling`, or `code` is `ResourceNotReady` and `originalError.code` is `Throttling`. |
| `Route53.OwnErrorsAreNotThrottling` | src/create-dns-validated-certificate/route53.ts:71-73 | A plain `Error` without a `code` is not throttling, so the waiter loop would rethrow it. |
| `Route53.UpdateDnsValidationRecords` | src/create-dns-validated-certificate/route53.ts:4-80 | The lookup asks for `zoneName`. A failed or empty lookup throws before any change is sent. Otherwise one change request goes to the first zone's stripped id, and every waiter call names the accepted change's id. The loop makes at most `maxAttempts` waits, and every attempt before the last was throttled. It stops early only on a success or a non-throttling error, and rethrows that error. Exhausting the cap while throttled returns normally. `backoff` is called exactly for the throttled attempts. |
| `Route53.ZeroAttemptsExample` | src/create-dns-validated-certificate/route53.ts:9-79 | With `maxAttempts` 0 the function returns normally without waiting. |
| `Route53.ExhaustedThrottlingExample` | src/create-dns-validated-certificate/route53.ts:51-79 | Two throttled attempts under a cap of 2 back off twice and return normally. |
| `Route53.FirstZoneTakenAsGiven` | src/create-dns-validated-certificate/route53.ts:13-24 | A lookup for `a.com` whose first listed zone is `b.com` sends the batch to `b.com`'s zone id, and the waiter names the change id that came back. |
| `Cfn.BuildResponse` | src/create-dns-validated-certificate/cfn.ts:14-24 | `PhysicalResourceId` is the given id if it is defined, and `ResourceProperties.Name` otherwise. Status, stack id, request id and logical id are copied, and `Data` is passed through. `Reason` is present iff the reason is non-empty. |
| `Cfn.Delivery` | src/create-dns-validated-certificate/cfn.ts:40-52 | The promise resolves iff a response arrives with no status code or a code below 400. A request error rejects with that error. |
| `Cfn.StatusClassification` | src/create-dns-validated-certificate/cfn.ts:44-52 | A status code resolves iff it is below 400. |
| `Cfn.FailureReasonPresent` | src/create-dns-validated-certificate/cfn.ts:22-24 | A FAILED report built with `<RequestType> failed` always carries that `Reason`. |
| `Cfn.SuccessReportShape` | src/create-dns-validated-certificate/index.ts:141-143 | A SUCCESS report has the ARN as its resource id and as `Data.CertificateArn`, and no reason. |
| `Handler.PollValidationOptions` | src/create-dns-validated-certificate/index.ts:79-111 | At most `DescribeCertificateMaxAttempts` describes, all but the last not ready. The loop stops at the first ready answer or thrown error. Empty options come with exactly the cap of calls. Backoff happens exactly after the empty answers. |
| `Handler.UpsertsMatch` | src/create-dns-validated-certificate/index.ts:119-125 | The zone updates built from the grouping are the reference UPSERTs: one per zone, with exactly that zone's records. |
| `Handler.DispatchUpserts` | src/create-dns-validated-certificate/index.ts:117-125 | Throws iff some option lacks its record. Otherwise the zone updates handed to the limiter are the reference UPSERTs, one per zone, in order of first appearance. |
| `Handler.CreateCertificate` | src/create-dns-validated-certificate/index.ts:49-155 | The certificate is requested for the properties' domain and alternative names with DNS validation, and every describe names the returned ARN. A missing or empty ARN gives one FAILED report with an undefined id; nothing is described. A describe error, or options still empty after the cap, gives FAILED with the ARN; no credentials are requested and nothing is dispatched. Ready options request credentials for `AssumeRoleArn`, and then dispatch exactly one UPSERT per zone of the grouping. With credentials, the `certificateValidated` waiter is asked about the ARN. Validation gives SUCCESS with the ARN. A rejected SUCCESS delivery is followed by a FAILED report. |
| `Handler.CreateWithArn` | src/create-dns-validated-certificate/index.ts:74-143 | Once `requestCertificate` returned an ARN, the rest of the `try` block satisfies `CreateSpec`, as stated for `Handler.CreateCertificate`. |
| `Handler.ReadyAtFirstDescribe` | src/create-dns-validated-certificate/index.ts:79-143 | If the first describe is ready, the loop stops after one call and never backs off. With credentials, validation and a delivered report, the run dispatches the reference UPSERTs and sends SUCCESS only. |
| `Handler.PollInUseBy` | src/create-dns-validated-certificate/index.ts:162-193 | At most `DescribeCertificateMaxAttempts` describes, all but the last still in use. A missing `InUseBy` counts as empty. The loop stops early only at an empty list or a thrown error. Backoff happens only after non-empty lists. |
| `Handler.DeleteCertificate` | src/create-dns-validated-certificate/index.ts:157-229 | Every describe and the delete name the event's `PhysicalResourceId`. `deleteCertificate` is called iff the last describe showed an empty `InUseBy`, or the cap was 0. A list still non-empty after the cap throws. There is exactly one report: SUCCESS with the resource id as id and data, unless an error not named `ResourceNotFoundException` was thrown, in which case FAILED. |
| `Handler.Handle` | src/create-dns-validated-certificate/index.ts:29-47 | Create and Update satisfy `CreateSpec`. Delete satisfies `DeleteSpec`. |
| `Scenarios.SingleOptionReady` | src/create-dns-validated-certificate/acm.ts:3-20 | A certificate with one option that carries its record yields exactly that option. |
| `Scenarios.SingleZoneUpserts` | src/create-dns-validated-certificate/acm.ts:39-41 | The challenge of `example.com` without overrides is grouped under zone `example.com`. |
| `Scenarios.SingleZoneCreate` | src/create-dns-validated-certificate/index.ts:79-143 | For `example.com` with one ready challenge on the first describe: one describe, one UPSERT of that record into zone `example.com`, then SUCCESS. |
| `Scenarios.WildcardOverrideUpserts` | src/create-dns-validated-certificate/acm.ts:39-41 | The record of `*.example.com`, with the override `example.com -> dns-zone.net`, is grouped under `dns-zone.net`. |
| `Scenarios.WildcardOverrideCreate` | src/create-dns-validated-certificate/index.ts:119-125 | The same override, end to end: the only UPSERT goes to `dns-zone.net`, and the report is SUCCESS. |
| `Scenarios.OptionsTimeoutCreate` | src/create-dns-validated-certificate/index.ts:80-111 | Options still lacking records for the whole budget: 10 describes, 10 backoffs, no credentials, no zone update, and FAILED with reason `Create failed`. |
| `Scenarios.MissingArnCreate` | src/create-dns-validated-certificate/index.ts:68-73 | No ARN: FAILED with an undefined resource id, and no describes. |
| `Scenarios.IdempotentDelete` | src/create-dns-validated-certificate/index.ts:210-228 | The describe throws `ResourceNotFoundException`: nothing is deleted and the report is SUCCESS. |
| `Scenarios.UnusedDelete` | src/create-dns-validated-certificate/index.ts:162-209 | Nothing uses the certificate: one describe, no backoff, the certificate is deleted under the event's resource id, and SUCCESS. |
| `Scenarios.StillInUseDelete` | src/create-dns-validated-certificate/index.ts:164-199 | Still in use after all 10 describes: no delete, and FAILED. |

## Left out

- `backoff` and `sleep` (utils.ts): random, floating-point delays. Each call is recorded only by its attempt number.
- `assumeRole` (sts.ts): an oracle that yields credentials or throws. The time-based session name is not modelled.
- The SDK waiters `certificateValidated` and `resourceRecordSetsChanged` poll internally, with delay 30 and 20 or 10 attempts. Each waiter call is one outcome.
- `pLimit(5)` concurrency: the zone updates are recorded in the order they are handed to the limiter. Their outcomes are not modelled. A rejected zone update is unhandled and can end the invocation before any report is sent. `Route53.UpdateDnsValidationRecords` is modelled on its own.
- The idempotency token is a SHA-256 of empty input, so it is a constant. The recorded certificate request leaves it out.
- HTTPS, URL parsing and JSON serialisation in cfn.ts: only the response record and the status-code rule are kept.
- Logging and the text of error messages: errors keep `name`, `code` and `originalError.code`, the only fields the code branches on.
- The CDK constructs under lib/ and the test stacks under test/: declarative infrastructure.
- `DescribeCertificateMaxAttempts` arrives from CloudFormation as a string, which JavaScript compares numerically. It is modelled as an integer.
- Override lookups are map lookups. Names inherited by a JS object, such as `constructor`, are not modelled.
- `Object.entries` lists integer-like keys before other keys. The zone list is modelled in insertion order, which matches for DNS names.
- Request types other than Create, Update and Delete. The switch ignores them; the model has only these three.
- `Handler.DeleteCertificate` requires the event's `PhysicalResourceId`, which every Delete event carries.

## Notes

Behaviour of the code that the model keeps as written:

- Deduplication keeps each record name at its first position, with the last option that named it, as `Map` does.
- `domainName.replace('*.', '')` removes the first `*.` even when it is not at the start of the name.
- In the create path, the SUCCESS `sendResponse` is inside the `try`. A rejected SUCCESS delivery is followed by a FAILED report, so one invocation can send two reports.
- Exhausting the propagation attempts while throttled returns normally, the same as success.
- `HostedZones[0]` is used without checking that its name is the zone that was asked for. `Route53.FirstZoneTakenAsGiven` shows a batch going to another zone.
