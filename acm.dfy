/**
 * Validation options of a described certificate: when they are ready, how
 * duplicates collapse, and which hosted zone each challenge record goes to
 * (src/create-dns-validated-certificate/acm.ts).
 */
module Acm {
  import opened Wrappers
  import opened Sdk

  // ---------------------------------------------------------------------
  // getValidationOptions
  // ---------------------------------------------------------------------

  /** The key under which the JS `Map` stores an option: `option.ResourceRecord?.Name`. */
  function RecordName(o: DomainValidation): Option<string> {
    match o.resourceRecord
    case Some(r) => Some(r.name)
    case None => None
  }

  /** `options.every((option) => !!option.ResourceRecord)` */
  predicate AllHaveRecords(options: seq<DomainValidation>) {
    forall i :: 0 <= i < |options| ==> options[i].resourceRecord.Some?
  }

  /** The keys of a sequence of options. */
  function Keys(s: seq<DomainValidation>): set<Option<string>> {
    set i | 0 <= i < |s| :: RecordName(s[i])
  }

  /** Where the entry with `key` sits in an insertion-ordered map of options. */
  function IndexOfKey(entries: seq<DomainValidation>, key: Option<string>): (r: Option<nat>)
    ensures r.Some? ==> r.value < |entries| && RecordName(entries[r.value]) == key
    ensures r.None? ==> key !in Keys(entries)
  {
    if entries == [] then None
    else if RecordName(entries[|entries| - 1]) == key then Some(|entries| - 1)
    else
      var r := IndexOfKey(entries[..|entries| - 1], key);
      KeysSnoc(entries);
      r
  }

  /**
   * `Map.prototype.set`: an existing key keeps its position and takes the new
   * value; a new key is appended.
   */
  function MapSet(entries: seq<DomainValidation>, o: DomainValidation): seq<DomainValidation> {
    match IndexOfKey(entries, RecordName(o))
    case Some(k) => entries[k := o]
    case None => entries + [o]
  }

  /** `[...new Map(options.map((o) => [o.ResourceRecord?.Name, o])).values()]` */
  function DedupByRecordName(options: seq<DomainValidation>): seq<DomainValidation>
    decreases |options|
  {
    if options == [] then []
    else MapSet(DedupByRecordName(options[..|options| - 1]), options[|options| - 1])
  }

  /**
   * The challenge options of a certificate, or none at all while any of them
   * still lacks its DNS record.
   */
  function GetValidationOptions(certificate: CertificateDetail): (r: seq<DomainValidation>)
    ensures var options := certificate.domainValidationOptions.GetOr([]);
            r == [] <==> options == [] || !AllHaveRecords(options)
    ensures AllHaveRecords(r)
  {
    var options := certificate.domainValidationOptions.GetOr([]);
    if |options| > 0 && AllHaveRecords(options) then
      DedupLength(options);
      DedupKeepsRecords(options);
      DedupByRecordName(options)
    else
      []
  }

  /**
   * Ready options are the input with duplicate record names collapsed: every
   * record name is kept, once, with the last option that named it, in the
   * order of first occurrence, and nothing else is added.
   */
  lemma GetValidationOptionsDeduplicated(certificate: CertificateDetail)
    ensures var options := certificate.domainValidationOptions.GetOr([]);
            var r := GetValidationOptions(certificate);
            r != [] ==>
              && Keys(r) == Keys(options) && |r| <= |options| && DistinctKeys(r)
              && (forall k :: 0 <= k < |r| ==>
                    RecordName(r[k]) in Keys(options) && r[k] == options[LastIndex(options, RecordName(r[k]))])
              && (forall i, j :: 0 <= i < j < |r| ==>
                    RecordName(r[i]) in Keys(options) && RecordName(r[j]) in Keys(options) &&
                    FirstIndex(options, RecordName(r[i])) < FirstIndex(options, RecordName(r[j])))
  {
    var options := certificate.domainValidationOptions.GetOr([]);
    DedupLength(options);
    DedupKeys(options);
    DedupDistinct(options);
    DedupLastWins(options);
    DedupFirstOccurrenceOrder(options);
  }

  /** Options whose record names are already distinct, all carrying their record, come back unchanged. */
  lemma DistinctOptionsUnchanged(certificate: CertificateDetail)
    requires var options := certificate.domainValidationOptions.GetOr([]);
             AllHaveRecords(options) && DistinctKeys(options)
    ensures GetValidationOptions(certificate) == certificate.domainValidationOptions.GetOr([])
  {
    DedupUnchanged(certificate.domainValidationOptions.GetOr([]));
  }

  /** No two options share a key. */
  predicate DistinctKeys(s: seq<DomainValidation>) {
    forall i, j :: 0 <= i < j < |s| ==> RecordName(s[i]) != RecordName(s[j])
  }

  /** No element occurs twice. */
  predicate Distinct<T(==)>(s: seq<T>) {
    forall i, j :: 0 <= i < j < |s| ==> s[i] != s[j]
  }

  /** Position of the first option with `key`. */
  function FirstIndex(s: seq<DomainValidation>, key: Option<string>): (r: nat)
    requires key in Keys(s)
    ensures r < |s| && RecordName(s[r]) == key
    ensures forall j :: 0 <= j < r ==> RecordName(s[j]) != key
  {
    KeysSnoc(s);
    var p := s[..|s| - 1];
    if key in Keys(p) then
      var r := FirstIndex(p, key);
      assert forall j :: 0 <= j < r ==> s[j] == p[j];
      r
    else
      assert forall j :: 0 <= j < |s| - 1 ==> RecordName(s[j]) != key by {
        forall j | 0 <= j < |s| - 1 ensures RecordName(s[j]) != key {
          assert s[j] == p[j];
        }
      }
      |s| - 1
  }

  /** Position of the last option with `key`. */
  function LastIndex(s: seq<DomainValidation>, key: Option<string>): (r: nat)
    requires key in Keys(s)
    ensures r < |s| && RecordName(s[r]) == key
    ensures forall j :: r < j < |s| ==> RecordName(s[j]) != key
  {
    KeysSnoc(s);
    var p := s[..|s| - 1];
    if RecordName(s[|s| - 1]) == key then |s| - 1
    else
      var r := LastIndex(p, key);
      assert forall j :: r < j < |s| - 1 ==> s[j] == p[j];
      r
  }

  lemma KeysSnoc(s: seq<DomainValidation>)
    requires s != []
    ensures Keys(s) == Keys(s[..|s| - 1]) + {RecordName(s[|s| - 1])}
  {
    var p := s[..|s| - 1];
    forall key | key in Keys(s) ensures key in Keys(p) + {RecordName(s[|s| - 1])} {
      var j :| 0 <= j < |s| && RecordName(s[j]) == key;
      if j < |s| - 1 { assert RecordName(p[j]) == key; }
    }
    forall key | key in Keys(p) ensures key in Keys(s) {
      var j :| 0 <= j < |p| && RecordName(p[j]) == key;
      assert RecordName(s[j]) == key;
    }
  }

  lemma MapSetKeys(entries: seq<DomainValidation>, o: DomainValidation)
    ensures Keys(MapSet(entries, o)) == Keys(entries) + {RecordName(o)}
  {
    var r := MapSet(entries, o);
    match IndexOfKey(entries, RecordName(o))
    case Some(k) =>
      forall key | key in Keys(r) ensures key in Keys(entries) + {RecordName(o)} {
        var j :| 0 <= j < |r| && RecordName(r[j]) == key;
        if j != k { assert RecordName(entries[j]) == key; }
      }
      forall key | key in Keys(entries) + {RecordName(o)} ensures key in Keys(r) {
        if key == RecordName(o) {
          assert RecordName(r[k]) == key;
        } else {
          var j :| 0 <= j < |entries| && RecordName(entries[j]) == key;
          assert j != k;
          assert RecordName(r[j]) == key;
        }
      }
    case None =>
      assert r == entries + [o];
      KeysSnoc(r);
      assert r[..|r| - 1] == entries;
  }

  /** The Map holds at most one entry per input option, and at least one if there is any option. */
  lemma {:induction false} DedupLength(s: seq<DomainValidation>)
    ensures |DedupByRecordName(s)| <= |s|
    ensures s != [] ==> DedupByRecordName(s) != []
  {
    if s != [] {
      DedupLength(s[..|s| - 1]);
    }
  }

  /** Every option the Map keeps comes from the input, so it carries a record when all input options do. */
  lemma {:induction false} DedupKeepsRecords(s: seq<DomainValidation>)
    requires AllHaveRecords(s)
    ensures AllHaveRecords(DedupByRecordName(s))
  {
    if s != [] {
      var p, x := s[..|s| - 1], s[|s| - 1];
      assert AllHaveRecords(p) by {
        forall i | 0 <= i < |p| ensures p[i].resourceRecord.Some? { assert p[i] == s[i]; }
      }
      DedupKeepsRecords(p);
    }
  }

  /** Every key of the input is a key of the output, and no other key is. */
  lemma {:induction false} DedupKeys(s: seq<DomainValidation>)
    ensures Keys(DedupByRecordName(s)) == Keys(s)
  {
    if s != [] {
      DedupKeys(s[..|s| - 1]);
      MapSetKeys(DedupByRecordName(s[..|s| - 1]), s[|s| - 1]);
      KeysSnoc(s);
    }
  }

  /** No two options of the output share a record name. */
  lemma {:induction false} DedupDistinct(s: seq<DomainValidation>)
    ensures DistinctKeys(DedupByRecordName(s))
  {
    if s != [] {
      var p, x := s[..|s| - 1], s[|s| - 1];
      DedupDistinct(p);
      var d' := DedupByRecordName(p);
      var d := DedupByRecordName(s);
      match IndexOfKey(d', RecordName(x))
      case Some(k) =>
        assert d == d'[k := x];
        assert forall i :: 0 <= i < |d| ==> RecordName(d[i]) == RecordName(d'[i]);
      case None =>
        assert d == d' + [x];
        forall i, j | 0 <= i < j < |d| ensures RecordName(d[i]) != RecordName(d[j]) {
          assert d[i] == d'[i];
          assert RecordName(d'[i]) in Keys(d');
          if j < |d'| { assert d[j] == d'[j]; } else { assert d[j] == x; }
        }
    }
  }

  /** The option kept for each record name is the LAST input option with that name. */
  lemma {:induction false} DedupLastWins(s: seq<DomainValidation>)
    ensures var d := DedupByRecordName(s);
            forall k :: 0 <= k < |d| ==>
              RecordName(d[k]) in Keys(s) && d[k] == s[LastIndex(s, RecordName(d[k]))]
  {
    var d := DedupByRecordName(s);
    DedupKeys(s);
    if s != [] {
      var p, x := s[..|s| - 1], s[|s| - 1];
      var d' := DedupByRecordName(p);
      DedupLastWins(p);
      DedupDistinct(p);
      DedupKeys(p);
      KeysSnoc(s);
      forall k | 0 <= k < |d|
        ensures RecordName(d[k]) in Keys(s) && d[k] == s[LastIndex(s, RecordName(d[k]))]
      {
        assert RecordName(d[k]) in Keys(d);
        if d[k] != x || RecordName(d[k]) != RecordName(x) {
          match IndexOfKey(d', RecordName(x))
          case Some(k0) =>
            assert k != k0;
            assert d[k] == d'[k];
            assert RecordName(d'[k]) != RecordName(x);
          case None =>
            assert k < |d'| && d[k] == d'[k];
            assert RecordName(d'[k]) in Keys(d');
        }
      }
    }
  }

  /** A key already present in a prefix keeps its first position when an option is appended. */
  lemma FirstIndexSnoc(s: seq<DomainValidation>, key: Option<string>)
    requires s != [] && key in Keys(s[..|s| - 1])
    ensures key in Keys(s) && FirstIndex(s, key) == FirstIndex(s[..|s| - 1], key)
  {
    KeysSnoc(s);
  }

  /** Deduplication leaves a sequence without repeated record names as it is. */
  lemma {:induction false} DedupUnchanged(s: seq<DomainValidation>)
    requires DistinctKeys(s)
    ensures DedupByRecordName(s) == s
  {
    if s != [] {
      var p, x := s[..|s| - 1], s[|s| - 1];
      assert DistinctKeys(p) by {
        forall i, j | 0 <= i < j < |p| ensures RecordName(p[i]) != RecordName(p[j]) {
          assert p[i] == s[i] && p[j] == s[j];
        }
      }
      DedupUnchanged(p);
      forall i | 0 <= i < |p| ensures RecordName(p[i]) != RecordName(x) {
        assert p[i] == s[i];
      }
      assert IndexOfKey(p, RecordName(x)).None?;
      assert s == p + [x];
    }
  }

  /** Distinct record names appear in the order of their first occurrence in the input. */
  lemma {:induction false} DedupFirstOccurrenceOrder(s: seq<DomainValidation>)
    ensures var d := DedupByRecordName(s);
            forall i, j :: 0 <= i < j < |d| ==>
              RecordName(d[i]) in Keys(s) && RecordName(d[j]) in Keys(s) &&
              FirstIndex(s, RecordName(d[i])) < FirstIndex(s, RecordName(d[j]))
  {
    var d := DedupByRecordName(s);
    DedupKeys(s);
    if s != [] {
      var p, x := s[..|s| - 1], s[|s| - 1];
      var d' := DedupByRecordName(p);
      DedupFirstOccurrenceOrder(p);
      DedupKeys(p);
      KeysSnoc(s);
      match IndexOfKey(d', RecordName(x))
      case Some(k0) =>
        assert d == d'[k0 := x];
        forall i, j | 0 <= i < j < |d|
          ensures RecordName(d[i]) in Keys(s) && RecordName(d[j]) in Keys(s)
          ensures FirstIndex(s, RecordName(d[i])) < FirstIndex(s, RecordName(d[j]))
        {
          assert RecordName(d[i]) == RecordName(d'[i]) && RecordName(d[j]) == RecordName(d'[j]);
          assert RecordName(d'[i]) in Keys(d') && RecordName(d'[j]) in Keys(d');
          FirstIndexSnoc(s, RecordName(d'[i]));
          FirstIndexSnoc(s, RecordName(d'[j]));
        }
      case None =>
        assert d == d' + [x];
        forall i, j | 0 <= i < j < |d|
          ensures RecordName(d[i]) in Keys(s) && RecordName(d[j]) in Keys(s)
          ensures FirstIndex(s, RecordName(d[i])) < FirstIndex(s, RecordName(d[j]))
        {
          assert d[i] == d'[i];
          assert RecordName(d'[i]) in Keys(d');
          FirstIndexSnoc(s, RecordName(d'[i]));
          if j == |d| - 1 {
            assert RecordName(d[j]) == RecordName(x);
          } else {
            assert d[j] == d'[j];
            assert RecordName(d'[j]) in Keys(d');
            FirstIndexSnoc(s, RecordName(d'[j]));
          }
        }
    }
  }

  // ---------------------------------------------------------------------
  // getHostedZoneName
  // ---------------------------------------------------------------------

  const Wildcard: string := "*."

  /** `pat` occurs in `s` starting at position `i`. */
  predicate OccursAt(s: string, pat: string, i: int) {
    0 <= i && i + |pat| <= |s| && s[i..i + |pat|] == pat
  }

  /** The first occurrence of `pat` in `s` at or after `from`. */
  function IndexOfFrom(s: string, pat: string, from: nat): (r: Option<nat>)
    requires from <= |s|
    ensures r.Some? ==> from <= r.value && OccursAt(s, pat, r.value)
    ensures r.Some? ==> forall j :: from <= j < r.value ==> !OccursAt(s, pat, j)
    ensures r.None? ==> forall j :: from <= j ==> !OccursAt(s, pat, j)
    decreases |s| - from
  {
    if from + |pat| > |s| then None
    else if s[from..from + |pat|] == pat then Some(from)
    else IndexOfFrom(s, pat, from + 1)
  }

  /** `s.replace(pat, rep)` with a string pattern: only the first occurrence is replaced. */
  function ReplaceFirst(s: string, pat: string, rep: string): string {
    match IndexOfFrom(s, pat, 0)
    case None => s
    case Some(i) => s[..i] + rep + s[i + |pat|..]
  }

  /** `domainName.replace('*.', '')` */
  function StripWildcard(domainName: string): string {
    ReplaceFirst(domainName, Wildcard, "")
  }

  /**
   * The hosted zone a domain's record goes to: the domain without its `*.`,
   * unless the override map holds a non-empty zone name for it.
   */
  function GetHostedZoneName(domainName: string, zoneNames: Option<map<string, string>>): (r: string)
    // the override is looked up under the stripped name, and only a non-empty one is taken
    ensures var z := StripWildcard(domainName);
            zoneNames.Some? && z in zoneNames.value && zoneNames.value[z] != "" ==> r == zoneNames.value[z]
    ensures var z := StripWildcard(domainName);
            !(zoneNames.Some? && z in zoneNames.value && zoneNames.value[z] != "") ==> r == z
  {
    var zoneName := StripWildcard(domainName);
    if zoneNames.Some? && zoneName in zoneNames.value && zoneNames.value[zoneName] != "" then
      zoneNames.value[zoneName]
    else
      zoneName
  }

  /** A leading `*.` is removed, and nothing else. */
  lemma StripLeadingWildcard(t: string)
    ensures StripWildcard(Wildcard + t) == t
  {
    var s := Wildcard + t;
    assert OccursAt(s, Wildcard, 0) by { assert s[0..2] == Wildcard; }
    assert s[2..] == t;
  }

  /** A name with no `*.` in it is left as it is. */
  lemma StripWithoutWildcard(d: string)
    requires forall j :: !OccursAt(d, Wildcard, j)
    ensures StripWildcard(d) == d
  {
  }

  /** A name without a `*` in it has no `*.` to strip. */
  lemma StripWithoutStar(d: string)
    requires forall i :: 0 <= i < |d| ==> d[i] != '*'
    ensures StripWildcard(d) == d
  {
    forall j ensures !OccursAt(d, Wildcard, j) {
      if 0 <= j && j + 2 <= |d| {
        assert d[j..j + 2][0] == d[j];
      }
    }
  }

  /** Only the first `*.` goes: the rest of the name is kept, including a later `*.`. */
  lemma {:induction false} StripRemovesFirstOnly(d: string, i: nat)
    requires OccursAt(d, Wildcard, i)
    requires forall j :: 0 <= j < i ==> !OccursAt(d, Wildcard, j)
    ensures StripWildcard(d) == d[..i] + d[i + 2..]
    ensures |StripWildcard(d)| == |d| - 2
  {
    var r := IndexOfFrom(d, Wildcard, 0);
    assert r.Some? && r.value == i;
  }

  /** For a wildcard domain the zone is the override of the base domain when one is given, else the base domain. */
  lemma WildcardZoneName(t: string, zoneNames: Option<map<string, string>>)
    ensures GetHostedZoneName(Wildcard + t, zoneNames) ==
      if zoneNames.Some? && t in zoneNames.value && zoneNames.value[t] != "" then zoneNames.value[t] else t
  {
    StripLeadingWildcard(t);
  }

  /** For a domain without a `*`, the zone is the domain's own override when one is given, else the domain. */
  lemma PlainZoneName(d: string, zoneNames: Option<map<string, string>>)
    requires forall i :: 0 <= i < |d| ==> d[i] != '*'
    ensures GetHostedZoneName(d, zoneNames) ==
      if zoneNames.Some? && d in zoneNames.value && zoneNames.value[d] != "" then zoneNames.value[d] else d
  {
    StripWithoutStar(d);
  }

  /** An empty override is ignored, as a falsy value is in JavaScript. */
  lemma EmptyOverrideIgnored(d: string, zoneNames: map<string, string>)
    requires StripWildcard(d) in zoneNames && zoneNames[StripWildcard(d)] == ""
    ensures GetHostedZoneName(d, Some(zoneNames)) == StripWildcard(d)
  {
  }

  /** `*.example.com` with the override `example.com -> override-zone.com` goes to `override-zone.com`. */
  lemma OverrideExample()
    ensures GetHostedZoneName("*.example.com", Some(map["example.com" := "override-zone.com"])) == "override-zone.com"
  {
    assert "*.example.com" == Wildcard + "example.com";
    WildcardZoneName("example.com", Some(map["example.com" := "override-zone.com"]));
  }

  /** `*.api.example.com` without overrides goes to `api.example.com`. */
  lemma NoOverrideExample()
    ensures GetHostedZoneName("*.api.example.com", None) == "api.example.com"
  {
    assert "*.api.example.com" == Wildcard + "api.example.com";
    WildcardZoneName("api.example.com", None);
  }

  // ---------------------------------------------------------------------
  // groupValidationRecordsByHostedZone
  // ---------------------------------------------------------------------

  /** The zone an option's challenge record is published in. */
  function ZoneOf(o: DomainValidation, zoneNames: Option<map<string, string>>): string {
    GetHostedZoneName(o.domainName, zoneNames)
  }

  /** Reference definition: the records of the options that go to `zone`, in input order. */
  function RecordsForZone(options: seq<DomainValidation>, zoneNames: Option<map<string, string>>, zone: string): seq<ResourceRecord>
    requires AllHaveRecords(options)
    decreases |options|
  {
    if options == [] then []
    else
      var last := options[|options| - 1];
      RecordsForZone(options[..|options| - 1], zoneNames, zone) +
        (if ZoneOf(last, zoneNames) == zone then [last.resourceRecord.value] else [])
  }

  /** Reference definition: the distinct zones of the options, in order of first appearance. */
  function ZonesInOrder(options: seq<DomainValidation>, zoneNames: Option<map<string, string>>): seq<string>
    decreases |options|
  {
    if options == [] then []
    else
      var zones := ZonesInOrder(options[..|options| - 1], zoneNames);
      var zone := ZoneOf(options[|options| - 1], zoneNames);
      if zone in zones then zones else zones + [zone]
  }

  /**
   * The accumulator of the reduce: a JS object whose keys are kept in
   * insertion order (`zones`) and map to the records gathered so far.
   */
  datatype ZoneGroups = ZoneGroups(zones: seq<string>, records: map<string, seq<ResourceRecord>>)

  /**
   * The accumulator holds exactly the grouping of `prefix`: its keys, in
   * insertion order, are the zones of the prefix, and each maps to the
   * records of that zone.
   */
  ghost predicate Grouped(prefix: seq<DomainValidation>, zoneNames: Option<map<string, string>>, g: ZoneGroups) {
    && AllHaveRecords(prefix)
    && g.zones == ZonesInOrder(prefix, zoneNames)
    && (forall z :: z in g.records <==> z in g.zones)
    && (forall z :: z in g.records ==> g.records[z] == RecordsForZone(prefix, zoneNames, z))
  }

  /** `(records[zoneName] = records[zoneName] || []).push(record)`, with the key order kept in `zones`. */
  function Push(g: ZoneGroups, zone: string, record: ResourceRecord): ZoneGroups {
    var current := if zone in g.records then g.records[zone] else [];
    ZoneGroups(if zone in g.records then g.zones else g.zones + [zone], g.records[zone := current + [record]])
  }

  /** Pushing the next option's record extends the grouping by that option. */
  lemma GroupInsert(options: seq<DomainValidation>, zoneNames: Option<map<string, string>>, i: nat, g: ZoneGroups)
    requires i < |options| && Grouped(options[..i], zoneNames, g) && options[i].resourceRecord.Some?
    ensures Grouped(options[..i + 1], zoneNames, Push(g, ZoneOf(options[i], zoneNames), options[i].resourceRecord.value))
  {
    var zone, record := ZoneOf(options[i], zoneNames), options[i].resourceRecord.value;
    var p, q := options[..i], options[..i + 1];
    var g' := Push(g, zone, record);
    GroupStep(options, zoneNames, i);
    assert g'.zones == ZonesInOrder(q, zoneNames);
    assert forall z :: z in g'.records <==> z in g'.zones;
    forall z | z in g'.records ensures g'.records[z] == RecordsForZone(q, zoneNames, z) {
      if z == zone {
        if zone !in g.records {
          RecordsOutsideZones(p, zoneNames, zone);
        }
      } else {
        assert g'.records[z] == g.records[z];
      }
    }
  }

  /**
   * Gathers every challenge record under its hosted zone; throws as soon as an
   * option has no record.
   */
  method GroupValidationRecordsByHostedZone(options: seq<DomainValidation>, zoneNames: Option<map<string, string>>)
    returns (r: Result<ZoneGroups, Error>)
    ensures r.Failure? <==> !AllHaveRecords(options)
    ensures r.Failure? ==> r.error == ThrownByFunction
    ensures r.Success? ==> AllHaveRecords(options) && r.value.zones == ZonesInOrder(options, zoneNames)
    ensures r.Success? ==> forall z :: z in r.value.records <==> z in r.value.zones
    ensures r.Success? ==> forall z :: z in r.value.records ==> r.value.records[z] == RecordsForZone(options, zoneNames, z)
  {
    var groups := ZoneGroups([], map[]);
    var i := 0;
    while i < |options|
      invariant 0 <= i <= |options|
      invariant Grouped(options[..i], zoneNames, groups)
    {
      var option := options[i];
      if option.resourceRecord.None? {
        assert !AllHaveRecords(options);
        return Failure(ThrownByFunction);
      }
      var zoneName := GetHostedZoneName(option.domainName, zoneNames);
      GroupInsert(options, zoneNames, i, groups);
      groups := Push(groups, zoneName, option.resourceRecord.value);
      i := i + 1;
    }
    assert options[..i] == options;
    return Success(groups);
  }

  /** Taking one more option into account: how the zones and each zone's records grow. */
  lemma GroupStep(options: seq<DomainValidation>, zoneNames: Option<map<string, string>>, i: nat)
    requires i < |options| && AllHaveRecords(options[..i]) && options[i].resourceRecord.Some?
    ensures AllHaveRecords(options[..i + 1])
    ensures var zone := ZoneOf(options[i], zoneNames);
            var zp := ZonesInOrder(options[..i], zoneNames);
            ZonesInOrder(options[..i + 1], zoneNames) == if zone in zp then zp else zp + [zone]
    ensures forall z :: RecordsForZone(options[..i + 1], zoneNames, z) ==
              RecordsForZone(options[..i], zoneNames, z) +
                (if z == ZoneOf(options[i], zoneNames) then [options[i].resourceRecord.value] else [])
  {
    var q := options[..i + 1];
    assert q[..i] == options[..i];
    assert q[i] == options[i];
    assert AllHaveRecords(q) by {
      forall k | 0 <= k < |q| ensures q[k].resourceRecord.Some? {
        if k < i { assert q[k] == options[..i][k]; }
      }
    }
  }

  /** A zone that no option goes to receives no records. */
  lemma {:induction false} RecordsOutsideZones(options: seq<DomainValidation>, zoneNames: Option<map<string, string>>, zone: string)
    requires AllHaveRecords(options)
    requires zone !in ZonesInOrder(options, zoneNames)
    ensures RecordsForZone(options, zoneNames, zone) == []
  {
    if options != [] {
      RecordsOutsideZones(options[..|options| - 1], zoneNames, zone);
    }
  }

  /** The zones are distinct, and they are exactly the zones of the options. */
  lemma {:induction false} ZonesDistinctAndComplete(options: seq<DomainValidation>, zoneNames: Option<map<string, string>>)
    ensures Distinct(ZonesInOrder(options, zoneNames))
    ensures forall i :: 0 <= i < |options| ==> ZoneOf(options[i], zoneNames) in ZonesInOrder(options, zoneNames)
    ensures forall z :: z in ZonesInOrder(options, zoneNames) ==>
              exists i :: 0 <= i < |options| && ZoneOf(options[i], zoneNames) == z
  {
    if options != [] {
      var p := options[..|options| - 1];
      ZonesDistinctAndComplete(p, zoneNames);
      assert forall i :: 0 <= i < |p| ==> p[i] == options[i];
      var zp := ZonesInOrder(p, zoneNames);
      var zs := ZonesInOrder(options, zoneNames);
      var z := ZoneOf(options[|options| - 1], zoneNames);
      if z !in zp {
        assert zs == zp + [z];
        forall i, j | 0 <= i < j < |zs| ensures zs[i] != zs[j] {
          assert zs[i] == zp[i];
          if j < |zp| {
            assert zs[j] == zp[j];
          } else {
            assert zs[j] == z;
            assert zp[i] in zp;
          }
        }
      }
    }
  }

  /** The records gathered from a prefix of the options are a prefix of those gathered from all of them. */
  lemma {:induction false} RecordsForPrefix(options: seq<DomainValidation>, zoneNames: Option<map<string, string>>, zone: string, m: nat)
    requires AllHaveRecords(options) && m <= |options|
    ensures AllHaveRecords(options[..m])
    ensures var pre := RecordsForZone(options[..m], zoneNames, zone);
            var all := RecordsForZone(options, zoneNames, zone);
            |pre| <= |all| && all[..|pre|] == pre
  {
    if m < |options| {
      var p := options[..|options| - 1];
      RecordsForPrefix(p, zoneNames, zone, m);
      assert p[..m] == options[..m];
    } else {
      assert options[..m] == options;
    }
  }

  /**
   * Every option's record lands in the list of its own zone, right after the
   * records of the earlier options of that zone: each list keeps input order.
   */
  lemma RecordPlacement(options: seq<DomainValidation>, zoneNames: Option<map<string, string>>, i: nat)
    requires AllHaveRecords(options) && i < |options|
    ensures AllHaveRecords(options[..i])
    ensures var zone := ZoneOf(options[i], zoneNames);
            var k := |RecordsForZone(options[..i], zoneNames, zone)|;
            k < |RecordsForZone(options, zoneNames, zone)| &&
            RecordsForZone(options, zoneNames, zone)[k] == options[i].resourceRecord.value
  {
    var zone := ZoneOf(options[i], zoneNames);
    RecordsForPrefix(options, zoneNames, zone, i + 1);
    var q := options[..i + 1];
    assert q[..i] == options[..i];
    assert q[i] == options[i];
    assert RecordsForZone(q, zoneNames, zone) ==
      RecordsForZone(options[..i], zoneNames, zone) + [options[i].resourceRecord.value];
  }

  /** The number of records across the given zones. */
  function CountAcross(options: seq<DomainValidation>, zoneNames: Option<map<string, string>>, zones: seq<string>): nat
    requires AllHaveRecords(options)
  {
    if zones == [] then 0
    else CountAcross(options, zoneNames, zones[..|zones| - 1]) + |RecordsForZone(options, zoneNames, zones[|zones| - 1])|
  }

  lemma {:induction false} CountAcrossSnoc(options: seq<DomainValidation>, zoneNames: Option<map<string, string>>, zones: seq<string>)
    requires AllHaveRecords(options) && options != []
    requires forall i, j :: 0 <= i < j < |zones| ==> zones[i] != zones[j]
    ensures AllHaveRecords(options[..|options| - 1])
    ensures CountAcross(options, zoneNames, zones) ==
      CountAcross(options[..|options| - 1], zoneNames, zones) +
        (if ZoneOf(options[|options| - 1], zoneNames) in zones then 1 else 0)
  {
    var p, x := options[..|options| - 1], options[|options| - 1];
    assert AllHaveRecords(p) by {
      forall i | 0 <= i < |p| ensures p[i].resourceRecord.Some? { assert p[i] == options[i]; }
    }
    if zones != [] {
      var front, z := zones[..|zones| - 1], zones[|zones| - 1];
      assert forall i, j :: 0 <= i < j < |front| ==> front[i] == zones[i] && front[j] == zones[j];
      CountAcrossSnoc(options, zoneNames, front);
      assert RecordsForZone(options, zoneNames, z) ==
        RecordsForZone(p, zoneNames, z) + (if ZoneOf(x, zoneNames) == z then [x.resourceRecord.value] else []);
      assert zones == front + [z];
      if ZoneOf(x, zoneNames) == z {
        assert z !in front by {
          forall i | 0 <= i < |front| ensures front[i] != z { assert front[i] == zones[i]; }
        }
      }
    }
  }

  /** The grouping neither loses nor duplicates a record: the lists hold one record per option. */
  lemma {:induction false} TotalRecordCount(options: seq<DomainValidation>, zoneNames: Option<map<string, string>>)
    requires AllHaveRecords(options)
    ensures CountAcross(options, zoneNames, ZonesInOrder(options, zoneNames)) == |options|
  {
    if options != [] {
      var p := options[..|options| - 1];
      var x := options[|options| - 1];
      var zs := ZonesInOrder(options, zoneNames);
      ZonesDistinctAndComplete(options, zoneNames);
      ZonesDistinctAndComplete(p, zoneNames);
      TotalRecordCount(p, zoneNames);
      CountAcrossSnoc(options, zoneNames, zs);
      var zp := ZonesInOrder(p, zoneNames);
      if ZoneOf(x, zoneNames) !in zp {
        assert zs == zp + [ZoneOf(x, zoneNames)];
        assert zs[..|zs| - 1] == zp;
        RecordsOutsideZones(p, zoneNames, ZoneOf(x, zoneNames));
      }
    }
  }
}
