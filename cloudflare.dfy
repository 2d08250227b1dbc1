/**
 * The DNS reconciler of dns/cloudflare.go: find the zone of a domain, find the
 * record of that name, create it when absent, then patch it.
 */
module Cloudflare {
  import opened Wrappers
  import opened Search
  import opened CloudflareApi

  /** The TTL the provider reads as "automatic". */
  const AutomaticTtl := 1
  const ErrorPrefix := "DNS error: "
  const ZoneNotFound := "DNS error: Fail to find the zone."

  function NormalizeTtl(ttl: int): (r: int)
    ensures ttl == 0 ==> r == AutomaticTtl
    ensures ttl != 0 ==> r == ttl
    ensures r != 0
  {
    if ttl == 0 then AutomaticTtl else ttl
  }

  /** `strings.HasSuffix(s, suffix)`: a plain string suffix, blind to label boundaries. */
  predicate HasSuffix(s: string, suffix: string) {
    |suffix| <= |s| && s[|s| - |suffix|..] == suffix
  }

  /** The error `getZoneId` and `getRecordId` build from a rejected listing. */
  function ProviderError(errors: seq<ApiError>): string
    requires |errors| > 0
  {
    ErrorPrefix + errors[0].message
  }

  /** The body both create and patch send. */
  function DesiredPayload(t: string, name: string, content: string, ttl: int): Payload {
    Payload(t, name, content, false, NormalizeTtl(ttl))
  }

  /** The zone id `getZoneId` selects from a successful listing. */
  function ZoneChoice(zones: seq<Zone>, name: string): (r: Result<string>)
    ensures r.Ok? <==> exists i :: 0 <= i < |zones| && HasSuffix(name, zones[i].name)
    ensures r.Ok? ==> exists i :: 0 <= i < |zones| && HasSuffix(name, zones[i].name) && r.value == zones[i].id &&
                                  forall j :: 0 <= j < i ==> !HasSuffix(name, zones[j].name)
    ensures r.Err? ==> r.error == ZoneNotFound
  {
    match First(zones, (z: Zone) => HasSuffix(name, z.name))
    case Some(i) => Ok(zones[i].id)
    case None => Err(ZoneNotFound)
  }

  /** The record id `getRecordId` selects from a successful listing; "" when none has the name. */
  function RecordChoice(records: seq<DnsRecord>, name: string): (r: string)
    ensures (forall i :: 0 <= i < |records| ==> records[i].name != name) ==> r == ""
    ensures forall i :: (0 <= i < |records| && records[i].name == name &&
                         forall j :: 0 <= j < i ==> records[j].name != name) ==> r == records[i].id
  {
    match First(records, (rec: DnsRecord) => rec.name == name)
    case Some(i) => records[i].id
    case None => ""
  }

  /** The loop of `getZoneId`: the first zone whose name is a suffix of the domain. */
  method SelectZone(zones: seq<Zone>, name: string) returns (r: Result<string>)
    ensures r == ZoneChoice(zones, name)
  {
    for i := 0 to |zones|
      invariant forall j :: 0 <= j < i ==> !HasSuffix(name, zones[j].name)
    {
      if HasSuffix(name, zones[i].name) {
        return Ok(zones[i].id);
      }
    }
    return Err(ZoneNotFound);
  }

  /** The loop of `getRecordId`: the first record whose name equals the domain, whatever its type. */
  method SelectRecord(records: seq<DnsRecord>, name: string) returns (recordId: string)
    ensures recordId == RecordChoice(records, name)
  {
    for i := 0 to |records|
      invariant forall j :: 0 <= j < i ==> records[j].name != name
    {
      if records[i].name == name {
        return records[i].id;
      }
    }
    return "";
  }

  /** What `getZoneId` returns against a provider in state `s`. */
  function ZoneLookup(s: Remote, name: string): Result<string>
    requires WellFormed(s)
  {
    match ZonesReply(s)
    case Unreachable(cause) => Err(cause)
    case Delivered(Failure(errors)) => Err(ProviderError(errors))
    case Delivered(Success(zones)) => ZoneChoice(zones, name)
  }

  /** What `getRecordId` returns against a provider in state `s`. */
  function RecordLookup(s: Remote, zoneId: string, name: string): Result<string>
    requires WellFormed(s)
  {
    match RecordsReply(s, zoneId)
    case Unreachable(cause) => Err(cause)
    case Delivered(Failure(errors)) => Err(ProviderError(errors))
    case Delivered(Success(records)) => Ok(RecordChoice(records, name))
  }

  /** Create and patch report only the failure of the request; the body's `success` is not read. */
  function RequestOutcome(reply: Reply<Ack>): Outcome {
    match reply
    case Unreachable(cause) => Fail(cause)
    case Delivered(_) => Pass
  }

  /** One run of `Update`: the calls it makes, the error it returns and the provider state it leaves. */
  datatype Run = Run(calls: seq<Call>, outcome: Outcome, after: Remote)

  function Reconcile(s: Remote, t: string, name: string, content: string, ttl: int): Run
    requires WellFormed(s)
  {
    match ZoneLookup(s, name)
    case Err(e) => Run([ListZones], Fail(e), s)
    case Ok(zoneId) =>
      match RecordLookup(s, zoneId, name)
      case Err(e) => Run([ListZones, ListRecords(zoneId)], Fail(e), s)
      case Ok(recordId) =>
        var w := WriteStage(s, zoneId, recordId, DesiredPayload(t, name, content, ttl));
        Run([ListZones, ListRecords(zoneId)] + w.calls, w.outcome, w.after)
  }

  /** After both lookups: create when no record id was found, then patch the looked-up id. */
  function WriteStage(s: Remote, zoneId: string, recordId: string, payload: Payload): Run {
    if recordId != "" then PatchStage(s, zoneId, recordId, payload)
    else match CreateReply(s, zoneId)
      case Unreachable(cause) => Run([Create(zoneId, payload)], Fail(cause), s)
      case Delivered(_) =>
        var w := PatchStage(AfterCreate(s, zoneId, payload), zoneId, recordId, payload);
        Run([Create(zoneId, payload)] + w.calls, w.outcome, w.after)
  }

  function PatchStage(s: Remote, zoneId: string, recordId: string, payload: Payload): Run {
    Run([Patch(zoneId, recordId, payload)],
        RequestOutcome(PatchReply(s, zoneId, recordId)),
        AfterPatch(s, zoneId, recordId, payload))
  }

  method GetZoneId(p: Provider, name: string) returns (r: Result<string>)
    requires p.Valid()
    modifies p`log
    ensures p.log == old(p.log) + [ListZones]
    ensures r == ZoneLookup(p.State(), name)
  {
    var reply := p.GetZones();
    match reply
    case Unreachable(cause) =>
      r := Err(cause);
    case Delivered(Failure(errors)) =>
      r := Err(ProviderError(errors));
    case Delivered(Success(zones)) =>
      r := SelectZone(zones, name);
  }

  method GetRecordId(p: Provider, zoneId: string, name: string) returns (r: Result<string>)
    requires p.Valid()
    modifies p`log
    ensures p.log == old(p.log) + [ListRecords(zoneId)]
    ensures r == RecordLookup(p.State(), zoneId, name)
  {
    var reply := p.GetRecords(zoneId);
    match reply
    case Unreachable(cause) =>
      r := Err(cause);
    case Delivered(Failure(errors)) =>
      r := Err(ProviderError(errors));
    case Delivered(Success(records)) =>
      var recordId := SelectRecord(records, name);
      r := Ok(recordId);
  }

  method CreateRecord(p: Provider, zoneId: string, t: string, name: string, content: string,
                      proxied: bool, ttl: int) returns (o: Outcome)
    modifies p`records, p`log
    ensures p.log == old(p.log) + [Create(zoneId, Payload(t, name, content, proxied, ttl))]
    ensures p.State() == AfterCreate(old(p.State()), zoneId, Payload(t, name, content, proxied, ttl))
    ensures o == RequestOutcome(CreateReply(old(p.State()), zoneId))
  {
    var reply := p.PostRecord(zoneId, Payload(t, name, content, proxied, ttl));
    o := RequestOutcome(reply);
  }

  method UpdateRecord(p: Provider, zoneId: string, recordId: string, t: string, name: string,
                      content: string, proxied: bool, ttl: int) returns (o: Outcome)
    modifies p`records, p`log
    ensures p.log == old(p.log) + [Patch(zoneId, recordId, Payload(t, name, content, proxied, ttl))]
    ensures p.State() == AfterPatch(old(p.State()), zoneId, recordId, Payload(t, name, content, proxied, ttl))
    ensures o == RequestOutcome(PatchReply(old(p.State()), zoneId, recordId))
  {
    var reply := p.PatchRecord(zoneId, recordId, Payload(t, name, content, proxied, ttl));
    o := RequestOutcome(reply);
  }

  /** `Update(t, name, content, token, ttl)`: reconcile one domain's record on the provider. */
  method Update(p: Provider, t: string, name: string, content: string, ttl: int) returns (o: Outcome)
    requires p.Valid()
    modifies p`records, p`log
    ensures p.log == old(p.log) + Reconcile(old(p.State()), t, name, content, ttl).calls
    ensures o == Reconcile(old(p.State()), t, name, content, ttl).outcome
    ensures p.State() == Reconcile(old(p.State()), t, name, content, ttl).after
    ensures p.Valid()
  {
    ghost var s, log0 := p.State(), p.log;
    var effectiveTtl := ttl;
    if effectiveTtl == 0 {
      effectiveTtl := AutomaticTtl;
    }
    assert effectiveTtl == NormalizeTtl(ttl);

    var zone := GetZoneId(p, name);
    if zone.Err? {
      ZoneStageFails(s, t, name, content, ttl);
      return Fail(zone.error);
    }
    var zoneId := zone.value;

    var record := GetRecordId(p, zoneId, name);
    if record.Err? {
      RecordStageFails(s, t, name, content, ttl, zoneId);
      Snoc(log0, [ListZones], ListRecords(zoneId));
      return Fail(record.error);
    }
    var recordId := record.value;
    ghost var payload := DesiredPayload(t, name, content, ttl);
    ReachesWriteStage(s, t, name, content, ttl, zoneId, recordId);
    Snoc(log0, [ListZones], ListRecords(zoneId));
    ghost var listed := [ListZones, ListRecords(zoneId)];
    assert p.log == log0 + listed;

    if recordId == "" {
      var created := CreateRecord(p, zoneId, t, name, content, false, effectiveTtl);
      Snoc(log0, listed, Create(zoneId, payload));
      if created.Fail? {
        return created;
      }
      listed := listed + [Create(zoneId, payload)];
    }

    o := UpdateRecord(p, zoneId, recordId, t, name, content, false, effectiveTtl);
    Snoc(log0, listed, Patch(zoneId, recordId, payload));
  }

  lemma Snoc(a: seq<Call>, b: seq<Call>, c: Call)
    ensures (a + b) + [c] == a + (b + [c])
  {}

  lemma ZoneStageFails(s: Remote, t: string, name: string, content: string, ttl: int)
    requires WellFormed(s) && ZoneLookup(s, name).Err?
    ensures Reconcile(s, t, name, content, ttl) == Run([ListZones], Fail(ZoneLookup(s, name).error), s)
  {}

  lemma RecordStageFails(s: Remote, t: string, name: string, content: string, ttl: int, zoneId: string)
    requires WellFormed(s) && ZoneLookup(s, name) == Ok(zoneId) && RecordLookup(s, zoneId, name).Err?
    ensures Reconcile(s, t, name, content, ttl) ==
            Run([ListZones, ListRecords(zoneId)], Fail(RecordLookup(s, zoneId, name).error), s)
  {}

  lemma ReachesWriteStage(s: Remote, t: string, name: string, content: string, ttl: int,
                          zoneId: string, recordId: string)
    requires WellFormed(s) && ZoneLookup(s, name) == Ok(zoneId) && RecordLookup(s, zoneId, name) == Ok(recordId)
    ensures var w := WriteStage(s, zoneId, recordId, DesiredPayload(t, name, content, ttl));
            Reconcile(s, t, name, content, ttl) == Run([ListZones, ListRecords(zoneId)] + w.calls, w.outcome, w.after)
  {}

  // ---------------------------------------------------------------------------
  // Properties of a reconciliation run

  /** The zone match is a plain string suffix: "notexample.com" falls in zone "example.com". */
  lemma SuffixMatchIgnoresLabels()
    ensures ZoneChoice([Zone("z1", "example.com")], "notexample.com") == Ok("z1")
  {
    assert HasSuffix("notexample.com", "example.com");
  }

  /** The first suffix match wins, not the longest one. */
  lemma FirstZoneWinsOverLongest()
    ensures ZoneChoice([Zone("outer", "b.com"), Zone("inner", "a.b.com")], "x.a.b.com") == Ok("outer")
  {
    assert HasSuffix("x.a.b.com", "b.com");
  }

  /** A rejected zone listing ends the run with the provider's first message; nothing else is called. */
  lemma ZoneListingRejected(s: Remote, t: string, name: string, content: string, ttl: int, errors: seq<ApiError>)
    requires WellFormed(s) && ZonesReply(s) == Delivered(Failure(errors))
    ensures |errors| > 0
    ensures var run := Reconcile(s, t, name, content, ttl);
            run.calls == [ListZones] && run.outcome == Fail("DNS error: " + errors[0].message) && run.after == s
  {}

  /** When no zone name is a suffix of the domain the run fails with the fixed zone error. */
  lemma NoZoneMatches(s: Remote, t: string, name: string, content: string, ttl: int, zones: seq<Zone>)
    requires WellFormed(s) && ZonesReply(s) == Delivered(Success(zones))
    requires forall i :: 0 <= i < |zones| ==> !HasSuffix(name, zones[i].name)
    ensures var run := Reconcile(s, t, name, content, ttl);
            run.calls == [ListZones] && run.outcome == Fail("DNS error: Fail to find the zone.") && run.after == s
  {}

  /** A rejected record listing ends the run before any create or patch. */
  lemma RecordListingRejected(s: Remote, t: string, name: string, content: string, ttl: int,
                              zoneId: string, errors: seq<ApiError>)
    requires WellFormed(s) && ZoneLookup(s, name) == Ok(zoneId)
    requires RecordsReply(s, zoneId) == Delivered(Failure(errors))
    ensures |errors| > 0
    ensures var run := Reconcile(s, t, name, content, ttl);
            run.calls == [ListZones, ListRecords(zoneId)] &&
            run.outcome == Fail("DNS error: " + errors[0].message) && run.after == s
  {}

  /** A record with the domain's name exists: the only write is one patch of the first such record. */
  lemma ExistingRecordIsPatchedOnly(s: Remote, t: string, name: string, content: string, ttl: int,
                                    zoneId: string, records: seq<DnsRecord>, i: nat)
    requires WellFormed(s) && ZoneLookup(s, name) == Ok(zoneId)
    requires RecordsReply(s, zoneId) == Delivered(Success(records))
    requires i < |records| && records[i].name == name && records[i].id != ""
    requires forall j :: 0 <= j < i ==> records[j].name != name
    ensures var run := Reconcile(s, t, name, content, ttl);
            run.calls == [ListZones, ListRecords(zoneId), Patch(zoneId, records[i].id, DesiredPayload(t, name, content, ttl))]
    ensures forall c :: c in Reconcile(s, t, name, content, ttl).calls ==> !c.Create?
  {
    assert RecordLookup(s, zoneId, name) == Ok(records[i].id);
  }

  /**
   * No record has the domain's name: a create, then a patch of the record id looked up
   * before the create, which is "". The patch is made whatever the create's reply said.
   */
  lemma MissingRecordIsCreatedThenPatched(s: Remote, t: string, name: string, content: string, ttl: int,
                                          zoneId: string, records: seq<DnsRecord>)
    requires WellFormed(s) && ZoneLookup(s, name) == Ok(zoneId)
    requires RecordsReply(s, zoneId) == Delivered(Success(records))
    requires forall j :: 0 <= j < |records| ==> records[j].name != name
    requires CreateReply(s, zoneId).Delivered?
    ensures var run := Reconcile(s, t, name, content, ttl);
            var payload := DesiredPayload(t, name, content, ttl);
            run.calls == [ListZones, ListRecords(zoneId), Create(zoneId, payload), Patch(zoneId, "", payload)] &&
            run.outcome == RequestOutcome(PatchReply(AfterCreate(s, zoneId, payload), zoneId, ""))
  {
    assert RecordLookup(s, zoneId, name) == Ok("");
  }

  /** A create whose request fails ends the run with that error; no patch follows. */
  lemma FailedCreateSkipsPatch(s: Remote, t: string, name: string, content: string, ttl: int,
                               zoneId: string, records: seq<DnsRecord>, cause: string)
    requires WellFormed(s) && ZoneLookup(s, name) == Ok(zoneId)
    requires RecordsReply(s, zoneId) == Delivered(Success(records))
    requires forall j :: 0 <= j < |records| ==> records[j].name != name
    requires CreateReply(s, zoneId) == Unreachable(cause)
    ensures var run := Reconcile(s, t, name, content, ttl);
            run.calls == [ListZones, ListRecords(zoneId), Create(zoneId, DesiredPayload(t, name, content, ttl))] &&
            run.outcome == Fail(cause) && run.after == s
  {
    assert RecordLookup(s, zoneId, name) == Ok("");
  }

  /** Every create and patch of a run carries the same body: proxied off, TTL normalised. */
  lemma PayloadsAgree(s: Remote, t: string, name: string, content: string, ttl: int)
    requires WellFormed(s)
    ensures forall c :: c in Reconcile(s, t, name, content, ttl).calls && (c.Create? || c.Patch?) ==>
              c.payload == Payload(t, name, content, false, if ttl == 0 then 1 else ttl)
  {
    var payload := DesiredPayload(t, name, content, ttl);
    if ZoneLookup(s, name).Ok? && RecordLookup(s, ZoneLookup(s, name).value, name).Ok? {
      var zoneId := ZoneLookup(s, name).value;
      var recordId := RecordLookup(s, zoneId, name).value;
      var w := WriteStage(s, zoneId, recordId, payload);
      assert forall c :: c in w.calls ==> c == Create(zoneId, payload) || c == Patch(zoneId, recordId, payload);
      assert Reconcile(s, t, name, content, ttl).calls == [ListZones, ListRecords(zoneId)] + w.calls;
    }
  }

  /**
   * A run fails only on a lookup error or on a create or patch whose request itself fails:
   * a create or patch the provider answers with `success: false` still ends in Pass.
   */
  lemma OutcomeIgnoresWriteAcks(s: Remote, t: string, name: string, content: string, ttl: int)
    requires WellFormed(s)
    ensures Reconcile(s, t, name, content, ttl).outcome.Pass? <==>
            && ZoneLookup(s, name).Ok?
            && RecordLookup(s, ZoneLookup(s, name).value, name).Ok?
            && var zoneId := ZoneLookup(s, name).value;
               var recordId := RecordLookup(s, zoneId, name).value;
               var payload := DesiredPayload(t, name, content, ttl);
               (recordId == "" ==> !CreateReply(s, zoneId).Unreachable?) &&
               !PatchReply(if recordId == "" then AfterCreate(s, zoneId, payload) else s, zoneId, recordId).Unreachable?
  {}

  /** Record ids as the provider hands them out: non-empty, distinct, and distinct from the next one. */
  predicate FreshRecordIds(s: Remote, zoneId: string) {
    var records := RecordsOf(s, zoneId);
    && s.newRecordId != ""
    && (forall i :: 0 <= i < |records| ==> records[i].id != "" && records[i].id != s.newRecordId)
    && (forall i, j :: 0 <= i < j < |records| ==> records[i].id != records[j].id)
  }

  lemma IndexOfFreshId(records: seq<DnsRecord>, k: nat)
    requires k < |records|
    requires forall i, j :: 0 <= i < j < |records| ==> records[i].id != records[j].id
    ensures IndexOfId(records, records[k].id) == Some(k)
  {}

  /**
   * The patch that follows a create goes to record id "", which names no record: it leaves
   * the provider as the create left it, and the new record is never patched.
   */
  lemma StalePatchTargetsNothing(s: Remote, t: string, name: string, content: string, ttl: int,
                                 zoneId: string, records: seq<DnsRecord>)
    requires WellFormed(s) && ZoneLookup(s, name) == Ok(zoneId)
    requires RecordsReply(s, zoneId) == Delivered(Success(records))
    requires forall j :: 0 <= j < |records| ==> records[j].name != name
    requires CreateReply(s, zoneId).Delivered?
    requires FreshRecordIds(s, zoneId)
    ensures var run := Reconcile(s, t, name, content, ttl);
            var payload := DesiredPayload(t, name, content, ttl);
            run.calls[|run.calls| - 1] == Patch(zoneId, "", payload) &&
            run.after == AfterCreate(s, zoneId, payload)
  {
    var payload := DesiredPayload(t, name, content, ttl);
    assert RecordLookup(s, zoneId, name) == Ok("");
    var created := AfterCreate(s, zoneId, payload);
    var after := RecordsOf(created, zoneId);
    assert forall i :: 0 <= i < |after| ==> after[i].id != "" by {
      if RecordPost(zoneId) !in s.faults {
        assert after == RecordsOf(s, zoneId) + [DnsRecord(s.newRecordId, payload.name, payload.rtype, payload.content)];
      }
    }
    assert IndexOfId(after, "").None?;
  }

  /** The state a converged run leaves: the first record of that name already holds the target. */
  predicate Settled(s: Remote, zoneId: string, name: string, t: string, content: string, i: nat) {
    var records := RecordsOf(s, zoneId);
    && i < |records|
    && records[i] == DnsRecord(records[i].id, name, t, content)
    && records[i].id != ""
    && (forall j :: 0 <= j < i ==> records[j].name != name)
    && (forall a, b :: 0 <= a < b < |records| ==> records[a].id != records[b].id)
  }

  /** From a settled state a run only patches the record with what it already holds. */
  lemma SettledIsFixpoint(s: Remote, t: string, name: string, content: string, ttl: int, zoneId: string, i: nat)
    requires s.faults == map[] && ZoneLookup(s, name) == Ok(zoneId)
    requires Settled(s, zoneId, name, t, content, i)
    ensures var recordId := RecordsOf(s, zoneId)[i].id;
            Reconcile(s, t, name, content, ttl) ==
            Run([ListZones, ListRecords(zoneId), Patch(zoneId, recordId, DesiredPayload(t, name, content, ttl))], Pass, s)
  {
    var records := RecordsOf(s, zoneId);
    assert RecordsReply(s, zoneId) == Delivered(Success(records));
    assert RecordLookup(s, zoneId, name) == Ok(records[i].id);
    IndexOfFreshId(records, i);
    assert records[i := DnsRecord(records[i].id, name, t, content)] == records;
  }

  /** A run against a provider that answers every request ends settled. */
  lemma RunSettles(s: Remote, t: string, name: string, content: string, ttl: int, zoneId: string)
    returns (i: nat)
    requires s.faults == map[] && ZoneLookup(s, name) == Ok(zoneId)
    requires FreshRecordIds(s, zoneId)
    ensures var run := Reconcile(s, t, name, content, ttl);
            run.outcome == Pass && Settled(run.after, zoneId, name, t, content, i) &&
            run.after.zones == s.zones && run.after.faults == s.faults
  {
    var payload := DesiredPayload(t, name, content, ttl);
    var records := RecordsOf(s, zoneId);
    assert RecordsReply(s, zoneId) == Delivered(Success(records));
    var run := Reconcile(s, t, name, content, ttl);
    match First(records, (rec: DnsRecord) => rec.name == name)
    case Some(k) =>
      assert RecordLookup(s, zoneId, name) == Ok(records[k].id);
      IndexOfFreshId(records, k);
      i := k;
      assert run.after == s.(records := s.records[zoneId := records[k := DnsRecord(records[k].id, name, t, content)]]);
    case None =>
      StalePatchTargetsNothing(s, t, name, content, ttl, zoneId, records);
      i := |records|;
      assert run.after == s.(records := s.records[zoneId := records + [DnsRecord(s.newRecordId, name, t, content)]]);
  }

  /**
   * Against a provider that answers every request, a run succeeds and leaves the domain's
   * first record of that name holding the desired type and content; running again with the
   * same inputs issues a single patch and changes nothing more (idempotent in net effect).
   */
  lemma {:induction false} ReconcileConverges(s: Remote, t: string, name: string, content: string, ttl: int,
                                              zoneId: string)
    requires s.faults == map[] && ZoneLookup(s, name) == Ok(zoneId)
    requires FreshRecordIds(s, zoneId)
    ensures var run := Reconcile(s, t, name, content, ttl);
            var records := RecordsOf(run.after, zoneId);
            var recordId := RecordChoice(records, name);
            && run.outcome == Pass
            && recordId != ""
            && (exists i :: 0 <= i < |records| && records[i] == DnsRecord(recordId, name, t, content) &&
                            forall j :: 0 <= j < i ==> records[j].name != name)
            && Reconcile(run.after, t, name, content, ttl) ==
               Run([ListZones, ListRecords(zoneId), Patch(zoneId, recordId, DesiredPayload(t, name, content, ttl))],
                   Pass, run.after)
  {
    var run := Reconcile(s, t, name, content, ttl);
    var i := RunSettles(s, t, name, content, ttl, zoneId);
    assert ZoneLookup(run.after, name) == Ok(zoneId);
    SettledIsFixpoint(run.after, t, name, content, ttl, zoneId, i);
    var records := RecordsOf(run.after, zoneId);
    assert RecordChoice(records, name) == records[i].id;
  }
}
