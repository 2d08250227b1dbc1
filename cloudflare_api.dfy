/**
 * The DNS provider as the reconciler sees it: the zone and record listings it
 * answers, the create and patch requests it accepts, and a log of every call
 * made to it. HTTP, headers and JSON decoding are abstracted away; what the
 * decoded `success`/`result`/`errors` fields carry is kept.
 */
module CloudflareApi {
  import opened Wrappers
  import opened Search

  datatype Zone = Zone(id: string, name: string)

  datatype DnsRecord = DnsRecord(id: string, name: string, rtype: string, content: string)

  datatype ApiError = ApiError(message: string)

  /** A decoded listing body: `success: true` with `result`, or `success: false` with `errors`. */
  datatype Listing<T> = Success(results: seq<T>) | Failure(errors: seq<ApiError>)

  /** A decoded create or patch body; only its `success` field is kept. */
  datatype Ack = Ack(success: bool)

  /** What a request yields: a decoded body, or the error of the request itself. */
  datatype Reply<T> = Delivered(body: T) | Unreachable(cause: string)

  /** The JSON body of a create or a patch request. */
  datatype Payload = Payload(rtype: string, name: string, content: string, proxied: bool, ttl: int)

  /** One request made to the provider, in the order made. */
  datatype Call =
    | ListZones
    | ListRecords(zoneId: string)
    | Create(zoneId: string, payload: Payload)
    | Patch(zoneId: string, recordId: string, payload: Payload)

  /** A method and URL of the provider's API. */
  datatype Endpoint =
    | ZonesIndex                                   // GET   /zones
    | RecordsIndex(zoneId: string)                 // GET   /zones/{zone}/dns_records
    | RecordPost(zoneId: string)                   // POST  /zones/{zone}/dns_records
    | RecordPatch(zoneId: string, recordId: string) // PATCH /zones/{zone}/dns_records/{record}

  /** How an endpoint misbehaves: the request fails, or the provider answers `success: false`. */
  datatype Fault = Down(cause: string) | Rejected(errors: seq<ApiError>)

  /** A snapshot of the provider's state. */
  datatype Remote = Remote(
    zones: seq<Zone>,
    records: map<string, seq<DnsRecord>>,  // by zone id; an absent zone id has no records
    faults: map<Endpoint, Fault>,
    newRecordId: string)                   // the id the provider gives the next record it creates

  function RecordsOf(s: Remote, zoneId: string): seq<DnsRecord> {
    if zoneId in s.records then s.records[zoneId] else []
  }

  /** A rejected listing always names at least one error (the reconciler reads `errors[0]`). */
  predicate WellFormed(s: Remote) {
    forall e :: e in s.faults && (e.ZonesIndex? || e.RecordsIndex?) && s.faults[e].Rejected? ==>
      |s.faults[e].errors| > 0
  }

  function ListingReply<T>(s: Remote, e: Endpoint, results: seq<T>): (r: Reply<Listing<T>>)
    ensures r.Delivered? && r.body.Failure? ==> e in s.faults && s.faults[e] == Rejected(r.body.errors)
  {
    if e !in s.faults then Delivered(Success(results))
    else match s.faults[e]
      case Down(cause) => Unreachable(cause)
      case Rejected(errors) => Delivered(Failure(errors))
  }

  function WriteReply(s: Remote, e: Endpoint, accepted: bool): Reply<Ack> {
    if e !in s.faults then Delivered(Ack(accepted))
    else match s.faults[e]
      case Down(cause) => Unreachable(cause)
      case Rejected(_) => Delivered(Ack(false))
  }

  function ZonesReply(s: Remote): Reply<Listing<Zone>> {
    ListingReply(s, ZonesIndex, s.zones)
  }

  function RecordsReply(s: Remote, zoneId: string): Reply<Listing<DnsRecord>> {
    ListingReply(s, RecordsIndex(zoneId), RecordsOf(s, zoneId))
  }

  /** The position of the first record of a zone with the given id. */
  function IndexOfId(records: seq<DnsRecord>, recordId: string): Option<nat> {
    First(records, (r: DnsRecord) => r.id == recordId)
  }

  function CreateReply(s: Remote, zoneId: string): Reply<Ack> {
    WriteReply(s, RecordPost(zoneId), true)
  }

  /** A patch of an id the zone does not hold is answered with `success: false`. */
  function PatchReply(s: Remote, zoneId: string, recordId: string): Reply<Ack> {
    WriteReply(s, RecordPatch(zoneId, recordId), IndexOfId(RecordsOf(s, zoneId), recordId).Some?)
  }

  /** A create that is not faulted appends a record with the provider's next id. */
  function AfterCreate(s: Remote, zoneId: string, p: Payload): Remote {
    if RecordPost(zoneId) in s.faults then s
    else s.(records := s.records[zoneId := RecordsOf(s, zoneId) + [DnsRecord(s.newRecordId, p.name, p.rtype, p.content)]])
  }

  /** A patch that is not faulted rewrites the first record with that id, if there is one. */
  function AfterPatch(s: Remote, zoneId: string, recordId: string, p: Payload): Remote {
    if RecordPatch(zoneId, recordId) in s.faults then s
    else match IndexOfId(RecordsOf(s, zoneId), recordId)
      case None => s
      case Some(i) =>
        s.(records := s.records[zoneId := RecordsOf(s, zoneId)[i := DnsRecord(recordId, p.name, p.rtype, p.content)]])
  }

  class Provider {
    var zones: seq<Zone>
    var records: map<string, seq<DnsRecord>>
    var faults: map<Endpoint, Fault>
    var newRecordId: string
    /** Every call made, oldest first; only ever appended to. */
    var log: seq<Call>

    function State(): Remote
      reads this
    {
      Remote(zones, records, faults, newRecordId)
    }

    ghost predicate Valid()
      reads this
    {
      WellFormed(State())
    }

    constructor (s: Remote)
      requires WellFormed(s)
      ensures State() == s && log == []
      ensures Valid()
    {
      zones, records, faults, newRecordId := s.zones, s.records, s.faults, s.newRecordId;
      log := [];
    }

    method GetZones() returns (reply: Reply<Listing<Zone>>)
      modifies this`log
      ensures log == old(log) + [ListZones]
      ensures reply == ZonesReply(State())
    {
      log := log + [ListZones];
      reply := ZonesReply(State());
    }

    method GetRecords(zoneId: string) returns (reply: Reply<Listing<DnsRecord>>)
      modifies this`log
      ensures log == old(log) + [ListRecords(zoneId)]
      ensures reply == RecordsReply(State(), zoneId)
    {
      log := log + [ListRecords(zoneId)];
      reply := RecordsReply(State(), zoneId);
    }

    method PostRecord(zoneId: string, p: Payload) returns (reply: Reply<Ack>)
      modifies this`records, this`log
      ensures log == old(log) + [Create(zoneId, p)]
      ensures reply == CreateReply(old(State()), zoneId)
      ensures State() == AfterCreate(old(State()), zoneId, p)
    {
      log := log + [Create(zoneId, p)];
      reply := CreateReply(State(), zoneId);
      records := AfterCreate(State(), zoneId, p).records;
    }

    method PatchRecord(zoneId: string, recordId: string, p: Payload) returns (reply: Reply<Ack>)
      modifies this`records, this`log
      ensures log == old(log) + [Patch(zoneId, recordId, p)]
      ensures reply == PatchReply(old(State()), zoneId, recordId)
      ensures State() == AfterPatch(old(State()), zoneId, recordId, p)
    {
      log := log + [Patch(zoneId, recordId, p)];
      reply := PatchReply(State(), zoneId, recordId);
      records := AfterPatch(State(), zoneId, recordId, p).records;
    }
  }
}
