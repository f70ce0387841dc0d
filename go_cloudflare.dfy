/**
 * cloudflare_dns.go: the Cloudflare updater. The HTTP exchanges are inputs (`ListOutcome`,
 * `WriteOutcome`); each decision returns the request it would send and the new cached state
 * (`dnsRecordID`, `currentIP`).
 */
module GoCloudflare {
  import opened Wrappers
  import opened Net
  import opened GoConfig

  /** The immutable fields of CloudflareUpdater. */
  datatype Settings = Settings(
    apiKey: string,
    email: string,
    zoneID: string,
    recordType: string,
    recordName: string,
    domain: string,
    ttl: int64,
    proxied: bool)

  /** The fields the updater rewrites: the record id and the IP last seen at Cloudflare. */
  datatype Cache = Cache(dnsRecordID: string, currentIP: string)

  /** The parameter checks of NewCloudflareUpdater (cloudflare_dns.go:76-111), in source order. */
  function NewSettings(params: Params, parseInt: IntParser, parseBool: BoolParser): (r: Result<Settings, ParamError>)
    ensures r.Ok? <==>
      && GetStringParam(params, "api_key", true).Ok?
      && GetStringParam(params, "email", true).Ok?
      && GetStringParam(params, "zone_id", true).Ok?
      && GetStringParam(params, "record_type", true).Ok?
      && GetStringParam(params, "record_name", true).Ok?
      && GetStringParam(params, "domain", true).Ok?
      && GetInt64Param(params, "record_ttl", true, parseInt).Ok?
      && GetBoolParam(params, "record_proxied", true, parseBool).Ok?
    ensures r.Ok? ==> r.value == Settings(
      GetStringParam(params, "api_key", true).value,
      GetStringParam(params, "email", true).value,
      GetStringParam(params, "zone_id", true).value,
      GetStringParam(params, "record_type", true).value,
      GetStringParam(params, "record_name", true).value,
      GetStringParam(params, "domain", true).value,
      GetInt64Param(params, "record_ttl", true, parseInt).value,
      GetBoolParam(params, "record_proxied", true, parseBool).value)
  {
    match GetStringParam(params, "api_key", true)
    case Err(e) => Err(e)
    case Ok(apiKey) =>
    match GetStringParam(params, "email", true)
    case Err(e) => Err(e)
    case Ok(email) =>
    match GetStringParam(params, "zone_id", true)
    case Err(e) => Err(e)
    case Ok(zoneID) =>
    match GetStringParam(params, "record_type", true)
    case Err(e) => Err(e)
    case Ok(recordType) =>
    match GetStringParam(params, "record_name", true)
    case Err(e) => Err(e)
    case Ok(recordName) =>
    match GetStringParam(params, "domain", true)
    case Err(e) => Err(e)
    case Ok(domain) =>
    match GetInt64Param(params, "record_ttl", true, parseInt)
    case Err(e) => Err(e)
    case Ok(ttl) =>
    match GetBoolParam(params, "record_proxied", true, parseBool)
    case Err(e) => Err(e)
    case Ok(proxied) =>
    Ok(Settings(apiKey, email, zoneID, recordType, recordName, domain, ttl, proxied))
  }

  /** A required parameter that is absent makes the constructor fail. */
  lemma MissingParamFails(params: Params, parseInt: IntParser, parseBool: BoolParser, key: string)
    requires key in {"api_key", "email", "zone_id", "record_type", "record_name", "domain", "record_ttl", "record_proxied"}
    requires key !in params
    ensures NewSettings(params, parseInt, parseBool).Err?
  {
  }

  /** The name Cloudflare is asked about: `recordName.domain`, or `domain` for the root record. */
  function Fqdn(recordName: string, domain: string): (fqdn: string)
  {
    if recordName == "@" || recordName == domain then domain else recordName + "." + domain
  }

  /** The FQDN always ends with the domain, and a non-root name is kept in front of it. */
  lemma FqdnShape(recordName: string, domain: string)
    ensures var name := Fqdn(recordName, domain);
      |name| >= |domain| && name[|name| - |domain|..] == domain
      && (recordName != "@" && recordName != domain ==> name[..|recordName|] == recordName && name[|recordName|] == '.')
  {
  }

  // -----------------------------------------------------------------------------------------
  // fetchDNSRecordDetails

  /** The list query: zone, record type and FQDN. */
  datatype ListQuery = ListQuery(zoneID: string, recordType: string, name: string)

  datatype ListedRecord = ListedRecord(id: string, content: string)
  /** The JSON envelope of the list call, as far as it is read. */
  datatype ListEnvelope = ListEnvelope(success: bool, result: seq<ListedRecord>)

  /** How the list call ended: no reply (request, transport or body read failed), or a status and a body that decoded or not. */
  datatype ListOutcome = ListFailed | ListReply(status: int, envelope: Option<ListEnvelope>)

  datatype FetchError = FetchRequestFailed | FetchStatus(status: int) | FetchUndecodable | FetchNotSuccessful

  datatype FetchResult = FetchResult(err: Option<FetchError>, cache: Cache)

  /** fetchDNSRecordDetails (cloudflare_dns.go:136-191) on the list call's outcome. */
  function FetchStep(c: Cache, reply: ListOutcome): (r: FetchResult)
  {
    match reply
    case ListFailed => FetchResult(Some(FetchRequestFailed), c)
    case ListReply(status, envelope) =>
      if status != 200 then FetchResult(Some(FetchStatus(status)), c)
      else if envelope.None? then FetchResult(Some(FetchUndecodable), c)
      else if !envelope.value.success then FetchResult(Some(FetchNotSuccessful), c)
      else if |envelope.value.result| == 0 then FetchResult(None, Cache("", ""))
      else FetchResult(None, Cache(envelope.value.result[0].id, envelope.value.result[0].content))
  }

  /** A successful list: 200, decodable and `success` set. */
  predicate ListSucceeded(reply: ListOutcome)
  {
    reply.ListReply? && reply.status == 200 && reply.envelope.Some? && reply.envelope.value.success
  }

  /**
   * A failed list leaves the cache as it was; a successful one clears it when nothing is found
   * and otherwise stores the first record's id and content.
   */
  lemma FetchStepCases(c: Cache, reply: ListOutcome)
    ensures FetchStep(c, reply).err.None? <==> ListSucceeded(reply)
    ensures !ListSucceeded(reply) ==> FetchStep(c, reply).cache == c
    ensures ListSucceeded(reply) && reply.envelope.value.result == [] ==> FetchStep(c, reply).cache == Cache("", "")
    ensures ListSucceeded(reply) && reply.envelope.value.result != [] ==>
      FetchStep(c, reply).cache == Cache(reply.envelope.value.result[0].id, reply.envelope.value.result[0].content)
  {
  }

  // -----------------------------------------------------------------------------------------
  // Update

  /** The JSON body of the write: `{type, name, content, ttl, proxied}`. */
  datatype Payload = Payload(recordType: string, name: string, content: string, ttl: int64, proxied: bool)

  /** POST to the zone's record collection, or PUT to one record's URL. */
  datatype WriteRequest =
    | Create(zoneID: string, payload: Payload)
    | Replace(zoneID: string, recordID: string, payload: Payload)

  datatype WrittenRecord = WrittenRecord(id: string, content: string)
  datatype WriteEnvelope = WriteEnvelope(success: bool, result: WrittenRecord)

  /** How the write ended: no reply (transport or body read failed), or a status and a body that decoded or not. */
  datatype WriteOutcome = WriteFailed | WriteReply(status: int, envelope: Option<WriteEnvelope>)

  datatype UpdateError = WriteTransport | WriteStatus(status: int) | WriteUndecodable | WriteNotSuccessful

  /** What Update returns, what it sent, and the cache it leaves. */
  datatype UpdateResult = UpdateResult(updated: bool, err: Option<UpdateError>, sent: Option<WriteRequest>, cache: Cache)

  predicate WriteSucceeded(write: WriteOutcome)
  {
    write.WriteReply? && write.status == 200 && write.envelope.Some? && write.envelope.value.success
  }

  /** The payload Update sends for an address. */
  function PayloadFor(s: Settings, newIP: IpAddress): (payload: Payload)
  {
    Payload(s.recordType, Fqdn(s.recordName, s.domain), newIP.text, s.ttl, s.proxied)
  }

  /** The request for a cache state: POST when no record id is known, PUT otherwise. */
  function RequestFor(s: Settings, c: Cache, newIP: IpAddress): (req: WriteRequest)
  {
    if c.dnsRecordID == "" then Create(s.zoneID, PayloadFor(s, newIP))
    else Replace(s.zoneID, c.dnsRecordID, PayloadFor(s, newIP))
  }

  /**
   * Update (cloudflare_dns.go:194-287): re-fetch (its error is ignored), no write when the known
   * record already holds the address, otherwise POST or PUT and take the reply into the cache.
   */
  function UpdateStep(s: Settings, c: Cache, newIP: IpAddress, refetch: ListOutcome, write: WriteOutcome): (r: UpdateResult)
  {
    var f := FetchStep(c, refetch).cache;
    if f.dnsRecordID != "" && f.currentIP == newIP.text then UpdateResult(false, None, None, f)
    else
      var req := Some(RequestFor(s, f, newIP));
      match write
      case WriteFailed => UpdateResult(false, Some(WriteTransport), req, f)
      case WriteReply(status, envelope) =>
        if status != 200 then UpdateResult(false, Some(WriteStatus(status)), req, f)
        else if envelope.None? then UpdateResult(false, Some(WriteUndecodable), req, f)
        else if !envelope.value.success then UpdateResult(false, Some(WriteNotSuccessful), req, f)
        else
          var w := envelope.value.result;
          UpdateResult(true, None, req,
                       Cache(if f.dnsRecordID == "" then w.id else f.dnsRecordID, w.content))
  }

  /**
   * No write is issued exactly when, after the re-fetch, a record id is known and its IP is the
   * new address; then the result is `(false, nil)`.
   */
  lemma NoWriteExactlyWhenCurrent(s: Settings, c: Cache, newIP: IpAddress, refetch: ListOutcome, write: WriteOutcome)
    ensures var f := FetchStep(c, refetch).cache;
      var r := UpdateStep(s, c, newIP, refetch, write);
      (r.sent.None? <==> (f.dnsRecordID != "" && f.currentIP == newIP.text))
      && (r.sent.None? ==> !r.updated && r.err.None? && r.cache == f)
  {
  }

  /** A write goes to the zone collection (POST) without a known id, to the id's URL (PUT) with one, and carries the payload. */
  lemma WriteTarget(s: Settings, c: Cache, newIP: IpAddress, refetch: ListOutcome, write: WriteOutcome)
    ensures var f := FetchStep(c, refetch).cache;
      var r := UpdateStep(s, c, newIP, refetch, write);
      r.sent.Some? ==>
        && (r.sent.value.Create? <==> f.dnsRecordID == "")
        && r.sent.value.zoneID == s.zoneID
        && (r.sent.value.Replace? ==> r.sent.value.recordID == f.dnsRecordID)
        && r.sent.value.payload == Payload(s.recordType, Fqdn(s.recordName, s.domain), newIP.text, s.ttl, s.proxied)
  {
  }

  /**
   * A failed write returns `(false, err)` and keeps the re-fetched cache; a successful one returns
   * `(true, nil)`, stores the reply's content, and takes the reply's id only if none was known.
   */
  lemma WriteResult(s: Settings, c: Cache, newIP: IpAddress, refetch: ListOutcome, write: WriteOutcome)
    ensures var f := FetchStep(c, refetch).cache;
      var r := UpdateStep(s, c, newIP, refetch, write);
      r.sent.Some? ==>
        && (r.updated <==> WriteSucceeded(write))
        && (r.updated <==> r.err.None?)
        && (!WriteSucceeded(write) ==> r.cache == f)
        && (WriteSucceeded(write) ==>
              r.cache.currentIP == write.envelope.value.result.content
              && r.cache.dnsRecordID == (if f.dnsRecordID == "" then write.envelope.value.result.id else f.dnsRecordID))
  {
  }

  /** Update never reports both a change and an error. */
  lemma UpdatedMeansNoError(s: Settings, c: Cache, newIP: IpAddress, refetch: ListOutcome, write: WriteOutcome)
    ensures var r := UpdateStep(s, c, newIP, refetch, write);
      r.updated ==> r.err.None? && r.sent.Some?
  {
  }

  /**
   * Once a write has been acknowledged with the new address and a record id is known, a later
   * Update for the same address whose re-fetch fails (or lists that same record) sends nothing.
   */
  lemma {:induction false} SecondUpdateSendsNothing(s: Settings, c: Cache, newIP: IpAddress,
                                                    refetch1: ListOutcome, write1: WriteOutcome,
                                                    refetch2: ListOutcome, write2: WriteOutcome)
    requires var r1 := UpdateStep(s, c, newIP, refetch1, write1);
      r1.updated && r1.cache.dnsRecordID != "" && write1.envelope.value.result.content == newIP.text
    requires refetch2 == ListFailed ||
      refetch2 == ListReply(200, Some(ListEnvelope(true, [ListedRecord(UpdateStep(s, c, newIP, refetch1, write1).cache.dnsRecordID, newIP.text)])))
    ensures var r1 := UpdateStep(s, c, newIP, refetch1, write1);
      var r2 := UpdateStep(s, r1.cache, newIP, refetch2, write2);
      r2.sent.None? && !r2.updated && r2.err.None?
  {
    var r1 := UpdateStep(s, c, newIP, refetch1, write1);
    WriteResult(s, c, newIP, refetch1, write1);
    NoWriteExactlyWhenCurrent(s, r1.cache, newIP, refetch2, write2);
  }

  // -----------------------------------------------------------------------------------------
  // The updater object

  class CloudflareUpdater {
    const settings: Settings
    var currentIP: string
    var dnsRecordID: string

    function CacheState(): (c: Cache)
      reads this
    {
      Cache(dnsRecordID, currentIP)
    }

    /** The object NewCloudflareUpdater builds, including its initial fetch, whose error is only logged. */
    constructor (s: Settings, initial: ListOutcome)
      ensures settings == s
      ensures CacheState() == FetchStep(Cache("", ""), initial).cache
    {
      settings := s;
      currentIP := "";
      dnsRecordID := "";
      new;
      var _, _ := FetchDNSRecordDetails(initial);
    }

    /** fetchDNSRecordDetails (cloudflare_dns.go:136-191): the query it sends and the fields it rewrites. */
    method FetchDNSRecordDetails(reply: ListOutcome) returns (query: ListQuery, err: Option<FetchError>)
      modifies this
      ensures query == ListQuery(settings.zoneID, settings.recordType, Fqdn(settings.recordName, settings.domain))
      ensures FetchResult(err, CacheState()) == FetchStep(old(CacheState()), reply)
    {
      var fqdn := settings.recordName + "." + settings.domain;
      if settings.recordName == "@" || settings.recordName == settings.domain {
        fqdn := settings.domain;
      }
      query := ListQuery(settings.zoneID, settings.recordType, fqdn);
      match reply
      case ListFailed =>
        return query, Some(FetchRequestFailed);
      case ListReply(status, envelope) =>
        if status != 200 {
          return query, Some(FetchStatus(status));
        }
        if envelope.None? {
          return query, Some(FetchUndecodable);
        }
        if !envelope.value.success {
          return query, Some(FetchNotSuccessful);
        }
        if |envelope.value.result| == 0 {
          dnsRecordID := "";
          currentIP := "";
          return query, None;
        }
        var record := envelope.value.result[0];
        dnsRecordID := record.id;
        currentIP := record.content;
        return query, None;
    }

    /**
     * Update (cloudflare_dns.go:194-287), stepwise on the object's fields. `query` is the list
     * request of the re-fetch every call sends first; `sent` is the write, if any.
     */
    method Update(newIP: IpAddress, refetch: ListOutcome, write: WriteOutcome)
      returns (updated: bool, err: Option<UpdateError>, sent: Option<WriteRequest>, query: ListQuery)
      modifies this
      ensures query == ListQuery(settings.zoneID, settings.recordType, Fqdn(settings.recordName, settings.domain))
      ensures UpdateResult(updated, err, sent, CacheState()) == UpdateStep(settings, old(CacheState()), newIP, refetch, write)
    {
      var newIPStr := newIP.text;
      var fetchErr;
      query, fetchErr := FetchDNSRecordDetails(refetch);
      if dnsRecordID != "" && currentIP == newIPStr {
        return false, None, None, query;
      }
      var fqdn := Fqdn(settings.recordName, settings.domain);
      var payload := Payload(settings.recordType, fqdn, newIPStr, settings.ttl, settings.proxied);
      if dnsRecordID == "" {
        sent := Some(Create(settings.zoneID, payload));
      } else {
        sent := Some(Replace(settings.zoneID, dnsRecordID, payload));
      }
      match write
      case WriteFailed =>
        return false, Some(WriteTransport), sent, query;
      case WriteReply(status, envelope) =>
        if status != 200 {
          return false, Some(WriteStatus(status)), sent, query;
        }
        if envelope.None? {
          return false, Some(WriteUndecodable), sent, query;
        }
        if !envelope.value.success {
          return false, Some(WriteNotSuccessful), sent, query;
        }
        currentIP := envelope.value.result.content;
        if dnsRecordID == "" {
          dnsRecordID := envelope.value.result.id;
        }
        return true, None, sent, query;
    }
  }

  /**
   * NewCloudflareUpdater (cloudflare_dns.go:76-134): any parameter error fails construction, a
   * failed initial fetch does not.
   */
  method NewCloudflareUpdater(params: Params, parseInt: IntParser, parseBool: BoolParser, initial: ListOutcome)
    returns (r: Result<CloudflareUpdater, ParamError>)
    ensures r.Ok? <==> NewSettings(params, parseInt, parseBool).Ok?
    ensures r.Err? ==> r.error == NewSettings(params, parseInt, parseBool).error
    ensures r.Ok? ==> fresh(r.value) && r.value.settings == NewSettings(params, parseInt, parseBool).value
    ensures r.Ok? ==> r.value.CacheState() == FetchStep(Cache("", ""), initial).cache
  {
    match NewSettings(params, parseInt, parseBool)
    case Err(e) => return Err(e);
    case Ok(s) =>
      var u := new CloudflareUpdater(s, initial);
      return Ok(u);
  }
}
