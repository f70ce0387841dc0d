/**
 * aliyun_dns.go: the Aliyun updater. The SDK calls are inputs (`InfoOutcome` for
 * DescribeDomainRecordInfo, `AliWriteOutcome` for UpdateDomainRecord); the updater keeps the
 * last known record value in `currentIP`.
 */
module GoAliyun {
  import opened Wrappers
  import opened Net
  import opened GoConfig

  /** The immutable fields of AliyunUpdater, with the credentials and endpoint given to the SDK client. */
  datatype Settings = Settings(
    keyId: string,
    keySecret: string,
    recordId: string,
    rr: string,
    recordType: string,
    domainName: string,
    ttl: int64,
    line: string,
    endpoint: string)

  datatype InitError = ParamInvalid(cause: ParamError) | ClientFailed

  const DefaultLine := "default"
  const DefaultEndpoint := "alidns.aliyuncs.com"

  /** An optional string parameter with a default for "", absent or unusable values (the error is discarded). */
  function OptionalOr(params: Params, key: string, default: string): (v: string)
    ensures key in params && params[key].StringValue? && params[key].s != "" ==> v == params[key].s
    ensures !(key in params && params[key].StringValue? && params[key].s != "") ==> v == default
  {
    var v := StringOrEmpty(GetStringParam(params, key, false));
    if v == "" then default else v
  }

  /**
   * The checks of NewAliyunUpdater (aliyun_dns.go:27-98), in source order; `clientCreated`
   * says whether the SDK's NewClient succeeds.
   */
  function NewSettings(params: Params, parseInt: IntParser, clientCreated: bool): (r: Result<Settings, InitError>)
  {
    match GetStringParam(params, "key_id", true)
    case Err(e) => Err(ParamInvalid(e))
    case Ok(keyId) =>
    match GetStringParam(params, "key_secret", true)
    case Err(e) => Err(ParamInvalid(e))
    case Ok(keySecret) =>
    match GetStringParam(params, "record_id", true)
    case Err(e) => Err(ParamInvalid(e))
    case Ok(recordId) =>
    match GetStringParam(params, "record_rr", true)
    case Err(e) => Err(ParamInvalid(e))
    case Ok(rr) =>
    match GetStringParam(params, "record_type", true)
    case Err(e) => Err(ParamInvalid(e))
    case Ok(recordType) =>
    match GetStringParam(params, "domain_name", true)
    case Err(e) => Err(ParamInvalid(e))
    case Ok(domainName) =>
    match GetStringParam(params, "record_ttl", true)
    case Err(e) => Err(ParamInvalid(e))
    case Ok(ttlStr) =>
    match parseInt(ttlStr)
    case None => Err(ParamInvalid(Unparsable("record_ttl", ttlStr)))
    case Some(ttl) =>
    var line := OptionalOr(params, "record_line", DefaultLine);
    var endpoint := OptionalOr(params, "endpoint", DefaultEndpoint);
    if !clientCreated then Err(ClientFailed)
    else Ok(Settings(keyId, keySecret, recordId, rr, recordType, domainName, ttl, line, endpoint))
  }

  /** The seven keys NewAliyunUpdater requires. */
  predicate RequiredKeysPresent(params: Params)
  {
    forall k :: k in ["key_id", "key_secret", "record_id", "record_rr", "record_type", "domain_name", "record_ttl"] ==>
      k in params && params[k].StringValue?
  }

  /**
   * Construction succeeds exactly when the seven required keys hold strings, `record_ttl` parses as
   * a decimal int64 and the SDK client is created; `record_line` and `endpoint` fall back to their
   * defaults when absent, empty or not strings.
   */
  lemma NewSettingsCases(params: Params, parseInt: IntParser, clientCreated: bool)
    ensures var r := NewSettings(params, parseInt, clientCreated);
      (r.Ok? <==> RequiredKeysPresent(params) && parseInt(params["record_ttl"].s).Some? && clientCreated)
      && (r.Ok? ==> r.value == Settings(params["key_id"].s, params["key_secret"].s, params["record_id"].s,
                                         params["record_rr"].s, params["record_type"].s, params["domain_name"].s,
                                         parseInt(params["record_ttl"].s).value,
                                         OptionalOr(params, "record_line", DefaultLine),
                                         OptionalOr(params, "endpoint", DefaultEndpoint)))
  {
    var keys := ["key_id", "key_secret", "record_id", "record_rr", "record_type", "domain_name", "record_ttl"];
    if !RequiredKeysPresent(params) {
      var k :| k in keys && !(k in params && params[k].StringValue?);
      assert k == keys[0] || k == keys[1] || k == keys[2] || k == keys[3] || k == keys[4] || k == keys[5] || k == keys[6];
    }
  }

  /** A TTL given as a TOML integer is refused: record_ttl must be a string holding a decimal number. */
  lemma IntegerTtlRefused(params: Params, parseInt: IntParser, clientCreated: bool)
    requires "record_ttl" in params && params["record_ttl"].Int64Value?
    ensures NewSettings(params, parseInt, clientCreated).Err?
  {
  }

  // -----------------------------------------------------------------------------------------
  // fetchCurrentRecordIP

  datatype InfoBody = InfoBody(value: Option<string>)
  datatype InfoResponse = InfoResponse(body: Option<InfoBody>)
  /** DescribeDomainRecordInfo: an SDK error, or a (possibly nil) response. */
  datatype InfoOutcome = InfoCallFailed | InfoReturned(response: Option<InfoResponse>)

  datatype FetchError = DescribeFailed | ValueUnknown

  /** fetchCurrentRecordIP (aliyun_dns.go:102-128): the record's value, or an error when the call fails or anything on the way is nil. */
  function FetchCurrentRecordIP(info: InfoOutcome): (r: Result<string, FetchError>)
    ensures r.Ok? <==>
      info.InfoReturned? && info.response.Some? && info.response.value.body.Some? && info.response.value.body.value.value.Some?
    ensures r.Ok? ==> r.value == info.response.value.body.value.value.value
  {
    match info
    case InfoCallFailed => Err(DescribeFailed)
    case InfoReturned(response) =>
      if response.Some? && response.value.body.Some? && response.value.body.value.value.Some? then
        Ok(response.value.body.value.value.value)
      else Err(ValueUnknown)
  }

  // -----------------------------------------------------------------------------------------
  // Update

  /** UpdateDomainRecordRequest. */
  datatype UpdateRequest = UpdateRequest(recordId: string, rr: string, recordType: string, value: string, ttl: int64, line: string)

  /** UpdateDomainRecord: success, an SDK error with its message, or another error. */
  datatype AliWriteOutcome = WriteOk | SdkError(message: string) | OtherError

  datatype UpdateError = ApiError(message: string) | UpdateFailed

  datatype UpdateResult = UpdateResult(updated: bool, err: Option<UpdateError>, sent: Option<UpdateRequest>, currentIP: string)

  /** The IP compared against: a fetched value replaces the cached one, a failed fetch keeps the cache. */
  function KnownIP(currentIP: string, info: InfoOutcome): (known: string)
  {
    match FetchCurrentRecordIP(info)
    case Ok(remote) => remote
    case Err(_) => currentIP
  }

  function RequestFor(s: Settings, newIP: IpAddress): (req: UpdateRequest)
  {
    UpdateRequest(s.recordId, s.rr, s.recordType, newIP.text, s.ttl, s.line)
  }

  /** Update (aliyun_dns.go:131-185). */
  function UpdateStep(s: Settings, currentIP: string, newIP: IpAddress, info: InfoOutcome, write: AliWriteOutcome): (r: UpdateResult)
  {
    var known := KnownIP(currentIP, info);
    if known == newIP.text then UpdateResult(false, None, None, known)
    else
      var req := Some(RequestFor(s, newIP));
      match write
      case WriteOk => UpdateResult(true, None, req, newIP.text)
      case SdkError(message) => UpdateResult(false, Some(ApiError(message)), req, known)
      case OtherError => UpdateResult(false, Some(UpdateFailed), req, known)
  }

  /**
   * No write exactly when the known IP (fetched, or the cached one if the fetch failed) is the new
   * address, then `(false, nil)`; otherwise the request carries the record's settings and the new
   * address, a write error returns `(false, err)` and keeps the known IP, and success stores the
   * new address and returns `(true, nil)`.
   */
  lemma UpdateStepCases(s: Settings, currentIP: string, newIP: IpAddress, info: InfoOutcome, write: AliWriteOutcome)
    ensures var known := KnownIP(currentIP, info);
      var r := UpdateStep(s, currentIP, newIP, info, write);
      && (r.sent.None? <==> known == newIP.text)
      && (r.sent.None? ==> !r.updated && r.err.None? && r.currentIP == known)
      && (r.sent.Some? ==> r.sent.value == UpdateRequest(s.recordId, s.rr, s.recordType, newIP.text, s.ttl, s.line))
      && (r.sent.Some? && write.WriteOk? ==> r.updated && r.err.None? && r.currentIP == newIP.text)
      && (r.sent.Some? && !write.WriteOk? ==> !r.updated && r.err.Some? && r.currentIP == known)
  {
  }

  /** A failed fetch falls back to the cached IP; a successful one overrides it. */
  lemma KnownIPCases(currentIP: string, info: InfoOutcome)
    ensures FetchCurrentRecordIP(info).Err? ==> KnownIP(currentIP, info) == currentIP
    ensures FetchCurrentRecordIP(info).Ok? ==> KnownIP(currentIP, info) == FetchCurrentRecordIP(info).value
  {
  }

  /**
   * Before any update the cache is "" (never an address text IP.String() produces, which the
   * precondition says), so a first Update whose fetch fails still writes.
   */
  lemma FirstUpdateWithFailedFetchWrites(s: Settings, newIP: IpAddress, write: AliWriteOutcome)
    requires newIP.text != ""
    ensures UpdateStep(s, "", newIP, InfoCallFailed, write).sent.Some?
  {
  }

  /**
   * After a successful write, an Update for the same address whose fetch fails sends nothing,
   * even if the record was changed elsewhere meanwhile: the stale cache decides.
   */
  lemma StaleCacheSuppressesWrite(s: Settings, currentIP: string, newIP: IpAddress, info1: InfoOutcome,
                                  info2: InfoOutcome, write2: AliWriteOutcome)
    requires FetchCurrentRecordIP(info2).Err?
    ensures var r1 := UpdateStep(s, currentIP, newIP, info1, WriteOk);
      UpdateStep(s, r1.currentIP, newIP, info2, write2).sent.None?
  {
  }

  class AliyunUpdater {
    const settings: Settings
    var currentIP: string

    /** The object NewAliyunUpdater builds: no IP known yet. */
    constructor (s: Settings)
      ensures settings == s && currentIP == ""
    {
      settings := s;
      currentIP := "";
    }

    /** Update (aliyun_dns.go:131-185), stepwise on `currentIP`. */
    method Update(newIP: IpAddress, info: InfoOutcome, write: AliWriteOutcome)
      returns (updated: bool, err: Option<UpdateError>, sent: Option<UpdateRequest>)
      modifies this
      ensures UpdateResult(updated, err, sent, currentIP) == UpdateStep(settings, old(currentIP), newIP, info, write)
    {
      var newIPStr := newIP.text;
      var remote := FetchCurrentRecordIP(info);
      if remote.Ok? {
        currentIP := remote.value;
      }
      if currentIP == newIPStr {
        return false, None, None;
      }
      var request := UpdateRequest(settings.recordId, settings.rr, settings.recordType, newIPStr, settings.ttl, settings.line);
      sent := Some(request);
      match write
      case SdkError(message) =>
        return false, Some(ApiError(message)), sent;
      case OtherError =>
        return false, Some(UpdateFailed), sent;
      case WriteOk =>
        currentIP := newIPStr;
        return true, None, sent;
    }
  }

  /** NewAliyunUpdater (aliyun_dns.go:27-98). */
  method NewAliyunUpdater(params: Params, parseInt: IntParser, clientCreated: bool)
    returns (r: Result<AliyunUpdater, InitError>)
    ensures r.Ok? <==> NewSettings(params, parseInt, clientCreated).Ok?
    ensures r.Err? ==> r.error == NewSettings(params, parseInt, clientCreated).error
    ensures r.Ok? ==> fresh(r.value) && r.value.settings == NewSettings(params, parseInt, clientCreated).value
    ensures r.Ok? ==> r.value.currentIP == ""
  {
    match NewSettings(params, parseInt, clientCreated)
    case Err(e) => return Err(e);
    case Ok(s) =>
      var u := new AliyunUpdater(s);
      return Ok(u);
  }
}
