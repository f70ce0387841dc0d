/**
 * src/cloudflare.rs: `Cloudflare::update`, one GET of the record list and at most one PUT. The
 * HTTP replies are inputs; the JSON reply is given by the values `serde_json` would find under
 * the keys the code reads, None where the value is absent or of another type.
 */
module RustCloudflare {
  import opened Wrappers
  import opened Net
  import GoCloudflare

  /** A `u32`, the type `ttl` is parsed to. */
  type u32 = n: int | 0 <= n < 0x1_0000_0000

  /** `str::parse::<u32>()` and `str::parse::<bool>()`: None where Rust returns an error. */
  type U32Parser = string -> Option<u32>
  type BoolParser = string -> Option<bool>

  /** The fields of the `Cloudflare` struct, all strings (src/cloudflare.rs:7-16). */
  datatype Config = Config(
    apiKey: string,
    email: string,
    zoneId: string,
    recordType: string,
    name: string,
    domain: string,
    ttl: string,
    proxied: string)

  /** One element of the reply's `result` array: its `id` and `content` strings. */
  datatype RecordJson = RecordJson(id: Option<string>, content: Option<string>)

  /** The parts of the list reply the code reads: `success`, `result_info.count` (as a u64) and `result`. */
  datatype ListJson = ListJson(success: Option<bool>, count: Option<nat>, result: Option<seq<RecordJson>>)

  /** The GET: a transport error, a body that cannot be read, or the body, which is JSON (Some) or not (None). */
  datatype GetOutcome = GetFailed | BodyUnreadable | BodyText(json: Option<ListJson>)

  /** The PUT: a transport error, a reply whose body cannot be read, or a reply with a body. */
  datatype PutOutcome = PutFailed | PutBodyUnreadable | PutAnswered

  /** The GET request: the zone, the record type and the queried name. */
  datatype ListQuery = ListQuery(zoneId: string, recordType: string, name: string)

  datatype PutBody = PutBody(recordType: string, name: string, content: string, ttl: u32, proxied: bool)
  datatype PutRequest = PutRequest(zoneId: string, recordId: string, body: PutBody)

  /** How `update` ends: an `unwrap` panic or a returned bool. */
  datatype Outcome = Panic | Returned(value: bool)

  /** What one `update` sends and how it ends. */
  datatype UpdateRun = UpdateRun(query: ListQuery, put: Option<PutRequest>, outcome: Outcome)

  /** The name in the GET's query string: always `name.domain`. */
  function QueryName(c: Config): (name: string)
  {
    c.name + "." + c.domain
  }

  /**
   * After the gate has passed: read `result[0]`, compare its content and perhaps PUT
   * (src/cloudflare.rs:63-98), in the order the `unwrap`s are evaluated.
   */
  function CompareAndPut(c: Config, ip: IpAddress, result: Option<seq<RecordJson>>, put: PutOutcome,
                         parseU32: U32Parser, parseBool: BoolParser): (r: (Option<PutRequest>, Outcome))
  {
    if result.None? || result.value == [] then (None, Panic)
    else
      var first := result.value[0];
      if first.id.None? || first.content.None? then (None, Panic)
      else if first.content.value == ip.text then (None, Returned(false))
      else match (parseU32(c.ttl), parseBool(c.proxied))
        case (None, _) => (None, Panic)
        case (Some(_), None) => (None, Panic)
        case (Some(ttl), Some(proxied)) =>
          var req := PutRequest(c.zoneId, first.id.value, PutBody(c.recordType, c.name, ip.text, ttl, proxied));
          match put
          case PutFailed => (Some(req), Returned(false))
          case PutBodyUnreadable => (Some(req), Panic)
          case PutAnswered => (Some(req), Returned(true))
  }

  /** `Cloudflare::update` (src/cloudflare.rs:34-100). */
  function Update(c: Config, ip: IpAddress, get: GetOutcome, put: PutOutcome,
                  parseU32: U32Parser, parseBool: BoolParser): (r: UpdateRun)
  {
    var query := ListQuery(c.zoneId, c.recordType, QueryName(c));
    match get
    case GetFailed => UpdateRun(query, None, Returned(false))
    case BodyUnreadable => UpdateRun(query, None, Returned(false))
    case BodyText(json) =>
      if json.None? || json.value.success.None? then UpdateRun(query, None, Panic)
      else if !json.value.success.value then UpdateRun(query, None, Returned(false))
      else if json.value.count.None? then UpdateRun(query, None, Panic)
      else if json.value.count.value != 1 then UpdateRun(query, None, Returned(false))
      else
        var (sent, outcome) := CompareAndPut(c, ip, json.value.result, put, parseU32, parseBool);
        UpdateRun(query, sent, outcome)
  }

  /** The reply passes the gate: it reads, is JSON, says `success: true` and `count: 1`. */
  predicate GatePasses(get: GetOutcome)
  {
    get.BodyText? && get.json.Some? && get.json.value.success == Some(true) && get.json.value.count == Some(1)
  }

  /** The first listed record, when the gate has passed and it has both fields. */
  predicate FirstRecordReadable(get: GetOutcome)
  {
    GatePasses(get) && get.json.value.result.Some? && get.json.value.result.value != []
    && get.json.value.result.value[0].id.Some? && get.json.value.result.value[0].content.Some?
  }

  /**
   * A PUT is sent exactly when the gate passes, the first record reads, its content is not the
   * new address and both `ttl` and `proxied` parse; it goes to that record's id with the bare
   * name, the new address and the parsed values.
   */
  lemma PutExactlyWhenChanged(c: Config, ip: IpAddress, get: GetOutcome, put: PutOutcome,
                              parseU32: U32Parser, parseBool: BoolParser)
    ensures var r := Update(c, ip, get, put, parseU32, parseBool);
      && (r.put.Some? <==>
            FirstRecordReadable(get) && get.json.value.result.value[0].content.value != ip.text
            && parseU32(c.ttl).Some? && parseBool(c.proxied).Some?)
      && (r.put.Some? ==> r.put.value == PutRequest(c.zoneId, get.json.value.result.value[0].id.value,
                                                   PutBody(c.recordType, c.name, ip.text,
                                                           parseU32(c.ttl).value, parseBool(c.proxied).value)))
  {
  }

  /** `update` returns true exactly when a PUT was sent and answered: the reply's status and body are not looked at. */
  lemma TrueExactlyWhenPutAnswered(c: Config, ip: IpAddress, get: GetOutcome, put: PutOutcome,
                                   parseU32: U32Parser, parseBool: BoolParser)
    ensures var r := Update(c, ip, get, put, parseU32, parseBool);
      r.outcome == Returned(true) <==> r.put.Some? && put.PutAnswered?
  {
  }

  /** A GET that fails or whose body cannot be read ends the call with `false` and no PUT. */
  lemma GetFailureReturnsFalse(c: Config, ip: IpAddress, get: GetOutcome, put: PutOutcome,
                               parseU32: U32Parser, parseBool: BoolParser)
    requires get.GetFailed? || get.BodyUnreadable?
    ensures Update(c, ip, get, put, parseU32, parseBool) == UpdateRun(ListQuery(c.zoneId, c.recordType, QueryName(c)), None, Returned(false))
  {
  }

  /**
   * Unless the reply says `success: true` with `count: 1`, no PUT is sent; the call returns
   * false or, where an `unwrap` meets a missing value, panics.
   */
  lemma NoPutUnlessGatePasses(c: Config, ip: IpAddress, get: GetOutcome, put: PutOutcome,
                              parseU32: U32Parser, parseBool: BoolParser)
    requires !GatePasses(get)
    ensures var r := Update(c, ip, get, put, parseU32, parseBool);
      r.put.None? && r.outcome != Returned(true)
  {
  }

  /**
   * The panics: a body that is not JSON, a missing `success`, a missing count after `success:
   * true`, an empty or unreadable `result` after the gate, and an unparsable ttl or proxied value
   * once a PUT is due. A `success: false` reply never panics, whatever else is missing.
   */
  lemma PanicCases(c: Config, ip: IpAddress, get: GetOutcome, put: PutOutcome,
                   parseU32: U32Parser, parseBool: BoolParser)
    ensures var r := Update(c, ip, get, put, parseU32, parseBool);
      && (get.BodyText? && (get.json.None? || get.json.value.success.None?) ==> r.outcome == Panic)
      && (get.BodyText? && get.json.Some? && get.json.value.success == Some(false) ==> r.outcome == Returned(false))
      && (get.BodyText? && get.json.Some? && get.json.value.success == Some(true) && get.json.value.count.None? ==> r.outcome == Panic)
      && (GatePasses(get) && !FirstRecordReadable(get) ==> r.outcome == Panic)
      && ((FirstRecordReadable(get) && get.json.value.result.value[0].content.value != ip.text
           && (parseU32(c.ttl).None? || parseBool(c.proxied).None?)) ==> r.outcome == Panic && r.put.None?)
  {
  }

  /**
   * Unlike the Go updater, the name queried is always `name.domain`: a root record "@" is looked
   * up as "@.domain", where the Go updater asks for the domain itself.
   */
  lemma RootNameNotSpecialCased(c: Config)
    requires c.name == "@"
    ensures QueryName(c) == "@." + c.domain
    ensures GoCloudflare.Fqdn(c.name, c.domain) == c.domain
    ensures QueryName(c) != GoCloudflare.Fqdn(c.name, c.domain)
  {
    assert |QueryName(c)| == |c.domain| + 2;
  }
}
