/**
 * src/d2k_core/cloudflare.rs: the same GET-gate-compare-PUT as src/cloudflare.rs, over the
 * `Record` enum of src/d2k_core/Record.rs, returning nothing. The replies use the types of
 * RustCloudflare.
 */
module RustCoreCloudflare {
  import opened Wrappers
  import opened Net
  import RC = RustCloudflare

  /** `Record`: an IPv4 address for an A record, an IPv6 address for an AAAA record. */
  datatype Record = A(v4: IpAddress) | AAAA(v6: IpAddress)

  /** The fields of this `Cloudflare` struct (src/d2k_core/cloudflare.rs:10-20): `dnsType` is `type_`; `recordType` is never read. */
  datatype Config = Config(
    email: string,
    key: string,
    zones: string,
    dnsType: string,
    name: string,
    domain: string,
    ttl: string,
    proxied: string,
    recordType: string)

  /** The content the record should have: the address's string form (src/d2k_core/cloudflare.rs:53-57). */
  function DesiredContent(record: Record): (content: string)
    ensures record.A? ==> content == record.v4.text
    ensures record.AAAA? ==> content == record.v6.text
  {
    match record
    case A(ip) => ip.text
    case AAAA(ip) => ip.text
  }

  /** How `update` ends: it returns nothing, or panics. */
  datatype Outcome = Panic | Returned

  datatype UpdateRun = UpdateRun(query: RC.ListQuery, put: Option<RC.PutRequest>, outcome: Outcome)

  /** `Cloudflare::update` (src/d2k_core/cloudflare.rs:23-86). */
  function Update(c: Config, record: Record, get: RC.GetOutcome, put: RC.PutOutcome,
                  parseU32: RC.U32Parser, parseBool: RC.BoolParser): (r: UpdateRun)
  {
    var query := RC.ListQuery(c.zones, c.dnsType, c.name + "." + c.domain);
    match get
    case GetFailed => UpdateRun(query, None, Returned)
    case BodyUnreadable => UpdateRun(query, None, Panic)
    case BodyText(json) =>
      if json.None? || json.value.success.None? then UpdateRun(query, None, Panic)
      else if !json.value.success.value then UpdateRun(query, None, Returned)
      else if json.value.count.None? then UpdateRun(query, None, Panic)
      else if json.value.count.value != 1 then UpdateRun(query, None, Returned)
      else
        var result := json.value.result;
        if result.None? || result.value == [] then UpdateRun(query, None, Panic)
        else
          var first := result.value[0];
          if first.id.None? || first.content.None? then UpdateRun(query, None, Panic)
          else
            var current := DesiredContent(record);
            if first.content.value == current then UpdateRun(query, None, Returned)
            else match (parseU32(c.ttl), parseBool(c.proxied))
              case (None, _) => UpdateRun(query, None, Panic)
              case (Some(_), None) => UpdateRun(query, None, Panic)
              case (Some(ttl), Some(proxied)) =>
                var req := RC.PutRequest(c.zones, first.id.value, RC.PutBody(c.dnsType, c.name, current, ttl, proxied));
                match put
                case PutFailed => UpdateRun(query, Some(req), Returned)
                case PutBodyUnreadable => UpdateRun(query, Some(req), Panic)
                case PutAnswered => UpdateRun(query, Some(req), Returned)
  }

  /** The src/cloudflare.rs updater with the same fields. */
  function AsCloudflareRs(c: Config): (rs: RC.Config)
  {
    RC.Config(c.key, c.email, c.zones, c.dnsType, c.name, c.domain, c.ttl, c.proxied)
  }

  /** The address a record carries, as src/cloudflare.rs receives it. */
  function AddressOf(record: Record): (ip: IpAddress)
  {
    match record
    case A(ip) => ip
    case AAAA(ip) => ip
  }

  /**
   * Both Rust updaters send the same GET and the same PUT, for every reply; they end alike except
   * that an unreadable GET body panics here and returns false there, and that a returned bool
   * here is only a return.
   */
  lemma AgreesWithCloudflareRs(c: Config, record: Record, get: RC.GetOutcome, put: RC.PutOutcome,
                               parseU32: RC.U32Parser, parseBool: RC.BoolParser)
    ensures var core := Update(c, record, get, put, parseU32, parseBool);
      var rs := RC.Update(AsCloudflareRs(c), AddressOf(record), get, put, parseU32, parseBool);
      && core.query == rs.query
      && core.put == rs.put
      && (get.BodyUnreadable? ==> core.outcome == Panic && rs.outcome == RC.Returned(false))
      && (!get.BodyUnreadable? ==> (core.outcome == Panic <==> rs.outcome == RC.Panic))
  {
  }

  /**
   * A PUT is sent exactly when the gate passes, the first record reads, its content differs
   * from the record's address and ttl and proxied parse; its body carries the bare name and
   * that address.
   */
  lemma PutOnlyWhenContentDiffers(c: Config, record: Record, get: RC.GetOutcome, put: RC.PutOutcome,
                                  parseU32: RC.U32Parser, parseBool: RC.BoolParser)
    ensures var r := Update(c, record, get, put, parseU32, parseBool);
      && (r.put.Some? <==>
            RC.FirstRecordReadable(get) && get.json.value.result.value[0].content.value != DesiredContent(record)
            && parseU32(c.ttl).Some? && parseBool(c.proxied).Some?)
      && (r.put.Some? ==> r.put.value == RC.PutRequest(c.zones, get.json.value.result.value[0].id.value,
                                                      RC.PutBody(c.dnsType, c.name, DesiredContent(record),
                                                                 parseU32(c.ttl).value, parseBool(c.proxied).value)))
  {
    AgreesWithCloudflareRs(c, record, get, put, parseU32, parseBool);
    RC.PutExactlyWhenChanged(AsCloudflareRs(c), AddressOf(record), get, put, parseU32, parseBool);
  }

  /** A failed GET returns with no PUT; a GET whose body cannot be read panics. */
  lemma GetFailureSendsNothing(c: Config, record: Record, get: RC.GetOutcome, put: RC.PutOutcome,
                               parseU32: RC.U32Parser, parseBool: RC.BoolParser)
    requires get.GetFailed? || get.BodyUnreadable?
    ensures var r := Update(c, record, get, put, parseU32, parseBool);
      r.put.None? && (r.outcome == Returned <==> get.GetFailed?)
  {
  }
}
