/**
 * config.go: the typed `api_param` lookups and the check-interval default applied by ReadConfig.
 * TOML decoding and file reading are inputs; `strconv.ParseInt(s, 10, 64)` and
 * `strconv.ParseBool` are passed in as given partial functions.
 */
module GoConfig {
  import opened Wrappers

  newtype int64 = x: int | -0x8000_0000_0000_0000 <= x < 0x8000_0000_0000_0000

  /** An `api_param` value as Go sees it behind `interface{}` after TOML decoding. */
  datatype ParamValue =
    | StringValue(s: string)
    | Int64Value(n: int64)
    | BoolValue(b: bool)
    | OtherValue(goType: string)   // arrays, tables, floats, dates, ...

  type Params = map<string, ParamValue>

  /** Why a lookup failed; the formatted Go messages are not modelled. */
  datatype ParamError =
    | Missing(key: string)
    | WrongType(key: string)
    | Unparsable(key: string, text: string)

  /** `strconv.ParseInt(s, 10, 64)`: None where Go returns an error. */
  type IntParser = string -> Option<int64>
  /** `strconv.ParseBool`: None where Go returns an error. */
  type BoolParser = string -> Option<bool>

  /** getStringParam (config.go:55-68). On error Go also returns "", see `StringOrEmpty`. */
  function GetStringParam(params: Params, key: string, required: bool): (r: Result<string, ParamError>)
    ensures r.Ok? <==> (key in params && params[key].StringValue?) || (key !in params && !required)
    ensures r.Ok? ==> r.value == (if key in params then params[key].s else "")
    ensures r.Err? ==> r.error == (if key in params then WrongType(key) else Missing(key))
  {
    if key !in params then
      if required then Err(Missing(key)) else Ok("")
    else
      match params[key]
      case StringValue(s) => Ok(s)
      case _ => Err(WrongType(key))
  }

  /** The string Go's getStringParam returns beside its error: "" whenever the lookup fails. */
  function StringOrEmpty(r: Result<string, ParamError>): (s: string)
  {
    if r.Ok? then r.value else ""
  }

  /** getInt64Param (config.go:71-92). */
  function GetInt64Param(params: Params, key: string, required: bool, parseInt: IntParser): (r: Result<int64, ParamError>)
    ensures key !in params ==> r == (if required then Err(Missing(key)) else Ok(0 as int64))
    ensures key in params && params[key].Int64Value? ==> r == Ok(params[key].n)
    ensures key in params && params[key].StringValue? ==>
      r == (if parseInt(params[key].s).Some? then Ok(parseInt(params[key].s).value)
            else Err(Unparsable(key, params[key].s)))
    ensures key in params && (params[key].BoolValue? || params[key].OtherValue?) ==> r == Err(WrongType(key))
  {
    if key !in params then
      if required then Err(Missing(key)) else Ok(0 as int64)
    else
      match params[key]
      case Int64Value(n) => Ok(n)
      case StringValue(s) =>
        (match parseInt(s)
         case Some(i) => Ok(i)
         case None => Err(Unparsable(key, s)))
      case _ => Err(WrongType(key))
  }

  /** getBoolParam (config.go:95-117). */
  function GetBoolParam(params: Params, key: string, required: bool, parseBool: BoolParser): (r: Result<bool, ParamError>)
    ensures key !in params ==> r == (if required then Err(Missing(key)) else Ok(false))
    ensures key in params && params[key].BoolValue? ==> r == Ok(params[key].b)
    ensures key in params && params[key].StringValue? ==>
      r == (if parseBool(params[key].s).Some? then Ok(parseBool(params[key].s).value)
            else Err(Unparsable(key, params[key].s)))
    ensures key in params && (params[key].Int64Value? || params[key].OtherValue?) ==> r == Err(WrongType(key))
  {
    if key !in params then
      if required then Err(Missing(key)) else Ok(false)
    else
      match params[key]
      case BoolValue(b) => Ok(b)
      case StringValue(s) =>
        (match parseBool(s)
         case Some(b) => Ok(b)
         case None => Err(Unparsable(key, s)))
      case _ => Err(WrongType(key))
  }

  /** The `required` flag only matters for a missing key: a present value is judged the same way. */
  lemma RequiredOnlyGuardsMissing(params: Params, key: string, parseInt: IntParser, parseBool: BoolParser)
    requires key in params
    ensures GetStringParam(params, key, true) == GetStringParam(params, key, false)
    ensures GetInt64Param(params, key, true, parseInt) == GetInt64Param(params, key, false, parseInt)
    ensures GetBoolParam(params, key, true, parseBool) == GetBoolParam(params, key, false, parseBool)
  {
  }

  /** The `[global]` table. */
  datatype GlobalConfig = GlobalConfig(apiVersion: string, postUpWait: int64, postUpCmd: string, checkInterval: int64)

  /** One `[[record]]` table. */
  datatype RecordConfig = RecordConfig(
    domainRegistrar: string,
    ipAddressFromCmd: string,
    ipAddressOnUpdateCmd: string,
    apiParams: Params)

  datatype AppConfig = AppConfig(global: GlobalConfig, records: seq<RecordConfig>)

  /** Reading or decoding the file failed (the error text is not modelled). */
  datatype ConfigError = ConfigError(message: string)

  const DefaultCheckInterval: int64 := 60

  /**
   * ReadConfig (config.go:34-52) after the file has been read and decoded (`decoded`): errors
   * are passed through and a check interval of zero or below is replaced by 60 seconds.
   */
  method ReadConfig(decoded: Result<AppConfig, ConfigError>) returns (r: Result<AppConfig, ConfigError>)
    ensures decoded.Err? ==> r == decoded
    ensures decoded.Ok? ==> r.Ok? && r.value.records == decoded.value.records
    ensures r.Ok? ==> r.value.global.checkInterval > 0
    ensures decoded.Ok? && decoded.value.global.checkInterval > 0 ==> r == decoded
    ensures decoded.Ok? && decoded.value.global.checkInterval <= 0 ==>
      r.value.global == decoded.value.global.(checkInterval := DefaultCheckInterval)
  {
    if decoded.Err? {
      return decoded;
    }
    var config := decoded.value;
    if config.global.checkInterval <= 0 {
      config := config.(global := config.global.(checkInterval := DefaultCheckInterval));
    }
    return Ok(config);
  }
}
