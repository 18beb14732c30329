/**
 * The sink's configuration: the properties the writer reads, their defaults,
 * the checks made when the configuration is built, and the getters that turn
 * stored values into driver settings.
 */
module ArangoSinkConfig {
  import opened Wrappers
  import opened Connect
  import Text
  import Driver
  import EnumValidator

  const CONNECTION_ENDPOINTS := "connection.endpoints"
  const CONNECTION_COLLECTION := "connection.collection"
  const CONNECTION_PROTOCOL := "connection.protocol"
  const CONNECTION_CONTENT_TYPE := "connection.content.type"
  const CONNECTION_SSL_CERT_VALUE := "ssl.cert.value"
  const CONNECTION_SSL_TRUSTSTORE_LOCATION := "ssl.truststore.location"
  const INSERT_OVERWRITE_MODE := "insert.overwriteMode"
  const DATA_ERRORS_TOLERANCE := "data.errors.tolerance"

  /** Names of the constants of the configuration enums, in declaration order. */
  const PROTOCOLS := ["VST", "HTTP11", "HTTP2"]
  const CONTENT_TYPES := ["JSON", "VPACK"]
  const OVERWRITE_MODES := ["CONFLICT", "IGNORE", "REPLACE", "UPDATE"]
  const DATA_ERRORS_TOLERANCES := ["ALL", "NONE"]

  const CONNECTION_PROTOCOL_DEFAULT := "HTTP2"
  const CONNECTION_CONTENT_TYPE_DEFAULT := "JSON"
  const INSERT_OVERWRITE_MODE_DEFAULT := "CONFLICT"
  const INSERT_MERGE_OBJECTS_DEFAULT := true
  const INSERT_WAIT_FOR_SYNC_DEFAULT := false
  const BATCH_SIZE_DEFAULT := 3000
  const DELETE_ENABLED_DEFAULT := false
  const DATA_ERRORS_TOLERANCE_DEFAULT := "NONE"
  const DATA_ERRORS_LOG_ENABLE_DEFAULT := false
  const MAX_RETRIES_DEFAULT := 10
  const RETRY_BACKOFF_MS_DEFAULT := 3000

  const SSL_CONFLICT_MESSAGE := "Cannot set both " + CONNECTION_SSL_CERT_VALUE + " and " + CONNECTION_SSL_TRUSTSTORE_LOCATION

  /** `ArangoSinkConfig.Protocol`. */
  datatype Protocol = VST | HTTP11 | HTTP2

  /** `ArangoSinkConfig.ContentType`. */
  datatype ContentType = JSON | VPACK

  /** `Protocol.valueOf`. */
  function ProtocolOf(name: string): (p: Option<Protocol>)
    ensures p.Some? <==> name in PROTOCOLS
  {
    if name == "VST" then Some(VST)
    else if name == "HTTP11" then Some(HTTP11)
    else if name == "HTTP2" then Some(HTTP2)
    else None
  }

  /** `ContentType.valueOf`. */
  function ContentTypeOf(name: string): (t: Option<ContentType>)
    ensures t.Some? <==> name in CONTENT_TYPES
  {
    if name == "JSON" then Some(JSON)
    else if name == "VPACK" then Some(VPACK)
    else None
  }

  /**
   * The properties a user supplies for the keys the writer uses, and for the
   * two keys that have no default; `None` for a key that is not set. Type parsing of the raw property values is done by
   * Kafka's `ConfigDef` and is not part of this model.
   */
  datatype Properties = Properties(
    endpoints: Option<seq<string>>,
    collection: Option<string>,
    protocol: Option<string>,
    contentType: Option<string>,
    sslCertValue: Option<string>,
    sslTruststoreLocation: Option<string>,
    overwriteMode: Option<string>,
    mergeObjects: Option<bool>,
    waitForSync: Option<bool>,
    batchSize: Option<int>,
    deleteEnabled: Option<bool>,
    dataErrorsTolerance: Option<string>,
    logDataErrors: Option<bool>,
    extraDataErrorsNums: Option<seq<string>>,
    maxRetries: Option<int>,
    retryBackoffMs: Option<int>)

  /** The parsed values an `ArangoSinkConfig` holds; a `None` SSL setting is Java `null`. */
  datatype Config = Config(
    protocol: string,
    contentType: string,
    sslCertValue: Option<string>,
    sslTruststoreLocation: Option<string>,
    overwriteMode: string,
    mergeObjects: bool,
    waitForSync: bool,
    batchSize: int,
    deleteEnabled: bool,
    dataErrorsTolerance: string,
    logDataErrors: bool,
    extraDataErrorsNums: seq<string>,
    maxRetries: int,
    retryBackoffMs: int)

  /** The values after `ConfigDef` fills in the default of every key that is not set. */
  function WithDefaults(p: Properties): Config {
    Config(
      p.protocol.GetOr(CONNECTION_PROTOCOL_DEFAULT),
      p.contentType.GetOr(CONNECTION_CONTENT_TYPE_DEFAULT),
      p.sslCertValue,
      p.sslTruststoreLocation,
      p.overwriteMode.GetOr(INSERT_OVERWRITE_MODE_DEFAULT),
      p.mergeObjects.GetOr(INSERT_MERGE_OBJECTS_DEFAULT),
      p.waitForSync.GetOr(INSERT_WAIT_FOR_SYNC_DEFAULT),
      p.batchSize.GetOr(BATCH_SIZE_DEFAULT),
      p.deleteEnabled.GetOr(DELETE_ENABLED_DEFAULT),
      p.dataErrorsTolerance.GetOr(DATA_ERRORS_TOLERANCE_DEFAULT),
      p.logDataErrors.GetOr(DATA_ERRORS_LOG_ENABLE_DEFAULT),
      p.extraDataErrorsNums.GetOr([]),
      p.maxRetries.GetOr(MAX_RETRIES_DEFAULT),
      p.retryBackoffMs.GetOr(RETRY_BACKOFF_MS_DEFAULT))
  }

  /** The message of `ConfigDef`'s exception for a key without a default that is not set. */
  function MissingMessage(name: string): (m: string)
    ensures Text.Contains(m, name)
  {
    Text.ContainsMiddle("Missing required configuration \"", name, "\" which has no default value.");
    "Missing required configuration \"" + name + "\" which has no default value."
  }

  /** The keys without a default are set. */
  predicate RequiredSet(p: Properties) {
    p.endpoints.Some? && p.collection.Some?
  }

  /** What every constructed configuration satisfies. */
  predicate Valid(c: Config) {
    && c.protocol in PROTOCOLS
    && c.contentType in CONTENT_TYPES
    && c.overwriteMode in OVERWRITE_MODES
    && c.dataErrorsTolerance in DATA_ERRORS_TOLERANCES
    && !(c.sslCertValue.Some? && c.sslTruststoreLocation.Some?)
  }

  /** `ensureValidSslConfig`: a certificate value and a trust store exclude each other. */
  function EnsureValidSslConfig(c: Config): (thrown: Option<Exception>)
    ensures thrown.None? <==> c.sslCertValue.None? || c.sslTruststoreLocation.None?
    ensures thrown.Some? ==>
              && thrown.value.ConfigException?
              && Text.Contains(thrown.value.message, CONNECTION_SSL_CERT_VALUE)
              && Text.Contains(thrown.value.message, CONNECTION_SSL_TRUSTSTORE_LOCATION)
  {
    if c.sslCertValue.Some? && c.sslTruststoreLocation.Some? then
      Text.ContainsMiddle("Cannot set both ", CONNECTION_SSL_CERT_VALUE, " and " + CONNECTION_SSL_TRUSTSTORE_LOCATION);
      Text.ContainsMiddle("Cannot set both " + CONNECTION_SSL_CERT_VALUE + " and ", CONNECTION_SSL_TRUSTSTORE_LOCATION, "");
      assert "Cannot set both " + CONNECTION_SSL_CERT_VALUE + (" and " + CONNECTION_SSL_TRUSTSTORE_LOCATION)
             == SSL_CONFLICT_MESSAGE
             == "Cannot set both " + CONNECTION_SSL_CERT_VALUE + " and " + CONNECTION_SSL_TRUSTSTORE_LOCATION + "";
      Some(ConfigException(SSL_CONFLICT_MESSAGE))
    else
      None
  }

  /**
   * The constructor `ArangoSinkConfig(props)`: `ConfigDef` goes through the
   * keys in definition order, rejecting a missing key that has no default and
   * running the enum validators on the values with defaults filled in; then
   * the SSL settings are checked.
   */
  function New(p: Properties): (res: Result<Config, Exception>)
    ensures res.Success? <==> RequiredSet(p) && Valid(WithDefaults(p))
    ensures res.Success? ==> res.value == WithDefaults(p)
    ensures res.Failure? ==> res.error.ConfigException?
    ensures p.endpoints.None? ==> res == Failure(ConfigException(MissingMessage(CONNECTION_ENDPOINTS)))
    ensures p.endpoints.Some? && p.collection.None? ==> res == Failure(ConfigException(MissingMessage(CONNECTION_COLLECTION)))
    ensures RequiredSet(p) && WithDefaults(p).protocol !in PROTOCOLS ==>
              && res.Failure?
              && Text.Contains(res.error.message, CONNECTION_PROTOCOL)
              && Text.Contains(res.error.message, WithDefaults(p).protocol)
    ensures RequiredSet(p) && WithDefaults(p).protocol in PROTOCOLS && WithDefaults(p).contentType !in CONTENT_TYPES ==>
              && res.Failure?
              && Text.Contains(res.error.message, CONNECTION_CONTENT_TYPE)
              && Text.Contains(res.error.message, WithDefaults(p).contentType)
  {
    if p.endpoints.None? then Failure(ConfigException(MissingMessage(CONNECTION_ENDPOINTS)))
    else if p.collection.None? then Failure(ConfigException(MissingMessage(CONNECTION_COLLECTION)))
    else
      var c := WithDefaults(p);
      var checks := [
        EnumValidator.EnsureValid(PROTOCOLS, CONNECTION_PROTOCOL, Some(c.protocol)),
        EnumValidator.EnsureValid(CONTENT_TYPES, CONNECTION_CONTENT_TYPE, Some(c.contentType)),
        EnumValidator.EnsureValid(OVERWRITE_MODES, INSERT_OVERWRITE_MODE, Some(c.overwriteMode)),
        EnumValidator.EnsureValid(DATA_ERRORS_TOLERANCES, DATA_ERRORS_TOLERANCE, Some(c.dataErrorsTolerance)),
        EnsureValidSslConfig(c)
      ];
      if checks[0].Some? then Failure(checks[0].value)
      else if checks[1].Some? then Failure(checks[1].value)
      else if checks[2].Some? then Failure(checks[2].value)
      else if checks[3].Some? then Failure(checks[3].value)
      else if checks[4].Some? then Failure(checks[4].value)
      else Success(c)
  }

  /**
   * `getProtocol`: the driver protocol for the stored protocol and content
   * type, both upper-cased and looked up with `valueOf` (which throws
   * `IllegalArgumentException` for an unknown name).
   */
  function GetProtocol(c: Config): (res: Result<Driver.Protocol, Exception>)
    ensures res.Success? <==> ProtocolOf(Text.ToUpper(c.protocol)).Some? && ContentTypeOf(Text.ToUpper(c.contentType)).Some?
    ensures res.Failure? ==> res.error == IllegalArgumentException
    ensures res.Success? ==>
              var protocol := ProtocolOf(Text.ToUpper(c.protocol)).value;
              var json := ContentTypeOf(Text.ToUpper(c.contentType)).value == JSON;
              && (res.value.VST? <==> protocol == VST)
              && (res.value.HTTP_JSON? || res.value.HTTP_VPACK? <==> protocol == HTTP11)
              && (res.value.HTTP2_JSON? || res.value.HTTP2_VPACK? <==> protocol == HTTP2)
              && (protocol != VST ==> (res.value.HTTP_JSON? || res.value.HTTP2_JSON? <==> json))
  {
    match ProtocolOf(Text.ToUpper(c.protocol))
    case None => Failure(IllegalArgumentException)
    case Some(protocol) =>
      match ContentTypeOf(Text.ToUpper(c.contentType))
      case None => Failure(IllegalArgumentException)
      case Some(contentType) =>
        match protocol
        case VST => Success(Driver.VST)
        case HTTP11 => Success(if contentType == JSON then Driver.HTTP_JSON else Driver.HTTP_VPACK)
        case HTTP2 => Success(if contentType == JSON then Driver.HTTP2_JSON else Driver.HTTP2_VPACK)
  }

  /** `getTolerateDataErrors`: whether the stored tolerance, upper-cased, is `ALL`. */
  function GetTolerateDataErrors(c: Config): (res: Result<bool, Exception>)
    ensures res.Success? <==> Text.ToUpper(c.dataErrorsTolerance) in DATA_ERRORS_TOLERANCES
    ensures res.Failure? ==> res.error == IllegalArgumentException
    ensures res.Success? ==> (res.value <==> Text.ToUpper(c.dataErrorsTolerance) == "ALL")
  {
    var name := Text.ToUpper(c.dataErrorsTolerance);
    if name == "ALL" then Success(true)
    else if name == "NONE" then Success(false)
    else Failure(IllegalArgumentException)
  }

  /**
   * `getCreateOptions`: the stored overwrite mode, lower-cased, names the
   * driver's mode; documents keep null fields, replies are silent, index
   * caches are not refilled.
   */
  function GetCreateOptions(c: Config): (res: Result<Driver.DocumentCreateOptions, Exception>)
    ensures res.Success? <==> Driver.OverwriteModeOf(Text.ToLower(c.overwriteMode)).Some?
    ensures res.Failure? ==> res.error == IllegalArgumentException
    ensures res.Success? ==>
              && res.value.overwriteMode == Driver.OverwriteModeOf(Text.ToLower(c.overwriteMode)).value
              && res.value.mergeObjects == c.mergeObjects
              && res.value.keepNull && res.value.silent && !res.value.refillIndexCaches
              && res.value.waitForSync == c.waitForSync
  {
    var mode :- match Driver.OverwriteModeOf(Text.ToLower(c.overwriteMode))
                case Some(m) => Success(m)
                case None => Failure(IllegalArgumentException);
    Success(Driver.DocumentCreateOptions(mode, c.mergeObjects, true, true, false, c.waitForSync))
  }

  /** `getDeleteOptions`: silent deletes that do not refill index caches, with the configured sync wait. */
  function GetDeleteOptions(c: Config): (o: Driver.DocumentDeleteOptions)
    ensures o.silent && !o.refillIndexCaches
    ensures o.waitForSync == c.waitForSync
  {
    Driver.DocumentDeleteOptions(true, false, c.waitForSync)
  }

  /** `Integer.parseInt` over the items of a list, collected into a set; the first bad item throws. */
  function ParseAll(items: seq<string>): (res: Result<set<int>, Exception>)
    ensures res.Success? <==> forall i :: 0 <= i < |items| ==> Text.ParseInt(items[i]).Some?
    ensures res.Success? ==> forall n :: n in res.value <==> exists i :: 0 <= i < |items| && Text.ParseInt(items[i]) == Some(n)
    ensures res.Failure? ==> res.error.NumberFormatException? && res.error.input in items && Text.ParseInt(res.error.input).None?
  {
    if items == [] then Success({})
    else
      match Text.ParseInt(items[0])
      case None => Failure(NumberFormatException(items[0]))
      case Some(n) =>
        var rest :- ParseAll(items[1..]);
        assert forall i :: 1 <= i < |items| ==> items[i] == items[1..][i - 1];
        Success({n} + rest)
  }

  /** `getExtraDataErrorsNums`: the configured extra data-error numbers. */
  function GetExtraDataErrorsNums(c: Config): (res: Result<set<int>, Exception>)
    ensures res.Success? <==> forall i :: 0 <= i < |c.extraDataErrorsNums| ==> Text.ParseInt(c.extraDataErrorsNums[i]).Some?
    ensures res.Failure? ==> res.error.NumberFormatException?
    ensures res.Success? ==> forall n :: n in res.value ==> Text.INT_MIN <= n <= Text.INT_MAX
  {
    ParseAll(c.extraDataErrorsNums)
  }

  /** Configuring the decimal forms of a list of 32-bit numbers yields exactly those numbers. */
  lemma ExtraDataErrorsNumsRoundTrip(nums: seq<int>)
    requires forall i :: 0 <= i < |nums| ==> Text.INT_MIN <= nums[i] <= Text.INT_MAX
    ensures ParseAll(seq(|nums|, i requires 0 <= i < |nums| => Text.IntToString(nums[i]))) == Success(set i | 0 <= i < |nums| :: nums[i])
  {
    var items := seq(|nums|, i requires 0 <= i < |nums| => Text.IntToString(nums[i]));
    forall i | 0 <= i < |items|
      ensures Text.ParseInt(items[i]) == Some(nums[i])
    {
      Text.ParseIntRoundTrip(nums[i]);
    }
    var res := ParseAll(items);
    assert res.Success?;
    var s := set i | 0 <= i < |nums| :: nums[i];
    forall n | n in res.value ensures n in s {
      var i :| 0 <= i < |items| && Text.ParseInt(items[i]) == Some(n);
    }
    forall n | n in s ensures n in res.value {
      var i :| 0 <= i < |nums| && nums[i] == n;
      assert Text.ParseInt(items[i]) == Some(n);
    }
    assert res.value == s;
  }

  /**
   * A configuration that sets only the endpoints and the collection is built,
   * and the keys that are not set take the documented defaults.
   */
  lemma Defaults(endpoints: seq<string>, collection: string)
    ensures var p := Properties(Some(endpoints), Some(collection), None, None, None, None, None, None, None, None, None, None, None, None, None, None);
            var c := WithDefaults(p);
            && New(p) == Success(c)
            && GetProtocol(c) == Success(Driver.HTTP2_JSON)
            && GetTolerateDataErrors(c) == Success(false)
            && GetCreateOptions(c) == Success(Driver.DocumentCreateOptions(Driver.Conflict, true, true, true, false, false))
            && GetExtraDataErrorsNums(c) == Success({})
            && c.batchSize == 3000 && !c.deleteEnabled && c.maxRetries == 10 && c.retryBackoffMs == 3000
            && !c.logDataErrors
  {
    var c := WithDefaults(Properties(Some(endpoints), Some(collection), None, None, None, None, None, None, None, None, None, None, None, None, None, None));
    assert Text.ToUpper("HTTP2") == "HTTP2";
    assert Text.ToUpper("JSON") == "JSON";
    assert Text.ToUpper("NONE") == "NONE";
    assert Text.ToLower("CONFLICT") == "conflict";
  }

  /** Upper-casing leaves a valid enum name unchanged: every name is already upper case. */
  lemma UpperCaseNames(name: string)
    requires name in PROTOCOLS || name in CONTENT_TYPES || name in DATA_ERRORS_TOLERANCES
    ensures Text.ToUpper(name) == name
  {
    if name in PROTOCOLS {
      assert Text.ToUpper("VST") == "VST";
      assert Text.ToUpper("HTTP11") == "HTTP11";
      assert Text.ToUpper("HTTP2") == "HTTP2";
    } else if name in CONTENT_TYPES {
      assert Text.ToUpper("JSON") == "JSON";
      assert Text.ToUpper("VPACK") == "VPACK";
    } else {
      assert Text.ToUpper("ALL") == "ALL";
      assert Text.ToUpper("NONE") == "NONE";
    }
  }

  /**
   * On a constructed configuration the getters do not throw: the validators
   * accept only the exact upper-case names, which the getters' case mapping
   * keeps (or, for the overwrite mode, maps onto the driver's lower-case names).
   */
  lemma GettersTotalOnValid(c: Config)
    requires Valid(c)
    ensures GetProtocol(c).Success?
    ensures GetProtocol(c).value.VST? <==> c.protocol == "VST"
    ensures GetTolerateDataErrors(c) == Success(c.dataErrorsTolerance == "ALL")
    ensures GetCreateOptions(c).Success?
  {
    UpperCaseNames(c.protocol);
    UpperCaseNames(c.contentType);
    UpperCaseNames(c.dataErrorsTolerance);
    assert Text.ToLower("CONFLICT") == "conflict";
    assert Text.ToLower("IGNORE") == "ignore";
    assert Text.ToLower("REPLACE") == "replace";
    assert Text.ToLower("UPDATE") == "update";
  }

  /**
   * The validators are case-sensitive: the lower-case overwrite modes, which
   * are the names the driver uses, are rejected when the configuration is built,
   * and the error names the overwrite-mode key even when everything else is valid.
   */
  lemma LowerCaseOverwriteModeRejected(p: Properties)
    requires p.overwriteMode.Some? && p.overwriteMode.value in ["conflict", "ignore", "replace", "update"]
    requires RequiredSet(p) && WithDefaults(p).protocol in PROTOCOLS && WithDefaults(p).contentType in CONTENT_TYPES
    ensures New(p).Failure? && Text.Contains(New(p).error.message, INSERT_OVERWRITE_MODE)
  {
    var c := WithDefaults(p);
    assert c.overwriteMode == p.overwriteMode.value;
    LowerCaseModeNotListed(c.overwriteMode);
    var thrown := EnumValidator.EnsureValid(OVERWRITE_MODES, INSERT_OVERWRITE_MODE, Some(c.overwriteMode));
    assert thrown.Some? && Text.Contains(thrown.value.message, INSERT_OVERWRITE_MODE);
  }

  /** No lower-case overwrite mode is among the validator's constants. */
  lemma LowerCaseModeNotListed(mode: string)
    requires mode in ["conflict", "ignore", "replace", "update"]
    ensures mode !in OVERWRITE_MODES
  {
    assert mode[0] in "cir" + "u";
  }

  /** HTTP/1.1 with VelocyPack content selects the driver's HTTP_VPACK protocol. */
  lemma Http11VpackProtocol(c: Config)
    requires c.protocol == "HTTP11" && c.contentType == "VPACK"
    ensures GetProtocol(c) == Success(Driver.HTTP_VPACK)
  {
    assert Text.ToUpper("HTTP11") == "HTTP11";
    assert Text.ToUpper("VPACK") == "VPACK";
  }
}
