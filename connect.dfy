/**
 * The values the connector receives from Kafka Connect and the exceptions it
 * exchanges with Kafka Connect and the ArangoDB driver.
 */
module Connect {
  import opened Wrappers

  /** A JSON tree as Jackson's `JsonNode` represents it. */
  datatype Json =
    | JNull
    | JBool(b: bool)
    | JInt(i: int)
    | JFloat(r: real)
    | JString(s: string)
    | JArray(elements: seq<Json>)
    | JObject(fields: map<string, Json>)

  /**
   * A non-null record key or value after Kafka Connect's JSON converter
   * (schemas disabled) and Jackson's deserializer: either the JSON tree it
   * becomes, or data the round trip cannot represent.
   */
  datatype ConnectData = Serialized(tree: Json) | Unserializable

  /** Kafka Connect's `SinkRecord`; `None` stands for a Java `null` key or value. */
  datatype SinkRecord = SinkRecord(
    topic: string,
    kafkaPartition: int,
    kafkaOffset: int,
    key: Option<ConnectData>,
    value: Option<ConnectData>)

  /** How an exception was built: from a message, or by wrapping another exception. */
  datatype Detail = Message(text: string) | CausedBy(cause: Exception)

  /**
   * The exceptions of Kafka Connect, of the ArangoDB driver and of the JDK that
   * the modelled code throws or catches.
   */
  datatype Exception =
    | ArangoDBException(errorNum: Option<int>)   // a driver failure; errorNum is absent when the server gave none
    | SerializationException
    | ConnectException(message: string)
    | DataException(detail: Detail)
    | TransientException(cause: Exception)
    | RetriableException(cause: Exception)
    | ConfigException(message: string)
    | IllegalArgumentException
    | NullPointerException
    | NumberFormatException(input: string)

  /** Class name of the Jackson node a JSON tree is held in (used in error messages). */
  function NodeClassName(j: Json): string {
    match j
    case JNull => "com.fasterxml.jackson.databind.node.NullNode"
    case JBool(_) => "com.fasterxml.jackson.databind.node.BooleanNode"
    case JInt(i) =>
      if -0x8000_0000 <= i < 0x8000_0000 then "com.fasterxml.jackson.databind.node.IntNode"
      else if -0x8000_0000_0000_0000 <= i < 0x8000_0000_0000_0000 then "com.fasterxml.jackson.databind.node.LongNode"
      else "com.fasterxml.jackson.databind.node.BigIntegerNode"
    case JFloat(_) => "com.fasterxml.jackson.databind.node.DoubleNode"
    case JString(_) => "com.fasterxml.jackson.databind.node.TextNode"
    case JArray(_) => "com.fasterxml.jackson.databind.node.ArrayNode"
    case JObject(_) => "com.fasterxml.jackson.databind.node.ObjectNode"
  }
}

/**
 * The part of the ArangoDB Java driver the connector uses: protocols, write
 * options, and the bulk document calls with their per-item results.
 */
module Driver {
  import opened Wrappers
  import opened Connect

  /** `com.arangodb.Protocol`. */
  datatype Protocol = VST | HTTP_JSON | HTTP_VPACK | HTTP2_JSON | HTTP2_VPACK

  /** `com.arangodb.model.OverwriteMode`. */
  datatype OverwriteMode = Conflict | Ignore | Replace | Update

  /** `OverwriteMode.valueOf`: the driver's constants are named in lower case. */
  function OverwriteModeOf(name: string): Option<OverwriteMode> {
    if name == "conflict" then Some(Conflict)
    else if name == "ignore" then Some(Ignore)
    else if name == "replace" then Some(Replace)
    else if name == "update" then Some(Update)
    else None
  }

  datatype DocumentCreateOptions = DocumentCreateOptions(
    overwriteMode: OverwriteMode,
    mergeObjects: bool,
    keepNull: bool,
    silent: bool,
    refillIndexCaches: bool,
    waitForSync: bool)

  datatype DocumentDeleteOptions = DocumentDeleteOptions(
    silent: bool,
    refillIndexCaches: bool,
    waitForSync: bool)

  /** One entry of `getDocumentsAndErrors()`: a document entity or an `ErrorEntity`. */
  datatype ItemResult = DocumentEntity | ErrorEntity(errorNum: int)

  /** A bulk call on the collection. */
  datatype Request =
    | InsertDocuments(docs: seq<map<string, Json>>, createOptions: DocumentCreateOptions)
    | DeleteDocuments(keys: seq<string>, deleteOptions: DocumentDeleteOptions)

  /** What a bulk call gives back: the per-item results, or an `ArangoDBException`. */
  datatype Reply = DocumentsAndErrors(items: seq<ItemResult>) | Threw(errorNum: Option<int>)
}
