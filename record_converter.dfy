/**
 * Conversion of a Kafka record into the ArangoDB document that is written:
 * the record value must be a JSON object (a null value becomes the empty
 * object), and its `_key` field is set from the value's own `_key` when that
 * is usable, else from the record key.
 */
module RecordConverter {
  import opened Wrappers
  import opened Connect
  import KeyConverter

  const VALUE_NOT_OBJECT := "Record value cannot be read as JSON object"

  /** A document: the fields of a JSON object. */
  type Document = map<string, Json>

  /**
   * `deserialize` of the converter's output: the JSON tree of the value, `None`
   * for a null value, and a `DataException` wrapping the `SerializationException`
   * for a value that cannot be represented.
   */
  function Deserialize(value: Option<ConnectData>): (res: Result<Option<Json>, Exception>)
    ensures res.Failure? <==> value == Some(Unserializable)
    ensures res.Failure? ==> res.error == DataException(CausedBy(SerializationException))
    ensures res.Success? ==> (res.value.None? <==> value.None?)
  {
    match value
    case None => Success(None)
    case Some(Unserializable) => Failure(DataException(CausedBy(SerializationException)))
    case Some(Serialized(tree)) => Success(Some(tree))
  }

  /** The document key the value's own `_key` field yields, if any. */
  function FieldKey(fields: Document): Option<string> {
    KeyConverter.MapKey(if "_key" in fields then Some(fields["_key"]) else None)
  }

  /** The fields of the record value when it is a JSON object, a null value counting as `{}`. */
  function ValueObject(r: SinkRecord): Option<Document> {
    match r.value
    case None => Some(map[])
    case Some(Unserializable) => None
    case Some(Serialized(tree)) => if tree.JObject? then Some(tree.fields) else None
  }

  /** `convert`: the document written for a record, or the exception raised. */
  function Convert(r: SinkRecord): (res: Result<Document, Exception>)
    ensures res.Success? <==>
              ValueObject(r).Some? && (FieldKey(ValueObject(r).value).Some? || KeyConverter.IsSupportedKey(r.key))
    ensures res.Failure? ==> res.error.DataException?
    ensures r.value.Some? && r.value.value.Serialized? && !r.value.value.tree.JObject? ==>
              res.Failure? && res.error.detail.Message? && VALUE_NOT_OBJECT <= res.error.detail.text
    ensures res.Success? ==>
              var fields := ValueObject(r).value;
              && "_key" in res.value
              && res.value.Keys == fields.Keys + {"_key"}
              && (forall f :: f in fields && f != "_key" ==> res.value[f] == fields[f])
              && (FieldKey(fields).Some? ==> res.value["_key"] == JString(FieldKey(fields).value))
              && (FieldKey(fields).None? ==> res.value["_key"] == JString(KeyConverter.Convert(r).value))
    ensures ValueObject(r).Some? && FieldKey(ValueObject(r).value).None? && res.Failure? ==>
              res == KeyConverter.Convert(r).PropagateFailure()
  {
    var tree :- Deserialize(r.value);
    var node := tree.GetOr(JObject(map[]));
    if !node.JObject? then
      Failure(DataException(Message(VALUE_NOT_OBJECT + ": " + NodeClassName(node))))
    else
      var data := node.fields;
      var keyFromField := FieldKey(data);
      var key :- if keyFromField.Some? then Success(keyFromField.value) else KeyConverter.Convert(r);
      Success(data["_key" := JString(key)])
  }

  /** Every converted document carries a non-empty textual `_key`. */
  lemma ConvertedKeyNonEmpty(r: SinkRecord)
    requires Convert(r).Success?
    ensures "_key" in Convert(r).value
    ensures Convert(r).value["_key"].JString? && |Convert(r).value["_key"].s| > 0
  {
    var fields := ValueObject(r).value;
    if FieldKey(fields).None? {
      assert KeyConverter.Convert(r).Success?;
    }
  }

  /**
   * The key already in the value wins over the record key: two records that
   * differ only in their keys convert to the same document when the value
   * carries a usable `_key`.
   */
  lemma FieldKeyTakesPrecedence(r: SinkRecord, key: Option<ConnectData>)
    requires ValueObject(r).Some? && FieldKey(ValueObject(r).value).Some?
    ensures Convert(r.(key := key)) == Convert(r)
  {
    assert ValueObject(r.(key := key)) == ValueObject(r);
  }

  /** Conversion is idempotent on the document: converting its result again changes nothing. */
  lemma ConvertIdempotent(r: SinkRecord)
    requires Convert(r).Success?
    ensures Convert(r.(value := Some(Serialized(JObject(Convert(r).value))))) == Convert(r)
  {
    ConvertedKeyNonEmpty(r);
    var doc := Convert(r).value;
    var r' := r.(value := Some(Serialized(JObject(doc))));
    assert ValueObject(r') == Some(doc);
    assert FieldKey(doc) == Some(doc["_key"].s);
    assert doc["_key" := JString(doc["_key"].s)] == doc;
  }
}
