/**
 * Derivation of a document key (`_key`) from a Kafka record: the record key
 * when it is text or an integral number, else a key built from the record's
 * position "{topic}-{partition}-{offset}".
 */
module KeyConverter {
  import opened Wrappers
  import opened Connect
  import Text

  const KEY_NOT_STRING := "Record key cannot be read as string"

  /** `createKey`: the record's source position formatted as "%s-%d-%d". */
  function CreateKey(r: SinkRecord): (k: string)
    ensures |k| > 0
  {
    r.topic + "-" + Text.IntToString(r.kafkaPartition) + "-" + Text.IntToString(r.kafkaOffset)
  }

  /** The record keys `Convert` accepts: none, JSON null, text, or an integral number. */
  predicate IsSupportedKey(key: Option<ConnectData>) {
    key.None? || (key.value.Serialized? && (key.value.tree.JNull? || key.value.tree.JString? || key.value.tree.JInt?))
  }

  /** `convert`: the document key of a record, or the `DataException` it raises. */
  function Convert(r: SinkRecord): (res: Result<string, Exception>)
    ensures res.Success? <==> IsSupportedKey(r.key)
    ensures res.Success? ==> |res.value| > 0
    ensures r.key.None? ==> res == Success(CreateKey(r))
    ensures r.key == Some(Unserializable) ==> res == Failure(DataException(CausedBy(SerializationException)))
    ensures r.key.Some? && r.key.value.Serialized? ==>
              var tree := r.key.value.tree;
              && (tree.JNull? ==> res == Success(CreateKey(r)))
              && (tree.JString? ==> res == Success(if tree.s == "" then CreateKey(r) else tree.s))
              && (tree.JInt? ==> res == Success(Text.IntToString(tree.i)))
              && (!IsSupportedKey(r.key) ==> res.Failure? && res.error.DataException? &&
                                             res.error.detail.Message? && KEY_NOT_STRING <= res.error.detail.text)
  {
    match r.key
    case None => Success(CreateKey(r))
    case Some(Unserializable) => Failure(DataException(CausedBy(SerializationException)))
    case Some(Serialized(tree)) =>
      match tree
      case JNull => Success(CreateKey(r))
      case JString(s) => if s == "" then Success(CreateKey(r)) else Success(s)
      case JInt(i) => Success(Text.IntToString(i))
      case _ => Failure(DataException(Message(KEY_NOT_STRING + ": " + NodeClassName(tree))))
  }

  /**
   * `KeyConverter.mapKey`, which turns the `_key` field of a record value into
   * a document key. Its source is not part of this model; it is defined here by
   * the textual and integral rules of `convert`, with `None` (Java `null`) for a
   * missing field, JSON null, empty text and every other shape.
   */
  function MapKey(node: Option<Json>): (k: Option<string>)
    ensures k.Some? <==> node.Some? && ((node.value.JString? && node.value.s != "") || node.value.JInt?)
    ensures k.Some? ==> |k.value| > 0
  {
    match node
    case Some(JString(s)) => if s == "" then None else Some(s)
    case Some(JInt(i)) => Some(Text.IntToString(i))
    case _ => None
  }

  /** `mapKey` and `convert` read a textual or integral key the same way. */
  lemma MapKeyAgreesWithConvert(r: SinkRecord)
    requires r.key.Some? && r.key.value.Serialized?
    requires MapKey(Some(r.key.value.tree)).Some?
    ensures Convert(r) == Success(MapKey(Some(r.key.value.tree)).value)
  {
  }

  /**
   * The fallback key identifies the source position: for non-negative
   * partitions and offsets, equal keys mean equal topic, partition and offset.
   */
  lemma CreateKeyInjective(r1: SinkRecord, r2: SinkRecord)
    requires r1.kafkaPartition >= 0 && r1.kafkaOffset >= 0
    requires r2.kafkaPartition >= 0 && r2.kafkaOffset >= 0
    requires CreateKey(r1) == CreateKey(r2)
    ensures r1.topic == r2.topic
    ensures r1.kafkaPartition == r2.kafkaPartition && r1.kafkaOffset == r2.kafkaOffset
  {
    var p1, o1 := Text.IntToString(r1.kafkaPartition), Text.IntToString(r1.kafkaOffset);
    var p2, o2 := Text.IntToString(r2.kafkaPartition), Text.IntToString(r2.kafkaOffset);
    NoDashInDigits(p1);
    NoDashInDigits(o1);
    NoDashInDigits(p2);
    NoDashInDigits(o2);
    assert (r1.topic + "-" + p1) + ['-'] + o1 == CreateKey(r1);
    assert (r2.topic + "-" + p2) + ['-'] + o2 == CreateKey(r2);
    Text.SplitAtLast(r1.topic + "-" + p1, o1, r2.topic + "-" + p2, o2, '-');
    assert r1.topic + ['-'] + p1 == r1.topic + "-" + p1;
    assert r2.topic + ['-'] + p2 == r2.topic + "-" + p2;
    Text.SplitAtLast(r1.topic, p1, r2.topic, p2, '-');
    Text.IntToStringInjective(r1.kafkaPartition, r2.kafkaPartition);
    Text.IntToStringInjective(r1.kafkaOffset, r2.kafkaOffset);
  }

  lemma NoDashInDigits(s: string)
    requires Text.AllDigits(s)
    ensures '-' !in s
  {
  }

  /**
   * Without that restriction the fallback key is ambiguous: a topic ending in
   * '-' and a negative partition render the same.
   */
  lemma CreateKeyAmbiguousForNegativePartition()
    ensures CreateKey(SinkRecord("t", -1, 5, None, None)) == CreateKey(SinkRecord("t-", 1, 5, None, None))
  {
    assert Text.IntToString(-1) == "-1";
    assert Text.IntToString(1) == "1";
    assert Text.IntToString(5) == "5";
  }
}
