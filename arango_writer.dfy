/**
 * `ArangoWriter`: writes the records Kafka Connect hands to the sink task
 * into an ArangoDB collection, batch by batch, keeping its position and its
 * retry budget in fields across calls.
 */
module Writer {
  import opened Wrappers
  import opened Connect
  import Driver
  import KeyConverter
  import RecordConverter
  import opened WriteSpec

  /**
   * The filter loop of `handleBatchDelete`: the records and results left once
   * the "document not found" results are dropped, in their order.
   */
  method WithoutNotFound(batch: seq<SinkRecord>, items: seq<Driver.ItemResult>)
    returns (keptBatch: seq<SinkRecord>, keptItems: seq<Driver.ItemResult>)
    requires |batch| == |items|
    ensures keptBatch == Select(batch, KeptIndices(items))
    ensures keptItems == Select(items, KeptIndices(items))
  {
    keptBatch, keptItems := [], [];
    var i := 0;
    while i < |items|
      invariant 0 <= i <= |items|
      invariant keptBatch == Select(batch, KeptIndices(items[..i]))
      invariant keptItems == Select(items, KeptIndices(items[..i]))
    {
      assert items[..i + 1][..i] == items[..i];
      if !IsNotFound(items[i]) {
        keptBatch := keptBatch + [batch[i]];
        keptItems := keptItems + [items[i]];
      }
      i := i + 1;
    }
    assert items[..i] == items;
  }

  class ArangoWriter {
    const options: Options
    var remainingRetries: int
    var currentOffset: nat
    var errorRecord: Option<SinkRecord>
    /** The batches handed to `handleBatch`, oldest first. */
    ghost var handled: seq<seq<SinkRecord>>
    /** The records and exceptions passed to the errant record reporter, oldest first. */
    ghost var reports: seq<Report>
    /** The back-off periods passed to `context.timeout`, oldest first. */
    ghost var timeouts: seq<int>

    ghost function Snapshot(): State
      reads this
    {
      State(remainingRetries, currentOffset, errorRecord, handled, reports, timeouts)
    }

    /** The constructor, given the settings it reads from the configuration and the sink task's context. */
    constructor(options: Options)
      ensures this.options == options
      ensures Snapshot() == Initial(options)
    {
      this.options := options;
      remainingRetries := options.maxRetries;
      currentOffset := 0;
      errorRecord := None;
      handled, reports, timeouts := [], [], [];
    }

    /**
     * `put`: writes the records from the current offset on. An exception it
     * throws is returned in `thrown`; the fields keep the offset of the batch
     * that failed, so that redelivered records resume there.
     */
    method Put(store: Driver.Request -> Driver.Reply, records: seq<SinkRecord>) returns (thrown: Option<Exception>)
      modifies this
      ensures Step(Snapshot(), thrown) == PutSpec(options, store, records, old(Snapshot()))
    {
      thrown := None;
      if records == [] {
        return;
      }
      while currentOffset < |records|
        invariant thrown.None?
        invariant PutLoop(options, BatchHandler(options, store), records, Snapshot())
               == PutLoop(options, BatchHandler(options, store), records, old(Snapshot()))
        decreases |records| - currentOffset
      {
        ghost var s0 := Snapshot();
        errorRecord := None;
        var extracted := ExtractBatch(records, currentOffset, options.batchSize);
        if extracted.Failure? {
          thrown := Some(extracted.error);
          return;
        }
        var batch := extracted.value;
        if batch == [] {
          assert PutLoop(options, BatchHandler(options, store), records, s0)
              == Step(Snapshot().(remainingRetries := options.maxRetries, currentOffset := 0), None);
          break;
        }
        ghost var s1 := Snapshot();
        PutLoopBatch(options, BatchHandler(options, store), records, s0, batch);
        var e := HandleBatch(store, batch);
        if e.Some? {
          if e.value.DataException? {
            thrown := HandleDataException(e.value);
          } else {
            thrown := HandleTransientException(e.value);
          }
        }
        assert Step(Snapshot(), thrown) == BatchHandler(options, store)(batch, s1);
        if thrown.Some? {
          return;
        }
        ghost var s2 := Snapshot();
        remainingRetries := options.maxRetries;
        currentOffset := currentOffset + |batch|;
        assert Snapshot() == s2.(remainingRetries := options.maxRetries, currentOffset := s0.currentOffset + |batch|);
      }
      remainingRetries := options.maxRetries;
      currentOffset := 0;
    }

    /** `handleBatch`: writes one non-empty batch and wraps what it throws. */
    method HandleBatch(store: Driver.Request -> Driver.Reply, batch: seq<SinkRecord>) returns (thrown: Option<Exception>)
      requires batch != []
      modifies this
      ensures Step(Snapshot(), thrown) == HandleBatchSpec(options, store, batch, old(Snapshot()))
    {
      handled := handled + [batch];
      var e: Option<Exception>;
      if GetType(batch[0]) == DELETE {
        e := HandleBatchDelete(store, batch);
      } else {
        e := HandleBatchInsert(store, batch);
      }
      thrown := if e.Some? then Some(WrapException(options, e.value)) else None;
    }

    /** `handleBatchDelete`. */
    method HandleBatchDelete(store: Driver.Request -> Driver.Reply, batch: seq<SinkRecord>) returns (thrown: Option<Exception>)
      modifies this
      ensures Step(Snapshot(), thrown) == HandleBatchDeleteSpec(options, store, batch, old(Snapshot()))
    {
      if !options.deleteEnabled {
        return Some(ConnectException(DELETES_NOT_ENABLED));
      }
      var keys := MapAll(batch, KeyConverter.Convert);
      if keys.Failure? {
        return Some(keys.error);
      }
      var reply := store(Driver.DeleteDocuments(keys.value, options.deleteOptions));
      if reply.Threw? {
        return Some(ArangoDBException(reply.errorNum));
      }
      var items := reply.items;
      thrown := CheckResultSize(|batch|, |items|);
      if thrown.Some? {
        return;
      }
      var keptBatch, keptItems := WithoutNotFound(batch, items);
      thrown := CheckTransientErrors(keptBatch, keptItems);
      if thrown.Some? {
        return;
      }
      thrown := CheckDataErrors(keptBatch, keptItems);
    }

    /** `handleBatchInsert`. */
    method HandleBatchInsert(store: Driver.Request -> Driver.Reply, batch: seq<SinkRecord>) returns (thrown: Option<Exception>)
      modifies this
      ensures Step(Snapshot(), thrown) == HandleBatchInsertSpec(options, store, batch, old(Snapshot()))
    {
      var docs := MapAll(batch, RecordConverter.Convert);
      if docs.Failure? {
        return Some(docs.error);
      }
      var reply := store(Driver.InsertDocuments(docs.value, options.createOptions));
      if reply.Threw? {
        return Some(ArangoDBException(reply.errorNum));
      }
      var items := reply.items;
      thrown := CheckResultSize(|batch|, |items|);
      if thrown.Some? {
        return;
      }
      thrown := CheckTransientErrors(batch, items);
      if thrown.Some? {
        return;
      }
      thrown := CheckDataErrors(batch, items);
    }

    /** `checkTransientErrors`. */
    method CheckTransientErrors(batch: seq<SinkRecord>, items: seq<Driver.ItemResult>) returns (thrown: Option<Exception>)
      requires |batch| == |items|
      modifies this
      ensures Step(Snapshot(), thrown) == CheckTransientErrorsSpec(options, batch, items, old(Snapshot()))
    {
      var i := 0;
      while i < |items|
        invariant 0 <= i <= |items|
        invariant forall j :: 0 <= j < i ==> !IsTransientItem(options, items[j])
        invariant Snapshot() == old(Snapshot())
      {
        if items[i].ErrorEntity? && !IsDataError(options, Some(items[i].errorNum)) {
          errorRecord := Some(batch[i]);
          return Some(TransientExceptionFor(items[i].errorNum));
        }
        i := i + 1;
      }
      return None;
    }

    /** `checkDataErrors`. */
    method CheckDataErrors(batch: seq<SinkRecord>, items: seq<Driver.ItemResult>) returns (thrown: Option<Exception>)
      requires |batch| == |items|
      modifies this
      ensures Step(Snapshot(), thrown) == CheckDataErrorsFrom(options, batch, items, old(Snapshot()), 0)
    {
      var i := 0;
      while i < |items|
        invariant 0 <= i <= |items|
        invariant CheckDataErrorsFrom(options, batch, items, Snapshot(), i)
               == CheckDataErrorsFrom(options, batch, items, old(Snapshot()), 0)
      {
        if items[i].ErrorEntity? && IsDataError(options, Some(items[i].errorNum)) {
          errorRecord := Some(batch[i]);
          thrown := HandleDataException(DataExceptionFor(items[i].errorNum));
          if thrown.Some? {
            return;
          }
        }
        i := i + 1;
      }
      return None;
    }

    /** `handleDataException`. */
    method HandleDataException(e: Exception) returns (thrown: Option<Exception>)
      modifies this
      ensures Step(Snapshot(), thrown) == HandleDataExceptionSpec(options, e, old(Snapshot()))
    {
      if errorRecord.None? {
        return Some(ConnectException(DATA_EXCEPTION_IN_BATCH));
      }
      if options.tolerateDataErrors {
        if options.hasReporter {
          reports := reports + [Report(errorRecord.value, e)];
        }
        return None;
      }
      return Some(e);
    }

    /** `handleTransientException`: always throws. */
    method HandleTransientException(e: Exception) returns (thrown: Option<Exception>)
      modifies this
      ensures thrown.Some?
      ensures Step(Snapshot(), thrown) == HandleTransientSpec(options, e, old(Snapshot()))
    {
      if remainingRetries > 0 {
        remainingRetries := remainingRetries - 1;
        timeouts := timeouts + [options.retryBackoffMs];
        thrown := Some(RetriableException(e));
      } else {
        remainingRetries := options.maxRetries;
        thrown := Some(e);
      }
    }
  }
}
