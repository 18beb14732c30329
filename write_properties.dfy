/**
 * What `ArangoWriter.put` guarantees over a whole call, and how single
 * batches end: which records are written in which batches, where the writer
 * resumes after an exception, how the retry budget and the back-off requests
 * evolve, when errors are reported, and which failures are fatal.
 */
module WriteProperties {
  import opened Wrappers
  import opened Connect
  import Driver
  import RecordConverter
  import KeyConverter
  import ArangoSinkConfig
  import opened WriteSpec

  /** The concatenation of a sequence of batches. */
  function Flatten<T>(bs: seq<seq<T>>): (r: seq<T>)
  {
    if bs == [] then [] else bs[0] + Flatten(bs[1..])
  }

  /**
   * The batches `put` cuts `records[offset..]` into, for a positive batch
   * size: each is a non-empty run of records of one type, of at most
   * `batchSize` records.
   */
  function Batches(records: seq<SinkRecord>, offset: nat, batchSize: int): (bs: seq<seq<SinkRecord>>)
    requires offset <= |records| && batchSize > 0
    decreases |records| - offset
  {
    if offset == |records| then []
    else
      var b := ExtractBatch(records, offset, batchSize).value;
      [b] + Batches(records, offset + |b|, batchSize)
  }

  /** The batches, concatenated, are the records from the offset on, in order. */
  lemma {:induction false} BatchesCoverRecords(records: seq<SinkRecord>, offset: nat, batchSize: int)
    requires offset <= |records| && batchSize > 0
    ensures Flatten(Batches(records, offset, batchSize)) == records[offset..]
    decreases |records| - offset
  {
    if offset < |records| {
      var b, rest := FirstBatchRun(records, offset, batchSize);
      calc {
        Flatten(Batches(records, offset, batchSize));
        Flatten([b] + rest);
        { FlattenCons(b, rest); }
        b + Flatten(rest);
        { BatchesCoverRecords(records, offset + |b|, batchSize); }
        records[offset..offset + |b|] + records[offset + |b|..];
        { SliceSplit(records, offset, offset + |b|); }
        records[offset..];
      }
    }
  }

  lemma SliceSplit<T>(s: seq<T>, i: nat, j: nat)
    requires i <= j <= |s|
    ensures s[i..] == s[i..j] + s[j..]
  {
  }

  /**
   * Each batch is a non-empty run of records of one type, of at most
   * `batchSize` records, and is cut short of the batch size only where the
   * type of the records changes.
   */
  lemma {:induction false} BatchesMaximal(records: seq<SinkRecord>, offset: nat, batchSize: int)
    requires offset <= |records| && batchSize > 0
    ensures var bs := Batches(records, offset, batchSize);
            forall k :: 0 <= k < |bs| ==> bs[k] != [] && |bs[k]| <= batchSize && SameType(bs[k])
    ensures var bs := Batches(records, offset, batchSize);
            forall k :: 0 < k < |bs| ==> |bs[k - 1]| == batchSize || GetType(bs[k][0]) != GetType(bs[k - 1][0])
    decreases |records| - offset
  {
    if offset < |records| {
      var b, rest := FirstBatchRun(records, offset, batchSize);
      BatchesMaximal(records, offset + |b|, batchSize);
      var bs := [b] + rest;
      forall k | 0 < k < |bs|
        ensures |bs[k - 1]| == batchSize || GetType(bs[k][0]) != GetType(bs[k - 1][0])
      {
        if 1 < k {
          assert bs[k - 1] == rest[k - 2] && bs[k] == rest[k - 1];
        }
      }
    }
  }

  /** The first batch and the batches after it. */
  lemma FirstBatch(records: seq<SinkRecord>, offset: nat, batchSize: int)
    returns (b: seq<SinkRecord>, rest: seq<seq<SinkRecord>>)
    requires offset < |records| && batchSize > 0
    ensures b != [] && offset + |b| <= |records|
    ensures Batches(records, offset, batchSize) == [b] + rest
    ensures rest == Batches(records, offset + |b|, batchSize)
  {
    b := ExtractBatch(records, offset, batchSize).value;
    rest := Batches(records, offset + |b|, batchSize);
  }

  /** The first batch is the one `extractBatch` returns, with the properties `ExtractBatchRun` gives it. */
  lemma FirstBatchRun(records: seq<SinkRecord>, offset: nat, batchSize: int)
    returns (b: seq<SinkRecord>, rest: seq<seq<SinkRecord>>)
    requires offset < |records| && batchSize > 0
    ensures ExtractBatch(records, offset, batchSize) == Success(b)
    ensures b != [] && |b| <= batchSize && SameType(b)
    ensures offset + |b| <= |records| && b == records[offset..offset + |b|]
    ensures Batches(records, offset, batchSize) == [b] + rest
    ensures rest == Batches(records, offset + |b|, batchSize)
    ensures rest != [] ==> |b| == batchSize || GetType(rest[0][0]) != GetType(b[0])
  {
    b := ExtractBatch(records, offset, batchSize).value;
    ExtractBatchRun(records, offset, batchSize);
    rest := Batches(records, offset + |b|, batchSize);
    if rest != [] {
      ExtractBatchRun(records, offset + |b|, batchSize);
      var b1 := ExtractBatch(records, offset + |b|, batchSize).value;
      assert rest[0] == b1;
      assert b1[0] == records[offset + |b|];
      assert b[0] == records[offset];
    }
  }

  /** Splitting off the first batch of the concatenation. */
  lemma FlattenCons<T>(b: seq<T>, bs: seq<seq<T>>)
    ensures Flatten([b] + bs) == b + Flatten(bs)
  {
    assert ([b] + bs)[1..] == bs;
  }

  /** A batch handler that records each non-empty batch it is given and leaves the offset alone. */
  ghost predicate Tracks(handle: (seq<SinkRecord>, State) -> Step) {
    forall batch: seq<SinkRecord>, s: State :: batch != [] ==>
      handle(batch, s).state.handled == s.handled + [batch] && handle(batch, s).state.currentOffset == s.currentOffset
  }

  /** The handler of `put` is such a handler. */
  lemma BatchHandlerTracks(o: Options, store: Driver.Request -> Driver.Reply)
    ensures Tracks(BatchHandler(o, store))
  {
    BatchHandlerLawful(o, store);
  }

  /**
   * With a positive batch size, `put` hands the batches of `Batches` to
   * `handleBatch` in order. When it returns, all of them were handled; when
   * it throws, the last one handled is the batch that failed, the offset is
   * left at that batch's first record, and the same records, delivered again,
   * are cut into the failed batch and the ones after it.
   */
  lemma PutHandlesBatches(o: Options, handle: (seq<SinkRecord>, State) -> Step, records: seq<SinkRecord>, s: State)
    returns (n: nat, st: Step)
    requires Tracks(handle)
    requires o.batchSize > 0 && s.currentOffset <= |records|
    ensures st == PutLoop(o, handle, records, s)
    ensures n <= |Batches(records, s.currentOffset, o.batchSize)|
    ensures st.state.handled == s.handled + Batches(records, s.currentOffset, o.batchSize)[..n]
    ensures st.thrown.None? ==> n == |Batches(records, s.currentOffset, o.batchSize)|
    ensures st.thrown.Some? ==>
              && n > 0
              && st.state.currentOffset == s.currentOffset + |Flatten(Batches(records, s.currentOffset, o.batchSize)[..n - 1])|
              && st.state.currentOffset <= |records|
              && Batches(records, st.state.currentOffset, o.batchSize) == Batches(records, s.currentOffset, o.batchSize)[n - 1..]
  {
    n, st := PutHandlesPrefix(o, handle, records, s, Batches(records, s.currentOffset, o.batchSize));
    if st.thrown.Some? {
      var next := BatchesAfterPrefix(records, s.currentOffset, o.batchSize, n - 1);
    }
  }

  /** `PutHandlesBatches` up to where the offset is left, for the batches `bs`. */
  lemma {:induction false} PutHandlesPrefix(o: Options, handle: (seq<SinkRecord>, State) -> Step, records: seq<SinkRecord>, s: State,
                                            bs: seq<seq<SinkRecord>>)
    returns (n: nat, st: Step)
    requires Tracks(handle)
    requires o.batchSize > 0 && s.currentOffset <= |records|
    requires bs == Batches(records, s.currentOffset, o.batchSize)
    ensures st == PutLoop(o, handle, records, s)
    ensures n <= |bs|
    ensures st.state.handled == s.handled + bs[..n]
    ensures st.thrown.None? ==> n == |bs|
    ensures st.thrown.Some? ==> n > 0 && st.state.currentOffset == s.currentOffset + |Flatten(bs[..n - 1])|
    decreases |records| - s.currentOffset
  {
    if s.currentOffset == |records| {
      return 0, PutLoop(o, handle, records, s);
    }
    var b, st1 := PutLoopFirst(o, handle, records, s);
    var rest := Batches(records, s.currentOffset + |b|, o.batchSize);
    if st1.thrown.Some? {
      ThrownAtFirst(bs, b, rest);
      return 1, st1;
    }
    var s2 := st1.state.(remainingRetries := o.maxRetries, currentOffset := s.currentOffset + |b|);
    var m;
    m, st := PutHandlesPrefix(o, handle, records, s2, rest);
    n := m + 1;
    NextHandled(s.handled, s2.handled, st.state.handled, bs, b, rest, m);
    if st.thrown.Some? {
      NextOffset(bs, b, rest, m, s.currentOffset, st.state.currentOffset);
    }
  }

  /**
   * The records after the first `k` batches, cut again, give the remaining
   * batches: a batch boundary stays a boundary when the cutting restarts there.
   */
  lemma {:induction false} BatchesAfterPrefix(records: seq<SinkRecord>, offset: nat, batchSize: int, k: nat)
    returns (next: nat)
    requires offset <= |records| && batchSize > 0
    requires k <= |Batches(records, offset, batchSize)|
    ensures next == offset + |Flatten(Batches(records, offset, batchSize)[..k])|
    ensures next <= |records|
    ensures Batches(records, next, batchSize) == Batches(records, offset, batchSize)[k..]
    decreases k
  {
    var bs := Batches(records, offset, batchSize);
    if k == 0 {
      assert bs[..0] == [] && bs[0..] == bs;
      return offset;
    }
    var b, rest := FirstBatch(records, offset, batchSize);
    next := BatchesAfterPrefix(records, offset + |b|, batchSize, k - 1);
    ConsSlices(b, rest, k);
  }

  /** Prefix and suffix of `[b] + rest` past its head. */
  lemma ConsSlices<T>(b: seq<T>, rest: seq<seq<T>>, k: nat)
    requires 0 < k <= |rest| + 1
    ensures Flatten(([b] + rest)[..k]) == b + Flatten(rest[..k - 1])
    ensures ([b] + rest)[k..] == rest[k - 1..]
  {
    assert ([b] + rest)[..k] == [b] + rest[..k - 1];
    FlattenCons(b, rest[..k - 1]);
  }

  /**
   * The first iteration of the loop of `put` for a positive batch size: it
   * handles the first batch of `Batches`, and either ends with what that
   * throws or goes on after it.
   */
  lemma PutLoopFirst(o: Options, handle: (seq<SinkRecord>, State) -> Step, records: seq<SinkRecord>, s: State)
    returns (b: seq<SinkRecord>, st1: Step)
    requires Tracks(handle)
    requires o.batchSize > 0 && s.currentOffset < |records|
    ensures s.currentOffset + |b| <= |records|
    ensures Batches(records, s.currentOffset, o.batchSize) == [b] + Batches(records, s.currentOffset + |b|, o.batchSize)
    ensures st1.state.handled == s.handled + [b] && st1.state.currentOffset == s.currentOffset
    ensures PutLoop(o, handle, records, s)
            == if st1.thrown.Some? then st1
               else PutLoop(o, handle, records, st1.state.(remainingRetries := o.maxRetries, currentOffset := s.currentOffset + |b|))
  {
    var rest;
    b, rest := FirstBatchRun(records, s.currentOffset, o.batchSize);
    PutLoopBatch(o, handle, records, s, b);
    st1 := handle(b, s.(errorRecord := None));
  }

  lemma ThrownAtFirst<T>(bs: seq<seq<T>>, b: seq<T>, rest: seq<seq<T>>)
    requires bs == [b] + rest
    ensures bs[..1] == [b] && bs[..0] == [] && bs[0..] == bs
  {
  }

  /** One batch more: the batches handled. */
  lemma NextHandled<T>(handled: seq<seq<T>>, handled1: seq<seq<T>>, handledAfter: seq<seq<T>>,
                       bs: seq<seq<T>>, b: seq<T>, rest: seq<seq<T>>, m: nat)
    requires bs == [b] + rest && m <= |rest|
    requires handled1 == handled + [b] && handledAfter == handled1 + rest[..m]
    ensures handledAfter == handled + bs[..m + 1]
  {
    assert bs[..m + 1] == [b] + rest[..m];
  }

  /** One batch more: the offset of the last batch handled. */
  lemma NextOffset<T>(bs: seq<seq<T>>, b: seq<T>, rest: seq<seq<T>>, m: nat, offset: int, offsetAfter: int)
    requires bs == [b] + rest && 0 < m <= |rest|
    requires offsetAfter == offset + |b| + |Flatten(rest[..m - 1])|
    ensures offsetAfter == offset + |Flatten(bs[..m])|
  {
    ConsSlices(b, rest, m);
  }

  /**
   * How a call of `put` ends. When it returns, the offset is back at 0, the
   * retry budget is full and no back-off was requested. It throws only an
   * `IllegalArgumentException` for a negative batch size, a `DataException`
   * when data errors are not tolerated, the fatal `ConnectException` for a
   * data exception without a record, or a transient exception; it asks the sink
   * task to back off exactly when it throws a `RetriableException`, which
   * uses one retry, and it throws the `TransientException` itself only with
   * the budget reset. Reports are only ever added, and only by a tolerant
   * writer with a reporter.
   */
  predicate PutEnds(o: Options, records: seq<SinkRecord>, s: State, st: Step) {
    && (st.thrown.None? ==>
          st.state.remainingRetries == o.maxRetries && st.state.currentOffset == 0 && st.state.timeouts == s.timeouts)
    && (st.thrown.Some? ==>
          && st.state.currentOffset < |records|
          && (|| (st.thrown.value == IllegalArgumentException && o.batchSize < 0)
              || (st.thrown.value.DataException? && !o.tolerateDataErrors)
              || st.thrown.value == ConnectException(DATA_EXCEPTION_IN_BATCH)
              || st.thrown.value.TransientException?
              || st.thrown.value.RetriableException?))
    && (st.thrown.Some? && st.thrown.value.RetriableException? ==>
          && st.state.timeouts == s.timeouts + [o.retryBackoffMs]
          && (st.state.remainingRetries + 1 == s.remainingRetries || st.state.remainingRetries + 1 == o.maxRetries))
    && (st.thrown.Some? && !st.thrown.value.RetriableException? ==> st.state.timeouts == s.timeouts)
    && (st.thrown.Some? && st.thrown.value.TransientException? ==> st.state.remainingRetries == o.maxRetries)
    && s.reports <= st.state.reports
    && (|st.state.reports| > |s.reports| ==> o.tolerateDataErrors && o.hasReporter)
  }

  /** The loop of `put` ends as `PutEnds` says, for any handler that ends each batch as `HandledOnce` says. */
  lemma {:induction false} PutOutcome(o: Options, handle: (seq<SinkRecord>, State) -> Step, records: seq<SinkRecord>, s: State)
    requires Lawful(o, handle)
    ensures PutEnds(o, records, s, PutLoop(o, handle, records, s))
    decreases |records| - s.currentOffset
  {
    if s.currentOffset < |records| {
      var s1 := s.(errorRecord := None);
      var extracted := ExtractBatch(records, s.currentOffset, o.batchSize);
      if extracted.Success? && extracted.value != [] {
        var b := extracted.value;
        PutLoopBatch(o, handle, records, s, b);
        var st1 := handle(b, s1);
        if st1.thrown.None? {
          var s2 := st1.state.(remainingRetries := o.maxRetries, currentOffset := s.currentOffset + |b|);
          PutOutcome(o, handle, records, s2);
          var st := PutLoop(o, handle, records, s2);
          assert s2.reports <= st.state.reports;
        }
      }
    }
  }

  /**
   * The retry budget stays between 0 and `maxRetries` across calls of `put`,
   * as it is from the constructor on.
   */
  lemma {:induction false} RetryBudgetBounded(o: Options, handle: (seq<SinkRecord>, State) -> Step, records: seq<SinkRecord>, s: State)
    requires Lawful(o, handle)
    requires 0 <= s.remainingRetries <= o.maxRetries
    ensures 0 <= PutLoop(o, handle, records, s).state.remainingRetries <= o.maxRetries
    decreases |records| - s.currentOffset
  {
    if s.currentOffset < |records| {
      var s1 := s.(errorRecord := None);
      var extracted := ExtractBatch(records, s.currentOffset, o.batchSize);
      if extracted.Success? && extracted.value != [] {
        var b := extracted.value;
        PutLoopBatch(o, handle, records, s, b);
        var st1 := handle(b, s1);
        if st1.thrown.None? {
          RetryBudgetBounded(o, handle, records, st1.state.(remainingRetries := o.maxRetries, currentOffset := s.currentOffset + |b|));
        }
      }
    }
  }

  /** `RetryBudgetBounded` for `put` itself. */
  lemma RetryBudgetKept(o: Options, store: Driver.Request -> Driver.Reply, records: seq<SinkRecord>, s: State)
    requires 0 <= s.remainingRetries <= o.maxRetries
    ensures 0 <= PutSpec(o, store, records, s).state.remainingRetries <= o.maxRetries
  {
    if records != [] {
      BatchHandlerLawful(o, store);
      RetryBudgetBounded(o, BatchHandler(o, store), records, s);
    }
  }

  /** A call of `put` on a non-empty collection ends as `PutEnds` says. */
  lemma PutEndsOnStore(o: Options, store: Driver.Request -> Driver.Reply, records: seq<SinkRecord>, s: State)
    requires records != []
    ensures PutEnds(o, records, s, PutSpec(o, store, records, s))
  {
    BatchHandlerLawful(o, store);
    PutOutcome(o, BatchHandler(o, store), records, s);
  }

  /**
   * `put` itself, with a positive batch size, writes the batches of `Batches`
   * in order: all of them when it returns; when it throws, the first `n`,
   * the last being the one that failed, where the offset is left so that the
   * redelivered records are cut into that batch and the ones after it.
   */
  lemma PutWritesBatches(o: Options, store: Driver.Request -> Driver.Reply, records: seq<SinkRecord>, s: State)
    returns (n: nat)
    requires o.batchSize > 0 && s.currentOffset < |records|
    ensures var st := PutSpec(o, store, records, s);
            var bs := Batches(records, s.currentOffset, o.batchSize);
            && n <= |bs|
            && st.state.handled == s.handled + bs[..n]
            && (st.thrown.None? ==> n == |bs|)
            && (st.thrown.Some? ==>
                  && 0 < n && st.state.currentOffset <= |records|
                  && Batches(records, st.state.currentOffset, o.batchSize) == bs[n - 1..])
  {
    BatchHandlerTracks(o, store);
    var st;
    n, st := PutHandlesBatches(o, BatchHandler(o, store), records, s);
  }

  /** A batch size of 0 makes every batch empty: `put` writes nothing and returns. */
  lemma ZeroBatchSizeSkipsRecords(o: Options, store: Driver.Request -> Driver.Reply, records: seq<SinkRecord>, s: State)
    requires o.batchSize == 0 && s.currentOffset < |records|
    ensures PutSpec(o, store, records, s)
            == Step(s.(errorRecord := None, remainingRetries := o.maxRetries, currentOffset := 0), None)
  {
  }

  /**
   * A negative batch size makes `subList` throw before any batch is handled,
   * outside the `try`: nothing but the error record changes.
   */
  lemma NegativeBatchSizeThrows(o: Options, store: Driver.Request -> Driver.Reply, records: seq<SinkRecord>, s: State)
    requires o.batchSize < 0 && s.currentOffset < |records|
    ensures PutSpec(o, store, records, s) == Step(s.(errorRecord := None), Some(IllegalArgumentException))
  {
  }

  /**
   * A record that cannot be converted to a document fails the whole insert
   * batch with a `DataException` that no result names, so `put` ends with the
   * fatal `ConnectException`, whether or not data errors are tolerated.
   */
  lemma ConversionFailureFatal(o: Options, store: Driver.Request -> Driver.Reply, batch: seq<SinkRecord>, s: State, i: nat)
    requires batch != [] && GetType(batch[0]) == INSERT && s.errorRecord.None?
    requires i < |batch| && RecordConverter.Convert(batch[i]).Failure?
    ensures TryHandleBatch(o, store, batch, s)
            == Step(s.(handled := s.handled + [batch]), Some(ConnectException(DATA_EXCEPTION_IN_BATCH)))
  {
    var res := MapAll(batch, RecordConverter.Convert);
    assert res.Failure?;
    var j :| 0 <= j < |batch| && RecordConverter.Convert(batch[j]) == Failure(res.error);
    assert res.error.DataException?;
  }

  /** The same holds for a delete batch whose record key cannot be converted. */
  lemma KeyConversionFailureFatal(o: Options, store: Driver.Request -> Driver.Reply, batch: seq<SinkRecord>, s: State, i: nat)
    requires batch != [] && GetType(batch[0]) == DELETE && o.deleteEnabled && s.errorRecord.None?
    requires i < |batch| && KeyConverter.Convert(batch[i]).Failure?
    ensures TryHandleBatch(o, store, batch, s)
            == Step(s.(handled := s.handled + [batch]), Some(ConnectException(DATA_EXCEPTION_IN_BATCH)))
  {
    var res := MapAll(batch, KeyConverter.Convert);
    assert res.Failure?;
    var j :| 0 <= j < |batch| && KeyConverter.Convert(batch[j]) == Failure(res.error);
    assert res.error.DataException?;
  }

  /**
   * When the driver throws for a whole insert request, an error number that is
   * a data error makes the batch fail fatally; any other is handled as a
   * transient error.
   */
  lemma InsertRequestThrows(o: Options, store: Driver.Request -> Driver.Reply, batch: seq<SinkRecord>, s: State, n: Option<int>)
    requires batch != [] && GetType(batch[0]) == INSERT && s.errorRecord.None?
    requires MapAll(batch, RecordConverter.Convert).Success?
    requires store(Driver.InsertDocuments(MapAll(batch, RecordConverter.Convert).value, o.createOptions)) == Driver.Threw(n)
    ensures var s1 := s.(handled := s.handled + [batch]);
            TryHandleBatch(o, store, batch, s)
            == if IsDataError(o, n) then Step(s1, Some(ConnectException(DATA_EXCEPTION_IN_BATCH)))
               else HandleTransientSpec(o, TransientException(ArangoDBException(n)), s1)
  {
  }

  /**
   * With deletes disabled, a delete batch fails with a transient exception:
   * it uses the retry budget like a server failure does.
   */
  lemma DeleteDisabledTransient(o: Options, store: Driver.Request -> Driver.Reply, batch: seq<SinkRecord>, s: State)
    requires batch != [] && GetType(batch[0]) == DELETE && !o.deleteEnabled
    ensures TryHandleBatch(o, store, batch, s)
            == HandleTransientSpec(o, TransientException(ConnectException(DELETES_NOT_ENABLED)), s.(handled := s.handled + [batch]))
  {
  }

  /** An insert batch: the `catch` of the wrapped outcome of `handleBatchInsert`. */
  lemma InsertBatchSteps(o: Options, store: Driver.Request -> Driver.Reply, batch: seq<SinkRecord>, s: State)
    requires batch != [] && GetType(batch[0]) == INSERT
    ensures TryHandleBatch(o, store, batch, s)
            == Caught(o, Wrapped(o, HandleBatchInsertSpec(o, store, batch, s.(handled := s.handled + [batch]))))
  {
  }

  /** A delete batch: the `catch` of the wrapped outcome of `handleBatchDelete`. */
  lemma DeleteBatchSteps(o: Options, store: Driver.Request -> Driver.Reply, batch: seq<SinkRecord>, s: State)
    requires batch != [] && GetType(batch[0]) == DELETE
    ensures TryHandleBatch(o, store, batch, s)
            == Caught(o, Wrapped(o, HandleBatchDeleteSpec(o, store, batch, s.(handled := s.handled + [batch]))))
  {
  }

  /** `handleBatchInsert` once the driver has answered with per-document results. */
  lemma InsertReplied(o: Options, store: Driver.Request -> Driver.Reply, batch: seq<SinkRecord>, s: State, items: seq<Driver.ItemResult>)
    requires MapAll(batch, RecordConverter.Convert).Success?
    requires store(Driver.InsertDocuments(MapAll(batch, RecordConverter.Convert).value, o.createOptions)) == Driver.DocumentsAndErrors(items)
    ensures HandleBatchInsertSpec(o, store, batch, s)
            == if |items| != |batch| then Step(s, CheckResultSize(|batch|, |items|)) else CheckResultsSpec(o, batch, items, s)
  {
  }

  /** `handleBatchDelete` once the driver has answered with per-document results. */
  lemma DeleteReplied(o: Options, store: Driver.Request -> Driver.Reply, batch: seq<SinkRecord>, s: State, items: seq<Driver.ItemResult>)
    requires o.deleteEnabled && MapAll(batch, KeyConverter.Convert).Success?
    requires store(Driver.DeleteDocuments(MapAll(batch, KeyConverter.Convert).value, o.deleteOptions)) == Driver.DocumentsAndErrors(items)
    requires |items| == |batch|
    ensures HandleBatchDeleteSpec(o, store, batch, s)
            == CheckResultsSpec(o, Select(batch, KeptIndices(items)), Select(items, KeptIndices(items)), s)
  {
  }

  /** When the driver returns a result count other than the batch length, the batch is retried as transient. */
  lemma ResultSizeMismatchTransient(o: Options, store: Driver.Request -> Driver.Reply, batch: seq<SinkRecord>, s: State, items: seq<Driver.ItemResult>)
    requires batch != [] && GetType(batch[0]) == INSERT
    requires MapAll(batch, RecordConverter.Convert).Success?
    requires store(Driver.InsertDocuments(MapAll(batch, RecordConverter.Convert).value, o.createOptions)) == Driver.DocumentsAndErrors(items)
    requires |items| != |batch|
    ensures TryHandleBatch(o, store, batch, s)
            == HandleTransientSpec(o, TransientException(CheckResultSize(|batch|, |items|).value), s.(handled := s.handled + [batch]))
  {
    var s1 := s.(handled := s.handled + [batch]);
    InsertBatchSteps(o, store, batch, s);
    InsertReplied(o, store, batch, s1, items);
  }

  /** The same holds for a delete batch: the size check comes before the "document not found" filter. */
  lemma DeleteResultSizeMismatchTransient(o: Options, store: Driver.Request -> Driver.Reply, batch: seq<SinkRecord>, s: State, items: seq<Driver.ItemResult>)
    requires batch != [] && GetType(batch[0]) == DELETE && o.deleteEnabled
    requires MapAll(batch, KeyConverter.Convert).Success?
    requires store(Driver.DeleteDocuments(MapAll(batch, KeyConverter.Convert).value, o.deleteOptions)) == Driver.DocumentsAndErrors(items)
    requires |items| != |batch|
    ensures TryHandleBatch(o, store, batch, s)
            == HandleTransientSpec(o, TransientException(CheckResultSize(|batch|, |items|).value), s.(handled := s.handled + [batch]))
  {
    var s1 := s.(handled := s.handled + [batch]);
    DeleteBatchSteps(o, store, batch, s);
    assert HandleBatchDeleteSpec(o, store, batch, s1) == Step(s1, CheckResultSize(|batch|, |items|));
  }

  /** With no error among the results, `checkTransientErrors` and `checkDataErrors` change nothing. */
  lemma {:induction false} CheckResultsClean(o: Options, batch: seq<SinkRecord>, items: seq<Driver.ItemResult>, s: State)
    requires |batch| == |items|
    requires forall j :: 0 <= j < |items| ==> items[j].DocumentEntity?
    ensures CheckResultsSpec(o, batch, items, s) == Step(s, None)
  {
    NoDataErrorsFrom(o, items, 0);
    CheckDataErrorsNone(o, batch, items, s, 0);
  }

  lemma {:induction false} NoDataErrorsFrom(o: Options, items: seq<Driver.ItemResult>, i: nat)
    requires forall j :: 0 <= j < |items| ==> items[j].DocumentEntity?
    ensures DataErrorIndicesFrom(o, items, i) == []
    decreases |items| - i
  {
    if i < |items| {
      NoDataErrorsFrom(o, items, i + 1);
    }
  }

  /** Only "document not found" errors are dropped, so what is kept of such results has no error. */
  lemma KeptNoErrors(items: seq<Driver.ItemResult>)
    requires forall j :: 0 <= j < |items| ==> items[j].DocumentEntity? || IsNotFound(items[j])
    ensures forall j :: 0 <= j < |KeptIndices(items)| ==> Select(items, KeptIndices(items))[j].DocumentEntity?
  {
    var kept := KeptIndices(items);
    forall j | 0 <= j < |kept|
      ensures Select(items, kept)[j].DocumentEntity?
    {
      assert kept[j] in kept;
    }
  }

  /**
   * Deletes are idempotent: when the only errors of a delete are "document
   * not found", `handleBatchDelete` returns without an exception and changes
   * nothing.
   */
  lemma NotFoundIgnored(o: Options, store: Driver.Request -> Driver.Reply, batch: seq<SinkRecord>, s: State, items: seq<Driver.ItemResult>)
    requires o.deleteEnabled && MapAll(batch, KeyConverter.Convert).Success?
    requires store(Driver.DeleteDocuments(MapAll(batch, KeyConverter.Convert).value, o.deleteOptions)) == Driver.DocumentsAndErrors(items)
    requires |items| == |batch|
    requires forall j :: 0 <= j < |items| ==> items[j].DocumentEntity? || IsNotFound(items[j])
    ensures HandleBatchDeleteSpec(o, store, batch, s) == Step(s, None)
  {
    KeptClean(o, batch, s, items);
    DeleteClean(o, store, batch, s, items);
  }

  /** What is kept of results whose only errors are "document not found" passes both checks unchanged. */
  lemma KeptClean(o: Options, batch: seq<SinkRecord>, s: State, items: seq<Driver.ItemResult>)
    requires |items| == |batch|
    requires forall j :: 0 <= j < |items| ==> items[j].DocumentEntity? || IsNotFound(items[j])
    ensures CheckResultsSpec(o, Select(batch, KeptIndices(items)), Select(items, KeptIndices(items)), s) == Step(s, None)
  {
    var kept := KeptIndices(items);
    KeptNoErrors(items);
    CheckResultsClean(o, Select(batch, kept), Select(items, kept), s);
  }

  lemma DeleteClean(o: Options, store: Driver.Request -> Driver.Reply, batch: seq<SinkRecord>, s: State, items: seq<Driver.ItemResult>)
    requires o.deleteEnabled && MapAll(batch, KeyConverter.Convert).Success?
    requires store(Driver.DeleteDocuments(MapAll(batch, KeyConverter.Convert).value, o.deleteOptions)) == Driver.DocumentsAndErrors(items)
    requires |items| == |batch|
    requires CheckResultsSpec(o, Select(batch, KeptIndices(items)), Select(items, KeptIndices(items)), s) == Step(s, None)
    ensures HandleBatchDeleteSpec(o, store, batch, s) == Step(s, None)
  {
    DeleteReplied(o, store, batch, s, items);
  }

  /**
   * Transient errors are checked first: when any result of an insert is a
   * transient error, the batch fails as transient on the first of them, and
   * no data error of the batch is reported, even one that comes before it.
   */
  lemma TransientResultsFirst(o: Options, store: Driver.Request -> Driver.Reply, batch: seq<SinkRecord>, s: State, items: seq<Driver.ItemResult>, i: nat)
    requires batch != [] && GetType(batch[0]) == INSERT
    requires MapAll(batch, RecordConverter.Convert).Success?
    requires store(Driver.InsertDocuments(MapAll(batch, RecordConverter.Convert).value, o.createOptions)) == Driver.DocumentsAndErrors(items)
    requires |items| == |batch|
    requires i < |items| && IsTransientItem(o, items[i])
    ensures var k := FirstTransient(o, items);
            var st := TryHandleBatch(o, store, batch, s);
            && k < |items|
            && st.state.reports == s.reports
            && st.state.errorRecord == Some(batch[k])
            && st.thrown.Some?
            && (s.remainingRetries > 0 ==> st.thrown.value == RetriableException(TransientExceptionFor(items[k].errorNum)))
            && (s.remainingRetries <= 0 ==> st.thrown.value == TransientExceptionFor(items[k].errorNum))
  {
    InsertBatchSteps(o, store, batch, s);
    InsertReplied(o, store, batch, s.(handled := s.handled + [batch]), items);
  }

  /**
   * A tolerant writer carries on past the data errors of an insert batch with
   * no transient error, reporting each failed record with its error, in order,
   * when it has a reporter.
   */
  lemma DataResultsTolerated(o: Options, store: Driver.Request -> Driver.Reply, batch: seq<SinkRecord>, s: State, items: seq<Driver.ItemResult>)
    requires batch != [] && GetType(batch[0]) == INSERT && o.tolerateDataErrors
    requires MapAll(batch, RecordConverter.Convert).Success?
    requires store(Driver.InsertDocuments(MapAll(batch, RecordConverter.Convert).value, o.createOptions)) == Driver.DocumentsAndErrors(items)
    requires |items| == |batch|
    requires forall j :: 0 <= j < |items| ==> !IsTransientItem(o, items[j])
    ensures var st := TryHandleBatch(o, store, batch, s);
            && st.thrown.None?
            && st.state.reports == s.reports + (if o.hasReporter then ReportsFor(o, batch, items, DataErrorIndicesFrom(o, items, 0)) else [])
  {
    var s1 := s.(handled := s.handled + [batch]);
    InsertBatchSteps(o, store, batch, s);
    InsertReplied(o, store, batch, s1, items);
    CheckDataErrorsTolerated(o, batch, items, s1, 0);
  }

  /** With no transient error, an intolerant writer's checks throw for the first data error. */
  lemma CheckResultsIntolerant(o: Options, batch: seq<SinkRecord>, items: seq<Driver.ItemResult>, s: State)
    requires |batch| == |items| && !o.tolerateDataErrors
    requires forall j :: 0 <= j < |items| ==> !IsTransientItem(o, items[j])
    requires DataErrorIndicesFrom(o, items, 0) != []
    ensures var idx := DataErrorIndicesFrom(o, items, 0);
            var st := CheckResultsSpec(o, batch, items, s);
            && st.thrown == Some(DataExceptionFor(items[idx[0]].errorNum))
            && st.state.errorRecord == Some(batch[idx[0]])
            && st.state.reports == s.reports
  {
    CheckDataErrorsIntolerant(o, batch, items, s, 0);
  }

  /**
   * An intolerant writer fails an insert batch with no transient error on its
   * first data error, with that result's record as the error record, and
   * reports nothing.
   */
  lemma DataResultsNotTolerated(o: Options, store: Driver.Request -> Driver.Reply, batch: seq<SinkRecord>, s: State, items: seq<Driver.ItemResult>, i: nat)
    requires batch != [] && GetType(batch[0]) == INSERT && !o.tolerateDataErrors
    requires MapAll(batch, RecordConverter.Convert).Success?
    requires store(Driver.InsertDocuments(MapAll(batch, RecordConverter.Convert).value, o.createOptions)) == Driver.DocumentsAndErrors(items)
    requires |items| == |batch|
    requires forall j :: 0 <= j < |items| ==> !IsTransientItem(o, items[j])
    requires i < |items| && IsDataItem(o, items[i])
    ensures var idx := DataErrorIndicesFrom(o, items, 0);
            var st := TryHandleBatch(o, store, batch, s);
            && idx != []
            && st.thrown == Some(DataExceptionFor(items[idx[0]].errorNum))
            && st.state.errorRecord == Some(batch[idx[0]])
            && st.state.reports == s.reports
  {
    var s1 := s.(handled := s.handled + [batch]);
    InsertBatchSteps(o, store, batch, s);
    InsertReplied(o, store, batch, s1, items);
    assert i in DataErrorIndicesFrom(o, items, 0);
    CheckResultsIntolerant(o, batch, items, s1);
  }

  /**
   * On a constructed configuration the writer's settings are read without an
   * exception unless an extra data error number is not an integer; data
   * errors are tolerated exactly for the tolerance "ALL".
   */
  lemma ReadOptionsOnValid(c: ArangoSinkConfig.Config, hasReporter: bool)
    requires ArangoSinkConfig.Valid(c)
    ensures ReadOptions(c, hasReporter).Success? <==> ArangoSinkConfig.GetExtraDataErrorsNums(c).Success?
    ensures ReadOptions(c, hasReporter).Success? ==>
              ReadOptions(c, hasReporter).value.tolerateDataErrors == (c.dataErrorsTolerance == "ALL")
  {
    ArangoSinkConfig.GettersTotalOnValid(c);
  }
}
