/**
 * What `ArangoWriter` does, as functions of its state: how `put` cuts the
 * records into batches, how a batch is written, how the per-document results
 * are classified, and how data and transient errors are handled. The class in
 * `arango_writer.dfy` is proved to follow these functions step by step.
 */
module WriteSpec {
  import opened Wrappers
  import opened Connect
  import Driver
  import Text
  import KeyConverter
  import RecordConverter
  import ArangoSinkConfig

  /** Whether a batch is written with inserts or with deletes. */
  datatype Type = INSERT | DELETE

  /** Server error numbers that are data errors: a property of the document, not of the server's state. */
  const DATA_ERROR_NUMS: set<int> := {
    1208, 1210, 1216, 1221, 1222, 1226, 1233, 1466, 1469, 1504, 1505, 1524, 1542,
    1543, 1561, 1562, 1563, 1569, 1572, 1578, 1593, 1594, 1620, 4001, 4003, 4010
  }

  /** "document not found", ignored in delete results so that deletes are idempotent. */
  const DOCUMENT_NOT_FOUND := 1202

  const DELETES_NOT_ENABLED := "Deletes are not enabled."
  const DATA_EXCEPTION_IN_BATCH := "Got data exception in batch write!"

  /** The settings the writer reads once, in its constructor. */
  datatype Options = Options(
    createOptions: Driver.DocumentCreateOptions,
    deleteOptions: Driver.DocumentDeleteOptions,
    batchSize: int,
    deleteEnabled: bool,
    maxRetries: int,
    retryBackoffMs: int,
    tolerateDataErrors: bool,
    logDataErrors: bool,
    extraDataErrorsNums: set<int>,
    hasReporter: bool)   // whether the sink task's context supplies an errant record reporter

  /** The settings read by the constructor, in its order; the first getter that throws ends it. */
  function ReadOptions(c: ArangoSinkConfig.Config, hasReporter: bool): (res: Result<Options, Exception>)
    ensures res.Success? <==>
              && ArangoSinkConfig.GetCreateOptions(c).Success?
              && ArangoSinkConfig.GetTolerateDataErrors(c).Success?
              && ArangoSinkConfig.GetExtraDataErrorsNums(c).Success?
    ensures res.Success? ==>
              && res.value.createOptions == ArangoSinkConfig.GetCreateOptions(c).value
              && res.value.deleteOptions == ArangoSinkConfig.GetDeleteOptions(c)
              && res.value.batchSize == c.batchSize
              && res.value.deleteEnabled == c.deleteEnabled
              && res.value.maxRetries == c.maxRetries
              && res.value.retryBackoffMs == c.retryBackoffMs
              && res.value.tolerateDataErrors == ArangoSinkConfig.GetTolerateDataErrors(c).value
              && res.value.logDataErrors == c.logDataErrors
              && res.value.extraDataErrorsNums == ArangoSinkConfig.GetExtraDataErrorsNums(c).value
              && res.value.hasReporter == hasReporter
    ensures res.Failure? ==> res.error == IllegalArgumentException || res.error.NumberFormatException?
  {
    var createOptions :- ArangoSinkConfig.GetCreateOptions(c);
    var tolerate :- ArangoSinkConfig.GetTolerateDataErrors(c);
    var extra :- ArangoSinkConfig.GetExtraDataErrorsNums(c);
    Success(Options(createOptions, ArangoSinkConfig.GetDeleteOptions(c), c.batchSize, c.deleteEnabled,
                    c.maxRetries, c.retryBackoffMs, tolerate, c.logDataErrors, extra, hasReporter))
  }

  /** A record and the exception handed to the errant record reporter. */
  datatype Report = Report(record: SinkRecord, error: Exception)

  /**
   * The writer's mutable fields, with three observations of its effects: the
   * batches handed to `handleBatch`, the reports made, and the back-off
   * periods passed to `context.timeout`.
   */
  datatype State = State(
    remainingRetries: int,
    currentOffset: nat,
    errorRecord: Option<SinkRecord>,
    handled: seq<seq<SinkRecord>>,
    reports: seq<Report>,
    timeouts: seq<int>)

  /** A state after an operation, and the exception it threw (`None` when it returned). */
  datatype Step = Step(state: State, thrown: Option<Exception>)

  /** The state the constructor sets up. */
  function Initial(o: Options): (s: State)
    ensures s.remainingRetries == o.maxRetries && s.currentOffset == 0 && s.errorRecord.None?
    ensures s.handled == [] && s.reports == [] && s.timeouts == []
  {
    State(o.maxRetries, 0, None, [], [], [])
  }

  /** `getType`: a record with a key and no value (a tombstone) is a delete. */
  function GetType(r: SinkRecord): (t: Type)
    ensures t == DELETE <==> r.key.Some? && r.value.None?
  {
    if r.key.Some? && r.value.None? then DELETE else INSERT
  }

  /** All records of a batch have the type of its first record. */
  predicate SameType(batch: seq<SinkRecord>) {
    forall j :: 0 <= j < |batch| ==> GetType(batch[j]) == GetType(batch[0])
  }

  /**
   * The index of the first record at or after `i` whose type differs from
   * `t`, or the length when there is none.
   */
  function RunEnd(records: seq<SinkRecord>, i: nat, t: Type): (j: nat)
    requires i <= |records|
    ensures i <= j <= |records|
    decreases |records| - i
  {
    if i == |records| || GetType(records[i]) != t then i else RunEnd(records, i + 1, t)
  }

  /** From `i` up to `RunEnd`, every record has type `t`; the record there does not. */
  lemma {:induction false} RunEndRun(records: seq<SinkRecord>, i: nat, t: Type)
    requires i <= |records|
    ensures forall j :: i <= j < RunEnd(records, i, t) ==> GetType(records[j]) == t
    ensures RunEnd(records, i, t) < |records| ==> GetType(records[RunEnd(records, i, t)]) != t
    decreases |records| - i
  {
    if i < |records| && GetType(records[i]) == t {
      RunEndRun(records, i + 1, t);
    }
  }

  /**
   * `extractBatch`: the longest run of records of one type from the current
   * offset, cut at the batch size. `subList` throws `IllegalArgumentException`
   * for a negative batch size.
   */
  function ExtractBatch(records: seq<SinkRecord>, offset: nat, batchSize: int): (res: Result<seq<SinkRecord>, Exception>)
    requires offset <= |records|
    ensures res.Failure? <==> offset < |records| && batchSize < 0
    ensures res.Failure? ==> res.error == IllegalArgumentException
    ensures res.Success? ==> offset + |res.value| <= |records| && (res.value == [] <==> offset == |records| || batchSize == 0)
  {
    if offset == |records| then Success([])
    else
      var toIndex := RunEnd(records, offset, GetType(records[offset])) - offset;
      var end := if toIndex < batchSize then toIndex else batchSize;
      if end < 0 then Failure(IllegalArgumentException) else Success(records[offset..offset + end])
  }

  /**
   * A batch `extractBatch` returns is the records from the offset on, all of
   * the type of the first, at most `batchSize` of them, and it stops short of
   * the batch size only at a record of the other type.
   */
  lemma ExtractBatchRun(records: seq<SinkRecord>, offset: nat, batchSize: int)
    requires offset <= |records|
    ensures var res := ExtractBatch(records, offset, batchSize);
            res.Success? ==>
              var b := res.value;
              && offset + |b| <= |records|
              && b == records[offset..offset + |b|]
              && SameType(b)
              && (offset < |records| ==> |b| <= batchSize)
              && (offset + |b| < |records| && |b| < batchSize ==> GetType(records[offset + |b|]) != GetType(records[offset]))
  {
    if offset < |records| {
      RunEndRun(records, offset, GetType(records[offset]));
    }
  }

  /** `isDataError`: a built-in or configured data error number; a missing number is not one. */
  predicate IsDataError(o: Options, errorNum: Option<int>) {
    errorNum.Some? && (errorNum.value in DATA_ERROR_NUMS || errorNum.value in o.extraDataErrorsNums)
  }

  /** A per-document result that is an error other than a data error. */
  predicate IsTransientItem(o: Options, r: Driver.ItemResult) {
    r.ErrorEntity? && !IsDataError(o, Some(r.errorNum))
  }

  /** A per-document result that is a data error. */
  predicate IsDataItem(o: Options, r: Driver.ItemResult) {
    r.ErrorEntity? && IsDataError(o, Some(r.errorNum))
  }

  /** A per-document "document not found" error. */
  predicate IsNotFound(r: Driver.ItemResult) {
    r.ErrorEntity? && r.errorNum == DOCUMENT_NOT_FOUND
  }

  /** The exception `checkDataErrors` builds from a per-document error. */
  function DataExceptionFor(errorNum: int): Exception {
    DataException(CausedBy(ArangoDBException(Some(errorNum))))
  }

  /** The exception `checkTransientErrors` builds from a per-document error. */
  function TransientExceptionFor(errorNum: int): Exception {
    TransientException(ArangoDBException(Some(errorNum)))
  }

  /**
   * `wrapException`: what `handleBatch` throws for an exception raised while
   * writing a batch. Data exceptions and transient exceptions pass through; a
   * driver exception with a data error number becomes a data exception;
   * everything else is transient.
   */
  function WrapException(o: Options, e: Exception): (w: Exception)
    ensures w.DataException? || w.TransientException?
    ensures e.DataException? || e.TransientException? ==> w == e
    ensures e.ArangoDBException? ==>
              w == (if IsDataError(o, e.errorNum) then DataException(CausedBy(e)) else TransientException(e))
    ensures !(e.DataException? || e.TransientException? || e.ArangoDBException?) ==> w == TransientException(e)
  {
    if e.DataException? then e
    else if e.ArangoDBException? && IsDataError(o, e.errorNum) then DataException(CausedBy(e))
    else if e.TransientException? then e
    else TransientException(e)
  }

  /** Wrapping is idempotent: a wrapped exception is not wrapped again. */
  lemma WrapExceptionIdempotent(o: Options, e: Exception)
    ensures WrapException(o, WrapException(o, e)) == WrapException(o, e)
  {
  }

  /**
   * A stream `map` over a batch collected into a list: all results in order,
   * or the exception of a record that failed.
   */
  function MapAll<T>(batch: seq<SinkRecord>, f: SinkRecord -> Result<T, Exception>): (res: Result<seq<T>, Exception>)
    ensures res.Success? <==> forall i :: 0 <= i < |batch| ==> f(batch[i]).Success?
    ensures res.Success? ==> |res.value| == |batch| && forall i :: 0 <= i < |batch| ==> f(batch[i]) == Success(res.value[i])
    ensures res.Failure? ==> exists i :: 0 <= i < |batch| && f(batch[i]) == Failure(res.error)
  {
    if batch == [] then Success([])
    else
      var first :- f(batch[0]);
      var rest :- MapAll(batch[1..], f);
      assert forall i :: 1 <= i < |batch| ==> batch[i] == batch[1..][i - 1];
      Success([first] + rest)
  }

  /** `checkResultSize`: the driver must return one result per document. */
  function CheckResultSize(batchLength: nat, resultLength: nat): (thrown: Option<Exception>)
    ensures thrown.None? <==> batchLength == resultLength
    ensures thrown.Some? ==>
              && thrown.value.ConnectException?
              && Text.Contains(thrown.value.message, Text.IntToString(resultLength))
              && Text.Contains(thrown.value.message, Text.IntToString(batchLength))
  {
    if batchLength == resultLength then None
    else
      var n, m := Text.IntToString(resultLength), Text.IntToString(batchLength);
      var message := "Response length [" + n + "] does not match batch length [" + m + "].";
      Text.ContainsMiddle("Response length [", n, "] does not match batch length [" + m + "].");
      assert "Response length [" + n + ("] does not match batch length [" + m + "].") == message;
      Text.ContainsMiddle("Response length [" + n + "] does not match batch length [", m, "].");
      Some(ConnectException(message))
  }

  /** Indices of the delete results that are kept: all but the "document not found" errors, in order. */
  function KeptIndices(items: seq<Driver.ItemResult>): (idx: seq<nat>)
    ensures forall j :: 0 <= j < |idx| ==> idx[j] < |items|
    ensures forall j, k :: 0 <= j < k < |idx| ==> idx[j] < idx[k]
    ensures forall i :: 0 <= i < |items| ==> (i in idx <==> !IsNotFound(items[i]))
  {
    if items == [] then []
    else
      var rest := KeptIndices(items[..|items| - 1]);
      if IsNotFound(items[|items| - 1]) then rest else rest + [|items| - 1]
  }

  /**
   * The elements of `s` at the indices `idx`: the two lists `handleBatchDelete`
   * builds by adding the record and the result of each kept index.
   */
  function Select<T>(s: seq<T>, idx: seq<nat>): (r: seq<T>)
    requires forall j :: 0 <= j < |idx| ==> idx[j] < |s|
    ensures |r| == |idx|
    ensures forall j :: 0 <= j < |idx| ==> r[j] == s[idx[j]]
  {
    seq(|idx|, j requires 0 <= j < |idx| => s[idx[j]])
  }

  /** Deletes are idempotent: only "document not found" results are dropped. */
  lemma {:induction false} KeptIndicesAll(items: seq<Driver.ItemResult>)
    requires forall i :: 0 <= i < |items| ==> !IsNotFound(items[i])
    ensures KeptIndices(items) == seq(|items|, i => i)
  {
    if items != [] {
      KeptIndicesAll(items[..|items| - 1]);
      assert seq(|items|, i => i) == seq(|items| - 1, i => i) + [|items| - 1];
    }
  }

  /** Index of the first transient error among the results, or the length when there is none. */
  function FirstTransient(o: Options, items: seq<Driver.ItemResult>): (i: nat)
    ensures i <= |items|
    ensures forall j :: 0 <= j < i ==> !IsTransientItem(o, items[j])
    ensures i < |items| ==> IsTransientItem(o, items[i])
  {
    if items == [] || IsTransientItem(o, items[0]) then 0 else 1 + FirstTransient(o, items[1..])
  }

  /**
   * What a batch write changes at most: the error record, and reports added
   * at the end, which only a tolerant writer with a reporter makes.
   */
  predicate BatchFrame(o: Options, s: State, s': State) {
    && s'.remainingRetries == s.remainingRetries
    && s'.currentOffset == s.currentOffset
    && s'.handled == s.handled
    && s'.timeouts == s.timeouts
    && s.reports <= s'.reports
    && (|s'.reports| > |s.reports| ==> o.tolerateDataErrors && o.hasReporter)
  }

  /**
   * `handleDataException`: a data exception without an error record is fatal;
   * otherwise a tolerant writer reports the record (when it has a reporter)
   * and carries on, and an intolerant one rethrows.
   */
  function HandleDataExceptionSpec(o: Options, e: Exception, s: State): (st: Step)
    ensures BatchFrame(o, s, st.state) && st.state.errorRecord == s.errorRecord
    ensures s.errorRecord.None? ==> st == Step(s, Some(ConnectException(DATA_EXCEPTION_IN_BATCH)))
    ensures s.errorRecord.Some? ==>
              && (st.thrown.None? <==> o.tolerateDataErrors)
              && (st.thrown.Some? ==> st.thrown.value == e)
              && st.state.reports == s.reports + (if o.tolerateDataErrors && o.hasReporter then [Report(s.errorRecord.value, e)] else [])
  {
    if s.errorRecord.None? then Step(s, Some(ConnectException(DATA_EXCEPTION_IN_BATCH)))
    else if o.tolerateDataErrors then
      if o.hasReporter then Step(s.(reports := s.reports + [Report(s.errorRecord.value, e)]), None)
      else Step(s, None)
    else Step(s, Some(e))
  }

  /**
   * `handleTransientException`: while retries remain, one is used, the sink task
   * is asked to back off, and a `RetriableException` makes Kafka Connect
   * redeliver the records; once none remain, the budget is reset and the
   * exception is thrown on.
   */
  function HandleTransientSpec(o: Options, e: Exception, s: State): (st: Step)
    ensures st.thrown.Some?
    ensures st.state.currentOffset == s.currentOffset && st.state.errorRecord == s.errorRecord
    ensures st.state.handled == s.handled && st.state.reports == s.reports
    ensures s.remainingRetries > 0 ==>
              && st.thrown == Some(RetriableException(e))
              && st.state.remainingRetries == s.remainingRetries - 1
              && st.state.timeouts == s.timeouts + [o.retryBackoffMs]
    ensures s.remainingRetries <= 0 ==>
              && st.thrown == Some(e)
              && st.state.remainingRetries == o.maxRetries
              && st.state.timeouts == s.timeouts
  {
    if s.remainingRetries > 0 then
      Step(s.(remainingRetries := s.remainingRetries - 1, timeouts := s.timeouts + [o.retryBackoffMs]), Some(RetriableException(e)))
    else
      Step(s.(remainingRetries := o.maxRetries), Some(e))
  }

  /** `checkTransientErrors`: the first transient error, if any, becomes a `TransientException` for its record. */
  function CheckTransientErrorsSpec(o: Options, batch: seq<SinkRecord>, items: seq<Driver.ItemResult>, s: State): (st: Step)
    requires |batch| == |items|
    ensures st.thrown.None? <==> forall j :: 0 <= j < |items| ==> !IsTransientItem(o, items[j])
    ensures st.thrown.None? ==> st.state == s
    ensures st.thrown.Some? ==>
              && st.state == s.(errorRecord := st.state.errorRecord)
              && exists i :: 0 <= i < |items| && IsTransientItem(o, items[i])
                          && (forall j :: 0 <= j < i ==> !IsTransientItem(o, items[j]))
                          && st.thrown == Some(TransientExceptionFor(items[i].errorNum))
                          && st.state.errorRecord == Some(batch[i])
  {
    var i := FirstTransient(o, items);
    if i < |items| then Step(s.(errorRecord := Some(batch[i])), Some(TransientExceptionFor(items[i].errorNum)))
    else Step(s, None)
  }

  /** Indices from `i` on of the results that are data errors, in order. */
  function DataErrorIndicesFrom(o: Options, items: seq<Driver.ItemResult>, i: nat): (idx: seq<nat>)
    ensures forall j :: 0 <= j < |idx| ==> i <= idx[j] < |items| && IsDataItem(o, items[idx[j]])
    ensures forall k :: i <= k < |items| && IsDataItem(o, items[k]) ==> k in idx
    ensures forall j, k :: 0 <= j < k < |idx| ==> idx[j] < idx[k]
    decreases |items| - i
  {
    if i >= |items| then []
    else if IsDataItem(o, items[i]) then [i] + DataErrorIndicesFrom(o, items, i + 1)
    else DataErrorIndicesFrom(o, items, i + 1)
  }

  /** The reports made for the data errors at the indices `idx`. */
  function ReportsFor(o: Options, batch: seq<SinkRecord>, items: seq<Driver.ItemResult>, idx: seq<nat>): (r: seq<Report>)
    requires |batch| == |items|
    requires forall j :: 0 <= j < |idx| ==> idx[j] < |items| && items[idx[j]].ErrorEntity?
    ensures |r| == |idx|
    ensures forall j :: 0 <= j < |idx| ==> r[j] == Report(batch[idx[j]], DataExceptionFor(items[idx[j]].errorNum))
  {
    if idx == [] then []
    else [Report(batch[idx[0]], DataExceptionFor(items[idx[0]].errorNum))] + ReportsFor(o, batch, items, idx[1..])
  }

  /**
   * `checkDataErrors`, from result `i` on: each data error sets the error
   * record and goes through `handleDataException`.
   */
  function CheckDataErrorsFrom(o: Options, batch: seq<SinkRecord>, items: seq<Driver.ItemResult>, s: State, i: nat): (st: Step)
    requires |batch| == |items|
    ensures BatchFrame(o, s, st.state)
    ensures st.thrown.Some? ==> !o.tolerateDataErrors && st.thrown.value.DataException?
    decreases |items| - i
  {
    if i >= |items| then Step(s, None)
    else if IsDataItem(o, items[i]) then
      var st := HandleDataExceptionSpec(o, DataExceptionFor(items[i].errorNum), s.(errorRecord := Some(batch[i])));
      if st.thrown.Some? then st else CheckDataErrorsFrom(o, batch, items, st.state, i + 1)
    else CheckDataErrorsFrom(o, batch, items, s, i + 1)
  }

  /** `checkDataErrors` changes nothing and throws nothing when no result is a data error. */
  lemma {:induction false} CheckDataErrorsNone(o: Options, batch: seq<SinkRecord>, items: seq<Driver.ItemResult>, s: State, i: nat)
    requires |batch| == |items|
    requires DataErrorIndicesFrom(o, items, i) == []
    ensures CheckDataErrorsFrom(o, batch, items, s, i) == Step(s, None)
    decreases |items| - i
  {
    if i < |items| {
      CheckDataErrorsNone(o, batch, items, s, i + 1);
    }
  }

  /**
   * A tolerant writer never throws from `checkDataErrors`; with a reporter it
   * reports every data error in order, each with its record.
   */
  lemma {:induction false} CheckDataErrorsTolerated(o: Options, batch: seq<SinkRecord>, items: seq<Driver.ItemResult>, s: State, i: nat)
    requires |batch| == |items|
    requires o.tolerateDataErrors
    ensures CheckDataErrorsFrom(o, batch, items, s, i).thrown.None?
    ensures CheckDataErrorsFrom(o, batch, items, s, i).state.reports
            == s.reports + (if o.hasReporter then ReportsFor(o, batch, items, DataErrorIndicesFrom(o, items, i)) else [])
    decreases |items| - i, 1
  {
    if i >= |items| {
      assert s.reports + [] == s.reports;
    } else if IsDataItem(o, items[i]) {
      CheckDataErrorsToleratedAtDataError(o, batch, items, s, i);
    } else {
      SkipStep(o, batch, items, s, i);
      CheckDataErrorsTolerated(o, batch, items, s, i + 1);
    }
  }

  lemma {:induction false} CheckDataErrorsToleratedAtDataError(o: Options, batch: seq<SinkRecord>, items: seq<Driver.ItemResult>, s: State, i: nat)
    requires |batch| == |items| && i < |items| && IsDataItem(o, items[i])
    requires o.tolerateDataErrors
    ensures CheckDataErrorsFrom(o, batch, items, s, i).thrown.None?
    ensures CheckDataErrorsFrom(o, batch, items, s, i).state.reports
            == s.reports + (if o.hasReporter then ReportsFor(o, batch, items, DataErrorIndicesFrom(o, items, i)) else [])
    decreases |items| - i, 0
  {
    var rest := DataErrorIndicesFrom(o, items, i + 1);
    var s1 := ToleratedStep(o, batch, items, s, i);
    CheckDataErrorsTolerated(o, batch, items, s1, i + 1);
    if o.hasReporter {
      ReportsForCons(o, batch, items, i, rest);
      var r := [Report(batch[i], DataExceptionFor(items[i].errorNum))];
      AppendAssociative(s.reports, r, ReportsFor(o, batch, items, rest));
    }
  }

  lemma AppendAssociative<T>(a: seq<T>, b: seq<T>, c: seq<T>)
    ensures (a + b) + c == a + (b + c)
  {
  }

  /** A result that is not a data error is passed over. */
  lemma SkipStep(o: Options, batch: seq<SinkRecord>, items: seq<Driver.ItemResult>, s: State, i: nat)
    requires |batch| == |items| && i < |items| && !IsDataItem(o, items[i])
    ensures CheckDataErrorsFrom(o, batch, items, s, i) == CheckDataErrorsFrom(o, batch, items, s, i + 1)
    ensures DataErrorIndicesFrom(o, items, i) == DataErrorIndicesFrom(o, items, i + 1)
  {
  }

  /** One data error handled by a tolerant writer: the scan goes on from the next result. */
  lemma ToleratedStep(o: Options, batch: seq<SinkRecord>, items: seq<Driver.ItemResult>, s: State, i: nat) returns (s1: State)
    requires |batch| == |items| && i < |items| && IsDataItem(o, items[i])
    requires o.tolerateDataErrors
    ensures CheckDataErrorsFrom(o, batch, items, s, i) == CheckDataErrorsFrom(o, batch, items, s1, i + 1)
    ensures s1.reports == s.reports + (if o.hasReporter then [Report(batch[i], DataExceptionFor(items[i].errorNum))] else [])
    ensures DataErrorIndicesFrom(o, items, i) == [i] + DataErrorIndicesFrom(o, items, i + 1)
  {
    s1 := HandleDataExceptionSpec(o, DataExceptionFor(items[i].errorNum), s.(errorRecord := Some(batch[i]))).state;
  }

  lemma ReportsForCons(o: Options, batch: seq<SinkRecord>, items: seq<Driver.ItemResult>, i: nat, rest: seq<nat>)
    requires |batch| == |items| && i < |items| && items[i].ErrorEntity?
    requires forall j :: 0 <= j < |rest| ==> rest[j] < |items| && items[rest[j]].ErrorEntity?
    ensures ReportsFor(o, batch, items, [i] + rest)
            == [Report(batch[i], DataExceptionFor(items[i].errorNum))] + ReportsFor(o, batch, items, rest)
  {
    assert ([i] + rest)[1..] == rest;
  }

  /** An intolerant writer throws for the first data error, with its record as the error record, and reports nothing. */
  lemma {:induction false} CheckDataErrorsIntolerant(o: Options, batch: seq<SinkRecord>, items: seq<Driver.ItemResult>, s: State, i: nat)
    requires |batch| == |items|
    requires !o.tolerateDataErrors && DataErrorIndicesFrom(o, items, i) != []
    ensures var idx := DataErrorIndicesFrom(o, items, i);
            var st := CheckDataErrorsFrom(o, batch, items, s, i);
            && st.thrown == Some(DataExceptionFor(items[idx[0]].errorNum))
            && st.state.errorRecord == Some(batch[idx[0]])
            && st.state.reports == s.reports
    decreases |items| - i
  {
    if !IsDataItem(o, items[i]) {
      CheckDataErrorsIntolerant(o, batch, items, s, i + 1);
    }
  }

  /** `checkTransientErrors` and then `checkDataErrors` on the same results. */
  function CheckResultsSpec(o: Options, batch: seq<SinkRecord>, items: seq<Driver.ItemResult>, s: State): (st: Step)
    requires |batch| == |items|
    ensures BatchFrame(o, s, st.state)
    ensures st.thrown.Some? ==> st.thrown.value.TransientException? || (st.thrown.value.DataException? && !o.tolerateDataErrors)
  {
    var st := CheckTransientErrorsSpec(o, batch, items, s);
    if st.thrown.Some? then st else CheckDataErrorsFrom(o, batch, items, st.state, 0)
  }

  /**
   * `handleBatchDelete`: deletes must be enabled; the record keys are
   * converted, the documents deleted, and the results checked after dropping
   * the "document not found" errors.
   */
  function HandleBatchDeleteSpec(o: Options, store: Driver.Request -> Driver.Reply, batch: seq<SinkRecord>, s: State): (st: Step)
    ensures BatchFrame(o, s, st.state)
    ensures !o.deleteEnabled ==> st == Step(s, Some(ConnectException(DELETES_NOT_ENABLED)))
  {
    if !o.deleteEnabled then Step(s, Some(ConnectException(DELETES_NOT_ENABLED)))
    else
      match MapAll(batch, KeyConverter.Convert)
      case Failure(e) => Step(s, Some(e))
      case Success(keys) =>
        match store(Driver.DeleteDocuments(keys, o.deleteOptions))
        case Threw(n) => Step(s, Some(ArangoDBException(n)))
        case DocumentsAndErrors(items) =>
          match CheckResultSize(|batch|, |items|)
          case Some(e) => Step(s, Some(e))
          case None =>
            var kept := KeptIndices(items);
            CheckResultsSpec(o, Select(batch, kept), Select(items, kept), s)
  }

  /** `handleBatchInsert`: the records are converted, the documents inserted, and the results checked. */
  function HandleBatchInsertSpec(o: Options, store: Driver.Request -> Driver.Reply, batch: seq<SinkRecord>, s: State): (st: Step)
    ensures BatchFrame(o, s, st.state)
  {
    match MapAll(batch, RecordConverter.Convert)
    case Failure(e) => Step(s, Some(e))
    case Success(docs) =>
      match store(Driver.InsertDocuments(docs, o.createOptions))
      case Threw(n) => Step(s, Some(ArangoDBException(n)))
      case DocumentsAndErrors(items) =>
        match CheckResultSize(|batch|, |items|)
        case Some(e) => Step(s, Some(e))
        case None => CheckResultsSpec(o, batch, items, s)
  }

  /**
   * `handleBatch`: the batch is written according to the type of its first
   * record, and whatever it throws is wrapped into a data or a transient
   * exception.
   */
  function HandleBatchSpec(o: Options, store: Driver.Request -> Driver.Reply, batch: seq<SinkRecord>, s: State): (st: Step)
    requires batch != []
    ensures BatchFrame(o, s.(handled := s.handled + [batch]), st.state)
    ensures st.thrown.Some? ==> st.thrown.value.DataException? || st.thrown.value.TransientException?
  {
    var s1 := s.(handled := s.handled + [batch]);
    Wrapped(o, if GetType(batch[0]) == DELETE then HandleBatchDeleteSpec(o, store, batch, s1)
               else HandleBatchInsertSpec(o, store, batch, s1))
  }

  /** The exception a write threw, as `handleBatch` rethrows it. */
  function Wrapped(o: Options, st: Step): Step {
    if st.thrown.Some? then Step(st.state, Some(WrapException(o, st.thrown.value))) else st
  }

  /**
   * One iteration's `try { handleBatch } catch`: a data exception goes to
   * `handleDataException`, a transient one to `handleTransientException`.
   */
  function TryHandleBatch(o: Options, store: Driver.Request -> Driver.Reply, batch: seq<SinkRecord>, s: State): Step
    requires batch != []
  {
    Caught(o, HandleBatchSpec(o, store, batch, s))
  }

  /** The `catch` of one iteration of `put`, given what `handleBatch` did. */
  function Caught(o: Options, h: Step): Step {
    match h.thrown
    case None => h
    case Some(e) =>
      if e.DataException? then HandleDataExceptionSpec(o, e, h.state) else HandleTransientSpec(o, e, h.state)
  }

  /**
   * How one iteration's `try` may end: the batch is recorded as handled and
   * the offset stays; reports are only added, by a tolerant writer with a
   * reporter; a retriable exception uses one retry and asks for a back-off;
   * the transient exception itself is thrown only once the budget is spent,
   * and resets it; a data exception escapes only an intolerant writer; the
   * only other exception is the fatal one for a data exception without a
   * record.
   */
  predicate HandledOnce(o: Options, batch: seq<SinkRecord>, s: State, st: Step) {
    && st.state.currentOffset == s.currentOffset
    && st.state.handled == s.handled + [batch]
    && s.reports <= st.state.reports
    && (|st.state.reports| > |s.reports| ==> o.tolerateDataErrors && o.hasReporter)
    && (st.thrown.None? ==> st.state.remainingRetries == s.remainingRetries && st.state.timeouts == s.timeouts)
    && (st.thrown.Some? ==>
          || st.thrown.value.DataException? || st.thrown.value.ConnectException?
          || st.thrown.value.TransientException? || st.thrown.value.RetriableException?)
    && (st.thrown.Some? && st.thrown.value.RetriableException? ==>
          && s.remainingRetries > 0
          && st.state.remainingRetries == s.remainingRetries - 1
          && st.state.timeouts == s.timeouts + [o.retryBackoffMs])
    && (st.thrown.Some? && !st.thrown.value.RetriableException? ==>
          && st.state.timeouts == s.timeouts
          && (st.state.remainingRetries == s.remainingRetries || st.state.remainingRetries == o.maxRetries))
    && (st.thrown.Some? && st.thrown.value.TransientException? ==>
          s.remainingRetries <= 0 && st.state.remainingRetries == o.maxRetries)
    && (st.thrown.Some? && st.thrown.value.DataException? ==> !o.tolerateDataErrors)
    && (st.thrown.Some? && st.thrown.value.ConnectException? ==> st.thrown.value.message == DATA_EXCEPTION_IN_BATCH)
  }

  /** Every batch `handleBatch` is given ends as `HandledOnce` says. */
  lemma TryHandleBatchOutcome(o: Options, store: Driver.Request -> Driver.Reply, batch: seq<SinkRecord>, s: State)
    requires batch != []
    ensures HandledOnce(o, batch, s, TryHandleBatch(o, store, batch, s))
  {
  }

  /**
   * The `while` loop of `put`, from the state at the top of an iteration,
   * with what follows it. `handle` is what one iteration's `try` does with a
   * non-empty batch: `BatchHandler` for the writer's store.
   */
  function PutLoop(o: Options, handle: (seq<SinkRecord>, State) -> Step, records: seq<SinkRecord>, s: State): Step
    decreases |records| - s.currentOffset
  {
    if s.currentOffset >= |records| then Step(s.(remainingRetries := o.maxRetries, currentOffset := 0), None)
    else
      var s1 := s.(errorRecord := None);
      match ExtractBatch(records, s1.currentOffset, o.batchSize)
      case Failure(e) => Step(s1, Some(e))
      case Success(batch) =>
        if batch == [] then Step(s1.(remainingRetries := o.maxRetries, currentOffset := 0), None)
        else
          var st := handle(batch, s1);
          if st.thrown.Some? then st
          else PutLoop(o, handle, records, st.state.(remainingRetries := o.maxRetries, currentOffset := s.currentOffset + |batch|))
  }

  /** One iteration's `try` on the writer's store; `put` never hands it an empty batch. */
  function BatchHandler(o: Options, store: Driver.Request -> Driver.Reply): (seq<SinkRecord>, State) -> Step {
    (batch: seq<SinkRecord>, s: State) => if batch == [] then Step(s, None) else TryHandleBatch(o, store, batch, s)
  }

  /** A batch handler that ends every non-empty batch as `HandledOnce` says. */
  ghost predicate Lawful(o: Options, handle: (seq<SinkRecord>, State) -> Step) {
    forall batch: seq<SinkRecord>, s: State :: batch != [] ==> HandledOnce(o, batch, s, handle(batch, s))
  }

  lemma BatchHandlerLawful(o: Options, store: Driver.Request -> Driver.Reply)
    ensures Lawful(o, BatchHandler(o, store))
  {
    forall batch: seq<SinkRecord>, s: State | batch != []
      ensures HandledOnce(o, batch, s, BatchHandler(o, store)(batch, s))
    {
      TryHandleBatchOutcome(o, store, batch, s);
    }
  }

  /** `put`: an empty collection changes nothing; otherwise the loop runs from the current offset. */
  function PutSpec(o: Options, store: Driver.Request -> Driver.Reply, records: seq<SinkRecord>, s: State): Step {
    if records == [] then Step(s, None) else PutLoop(o, BatchHandler(o, store), records, s)
  }

  /** One iteration of the loop of `put` that hands a non-empty batch to `handleBatch`. */
  lemma PutLoopBatch(o: Options, handle: (seq<SinkRecord>, State) -> Step, records: seq<SinkRecord>, s: State, batch: seq<SinkRecord>)
    requires s.currentOffset < |records|
    requires ExtractBatch(records, s.currentOffset, o.batchSize) == Success(batch) && batch != []
    ensures var st := handle(batch, s.(errorRecord := None));
            PutLoop(o, handle, records, s)
            == if st.thrown.Some? then st
               else PutLoop(o, handle, records, st.state.(remainingRetries := o.maxRetries, currentOffset := s.currentOffset + |batch|))
  {
  }
}
