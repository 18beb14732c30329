# ArangoDB sink connector for Kafka Connect: the write path, in Dafny

This project models the core of `kafka-connect-arangodb`, a Kafka Connect
sink that writes Kafka records into an ArangoDB collection:

- `ArangoWriter` cuts the records of each `put` call into batches of one
  operation type (insert or delete), at most `batch.size` records each. It
  writes every batch with one bulk driver call and checks the per-document
  results. It classifies errors as data errors (built-in and configured error
  numbers) or transient errors. Data errors are tolerated and reported, or
  they are fatal. Transient errors are retried through a retry budget, with a
  back-off request to the sink task's context. Its position inside the collection
  of records survives across calls, so that a call for redelivered records
  resumes at the batch that failed.
- `KeyConverter` and `RecordConverter` turn a record into a document key and
  a document.
- `ArangoSinkConfig` and `EnumValidator` cover the settings the writer reads,
  their defaults and validation, and the getters that turn them into driver
  options.

Files:

- `wrappers.dfy`: `Option` and `Result`.
- `text.dfy`: the Java string operations the code relies on (`String.valueOf`,
  `Integer.parseInt`, ASCII case mapping, `Arrays.toString`, infix search).
- `connect.dfy`: records, JSON trees, the exception hierarchy, and the driver
  surface (`Driver`): options, bulk requests and per-item results.
- `key_converter.dfy`, `record_converter.dfy`, `enum_validator.dfy`,
  `arango_sink_config.dfy`: the converters and the configuration, as
  functions.
- `write_spec.dfy` (`WriteSpec`): each method of `ArangoWriter` as a function
  of the writer's state (`State`) returning the new state and the exception
  thrown (`Step`).
- `arango_writer.dfy` (`Writer`): the class `ArangoWriter`. Its fields are the
  Java fields. Its methods keep the Java loops and are proved equal, call by
  call, to the functions of `WriteSpec`.
- `write_properties.dfy` (`WriteProperties`): what a whole `put` call and a
  single batch guarantee, proved about those functions.

The database is a parameter `store: Driver.Request -> Driver.Reply`: a bulk
call either returns the per-document results or throws an
`ArangoDBException`. Three effects of the writer appear as ghost fields of
the class and as fields of `State`:

- `handled`: the batches given to `handleBatch`;
- `reports`: the reports made to the errant record reporter;
- `timeouts`: the back-off periods passed to `context.timeout`.

An exception a Java method throws is the `thrown` result of its Dafny method.

Where the code and its design documentation disagree, the model follows the
code:

- A result count that differs from the batch length is retried as a
  transient error (`ResultSizeMismatchTransient`). A delete batch with deletes
  disabled also uses the retry budget (`DeleteDisabledTransient`). In the code,
  `handleBatch` wraps the `ConnectException` of both cases into a
  `TransientException`. Neither case is fatal at once.
- Transient errors cannot be tolerated: there is no such setting. A data
  error is reported only when data errors are tolerated. An intolerant writer
  throws it and reports nothing, even when a reporter is configured.
- The validators accept only the upper-case names of the configuration enums
  (`LowerCaseOverwriteModeRejected`), although the documentation of
  `insert.overwriteMode` lists the lower-case names.
- A data exception not tied to one result is fatal whether or not data
  errors are tolerated (`ConversionFailureFatal`). This covers a record that
  cannot be converted and a whole-batch driver error with a data error number.

## Model

Paths are relative to the repository root; `ArangoWriter.java` is
`src/main/java/com/arangodb/kafka/ArangoWriter.java`.

| member | source | states |
|---|---|---|
| WriteSpec.ReadOptions | src/main/java/com/arangodb/kafka/ArangoWriter.java:95-107 | the constructor's settings are read in order and fail exactly when the create options, the tolerance or the extra error numbers cannot be read; on success each setting is the configured one |
| WriteSpec.Initial | src/main/java/com/arangodb/kafka/ArangoWriter.java:105-107 | a new writer has the full retry budget, offset 0, no error record, and has handled, reported and backed off nothing |
| Writer.ArangoWriter.constructor | src/main/java/com/arangodb/kafka/ArangoWriter.java:95-119 | the new object's state is `Initial(options)` |
| WriteSpec.GetType | src/main/java/com/arangodb/kafka/ArangoWriter.java:163-169 | a record is a delete exactly when it has a key and no value |
| WriteSpec.RunEnd | src/main/java/com/arangodb/kafka/ArangoWriter.java:156-159 | the index of the first record of another type lies between the start and the end of the records |
| WriteSpec.RunEndRun | src/main/java/com/arangodb/kafka/ArangoWriter.java:156-159 | every record before that index has the given type and the record at it, if any, does not |
| WriteSpec.ExtractBatch | src/main/java/com/arangodb/kafka/ArangoWriter.java:150-161 | fails, with `IllegalArgumentException`, exactly when records remain and the batch size is negative; the batch is empty exactly at the end of the records or for batch size 0 |
| WriteSpec.ExtractBatchRun | src/main/java/com/arangodb/kafka/ArangoWriter.java:150-161 | the batch is the records from the offset on, all of one type, at most `batchSize` of them, and stops short of the batch size only at a record of the other type |
| WriteSpec.WrapException | src/main/java/com/arangodb/kafka/ArangoWriter.java:286-300 | the result is a data or a transient exception; data and transient exceptions pass unchanged; a driver exception becomes a data exception exactly for a data error number; anything else becomes transient |
| WriteSpec.WrapExceptionIdempotent | src/main/java/com/arangodb/kafka/ArangoWriter.java:286-300 | wrapping a wrapped exception changes nothing |
| WriteSpec.MapAll | src/main/java/com/arangodb/kafka/ArangoWriter.java:201-203 | the stream conversion succeeds exactly when every record converts, giving all results in order; a failure is the exception of some record |
| WriteSpec.CheckResultSize | src/main/java/com/arangodb/kafka/ArangoWriter.java:279-284 | throws exactly when the counts differ, a `ConnectException` whose message contains both counts |
| WriteSpec.KeptIndices | src/main/java/com/arangodb/kafka/ArangoWriter.java:213-229 | the kept indices are in range, strictly increasing, and contain exactly the results that are not "document not found" |
| WriteSpec.Select | src/main/java/com/arangodb/kafka/ArangoWriter.java:210-229 | the selection holds the elements at the given indices, in their order |
| WriteSpec.KeptIndicesAll | src/main/java/com/arangodb/kafka/ArangoWriter.java:213-229 | with no "document not found" result, every result is kept |
| Writer.WithoutNotFound | src/main/java/com/arangodb/kafka/ArangoWriter.java:210-229 | the filter loop yields the records and the results at the kept indices |
| WriteSpec.FirstTransient | src/main/java/com/arangodb/kafka/ArangoWriter.java:254-263 | the index found is the first transient error, or the length when there is none |
| WriteSpec.CheckTransientErrorsSpec | src/main/java/com/arangodb/kafka/ArangoWriter.java:253-264 | throws exactly when some result is a transient error; it then throws a `TransientException` for the first one and sets its record as the error record; nothing else changes |
| Writer.ArangoWriter.CheckTransientErrors | src/main/java/com/arangodb/kafka/ArangoWriter.java:253-264 | the loop's result and new state are those of `CheckTransientErrorsSpec` |
| WriteSpec.DataErrorIndicesFrom | src/main/java/com/arangodb/kafka/ArangoWriter.java:267-275 | the indices are exactly the data errors from the start index on, in increasing order |
| WriteSpec.ReportsFor | src/main/java/com/arangodb/kafka/ArangoWriter.java:272-273 | one report per index, each with that result's record and its `DataException` |
| WriteSpec.CheckDataErrorsFrom | src/main/java/com/arangodb/kafka/ArangoWriter.java:266-277 | only the error record and the reports change, and reports only grow; whatever it throws is a `DataException` from an intolerant writer |
| Writer.ArangoWriter.CheckDataErrors | src/main/java/com/arangodb/kafka/ArangoWriter.java:266-277 | the loop's result and new state are those of `CheckDataErrorsFrom` from index 0 |
| WriteSpec.CheckDataErrorsNone | src/main/java/com/arangodb/kafka/ArangoWriter.java:266-277 | with no data error the check changes nothing and throws nothing |
| WriteSpec.CheckDataErrorsTolerated | src/main/java/com/arangodb/kafka/ArangoWriter.java:266-277 | a tolerant writer never throws here and, with a reporter, reports every data error in order with its record |
| WriteSpec.CheckDataErrorsToleratedAtDataError | src/main/java/com/arangodb/kafka/ArangoWriter.java:271-274 | the same, starting at a data error |
| WriteSpec.ToleratedStep | src/main/java/com/arangodb/kafka/ArangoWriter.java:271-274 | a tolerated data error adds its one report, when there is a reporter, and the scan goes on |
| WriteSpec.CheckDataErrorsIntolerant | src/main/java/com/arangodb/kafka/ArangoWriter.java:266-277 | an intolerant writer throws the `DataException` of the first data error, sets its record as the error record, and reports nothing |
| WriteSpec.HandleDataExceptionSpec | src/main/java/com/arangodb/kafka/ArangoWriter.java:306-328 | without an error record it throws the fatal `ConnectException`; otherwise it returns exactly when data errors are tolerated, reports the record only when tolerated with a reporter, and else rethrows |
| Writer.ArangoWriter.HandleDataException | src/main/java/com/arangodb/kafka/ArangoWriter.java:306-328 | result and new state are those of `HandleDataExceptionSpec` |
| WriteSpec.HandleTransientSpec | src/main/java/com/arangodb/kafka/ArangoWriter.java:330-344 | always throws; while retries remain it uses one, requests one back-off of `retryBackoffMs` and throws a `RetriableException`; otherwise it resets the budget and rethrows |
| Writer.ArangoWriter.HandleTransientException | src/main/java/com/arangodb/kafka/ArangoWriter.java:330-344 | always throws; result and new state are those of `HandleTransientSpec` |
| WriteSpec.CheckResultsSpec | src/main/java/com/arangodb/kafka/ArangoWriter.java:231-232 | the two checks change only the error record and add reports; they throw a transient exception, or a data exception from an intolerant writer |
| WriteSpec.HandleBatchDeleteSpec | src/main/java/com/arangodb/kafka/ArangoWriter.java:196-233 | with deletes disabled it throws "Deletes are not enabled." and changes nothing; otherwise only the error record and the reports change |
| Writer.ArangoWriter.HandleBatchDelete | src/main/java/com/arangodb/kafka/ArangoWriter.java:196-233 | result and new state are those of `HandleBatchDeleteSpec` |
| WriteSpec.HandleBatchInsertSpec | src/main/java/com/arangodb/kafka/ArangoWriter.java:235-251 | only the error record and the reports change |
| Writer.ArangoWriter.HandleBatchInsert | src/main/java/com/arangodb/kafka/ArangoWriter.java:235-251 | result and new state are those of `HandleBatchInsertSpec` |
| WriteSpec.HandleBatchSpec | src/main/java/com/arangodb/kafka/ArangoWriter.java:171-194 | the batch is recorded as handled; what it throws is a data or a transient exception |
| Writer.ArangoWriter.HandleBatch | src/main/java/com/arangodb/kafka/ArangoWriter.java:171-194 | result and new state are those of `HandleBatchSpec` |
| WriteSpec.TryHandleBatchOutcome | src/main/java/com/arangodb/kafka/ArangoWriter.java:136-142 | one iteration's `try`/`catch` keeps the offset and records the batch; it only adds reports, and only when tolerant with a reporter; a `RetriableException` uses one retry and one back-off; a `TransientException` escapes only with the budget reset; a `DataException` escapes only an intolerant writer |
| WriteSpec.BatchHandlerLawful | src/main/java/com/arangodb/kafka/ArangoWriter.java:136-142 | the handler `put` uses ends every non-empty batch as `TryHandleBatchOutcome` says |
| Writer.ArangoWriter.Put | src/main/java/com/arangodb/kafka/ArangoWriter.java:121-148 | result and new state are those of `PutSpec` |
| WriteProperties.BatchesCoverRecords | src/main/java/com/arangodb/kafka/ArangoWriter.java:150-161 | the batches, concatenated, are exactly the records from the offset on, in order |
| WriteProperties.BatchesMaximal | src/main/java/com/arangodb/kafka/ArangoWriter.java:150-161 | every batch is non-empty, of one type, at most `batchSize` long, and ends short of the batch size only where the type changes |
| WriteProperties.FirstBatchRun | src/main/java/com/arangodb/kafka/ArangoWriter.java:150-161 | the first batch is the one `extractBatch` returns, with the properties of `ExtractBatchRun`, followed by the batches of the rest |
| WriteProperties.BatchesAfterPrefix | src/main/java/com/arangodb/kafka/ArangoWriter.java:144 | cutting again after the first `k` batches gives the remaining batches |
| WriteProperties.PutHandlesPrefix | src/main/java/com/arangodb/kafka/ArangoWriter.java:128-145 | the loop hands the batches to the handler in order: all of them when it returns; when it throws, the first `n`, with the offset at the start of the `n`-th |
| WriteProperties.PutHandlesBatches | src/main/java/com/arangodb/kafka/ArangoWriter.java:121-148 | the same, and records redelivered after an exception are cut into the failed batch and those after it |
| WriteProperties.PutWritesBatches | src/main/java/com/arangodb/kafka/ArangoWriter.java:121-148 | `PutHandlesBatches` for `put` itself on a store |
| WriteProperties.PutOutcome | src/main/java/com/arangodb/kafka/ArangoWriter.java:121-148 | a call that returns leaves offset 0, a full budget and no back-off; a call that throws leaves the offset inside the records and throws only the listed exceptions, with back-off exactly for a `RetriableException`; reports only grow, and only when tolerant with a reporter |
| WriteProperties.PutEndsOnStore | src/main/java/com/arangodb/kafka/ArangoWriter.java:121-148 | `PutOutcome` for `put` itself on a store |
| WriteProperties.RetryBudgetBounded | src/main/java/com/arangodb/kafka/ArangoWriter.java:335-343 | for a non-negative `max.retries`, the retry budget stays between 0 and `maxRetries` across the loop |
| WriteProperties.RetryBudgetKept | src/main/java/com/arangodb/kafka/ArangoWriter.java:121-148 | for a non-negative `max.retries`, the same across a call of `put` |
| WriteProperties.ZeroBatchSizeSkipsRecords | src/main/java/com/arangodb/kafka/ArangoWriter.java:131-133 | with batch size 0, `put` writes nothing and returns with offset 0 and a full budget |
| WriteProperties.NegativeBatchSizeThrows | src/main/java/com/arangodb/kafka/ArangoWriter.java:160 | with a negative batch size, `put` throws `IllegalArgumentException` before handling any batch |
| WriteProperties.ConversionFailureFatal | src/main/java/com/arangodb/kafka/ArangoWriter.java:307-310 | a record that cannot be converted makes the insert batch end with the fatal `ConnectException`, whether or not data errors are tolerated |
| WriteProperties.KeyConversionFailureFatal | src/main/java/com/arangodb/kafka/ArangoWriter.java:201-203 | the same for a delete key that cannot be converted |
| WriteProperties.InsertRequestThrows | src/main/java/com/arangodb/kafka/ArangoWriter.java:290-295 | a whole-request driver failure with a data error number is fatal; any other is handled as transient |
| WriteProperties.DeleteDisabledTransient | src/main/java/com/arangodb/kafka/ArangoWriter.java:197-199 | with deletes disabled, a delete batch is handled as a transient error that uses the retry budget |
| WriteProperties.InsertReplied | src/main/java/com/arangodb/kafka/ArangoWriter.java:247-250 | once the driver answers an insert, the size check and then the result checks decide the outcome |
| WriteProperties.DeleteReplied | src/main/java/com/arangodb/kafka/ArangoWriter.java:207-232 | once the driver answers a delete with one result per key, the checks run on what is left without "document not found" |
| WriteProperties.ResultSizeMismatchTransient | src/main/java/com/arangodb/kafka/ArangoWriter.java:247-248 | for an insert batch, a result count other than the batch length is retried as a transient error |
| WriteProperties.DeleteResultSizeMismatchTransient | src/main/java/com/arangodb/kafka/ArangoWriter.java:207-208 | for a delete batch too, a result count other than the batch length is retried as a transient error, before any "document not found" result is dropped |
| WriteProperties.CheckResultsClean | src/main/java/com/arangodb/kafka/ArangoWriter.java:253-277 | with no error among the results, the checks change nothing |
| WriteProperties.NoDataErrorsFrom | src/main/java/com/arangodb/kafka/ArangoWriter.java:267-275 | results without errors have no data error |
| WriteProperties.KeptNoErrors | src/main/java/com/arangodb/kafka/ArangoWriter.java:213-229 | when the only errors are "document not found", the kept results have no error |
| WriteProperties.KeptClean | src/main/java/com/arangodb/kafka/ArangoWriter.java:213-232 | such kept results pass both checks unchanged |
| WriteProperties.DeleteClean | src/main/java/com/arangodb/kafka/ArangoWriter.java:196-233 | a delete whose kept results pass the checks returns and changes nothing |
| WriteProperties.NotFoundIgnored | src/main/java/com/arangodb/kafka/ArangoWriter.java:213-218 | deletes are idempotent: when the only errors are "document not found", `handleBatchDelete` returns and changes nothing |
| WriteProperties.TransientResultsFirst | src/main/java/com/arangodb/kafka/ArangoWriter.java:249-250 | for an insert batch with any transient result, the batch fails as transient on the first one, with its record, and no data error is reported |
| WriteProperties.DataResultsTolerated | src/main/java/com/arangodb/kafka/ArangoWriter.java:318-324 | on an insert batch, a tolerant writer carries on past data errors, reporting each failed record in order when it has a reporter |
| WriteProperties.CheckResultsIntolerant | src/main/java/com/arangodb/kafka/ArangoWriter.java:266-277 | without transient results, an intolerant writer's checks throw for the first data error |
| WriteProperties.DataResultsNotTolerated | src/main/java/com/arangodb/kafka/ArangoWriter.java:325-327 | on an insert batch, an intolerant writer fails the batch on its first data error, with that record, and reports nothing |
| WriteProperties.ReadOptionsOnValid | src/main/java/com/arangodb/kafka/ArangoWriter.java:95-104 | on a constructed configuration the settings are read unless an extra error number is not an integer; data errors are tolerated exactly for "ALL" |
| KeyConverter.CreateKey | src/main/java/com/arangodb/kafka/conversion/KeyConverter.java:77-81 | the fallback key is never empty |
| KeyConverter.CreateKeyInjective | src/main/java/com/arangodb/kafka/conversion/KeyConverter.java:77-81 | for non-negative partitions and offsets, equal fallback keys mean equal topic, partition and offset |
| KeyConverter.CreateKeyAmbiguousForNegativePartition | src/main/java/com/arangodb/kafka/conversion/KeyConverter.java:78 | with a negative partition two different positions give the same key |
| KeyConverter.Convert | src/main/java/com/arangodb/kafka/conversion/KeyConverter.java:49-75 | succeeds exactly for no key, JSON null, text or an integral number, with a non-empty key: the text, the decimal number, or the fallback key for none, null and empty text; else the `DataException` of each failing case |
| KeyConverter.MapKey | src/main/java/com/arangodb/kafka/conversion/RecordConverter.java:65 | a key is derived exactly from non-empty text or an integral number, and is non-empty |
| KeyConverter.MapKeyAgreesWithConvert | src/main/java/com/arangodb/kafka/conversion/KeyConverter.java:64-71 | `mapKey` and `convert` read a textual or integral key the same way |
| RecordConverter.Deserialize | src/main/java/com/arangodb/kafka/conversion/RecordConverter.java:72-78 | fails exactly for unrepresentable data, with the `DataException`; null stays null |
| RecordConverter.Convert | src/main/java/com/arangodb/kafka/conversion/RecordConverter.java:55-70 | succeeds exactly for an object value (null counts as empty) with a usable `_key` field or a convertible record key; the document is the value's fields with `_key` set, from the field first and else from the record key; a failure is a `DataException` |
| RecordConverter.ConvertedKeyNonEmpty | src/main/java/com/arangodb/kafka/conversion/RecordConverter.java:64-67 | every document carries a non-empty textual `_key` |
| RecordConverter.FieldKeyTakesPrecedence | src/main/java/com/arangodb/kafka/conversion/RecordConverter.java:65-66 | with a usable `_key` field the record key does not matter |
| RecordConverter.ConvertIdempotent | src/main/java/com/arangodb/kafka/conversion/RecordConverter.java:55-70 | converting a converted document again gives it back |
| EnumValidator.EnsureValid | src/main/java/com/arangodb/kafka/config/EnumValidator.java:16-24 | nothing is thrown exactly for a constant's name; `null` throws `NullPointerException`; any other value a `ConfigException` whose message names the key, the value and every constant |
| EnumValidator.InvalidValueMessageMentions | src/main/java/com/arangodb/kafka/config/EnumValidator.java:21-22 | the message contains the key, the value and every constant |
| EnumValidator.ToString | src/main/java/com/arangodb/kafka/config/EnumValidator.java:27-29 | starts with "One of [" and contains every constant |
| ArangoSinkConfig.ProtocolOf | src/main/java/com/arangodb/kafka/config/ArangoSinkConfig.java:46-50 | defined exactly for the protocol names |
| ArangoSinkConfig.ContentTypeOf | src/main/java/com/arangodb/kafka/config/ArangoSinkConfig.java:52-55 | defined exactly for the content type names |
| ArangoSinkConfig.EnsureValidSslConfig | src/main/java/com/arangodb/kafka/config/ArangoSinkConfig.java:784-790 | throws exactly when both the certificate value and the trust store are set, a `ConfigException` naming both keys |
| ArangoSinkConfig.New | src/main/java/com/arangodb/kafka/config/ArangoSinkConfig.java:614-617 | builds a configuration exactly when the endpoints and the collection are set and the defaulted values pass the validators and the SSL check; a missing endpoints or collection key fails first with a `ConfigException` naming it; every failure is a `ConfigException`, and a bad protocol or content type is named in its message |
| ArangoSinkConfig.GetProtocol | src/main/java/com/arangodb/kafka/config/ArangoSinkConfig.java:619-640 | succeeds exactly for known upper-cased names; VST, HTTP/1.1 and HTTP/2 map to their driver protocols, JSON or VelocyPack by content type |
| ArangoSinkConfig.GetTolerateDataErrors | src/main/java/com/arangodb/kafka/config/ArangoSinkConfig.java:750-754 | succeeds exactly for a known upper-cased tolerance, true exactly for "ALL" |
| ArangoSinkConfig.GetCreateOptions | src/main/java/com/arangodb/kafka/config/ArangoSinkConfig.java:715-725 | succeeds exactly when the lower-cased mode is a driver mode; keeps nulls, is silent, does not refill caches, and carries the merge and sync settings |
| ArangoSinkConfig.GetDeleteOptions | src/main/java/com/arangodb/kafka/config/ArangoSinkConfig.java:727-732 | silent, no cache refill, the configured sync wait |
| ArangoSinkConfig.ParseAll | src/main/java/com/arangodb/kafka/config/ArangoSinkConfig.java:778-782 | succeeds exactly when every item parses, giving exactly the parsed numbers; else `NumberFormatException` for an item that does not parse |
| ArangoSinkConfig.GetExtraDataErrorsNums | src/main/java/com/arangodb/kafka/config/ArangoSinkConfig.java:778-782 | succeeds exactly when every item parses; the numbers are 32-bit |
| ArangoSinkConfig.ExtraDataErrorsNumsRoundTrip | src/main/java/com/arangodb/kafka/config/ArangoSinkConfig.java:778-782 | configuring the decimal forms of 32-bit numbers yields exactly those numbers |
| ArangoSinkConfig.Defaults | src/main/java/com/arangodb/kafka/config/ArangoSinkConfig.java:206-251 | a configuration that sets only the required endpoints and collection is valid and gives HTTP/2 with JSON, intolerance, CONFLICT with merge, no extra numbers, batch size 3000, deletes off, 10 retries and 3000 ms back-off |
| ArangoSinkConfig.UpperCaseNames | src/main/java/com/arangodb/kafka/config/ArangoSinkConfig.java:46-67 | upper-casing leaves every valid enum name unchanged |
| ArangoSinkConfig.GettersTotalOnValid | src/main/java/com/arangodb/kafka/config/ArangoSinkConfig.java:619-754 | on a constructed configuration the getters do not throw, and tolerance is "ALL" exactly |
| ArangoSinkConfig.LowerCaseOverwriteModeRejected | src/main/java/com/arangodb/kafka/config/ArangoSinkConfig.java:176-183 | each of the four lower-case mode names listed in the documentation is rejected by the overwrite-mode validator, with an error naming that key, even when the required keys, protocol and content type are valid |
| ArangoSinkConfig.Http11VpackProtocol | src/main/java/com/arangodb/kafka/config/ArangoSinkConfig.java:628-633 | HTTP11 with VPACK selects `HTTP_VPACK` |
| Text.IntToString | src/main/java/com/arangodb/kafka/conversion/KeyConverter.java:71 | a non-empty decimal form, with a minus sign exactly for negative numbers |
| Text.IntToStringInjective | src/main/java/com/arangodb/kafka/conversion/KeyConverter.java:78 | distinct numbers have distinct decimal forms |
| Text.ParseInt | src/main/java/com/arangodb/kafka/config/ArangoSinkConfig.java:780 | a parsed value is a 32-bit integer written as an optional sign and digits |
| Text.ParseIntRoundTrip | src/main/java/com/arangodb/kafka/config/ArangoSinkConfig.java:780 | parsing the decimal form of a 32-bit integer gives it back |
| Text.ParseIntAccepts | src/main/java/com/arangodb/kafka/config/ArangoSinkConfig.java:780 | conversely, an optional sign and at least one digit parse to their value whenever it fits in 32 bits |
| Text.ParseIntLenient | src/main/java/com/arangodb/kafka/config/ArangoSinkConfig.java:780 | a plus sign, leading zeros and a signed zero are accepted; a string without digits is rejected |

## Left out

- Logging (`LOG`, `logDataErrors`), the errant record reporter and
  `context.timeout` are not modelled as I/O. The last two are recorded as the
  ghost sequences `reports` and `timeouts`.
- The database and the driver: a bulk call is the function parameter `store`.
  Network behaviour and the driver's own retries are not modelled.
- The JSON converter and the Jackson deserializer are not modelled. A record
  key or value is either the JSON tree they would produce or data they cannot
  represent. Floating-point values are only carried as `real`.
- Case mapping covers ASCII letters only; `Locale.ROOT` mapping of other
  characters is not modelled.
- Kafka's `ConfigDef` parsing of raw property values into types is not
  modelled. A property is given already typed, and `WithDefaults` fills in the
  defaults.
- The SSL context, the client builders (`createCollection`,
  `createMonitorClient`), the endpoints, the user and the host-list settings
  are not modelled. Neither are getters that only return a stored value
  (`getBatchSize`, `isDeleteEnabled`, `getMaxRetries`, `getRetryBackoffMs`,
  `getLogDataErrors`): these are plain fields of `Config`.
- `ArangoSinkConnector`, `ArangoSinkTask`, `HostListMonitor` and
  `ValueConverter` are not part of this model.
- `TransientException.java` is not part of this model. It is taken to be a
  `ConnectException` that is not a `DataException`.
- `KeyConverter.mapKey` is not part of this model either. `KeyConverter.MapKey`
  defines it by the textual and integral rules of `convert`.
- ArangoSinkConfig.New: of the keys without a default, `connection.endpoints`
  and `connection.collection`, only whether they are set is modelled; their
  values are not parsed or kept in `Config`.
- Text.ParseInt: only the ASCII digits '0' to '9' are digits here, whereas
  `Integer.parseInt` also accepts the other Unicode decimal digits; an extra
  data error number written with such digits is rejected by the model.
- KeyConverter.CreateKey: the partition and the offset are written with ASCII
  digits, as `String.format` does under a default locale whose digits are
  ASCII; locales with other digits are not modelled.
- A `SinkRecord` always has a topic and a partition here: the `null` topic or
  partition that Kafka Connect allows, which the fallback key would print as
  `null`, is not modelled.
- KeyConverter.Convert: the integral key is rendered as the unbounded decimal
  form of the number. The width of Jackson's number node is not modelled.
- An `ErrorEntity` always carries an error number here. An item error without
  one (`getErrorNum()` returning null) is not modelled.
- WriteSpec.BatchHandler: it returns without effect on an empty batch, a case
  `put` never hands it. This only makes it total.
- WriteProperties.PutOutcome, WriteProperties.PutHandlesPrefix,
  WriteProperties.PutHandlesBatches and WriteProperties.RetryBudgetBounded:
  these are stated over the loop of `put` for any handler that behaves as
  `HandledOnce` (or `Tracks`) describes. `PutEndsOnStore`, `PutWritesBatches`
  and `RetryBudgetKept` apply them to `put` itself.
- WriteProperties.PutHandlesBatches: the batches are stated for a positive
  batch size only. A batch size of 0 and a negative one are covered by
  `ZeroBatchSizeSkipsRecords` and `NegativeBatchSizeThrows`.
- Writer.ArangoWriter.Put: `put` takes a `Collection` and copies it into a
  list; the model takes the records as a sequence in iteration order.
