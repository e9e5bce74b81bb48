# Trip-fare enrichment and e-commerce log aggregation, modelled in Dafny

This project models the two serverless handlers of an end-to-end streaming
pipeline and proves properties of them.

- `lambda/lambda_function.py` enriches taxi trips. It receives a batch of
  stream records. For each record that carries data, it:
  - decodes the JSON payload;
  - builds a four-field feature vector and asks a deployed model for the
    expected fare (a failed call means "no prediction");
  - compares the actual fare with the prediction against a dollar
    threshold;
  - appends the trip, annotated with `predicted_fare`, `abs_error`,
    `is_outlier` and `ts`, to an output list.

  It then hands that list to a delivery stream in slices of at most 400
  records and answers `{"ok": true, "n": len(out)}`.
- `lambda.py` aggregates e-commerce logs. It reads every uploaded log file
  named in a storage notification. For each non-empty line it:
  - parses the line as JSON;
  - stores the entry in a table (floats converted to decimals, keyed by a
    `log_id`);
  - forwards the entry to a stream;
  - counts it by event type and adds the `total` of purchases to a sales
    figure.

  It then publishes the counters as metrics and answers 200 with a summary,
  or 500 when anything in the loops raised.

Modules, following the program's structure:

| file | module | models |
|---|---|---|
| `wrappers.dfy` | `Wrappers` | `Option` and `Result` |
| `json.dfy` | `Json` | the values `json.loads` produces, `dict.get`, which values Python treats as numbers |
| `text.dfy` | `Text` | `str.join`, `str.split`, `str.strip` |
| `rounding.dfy` | `Rounding` | `round(x, n)`: nearest multiple of 10^-n, ties to even |
| `chunking.dfy` | `Chunking` | the slices `out[i:i+400]` of the delivery loop |
| `fare_enrichment.dfy` | `FareEnrichment` | `predict_fare`, the enriched record, one loop step, the loop as a fold |
| `fare_handler.dfy` | `FareHandler` | `lambda_handler` of the trip handler, as methods with loops |
| `decimal_conversion.dfy` | `DecimalConversion` | `convert_floats_to_decimal` |
| `type_counts.dfy` | `TypeCounts` | the insertion-ordered dict `eventos_por_tipo` |
| `log_aggregation.dfy` | `LogAggregation` | `process_log`, `log_id`, the counting of one line, the loops as folds |
| `log_handler.dfy` | `LogHandler` | `lambda_handler` and `enviar_metricas_cloudwatch` of the log handler, as methods with loops |

Every outside service is a function-typed field of an environment value:
`FareEnrichment.Services` and `LogAggregation.LogServices`. This covers the
model endpoint, the delivery stream, object storage, the table, the event
stream, base64/UTF-8/JSON decoding, Python's `str()` and the clocks. A call
that raises is a `None` or `false` answer. The environment variables
`SAGEMAKER_ENDPOINT`, `FIREHOSE_STREAM` and `THRESHOLD` are the fields of
`FareEnrichment.Config`. The loops are specified by left-to-right folds over
prefixes (`EnrichUpTo`, `ScanLines`, `ScanObjects`). The handler methods
carry loop invariants tying their state to those folds. The properties are
proved about the folds.

Two places where the code behaves differently from what one might expect of
such a pipeline; the model follows the code:

- One might expect a malformed trip payload to be skipped on its own. In
  the code the decode (`lambda/lambda_function.py:32`) is outside the `try`.
  A payload that does not decode therefore raises out of the handler, and
  nothing of the batch is delivered (`FareHandler.MalformedPayloadAbortsBatch`).
- One might expect the outlier test to compare the stored, rounded
  `abs_error` with the threshold. The code (`lambda/lambda_function.py:39`) compares the
  unrounded difference. `FareEnrichment.OutlierUsesUnroundedDifference`
  exhibits a record flagged as an outlier whose stored `abs_error` equals
  the threshold.

## Model

| member | source | states |
|---|---|---|
| FareEnrichment.Features | lambda/lambda_function.py:11-16 | the feature vector has exactly four entries: `trip_distance`, `passenger_count`, `PULocationID`, `DOLocationID`, in that order, each the payload's field or else its default 0.0, 1, 0, 0 |
| FareEnrichment.FeaturesOfBarePayload | lambda/lambda_function.py:11-16 | a payload with none of the four fields yields `[0.0, 1, 0, 0]` |
| FareEnrichment.FeaturesReadOnlyFeatureFields | lambda/lambda_function.py:11-16 | two payloads that agree on the four feature fields yield the same vector, whatever else they hold |
| FareEnrichment.RequestBody | lambda/lambda_function.py:17 | `",".join(str(x) for x in features)`; its promise is stated by `RequestBodyFields` |
| FareEnrichment.RequestBodyFields | lambda/lambda_function.py:17 | RequestBody: splitting the request body at commas gives back the four rendered features in order, when none of them contains a comma |
| FareEnrichment.PredictFare | lambda/lambda_function.py:18-24 | `predict_fare` under the handler's `try` (a raising call is no prediction); without a configured endpoint there is no prediction. Its request is stated by `PredictFareBody` and `PredictFareRequest` |
| FareEnrichment.PredictFareBody | lambda/lambda_function.py:17-24 | with an endpoint configured, the prediction is the endpoint's answer to the four rendered features joined by commas, in order, for any payload |
| FareEnrichment.PredictFareRequest | lambda/lambda_function.py:17-24 | with an endpoint configured, the prediction is the endpoint's answer to a body whose comma-separated fields are the four rendered features in order, when none of them contains a comma; without one, there is none |
| FareEnrichment.PredictFareReadsOnlyFeatureFields | lambda/lambda_function.py:10-24 | two payloads that agree on the four feature fields get the same prediction |
| FareEnrichment.Enrich | lambda/lambda_function.py:38-47 | the record raises exactly when there is a prediction and the fare (default 0.0) is not a number. The enriched record has the payload's keys plus the four added ones, keeps every other payload field, and carries `ts`. Without a prediction it holds `None`, `None`, `false`. With one it holds the prediction, `round(abs(fare - yhat), 3)` and `abs(fare - yhat) > THRESHOLD` on the unrounded difference |
| FareEnrichment.DifferenceAtThresholdIsNoOutlier | lambda/lambda_function.py:39 | a difference exactly equal to the threshold is not an outlier (strict comparison) |
| FareEnrichment.AbsErrorAgreesWithFlag | lambda/lambda_function.py:39-45 | the stored `abs_error` is non-negative. It is at least `THRESHOLD - 0.0005` on an outlier and at most `THRESHOLD + 0.0005` otherwise |
| FareEnrichment.OutlierUsesUnroundedDifference | lambda/lambda_function.py:39-45 | fare 30.0004, prediction 20, threshold 10: `abs_error` is 10.0 yet `is_outlier` is true |
| FareEnrichment.SampleTripNearPrediction | lambda/lambda_function.py:11-47 | a concrete trip: its feature vector, and prediction 20 against fare 25 gives error 5 and no outlier at the default threshold 10 |
| FareEnrichment.SampleTripFarFromPrediction | lambda/lambda_function.py:38-45 | prediction 5 against fare 25 gives error 20 and an outlier at the default threshold 10 |
| FareEnrichment.ProcessRecord | lambda/lambda_function.py:28-48 | a record is skipped exactly when its `kinesis.data` is absent or empty |
| FareEnrichment.FailedPredictionIsStillEmitted | lambda/lambda_function.py:33-47 | when the prediction call or its parse raises (or no endpoint is set), the record is still emitted with `predicted_fare = None`, `abs_error = None`, `is_outlier = false`, and its payload fields |
| FareEnrichment.MalformedPayloadRaises | lambda/lambda_function.py:32 | a payload that does not decode raises out of the loop body |
| FareEnrichment.EnrichUpTo | lambda/lambda_function.py:28-48 | the loop over the first n records as a left-to-right fold: the `out` built so far, or the error that ended the loop. Its promises are stated by `EnrichedRecordsFollowInput` (order and count), `EnrichRaisesAtFirstFailure` (first error) and `RaiseIsFinal` |
| FareEnrichment.KeptIndices | lambda/lambda_function.py:28-31 | the positions of the records with data, strictly increasing, and all of them |
| FareEnrichment.EnrichedRecordsFollowInput | lambda/lambda_function.py:28-48 | a completed loop has one output per record with data, the j-th output being the enrichment of the j-th such record (order and count) |
| FareEnrichment.EnrichRaisesAtFirstFailure | lambda/lambda_function.py:28-48 | the loop raises if and only if some record raises, and then with the error of the first such record |
| FareEnrichment.RaiseIsFinal | lambda/lambda_function.py:28-48 | once the loop has raised, later records change nothing |
| FareHandler.EnrichBatch | lambda/lambda_function.py:27-48 | the loop building `out` computes exactly the fold `EnrichAll`: the list, or the first record's error |
| FareHandler.FirstRefused | lambda/lambda_function.py:51-55 | the number of the first delivery call that raises: all earlier calls succeed, and it is the call count when none raises |
| FareHandler.FirstRefusedAt | lambda/lambda_function.py:51-55 | a refusal after an unbroken run of successful calls is the first refusal |
| FareHandler.DeliverInSlices | lambda/lambda_function.py:51-55 | the calls are the slices `Chunks(out)` in order, up to and including the first call that raises, and that call is reported |
| FareHandler.DeliveryConfigured | lambda/lambda_function.py:50 | the `FIREHOSE_STREAM` half of `if out and FIREHOSE_STREAM`: a stream name that is set and non-empty. What it gates is stated by `HandleTripBatch` |
| FareHandler.HandleTripBatch | lambda/lambda_function.py:26-57 | a raising record ends the invocation with its error and no delivery call. Otherwise, with records and a stream name, the delivery calls are the 400-record slices in order, stopping at a call that raises. Otherwise no call is made. A normal return is `{"ok": true, "n": len(out)}` |
| FareHandler.MalformedPayloadAbortsBatch | lambda/lambda_function.py:32-50 | one undecodable payload anywhere makes the whole invocation raise, so nothing of the batch is delivered |
| FareHandler.WellFormedBatchCompletes | lambda/lambda_function.py:28-48 | if every record with data decodes to an object with a numeric or absent fare, the enrichment loop completes, with one output per record with data (a raising delivery call afterwards still ends the invocation, as `HandleTripBatch` states) |
| Chunking.SliceExists | lambda/lambda_function.py:51 | slice k exists exactly when `400 * k < len(out)` |
| Chunking.Chunks | lambda/lambda_function.py:51-55 | `ceil(n / 400)` slices, each of 1 to 400 records, which laid end to end are exactly `out` |
| Chunking.ChunkAt | lambda/lambda_function.py:51-55 | slice k is `out[400*k : 400*k + 400]` |
| Chunking.ChunksFullExceptLast | lambda/lambda_function.py:51-55 | every slice but the last holds exactly 400 records |
| Chunking.ChunksOf850 | lambda/lambda_function.py:51-55 | 850 records go out as three calls of 400, 400 and 50, in order |
| Rounding.RoundHalfEven | lambda/lambda_function.py:44 | `round(x)` is within one half of `x`, and even on a tie |
| Rounding.RoundToIsNearestMultiple | lambda/lambda_function.py:44 | `round(x, n)` is a multiple of 10^-n within half a step of `x` |
| Rounding.RoundToExact | lambda/lambda_function.py:44 | a multiple of 10^-n is left unchanged by `round(x, n)` |
| Rounding.RoundToNonNegative | lambda/lambda_function.py:44 | rounding keeps a non-negative value non-negative |
| Text.Split | lambda.py:39 | `split` yields at least one part and no part contains the separator |
| Text.JoinSplit | lambda.py:39 | joining the parts of a split gives back the string |
| Text.SplitJoin | lambda/lambda_function.py:17 | splitting a join of separator-free parts gives back the parts |
| Text.Strip | lambda.py:39 | `strip()` is the slice left after removing leading and trailing whitespace; it neither starts nor ends with whitespace |
| DecimalConversion.ConvertFloatsToDecimal | lambda.py:97-104 | the result holds no float. A float becomes a decimal of the same value, a dict keeps its keys, a list keeps its length, and any other value is unchanged |
| DecimalConversion.ConvertKeepsFloatFreeValue | lambda.py:97-104 | a value without floats is returned unchanged |
| DecimalConversion.ConvertIdempotent | lambda.py:97-104 | converting twice is converting once |
| DecimalConversion.ConvertKeepsNumbers | lambda.py:97-104 | the conversion changes only how numbers are typed: reading decimals as floats gives back the original tree |
| TypeCounts.Bump | lambda.py:47 | `d[t] = d.get(t, 0) + 1`: existing keys stay in place and a new key is appended with count 1. The count of `t` rises by one, every other count is unchanged, and the total rises by one |
| TypeCounts.BumpKeepsDistinct | lambda.py:47 | the updated dict still has distinct keys |
| TypeCounts.CountOfStored | lambda.py:47 | in a dict, looking up a stored key gives the count beside it |
| LogAggregation.LogId | lambda.py:78 | the id exists exactly when `timestamp`, `usuario_id` and `sesion_id` are all present |
| LogAggregation.LogIdFields | lambda.py:78 | the id is `timestamp_usuario_sesion`: splitting it at `_` gives the three fields back, when none of them contains `_` |
| LogAggregation.StreamSendIgnoresTable | lambda.py:73-95 | what is sent to the stream does not depend on the table write. An object entry is sent with partition key `usuario_id` (default `"default"`) whenever the stream accepts it |
| LogAggregation.ProcessLog | lambda.py:73-95 | `process_log`: the table write and the stream send, each under its own `try`, so nothing escapes to the caller. Its promises are stated by `StreamSendIgnoresTable` and `StoredItemShape` |
| LogAggregation.TableItem | lambda.py:76-78 | the item built for the table, or the exception caught around it. Its shape is stated by `TableItemShape` |
| LogAggregation.StoredItemShape | lambda.py:75-80 | what reaches the table comes from an object entry and holds no float. It has the entry's keys plus `log_id`, each other field is the entry's field converted by `convert_floats_to_decimal`, and `log_id` is the id |
| LogAggregation.TableItemShape | lambda.py:76-78 | the built item holds no float. It has the entry's keys plus `log_id`, each other field is the entry's field converted by `convert_floats_to_decimal`, and `log_id` is the id |
| LogAggregation.CountEntry | lambda.py:45-51 | the counting of one parsed line in the handler's order, or the exception it raises (not an object, unhashable type, non-numeric sale total). Its effect is stated by `CountEntryEffect` |
| LogAggregation.CountEntryEffect | lambda.py:45-51 | a counted line adds one to the total and one to its type's count (default `DESCONOCIDO`), and leaves other types alone. It keeps the counts summing to the total. It adds its `total` (default 0) to the sales exactly when its type is `COMPRA` or `PAGO_COMPLETADO` |
| LogAggregation.LinesOf | lambda.py:39 | `content.strip().split('\n')`: at least one line, none holding a line break, and joined back with line breaks they are the stripped content |
| LogAggregation.ScanLine | lambda.py:40-51 | the inner loop body as one fold step: an empty line is skipped, otherwise parse, `process_log`, count. `CountLine` is proved equal to it |
| LogAggregation.ScanLines | lambda.py:39-51 | the inner loop as a left-to-right fold over the lines. Its promises are stated by `ScanLinesCountsEachLine`, `ErrorIsFinal` and `LineErrorEndsFile`; `CountLines` is proved equal to it |
| LogAggregation.ScanObject | lambda.py:31-51 | the outer loop body as one fold step: read the file (a failed read raises), then scan its lines. `ReadAndCount` is proved equal to it |
| LogAggregation.ScanObjects | lambda.py:30-51 | the outer loop as a left-to-right fold over the files. Its promises are stated by `ScanObjectsConsistent`, `ErrorIsFinalAcrossObjects` and `ObjectErrorEndsScan`; `HandleLogEvent` is specified by it |
| LogAggregation.ErrorIsFinal | lambda.py:39-51 | once a line has raised, later lines change nothing |
| LogAggregation.ErrorIsFinalAcrossObjects | lambda.py:30-51 | once a file has raised, later files change nothing |
| LogAggregation.ScanLinesCountsEachLine | lambda.py:39-47 | a file scanned without error counts each non-empty line exactly once, calls `process_log` once per such line, and keeps the counts summing to the total |
| LogAggregation.ScanObjectsConsistent | lambda.py:30-47 | over all files, the counts per type keep summing to `total_eventos` |
| LogAggregation.ScanObjectsStep | lambda.py:30-51 | scanning one more file is one more step of the outer loop |
| LogAggregation.ObjectErrorEndsScan | lambda.py:28-51 | an error in file r is the error of the whole scan |
| LogAggregation.ScanLinesStep | lambda.py:39-51 | scanning one more line is one more step of the inner loop |
| LogAggregation.LineErrorEndsFile | lambda.py:39-51 | an error at line j is the error of the whole file |
| LogAggregation.AppendLines | lambda.py:39-51 | scanning two runs of lines in turn is scanning their concatenation |
| LogAggregation.AppendObjects | lambda.py:30-51 | scanning two runs of files in turn is scanning their concatenation |
| LogHandler.DescribesTally | lambda.py:109-134 | the metric list for a tally: `TotalEventos`, `VentasTotales`, then one `Eventos_<type>` per type in dict order. `BuildMetricData` is proved to build it and `TypeMetricsSumToTotal` states its sum |
| LogHandler.BuildMetricData | lambda.py:106-134 | the metric list has 2 + (number of types) entries: `TotalEventos` (Count), then `VentasTotales` (None), then one `Eventos_<type>` (Count) per type in dict order carrying its count, each with its own clock reading |
| LogHandler.TypeMetricsSumToTotal | lambda.py:128-134 | the per-type metrics of a consistent tally add up to `TotalEventos` |
| LogHandler.HandleLogEvent | lambda.py:20-71 | an exception anywhere in the loops answers 500 with that error and skips the metrics. Otherwise it answers 200 with the final counters and the sales rounded to 2 decimals, and the metrics describe the unrounded counters. The `process_log` effects are those of every line processed |
| LogHandler.ReadAndCount | lambda.py:31-51 | one outer iteration: a failed read raises, otherwise the file's stripped lines are scanned |
| LogHandler.CountLines | lambda.py:39-51 | the inner loop computes exactly the fold over the lines, stopping at the first line that raises |
| LogHandler.CountLine | lambda.py:40-51 | one line, statement by statement, computes exactly one fold step |
| LogHandler.SuccessfulAnswerIsConsistent | lambda.py:45-64 | a 200 answer reports counts per type that add up to `total_eventos` |

## Left out

- Cloud calls are oracles that answer success or failure (or a value):
  - model invocation (`invoke`) sees the endpoint name, the record's position in the batch and the request body;
  - batch delivery (`putBatch`) sees only the call's number, not the slice or the stream name; the slices sent are recorded in the handler's `calls` output instead;
  - object read (`getObject`) sees the bucket and key only, so reading the same object twice gives the same answer;
  - table write (`putItem`) and stream put (`putRecord`) see the line's position among the processed lines and the item or record;
  - metric publication (`put_metric_data`) has no oracle: its failure is caught inside `enviar_metricas_cloudwatch` and changes nothing, so only the metric list handed to it is modelled.

  Retries, latency, partial batch failures reported inside a successful `put_record_batch` answer, and timeouts are not modelled.
- The function-timeout setting of the deployment is not modelled.
- Floats are modelled as exact reals. IEEE rounding of `fare - yhat` and of the running sum of sales is not modelled, and `round` is applied to the exact value. `Decimal(str(f))` is taken to be the same number as `f`.
- Base64, UTF-8 and JSON decoding, `float(resp["Body"].read())` and Python's `str()` are oracles. `json.dumps` is not modelled: the enriched record's serialization with a trailing newline, the stream record's data, and the response body (including how it turns non-string dict keys into strings) are represented by the values themselves.
- `time.time()` and `datetime.utcnow()` are oracles indexed by the record or metric position. `print` logging is left out.
- FareEnrichment.Enrich: payload key order is not modelled (objects are maps). Keys already named `predicted_fare`, `abs_error`, `is_outlier` or `ts` are overwritten, as in the source.
- FareEnrichment.StreamRecord: a stream record is reduced to its `kinesis.data` value. A missing `Records` list and a `kinesis` field that is not an object (both raise in the source) are not modelled.
- LogAggregation.ObjectRef: a notification record is reduced to its bucket and key. A notification record without `s3.bucket.name` or `s3.object.key` (a `KeyError` in the source) is not modelled.
- TypeCounts.SameKey: dict-key equality treats numbers as equal by value (`1 == 1.0 == True`). Strings never equal numbers. Values that cannot be dict keys raise before any update.
- LogHandler.HandleLogEvent: the metric list is what is handed to the metrics service. The call itself tolerates failure, so its outcome is not part of the model.
- `log_gen.py` (random event generator), `producer/producer.py` (trip replay producer) and `sagemaker/train_register_deploy.py` (model training and deployment) are not part of this model.
