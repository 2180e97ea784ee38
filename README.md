# Sensor platform core, modelled in Dafny

The platform collects readings from building sensors: temperature, humidity
and electricity. This project models and proves three parts of it.

- **The ingestion consumer** (Go, `consumer/`). It decodes each NATS message
  into a reading and writes the reading to InfluxDB as a raw point. When a
  temperature reading is above the alert threshold, it publishes a
  temperature alert on the `emails` subject. A debouncer backed by a state
  file allows at most one alert per 24 hours, and it fails open when the
  state file cannot be used. A separate test alert exercises the same
  e-mail path.
- **The aggregation jobs** (Go, `processor/`). There is one job per domain.
  Each job runs a cycle at once and then on every tick until its context is
  cancelled. A cycle sends one Flux text with mean, min and max
  sub-queries, and writes every result row as a `<domain>_aggregated`
  point.
- **The query layer** (Python, `historian/app.py` and `graphql/app.py`). It
  builds Flux texts from optional filters and counts locations. It shapes
  raw records into `SensorReading`s and pivoted records into
  `AggregatedReading`s, and handles errors the way Python's `try/except`
  does.

Files:

| file | contents |
|---|---|
| `common.dfy` | shared vocabulary: `Option`, `Result`, instants, dynamically typed values, points, substring search, decimal rendering and parsing, `str.replace` |
| `alerting.dfy` | the alert state file, `shouldSendAlert`, `loadAlertState`, `saveAlertState` and the two alert messages, all as functions over the state directory and file |
| `consumer.dfy` | `DataConsumer` as a class whose methods append to the written points and the outbox and update the state file, each proved against the pure step `HandleMessage` |
| `consumer_trace.dfy` | properties over a sequential log of deliveries, such as no alert without a breach and alerts at least a day apart |
| `aggregation.dfy` | Go's `Sprintf` over `%s` verbs, the Flux text of one cycle, what a cycle writes, and `Aggregator` as a class with `RunAggregation`, `Run` and cancellation |
| `query_layer.dfy` | the location count, the raw query builder and the raw record shaping shared by both Python services |
| `historian.dfy` | the historian's buckets and the aggregated-readings path, with per-measurement failure isolation |
| `graphql.dfy` | the single-bucket service built on the shared query layer |

## Model

| member | source | states |
|---|---|---|
| Common.NatToDecimal | historian/app.py:122 | the rendering of a limit is a non-empty string of digits with no leading zero |
| Common.DecimalRoundTrip | historian/app.py:122 | reading the digits of a rendered natural number gives back that number |
| Common.IntDecimalRoundTrip | historian/app.py:197 | parsing the rendering of any integer limit, negative ones included, gives back that integer |
| Alerting.Sub | consumer/alert.go:35 | `now.Sub(last)` is the exact difference when it fits in a Duration, and is saturated into the int64 range otherwise |
| Alerting.SubComparesExactly | consumer/alert.go:35 | comparing the saturated difference with 24h gives the same answer as comparing the exact difference |
| Alerting.MkdirFailureFailsOpen | consumer/alert.go:20-24 | if the state directory cannot be created, the alert is sent |
| Alerting.LoadFailureFailsOpen | consumer/alert.go:27-31 | if the state cannot be loaded, the alert is sent, whatever the directory |
| Alerting.LoadFailsExactly | consumer/alert.go:44-68 | loading fails exactly when the file exists and is unreadable or does not parse; a missing file is not an error |
| Alerting.ZeroStatePermits | consumer/alert.go:45-67 | a missing or zero-length file loads as Go's zero time, and that state lets the alert through |
| Alerting.SuppressedIffWithinPeriod | consumer/alert.go:33-40 | with a usable directory and a loaded state, the alert is suppressed exactly when less than 24h has passed since the last one; a last alert in the future also suppresses |
| Alerting.SaveLoadRoundTrip | consumer/alert.go:71-80 | after a successful save, loading the file gives back the saved state |
| Alerting.SaveSucceedsExactly | consumer/alert.go:71-80 | a save succeeds exactly when the time marshals (years 0 to 9999), the directory exists and the file is writable |
| Alerting.DetailLinesReport | consumer/alert.go:89-92 | every body that embeds the sensor, location, temperature and time lines reports the reading |
| Alerting.TemperatureAlertReportsReading | consumer/alert.go:85-99 | the alert subject carries the value to two decimals in °C, and the body holds every line that identifies the reading |
| Alerting.TestAlertReportsReading | consumer/testemail.go:13-28 | the test alert has its fixed `[TEST]` subject, and its body reports the same four lines |
| Alerting.TestAlertSubjectDiffers | consumer/testemail.go:14 | no test-alert subject equals any temperature-alert subject |
| Consumer.DataConsumer.constructor | consumer/dataconsumer.go:43-57 | a new consumer keeps the configured threshold, renderers and state-file location, and has written and published nothing |
| Consumer.DataConsumer.StoreData | consumer/dataconsumer.go:116-127 | exactly one point is appended: the reading's point; nothing else changes |
| Consumer.DataConsumer.LoadAlertState | consumer/alert.go:44-68 | the loaded state or error is the one loadAlertState gives for the current file, and nothing changes |
| Consumer.DataConsumer.SaveAlertState | consumer/alert.go:71-80 | on success the file holds the encoded state; on failure the error is returned and the file is unchanged |
| Consumer.DataConsumer.ShouldSendAlert | consumer/alert.go:18-41 | the answer is the debouncer's decision, and the directory is created where possible |
| Consumer.DataConsumer.SendTemperatureAlert | consumer/alert.go:83-125 | the new state and error are those of one alert send: publish on `emails`, then record the processing time; a failed publish records nothing, and a failed save is swallowed |
| Consumer.DataConsumer.SendTestAlert | consumer/testemail.go:11-46 | the test message is published or the error returned, and the alert state is never touched |
| Consumer.DataConsumer.MessageHandler | consumer/dataconsumer.go:130-151 | the new state is the message-handling step: drop what does not decode, store what does, alert on a permitted breach |
| ConsumerTrace.UndecodableIsDropped | consumer/dataconsumer.go:133-137 | a payload that does not decode leaves the whole state unchanged |
| ConsumerTrace.DecodedIsStoredOnce | consumer/dataconsumer.go:142 | a decoded reading adds exactly its own point to the writes, whatever happens to the alert |
| ConsumerTrace.RawPointCopiesReading | consumer/dataconsumer.go:118-122 | the raw point is named after the sensor type, with exactly the sensorId and location tags, one `value` field holding the reading, and the reading's time |
| ConsumerTrace.AlertIffBreachPermittedAndPublished | consumer/dataconsumer.go:145-149 | the outbox grows exactly when the reading decodes, the temperature is above the threshold, the debouncer permits and the publish succeeds; when it grows, the new entry is that reading's alert on `emails` |
| ConsumerTrace.EveryDecodedReadingStoredOnce | consumer/dataconsumer.go:130-151 | over a log of deliveries, the points written are one per decoded payload, in delivery order |
| ConsumerTrace.NoAlertWithoutBreach | consumer/dataconsumer.go:145-149 | over a log, the outbox only grows, and every new publication is the alert for a breaching reading of that log |
| ConsumerTrace.AlertTimesCountAlerts | consumer/dataconsumer.go:147-148 | there is one recorded alert time per publication |
| ConsumerTrace.StepKeepsSpacing | consumer/alert.go:117-122 | when publishing and saving succeed, one message keeps the recorded alert times 24h apart, and the file keeps the latest of them |
| ConsumerTrace.SpacingPersists | consumer/alert.go:33-38 | the spacing is preserved over any reliable log |
| ConsumerTrace.AlertsAtLeastADayApart | consumer/alert.go:33-38 | when publishing and saving always succeed and the state file starts readable, any two alerts are at least 24h apart |
| ConsumerTrace.UnreadableStateAlertsTwice | consumer/alert.go:27-31 | with an unreadable state file, two breaching readings one hour apart both alert: the debouncer fails open |
| ConsumerTrace.FirstAlertThenSuppressed | consumer/dataconsumer.go:145-149 | a fresh consumer gets a 35.0 °C reading: it stores it, alerts and records the time; an hour later the same reading is stored and not alerted |
| Aggregation.SprintfConcat | processor/temperature_aggregator.go:103-127 | formatting a concatenation of templates uses up the arguments in order, each part taking its own |
| Aggregation.SubQueryTemplateFormats | processor/temperature_aggregator.go:104-109 | one sub-query template takes four arguments (bucket, interval, measurement, interval) and reads as that sub-query |
| Aggregation.FluxTemplateFormats | processor/temperature_aggregator.go:103-127 | the format string has as many verbs as the twelve arguments, and formatting gives the three sub-queries mean, min and max over one bucket, interval and measurement |
| Aggregation.DerivedPointCopiesRow | processor/temperature_aggregator.go:137-158 | the derived point is `<type>_aggregated`, is tagged with the row's sensorId and location and with the statistic as `type`, holds the row's value unchanged and has the row's time |
| Aggregation.QueryFailureWritesNothing | processor/temperature_aggregator.go:129-133 | a failed query writes nothing for any statistic |
| Aggregation.EveryAcceptedRowWritten | processor/temperature_aggregator.go:160-166 | every row whose write succeeds is written, even after earlier write failures |
| Aggregation.OnlyDerivedPointsWritten | processor/temperature_aggregator.go:136-167 | a cycle writes at most one point per row, each to the job's bucket and each derived from an accepted row |
| Aggregation.OnePointPerRow | processor/temperature_aggregator.go:136-167 | when every write succeeds, the i-th point written is the i-th row's derived point |
| Aggregation.TicksBeforeFirstCancel | processor/temperature_aggregator.go:86-93 | the loop serves exactly the ticks before the first call of the cancel function, and there is a call exactly when the count stops short of the whole sequence |
| Aggregation.Aggregator.constructor | processor/temperature_aggregator.go:35-47 | the job keeps its domain, bucket and interval, its Flux text is the formatted template, and it is neither cancelled nor has written anything |
| Aggregation.Aggregator.Cancel | processor/temperature_aggregator.go:50-52 | the job's own context is cancelled, and nothing else changes |
| Aggregation.Aggregator.RunAggregation | processor/temperature_aggregator.go:97-172 | one cycle appends exactly what its query's answer yields: nothing on a query error, otherwise the accepted derived points in row order |
| Aggregation.Aggregator.WriteRows | processor/temperature_aggregator.go:136-167 | the record loop appends the accepted derived points, in order |
| Aggregation.Aggregator.Run | processor/temperature_aggregator.go:67-94 | an unparsable interval ends the job with nothing written; a non-positive one panics before any cycle; otherwise the job runs one cycle at once, then one per tick until its own context is cancelled, and it returns exactly when the context is cancelled |
| Aggregation.Aggregator.Serve | processor/temperature_aggregator.go:86-93 | the select loop stops exactly when the job's context is cancelled, before it started or by a call during the loop; it runs one cycle per tick before that call, and none when the context was cancelled already |
| Aggregation.Aggregator.NextCycle | processor/temperature_aggregator.go:88-89 | a tick runs the next cycle, which sees its own view of the database and appends what that cycle writes |
| Aggregation.Aggregator.ServeTicks | processor/temperature_aggregator.go:86-93 | for a job not yet cancelled, the loop runs one cycle per tick up to the first cancel call, returns there with the context cancelled, and otherwise is still waiting with the context live |
| Aggregation.CreateAggregators | processor/base_aggregator.go:20-26 | three jobs, for temperature, humidity and electricity in that order, all distinct, fresh and with the shared configuration |
| Aggregation.CancelOne | processor/temperature_aggregator.go:36-52 | cancelling one job leaves every other job's context as it was |
| Aggregation.CancelOneOthersRun | processor/temperature_aggregator.go:36-93 | after one job is cancelled, another job with a valid interval and no cancel call of its own runs its first cycle and one cycle per tick, and is still running with its context live |
| QueryLayer.UnitTable | historian/app.py:231-238 | temperature is `Â°C` (the source's mis-encoded degree sign), humidity is `%`, electricity is `kW`, and every other type has the empty unit |
| QueryLayer.DistinctMembers | historian/app.py:52-55 | the dictionary's keys are exactly the locations that were counted |
| QueryLayer.DistinctUnique | historian/app.py:52-55 | no location is listed twice |
| QueryLayer.CountIsCarrying | historian/app.py:48-50 | a location's count is the number of records that carry it |
| QueryLayer.LocationsInMeaning | historian/app.py:48-49 | a value is counted exactly when it is truthy and some record's `location` holds it |
| QueryLayer.LocationCounts | historian/app.py:44-55 | each listed location is truthy, listed once, with a positive count equal to the number of records carrying it, and every truthy location of a record is listed |
| QueryLayer.TallyStep | historian/app.py:50 | one dictionary update keeps the keys in first-insertion order and each count equal to the occurrences seen |
| QueryLayer.CountLocations | historian/app.py:44-55 | the nested loops and the list comprehension give the locations in first-occurrence order, each with its count |
| QueryLayer.CountRecords | historian/app.py:47-50 | the inner loop extends the dictionary with the records of one table |
| QueryLayer.QueryLocations | historian/app.py:30-58 | get_all_locations returns what its query's answer gives, and nothing when the query raises |
| QueryLayer.TallyAnswer | historian/app.py:42-58 | the `except` branch returns `[]`, and otherwise the counted locations are returned |
| QueryLayer.GivenBoundsIgnoreClock | historian/app.py:98-101 | with both a start and an end given, the raw readings are the same whatever the clock reads |
| QueryLayer.RawFiltersGiven | historian/app.py:110-117 | a filter is in the raw query exactly when its argument is given as a non-empty string; filters come in the order type, sensorId, location |
| QueryLayer.RawFiltersSelect | historian/app.py:110-117 | a record passes the raw filters exactly when it matches every given argument; an argument left out constrains nothing |
| QueryLayer.RawQueryLimit | historian/app.py:120-123 | the raw query ends with the descending `_time` sort and `limit(n: <limit>)`, whose limit reads back as the argument |
| QueryLayer.BuildRawQuery | historian/app.py:104-123 | the `+=` steps build exactly the raw query text |
| QueryLayer.FirstUntimed | historian/app.py:139 | the position of the first record whose `_time` has no `isoformat`: every earlier record has a time |
| QueryLayer.ReadingDefaults | historian/app.py:133-140 | missing tags default to `""` and a missing value to `0.0`; present values pass through, and the unit is looked up from the measurement |
| QueryLayer.ReadingsAnswerMeaning | historian/app.py:125-146 | either every record becomes one reading, in order, or the result is empty: a raised query or any record without a time gives `[]` |
| QueryLayer.ShapeReadings | historian/app.py:131-141 | the record loop gives the readings of all records, or nothing once one record raises |
| QueryLayer.QueryReadings | historian/app.py:88-146 | get_sensor_readings returns the readings its query's answer gives, over the defaulted window |
| QueryLayer.ShapeAnswer | historian/app.py:125-146 | the `except` branch returns `[]`, and otherwise the shaped readings are returned |
| Historian.DefaultMeasurementsAreWritten | historian/app.py:168 | the default measurements are exactly the three `<domain>_aggregated` series the aggregation jobs write, in the same order |
| Historian.StripSuffix | historian/app.py:174 | removing `_aggregated` from `<type>_aggregated` gives back the type, provided the type does not itself contain `_aggregated` |
| Historian.MeasurementBases | historian/app.py:164-174 | a given type queries one measurement whose base is that type; no type queries the three domains |
| Historian.AggregatedSelects | historian/app.py:180-187 | a record passes the aggregated query's filters exactly when it is of the measurement and matches every given sensorId and location |
| Historian.AggregatedLimit | historian/app.py:196-197 | the aggregated query ends with a limit clause exactly when the limit is positive |
| Historian.BuildAggregatedQuery | historian/app.py:177-197 | the `+=` steps build exactly the aggregated query text |
| Historian.AggregatedDefaults | historian/app.py:207-224 | missing statistics default to `0.0` and missing tags to `""`; the type and unit are the measurement's base |
| Historian.Shaped | historian/app.py:204-225 | shaping n timed records gives n readings, the k-th from the k-th record |
| Historian.MeasurementReadingsConcat | historian/app.py:204-205 | records of consecutive tables contribute in order while none raises |
| Historian.MeasurementReadingsCut | historian/app.py:199-225 | once a record raises, later records of that measurement contribute nothing, and the earlier ones stay |
| Historian.CollectConcat | historian/app.py:172 | the measurement loop concatenates what each measurement contributes, in order |
| Historian.FailureIsolated | historian/app.py:199-227 | a measurement that contributes nothing leaves the others' readings in place |
| Historian.AggregatedFailureIsolated | historian/app.py:199-227 | a failed query on one measurement is caught, and the result is the other measurements' readings |
| Historian.CollectTypes | historian/app.py:215-222 | every collected reading has the base type of a queried measurement and that type's unit |
| Historian.ResultTypes | historian/app.py:215-222 | each measurement's readings have its base type and that type's unit |
| Historian.AggregatedReadingTypes | historian/app.py:164-224 | every aggregated reading's type is the given type, or one of the three domains when none is given, with the matching unit |
| Historian.ShapeTable | historian/app.py:205-225 | the inner loop appends the readings up to the first untimed record and reports whether one raised |
| Historian.AppendMeasurement | historian/app.py:204-225 | the table loop appends what the measurement's records contribute |
| Historian.QueryMeasurement | historian/app.py:174-227 | one pass of the measurement loop appends the measurement's contribution, over the shared window |
| Historian.ShapeMeasurement | historian/app.py:199-227 | the `except` branch appends nothing, and otherwise the shaped readings are appended |
| Historian.AggregatedWindowIsWider | historian/app.py:158-161 | against the raw path on the same clock, the aggregated window has the same end; a given start is used as it is by both; a missing start reaches 23 hours further back (24 hours before the clock instead of one) |
| Historian.AggregatedGivenBoundsIgnoreClock | historian/app.py:158-161 | with both a start and an end given, the aggregated readings are the same whatever the clock reads |
| Historian.QueryAggregated | historian/app.py:148-229 | get_aggregated_readings returns every measurement's contribution in order, over a window that defaults to the last 24 hours |
| Historian.GetAllLocations | historian/app.py:17 | the historian counts locations in the raw bucket, `sensor_data` |
| Historian.GetSensorReadings | historian/app.py:17 | the historian reads raw readings from `sensor_data` |
| Historian.GetAggregatedReadings | historian/app.py:18 | the historian reads aggregated readings from `aggregated_data` |
| Graphql.UnitBySensorType | graphql/app.py:164-171 | this service's unit lookup agrees with the historian's for every sensor type |
| Graphql.SameUnitTable | graphql/app.py:166-170 | the two services carry the same unit table |
| Graphql.GetAllLocations | graphql/app.py:46-74 | this service counts locations exactly as the historian does, over its single bucket `the_bucket` |
| Graphql.GetSensorReadings | graphql/app.py:104-162 | this service shapes raw readings exactly as the historian does, over `the_bucket`, with its `utcnow` clock readings |

## Left out

- Logging, the InfluxDB and NATS clients, connection setup, `Setup`, `Shutdown`, `SubscribeToSensors`, the consumer's `Run` and both `main.go` files are left out. They only connect to services and log.
- The test-alert goroutine of `Setup` and its 5-second sleep are left out; `SendTestAlert` models what that goroutine calls.
- Concurrency is not modelled. Messages are handled one at a time. What `Run` sees in its select statement is a sequence of `Signal`s: ticks and calls of the job's own cancel function.
- Go's `select` picks at random when a tick and Done are ready together. The model always takes Done first: a job whose context is cancelled before its select loop stops without another cycle, and a cancel call during the loop stops it before any later tick.
- Go's `float64` readings and the alert threshold are `real`s: there is no NaN, no infinity and no rounding. JSON cannot carry NaN or infinity, so decoding never produces them.
- `Marshalable` checks the year range 0 to 9999 on the instant in UTC. Go checks the year in the time's own location, so an instant within hours of a year boundary can be judged differently.
- `json.Unmarshal` of a message is abstract. In Go, a payload that lacks `value` (or any other field) still decodes, with that field's zero value. Such a reading is stored with value 0 and compared against the threshold as 0; it is not dropped.
- Rendering is kept abstract: `%.2f`, `time.RFC1123`, Python's `isoformat` and `time.ParseDuration` are function parameters. `json.Unmarshal` of a message is the consumer's `decode` parameter.
- Clocks are parameters: the debouncer's `time.Now()`, `datetime.now()` and `datetime.utcnow()`. Time zones are not modelled: one `iso` function renders the clock readings and the record times.
- The database is abstract. Its answer to a query text is a parameter, and so is whether each write succeeds. Flux is not evaluated; filter semantics are modelled by `Admits`.
- Filter values are put into Flux verbatim, with no escaping, as in the source. The model does not reason about injected Flux.
- The environment variables that override buckets are left out. The buckets are their defaults.
- The processor's `Config` in `processor/config.go` has `SourceBucket` and `TargetBucket` but no `InfluxBucket`, which every aggregator reads (processor/temperature_aggregator.go:42). The model takes the bucket and the interval as the two fields of its `Config`, so one bucket is both read and written.
- `get_all_sensors` of both Python services is left out. It is a separate listing query, and nothing else in the core depends on it.
- The strawberry and FastAPI wrappers are left out. They only forward arguments to the functions modelled.
- Python dictionaries compare keys by equality, so `1`, `1.0` and `True` are one key. The model keeps such values apart.
- `result.Err()` is only logged after the loop. The model does not represent it.
- Aggregation.Aggregator.RunAggregation: assumes every row carries string `sensorId` and `location` columns (`WellTaggedResponse`). In the source, a row without them makes the type assertion panic, and that panic is not modelled.
- The Flux text of a cycle is computed once, in the constructor, not at the start of every `RunAggregation`. It depends only on fields that never change, so every cycle would compute the same text.

Where the code departs from the intended design, the model follows the code:
- Aggregated values are meant to be converted to floating point (an integer count of 5 becomes 5.0), and a value of any other kind is meant to skip only its row. The code writes every value as the row gives it, with no conversion and no per-row decode error.
- A query failure for one statistic is meant to skip only that statistic. One query carries all three statistics, so a query error skips the whole cycle.
- The aggregation interval is meant to be positive. A non-positive interval in fact parses, and then makes `time.NewTicker` panic. The model reports this as `TickerPanic`, which happens before any cycle runs.
- A sensor type that contains `_aggregated` changes the base type the historian reports (`StripSuffix` requires its absence).
