# Weather pipeline: batching, reassembly and analytics, verified

This project is a Dafny model of the messaging core of a three-node weather data
pipeline. The nodes share one channel-name protocol on a pub/sub bus,
`weather_channel:{kind}:{index|LAST}:{hour}`.

- The **streamer** (`src/streamer.py`) does four things:
  - it splits each hour of a dataset into 500-row batches;
  - it publishes them on data channels, with the final batch of the hour named `LAST`;
  - it replays a batch when asked on a request channel;
  - it keeps the messages the bus refused in a FIFO, which a drain pass retries.
- The **ingester** (`src/ingester.py`) handles each data message:
  - it caches the message and records the batch slots received for each hour (`LAST` is slot 87);
  - once slots 0..87 are all present, it writes the hour's cached batches to the time-series store, notifies the processor and drops the hour from the cache;
  - otherwise, once a `LAST` has been seen, it asks the streamer for one missing batch.
- The **processor** (`src/processor.py`) builds analytics for each notified hour:
  - it queries the store for per-state averages and per-state zip-code extremes of four metrics;
  - it flattens the grouped answers into records and writes them back as analytics points;
  - it queues every write that fails on a list that nothing drains.
- The **store loader** (`src/database.py`) maps weather records onto store points: it selects the tags, whitelists and cleans the fields, and coerces values.

Modules:

| module | file | models |
|---|---|---|
| `Values` | values.dfy | messages, payloads, records, points and the Python exceptions raised |
| `Text` | text.dfy | `str.split`, `str.join`, decimal `str(int)` and `int(str)` |
| `Channels` | channels.dfy | the channel names and both `get_parts` functions |
| `Streamer` | streamer.dfy | batching, replay and the publish FIFO (class `StreamerNode`) |
| `Ingester` | ingester.dfy | slot tracking, flush, purge, requests and the subscription step (class `IngesterNode`) |
| `Processor` | processor.dfy | query builders, result flattening, analytics points (class `ProcessorNode`) |
| `Database` | database.dfy | `TAG_COLUMNS`, `FIELD_COLUMNS` and the points of `insert_batch` |
| `Protocol` | protocol.dfy | how the streamer's publication and replays complete the ingester's hour |

The outside world enters as parameters:
- Bus publishes and store writes are oracles indexed by an attempt counter: `busUp: nat -> bool`, `store: nat -> WriteOutcome` and `accepts: nat -> bool`. This stands for any sequence of outcomes fixed in advance.
- Query answers are a function `query: string -> Answer` from the query text to its grouped result, where `None` means the query raised.
- The state listing of `get_all_states` is a parameter, where `None` means it raised.
- `float()` is a parameter `parseFloat: string -> Option<real>`.

The model follows the code as written, including where it does less than its own comments say:
- `request_batches` publishes only one request per call, because it returns inside its loop, although its comment says it iterates through all missing batches and requests them.
- It never asks for slot 87, because it searches `range(87)`.
- The stall back-off can never fire, because `last_request_index` is never updated from -1.
- The processor's failed-write queue is never drained.

## Model

The functions that define each source function's behaviour are specified through the rows of the lemmas and methods about them, and have no rows of their own. Examples: `Streamer.DataHourBatch` (`get_data_hour_batch`), `Streamer.Drain`, `Ingester.ScanCache`, `Ingester.FlushCache`, `Processor.CalculateExtremes` and `Database.Fields`.

| member | source | states |
|---|---|---|
| Text.Split | src/ingester.py:97 | `str.split` yields at least one piece, and no piece contains the separator |
| Text.JoinSplit | src/ingester.py:97 | joining the pieces of a split gives back the string |
| Text.SplitJoin | src/streamer.py:85 | splitting a join of separator-free pieces gives back exactly those pieces |
| Text.IntToString | src/streamer.py:55 | the decimal rendering of an index or hour is non-empty and contains no `:`, so it cannot break a channel name apart |
| Text.ParseIntToString | src/streamer.py:89-90 | `int(str(i)) == i` for every integer, negative ones included |
| Text.LastIsNotNumeric | src/ingester.py:127-130 | `int("LAST")` raises ValueError |
| Channels.IngesterParts | src/ingester.py:96-102 | the ingester's `get_parts` succeeds exactly when the name has at least four `:`-pieces; fewer raise IndexError |
| Channels.StreamerParts | src/streamer.py:84-86 | the streamer's `get_parts` succeeds exactly when the name has four pieces; any other count raises ValueError |
| Channels.StreamerPartsRefinesIngester | src/streamer.py:84-86 | where the streamer's parser succeeds, the ingester's returns the same parts; they differ exactly on names with more than four pieces |
| Channels.FourPartName | src/ingester.py:96-102 | a name built from three colon-free parts splits back into the namespace and those parts |
| Channels.DataChannelParses | src/ingester.py:185-188 | a data channel parses back, with both parsers, to the index and hour it was built from, and it carries the data prefix the subscription loop tests |
| Channels.RequestChannelParses | src/streamer.py:105-108 | a request channel parses back to its index and hour, and it carries the request prefix the replay loop tests |
| Streamer.DataHour | src/streamer.py:25-27 | `get_data_hour` keeps exactly the rows of that hour |
| Streamer.DataHourAppend | src/streamer.py:25-27 | selecting an hour distributes over concatenation, so the dataset's order is kept |
| Streamer.ToPayload | src/streamer.py:49 | the payload of a batch has one record per row |
| Streamer.PySliceNonNegative | src/streamer.py:48 | `iloc[a:b]` with non-negative bounds is the sub-sequence cut at the end |
| Streamer.Batches | src/streamer.py:47-48 | an hour of n rows has `ceil(n/500)` batches |
| Streamer.HourMessages | src/streamer.py:47-55 | an hour's pass publishes exactly one message per batch |
| Streamer.HourMessageAt | src/streamer.py:47-55 | message i carries rows `[500i, min(500i+500, n))` under the label of batch i and the hour |
| Streamer.BatchShape | src/streamer.py:47-48 | an empty hour publishes nothing; every batch but the last holds exactly 500 rows; the last holds 1..500 |
| Streamer.LabelsOfHour | src/streamer.py:51-55 | a batch is labelled `LAST` exactly when it is the final one; every other batch carries its own index |
| Streamer.BatchesConcatenate | src/streamer.py:47-48 | the batches concatenate to the hour's rows, in order |
| Streamer.PublishKeeps | src/streamer.py:29-37 | one publish uses one attempt and keeps the message, either appended to what the bus accepted or queued at the tail of the FIFO |
| Streamer.PublishAllKeepsEverything | src/streamer.py:40-57 | publishing a run of messages never loses one, and keeps both the accepted sequence and the FIFO in order |
| Streamer.PublishAllAppend | src/streamer.py:42-57 | publishing hour after hour is publishing the concatenated messages |
| Streamer.DrainFifo | src/streamer.py:65-81 | a drain pass delivers the queued messages in FIFO order up to the first failure, re-queues the failed one at the tail and stops; it does nothing on an empty FIFO |
| Streamer.DrainKeepsEverything | src/streamer.py:65-81 | a drain pass never loses or duplicates a message |
| Streamer.ReplayMatchesOriginal | src/streamer.py:88-92 | the replay of batch i is exactly the payload originally published as batch i, the final batch included |
| Streamer.ReplayPastEndIsEmpty | src/streamer.py:88-92 | a replay request with 500i past the end of the hour yields an empty batch |
| Streamer.ReplayOfLastFails | src/streamer.py:88-90 | a replay request for `LAST` raises ValueError |
| Streamer.StreamerNode.constructor | src/streamer.py:20-22 | the node starts with nothing sent, an empty FIFO and no attempt made |
| Streamer.StreamerNode.PublishData | src/streamer.py:29-37 | on failure the message goes to the tail of the FIFO; on success the FIFO is unchanged |
| Streamer.StreamerNode.PublishHour | src/streamer.py:44-55 | the batching loop publishes exactly the hour's messages, in order |
| Streamer.StreamerNode.PublishBatch | src/streamer.py:48-55 | one loop body publishes batch i of the hour under its label |
| Streamer.StreamerNode.PublishDay | src/streamer.py:40-57 | a pass publishes hours 0..23 in order |
| Streamer.StreamerNode.SendPendingData | src/streamer.py:65-81 | the FIFO and the accepted messages end exactly as the drain pass specifies |
| Streamer.StreamerNode.HandleRequest | src/streamer.py:102-111 | other message types and non-request channels are ignored; a request is replayed exactly when its batch can be computed, republishing it on the data channel with the request's own index and hour; otherwise it crashes with the batch's exception, and a name without four parts crashes with ValueError, publishing nothing |
| Ingester.InspectDataChannel | src/ingester.py:125-130 | a `LAST` batch of the hour fills slot 87, a numeric index fills its own slot, a non-numeric one raises, and another hour's message fills nothing |
| Ingester.ScanStops | src/ingester.py:117-130 | once the slot loop has raised, later cached messages change nothing |
| Ingester.ScanFills | src/ingester.py:125-130 | a message of the hour adds its slot to a scan that has not raised |
| Ingester.ScanSkips | src/ingester.py:125 | a message of another hour leaves the scan as it is |
| Ingester.ScanRaises | src/ingester.py:130 | a bad index of the hour stops the scan with its exception and keeps the slots so far |
| Ingester.ScanAllSkip | src/ingester.py:117-130 | a cache with no message of the hour contributes nothing to it |
| Ingester.ScanConcat | src/ingester.py:117-130 | scanning a cache in two parts gives the slots of both parts and the failure of the second, once the first has not raised |
| Ingester.ScanFailure | src/ingester.py:125-130 | the slot loop raises exactly when some cached message of the hour has an index that is neither `LAST` nor numeric |
| Ingester.ScanSlotsAreFilled | src/ingester.py:125-130 | every slot recorded is the slot of a cached message of the hour |
| Ingester.FilledSlotsAreScanned | src/ingester.py:125-130 | a loop that does not raise records the slot of every cached message of the hour |
| Ingester.ScanContents | src/ingester.py:115-130 | the loop adds exactly the slots of the cached messages of the hour, and it raises exactly on a bad index of that hour |
| Ingester.ScanDependsOnlyOnMessages | src/ingester.py:115-130 | when no cached message of the hour raises, caches holding the same messages, in any order and with any duplicates, record the same slots |
| Ingester.CompleteIffNothingMissing | src/ingester.py:132-148 | an hour is complete exactly when `request_batches` finds nothing missing and slot 87 is filled; slot 87 is never reported missing |
| Ingester.PurgeMembers | src/ingester.py:107 | the purge removes exactly the messages of the hour and keeps every other one |
| Ingester.PurgeAppend | src/ingester.py:107 | the purge distributes over concatenation, so it keeps the cache order |
| Ingester.PurgeOtherHours | src/ingester.py:107 | a cache with no message of the hour is left unchanged |
| Ingester.PurgeLeavesNothingToScan | src/ingester.py:104-130 | after the purge the cache fills no slot of the hour and raises nothing for it |
| Ingester.FlushHandles | src/ingester.py:165-167 | a handled message extends the flush by its own writes and outcome |
| Ingester.FlushSkips | src/ingester.py:166 | a message of another hour is not handled |
| Ingester.FlushStops | src/ingester.py:165-167 | an exception ends the flush; later messages are not handled |
| Ingester.FlushWritesCachedBatches | src/ingester.py:161-167 | a flush that is not stopped writes the points of every decodable cached message of the hour, one write each, in cache order, whatever the connection outcome |
| Ingester.FlushIgnoresConnectionErrors | src/ingester.py:61-69 | only client errors change the course of a flush; connection errors are swallowed |
| Ingester.WritesOf | src/ingester.py:62 | one write effect per batch of points, in order |
| Ingester.WritesOfAppend | src/ingester.py:62 | the effects of consecutive runs of writes concatenate |
| Ingester.IngesterNode.constructor | src/ingester.py:18-24 | the node starts with an empty cache, no received sets, no pending messages and fresh loop locals |
| Ingester.IngesterNode.Resubscribe | src/ingester.py:175-179 | each pass of the outer loop starts with `received_last` false and `last_request_index` -1 |
| Ingester.IngesterNode.BuildRawPoints | src/ingester.py:44-59 | one point per entry, in order, with the four metric fields and the zip-code and state tags; an entry missing a key raises KeyError |
| Ingester.IngesterNode.HandleMessage | src/ingester.py:26-69 | an undecodable payload is dropped; otherwise its points are written once; a connection error is swallowed and a client error raised |
| Ingester.IngesterNode.HandleCached | src/ingester.py:161-167 | the hour's cached messages are handled in cache order until the first exception, and the cache is not changed |
| Ingester.IngesterNode.NotifyProcessor | src/ingester.py:71-78 | the processor channel is published with the hour; on failure only the channel string is queued |
| Ingester.IngesterNode.SendPending | src/ingester.py:80-87 | every cached message is re-handled and none is removed; the pending list is then emptied without publishing anything |
| Ingester.IngesterNode.ClearCachedDataForHour | src/ingester.py:104-107 | the cache becomes its purge for the hour; the received sets are outside its frame, so a complete hour stays complete |
| Ingester.IngesterNode.RecordCachedSlots | src/ingester.py:115-130 | the hour's received set grows by exactly the scanned slots; it is created as soon as the cache holds any message; the loop raises exactly as the scan does |
| Ingester.IngesterNode.AllBatchesReceived | src/ingester.py:109-136 | true exactly when slots 0..87 are all in the hour's received set after the cached slots are added; an empty cache with no entry for the hour raises KeyError |
| Ingester.IngesterNode.RequestBatches | src/ingester.py:139-159 | publishes at most one request, for a slot in 0..86 not yet received; returns that slot if the publish went through; publishes nothing when 0..86 are all present |
| Ingester.IngesterNode.FlushHour | src/ingester.py:194-199 | the outcome is Flushed exactly when the flush of the hour's cached messages raises nothing: it writes them, notifies the processor, purges the hour and resets `received_last`, in that order, whatever the connection outcome of each write; FlushAborted exactly on a client error, with the locals reset; otherwise a crash with the flush's own exception; without a flush the cache, `pending` and the publish count are kept and the effects are the flush's writes; the write count grows by the flush's writes; a flush makes one publish and queues the processor channel on `pending` exactly when the bus refused it |
| Ingester.IngesterNode.CacheAndCheck | src/ingester.py:189-194 | `LAST` sets `received_last` and the message is appended to the cache; the hour's received set grows by the scanned slots; the result is the scan's exception when it raises and otherwise whether the hour is complete |
| Ingester.IngesterNode.OnData | src/ingester.py:188-203 | the outcome and the whole new state for every case (`DataStep`): a bad index of the hour crashes with ValueError and leaves the effects unchanged; an incomplete hour waits, with nothing published, until a `LAST` has been seen, and then requests one missing slot, or publishes nothing when none is missing; a complete hour is flushed as `FlushHour` states; `pending` changes only on a flush, the store is written only by a flush and the bus only by a request or a flush's notification; the back-off never fires; no received set shrinks |
| Ingester.IngesterNode.Step | src/ingester.py:181-212 | one event of the subscription loop: other message types and non-data channels are ignored and change no field, a lost connection resets the locals and changes nothing else, a name with too few parts raises IndexError and changes nothing, and a data message has exactly the effect `DataStep` gives for its hour and index |
| Ingester.IngesterNode.Run | src/ingester.py:170-212 | over any sequence of events, an hour that was complete stays complete |
| Processor.Pad2TwoDigits | src/processor.py:22-23 | every hour of the day renders as two digits in the window bounds |
| Processor.WindowsTile | src/processor.py:22-23 | an hour's window ends where the next begins; hour 23 ends at `T24:00:00Z` |
| Processor.PaddedHourTimestamp | src/processor.py:28-29 | the hour becomes a string exactly below 10, and the analytics timestamp of a non-negative hour is the start of its window |
| Processor.StateAverageQueries | src/processor.py:72-80 | one averages query per metric |
| Processor.AverageQueryShape | src/processor.py:74-78 | the averages query selects the metric's mean and filters the single instant `start_time` |
| Processor.StateAverageQueriesShape | src/processor.py:60-80 | query i averages metric i at `start_time`, and `end_time` plays no part |
| Processor.ExtremeQueryShape | src/processor.py:142-153 | an extremes query selects the metric's min or max over the window, restricted to the state |
| Processor.ZipExtremeQueriesShape | src/processor.py:135-154 | the min and max lists are as long as the metrics, and the i-th of each names metric i, the window and the state |
| Processor.GroupAveragesShape | src/processor.py:100-110 | one record per returned point, with exactly the `state` and `avg_<metric>` keys, the state taken from a group's tags |
| Processor.GroupAveragesMembers | src/processor.py:100-110 | the records of one metric are exactly one per returned point, carrying the `state` tag of that point's group and the point's `avg_<metric>` value |
| Processor.AveragesAllOrNothing | src/processor.py:95-114 | the averages fail exactly when one of the zipped queries raises, and then the result is empty |
| Processor.AveragesConcatenate | src/processor.py:95-110 | the records are grouped metric by metric in the order of the metrics: collecting over two runs gives the first run's records followed by the second's, and nothing if either raises |
| Processor.AverageRecordsShape | src/processor.py:95-114 | every averages record has exactly the `state` key and the `avg_` key of one of the metrics |
| Processor.ExtremeReadsFirstPoint | src/processor.py:178-180 | only the first point of a group counts |
| Processor.GroupExtremesShape | src/processor.py:176-182 | at most one entry per group, holding the zip code and a value that is not `None` |
| Processor.GroupExtremesMembers | src/processor.py:176-182 | the entries of one metric are exactly, for each group whose first point has a value that is not `None`, the group's zip code with that value |
| Processor.ExtremePhaseShape | src/processor.py:174-182 | every entry of a loop carries the zip code and one non-`None` value under the loop's alias of some metric |
| Processor.ExtremePhaseStops | src/processor.py:172-197 | a query that raises ends the loop, and exactly what the earlier queries gathered is kept |
| Processor.MinBeforeMax | src/processor.py:171-197 | all min entries come before all max entries, and a failed min loop leaves out every max entry |
| Processor.WithState | src/processor.py:129-130 | one record per extreme, in order: each is its extreme with `state` set to the state and every other key kept with its value |
| Processor.WithStateMembers | src/processor.py:129-130 | the tagged records are exactly the extremes with `state` set |
| Processor.StateExtremesMembers | src/processor.py:126-132 | a state's records are exactly the entries of `calculate_extremes` for its queries, each with `state` set |
| Processor.ZipExtremesCarryState | src/processor.py:126-132 | every extreme carries the state it was queried for |
| Processor.ZipExtremesMembers | src/processor.py:126-132 | the records are exactly those of the listed states, nothing dropped and nothing added |
| Processor.ZipExtremesConcatenate | src/processor.py:126-132 | the per-state results are concatenated in state order |
| Processor.AnalyticsSplit | src/processor.py:205-217 | `zip_code` and `state` become tags and every other key a field, values unchanged; the only other tag is the hour |
| Processor.AnalyticsPoints | src/processor.py:204-217 | one point per record |
| Processor.WriteIfAnyShape | src/processor.py:31-39 | a write is made exactly for a non-empty list, and each of its points carries the measurement, the hour tag and the hour's timestamp |
| Processor.HourlyWritesShape | src/processor.py:18-39 | at most two writes, none empty, the averages first; every point is tagged with the padded hour and, for a non-negative hour, stamped with the start of the window |
| Processor.RejectedAppend | src/processor.py:219-225 | the refused writes of two runs of attempts concatenate |
| Processor.RejectedAreAttempted | src/processor.py:219-225 | every refused write was attempted; all are refused when the store refuses everything, and none when it accepts everything |
| Processor.ProcessorNode.constructor | src/processor.py:16 | the failure queue starts empty |
| Processor.ProcessorNode.BuildAnalyticsPoints | src/processor.py:203-217 | the loop builds exactly one analytics point per record, in order |
| Processor.ProcessorNode.SendAnalytics | src/processor.py:199-225 | one write of all the points; on failure exactly that list is appended to the queue; on success the queue is unchanged |
| Processor.ProcessorNode.SendIfAny | src/processor.py:31-32 | the analytics are written only for a non-empty list |
| Processor.ProcessorNode.ProcessHourlyData | src/processor.py:18-39 | the averages are written, then the extremes, each only when non-empty; the queue grows by exactly the refused writes, in order; a failed state listing raises after the averages |
| Database.FieldsOverStep | src/database.py:49-63 | one more column extends the fields by that column exactly when it is kept |
| Database.BuildFields | src/database.py:47-63 | the field loop builds exactly the cleaned and coerced fields of the record |
| Database.BuildPoint | src/database.py:44-72 | one record's point has measurement `weather_data`, the record's tags and fields and its `time`; a record without `time` raises KeyError |
| Database.InsertBatch | src/database.py:36-72 | one point per record, in input order; KeyError exactly when some record has no `time` |
| Database.TagsSelect | src/database.py:46 | the tags are exactly those of `zip_code`, `state` and `name` present in the record, with values unchanged |
| Database.TagsAreNotFieldColumns | src/database.py:24-34 | no column is both a tag and a field |
| Database.FieldsWhitelisted | src/database.py:49-51 | field keys are field columns the record has; other keys and tag columns are ignored |
| Database.FieldCleaning | src/database.py:51-63 | `None` and `''` are dropped; `wind_dir` and non-string values are kept unchanged; other strings become their `float()` value or are dropped when it raises |
| Database.FailedCoercionDropsOnlyThatField | src/database.py:61-63 | a failed coercion drops only its own field |
| Database.WindDirStaysText | src/database.py:58-60 | `wind_dir` stays a string |
| Protocol.PublishedBatchSlot | src/streamer.py:51-55 | batch i of a published hour fills slot 87 on the ingester's side when it is the final batch, and slot i otherwise |
| Protocol.HourSlots | src/streamer.py:47-55 | an hour of k > 0 batches fills exactly the ingester slots 0..k-2 and 87, without raising |
| Protocol.PublishedHourComplete | src/ingester.py:132-136 | such an hour is complete exactly when k >= 88; otherwise slot k-1 is one `request_batches` can report missing |
| Protocol.ReplayFillsSlot | src/streamer.py:88-111 | a request for slot i parses on the streamer's side and is answered; the answer fills slot i on the ingester's side, and past the end of the hour it is an empty batch that still fills its slot |
| Protocol.Replays | src/streamer.py:106-111 | one republished message per request, in order |
| Protocol.ReplaysFill | src/streamer.py:106-111 | the replies raise nothing on the ingester's side and fill every requested slot |
| Protocol.ReplaysComplete | src/ingester.py:109-136 | once `LAST` is in, replaying every slot that can be reported missing completes the hour, whatever else is cached and in whatever order the replies arrive |

## Left out

- The HTTP API (`src/flask_test.py`) is request/response plumbing over store queries and is not part of this model.
- `reset_database` and its call at import time only drop and create a database, which is store I/O.
- Bus I/O is not modelled as a service. Subscriptions and `listen()` become a sequence of `Event`s, and each publish outcome comes from an oracle.
- Reconnect loops, logging, `sleep` durations and back-off timing are left out. The bus-connection handler of each outer loop is modelled only as the reset of that loop's locals.
- Threads and the keep-alive main loops are left out, so each node runs its steps sequentially. Concurrent access to the ingester's shared cache is therefore not modelled.
- Store client calls (`write_points`, `query`, `SHOW TAG VALUES`) are foreign. Their answers are parameters, and writes are recorded as effects with oracle outcomes.
- JSON and pandas are foreign libraries. Payloads are opaque, either a decoded list of records or undecodable. The `hour` column is precomputed in each row, and the dataset is a parameter of the streamer.
- Python's `float()` is the parameter `parseFloat`, whose results are `real`. So the `nan` and `inf` values that `insert_batch` would keep as fields cannot be represented.
- `int()` is modelled as an optional sign followed by ASCII digits. Its whitespace and underscore forms, and its non-ASCII decimal digits, are left out.
- The write and publish oracles cover only the outcomes the code handles: success, a connection error, and, for the ingester's writes, a client error. Any other exception from the store or the bus client (a server error, a read timeout) would end the thread; the model does not represent it.
- `get_all_states` is left out; its answer is a parameter of `ProcessHourlyData`.
- The processor's subscription loop `handle_incoming_messages` is left out. Its body, `int(message['data'])` then `process_hourly_data`, is a call of `ProcessHourlyData` with that hour.
- The ingester's `influx_online` flag is left out. Nothing reads it: it is set to `True` after every write.
- Ingester.IngesterNode.RequestBatches: Python's set iteration order is left open, so the contract states that some missing slot is requested, not which one.
- Ingester.IngesterNode.RecordCachedSlots: the loop builds the hour's received set in a local copy and stores it when the loop ends or raises, rather than updating the map element in place. The resulting map is the same.
- Ingester.IngesterNode.Run: it states only that complete hours stay complete and that the node's invariant holds, not the full sequence of effects. The effects of each event are stated by `Step`.
