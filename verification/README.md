# LiveKit source connector: a verified model of the synchronisation engine

This project models the five streams of the LiveKit source connector (`rooms`, `events`,
`participants`, `quality_metrics` and `usage`), the stream base class they share, and the
connector's configuration handling, in Dafny.

A stream's `read()` writes connector protocol lines (RECORD, STATE, LOG) to standard output,
walks the LiveKit HTTP endpoints, and keeps a watermark. The watermark is the latest epoch
millisecond timestamp it has seen, and it becomes the stream's new state.

Each stream is a class whose `Read` method writes to the `output` field of its `BaseStream`,
loop by loop as the source does. Each such method is proved to write exactly the lines of a
pure function of its inputs (`RoomsRun`, `EventsRun`, `ParticipantsRun`, `MetricsRun`,
`UsageRun`). The lemmas then state what a run promises:

- **the protocol contract of every `read()`:** at most one STATE line, written after the
  traversal and only on success, carrying the final watermark exactly when it is positive. A
  failure ends with the ERROR line and re-throws.
- **the records emitted:** which ones, in which order, and how each is normalised. Each
  stream's records equal a reference selection of the items it fetched: the kept events, every
  room and participant, the metrics responses received, and the kept usage days.
- **the final watermark:** the maximum of the prior watermark and the relevant timestamps.
- **the cursor rule:** events and usage days at or below a positive watermark are skipped.
- **failure containment:** a failed metrics request is only a warning; any other failed request
  ends the run.

HTTP endpoints are functions from a request to a response or an error (`Api.Api`). The host
services are parameters (`Api.Env`):
- the clock;
- date parsing and formatting;
- `String(n)`;
- SHA-256;
- `new URL`.

The paging loop of `rooms`, `events` and a room's participants is modelled once (`Paging`). It
works against a server that eventually returns a page that is not full (see "Left out").

Two behaviours of the code are modelled as written:
- `participants` and `quality_metrics` fetch the room list with a single request, `limit: 100`
  and no offset (src/streams/participants.js:50-58, src/streams/quality_metrics.js:77-90). Only
  the rooms of that one answer are visited.
- A run writes its STATE line whenever the final watermark is above 0, even when the watermark
  did not move during the run (src/streams/rooms.js:107-113, and likewise in every stream).

## Model

| member | source | states |
|---|---|---|
| Base.SupportedSyncModes | src/streams/base.js:50-52 | both full refresh and incremental sync are offered |
| Base.SourceDefinedCursor | src/streams/base.js:58-60 | the cursor is defined by the source |
| Base.DefaultCursorField | src/streams/base.js:66-68 | the default cursor is the `timestamp` field |
| Base.DefaultPrimaryKey | src/streams/base.js:74-76 | the default primary key is `id` |
| Base.StartDateResumes | src/streams/rooms.js:41-45 | a run asks for data from the day of a non-zero prior watermark, and from the configured `start_date` otherwise |
| Base.BaseStream.constructor | src/streams/base.js:16-22 | a missing prior state becomes the empty state; the stream name is the class name without "Stream", lower-cased |
| Base.BaseStream.Read | src/streams/base.js:123-125 | a stream without its own `read()` fails with "read() is not implemented" |
| Base.BaseStream.EmitRecord | src/streams/base.js:131-140 | exactly one RECORD line is appended, carrying the stream's name and the record unchanged |
| Base.BaseStream.EmitState | src/streams/base.js:146-155 | exactly one STATE line is appended, nesting the state under the stream's name |
| Base.BaseStream.EmitLog | src/streams/base.js:162-170 | exactly one LOG line is appended, with its level and message |
| Base.BaseStream.Conclude | src/streams/rooms.js:107-113 | the success tail: a STATE line only when the watermark is positive, then the completion line; the returned state is the new one, or the input state |
| Messages.Advance | src/streams/rooms.js:91-93 | the watermark never decreases, is at least a valid timestamp, and is either unchanged or that timestamp; NaN never advances it |
| Messages.AdvanceAllIsMax | src/streams/events.js:126-129 | after a sequence of advances, the watermark is the maximum of the start and all valid timestamps |
| Messages.CloseWellFormed | src/streams/rooms.js:106-118 | ending a traversal that wrote no STATE line gives a run that keeps the protocol contract, with the traversal's records and watermark |
| Paging.PaginateTurn | src/streams/rooms.js:61-104 | one turn of the paging loop: a failed fetch ends the walk with that error; a fetched page is the next page, and the loop continues exactly when the page is full |
| Paging.PaginateAnswers | src/streams/rooms.js:65-69 | every page of a walk is the server's answer at that page's offset; a failed walk carries the server's error |
| Paging.PaginateStops | src/streams/rooms.js:71-103 | every page but the last is full, and a walk that did not fail ends with a page that is not full |
| Paging.PaginateAccounting | src/streams/rooms.js:58-100 | each request is at the start offset plus the number of items on all earlier pages, including a failed last request |
| Paging.PaginateOffsets | src/streams/rooms.js:99-103 | the k-th request is at offset k × 100 |
| Paging.ScanAppend | src/streams/rooms.js:77-97 | scanning two stretches of items is scanning the first, then the second from the watermark it left |
| Paging.ScanNeverDecreases | src/streams/rooms.js:91-93 | within one traversal the watermark never decreases |
| Paging.PagedIsScan | src/streams/rooms.js:61-104 | page boundaries do not change the records or the watermark: a paged walk emits the records of one scan over all its items |
| Paging.PagedRunWellFormed | src/streams/rooms.js:33-118 | a run made of log lines, a paged traversal and an ending keeps the protocol contract |
| Rooms.RoomRecordOf | src/streams/rooms.js:79-88 | the room record copies the room's id, name, counts, duration and flags; its timestamp is the parsed creation time; a truthy metadata is copied, and a falsy one becomes `{}` |
| Rooms.RoomsStream.constructor | src/streams/rooms.js:8-12 | the stream is named `rooms` and starts with no output |
| Rooms.RoomsStream.SourceDefinedPrimaryKey | src/streams/rooms.js:18-20 | the primary key is (`room_id`, `timestamp`) |
| Rooms.RoomsStream.DefaultCursorField | src/streams/rooms.js:26-28 | the cursor is `timestamp` |
| Rooms.RoomsStream.EmitRooms | src/streams/rooms.js:77-97 | the room loop writes the lines of the room scan and returns its watermark |
| Rooms.RoomsStream.FetchPage | src/streams/rooms.js:62-100 | one turn: the page log line, the request at the offset, and the page's records when it succeeds |
| Rooms.RoomsStream.ReadPages | src/streams/rooms.js:57-104 | the paging loop writes the lines of the paged walk and returns its watermark, or the error that ended it |
| Rooms.RoomsStream.Read | src/streams/rooms.js:33-119 | `read()` writes exactly the lines of `RoomsRun` and returns its result |
| Rooms.RoomScan | src/streams/rooms.js:77-97 | every room yields exactly one record, in order, and the watermark becomes the latest creation time |
| Rooms.RoomsRunWellFormed | src/streams/rooms.js:106-118 | a rooms run keeps the protocol contract |
| Rooms.RoomsRunRecords | src/streams/rooms.js:57-104 | every room on every fetched page is emitted once, in order, with no cursor filtering; the final watermark is the latest creation time among them and the prior watermark |
| Events.MapSeverity | src/streams/events.js:35-49 | the severity, both directions of each case: warning for warning/warn, error for error, critical for alert/critical/emergency, info for everything else, matched on the lower-cased level |
| Events.MapSeverityIgnoresCase | src/streams/events.js:48 | the severity of a level does not depend on the case of its letters |
| Events.MapSeverityAsWritten | src/streams/events.js:36-48 | the table lookup as written also finds inherited object members, exactly for `constructor` and `__proto__` |
| Events.ConstructorLevelEscapesTable | src/streams/events.js:48 | the level "constructor" yields an inherited member, not a severity |
| Events.EventRecordOf | src/streams/events.js:111-124 | the event record: parsed timestamp, original event time, id and type, mapped severity of the level or `info`; each optional field is copied when truthy and otherwise takes its default: room id, participant id, IP address and region null, message `''`, metadata `{}`, source `livekit` |
| Events.EventsStream.constructor | src/streams/events.js:8-12 | the stream is named `events` and starts with no output |
| Events.EventsStream.SourceDefinedPrimaryKey | src/streams/events.js:18-20 | the primary key is `event_id` |
| Events.EventsStream.DefaultCursorField | src/streams/events.js:26-28 | the cursor is `timestamp` |
| Events.EventsStream.EmitEvents | src/streams/events.js:100-133 | the event loop writes the lines of the event scan and returns its watermark |
| Events.EventsStream.FetchPage | src/streams/events.js:86-136 | one turn: the request at the offset, then the page log line and records when the page is not empty |
| Events.EventsStream.ReadPages | src/streams/events.js:80-140 | the paging loop writes the lines of the paged walk and returns its watermark, or the error that ended it |
| Events.EventsStream.Read | src/streams/events.js:54-155 | `read()` writes exactly the lines of `EventsRun` and returns its result |
| Events.OrderedSnoc | src/streams/events.js:105-129 | emitting an event that the cursor rule lets through keeps the emitted events in order |
| Events.EventScanWatermark | src/streams/events.js:126-129 | the event loop's watermark is the latest timestamp among the prior watermark and all events seen, skipped or not |
| Events.EventScanOrdered | src/streams/events.js:105-108 | nothing emitted is at or below a positive prior watermark, and each emitted event with a positive timestamp is followed only by strictly later ones |
| Events.EventStepKeeps | src/streams/events.js:101-129 | one turn of the event loop emits nothing exactly when the cursor rule skips the event; otherwise it emits that event's record and advances the watermark by its timestamp |
| Events.EventScanRecords | src/streams/events.js:100-133 | the event loop emits exactly the records of the kept events, in order: those not at or below a positive maximum of the prior watermark and all earlier timestamps |
| Events.EventsRunWellFormed | src/streams/events.js:142-154 | an events run keeps the protocol contract |
| Events.EventsRunRecords | src/streams/events.js:80-140 | over a whole run: the records are exactly those of the kept events among all fetched, in order; the watermark is the latest event timestamp or the prior one; nothing at or below a positive prior watermark is emitted, and events with a positive timestamp are emitted in strictly increasing time, so none of those twice |
| Participants.Duration | src/streams/participants.js:95-100 | the duration is present exactly when both times are set and parse, and then it is the whole seconds between them, rounded down |
| Participants.LifecycleOf | src/streams/participants.js:103-106 | both directions of each case: joined without `left_at`; left with `left_at` and no error; disconnected with both |
| Participants.ParticipantRecordOf | src/streams/participants.js:109-125 | the participant record: ids, identity, join time and its parsed timestamp, duration, state, publisher and subscriber flags; each optional field is copied when truthy and otherwise takes its default: name the identity, `left_at` null, metadata `{}`, user agent, IP address and region `''` |
| Participants.ParticipantsStream.constructor | src/streams/participants.js:8-12 | the stream is named `participants` and starts with no output |
| Participants.ParticipantsStream.SourceDefinedPrimaryKey | src/streams/participants.js:18-20 | the primary key is (`participant_id`, `room_id`, `timestamp`) |
| Participants.ParticipantsStream.DefaultCursorField | src/streams/participants.js:26-28 | the cursor is `timestamp` |
| Participants.ParticipantsStream.EmitParticipants | src/streams/participants.js:93-134 | the participant loop writes the lines of the participant scan and returns its watermark |
| Participants.ParticipantsStream.FetchPage | src/streams/participants.js:79-137 | one turn of a room's paging loop |
| Participants.ParticipantsStream.ReadPages | src/streams/participants.js:74-141 | a room's paging loop writes the lines of its paged walk, or stops at its error |
| Participants.ParticipantsStream.VisitRoom | src/streams/participants.js:64-141 | one room: its log line, then its paged participants |
| Participants.ParticipantsStream.VisitRooms | src/streams/participants.js:64-142 | the room loop writes the lines of the traversal; the first failure ends it |
| Participants.ParticipantsStream.Read | src/streams/participants.js:33-157 | `read()` writes exactly the lines of `ParticipantsRun` and returns its result |
| Participants.TraverseStops | src/streams/participants.js:64-142 | rooms after a failed one are not visited |
| Participants.ParticipantScan | src/streams/participants.js:93-134 | one record per participant, in order, each with its room's id; the watermark becomes the latest join time |
| Participants.RoomVisitFacts | src/streams/participants.js:64-141 | a room's visit writes no STATE line, fails exactly when its paging failed, and emits its fetched participants |
| Participants.TraverseFails | src/streams/participants.js:64-142 | the room walk fails exactly when some room's participants could not be fetched |
| Participants.TraverseRecords | src/streams/participants.js:64-142 | the room walk emits every fetched participant in room order, then page order, each under its own room; the watermark is the latest join time |
| Participants.ListedRun | src/streams/participants.js:58-156 | once the room list is in, the run keeps the protocol contract, and its records and watermark are those of the walk |
| Participants.ParticipantsRunRecords | src/streams/participants.js:33-157 | a participants run keeps the protocol contract, fails exactly when the room list or a room's participants could not be fetched, and emits every fetched participant |
| QualityMetrics.MetricId | src/streams/quality_metrics.js:39-43 | the metric id is 32 hexadecimal characters, the prefix of the SHA-256 of `room:participant:timestamp:track` |
| QualityMetrics.MetricKeyInjective | src/streams/quality_metrics.js:39-43 | for colon-free room and participant ids, distinct (room, participant, timestamp, track) give distinct hash inputs |
| QualityMetrics.MapConnectionQuality | src/streams/quality_metrics.js:50-55 | both directions of each case: unknown when absent, excellent at 80 or more, good from 50 below 80, poor below 50 |
| QualityMetrics.TrackRecord | src/streams/quality_metrics.js:113-188 | a track's record: ids, timestamp and ISO collection time, metric id; audio level only for audio; frame rate and resolution only for video and screen share; mapped quality |
| QualityMetrics.TrackRecordDefaults | src/streams/quality_metrics.js:113-181 | each metric the response reports is copied and each it leaves out reads 0: latency, packet loss, jitter, bitrate, audio level, frame rate, and width and height, also 0 when the resolution is absent |
| QualityMetrics.QualityMetricsStream.constructor | src/streams/quality_metrics.js:9-13 | the stream is named `quality_metrics` and starts with no output |
| QualityMetrics.QualityMetricsStream.SourceDefinedPrimaryKey | src/streams/quality_metrics.js:19-21 | the primary key is `metric_id` |
| QualityMetrics.QualityMetricsStream.DefaultCursorField | src/streams/quality_metrics.js:27-29 | the cursor is `timestamp` |
| QualityMetrics.QualityMetricsStream.PollParticipant | src/streams/quality_metrics.js:104-194 | one participant: writes the lines of `Poll`, reading the clock once on success |
| QualityMetrics.QualityMetricsStream.EmitTrack | src/streams/quality_metrics.js:114-188 | a track kind's record is written exactly when the metrics report that kind |
| QualityMetrics.QualityMetricsStream.PollParticipants | src/streams/quality_metrics.js:100-195 | the participant loop writes the lines of `PollAll` |
| QualityMetrics.QualityMetricsStream.ProcessRoom | src/streams/quality_metrics.js:92-195 | one room: its log line, its participant list, and each participant's metrics; a failed participant list ends the run |
| QualityMetrics.QualityMetricsStream.VisitRooms | src/streams/quality_metrics.js:92-196 | the room loop writes the lines of the traversal; the first failed participant list ends it |
| QualityMetrics.QualityMetricsStream.Read | src/streams/quality_metrics.js:60-211 | `read()` writes exactly the lines of `MetricsRun` and returns its result |
| QualityMetrics.TraverseStops | src/streams/quality_metrics.js:92-196 | rooms after a failed one are not visited |
| QualityMetrics.TrackLinesFacts | src/streams/quality_metrics.js:113-188 | one record per reported track kind, in the order audio, video, screen share, all with one timestamp; only audio is a watermark candidate |
| QualityMetrics.PollFacts | src/streams/quality_metrics.js:104-194 | a failed metrics request writes one WARN line and nothing else; otherwise one clock reading stamps all of that participant's records |
| QualityMetrics.PollAllFacts | src/streams/quality_metrics.js:100-195 | the participant loop writes no STATE line, and its watermark is the latest emitted audio timestamp |
| QualityMetrics.VisitRoomFacts | src/streams/quality_metrics.js:93-195 | a room's visit fails exactly when its participant list could not be fetched |
| QualityMetrics.TraverseFacts | src/streams/quality_metrics.js:92-196 | the walk fails exactly when some room's participant list failed, never because of a metrics request |
| QualityMetrics.KindLinesRecords | src/streams/quality_metrics.js:113-188 | the RECORD lines of a response carry one record per reported track kind, in the order the kinds are looked at |
| QualityMetrics.CollectedAppend | src/streams/quality_metrics.js:92-196 | the records of two runs of responses are those of the first, then those of the second with the clock moved on by the first's count |
| QualityMetrics.PollRecords | src/streams/quality_metrics.js:104-194 | one participant emits the records of its metrics response, if it got one, and reads the clock once for it |
| QualityMetrics.PollAllClock | src/streams/quality_metrics.js:100-195 | the participant loop reads the clock once per metrics response received |
| QualityMetrics.PollAllRecords | src/streams/quality_metrics.js:100-195 | the participant loop emits exactly the records of the responses received, the k-th stamped with the k-th clock reading; a failed request costs only its own records |
| QualityMetrics.VisitRoomRecords | src/streams/quality_metrics.js:93-195 | a room emits its participants' response records when its list was fetched, and none otherwise |
| QualityMetrics.TraverseClock | src/streams/quality_metrics.js:92-196 | the walk over rooms reads the clock once per metrics response received |
| QualityMetrics.TraverseRecords | src/streams/quality_metrics.js:92-196 | the walk emits exactly the records of every metrics response received, room by room up to the first failed participant list, the k-th stamped with the k-th clock reading |
| QualityMetrics.MetricsRunRecords | src/streams/quality_metrics.js:60-211 | a run emits no record when the room list fails, and otherwise exactly the records of the metrics responses the walk received |
| QualityMetrics.MetricsRunFacts | src/streams/quality_metrics.js:60-211 | a quality metrics run keeps the protocol contract, fails exactly on a structural failure, and ends at the latest audio timestamp; video and screen share do not move the watermark |
| Usage.UnitOf | src/streams/usage.js:89-94 | both directions: minutes exactly for participant and recording minutes, gigabytes exactly for egress and ingress bandwidth |
| Usage.UsageId | src/streams/usage.js:38-42 | the usage id is 32 hexadecimal characters, the prefix of the SHA-256 of `date:resource:region` |
| Usage.UsageKeyInjective | src/streams/usage.js:38-42 | for colon-free dates, distinct (date, resource, region) give distinct hash inputs |
| Usage.UsageStream.constructor | src/streams/usage.js:9-13 | the stream is named `usage` and starts with no output |
| Usage.UsageStream.SourceDefinedPrimaryKey | src/streams/usage.js:19-21 | the primary key is `usage_id` |
| Usage.UsageStream.DefaultCursorField | src/streams/usage.js:27-29 | the cursor is `timestamp` |
| Usage.UsageStream.EmitRegion | src/streams/usage.js:101-123 | a region's resource loop writes that region's records |
| Usage.UsageStream.EmitRegions | src/streams/usage.js:97-124 | the region loop writes every region's records, region by region |
| Usage.UsageStream.EmitGlobals | src/streams/usage.js:127-146 | the four global records are written in resource order |
| Usage.UsageStream.EmitDay | src/streams/usage.js:95-146 | a kept day writes its regional records, then its four global records |
| Usage.UsageStream.EmitDays | src/streams/usage.js:78-152 | the day loop writes the lines of the day scan and returns its watermark |
| Usage.UsageStream.Read | src/streams/usage.js:47-167 | `read()` writes exactly the lines of `UsageRun` and returns its result |
| Usage.RegionalRecordFields | src/streams/usage.js:103-118 | a regional record carries the usage id of the day, resource and region, the region's name, date, timestamp, resource and unit; its quantity is the region's positive amount; each counter is the region's, or 0 when absent |
| Usage.GlobalRecordFields | src/streams/usage.js:128-142 | a global record carries the usage id of the day and resource with region `global`, the date, timestamp, resource and unit; its quantity is the day's total or 0; each counter is the day's, or 0 when absent |
| Usage.RegionRecordsCount | src/streams/usage.js:101-123 | a region yields one record per resource it reports a positive amount of, and no resource twice |
| Usage.RegionsRecordsCount | src/streams/usage.js:97-124 | the regional records number the positive (region, resource) pairs; with distinct region names the pairs are distinct |
| Usage.RegionsRecordsOrigin | src/streams/usage.js:97-124 | with distinct region names, each regional record is its region's record for its resource, and that amount is positive |
| Usage.RegionsRecordsCover | src/streams/usage.js:97-124 | every positive (region, resource) pair has a record |
| Usage.DayRecordsFacts | src/streams/usage.js:88-146 | a kept day yields 4 plus the number of positive regional pairs; all carry the day's timestamp, date, unit and id; regional records come first, then the four global ones |
| Usage.GlobalRecordsLast | src/streams/usage.js:126-146 | the last four records of a day are global, in resource order, each with the day's total or 0 |
| Usage.FullDayCount | src/streams/usage.js:97-146 | a day whose every region reports all four resources yields 4 + 4 × regions records |
| Usage.DayKeysDistinct | src/streams/usage.js:97-146 | with a colon-free date, distinct region names and no region named `global`, a day's records have pairwise distinct id keys |
| Usage.GlobalRegionCollides | src/streams/usage.js:97-146 | a region named `global` with a positive amount gives two records with the same `usage_id` |
| Usage.DayStepFacts | src/streams/usage.js:78-152 | a day emits nothing exactly when the cursor rule drops it; either way the watermark is advanced by the day's timestamp |
| Usage.UsageScanWatermark | src/streams/usage.js:148-151 | the day loop ends at the latest of the prior watermark and every day's timestamp, kept or not |
| Usage.UsageScanRecords | src/streams/usage.js:78-152 | the day loop writes no STATE line and emits exactly the records of the kept days |
| Usage.KeptOrdered | src/streams/usage.js:83-86 | kept records lie after a positive prior watermark and never go back in time |
| Usage.UsageRunFacts | src/streams/usage.js:47-167 | a usage run keeps the protocol contract, fails exactly when the request fails (with no record), and otherwise emits the kept days' records in time order, ending at the latest day timestamp |
| Config.DefaultConfig | src/config.js:59-64 | the defaults are the LiveKit cloud endpoint and the five streams in order |
| Config.MergeOverrides | src/config.js:71-77 | the merge has the union of keys; a key the configuration sets keeps its value, and an omitted key takes the default |
| Config.MergedEndpoint | src/config.js:59-77 | after merging, `endpoint_url` is always present; it is truthy unless the configuration sets it to a falsy value |
| Config.FirstMissing | src/config.js:24-29 | the index found is the first field whose value is falsy, and no index means every field is truthy |
| Config.ValidateAccepts | src/config.js:19-53 | a configuration is accepted exactly when it is truthy, every required field is truthy, the start date parses and the endpoint is a URL |
| Config.ValidateReportsFirstMissing | src/config.js:7-29 | a missing-field error names a field exactly when that field is the first falsy one, in the order api_key, api_secret, endpoint_url, start_date |
| Config.MissingMessageInjective | src/config.js:27 | different required fields give different missing-field messages |
| Config.MissingMessageDistinct | src/config.js:27-47 | a missing-field message never reads like the date or URL message |
| Config.ValidateChecksDateThenUrl | src/config.js:31-48 | with all fields present, a bad start date is reported before the endpoint is checked; a bad endpoint carries the URL parser's message |
| Config.MergedEndpointNeverMissing | src/config.js:71-77 | when a configuration is merged with the defaults first, an omitted endpoint is never reported missing |

## Left out

- Transport and authentication are not modelled: `createClient` (token minting, axios setup) and `testConnection` (base.js:82-117). The endpoints are functions from a request to a response or an error.
- Schemas are not modelled: `getJsonSchema` (base.js:28-44) reads files from disk.
- The `emitted_at` wall-clock field of a RECORD line is not modelled, and neither is the JSON serialisation of the lines.
- The logger and `logger.debug` in `validateConfig` are not modelled; they write nothing to the protocol output.
- The host's date parsing (`new Date`, `moment`), date formatting, `toISOString`, `String(n)`, SHA-256 and `new URL` are parameters of `Api.Env` or of `Config.ValidateConfig`. Nothing is proved about them, so identifier uniqueness is proved only up to the hash.
- `Values.ToLower` lower-cases ASCII letters only, not the full Unicode mapping of `toLowerCase`.
- Paging.Paginate: covers only walks against a server that stops returning full pages from some offset on (`EndsBy`). Against a server that always returns full pages the source loops for ever; that run is not modelled.
- Usage.UsageRun: the regions object is a sequence of (name, counters) pairs in the order `for … in` visits its keys; that order is taken as given.
- Usage.RegionsRecordsOrigin: assumes distinct region names. Object keys are distinct in the source, but the sequence model does not enforce it.
- Usage.UsageRun: a region whose data is `null` (a TypeError in the source) is not modelled; region data is always an object of counters.
- Config.MergeWithDefaults: a string or array configuration, whose spread would add index keys, is treated as contributing nothing.
- The error message of a failed `new URL(...)` comes from the host, so it is a parameter.
- The quality metrics clock is a function of how many readings came before (`Env.now`). Real time is not modelled.
- `src/index.js` (command dispatch, stream selection) is not part of this model.
- Events.EventRecordOf: the severity is that of the corrected `Events.MapSeverity`, so a level that lower-cases to `constructor` or `__proto__` gets `info`. In the source it gets the inherited `Object` function, which `JSON.stringify` drops, or `Object.prototype`, serialised as `{}` (see "Findings").
- API payloads are typed (`Records`, `Api`), so a payload that makes the source throw a TypeError cannot be written down. Two examples: a truthy `event.level` that is not a string (`.toLowerCase()`, src/streams/events.js:48 and 118), and a `null` `response.data` (`response.data.items`, src/streams/rooms.js:69, src/streams/events.js:90, src/streams/participants.js:83).

## Findings

| source | as written | input that shows it | evidently intended | confidence | as-written member | corrected member |
|---|---|---|---|---|---|---|
| src/streams/events.js:48 | `severityMap[level.toLowerCase()] || 'info'` looks the level up on a plain object, so inherited members are found too | an event whose `level` is `"constructor"` (or `"__proto__"`) gets the inherited `Object` function (or prototype) as its severity, not `info` | every level outside the table maps to `info` | not executed | Events.MapSeverityAsWritten, Events.ConstructorLevelEscapesTable | Events.MapSeverity |
