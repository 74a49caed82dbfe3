/** The `quality_metrics` stream: lists the active rooms with a single request, lists each
    room's participants with a single request, and polls each participant's metrics, emitting
    one record per track kind present. A failed metrics request is logged as a warning and the
    walk goes on; any other failed request ends the run. */
module QualityMetrics {
  import opened Values
  import opened Records
  import opened Messages
  import opened Api
  import Base

  const Name: string := "quality_metrics"
  const ErrorPrefix: string := "Error syncing quality metrics: "
  const Completed: string := "Completed sync for quality metrics stream"

  // ---------------------------------------------------------------------------------------------
  // Identifiers and classification

  /** The string `generateMetricId` hashes: room, participant, timestamp and track kind joined
      by colons. */
  function MetricKey(roomId: string, participantId: string, timestamp: int, t: TrackType): string {
    Colon(roomId, Colon(participantId, Colon(IntToString(timestamp), TrackTypeName(t))))
  }

  /** `generateMetricId`: the first 32 hexadecimal characters of the SHA-256 of the key. */
  function MetricId(roomId: string, participantId: string, timestamp: int, t: TrackType, env: Env): (id: string)
    ensures |id| == 32
    ensures forall i | 0 <= i < |id| :: IsHexDigit(id[i])
    ensures id == env.sha256(MetricKey(roomId, participantId, timestamp, t))[..32]
  {
    var digest := env.sha256(MetricKey(roomId, participantId, timestamp, t));
    digest[..32]
  }

  lemma TrackTypeNameInjective(s: TrackType, t: TrackType)
    requires TrackTypeName(s) == TrackTypeName(t)
    ensures s == t
  {
  }

  /** Distinct (room, participant, timestamp, track kind) give distinct keys when the room and
      participant ids contain no colon, so two metric ids can only coincide through a SHA-256
      collision or a shared 128-bit prefix. */
  lemma MetricKeyInjective(r1: string, p1: string, ts1: int, t1: TrackType,
                           r2: string, p2: string, ts2: int, t2: TrackType)
    requires ':' !in r1 && ':' !in r2 && ':' !in p1 && ':' !in p2
    requires MetricKey(r1, p1, ts1, t1) == MetricKey(r2, p2, ts2, t2)
    ensures r1 == r2 && p1 == p2 && ts1 == ts2 && t1 == t2
  {
    SplitColon(r1, Colon(p1, Colon(IntToString(ts1), TrackTypeName(t1))),
               r2, Colon(p2, Colon(IntToString(ts2), TrackTypeName(t2))));
    SplitColon(p1, Colon(IntToString(ts1), TrackTypeName(t1)), p2, Colon(IntToString(ts2), TrackTypeName(t2)));
    assert ':' !in IntToString(ts1) && ':' !in IntToString(ts2);
    SplitColon(IntToString(ts1), TrackTypeName(t1), IntToString(ts2), TrackTypeName(t2));
    IntToStringInjective(ts1, ts2);
    TrackTypeNameInjective(t1, t2);
  }

  /** `mapConnectionQuality`: unknown when absent, then thresholds at 80 and 50. */
  function MapConnectionQuality(quality: Option<real>): (c: ConnectionQuality)
    ensures c == Unknown <==> quality.None?
    ensures c == Excellent <==> quality.Some? && quality.value >= 80.0
    ensures c == Good <==> quality.Some? && 50.0 <= quality.value < 80.0
    ensures c == Poor <==> quality.Some? && quality.value < 50.0
  {
    if quality.None? then Unknown
    else if quality.value >= 80.0 then Excellent
    else if quality.value >= 50.0 then Good
    else Poor
  }

  // ---------------------------------------------------------------------------------------------
  // Records

  /** `metrics.video.resolution?.width || 0` and the like. */
  function Dimension(resolution: Option<Resolution>, width: bool): real {
    if resolution.None? then 0.0
    else if width then OrZero(resolution.value.width) else OrZero(resolution.value.height)
  }

  /** The record of one track kind of one participant's metrics, collected at `timestamp`. */
  function TrackRecord(t: TrackType, stats: TrackStats, roomId: string, participantId: string,
                       timestamp: int, env: Env): (r: MetricRecord)
    ensures r.trackType == t && r.roomId == roomId && r.participantId == participantId
    ensures r.timestamp == timestamp && r.collectedAt == env.isoString(timestamp)
    ensures r.metricId == MetricId(roomId, participantId, timestamp, t, env)
    ensures r.audioLevel.Some? <==> t == Audio
    ensures r.videoFrameRate.Some? <==> t != Audio
    ensures r.videoResolutionWidth.Some? <==> t != Audio
    ensures r.videoResolutionHeight.Some? <==> t != Audio
    ensures r.connectionQuality == MapConnectionQuality(stats.quality)
  {
    MetricRecord(
      metricId := MetricId(roomId, participantId, timestamp, t, env),
      roomId := roomId,
      participantId := participantId,
      timestamp := timestamp,
      collectedAt := env.isoString(timestamp),
      latency := OrZero(stats.latency),
      packetLoss := OrZero(stats.packetLoss),
      jitter := OrZero(stats.jitter),
      bitrate := OrZero(stats.bitrate),
      audioLevel := if t == Audio then Some(OrZero(stats.level)) else None,
      videoFrameRate := if t == Audio then None else Some(OrZero(stats.frameRate)),
      videoResolutionWidth := if t == Audio then None else Some(Dimension(stats.resolution, true)),
      videoResolutionHeight := if t == Audio then None else Some(Dimension(stats.resolution, false)),
      trackType := t,
      connectionQuality := MapConnectionQuality(stats.quality))
  }

  /** Every metric the response leaves out reads as 0 (`|| 0`), a present one is copied;
      a video track without a resolution has width and height 0. */
  lemma TrackRecordDefaults(t: TrackType, stats: TrackStats, roomId: string, participantId: string,
                            timestamp: int, env: Env)
    ensures var r := TrackRecord(t, stats, roomId, participantId, timestamp, env);
      && ZeroDefault(stats.latency, r.latency) && ZeroDefault(stats.packetLoss, r.packetLoss)
      && ZeroDefault(stats.jitter, r.jitter) && ZeroDefault(stats.bitrate, r.bitrate)
      && (t == Audio ==> ZeroDefault(stats.level, r.audioLevel.value))
      && (t != Audio ==> ZeroDefault(stats.frameRate, r.videoFrameRate.value))
      && (t != Audio && stats.resolution.Some? ==>
            && ZeroDefault(stats.resolution.value.width, r.videoResolutionWidth.value)
            && ZeroDefault(stats.resolution.value.height, r.videoResolutionHeight.value))
      && (t != Audio && stats.resolution.None? ==>
            r.videoResolutionWidth == Some(0.0) && r.videoResolutionHeight == Some(0.0))
  {
  }

  /** The RECORD line for a track kind, when the metrics report that kind. */
  function TrackLine(t: TrackType, stats: Option<TrackStats>, roomId: string, participantId: string,
                     timestamp: int, env: Env): seq<Message> {
    if stats.Some? then [RecordMessage(Name, MetricRec(TrackRecord(t, stats.value, roomId, participantId, timestamp, env)))]
    else []
  }

  /** What a metrics response reports for one track kind. */
  function StatsOf(m: RawMetrics, t: TrackType): Option<TrackStats> {
    match t
    case Audio => m.audio
    case Video => m.video
    case ScreenShare => m.screenShare
  }

  /** The order in which the stream looks at the track kinds of a response. */
  const TrackOrder: seq<TrackType> := [Audio, Video, ScreenShare]

  /** The RECORD lines for the kinds of `kinds`, in turn, each when the response reports it. */
  function KindLines(m: RawMetrics, kinds: seq<TrackType>, roomId: string, participantId: string,
                     timestamp: int, env: Env): seq<Message>
    decreases |kinds|
  {
    if kinds == [] then []
    else
      var t := kinds[|kinds| - 1];
      KindLines(m, kinds[..|kinds| - 1], roomId, participantId, timestamp, env)
        + TrackLine(t, StatsOf(m, t), roomId, participantId, timestamp, env)
  }

  /** The RECORD lines of one metrics response: audio, video, screen share, each when reported. */
  function TrackLines(m: RawMetrics, roomId: string, participantId: string, timestamp: int, env: Env): seq<Message> {
    KindLines(m, TrackOrder, roomId, participantId, timestamp, env)
  }

  lemma TrackLinesUnrolled(m: RawMetrics, roomId: string, participantId: string, timestamp: int, env: Env)
    ensures TrackLines(m, roomId, participantId, timestamp, env)
      == TrackLine(Audio, m.audio, roomId, participantId, timestamp, env)
         + TrackLine(Video, m.video, roomId, participantId, timestamp, env)
         + TrackLine(ScreenShare, m.screenShare, roomId, participantId, timestamp, env)
  {
    assert TrackOrder[..2] == [Audio, Video] && [Audio, Video][..1] == [Audio] && [Audio][..0] == [];
    var a := TrackLine(Audio, m.audio, roomId, participantId, timestamp, env);
    assert KindLines(m, [Audio], roomId, participantId, timestamp, env) == [] + a;
  }

  /** `metricsResponse.data || {}` */
  const NoMetrics: RawMetrics := RawMetrics(None, None, None)

  function WarnText(participantId: string, roomId: string, e: JsError): string {
    "Error fetching metrics for participant " + participantId + " in room " + roomId + ": " + e.message
  }

  // ---------------------------------------------------------------------------------------------
  // The walk

  /** What a stretch of the walk wrote, the watermark after it, and how many times it read the
      clock. */
  datatype Sample = Sample(out: seq<Message>, wm: int, clock: nat)

  /** One participant: a failed metrics request writes a WARN line and nothing else; otherwise
      the clock is read once and the audio, video and screen-share records follow, in that
      order; only an audio record advances the watermark. */
  function Poll(api: Api, env: Env, roomId: string, participantId: string, wm: int, clock: nat): Sample {
    var answer := api.metrics(roomId, participantId);
    if answer.Failure? then
      Sample([LogMessage("WARN", WarnText(participantId, roomId, answer.error))], wm, clock)
    else
      var metrics := answer.value.GetOr(NoMetrics);
      var timestamp := env.now(clock);
      Sample(TrackLines(metrics, roomId, participantId, timestamp, env),
             if metrics.audio.Some? then Advance(wm, Ms(timestamp)) else wm,
             clock + 1)
  }

  /** The `for (const participant of participants)` loop of one room. */
  function PollAll(api: Api, env: Env, roomId: string, participants: seq<RawParticipant>, wm: int, clock: nat): Sample
    decreases |participants|
  {
    if participants == [] then Sample([], wm, clock)
    else
      var prev := PollAll(api, env, roomId, participants[..|participants| - 1], wm, clock);
      var s := Poll(api, env, roomId, participants[|participants| - 1].sid, prev.wm, prev.clock);
      Sample(prev.out + s.out, s.wm, s.clock)
  }

  /** What the walk over rooms wrote, the watermark and clock after it, and the error that ended it. */
  datatype Visit = Visit(out: seq<Message>, wm: int, clock: nat, failure: Option<JsError>)

  function RoomLog(roomId: string): Message {
    InfoLog("Fetching quality metrics for room " + roomId)
  }

  /** One room: its log line, then the participant list (without parameters), then each
      participant's metrics. A failed participant list ends the walk. */
  function VisitRoom(api: Api, env: Env, roomId: string, wm: int, clock: nat): Visit {
    var answer := api.participants(roomId, NoQuery);
    if answer.Failure? then Visit([RoomLog(roomId)], wm, clock, Some(answer.error))
    else
      var s := PollAll(api, env, roomId, Items(answer.value), wm, clock);
      Visit([RoomLog(roomId)] + s.out, s.wm, s.clock, None)
  }

  /** The `for (const room of rooms)` loop: the rooms in order, the first failure ending it. */
  function Traverse(api: Api, env: Env, rooms: seq<RawRoom>, wm: int, clock: nat): Visit
    decreases |rooms|
  {
    if rooms == [] then Visit([], wm, clock, None)
    else
      var prev := Traverse(api, env, rooms[..|rooms| - 1], wm, clock);
      if prev.failure.Some? then prev
      else
        var v := VisitRoom(api, env, rooms[|rooms| - 1].sid, prev.wm, prev.clock);
        Visit(prev.out + v.out, v.wm, v.clock, v.failure)
  }

  /** The active rooms: `{ from, to: today, limit: 100, active: true }`. */
  function RoomsQuery(from: JsValue, today: string): Query {
    Query(from, Some(today), Some(PageLimit), None, Some(true))
  }

  function Head(from: JsValue, env: Env): seq<Message> {
    [InfoLog("Starting sync for quality metrics stream"),
     InfoLog("Fetching quality metrics since " + Display(from, env.showNumber))]
  }

  function FoundLog(count: nat): Message {
    InfoLog("Found " + NatToString(count) + " active rooms to process for quality metrics")
  }

  /** What a `read()` of the quality metrics stream writes and returns; the clock is read from
      its `clock`-th reading on. */
  function MetricsRun(api: Api, env: Env, config: map<string, JsValue>, state: StreamState, clock: nat): Run {
    var from := Base.StartDate(config, state, env);
    var response := api.rooms(RoomsQuery(from, env.today));
    if response.Failure? then
      Close(Name, ErrorPrefix, Completed, Head(from, env), PriorWatermark(state), Some(response.error), state)
    else
      var rooms := Items(response.value);
      var v := Traverse(api, env, rooms, PriorWatermark(state), clock);
      Close(Name, ErrorPrefix, Completed, Head(from, env) + [FoundLog(|rooms|)] + v.out, v.wm, v.failure, state)
  }

  lemma {:induction false} TraverseStops(api: Api, env: Env, rooms: seq<RawRoom>, wm: int, clock: nat, k: nat, j: nat)
    requires k <= j <= |rooms|
    requires Traverse(api, env, rooms[..k], wm, clock).failure.Some?
    ensures Traverse(api, env, rooms[..j], wm, clock) == Traverse(api, env, rooms[..k], wm, clock)
    decreases j
  {
    if j > k {
      TraverseStops(api, env, rooms, wm, clock, k, j - 1);
      TraverseKeepsFailure(api, env, rooms, wm, clock, j);
    }
  }

  /** A walk that has failed is not extended by a further room. */
  lemma TraverseKeepsFailure(api: Api, env: Env, rooms: seq<RawRoom>, wm: int, clock: nat, j: nat)
    requires 0 < j <= |rooms|
    requires Traverse(api, env, rooms[..j - 1], wm, clock).failure.Some?
    ensures Traverse(api, env, rooms[..j], wm, clock) == Traverse(api, env, rooms[..j - 1], wm, clock)
  {
    assert rooms[..j][..j - 1] == rooms[..j - 1];
  }

  class QualityMetricsStream {
    const base: Base.BaseStream
    const cursorField: string := CursorField

    predicate Valid()
      reads base
    {
      base.streamName == Name
    }

    constructor (config: map<string, JsValue>, streamConfig: JsValue, state: Option<StreamState>)
      ensures Valid() && fresh(base)
      ensures base.config == config && base.streamConfig == streamConfig
      ensures base.state == (if state.Some? then state.value else map[])
      ensures base.output == []
    {
      var b := new Base.BaseStream("QualityMetricsStream", config, streamConfig, state);
      b.streamName := Name;
      base := b;
    }

    function SourceDefinedPrimaryKey(): (key: seq<seq<string>>)
      ensures key == [["metric_id"]]
    {
      [["metric_id"]]
    }

    function DefaultCursorField(): (field: seq<string>)
      ensures field == Base.DefaultCursorField()
    {
      [cursorField]
    }

    /** The body of the participant loop, inside its `try`. */
    method PollParticipant(api: Api, env: Env, roomId: string, participantId: string, wm: int, clock: nat)
      returns (latestTimestamp: int, clockAfter: nat)
      requires Valid()
      modifies base`output
      ensures Valid()
      ensures var s := Poll(api, env, roomId, participantId, wm, clock);
        base.output == old(base.output) + s.out && latestTimestamp == s.wm && clockAfter == s.clock
    {
      latestTimestamp, clockAfter := wm, clock;
      var metricsResponse := api.metrics(roomId, participantId);
      if metricsResponse.Failure? {
        base.EmitLog("WARN", WarnText(participantId, roomId, metricsResponse.error));
        return;
      }
      var metrics := metricsResponse.value.GetOr(NoMetrics);
      var timestamp := env.now(clock);
      clockAfter := clock + 1;
      if metrics.audio.Some? && timestamp > latestTimestamp {
        latestTimestamp := timestamp;
      }
      ghost var audio := TrackLine(Audio, metrics.audio, roomId, participantId, timestamp, env);
      ghost var video := TrackLine(Video, metrics.video, roomId, participantId, timestamp, env);
      ghost var screen := TrackLine(ScreenShare, metrics.screenShare, roomId, participantId, timestamp, env);
      EmitTrack(env, Audio, metrics.audio, roomId, participantId, timestamp);
      EmitTrack(env, Video, metrics.video, roomId, participantId, timestamp);
      EmitTrack(env, ScreenShare, metrics.screenShare, roomId, participantId, timestamp);
      Assoc(old(base.output), audio, video);
      Assoc(old(base.output), audio + video, screen);
      TrackLinesUnrolled(metrics, roomId, participantId, timestamp, env);
    }

    /** `if (metrics.<kind>) { ... this.emitRecord(record); }` */
    method EmitTrack(env: Env, t: TrackType, stats: Option<TrackStats>, roomId: string, participantId: string, timestamp: int)
      requires Valid()
      modifies base`output
      ensures Valid()
      ensures base.output == old(base.output) + TrackLine(t, stats, roomId, participantId, timestamp, env)
    {
      if stats.Some? {
        var metric := TrackRecord(t, stats.value, roomId, participantId, timestamp, env);
        base.EmitRecord(MetricRec(metric));
      }
    }

    /** The participant loop of one room. */
    method PollParticipants(api: Api, env: Env, roomId: string, participants: seq<RawParticipant>, wm: int, clock: nat)
      returns (latestTimestamp: int, clockAfter: nat)
      requires Valid()
      modifies base`output
      ensures Valid()
      ensures var s := PollAll(api, env, roomId, participants, wm, clock);
        base.output == old(base.output) + s.out && latestTimestamp == s.wm && clockAfter == s.clock
    {
      latestTimestamp, clockAfter := wm, clock;
      for i := 0 to |participants|
        invariant var s := PollAll(api, env, roomId, participants[..i], wm, clock);
          base.output == old(base.output) + s.out && latestTimestamp == s.wm && clockAfter == s.clock
      {
        ghost var prev := PollAll(api, env, roomId, participants[..i], wm, clock);
        latestTimestamp, clockAfter := PollParticipant(api, env, roomId, participants[i].sid, latestTimestamp, clockAfter);
        assert participants[..i + 1][..i] == participants[..i];
        Assoc(old(base.output), prev.out, Poll(api, env, roomId, participants[i].sid, prev.wm, prev.clock).out);
      }
      assert participants[..|participants|] == participants;
    }

    /** One turn of the loop over rooms. */
    method ProcessRoom(api: Api, env: Env, roomId: string, wm: int, clock: nat)
      returns (latestTimestamp: int, clockAfter: nat, error: Option<JsError>)
      requires Valid()
      modifies base`output
      ensures Valid()
      ensures var v := VisitRoom(api, env, roomId, wm, clock);
        && base.output == old(base.output) + v.out && latestTimestamp == v.wm
        && clockAfter == v.clock && error == v.failure
    {
      base.EmitLog("INFO", "Fetching quality metrics for room " + roomId);
      var participantsResponse := api.participants(roomId, NoQuery);
      if participantsResponse.Failure? {
        return wm, clock, Some(participantsResponse.error);
      }
      var participants := Items(participantsResponse.value);
      latestTimestamp, clockAfter := PollParticipants(api, env, roomId, participants, wm, clock);
      error := None;
      Assoc(old(base.output), [RoomLog(roomId)], PollAll(api, env, roomId, participants, wm, clock).out);
    }

    /** The `for (const room of rooms)` loop; a failed participant list ends it. */
    method VisitRooms(api: Api, env: Env, rooms: seq<RawRoom>, wm: int, clock: nat)
      returns (latestTimestamp: int, clockAfter: nat, error: Option<JsError>)
      requires Valid()
      modifies base`output
      ensures Valid()
      ensures var v := Traverse(api, env, rooms, wm, clock);
        && base.output == old(base.output) + v.out && latestTimestamp == v.wm
        && clockAfter == v.clock && error == v.failure
    {
      latestTimestamp, clockAfter, error := wm, clock, None;
      ghost var prev := Visit([], wm, clock, None);
      for i := 0 to |rooms|
        invariant prev == Traverse(api, env, rooms[..i], wm, clock)
        invariant prev.failure.None? && error.None?
        invariant base.output == old(base.output) + prev.out
        invariant latestTimestamp == prev.wm && clockAfter == prev.clock
      {
        latestTimestamp, clockAfter, error := ProcessRoom(api, env, rooms[i].sid, latestTimestamp, clockAfter);
        assert rooms[..i + 1][..i] == rooms[..i];
        ghost var v := VisitRoom(api, env, rooms[i].sid, prev.wm, prev.clock);
        Assoc(old(base.output), prev.out, v.out);
        prev := Visit(prev.out + v.out, v.wm, v.clock, v.failure);
        if error.Some? {
          TraverseStops(api, env, rooms, wm, clock, i + 1, |rooms|);
          assert rooms[..|rooms|] == rooms;
          return;
        }
      }
      assert rooms[..|rooms|] == rooms;
    }

    /** `read()`, with the clock read from its `clock`-th reading on. */
    method Read(api: Api, env: Env, clock: nat) returns (result: Result<StreamState, JsError>)
      requires Valid()
      modifies base`output
      ensures Valid()
      ensures var run := MetricsRun(api, env, base.config, base.state, clock);
        base.output == old(base.output) + run.out && result == run.result
    {
      var state := base.state;
      base.EmitLog("INFO", "Starting sync for quality metrics stream");
      var startDate := Base.StartDate(base.config, state, env);
      base.EmitLog("INFO", "Fetching quality metrics since " + Display(startDate, env.showNumber));
      assert base.output == old(base.output) + Head(startDate, env);
      var roomsResponse := api.rooms(RoomsQuery(startDate, env.today));
      if roomsResponse.Failure? {
        base.EmitLog("ERROR", ErrorPrefix + roomsResponse.error.message);
        result := Failure(roomsResponse.error);
      } else {
        var rooms := Items(roomsResponse.value);
        base.EmitLog("INFO", "Found " + NatToString(|rooms|) + " active rooms to process for quality metrics");
        var latestTimestamp, _, error := VisitRooms(api, env, rooms, PriorWatermark(state), clock);
        if error.Some? {
          base.EmitLog("ERROR", ErrorPrefix + error.value.message);
          result := Failure(error.value);
        } else {
          result := base.Conclude(Completed, state, latestTimestamp);
        }
      }
      ReadAssembles(api, env, base.config, state, clock, old(base.output), base.output, result);
    }
  }

  /** The lines `Read` writes, piece by piece, make up the lines of `MetricsRun`. */
  lemma ReadAssembles(api: Api, env: Env, config: map<string, JsValue>, state: StreamState, clock: nat,
                      before: seq<Message>, after: seq<Message>, result: Result<StreamState, JsError>)
    requires var from := Base.StartDate(config, state, env);
      var response := api.rooms(RoomsQuery(from, env.today));
      && (response.Failure? ==>
            && after == before + Head(from, env) + [ErrorLog(ErrorPrefix, response.error)]
            && result == Failure(response.error))
      && (response.Success? ==>
            var rooms := Items(response.value);
            var v := Traverse(api, env, rooms, PriorWatermark(state), clock);
            && (v.failure.Some? ==>
                  && after == before + Head(from, env) + [FoundLog(|rooms|)] + v.out + [ErrorLog(ErrorPrefix, v.failure.value)]
                  && result == Failure(v.failure.value))
            && (v.failure.None? ==>
                  && after == before + Head(from, env) + [FoundLog(|rooms|)] + v.out + Finish(Name, Completed, [], v.wm, state).out
                  && result == Finish(Name, Completed, [], v.wm, state).result))
    ensures var run := MetricsRun(api, env, config, state, clock);
      after == before + run.out && result == run.result
  {
    var from := Base.StartDate(config, state, env);
    var response := api.rooms(RoomsQuery(from, env.today));
    var head := Head(from, env);
    if response.Failure? {
      Assoc(before, head, [ErrorLog(ErrorPrefix, response.error)]);
    } else {
      var rooms := Items(response.value);
      var v := Traverse(api, env, rooms, PriorWatermark(state), clock);
      Assoc(before, head, [FoundLog(|rooms|)]);
      Assoc(before, head + [FoundLog(|rooms|)], v.out);
      var out := head + [FoundLog(|rooms|)] + v.out;
      if v.failure.Some? {
        Assoc(before, out, [ErrorLog(ErrorPrefix, v.failure.value)]);
      } else {
        FinishAppends(Name, Completed, out, v.wm, state);
        Assoc(before, out, Finish(Name, Completed, [], v.wm, state).out);
      }
    }
  }

  // ---------------------------------------------------------------------------------------------
  // Properties of a run

  /** The track kinds a metrics response reports, in the order audio, video, screen share. */
  function Kinds(m: RawMetrics): seq<TrackType> {
    (if m.audio.Some? then [Audio] else []) + (if m.video.Some? then [Video] else [])
      + (if m.screenShare.Some? then [ScreenShare] else [])
  }

  /** The timestamps of the audio metric records among `recs`, in order. */
  function AudioTimes(recs: seq<Rec>): seq<Epoch> {
    if recs == [] then []
    else
      var last := recs[|recs| - 1];
      AudioTimes(recs[..|recs| - 1]) + (if last.MetricRec? && last.metric.trackType == Audio then [Ms(last.metric.timestamp)] else [])
  }

  lemma {:induction false} AudioTimesAppend(a: seq<Rec>, b: seq<Rec>)
    ensures AudioTimes(a + b) == AudioTimes(a) + AudioTimes(b)
    decreases |b|
  {
    if b == [] {
      assert a + b == a;
    } else {
      assert (a + b)[..|a + b| - 1] == a + b[..|b| - 1];
      AudioTimesAppend(a, b[..|b| - 1]);
    }
  }

  function TrackOf(r: Rec): TrackType {
    if r.MetricRec? then r.metric.trackType else Audio
  }

  /** The track kinds of `recs`, in order. */
  function Tracks(recs: seq<Rec>): seq<TrackType> {
    seq(|recs|, i requires 0 <= i < |recs| => TrackOf(recs[i]))
  }

  lemma TracksAppend(a: seq<Rec>, b: seq<Rec>)
    ensures Tracks(a + b) == Tracks(a) + Tracks(b)
  {
    var ab := a + b;
    assert forall i | |a| <= i < |ab| :: ab[i] == b[i - |a|];
  }

  /** All of `recs` are metric records of this room and participant, stamped `timestamp`. */
  ghost predicate StampedBy(recs: seq<Rec>, roomId: string, participantId: string, timestamp: int) {
    forall i | 0 <= i < |recs| ::
      && recs[i].MetricRec? && recs[i].metric.timestamp == timestamp
      && recs[i].metric.roomId == roomId && recs[i].metric.participantId == participantId
  }

  lemma StampedByAppend(a: seq<Rec>, b: seq<Rec>, roomId: string, participantId: string, timestamp: int)
    requires StampedBy(a, roomId, participantId, timestamp) && StampedBy(b, roomId, participantId, timestamp)
    ensures StampedBy(a + b, roomId, participantId, timestamp)
  {
    var ab := a + b;
    assert forall i | |a| <= i < |ab| :: ab[i] == b[i - |a|];
  }

  /** The RECORD line of one track kind, when reported. */
  lemma TrackLineFacts(t: TrackType, stats: Option<TrackStats>, roomId: string, participantId: string, timestamp: int, env: Env)
    ensures var line := TrackLine(t, stats, roomId, participantId, timestamp, env);
      var recs := RecordsOf(line);
      && NoStates(line)
      && Tracks(recs) == (if stats.Some? then [t] else [])
      && AudioTimes(recs) == (if stats.Some? && t == Audio then [Ms(timestamp)] else [])
      && StampedBy(recs, roomId, participantId, timestamp)
  {
    var line := TrackLine(t, stats, roomId, participantId, timestamp, env);
    if stats.Some? {
      var rec := TrackRecord(t, stats.value, roomId, participantId, timestamp, env);
      assert rec.trackType == t && rec.timestamp == timestamp;
      assert rec.roomId == roomId && rec.participantId == participantId;
      RecordsOfSingle(line[0]);
      assert RecordsOf(line) == [MetricRec(rec)];
      assert [MetricRec(rec)][..0] == [];
    }
  }

  /** The records of one metrics response: one per track kind reported, in the order audio,
      video, screen share, all stamped alike; only the audio one carries a watermark candidate. */
  lemma TrackLinesFacts(m: RawMetrics, roomId: string, participantId: string, timestamp: int, env: Env)
    ensures var out := TrackLines(m, roomId, participantId, timestamp, env);
      var recs := RecordsOf(out);
      && NoStates(out)
      && Tracks(recs) == Kinds(m)
      && AudioTimes(recs) == (if m.audio.Some? then [Ms(timestamp)] else [])
      && StampedBy(recs, roomId, participantId, timestamp)
  {
    var a := TrackLine(Audio, m.audio, roomId, participantId, timestamp, env);
    var v := TrackLine(Video, m.video, roomId, participantId, timestamp, env);
    var c := TrackLine(ScreenShare, m.screenShare, roomId, participantId, timestamp, env);
    TrackLinesUnrolled(m, roomId, participantId, timestamp, env);
    TrackLineFacts(Audio, m.audio, roomId, participantId, timestamp, env);
    TrackLineFacts(Video, m.video, roomId, participantId, timestamp, env);
    TrackLineFacts(ScreenShare, m.screenShare, roomId, participantId, timestamp, env);
    NoStatesAppend(a, v);
    NoStatesAppend(a + v, c);
    RecordsOfAppend(a, v);
    RecordsOfAppend(a + v, c);
    TrackRecsFacts(RecordsOf(a), RecordsOf(v), RecordsOf(c), m, roomId, participantId, timestamp);
  }

  lemma TrackRecsFacts(ra: seq<Rec>, rv: seq<Rec>, rc: seq<Rec>, m: RawMetrics, roomId: string, participantId: string, timestamp: int)
    requires Tracks(ra) == (if m.audio.Some? then [Audio] else [])
    requires Tracks(rv) == (if m.video.Some? then [Video] else [])
    requires Tracks(rc) == (if m.screenShare.Some? then [ScreenShare] else [])
    requires AudioTimes(ra) == (if m.audio.Some? then [Ms(timestamp)] else [])
    requires AudioTimes(rv) == [] && AudioTimes(rc) == []
    requires StampedBy(ra, roomId, participantId, timestamp) && StampedBy(rv, roomId, participantId, timestamp)
    requires StampedBy(rc, roomId, participantId, timestamp)
    ensures Tracks(ra + rv + rc) == Kinds(m)
    ensures AudioTimes(ra + rv + rc) == (if m.audio.Some? then [Ms(timestamp)] else [])
    ensures StampedBy(ra + rv + rc, roomId, participantId, timestamp)
  {
    TracksAppend(ra, rv);
    TracksAppend(ra + rv, rc);
    AudioTimesAppend(ra, rv);
    AudioTimesAppend(ra + rv, rc);
    assert AudioTimes(ra) + [] + [] == AudioTimes(ra);
    StampedByAppend(ra, rv, roomId, participantId, timestamp);
    StampedByAppend(ra + rv, rc, roomId, participantId, timestamp);
  }

  /** What polling one participant writes. A failed metrics request gives one WARN line, no
      record, and leaves the watermark and the clock alone. Otherwise the clock is read once and
      there is one record per track kind reported, in the order audio, video, screen share, all
      for this room and participant and all stamped with that one reading; the watermark
      advances by the audio record's timestamp only. */
  lemma PollFacts(api: Api, env: Env, roomId: string, participantId: string, wm: int, clock: nat)
    ensures var s := Poll(api, env, roomId, participantId, wm, clock);
      var answer := api.metrics(roomId, participantId);
      var recs := RecordsOf(s.out);
      && NoStates(s.out)
      && s.wm == AdvanceAll(wm, AudioTimes(recs))
      && (answer.Failure? ==>
            && s.out == [LogMessage("WARN", WarnText(participantId, roomId, answer.error))]
            && recs == [] && s.wm == wm && s.clock == clock)
      && (answer.Success? ==>
            && s.clock == clock + 1
            && Tracks(recs) == Kinds(answer.value.GetOr(NoMetrics))
            && StampedBy(recs, roomId, participantId, env.now(clock)))
  {
    var s := Poll(api, env, roomId, participantId, wm, clock);
    var answer := api.metrics(roomId, participantId);
    if answer.Failure? {
      RecordsOfNone(s.out);
    } else {
      var ts := env.now(clock);
      TrackLinesFacts(answer.value.GetOr(NoMetrics), roomId, participantId, ts, env);
      assert AdvanceAll(wm, [Ms(ts)]) == Advance(wm, Ms(ts)) by {
        assert [Ms(ts)][..0] == [];
      }
    }
  }

  /** The participant loop writes no STATE line, never reads the clock back, and leaves the
      watermark at the latest audio timestamp it emitted (or where it was). */
  lemma {:induction false} PollAllFacts(api: Api, env: Env, roomId: string, participants: seq<RawParticipant>, wm: int, clock: nat)
    ensures var s := PollAll(api, env, roomId, participants, wm, clock);
      && NoStates(s.out) && s.clock >= clock
      && s.wm == AdvanceAll(wm, AudioTimes(RecordsOf(s.out)))
    decreases |participants|
  {
    if participants != [] {
      var init := participants[..|participants| - 1];
      PollAllFacts(api, env, roomId, init, wm, clock);
      var prev := PollAll(api, env, roomId, init, wm, clock);
      var p := Poll(api, env, roomId, participants[|participants| - 1].sid, prev.wm, prev.clock);
      PollFacts(api, env, roomId, participants[|participants| - 1].sid, prev.wm, prev.clock);
      AudioJoin(wm, prev.out, p.out);
    }
  }

  /** Some room's participant list could not be fetched. */
  ghost predicate AnyFails(api: Api, rooms: seq<RawRoom>) {
    exists i | 0 <= i < |rooms| :: api.participants(rooms[i].sid, NoQuery).Failure?
  }

  lemma VisitRoomFacts(api: Api, env: Env, roomId: string, wm: int, clock: nat)
    ensures var v := VisitRoom(api, env, roomId, wm, clock);
      && NoStates(v.out) && v.clock >= clock
      && v.wm == AdvanceAll(wm, AudioTimes(RecordsOf(v.out)))
      && (v.failure.Some? <==> api.participants(roomId, NoQuery).Failure?)
  {
    var answer := api.participants(roomId, NoQuery);
    RecordsOfNone([RoomLog(roomId)]);
    if answer.Success? {
      var s := PollAll(api, env, roomId, Items(answer.value), wm, clock);
      PollAllFacts(api, env, roomId, Items(answer.value), wm, clock);
      NoStatesAppend([RoomLog(roomId)], s.out);
      RecordsOfAppend([RoomLog(roomId)], s.out);
      assert [] + RecordsOf(s.out) == RecordsOf(s.out);
    }
  }

  /** The walk over rooms writes no STATE line; it fails exactly when some room's participant
      list could not be fetched (a failed metrics request never ends it); and its watermark is
      the latest audio timestamp it emitted, or where it was. */
  lemma {:induction false} TraverseFacts(api: Api, env: Env, rooms: seq<RawRoom>, wm: int, clock: nat)
    ensures var v := Traverse(api, env, rooms, wm, clock);
      && NoStates(v.out)
      && v.wm == AdvanceAll(wm, AudioTimes(RecordsOf(v.out)))
      && (v.failure.Some? <==> AnyFails(api, rooms))
    decreases |rooms|
  {
    if rooms != [] {
      var init := rooms[..|rooms| - 1];
      TraverseFacts(api, env, init, wm, clock);
      AnyFailsSnoc(api, rooms);
      var prev := Traverse(api, env, init, wm, clock);
      if prev.failure.None? {
        var v := VisitRoom(api, env, rooms[|rooms| - 1].sid, prev.wm, prev.clock);
        VisitRoomFacts(api, env, rooms[|rooms| - 1].sid, prev.wm, prev.clock);
        AudioJoin(wm, prev.out, v.out);
      }
    }
  }

  lemma AnyFailsSnoc(api: Api, rooms: seq<RawRoom>)
    requires rooms != []
    ensures AnyFails(api, rooms) <==>
      AnyFails(api, rooms[..|rooms| - 1]) || api.participants(rooms[|rooms| - 1].sid, NoQuery).Failure?
  {
    var init := rooms[..|rooms| - 1];
    if AnyFails(api, init) {
      var i :| 0 <= i < |init| && api.participants(init[i].sid, NoQuery).Failure?;
      assert rooms[i] == init[i];
    }
    if AnyFails(api, rooms) && !api.participants(rooms[|rooms| - 1].sid, NoQuery).Failure? {
      var i :| 0 <= i < |rooms| && api.participants(rooms[i].sid, NoQuery).Failure?;
      assert init[i] == rooms[i];
    }
  }

  /** Two stretches of output without STATE lines, each advancing the watermark by its own audio
      records, together advance it by the audio records of both. */
  lemma AudioJoin(wm: int, a: seq<Message>, b: seq<Message>)
    ensures AdvanceAll(wm, AudioTimes(RecordsOf(a + b)))
      == AdvanceAll(AdvanceAll(wm, AudioTimes(RecordsOf(a))), AudioTimes(RecordsOf(b)))
    ensures NoStates(a) && NoStates(b) ==> NoStates(a + b)
  {
    if NoStates(a) && NoStates(b) {
      NoStatesAppend(a, b);
    }
    RecordsOfAppend(a, b);
    AudioTimesAppend(RecordsOf(a), RecordsOf(b));
    AdvanceAllAppend(wm, AudioTimes(RecordsOf(a)), AudioTimes(RecordsOf(b)));
  }

  lemma LeadFacts(from: JsValue, env: Env, count: nat)
    ensures NoStates(Head(from, env) + [FoundLog(count)])
    ensures RecordsOf(Head(from, env) + [FoundLog(count)]) == []
  {
    RecordsOfNone(Head(from, env) + [FoundLog(count)]);
  }

  /** A quality metrics run keeps the contract of every `read()`; it fails exactly when the room
      list or some room's participant list could not be fetched, so a failed metrics request
      never fails it; and its watermark is the latest timestamp of the audio records it emitted,
      or the prior one: video and screen-share records do not move it. */
  lemma MetricsRunFacts(api: Api, env: Env, config: map<string, JsValue>, state: StreamState, clock: nat)
    ensures var response := api.rooms(RoomsQuery(Base.StartDate(config, state, env), env.today));
      var run := MetricsRun(api, env, config, state, clock);
      && WellFormedRun(run, Name, ErrorPrefix, Completed, state)
      && (run.result.Failure? <==> response.Failure? || AnyFails(api, Items(response.value)))
      && run.watermark == AdvanceAll(PriorWatermark(state), AudioTimes(RecordsOf(run.out)))
  {
    var from := Base.StartDate(config, state, env);
    var response := api.rooms(RoomsQuery(from, env.today));
    if response.Failure? {
      CloseWellFormed(Name, ErrorPrefix, Completed, Head(from, env), PriorWatermark(state), Some(response.error), state);
      RecordsOfNone(Head(from, env));
    } else {
      var rooms := Items(response.value);
      var v := Traverse(api, env, rooms, PriorWatermark(state), clock);
      var lead := Head(from, env) + [FoundLog(|rooms|)];
      TraverseFacts(api, env, rooms, PriorWatermark(state), clock);
      AdvanceAllIsMax(PriorWatermark(state), AudioTimes(RecordsOf(v.out)));
      LeadFacts(from, env, |rooms|);
      RecordsOfAppend(lead, v.out);
      NoStatesAppend(lead, v.out);
      assert [] + RecordsOf(v.out) == RecordsOf(v.out);
      CloseWellFormed(Name, ErrorPrefix, Completed, lead + v.out, v.wm, v.failure, state);
    }
  }

  // ---------------------------------------------------------------------------------------------
  // Which records a run emits

  /** A metrics response the walk received: whose it is and what it reported. */
  datatype Reply = Reply(roomId: string, participantId: string, metrics: RawMetrics)

  /** The response one participant's metrics request got, if it succeeded. */
  function Answer(api: Api, roomId: string, participantId: string): seq<Reply> {
    var answer := api.metrics(roomId, participantId);
    if answer.Success? then [Reply(roomId, participantId, answer.value.GetOr(NoMetrics))] else []
  }

  /** The metrics responses a room's participants got, in participant order; a failed request
      gives none and the room goes on with the next participant. */
  function Replies(api: Api, roomId: string, participants: seq<RawParticipant>): seq<Reply>
    decreases |participants|
  {
    if participants == [] then []
    else
      Replies(api, roomId, participants[..|participants| - 1])
        + Answer(api, roomId, participants[|participants| - 1].sid)
  }

  /** The metrics responses of the walk over rooms: each room's, in room order, up to the first
      room whose participant list could not be fetched. */
  ghost function WalkReplies(api: Api, rooms: seq<RawRoom>): seq<Reply>
    decreases |rooms|
  {
    if rooms == [] then []
    else
      var k := |rooms| - 1;
      var list := api.participants(rooms[k].sid, NoQuery);
      WalkReplies(api, rooms[..k])
        + (if !AnyFails(api, rooms[..k]) && list.Success? then Replies(api, rooms[k].sid, Items(list.value)) else [])
  }

  /** The records of one metrics response collected at `timestamp`, as a reference: for each
      kind of `kinds` in turn, one record when the response reports that kind. */
  function KindRecs(m: RawMetrics, kinds: seq<TrackType>, roomId: string, participantId: string,
                    timestamp: int, env: Env): seq<Rec>
    decreases |kinds|
  {
    if kinds == [] then []
    else
      var t := kinds[|kinds| - 1];
      KindRecs(m, kinds[..|kinds| - 1], roomId, participantId, timestamp, env)
        + (if StatsOf(m, t).Some? then [MetricRec(TrackRecord(t, StatsOf(m, t).value, roomId, participantId, timestamp, env))] else [])
  }

  /** The records of `replies`, as a reference: the k-th response is collected at clock reading
      `clock + k` and gives one record per track kind it reports. */
  function Collected(replies: seq<Reply>, env: Env, clock: nat): seq<Rec>
    decreases |replies|
  {
    if replies == [] then []
    else
      var n := |replies| - 1;
      Collected(replies[..n], env, clock)
        + KindRecs(replies[n].metrics, TrackOrder, replies[n].roomId, replies[n].participantId, env.now(clock + n), env)
  }

  lemma {:induction false} CollectedAppend(a: seq<Reply>, b: seq<Reply>, env: Env, clock: nat)
    ensures Collected(a + b, env, clock) == Collected(a, env, clock) + Collected(b, env, clock + |a|)
    decreases |b|
  {
    if b == [] {
      assert a + b == a;
    } else {
      var n := |b| - 1;
      assert (a + b)[..|a + b| - 1] == a + b[..n];
      assert (a + b)[|a + b| - 1] == b[n];
      CollectedAppend(a, b[..n], env, clock);
    }
  }

  /** The RECORD lines for some track kinds carry exactly their reference records. */
  lemma {:induction false} KindLinesRecords(m: RawMetrics, kinds: seq<TrackType>, roomId: string, participantId: string,
                                            timestamp: int, env: Env)
    ensures RecordsOf(KindLines(m, kinds, roomId, participantId, timestamp, env))
      == KindRecs(m, kinds, roomId, participantId, timestamp, env)
    decreases |kinds|
  {
    if kinds != [] {
      var t := kinds[|kinds| - 1];
      var init := kinds[..|kinds| - 1];
      KindLinesRecords(m, init, roomId, participantId, timestamp, env);
      TrackLineRecords(t, StatsOf(m, t), roomId, participantId, timestamp, env);
      RecordsOfAppend(KindLines(m, init, roomId, participantId, timestamp, env),
                      TrackLine(t, StatsOf(m, t), roomId, participantId, timestamp, env));
    }
  }

  /** The records of the line for one track kind: its record when reported, else none. */
  lemma TrackLineRecords(t: TrackType, stats: Option<TrackStats>, roomId: string, participantId: string, timestamp: int, env: Env)
    ensures RecordsOf(TrackLine(t, stats, roomId, participantId, timestamp, env))
      == (if stats.Some? then [MetricRec(TrackRecord(t, stats.value, roomId, participantId, timestamp, env))] else [])
  {
    if stats.Some? {
      RecordsOfSingle(TrackLine(t, stats, roomId, participantId, timestamp, env)[0]);
    } else {
      RecordsOfNone([]);
    }
  }

  /** Polling one participant emits the records of its response, if any, and reads the clock
      once for it. */
  lemma PollRecords(api: Api, env: Env, roomId: string, participantId: string, wm: int, clock: nat)
    ensures var s := Poll(api, env, roomId, participantId, wm, clock);
      && s.clock == clock + |Answer(api, roomId, participantId)|
      && RecordsOf(s.out) == Collected(Answer(api, roomId, participantId), env, clock)
  {
    var answer := api.metrics(roomId, participantId);
    if answer.Success? {
      var reply := Reply(roomId, participantId, answer.value.GetOr(NoMetrics));
      KindLinesRecords(reply.metrics, TrackOrder, roomId, participantId, env.now(clock), env);
      assert [reply][..0] == [];
    } else {
      RecordsOfNone([LogMessage("WARN", WarnText(participantId, roomId, answer.error))]);
    }
  }

  /** The participant loop of a room reads the clock once per response its participants got. */
  lemma {:induction false} PollAllClock(api: Api, env: Env, roomId: string, participants: seq<RawParticipant>, wm: int, clock: nat)
    ensures PollAll(api, env, roomId, participants, wm, clock).clock == clock + |Replies(api, roomId, participants)|
    decreases |participants|
  {
    if participants != [] {
      var init := participants[..|participants| - 1];
      PollAllClock(api, env, roomId, init, wm, clock);
      var prev := PollAll(api, env, roomId, init, wm, clock);
      PollRecords(api, env, roomId, participants[|participants| - 1].sid, prev.wm, prev.clock);
    }
  }

  /** The participant loop of a room emits exactly the records of the responses its
      participants got, the k-th collected at the k-th clock reading from `clock` on. */
  lemma {:induction false} PollAllRecords(api: Api, env: Env, roomId: string, participants: seq<RawParticipant>, wm: int, clock: nat)
    ensures RecordsOf(PollAll(api, env, roomId, participants, wm, clock).out)
      == Collected(Replies(api, roomId, participants), env, clock)
    decreases |participants|
  {
    if participants != [] {
      var init := participants[..|participants| - 1];
      var id := participants[|participants| - 1].sid;
      var prev := PollAll(api, env, roomId, init, wm, clock);
      var p := Poll(api, env, roomId, id, prev.wm, prev.clock);
      var replies := Replies(api, roomId, init);
      calc {
        RecordsOf(PollAll(api, env, roomId, participants, wm, clock).out);
        { PollAllSnoc(api, env, roomId, participants, wm, clock); }
        RecordsOf(prev.out) + RecordsOf(p.out);
        { PollAllRecords(api, env, roomId, init, wm, clock);
          PollRecords(api, env, roomId, id, prev.wm, prev.clock); }
        Collected(replies, env, clock) + Collected(Answer(api, roomId, id), env, prev.clock);
        { PollAllClock(api, env, roomId, init, wm, clock); }
        Collected(replies, env, clock) + Collected(Answer(api, roomId, id), env, clock + |replies|);
        { CollectedAppend(replies, Answer(api, roomId, id), env, clock); }
        Collected(replies + Answer(api, roomId, id), env, clock);
      }
    }
  }

  /** The participant loop over one more participant: its records and clock. */
  lemma PollAllSnoc(api: Api, env: Env, roomId: string, participants: seq<RawParticipant>, wm: int, clock: nat)
    requires participants != []
    ensures var init := participants[..|participants| - 1];
      var prev := PollAll(api, env, roomId, init, wm, clock);
      var p := Poll(api, env, roomId, participants[|participants| - 1].sid, prev.wm, prev.clock);
      var s := PollAll(api, env, roomId, participants, wm, clock);
      && RecordsOf(s.out) == RecordsOf(prev.out) + RecordsOf(p.out)
      && s.clock == p.clock
  {
    var init := participants[..|participants| - 1];
    var prev := PollAll(api, env, roomId, init, wm, clock);
    RecordsOfAppend(prev.out, Poll(api, env, roomId, participants[|participants| - 1].sid, prev.wm, prev.clock).out);
  }

  /** One room emits the records of its participants' responses when its list was fetched,
      and none otherwise. */
  lemma VisitRoomRecords(api: Api, env: Env, roomId: string, wm: int, clock: nat)
    ensures var v := VisitRoom(api, env, roomId, wm, clock);
      var list := api.participants(roomId, NoQuery);
      && (list.Failure? ==> RecordsOf(v.out) == [] && v.clock == clock)
      && (list.Success? ==>
            && RecordsOf(v.out) == Collected(Replies(api, roomId, Items(list.value)), env, clock)
            && v.clock == clock + |Replies(api, roomId, Items(list.value))|)
  {
    var list := api.participants(roomId, NoQuery);
    RecordsOfNone([RoomLog(roomId)]);
    if list.Success? {
      var s := PollAll(api, env, roomId, Items(list.value), wm, clock);
      PollAllRecords(api, env, roomId, Items(list.value), wm, clock);
      PollAllClock(api, env, roomId, Items(list.value), wm, clock);
      RecordsOfAppend([RoomLog(roomId)], s.out);
      assert [] + RecordsOf(s.out) == RecordsOf(s.out);
    }
  }

  /** The walk over rooms reads the clock once per metrics response it received. */
  lemma {:induction false} TraverseClock(api: Api, env: Env, rooms: seq<RawRoom>, wm: int, clock: nat)
    ensures Traverse(api, env, rooms, wm, clock).clock == clock + |WalkReplies(api, rooms)|
    decreases |rooms|
  {
    if rooms != [] {
      var k := |rooms| - 1;
      TraverseClock(api, env, rooms[..k], wm, clock);
      TraverseFacts(api, env, rooms[..k], wm, clock);
      var prev := Traverse(api, env, rooms[..k], wm, clock);
      if prev.failure.None? {
        VisitRoomRecords(api, env, rooms[k].sid, prev.wm, prev.clock);
      }
    }
  }

  /** The walk over rooms emits exactly the records of the metrics responses it received, the
      k-th collected at the k-th clock reading from `clock` on. */
  lemma {:induction false} TraverseRecords(api: Api, env: Env, rooms: seq<RawRoom>, wm: int, clock: nat)
    ensures RecordsOf(Traverse(api, env, rooms, wm, clock).out) == Collected(WalkReplies(api, rooms), env, clock)
    decreases |rooms|
  {
    if rooms != [] {
      var k := |rooms| - 1;
      TraverseRecords(api, env, rooms[..k], wm, clock);
      TraverseClock(api, env, rooms[..k], wm, clock);
      TraverseFacts(api, env, rooms[..k], wm, clock);
      if Traverse(api, env, rooms[..k], wm, clock).failure.None? {
        TraverseRoom(api, env, rooms, wm, clock);
      } else {
        TraverseHalted(api, env, rooms, wm, clock);
      }
    }
  }

  /** Past a room whose list could not be fetched, the walk and its responses stay as they are. */
  lemma TraverseHalted(api: Api, env: Env, rooms: seq<RawRoom>, wm: int, clock: nat)
    requires rooms != [] && AnyFails(api, rooms[..|rooms| - 1])
    requires Traverse(api, env, rooms[..|rooms| - 1], wm, clock).failure.Some?
    ensures Traverse(api, env, rooms, wm, clock) == Traverse(api, env, rooms[..|rooms| - 1], wm, clock)
    ensures WalkReplies(api, rooms) == WalkReplies(api, rooms[..|rooms| - 1])
  {
    assert rooms[..|rooms|] == rooms;
    TraverseKeepsFailure(api, env, rooms, wm, clock, |rooms|);
  }

  /** The step of `TraverseRecords` past a room whose predecessors were all listed. */
  lemma TraverseRoom(api: Api, env: Env, rooms: seq<RawRoom>, wm: int, clock: nat)
    requires rooms != [] && !AnyFails(api, rooms[..|rooms| - 1])
    requires Traverse(api, env, rooms[..|rooms| - 1], wm, clock).failure.None?
    requires RecordsOf(Traverse(api, env, rooms[..|rooms| - 1], wm, clock).out)
      == Collected(WalkReplies(api, rooms[..|rooms| - 1]), env, clock)
    requires Traverse(api, env, rooms[..|rooms| - 1], wm, clock).clock
      == clock + |WalkReplies(api, rooms[..|rooms| - 1])|
    ensures RecordsOf(Traverse(api, env, rooms, wm, clock).out) == Collected(WalkReplies(api, rooms), env, clock)
  {
    var k := |rooms| - 1;
    var roomId := rooms[k].sid;
    var list := api.participants(roomId, NoQuery);
    var prev := Traverse(api, env, rooms[..k], wm, clock);
    var replies := WalkReplies(api, rooms[..k]);
    var room := if list.Success? then Replies(api, roomId, Items(list.value)) else [];
    var v := VisitRoom(api, env, roomId, prev.wm, prev.clock);
    calc {
      RecordsOf(Traverse(api, env, rooms, wm, clock).out);
      { RecordsOfAppend(prev.out, v.out); }
      RecordsOf(prev.out) + RecordsOf(v.out);
      { VisitRoomRecords(api, env, roomId, prev.wm, prev.clock); }
      Collected(replies, env, clock) + Collected(room, env, clock + |replies|);
      { CollectedAppend(replies, room, env, clock); }
      Collected(replies + room, env, clock);
    }
  }

  /** A quality metrics run emits no record when the room list cannot be fetched, and otherwise
      exactly the records of the metrics responses the walk over the listed rooms received: a
      failed metrics request costs only that participant's records. */
  lemma MetricsRunRecords(api: Api, env: Env, config: map<string, JsValue>, state: StreamState, clock: nat)
    ensures var response := api.rooms(RoomsQuery(Base.StartDate(config, state, env), env.today));
      var run := MetricsRun(api, env, config, state, clock);
      && (response.Failure? ==> RecordsOf(run.out) == [])
      && (response.Success? ==> RecordsOf(run.out) == Collected(WalkReplies(api, Items(response.value)), env, clock))
  {
    var from := Base.StartDate(config, state, env);
    var response := api.rooms(RoomsQuery(from, env.today));
    if response.Failure? {
      CloseWellFormed(Name, ErrorPrefix, Completed, Head(from, env), PriorWatermark(state), Some(response.error), state);
      RecordsOfNone(Head(from, env));
    } else {
      var rooms := Items(response.value);
      var v := Traverse(api, env, rooms, PriorWatermark(state), clock);
      var lead := Head(from, env) + [FoundLog(|rooms|)];
      TraverseFacts(api, env, rooms, PriorWatermark(state), clock);
      TraverseRecords(api, env, rooms, PriorWatermark(state), clock);
      AdvanceAllIsMax(PriorWatermark(state), AudioTimes(RecordsOf(v.out)));
      LeadFacts(from, env, |rooms|);
      RecordsOfAppend(lead, v.out);
      NoStatesAppend(lead, v.out);
      assert [] + RecordsOf(v.out) == RecordsOf(v.out);
      CloseWellFormed(Name, ErrorPrefix, Completed, lead + v.out, v.wm, v.failure, state);
    }
  }
}
