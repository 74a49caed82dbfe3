/** The items the LiveKit API returns and the canonical records the five streams emit.
    Field names follow the wire format (`room_id` becomes `roomId`). Fields the source only
    copies or defaults with `||` keep their JavaScript value; fields the source computes with
    are typed. */
module Records {
  import opened Values

  // ---------------------------------------------------------------------------------------------
  // Rooms

  /** An item of `GET /rooms`. */
  datatype RawRoom = RawRoom(
    sid: string,
    name: JsValue,
    createdAt: JsValue,
    numParticipants: JsValue,
    duration: JsValue,
    active: JsValue,
    metadata: JsValue)

  /** A record of the `rooms` stream; primary key (room_id, timestamp). */
  datatype RoomRecord = RoomRecord(
    roomId: string,
    name: JsValue,
    timestamp: Epoch,
    participantCount: JsValue,
    createdAt: JsValue,
    duration: JsValue,
    active: JsValue,
    metadata: JsValue)

  // ---------------------------------------------------------------------------------------------
  // Events

  /** An item of `GET /events`; `level` is absent or a string. */
  datatype RawEvent = RawEvent(
    id: JsValue,
    roomId: JsValue,
    participantId: JsValue,
    timestamp: JsValue,
    eventType: JsValue,
    level: Option<string>,
    message: JsValue,
    metadata: JsValue,
    source: JsValue,
    ipAddress: JsValue,
    region: JsValue)

  datatype Severity = Info | Warning | Error | Critical

  /** A record of the `events` stream; primary key (event_id). */
  datatype EventRecord = EventRecord(
    eventId: JsValue,
    roomId: JsValue,
    participantId: JsValue,
    timestamp: Epoch,
    eventTime: JsValue,
    eventType: JsValue,
    severity: Severity,
    message: JsValue,
    metadata: JsValue,
    source: JsValue,
    ipAddress: JsValue,
    region: JsValue)

  // ---------------------------------------------------------------------------------------------
  // Participants

  /** An item of `GET /rooms/{room}/participants`. */
  datatype RawParticipant = RawParticipant(
    sid: string,
    identity: JsValue,
    name: JsValue,
    joinedAt: JsValue,
    leftAt: JsValue,
    error: JsValue,
    publisher: JsValue,
    subscriber: JsValue,
    metadata: JsValue,
    userAgent: JsValue,
    ipAddress: JsValue,
    region: JsValue)

  /** The participant's lifecycle label (`state` on the wire). */
  datatype Lifecycle = Joined | Left | Disconnected

  /** A record of the `participants` stream; primary key (participant_id, room_id, timestamp).
      `duration` is None where the source writes null (or a NaN, which serialises as null). */
  datatype ParticipantRecord = ParticipantRecord(
    participantId: string,
    roomId: string,
    timestamp: Epoch,
    identity: JsValue,
    name: JsValue,
    joinedAt: JsValue,
    leftAt: JsValue,
    duration: Option<int>,
    state: Lifecycle,
    isPublisher: bool,
    isSubscriber: bool,
    metadata: JsValue,
    userAgent: JsValue,
    ipAddress: JsValue,
    region: JsValue)

  // ---------------------------------------------------------------------------------------------
  // Quality metrics

  datatype Resolution = Resolution(width: Option<real>, height: Option<real>)

  /** The statistics of one track kind in `GET /rooms/{room}/participants/{p}/metrics`. */
  datatype TrackStats = TrackStats(
    latency: Option<real>,
    packetLoss: Option<real>,
    jitter: Option<real>,
    bitrate: Option<real>,
    level: Option<real>,
    frameRate: Option<real>,
    resolution: Option<Resolution>,
    quality: Option<real>)

  /** The metrics response; a track kind that is absent (or falsy) is None. */
  datatype RawMetrics = RawMetrics(
    audio: Option<TrackStats>,
    video: Option<TrackStats>,
    screenShare: Option<TrackStats>)

  datatype TrackType = Audio | Video | ScreenShare

  function TrackTypeName(t: TrackType): string {
    match t
    case Audio => "audio"
    case Video => "video"
    case ScreenShare => "screen_share"
  }

  datatype ConnectionQuality = Excellent | Good | Poor | Unknown

  /** A record of the `quality_metrics` stream; primary key (metric_id). The video fields and
      `audio_level` are None where the source writes null. */
  datatype MetricRecord = MetricRecord(
    metricId: string,
    roomId: string,
    participantId: string,
    timestamp: int,
    collectedAt: string,
    latency: real,
    packetLoss: real,
    jitter: real,
    bitrate: real,
    audioLevel: Option<real>,
    videoFrameRate: Option<real>,
    videoResolutionWidth: Option<real>,
    videoResolutionHeight: Option<real>,
    trackType: TrackType,
    connectionQuality: ConnectionQuality)

  // ---------------------------------------------------------------------------------------------
  // Usage

  /** The counters of one day, globally or for one region, as `GET /usage` reports them. */
  datatype Counters = Counters(
    participantMinutes: Option<real>,
    recordingMinutes: Option<real>,
    egressBandwidth: Option<real>,
    ingressBandwidth: Option<real>,
    roomCount: Option<real>,
    participantCount: Option<real>)

  /** One entry of an object's `regions` map, in the object's key order. */
  datatype RegionUsage = RegionUsage(name: string, counters: Counters)

  datatype DayUsage = DayUsage(date: string, totals: Counters, regions: Option<seq<RegionUsage>>)

  /** The response of `GET /usage`. */
  datatype RawUsage = RawUsage(daily: Option<seq<DayUsage>>)

  datatype Resource = ParticipantMinutes | RecordingMinutes | EgressBandwidth | IngressBandwidth

  datatype Unit = Minutes | Gigabytes

  /** A record of the `usage` stream; primary key (usage_id). */
  datatype UsageRecord = UsageRecord(
    usageId: string,
    timestamp: Epoch,
    date: string,
    resourceType: Resource,
    unit: Unit,
    quantity: real,
    roomCount: real,
    participantCount: real,
    participantMinutes: real,
    recordingMinutes: real,
    egressBandwidth: real,
    ingressBandwidth: real,
    region: string)
}
